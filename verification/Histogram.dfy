/** CalculateStatsHandler: how often each digit occurs in the selected files, in all and by file name. */
module Histogram {
  import opened Basics

  /** What the handler asks of a File entity; a missing storage key and an empty one are told apart. */
  datatype StoredFile = StoredFile(filename: string, hash: Option<Hash>, storageKey: Option<string>)

  /** A file id as text: UUID(...) accepts it or raises. */
  datatype IdText = Uuid(id: FileId) | Malformed

  datatype Tally = Tally(counts: map<char, nat>)

  datatype Stats = Stats(total: Tally, byFile: map<string, Tally>)

  datatype Result = Computed(stats: Stats) | MalformedId

  predicate IsDigit(c: char) {
    '0' <= c <= '9'
  }

  const DIGITS: seq<char> := "0123456789"

  lemma DigitsAreTen(c: char)
    ensures IsDigit(c) <==> c in DIGITS
  {
    assert DIGITS[0] == '0' && DIGITS[1] == '1' && DIGITS[2] == '2' && DIGITS[3] == '3' && DIGITS[4] == '4'
           && DIGITS[5] == '5' && DIGITS[6] == '6' && DIGITS[7] == '7' && DIGITS[8] == '8' && DIGITS[9] == '9';
    if IsDigit(c) {
      assert c == DIGITS[c as int - '0' as int];
    }
  }

  /** How often c occurs in a text. */
  function Occurrences(text: string, c: char): nat {
    if text == "" then 0
    else Occurrences(text[..|text| - 1], c) + if text[|text| - 1] == c then 1 else 0
  }

  /** A selected file's name and what the store holds for it. */
  datatype Text = Text(filename: string, content: string)

  function OccurrencesIn(texts: seq<Text>, c: char): nat {
    if texts == [] then 0
    else OccurrencesIn(texts[..|texts| - 1], c) + Occurrences(texts[|texts| - 1].content, c)
  }

  /** The last text called f. */
  function LastNamed(texts: seq<Text>, f: string): Option<string> {
    if texts == [] then None
    else if texts[|texts| - 1].filename == f then Some(texts[|texts| - 1].content)
    else LastNamed(texts[..|texts| - 1], f)
  }

  function Names(texts: seq<Text>): set<string> {
    set x | x in texts :: x.filename
  }

  lemma SnocText(texts: seq<Text>, x: Text, c: char)
    ensures OccurrencesIn(texts + [x], c) == OccurrencesIn(texts, c) + Occurrences(x.content, c)
    ensures Names(texts + [x]) == Names(texts) + {x.filename}
    ensures forall f :: LastNamed(texts + [x], f) == if f == x.filename then Some(x.content) else LastNamed(texts, f)
  {
    var all := texts + [x];
    assert all[..|texts|] == texts;
    assert forall y :: y in all <==> y in texts || y == x;
    assert x in all;
    forall y | y in texts
      ensures y.filename in Names(all)
    {
      assert y in all;
    }
  }

  lemma NamedIffLast(texts: seq<Text>, f: string)
    ensures f in Names(texts) <==> LastNamed(texts, f).Some?
  {
    if texts != [] {
      var prefix, x := texts[..|texts| - 1], texts[|texts| - 1];
      NamedIffLast(prefix, f);
      assert texts == prefix + [x];
      SnocText(prefix, x, '0');
    }
  }

  lemma NamesOfBoth(a: seq<Text>, b: seq<Text>, f: string)
    ensures f in Names(a + b) <==> f in Names(a) || f in Names(b)
  {
    assert forall x :: x in a + b <==> x in a || x in b;
    if f in Names(a) || f in Names(b) {
      var x :| (x in a || x in b) && x.filename == f;
      assert x in a + b;
    }
  }

  function At(t: Tally, c: char): nat {
    if c in t.counts then t.counts[c] else 0
  }

  predicate OnlyDigits(t: Tally) {
    forall c :: c in t.counts ==> IsDigit(c)
  }

  /** The tally of one text, and of several. */
  ghost predicate CountsText(t: Tally, text: string) {
    OnlyDigits(t) && forall c :: IsDigit(c) ==> At(t, c) == Occurrences(text, c)
  }

  ghost predicate CountsTexts(t: Tally, texts: seq<Text>) {
    OnlyDigits(t) && forall c :: IsDigit(c) ==> At(t, c) == OccurrencesIn(texts, c)
  }

  /** The loops' state: total counts all the texts so far, byFile the last text of each name. */
  ghost predicate Counted(total: Tally, byFile: map<string, Tally>, texts: seq<Text>) {
    && CountsTexts(total, texts)
    && byFile.Keys == Names(texts)
    && (forall f :: f in byFile ==> LastNamed(texts, f).Some? && CountsText(byFile[f], LastNamed(texts, f).value))
  }

  /** The first n digits have their entries. */
  predicate FilledTo(t: Tally, n: nat)
    requires n <= |DIGITS|
  {
    forall i :: 0 <= i < n ==> DIGITS[i] in t.counts
  }

  predicate Filled(t: Tally) {
    FilledTo(t, |DIGITS|)
  }

  function WithZero(t: Tally, d: char): Tally {
    if d in t.counts then t else Tally(t.counts[d := 0])
  }

  lemma ZeroChangesNothing(t: Tally, d: char)
    requires IsDigit(d)
    ensures OnlyDigits(t) ==> OnlyDigits(WithZero(t, d))
    ensures forall c :: At(WithZero(t, d), c) == At(t, c)
    ensures forall n :: 0 <= n < |DIGITS| && FilledTo(t, n) ==>
      FilledTo(WithZero(t, d), n) && (d == DIGITS[n] ==> FilledTo(WithZero(t, d), n + 1))
  {
  }

  /** What the query answers for these texts: exactly the ten digits in every map. */
  ghost predicate Answers(stats: Stats, texts: seq<Text>) {
    && Counted(stats.total, stats.byFile, texts)
    && Filled(stats.total)
    && (forall f :: f in stats.byFile ==> Filled(stats.byFile[f]))
  }

  lemma AnswersMeans(stats: Stats, texts: seq<Text>, f: string, d: char)
    requires Answers(stats, texts) && d in DIGITS
    ensures stats.total.counts.Keys == set c | c in DIGITS
    ensures stats.total.counts[d] == OccurrencesIn(texts, d)
    ensures f in stats.byFile <==> LastNamed(texts, f).Some?
    ensures f in stats.byFile ==>
      && stats.byFile[f].counts.Keys == (set c | c in DIGITS)
      && stats.byFile[f].counts[d] == Occurrences(LastNamed(texts, f).value, d)
  {
    NamedIffLast(texts, f);
    forall c
      ensures IsDigit(c) <==> c in DIGITS
    {
      DigitsAreTen(c);
    }
  }

  class CalculateStatsHandler {
    const files: map<FileId, StoredFile>   // files by id
    const store: map<string, string>       // what can be downloaded and decoded, by key

    /** The text a file contributes, if any: it has a hash, a key, and something behind the key. */
    function TextOf(file: StoredFile): Option<Text> {
      if file.hash.None? || file.storageKey.None? then None
      else
        var key := file.storageKey.value;
        if key == "" || key !in store || store[key] == "" then None else Some(Text(file.filename, store[key]))
    }

    /** The texts of the files asked for, in order. */
    function Texts(ids: seq<IdText>): seq<Text> {
      if ids == [] then []
      else Texts(ids[..|ids| - 1]) + Contribution(ids[|ids| - 1])
    }

    function Contribution(id: IdText): seq<Text> {
      if id.Malformed? || id.id !in files then []
      else match TextOf(files[id.id]) case Some(x) => [x] case None => []
    }

    function TextsOfFiles(picked: seq<StoredFile>): seq<Text> {
      if picked == [] then []
      else
        TextsOfFiles(picked[..|picked| - 1]) +
        match TextOf(picked[|picked| - 1]) case Some(x) => [x] case None => []
    }

    /** The file of this id is stored under a key and has a hash; the text behind the key is not empty, and is this. */
    predicate Contributes(id: IdText, text: string) {
      && id.Uuid? && id.id in files && files[id.id].hash.Some?
      && files[id.id].storageKey.Some? && files[id.id].storageKey.value != ""
      && files[id.id].storageKey.value in store && store[files[id.id].storageKey.value] == text && text != ""
    }

    /** What one id contributes: the text behind its file's key, under the file's own name, or nothing. */
    lemma TextsOfOne(id: IdText)
      ensures forall text :: Contributes(id, text) ==> Texts([id]) == [Text(files[id.id].filename, text)]
      ensures (forall text :: !Contributes(id, text)) ==> Texts([id]) == []
    {
      assert [id][..0] == [];
      assert Texts([id]) == Texts([]) + Contribution(id);
      if id.Uuid? && id.id in files && files[id.id].storageKey.Some? && files[id.id].storageKey.value in store {
        assert Contributes(id, store[files[id.id].storageKey.value])
               || TextOf(files[id.id]) == None;
      }
    }

    lemma TextsAppend(ids: seq<IdText>, id: IdText)
      ensures Texts(ids + [id]) == Texts(ids) + Contribution(id)
    {
      assert (ids + [id])[..|ids|] == ids;
    }

    /** And a list of ids what its parts contribute, in order. */
    lemma {:induction false} TextsConcat(a: seq<IdText>, b: seq<IdText>)
      ensures Texts(a + b) == Texts(a) + Texts(b)
    {
      hide Contribution;
      if b == [] {
        assert a + b == a;
      } else {
        var prefix, last := b[..|b| - 1], b[|b| - 1];
        TextsConcat(a, prefix);
        OneMoreText(a, prefix, last);
        assert prefix + [last] == b;
      }
    }

    lemma OneMoreText(a: seq<IdText>, b: seq<IdText>, id: IdText)
      requires Texts(a + b) == Texts(a) + Texts(b)
      ensures Texts(a + (b + [id])) == Texts(a) + Texts(b + [id])
    {
      hide Texts, Contribution;
      TextsAppend(a + b, id);
      TextsAppend(b, id);
      assert a + b + [id] == a + (b + [id]);
    }

    /** So the names of by_file are those of the ids that contribute. */
    lemma {:induction false} NamesOfTexts(ids: seq<IdText>, f: string)
      ensures f in Names(Texts(ids))
              <==> exists i, text :: 0 <= i < |ids| && Contributes(ids[i], text) && files[ids[i].id].filename == f
    {
      if ids != [] {
        var n := |ids| - 1;
        var prefix, id := ids[..n], ids[n];
        assert ids == prefix + [id];
        TextsConcat(prefix, [id]);
        TextsOfOne(id);
        NamesOfTexts(prefix, f);
        hide Texts, Contributes;
        NamesOfBoth(Texts(prefix), Texts([id]), f);
        if exists text :: Contributes(id, text) {
          var text :| Contributes(id, text);
          assert Texts([id])[0].filename == files[id.id].filename;
        }
      }
    }

    lemma TextsSnoc(ids: seq<IdText>, i: nat)
      requires i < |ids|
      ensures Texts(ids[..i + 1]) == Texts(ids[..i]) + Contribution(ids[i])
      ensures Malformed in ids[..i + 1] <==> Malformed in ids[..i] || ids[i] == Malformed
    {
      assert ids[..i + 1] == ids[..i] + [ids[i]];
      assert ids[..i + 1][..i] == ids[..i];
    }

    lemma PickedOneMore(picked: seq<StoredFile>, id: IdText)
      requires id.Uuid? && id.id in files
      ensures
        var file := files[id.id];
        if file.hash.Some? && file.storageKey.Some? then
          TextsOfFiles(picked + [file]) == TextsOfFiles(picked) + Contribution(id)
        else Contribution(id) == []
    {
      var file := files[id.id];
      assert (picked + [file])[..|picked|] == picked;
    }

    /** The first loop: look every id up. */
    method Select(ids: seq<IdText>) returns (ok: bool, picked: seq<StoredFile>)
      ensures ok <==> Malformed !in ids
      ensures ok ==> TextsOfFiles(picked) == Texts(ids)
    {
      hide TextOf, Contribution;
      picked := [];
      for i := 0 to |ids|
        invariant Malformed !in ids[..i]
        invariant TextsOfFiles(picked) == Texts(ids[..i])
      {
        hide Texts, TextsOfFiles;
        TextsSnoc(ids, i);
        if ids[i].Malformed? {
          return false, [];
        }
        if ids[i].id in files {
          var file := files[ids[i].id];
          PickedOneMore(picked, ids[i]);
          if file.hash.Some? && file.storageKey.Some? {
            picked := picked + [file];
          }
        } else {
          NothingStored(ids[i]);
        }
      }
      assert ids[..|ids|] == ids;
      ok := true;
    }

    lemma NothingStored(id: IdText)
      requires id.Uuid? && id.id !in files
      ensures Contribution(id) == []
    {
    }

    /** The innermost loop: count the digits of one text, both in total and for its name. */
    method CountDigits(total0: Tally, x: Text, ghost texts: seq<Text>) returns (total: Tally, mine: Tally)
      requires CountsTexts(total0, texts)
      ensures CountsTexts(total, texts + [x]) && CountsText(mine, x.content)
    {
      total, mine := total0, Tally(map[]);
      for i := 0 to |x.content|
        invariant CountsText(mine, x.content[..i])
        invariant OnlyDigits(total)
        invariant forall c :: IsDigit(c) ==> At(total, c) == OccurrencesIn(texts, c) + Occurrences(x.content[..i], c)
      {
        var c := x.content[i];
        assert x.content[..i + 1][..i] == x.content[..i];
        if IsDigit(c) {
          total := Tally(total.counts[c := At(total, c) + 1]);
          mine := Tally(mine.counts[c := At(mine, c) + 1]);
        }
      }
      assert x.content[..|x.content|] == x.content;
      forall c
        ensures OccurrencesIn(texts + [x], c) == OccurrencesIn(texts, c) + Occurrences(x.content, c)
      {
        SnocText(texts, x, c);
      }
    }

    lemma PickedSnoc(picked: seq<StoredFile>, i: nat)
      requires i < |picked|
      ensures TextsOfFiles(picked[..i + 1]) ==
        match TextOf(picked[i]) case Some(x) => TextsOfFiles(picked[..i]) + [x] case None => TextsOfFiles(picked[..i])
    {
      assert picked[..i + 1][..i] == picked[..i];
    }

    /** The loop over the selected files. */
    method CountFiles(picked: seq<StoredFile>) returns (total: Tally, byFile: map<string, Tally>)
      ensures Counted(total, byFile, TextsOfFiles(picked))
    {
      total, byFile := Tally(map[]), map[];
      for i := 0 to |picked|
        invariant Counted(total, byFile, TextsOfFiles(picked[..i]))
      {
        PickedSnoc(picked, i);
        hide TextsOfFiles, CountsTexts, CountsText, LastNamed, Names;
        ghost var texts := TextsOfFiles(picked[..i]);
        var file := picked[i];
        if file.hash.Some? && file.storageKey.Some? && file.storageKey.value != "" && file.storageKey.value in store {
          var content := store[file.storageKey.value];
          if content != "" {
            var mine: Tally;
            total, mine := CountDigits(total, Text(file.filename, content), texts);
            CountedSnoc(byFile, texts, Text(file.filename, content), mine);
            byFile := byFile[file.filename := mine];
          }
        }
      }
      assert picked[..|picked|] == picked;
    }

    lemma CountedSnoc(byFile: map<string, Tally>, texts: seq<Text>, x: Text, mine: Tally)
      requires byFile.Keys == Names(texts) && CountsText(mine, x.content)
      requires forall f :: f in byFile ==> LastNamed(texts, f).Some? && CountsText(byFile[f], LastNamed(texts, f).value)
      ensures
        var byFile' := byFile[x.filename := mine];
        && byFile'.Keys == Names(texts + [x])
        && (forall f :: f in byFile' ==>
              LastNamed(texts + [x], f).Some? && CountsText(byFile'[f], LastNamed(texts + [x], f).value))
    {
      SnocText(texts, x, '0');
      hide Names, LastNamed, CountsText;
    }

    /** The last loops: a zero for every digit not met. */
    method ZeroFill(total0: Tally, byFile0: map<string, Tally>, ghost texts: seq<Text>) returns (stats: Stats)
      requires Counted(total0, byFile0, texts)
      ensures Answers(stats, texts)
    {
      var total, byFile := total0, byFile0;
      for i := 0 to |DIGITS|
        invariant Counted(total, byFile, texts) && FilledTo(total, i)
        invariant forall f :: f in byFile ==> FilledTo(byFile[f], i)
      {
        DigitsAreTen(DIGITS[i]);
        ZeroChangesNothing(total, DIGITS[i]);
        hide At, WithZero, FilledTo, OccurrencesIn, Occurrences, LastNamed;
        total := WithZero(total, DIGITS[i]);
        byFile := ZeroInAll(total, byFile, i, texts);
      }
      stats := Stats(total, byFile);
    }

    /** The loop over the names, for one digit. */
    method ZeroInAll(ghost total: Tally, byFile0: map<string, Tally>, i: nat, ghost texts: seq<Text>)
      returns (byFile: map<string, Tally>)
      requires i < |DIGITS| && Counted(total, byFile0, texts) && forall f :: f in byFile0 ==> FilledTo(byFile0[f], i)
      ensures Counted(total, byFile, texts) && forall f :: f in byFile ==> FilledTo(byFile[f], i + 1)
    {
      byFile := byFile0;
      var rest := byFile.Keys;
      while rest != {}
        invariant rest <= byFile.Keys
        invariant Counted(total, byFile, texts)
        invariant forall f :: f in byFile ==> FilledTo(byFile[f], if f in rest then i else i + 1)
      {
        var f :| f in rest;
        ZeroOne(total, byFile, f, i, texts);
        hide Counted, FilledTo, WithZero;
        byFile := byFile[f := WithZero(byFile[f], DIGITS[i])];
        rest := rest - {f};
      }
    }

    lemma ZeroOne(total: Tally, byFile: map<string, Tally>, f: string, i: nat, texts: seq<Text>)
      requires i < |DIGITS| && Counted(total, byFile, texts) && f in byFile && FilledTo(byFile[f], i)
      ensures Counted(total, byFile[f := WithZero(byFile[f], DIGITS[i])], texts)
      ensures FilledTo(WithZero(byFile[f], DIGITS[i]), i + 1)
    {
      DigitsAreTen(DIGITS[i]);
      ZeroChangesNothing(byFile[f], DIGITS[i]);
      hide At, WithZero, OccurrencesIn, Occurrences, LastNamed, Names, CountsTexts;
    }

    /**
     * The query: refused if an id is malformed, whatever the other ids are; else the digit counts of every text
     * the ids lead to.
     */
    method Execute(ids: seq<IdText>) returns (r: Result)
      ensures r == MalformedId <==> Malformed in ids
      ensures r.Computed? ==> Answers(r.stats, Texts(ids))
      ensures r.Computed? ==>
        forall f :: f in r.stats.byFile <==>
          exists i, text :: 0 <= i < |ids| && Contributes(ids[i], text) && files[ids[i].id].filename == f
    {
      var ok, picked := Select(ids);
      if !ok {
        return MalformedId;
      }
      var total, byFile := CountFiles(picked);
      var stats := ZeroFill(total, byFile, Texts(ids));
      r := Computed(stats);
      forall f
        ensures f in stats.byFile <==>
          exists i, text :: 0 <= i < |ids| && Contributes(ids[i], text) && files[ids[i].id].filename == f
      {
        NamesOfTexts(ids, f);
      }
    }
  }

  /** The sum of n over a set of names. */
  ghost function SumOver(names: set<string>, n: string -> nat): nat {
    if names == {} then 0
    else
      var f :| f in names;
      n(f) + SumOver(names - {f}, n)
  }

  lemma {:induction false} SumOverRemove(names: set<string>, n: string -> nat, f: string)
    requires f in names
    ensures SumOver(names, n) == n(f) + SumOver(names - {f}, n)
  {
    var g :| g in names && SumOver(names, n) == n(g) + SumOver(names - {g}, n);
    if g != f {
      SumOverRemove(names - {g}, n, f);
      SumOverRemove(names - {f}, n, g);
      assert names - {g} - {f} == names - {f} - {g};
    }
  }

  lemma {:induction false} SumOverSame(names: set<string>, n: string -> nat, m: string -> nat)
    requires forall f :: f in names ==> n(f) == m(f)
    ensures SumOver(names, n) == SumOver(names, m)
  {
    if names != {} {
      var f :| f in names;
      SumOverRemove(names, n, f);
      SumOverRemove(names, m, f);
      SumOverSame(names - {f}, n, m);
    }
  }

  /** How often d occurs in the last text called f. */
  function InLast(texts: seq<Text>, f: string, d: char): nat {
    match LastNamed(texts, f)
    case Some(text) => Occurrences(text, d)
    case None => 0
  }

  /** How often d occurs in texts that a later one of the same name replaces. */
  function InReplaced(texts: seq<Text>, d: char): nat {
    if texts == [] then 0
    else
      var prefix := texts[..|texts| - 1];
      InReplaced(prefix, d) + InLast(prefix, texts[|texts| - 1].filename, d)
  }

  /** Conservation: total is the sum of by_file and of what was replaced. */
  lemma {:induction false} TotalSplits(texts: seq<Text>, d: char)
    ensures OccurrencesIn(texts, d) == SumOver(Names(texts), f => InLast(texts, f, d)) + InReplaced(texts, d)
  {
    if texts == [] {
      assert Names(texts) == {};
    } else {
      var prefix, x := texts[..|texts| - 1], texts[|texts| - 1];
      var was, now := f => InLast(prefix, f, d), f => InLast(texts, f, d);
      assert texts == prefix + [x];
      TotalSplits(prefix, d);
      SnocText(prefix, x, d);
      NamedIffLast(prefix, x.filename);
      var others := Names(prefix) - {x.filename};
      SumOverSame(others, was, now);
      SumOverRemove(Names(texts), now, x.filename);
      assert Names(texts) - {x.filename} == others;
      if x.filename in Names(prefix) {
        SumOverRemove(Names(prefix), was, x.filename);
      } else {
        assert others == Names(prefix);
      }
    }
  }

  predicate Replaced(texts: seq<Text>, i: nat)
    requires i < |texts|
  {
    exists j :: i < j < |texts| && texts[j].filename == texts[i].filename
  }

  lemma {:induction false} LastIsNotReplaced(texts: seq<Text>, i: nat)
    requires i < |texts| && !Replaced(texts, i)
    ensures LastNamed(texts, texts[i].filename) == Some(texts[i].content)
  {
    if i < |texts| - 1 {
      var prefix := texts[..|texts| - 1];
      assert texts[|texts| - 1].filename != texts[i].filename;
      assert !Replaced(prefix, i);
      LastIsNotReplaced(prefix, i);
    }
  }

  lemma ReplacedSnoc(texts: seq<Text>, i: nat)
    requires i < |texts| - 1
    ensures Replaced(texts, i)
            <==> Replaced(texts[..|texts| - 1], i) || texts[|texts| - 1].filename == texts[i].filename
  {
    var n := |texts| - 1;
    var prefix := texts[..n];
    if Replaced(prefix, i) {
      var j :| i < j < n && prefix[j].filename == prefix[i].filename;
      assert texts[j].filename == texts[i].filename;
    }
    if Replaced(texts, i) && texts[n].filename != texts[i].filename {
      var j :| i < j < |texts| && texts[j].filename == texts[i].filename;
      assert prefix[j].filename == prefix[i].filename;
    }
  }

  /** No text replaced by a later one of its name has the digit d. */
  ghost predicate ReplacedFree(texts: seq<Text>, d: char) {
    forall i :: 0 <= i < |texts| && Replaced(texts, i) ==> Occurrences(texts[i].content, d) == 0
  }

  lemma {:induction false} ReplacedMeans(texts: seq<Text>, d: char)
    ensures InReplaced(texts, d) == 0 <==> ReplacedFree(texts, d)
  {
    if texts != [] {
      ReplacedMeans(texts[..|texts| - 1], d);
      ReplacedFreeSnoc(texts, d);
    }
  }

  lemma ReplacedFreeSnoc(texts: seq<Text>, d: char)
    requires texts != []
    ensures ReplacedFree(texts, d) <==>
            && ReplacedFree(texts[..|texts| - 1], d)
            && InLast(texts[..|texts| - 1], texts[|texts| - 1].filename, d) == 0
  {
    var n := |texts| - 1;
    var prefix, f := texts[..n], texts[n].filename;
    hide Replaced, Occurrences, LastNamed;
    forall i | 0 <= i < n
      ensures prefix[i] == texts[i] && (Replaced(texts, i) <==> Replaced(prefix, i) || f == texts[i].filename)
      ensures f == texts[i].filename && !Replaced(prefix, i) ==> LastNamed(prefix, f) == Some(texts[i].content)
    {
      ReplacedSnoc(texts, i);
      if f == texts[i].filename && !Replaced(prefix, i) {
        LastIsNotReplaced(prefix, i);
      }
    }
    LastStays(texts);
    if LastNamed(prefix, f).Some? {
      var k := LastIsSomewhere(prefix, f);
      assert Replaced(texts, k) && texts[k].content == LastNamed(prefix, f).value;
    }
  }

  lemma LastStays(texts: seq<Text>)
    ensures texts != [] ==> !Replaced(texts, |texts| - 1)
  {
  }

  lemma {:induction false} LastIsSomewhere(texts: seq<Text>, f: string) returns (i: nat)
    requires LastNamed(texts, f).Some?
    ensures i < |texts| && texts[i].filename == f && LastNamed(texts, f) == Some(texts[i].content) && !Replaced(texts, i)
  {
    i := |texts| - 1;
    if texts[i].filename != f {
      var n := i;
      i := LastIsSomewhere(texts[..n], f);
      assert forall j :: i < j < n ==> texts[..n][j] == texts[j];
      assert forall j :: i < j < n ==> texts[..n][j].filename != f;
    }
  }

  /** The sum of a digit's counts over by_file. */
  ghost function SumByFile(stats: Stats, d: char): nat {
    SumOver(stats.byFile.Keys, f => if f in stats.byFile then At(stats.byFile[f], d) else 0)
  }

  lemma SumByFileIs(stats: Stats, texts: seq<Text>, d: char)
    requires Answers(stats, texts) && d in DIGITS
    ensures d in stats.total.counts
    ensures stats.total.counts[d] == SumByFile(stats, d) + InReplaced(texts, d)
  {
    DigitsAreTen(d);
    SumOverSame(stats.byFile.Keys, f => if f in stats.byFile then At(stats.byFile[f], d) else 0,
                f => InLast(texts, f, d));
    TotalSplits(texts, d);
  }

  /**
   * In every answer the total of a digit is at least the sum of its counts by file, and equal to it if and only
   * if no text replaced by a later one of its name has the digit; so always, if the names are distinct.
   */
  lemma TotalAgainstFiles(stats: Stats, texts: seq<Text>, d: char)
    requires Answers(stats, texts) && d in DIGITS
    ensures
      && stats.total.counts[d] >= SumByFile(stats, d)
      && (stats.total.counts[d] == SumByFile(stats, d) <==> ReplacedFree(texts, d))
  {
    SumByFileIs(stats, texts, d);
    ReplacedMeans(texts, d);
  }

  lemma DistinctNames(stats: Stats, texts: seq<Text>, d: char)
    requires Answers(stats, texts) && d in DIGITS
    requires forall i, j :: 0 <= i < j < |texts| ==> texts[i].filename != texts[j].filename
    ensures stats.total.counts[d] == SumByFile(stats, d)
  {
    TotalAgainstFiles(stats, texts, d);
    assert forall i :: 0 <= i < |texts| ==> !Replaced(texts, i);
  }

  /** It can be less: of two files called f with one digit each, the first is in the total only. */
  lemma TotalExceedsFiles(stats: Stats, f: string)
    requires Answers(stats, [Text(f, "1"), Text(f, "1")])
    ensures At(stats.total, '1') == 2 && SumByFile(stats, '1') == 1
  {
    var texts := [Text(f, "1"), Text(f, "1")];
    DigitsAreTen('1');
    AnswersMeans(stats, texts, f, '1');
    assert texts[..1] == [Text(f, "1")] && texts[..1][..0] == [] && "1"[..0] == "";
    assert Occurrences("1", '1') == 1;
    assert OccurrencesIn(texts[..1], '1') == 1;
    assert InReplaced(texts, '1') == InReplaced(texts[..1], '1') + InLast(texts[..1], f, '1');
    SumByFileIs(stats, texts, '1');
  }
}

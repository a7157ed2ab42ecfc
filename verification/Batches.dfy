/**
 * The meaning of a batch: what a list of archive members adds to a task's ledger and objects, and how a list of
 * recorded files is undone.
 */
module Batches {
  import opened Basics
  import opened Protocol
  import opened Interference
  import opened Worlds

  /** What the tables hold under a name. */
  datatype Listing = Listing(hash: Hash, size: nat)

  /** What a task has listed, and the objects set apart for it. */
  datatype Stock = Stock(listed: map<Name, Listing>, shelf: map<Name, Content>)

  function Listed(ledger: map<Name, LedgerRow>): map<Name, Listing> {
    map n | n in ledger :: Listing(ledger[n].hash, ledger[n].size)
  }

  function StockOf(v: View): Stock {
    Stock(Listed(v.ledger), v.shelf)
  }

  /** A name in the ledger is skipped; a new one is stored and listed. */
  function Receive(st: Stock, x: Extracted, digest: Content -> Hash, apart: set<Name>): Stock {
    if x.filename in st.listed then st
    else Stock(st.listed[x.filename := Listing(digest(x.content), x.size)],
               if x.filename in apart then st.shelf[x.filename := x.content] else st.shelf)
  }

  function Absorb(st: Stock, xs: seq<Extracted>, digest: Content -> Hash, apart: set<Name>): Stock {
    if xs == [] then st else Receive(Absorb(st, xs[..|xs| - 1], digest, apart), xs[|xs| - 1], digest, apart)
  }

  lemma AbsorbSnoc(st: Stock, xs: seq<Extracted>, x: Extracted, digest: Content -> Hash, apart: set<Name>)
    ensures Absorb(st, xs + [x], digest, apart) == Receive(Absorb(st, xs, digest, apart), x, digest, apart)
  {
    assert (xs + [x])[..|xs|] == xs;
  }

  lemma {:induction false} AbsorbConcat(st: Stock, xs: seq<Extracted>, ys: seq<Extracted>,
                                        digest: Content -> Hash, apart: set<Name>)
    ensures Absorb(st, xs + ys, digest, apart) == Absorb(Absorb(st, xs, digest, apart), ys, digest, apart)
  {
    if ys == [] {
      assert xs + ys == xs;
    } else {
      var prefix, last := ys[..|ys| - 1], ys[|ys| - 1];
      AbsorbConcat(st, xs, prefix, digest, apart);
      AbsorbSnoc(st, xs + prefix, last, digest, apart);
      assert xs + ys == (xs + prefix) + [last];
    }
  }

  /** Every name of xs is in the ledger. */
  predicate AllListed(xs: seq<Extracted>, names: set<Name>) {
    forall i :: 0 <= i < |xs| ==> xs[i].filename in names
  }

  lemma AllListedConcat(xs: seq<Extracted>, ys: seq<Extracted>, names: set<Name>)
    ensures AllListed(xs + ys, names) <==> AllListed(xs, names) && AllListed(ys, names)
  {
    var zs := xs + ys;
    assert forall i :: 0 <= i < |xs| ==> zs[i] == xs[i];
    assert forall i :: 0 <= i < |ys| ==> ys[i] == zs[|xs| + i];
  }

  /** The first of xs called n. */
  function First(xs: seq<Extracted>, n: Name): Option<Extracted> {
    if xs == [] then None
    else
      match First(xs[..|xs| - 1], n)
      case Some(x) => Some(x)
      case None => if xs[|xs| - 1].filename == n then Some(xs[|xs| - 1]) else None
  }

  lemma {:induction false} FirstIsThere(xs: seq<Extracted>, i: nat)
    requires i < |xs|
    ensures First(xs, xs[i].filename).Some? && First(xs, xs[i].filename).value.filename == xs[i].filename
  {
    if i < |xs| - 1 {
      FirstIsThere(xs[..|xs| - 1], i);
    } else if First(xs[..i], xs[i].filename).Some? {
      FirstIsNamed(xs[..i], xs[i].filename);
    }
  }

  lemma {:induction false} FirstIsNamed(xs: seq<Extracted>, n: Name)
    requires First(xs, n).Some?
    ensures First(xs, n).value in xs && First(xs, n).value.filename == n
  {
    var prefix := xs[..|xs| - 1];
    if First(prefix, n).Some? {
      FirstIsNamed(prefix, n);
      assert xs == prefix + [xs[|xs| - 1]];
    }
  }

  /**
   * What absorbing means, name by name: an entry that was there stays as it is, object and all; a new name gets
   * the entry, and the object, of its first occurrence; a name that does not occur gets nothing.
   */
  lemma {:induction false} AbsorbMeans(st: Stock, xs: seq<Extracted>, digest: Content -> Hash, apart: set<Name>, n: Name)
    ensures
      var st' := Absorb(st, xs, digest, apart);
      if n in st.listed then
        n in st'.listed && st'.listed[n] == st.listed[n] && SameAt(st'.shelf, st.shelf, n)
      else
        match First(xs, n)
        case None => n !in st'.listed && SameAt(st'.shelf, st.shelf, n)
        case Some(x) =>
          && n in st'.listed && st'.listed[n] == Listing(digest(x.content), x.size)
          && (n in apart ==> n in st'.shelf && st'.shelf[n] == x.content)
  {
    if xs != [] {
      AbsorbMeans(st, xs[..|xs| - 1], digest, apart, n);
    }
  }

  /** Absorbing what is listed already changes nothing; so a replay changes nothing. */
  lemma {:induction false} AbsorbListed(st: Stock, xs: seq<Extracted>, digest: Content -> Hash, apart: set<Name>)
    requires AllListed(xs, st.listed.Keys)
    ensures Absorb(st, xs, digest, apart) == st
  {
    if xs != [] {
      var prefix := xs[..|xs| - 1];
      assert AllListed(prefix, st.listed.Keys);
      AbsorbListed(st, prefix, digest, apart);
    }
  }

  lemma ReplayIsIdempotent(st: Stock, xs: seq<Extracted>, digest: Content -> Hash, apart: set<Name>)
    ensures Absorb(Absorb(st, xs, digest, apart), xs, digest, apart) == Absorb(st, xs, digest, apart)
  {
    var st' := Absorb(st, xs, digest, apart);
    forall i | 0 <= i < |xs|
      ensures xs[i].filename in st'.listed.Keys
    {
      FirstIsThere(xs, i);
      AbsorbMeans(st, xs, digest, apart, xs[i].filename);
    }
    AbsorbListed(st', xs, digest, apart);
  }

  predicate SameAt(a: map<Name, Content>, b: map<Name, Content>, n: Name) {
    (n in a <==> n in b) && (n in a ==> a[n] == b[n])
  }

  /** A File entity as the batch remembers it. */
  datatype Entity = Entity(id: FileId, name: Name)

  function Ids(es: seq<Entity>): set<FileId> {
    set e | e in es :: e.id
  }

  function NamesIn(es: seq<Entity>): set<Name> {
    set e | e in es :: e.name
  }

  lemma IdsSnoc(es: seq<Entity>, e: Entity)
    ensures Ids(es + [e]) == Ids(es) + {e.id} && NamesIn(es + [e]) == NamesIn(es) + {e.name}
  {
    assert forall x :: x in es + [e] <==> x in es || x == e;
    assert e in es + [e];
    forall x | x in es
      ensures x.id in Ids(es + [e]) && x.name in NamesIn(es + [e])
    {
      assert x in es + [e];
    }
  }

  /** Different files, each of them made and not yet deleted. */
  ghost predicate Removable(es: seq<Entity>, v: View) {
    && (forall i :: 0 <= i < |es| ==> es[i].id in v.made && v.made[es[i].id].filename == es[i].name)
    && (forall i, j :: 0 <= i < j < |es| ==> es[i].id != es[j].id)
  }

  /**
   * v is what execution me sees after recording es on top of v0, the object `inflight` possibly stored besides:
   * taking es away again gives v0 back.
   */
  ghost predicate Undoable(v: View, v0: View, es: seq<Entity>, inflight: Option<Name>, leased: bool) {
    && Removable(es, v)
    && v.made - Ids(es) == v0.made
    && (leased ==>
          && v.ledger - NamesIn(es) == v0.ledger && NamesIn(es) !! v0.ledger.Keys
          && v.files - Ids(es) == v0.files)
    && (forall n :: n !in NamesIn(es) && inflight != Some(n) ==> SameAt(v.shelf, v0.shelf, n))
    && (leased && inflight.Some? ==> inflight.value !in v0.ledger)
  }

  /** Storing and recording a member is receiving it; so is skipping one that is listed. */
  lemma RecordingReceives(v: View, x: Extracted, f: FileId, file: FileRow, digest: Content -> Hash, apart: set<Name>)
    requires file.filename == x.filename && file.hash == digest(x.content) && file.size == x.size
    ensures x.filename in v.ledger ==> Receive(StockOf(v), x, digest, apart) == StockOf(v)
    ensures x.filename !in v.ledger ==>
      StockOf(v.Put(x.filename, x.content, apart).Add(f, file, true)) == Receive(StockOf(v), x, digest, apart)
  {
  }

  lemma UndoableEntities(v: View, v0: View, es: seq<Entity>, inflight: Option<Name>, leased: bool)
    requires Undoable(v, v0, es, inflight, leased)
    ensures Removable(es, v)
  {
  }

  lemma RemovableFirst(es: seq<Entity>, v: View)
    requires es != [] && Removable(es, v)
    ensures es[0].id in v.made && v.made[es[0].id].filename == es[0].name
  {
  }

  lemma RemovableRest(v': View, u: View, es: seq<Entity>, gone: bool, dropped: bool, leased: bool)
    requires es != [] && Removable(es, u) && CleanedOne(v', u, es[0], gone, dropped, leased)
    ensures Removable(es[1..], v')
  {
  }

  lemma UndoableStart(v: View, leased: bool)
    ensures Undoable(v, v, [], None, leased)
  {
    assert v.made - Ids([]) == v.made && v.ledger - NamesIn([]) == v.ledger && v.files - Ids([]) == v.files;
  }

  lemma UndoablePut(v: View, v0: View, es: seq<Entity>, leased: bool, n: Name, content: Content, apart: set<Name>)
    requires Undoable(v, v0, es, None, leased)
    requires leased ==> n !in v.ledger
    ensures Undoable(v.Put(n, content, apart), v0, es, Some(n), leased)
    ensures Undoable(v, v0, es, Some(n), leased)
  {
    assert leased ==> v.ledger - NamesIn(es) == v0.ledger;
  }

  lemma UndoableAdd(v: View, v0: View, es: seq<Entity>, leased: bool, f: FileId, file: FileRow)
    requires Undoable(v, v0, es, Some(file.filename), leased)
    requires f !in v.made && (leased ==> f !in v.files && file.filename !in v.ledger)
    ensures Undoable(v.Add(f, file, leased), v0, es + [Entity(f, file.filename)], None, leased)
  {
    var n := file.filename;
    var v' := v.Add(f, file, leased);
    var es' := es + [Entity(f, n)];
    IdsSnoc(es, Entity(f, n));
    hide Ids, NamesIn;
    assert v.made[f := file] - (Ids(es) + {f}) == v.made - Ids(es);
    if leased {
      assert v.files[f := file] - (Ids(es) + {f}) == v.files - Ids(es);
      assert v'.ledger - (NamesIn(es) + {n}) == v.ledger - NamesIn(es);
    }
    forall i | 0 <= i < |es'|
      ensures es'[i].id in v'.made && v'.made[es'[i].id].filename == es'[i].name
    {
      if i < |es| {
        assert es'[i] == es[i];
      }
    }
  }

  /**
   * v is what is left of v0 after a failed batch. If no delete of rows failed the tables are as before; at
   * worst some rows stay. Objects listed before keep their content, and if no delete of objects failed nothing
   * is left over but possibly the object in flight.
   */
  ghost predicate RolledBack(v: View, v0: View, inflight: Option<Name>, erased: bool, removed: bool, leased: bool) {
    && (erased ==> v.made == v0.made && (leased ==> v.ledger == v0.ledger && v.files == v0.files))
    && (leased ==>
          && (forall n :: n in v0.ledger ==> n in v.ledger && v.ledger[n] == v0.ledger[n])
          && (forall f :: f in v0.files ==> f in v.files && v.files[f] == v0.files[f])
          && (forall n :: n in v0.ledger ==> SameAt(v.shelf, v0.shelf, n)))
    && (removed ==>
          forall n :: n in v.shelf && inflight != Some(n) ==> n in v0.shelf && v.shelf[n] == v0.shelf[n])
  }

  /** Of m at most the given keys are gone, and all of them if none failed. */
  ghost predicate Without<K(!new), V>(m': map<K, V>, m: map<K, V>, keys: set<K>, all: bool) {
    && (all ==> m' == m - keys)
    && (forall k :: k in m && k !in keys ==> k in m' && m'[k] == m[k])
  }

  lemma WithoutOne<K(!new), V>(m'': map<K, V>, m': map<K, V>, m: map<K, V>, keys: set<K>, k: K, all: bool, dropped: bool)
    requires Without(m', m, keys, all) && m'' == if dropped then m' - {k} else m'
    ensures Without(m'', m, keys + {k}, all && dropped)
  {
    assert m - (keys + {k}) == m - keys - {k};
  }

  /** The objects of other names stay; those of the given names are gone if no delete failed. */
  ghost predicate Emptied(shelf': map<Name, Content>, shelf: map<Name, Content>, names: set<Name>, removed: bool) {
    (forall n :: n !in names ==> SameAt(shelf', shelf, n)) && (removed ==> shelf'.Keys !! names)
  }

  /** What cleaning up es leaves of v, given whether any delete failed. */
  ghost predicate Cleaned(v': View, v: View, es: seq<Entity>, erased: bool, removed: bool, leased: bool) {
    && Without(v'.made, v.made, Ids(es), erased)
    && (leased ==> Without(v'.ledger, v.ledger, NamesIn(es), erased) && Without(v'.files, v.files, Ids(es), erased))
    && Emptied(v'.shelf, v.shelf, NamesIn(es), removed)
  }

  lemma CleanupUndoes(v': View, v: View, v0: View, es: seq<Entity>, inflight: Option<Name>,
                      erased: bool, removed: bool, leased: bool)
    requires Undoable(v, v0, es, inflight, leased)
    requires Cleaned(v', v, es, erased, removed, leased)
    ensures RolledBack(v', v0, inflight, erased, removed, leased)
  {
    hide Ids, NamesIn;
    if leased {
      forall n | n in v0.ledger
        ensures n in v'.ledger && v'.ledger[n] == v0.ledger[n] && SameAt(v'.shelf, v0.shelf, n)
      {
        assert n in v.ledger - NamesIn(es);
        assert n !in NamesIn(es) && inflight != Some(n);
      }
      forall f | f in v0.files
        ensures f in v'.files && v'.files[f] == v0.files[f]
      {
        assert f in v.files - Ids(es);
      }
    }
    if removed {
      forall n | n in v'.shelf && inflight != Some(n)
        ensures n in v0.shelf && v'.shelf[n] == v0.shelf[n]
      {
        assert n !in NamesIn(es);
        assert SameAt(v'.shelf, v.shelf, n) && SameAt(v.shelf, v0.shelf, n);
      }
    }
  }

  lemma CleanedStart(v: View, leased: bool)
    ensures Cleaned(v, v, [], true, true, leased)
  {
    assert v.made - Ids([]) == v.made && v.ledger - NamesIn([]) == v.ledger && v.files - Ids([]) == v.files;
  }

  /** One entity cleaned up: `gone` if its object is surely removed, `dropped` if its rows are erased. */
  ghost predicate CleanedOne(v': View, u: View, e: Entity, gone: bool, dropped: bool, leased: bool) {
    var taken := u.Take(e.name);
    || v' == (if dropped then taken.Drop(e.id, e.name, leased) else taken)
    || (!gone && v' == if dropped then u.Drop(e.id, e.name, leased) else u)
  }

  lemma CleanedStep(u: View, v': View, v: View, es: seq<Entity>, e: Entity, erased: bool, removed: bool, leased: bool,
                    gone: bool, dropped: bool)
    requires Cleaned(u, v, es, erased, removed, leased)
    requires CleanedOne(v', u, e, gone, dropped, leased)
    ensures Cleaned(v', v, es + [e], erased && dropped, removed && gone, leased)
  {
    IdsSnoc(es, e);
    WithoutOne(v'.made, u.made, v.made, Ids(es), e.id, erased, dropped);
    if leased {
      WithoutOne(v'.ledger, u.ledger, v.ledger, NamesIn(es), e.name, erased, dropped);
      WithoutOne(v'.files, u.files, v.files, Ids(es), e.id, erased, dropped);
    }
    hide Ids, NamesIn, Without;
  }
}

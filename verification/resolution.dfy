/**
 * Value-level model of commit resolution in geogig/geogigwebapi/commit.py.
 *
 * The repository a commit talks to is an oracle value: a ref table (what
 * `revparse` answers) and a history table (what `log(until = id)` answers).
 * The process-wide commit cache is a map keyed by (repository url, commit id).
 * Every remote call the code makes is recorded in a call trace, so that
 * "no network call" and "exactly one log fetch" can be stated.
 */
module Resolution {
  import opened Wrappers

  type Id = string
  type Ref = string
  type Url = string
  type Path = string

  /** The all-zero commit id: "no parent" / empty history. */
  const NULL_ID: Id := "0000000000" + "0000000000" + "0000000000" + "0000000000"

  lemma NullIdShape()
    ensures |NULL_ID| == 40
    ensures forall i :: 0 <= i < |NULL_ID| ==> NULL_ID[i] == '0'
  {
  }

  /** The parent list a constructed commit stores: never empty. */
  type ParentIds = s: seq<Id> | s != [] witness [NULL_ID]

  /** One entry of a history response, before a commit is built from it. */
  datatype Record = Record(
    id: Id, treeId: Id, parents: Option<seq<Id>>, message: string,
    authorName: string, authorDate: int, committerName: string, committerDate: int,
    added: int, removed: int, modified: int)

  /** The fields of a constructed commit. */
  datatype CommitInfo = CommitInfo(
    id: Id, treeId: Id, parentIds: ParentIds, message: string,
    authorName: string, authorDate: int, committerName: string, committerDate: int,
    added: int, removed: int, modified: int)

  /** A missing or empty parent list is stored as the sentinel alone. */
  function StoredParents(parents: Option<seq<Id>>): (r: ParentIds)
    ensures parents.Some? && parents.value != [] ==> r == parents.value
    ensures parents == None || parents == Some([]) ==> r == [NULL_ID]
  {
    if parents.Some? && parents.value != [] then parents.value else [NULL_ID]
  }

  /** What the commit constructor stores for a history record. */
  function Construct(rec: Record): CommitInfo
  {
    CommitInfo(rec.id, rec.treeId, StoredParents(rec.parents), rec.message,
               rec.authorName, rec.authorDate, rec.committerName, rec.committerDate,
               rec.added, rec.removed, rec.modified)
  }

  /** The remote repository, seen only through the answers it gives. */
  datatype Oracle = Oracle(url: Url, refs: map<Ref, Id>, logs: map<Id, seq<Record>>)

  /** A remote call, as recorded in the call trace. */
  datatype Call =
    | RevParseCall(ref: Ref)
    | LogCall(until: Id, limit: nat)
    | DiffCall(from: Id, to: Id, path: Option<Path>)

  datatype Failure = RefNotFound(ref: Ref) | EmptyLog(until: Id)

  /** `repo.revparse(ref)`: the concrete id of a ref, or RefNotFound. */
  function ResolveRef(o: Oracle, ref: Ref): (r: Result<Id, Failure>)
    ensures r.Ok? <==> ref in o.refs
    ensures r.Ok? ==> r.value == o.refs[ref]
    ensures r.Err? ==> r.error == RefNotFound(ref)
  {
    if ref in o.refs then Ok(o.refs[ref]) else Err(RefNotFound(ref))
  }

  /** `repo.log(until, limit)`: the newest `limit` entries of the history ending at `until`. */
  function LogOf(o: Oracle, until: Id, limit: nat): (r: seq<Record>)
    ensures until !in o.logs ==> r == []
    ensures until in o.logs ==>
              |r| == (if |o.logs[until]| <= limit then |o.logs[until]| else limit) &&
              r == o.logs[until][..|r|]
  {
    if until !in o.logs then []
    else if |o.logs[until]| <= limit then o.logs[until]
    else o.logs[until][..limit]
  }

  /** What `fromref` hands back: the bare sentinel Commitish, or a commit. */
  datatype Resolved = Sentinel(ref: Id) | Found(info: CommitInfo)
  {
    /** The `ref` of the returned Commitish. */
    function Ref(): Id
    {
      if Sentinel? then ref else info.id
    }
  }

  type Key = (Url, Id)
  type Cache = map<Key, CommitInfo>

  /** One call of `fromref`: its outcome, the cache afterwards, and the remote calls it made. */
  datatype Step = Step(result: Result<Resolved, Failure>, cache: Cache, calls: seq<Call>)

  /** No entry of `c0` is removed or changed in `c1`. */
  ghost predicate Extends(c0: Cache, c1: Cache)
  {
    forall k :: k in c0 ==> k in c1 && c1[k] == c0[k]
  }

  /** `ref` is a real ref whose commit is not cached yet. */
  predicate Misses(o: Oracle, cache: Cache, ref: Ref)
  {
    ref != NULL_ID && ref in o.refs && (o.url, o.refs[ref]) !in cache
  }

  /** Number of `log` calls in a trace that fetch history ending at `id`. */
  function LogCount(calls: seq<Call>, id: Id): nat
  {
    if calls == [] then 0
    else (if calls[0].LogCall? && calls[0].until == id then 1 else 0) + LogCount(calls[1..], id)
  }

  /** `Commit.fromref(repo, ref)`. */
  function FromRef(o: Oracle, cache: Cache, ref: Ref): (s: Step)
    ensures ref == NULL_ID ==> s == Step(Ok(Sentinel(NULL_ID)), cache, [])
    ensures s.result.Ok? && ref != NULL_ID ==>
              ref in o.refs && (o.url, o.refs[ref]) in s.cache &&
              s.result == Ok(Found(s.cache[(o.url, o.refs[ref])]))
    ensures s.result.Err? ==> s.cache == cache
  {
    if ref == NULL_ID then Step(Ok(Sentinel(NULL_ID)), cache, [])
    else
      match ResolveRef(o, ref)
      case Err(e) => Step(Err(e), cache, [RevParseCall(ref)])
      case Ok(cid) =>
        var key := (o.url, cid);
        if key in cache then Step(Ok(Found(cache[key])), cache, [RevParseCall(ref)])
        else
          var log := LogOf(o, cid, 1);
          var calls := [RevParseCall(ref), LogCall(cid, 1)];
          if log == [] then Step(Err(EmptyLog(cid)), cache, calls)
          else
            var c := cache[key := Construct(log[0])];
            Step(Ok(Found(c[key])), c, calls)
  }

  /** `fromref` only ever adds the key of the commit it fetched; no other entry changes. */
  lemma FromRefOnlyAddsKey(o: Oracle, cache: Cache, ref: Ref)
    ensures var s := FromRef(o, cache, ref);
            Extends(cache, s.cache) &&
            forall k :: k in s.cache && k !in cache ==> Misses(o, cache, ref) && k == (o.url, o.refs[ref])
  {
  }

  lemma FromRefSentinel(o: Oracle, cache: Cache)
    ensures FromRef(o, cache, NULL_ID) == Step(Ok(Sentinel(NULL_ID)), cache, [])
  {
  }

  lemma FromRefHit(o: Oracle, cache: Cache, ref: Ref)
    requires ref != NULL_ID && ref in o.refs && (o.url, o.refs[ref]) in cache
    ensures FromRef(o, cache, ref) ==
            Step(Ok(Found(cache[(o.url, o.refs[ref])])), cache, [RevParseCall(ref)])
  {
  }

  lemma FromRefMiss(o: Oracle, cache: Cache, ref: Ref)
    requires Misses(o, cache, ref)
    ensures var cid := o.refs[ref];
            var s := FromRef(o, cache, ref);
            s.calls == [RevParseCall(ref), LogCall(cid, 1)] &&
            (LogOf(o, cid, 1) == [] ==> s.result == Err(EmptyLog(cid)) && s.cache == cache) &&
            (LogOf(o, cid, 1) != [] ==>
               s.cache == cache[(o.url, cid) := Construct(o.logs[cid][0])] &&
               s.result == Ok(Found(Construct(o.logs[cid][0]))))
  {
  }

  lemma FromRefUnknownRef(o: Oracle, cache: Cache, ref: Ref)
    requires ref != NULL_ID && ref !in o.refs
    ensures FromRef(o, cache, ref) == Step(Err(RefNotFound(ref)), cache, [RevParseCall(ref)])
  {
  }

  lemma FromRefFetches(o: Oracle, cache: Cache, ref: Ref, id: Id)
    ensures LogCount(FromRef(o, cache, ref).calls, id) ==
            if Misses(o, cache, ref) && id == o.refs[ref] then 1 else 0
  {
    var s := FromRef(o, cache, ref);
    if ref != NULL_ID {
      assert LogCount([], id) == 0;
      assert [RevParseCall(ref)][1..] == [];
      if Misses(o, cache, ref) {
        var cid := o.refs[ref];
        assert [RevParseCall(ref), LogCall(cid, 1)][1..] == [LogCall(cid, 1)];
        assert [LogCall(cid, 1)][1..] == [];
      }
    }
  }

  lemma {:induction false} LogCountAppend(a: seq<Call>, b: seq<Call>, id: Id)
    ensures LogCount(a + b, id) == LogCount(a, id) + LogCount(b, id)
  {
    if a == [] {
      assert a + b == b;
    } else {
      assert (a + b)[1..] == a[1..] + b;
      LogCountAppend(a[1..], b, id);
    }
  }

  /** Resolving the same ref again right after a success is a pure cache hit. */
  lemma FromRefTwice(o: Oracle, cache: Cache, ref: Ref, id: Id)
    ensures var s1 := FromRef(o, cache, ref);
            var s2 := FromRef(o, s1.cache, ref);
            s1.result.Ok? ==> s2.result == s1.result && s2.cache == s1.cache && LogCount(s2.calls, id) == 0
  {
    var s1 := FromRef(o, cache, ref);
    FromRefFetches(o, s1.cache, ref, id);
  }

  /** Reference semantics of `fromref` with no cache at all. */
  function Uncached(o: Oracle, ref: Ref): (r: Result<Resolved, Failure>)
  {
    if ref == NULL_ID then Ok(Sentinel(NULL_ID))
    else
      match ResolveRef(o, ref)
      case Err(e) => Err(e)
      case Ok(cid) =>
        var log := LogOf(o, cid, 1);
        if log == [] then Err(EmptyLog(cid)) else Ok(Found(Construct(log[0])))
  }

  /** Every cached entry of this repository is what a fresh fetch would build. */
  ghost predicate Agrees(o: Oracle, cache: Cache)
  {
    forall k :: k in cache && k.0 == o.url ==>
      LogOf(o, k.1, 1) != [] && cache[k] == Construct(LogOf(o, k.1, 1)[0])
  }

  /** The empty cache that `_commitcache` starts as agrees with any server. */
  lemma AgreesInitially(o: Oracle)
    ensures Agrees(o, map[])
  {
  }

  /** The server's history for an id starts with that id's own commit. */
  ghost predicate Coherent(o: Oracle)
  {
    forall id :: id in o.logs && o.logs[id] != [] ==> o.logs[id][0].id == id
  }

  /** The cache is transparent: `fromref` answers what an uncached fetch would. */
  lemma FromRefTransparent(o: Oracle, cache: Cache, ref: Ref)
    requires Agrees(o, cache)
    ensures FromRef(o, cache, ref).result == Uncached(o, ref)
    ensures Agrees(o, FromRef(o, cache, ref).cache)
  {
  }

  /** The returned Commitish's ref is what `revparse` answered. */
  lemma FromRefResolvesRef(o: Oracle, cache: Cache, ref: Ref)
    requires Agrees(o, cache) && Coherent(o)
    ensures var s := FromRef(o, cache, ref);
            s.result.Ok? ==> s.result.value.Ref() == if ref == NULL_ID then NULL_ID else o.refs[ref]
  {
    FromRefTransparent(o, cache, ref);
  }

  /** Puts resolved commits in front of the outcome of resolving the rest. */
  function Prepend(ps: seq<Resolved>, r: Result<seq<Resolved>, Failure>): Result<seq<Resolved>, Failure>
  {
    match r
    case Ok(rest) => Ok(ps + rest)
    case Err(e) => Err(e)
  }

  /** Several calls of `fromref` in a row: their outcomes, the final cache, the joined trace. */
  datatype Steps = Steps(result: Result<seq<Resolved>, Failure>, cache: Cache, calls: seq<Call>)

  /**
   * The `parents` property: `fromref` on each stored parent id in order, threading
   * the cache from one call to the next and stopping at the first error.
   */
  function Parents(o: Oracle, cache: Cache, ids: seq<Id>): (s: Steps)
    ensures s.result.Ok? ==> |s.result.value| == |ids|
    decreases |ids|
  {
    if ids == [] then Steps(Ok([]), cache, [])
    else
      var first := FromRef(o, cache, ids[0]);
      match first.result
      case Err(e) => Steps(Err(e), first.cache, first.calls)
      case Ok(p) =>
        var rest := Parents(o, first.cache, ids[1..]);
        Steps(Prepend([p], rest.result), rest.cache, first.calls + rest.calls)
  }

  /** Resolving parents never removes or changes a cache entry. */
  lemma {:induction false} ParentsExtends(o: Oracle, cache: Cache, ids: seq<Id>)
    ensures Extends(cache, Parents(o, cache, ids).cache)
    decreases |ids|
  {
    if ids != [] {
      FromRefOnlyAddsKey(o, cache, ids[0]);
      var first := FromRef(o, cache, ids[0]);
      if first.result.Ok? {
        ParentsExtends(o, first.cache, ids[1..]);
      }
    }
  }

  /** The `parent` property: `parents[0]`. */
  function Parent(o: Oracle, cache: Cache, ids: ParentIds): (s: Step)
    ensures var ps := Parents(o, cache, ids);
            s.cache == ps.cache && s.calls == ps.calls &&
            (s.result.Ok? <==> ps.result.Ok?) &&
            (s.result.Ok? ==> s.result.value == ps.result.value[0])
  {
    var ps := Parents(o, cache, ids);
    match ps.result
    case Ok(v) => Step(Ok(v[0]), ps.cache, ps.calls)
    case Err(e) => Step(Err(e), ps.cache, ps.calls)
  }

  /** Reference semantics of `parents` with no cache. */
  function UncachedAll(o: Oracle, ids: seq<Id>): Result<seq<Resolved>, Failure>
    decreases |ids|
  {
    if ids == [] then Ok([])
    else
      match Uncached(o, ids[0])
      case Err(e) => Err(e)
      case Ok(p) => Prepend([p], UncachedAll(o, ids[1..]))
  }

  lemma {:induction false} UncachedAllAt(o: Oracle, ids: seq<Id>)
    ensures UncachedAll(o, ids).Ok? <==> forall i :: 0 <= i < |ids| ==> Uncached(o, ids[i]).Ok?
    ensures UncachedAll(o, ids).Ok? ==>
              |UncachedAll(o, ids).value| == |ids| &&
              forall i :: 0 <= i < |ids| ==> Uncached(o, ids[i]) == Ok(UncachedAll(o, ids).value[i])
    decreases |ids|
  {
    if ids != [] {
      UncachedAllAt(o, ids[1..]);
      forall i | 1 <= i < |ids|
        ensures ids[1..][i - 1] == ids[i]
      {
      }
    }
  }

  /** The cache is transparent for `parents` too, and stays in agreement. */
  lemma {:induction false} ParentsTransparent(o: Oracle, cache: Cache, ids: seq<Id>)
    requires Agrees(o, cache)
    ensures Parents(o, cache, ids).result == UncachedAll(o, ids)
    ensures Agrees(o, Parents(o, cache, ids).cache)
    decreases |ids|
  {
    if ids != [] {
      FromRefTransparent(o, cache, ids[0]);
      var first := FromRef(o, cache, ids[0]);
      if first.result.Ok? {
        ParentsTransparent(o, first.cache, ids[1..]);
      }
    }
  }

  /** With the cache in agreement, element i of `parents` is what `fromref` gives for parent id i. */
  lemma ParentsAt(o: Oracle, cache: Cache, ids: seq<Id>)
    requires Agrees(o, cache)
    ensures var s := Parents(o, cache, ids);
            s.result.Ok? ==> forall i :: 0 <= i < |ids| ==> Ok(s.result.value[i]) == Uncached(o, ids[i])
  {
    ParentsTransparent(o, cache, ids);
    UncachedAllAt(o, ids);
  }

  /** Resolving a list of parents fetches each commit at most once, and a cached one never. */
  lemma {:induction false} ParentsFetchOnce(o: Oracle, cache: Cache, ids: seq<Id>, id: Id)
    ensures LogCount(Parents(o, cache, ids).calls, id) <= if (o.url, id) in cache then 0 else 1
    decreases |ids|
  {
    if ids != [] {
      var first := FromRef(o, cache, ids[0]);
      FromRefFetches(o, cache, ids[0], id);
      FromRefOnlyAddsKey(o, cache, ids[0]);
      if first.result.Ok? {
        var rest := Parents(o, first.cache, ids[1..]);
        ParentsFetchOnce(o, first.cache, ids[1..], id);
        LogCountAppend(first.calls, rest.calls, id);
      }
    }
  }
}

/**
 * The commit record of geogig/geogigwebapi/commit.py as objects: the commit
 * itself, the sentinel Commitish, and the process-wide commit cache. Each
 * method is proved against the value-level functions of module Resolution.
 */
module Commits {
  import opened Wrappers
  import opened Resolution
  import opened Repositories

  /** The bare handle `Commitish(repo, ref)`; `fromref` builds one for NULL_ID. */
  class Commitish {
    const repo: Repository
    const ref: Id
    var diffMemo: Option<seq<DiffEntry>>

    constructor (repo: Repository, ref: Id)
      ensures this.repo == repo && this.ref == ref && diffMemo == None
    {
      this.repo, this.ref := repo, ref;
      diffMemo := None;
    }
  }

  /** What `fromref` returns: the sentinel Commitish or a cached Commit. */
  datatype Handle = Root(sentinel: Commitish) | Cached(commit: Commit)
  {
    ghost function View(): Resolved
    {
      if Root? then Sentinel(sentinel.ref) else Found(commit.Info())
    }
  }

  ghost function ResultView(r: Result<Handle, Failure>): Result<Resolved, Failure>
  {
    match r
    case Ok(h) => Ok(h.View())
    case Err(e) => Err(e)
  }

  ghost function Views(hs: seq<Handle>): seq<Resolved>
  {
    seq(|hs|, i requires 0 <= i < |hs| => hs[i].View())
  }

  ghost function ResultViews(r: Result<seq<Handle>, Failure>): Result<seq<Resolved>, Failure>
  {
    match r
    case Ok(hs) => Ok(Views(hs))
    case Err(e) => Err(e)
  }

  /**
   * One turn of the `parents` loop: with `whole` split as the commits resolved so
   * far followed by the resolution of the ids still to do, resolving the next id
   * moves the split by one.
   */
  lemma ParentsAdvance(o: Oracle, whole: Steps, done: seq<Call>, resolved: seq<Resolved>,
                       cache: Cache, todo: seq<Id>)
    requires todo != []
    requires var now := Resolution.Parents(o, cache, todo);
             whole == Steps(Prepend(resolved, now.result), now.cache, done + now.calls)
    ensures var step := Resolution.FromRef(o, cache, todo[0]);
            var rest := Resolution.Parents(o, step.cache, todo[1..]);
            match step.result
            case Err(e) => whole == Steps(Err(e), step.cache, done + step.calls)
            case Ok(p) => whole == Steps(Prepend(resolved + [p], rest.result), rest.cache, (done + step.calls) + rest.calls)
  {
    var step := Resolution.FromRef(o, cache, todo[0]);
    var rest := Resolution.Parents(o, step.cache, todo[1..]);
    assert done + (step.calls + rest.calls) == (done + step.calls) + rest.calls;
    if step.result.Ok? && rest.result.Ok? {
      var p := step.result.value;
      assert resolved + ([p] + rest.result.value) == (resolved + [p]) + rest.result.value;
    }
  }

  /** Every entry of `e0` is still in `e1`, bound to the same object. */
  ghost predicate Keeps(e0: map<Key, Commit>, e1: map<Key, Commit>)
  {
    forall k :: k in e0 ==> k in e1 && e1[k] == e0[k]
  }

  /**
   * `h` is the object `fromref(repo, ref)` hands out with the cache entries
   * `entries`: a sentinel for NULL_ID, otherwise the very commit object cached
   * under (url, revparse(ref)).
   */
  ghost predicate HandedOut(entries: map<Key, Commit>, repo: Repository, ref: Ref, h: Handle)
  {
    if ref == NULL_ID then h.Root? && h.sentinel.repo == repo && h.sentinel.ref == NULL_ID
    else ref in repo.refs && h.Cached? &&
         (repo.url, repo.refs[ref]) in entries && h.commit == entries[(repo.url, repo.refs[ref])]
  }

  /** Handle i of `hs` is what `fromref(repo, ids[i])` hands out. */
  ghost predicate HandedOutAll(entries: map<Key, Commit>, repo: Repository, ids: seq<Ref>, hs: seq<Handle>)
  {
    |hs| == |ids| && forall i :: 0 <= i < |hs| ==> HandedOut(entries, repo, ids[i], hs[i])
  }

  /**
   * The handles for the first |hs| ids stay valid as the cache grows, and the
   * handle for the next id joins them.
   */
  lemma HandedOutNext(e0: map<Key, Commit>, e1: map<Key, Commit>, repo: Repository,
                      ids: seq<Ref>, hs: seq<Handle>, h: Handle)
    requires |hs| < |ids|
    requires HandedOutAll(e0, repo, ids[..|hs|], hs) && Keeps(e0, e1) && HandedOut(e1, repo, ids[|hs|], h)
    ensures HandedOutAll(e1, repo, ids[..|hs| + 1], hs + [h])
    ensures ids[|hs|..][1..] == ids[|hs| + 1..]
  {
  }

  lemma AppendAssoc<T>(a: seq<T>, b: seq<T>, c: seq<T>)
    ensures a + (b + c) == (a + b) + c
  {
  }

  lemma ViewsSnoc(acc: seq<Handle>, h: Handle)
    ensures Views(acc + [h]) == Views(acc) + [h.View()]
  {
  }

  /** The class-level `_commitcache` dictionary, keyed by (repository url, commit id). */
  class CommitCache {
    var entries: map<Key, Commit>

    constructor ()
      ensures entries == map[]
    {
      entries := map[];
    }

    ghost function View(): Cache
      reads this
    {
      map k | k in entries :: entries[k].Info()
    }
  }

  class Commit {
    const repo: Repository
    const commitid: Id
    const treeid: Id
    const parentIds: ParentIds
    const message: string
    const authorname: string
    const authordate: int
    const committername: string
    const committerdate: int
    const added: int
    const removed: int
    const modified: int
    var diffMemo: Option<seq<DiffEntry>>

    constructor (repo: Repository, commitid: Id, treeid: Id, parents: Option<seq<Id>>,
                 message: string, authorname: string, authordate: int,
                 committername: string, committerdate: int,
                 added: int, removed: int, modified: int)
      ensures this.repo == repo && diffMemo == None
      ensures Info() == Construct(Record(commitid, treeid, parents, message, authorname, authordate,
                                         committername, committerdate, added, removed, modified))
      ensures parentIds == StoredParents(parents)
    {
      this.repo, this.commitid, this.treeid := repo, commitid, treeid;
      this.parentIds := StoredParents(parents);
      this.message, this.authorname, this.authordate := message, authorname, authordate;
      this.committername, this.committerdate := committername, committerdate;
      this.added, this.removed, this.modified := added, removed, modified;
      diffMemo := None;
    }

    /** The stored fields as a value. */
    function Info(): CommitInfo
    {
      CommitInfo(commitid, treeid, parentIds, message, authorname, authordate,
                 committername, committerdate, added, removed, modified)
    }

    /** `Commit.fromref(repo, ref)`, reading and filling the shared cache. */
    static method FromRef(cache: CommitCache, repo: Repository, ref: Ref) returns (r: Result<Handle, Failure>)
      modifies cache, repo`calls
      ensures var s := Resolution.FromRef(repo.View(), old(cache.View()), ref);
              cache.View() == s.cache && repo.calls == old(repo.calls) + s.calls && ResultView(r) == s.result
      ensures ref == NULL_ID ==>
                r.Ok? && r.value.Root? && fresh(r.value.sentinel) &&
                r.value.sentinel.repo == repo && r.value.sentinel.ref == NULL_ID &&
                r.value.sentinel.diffMemo == None
      ensures r.Ok? ==> HandedOut(cache.entries, repo, ref, r.value)
      ensures Keeps(old(cache.entries), cache.entries)
      ensures forall k :: k in cache.entries && k !in old(cache.entries) ==> fresh(cache.entries[k])
      ensures Misses(repo.View(), old(cache.View()), ref) && r.Ok? ==>
                fresh(r.value.commit) && r.value.commit.repo == repo && r.value.commit.diffMemo == None &&
                cache.entries == old(cache.entries)[(repo.url, repo.refs[ref]) := r.value.commit]
      ensures !(Misses(repo.View(), old(cache.View()), ref) && r.Ok?) ==> cache.entries == old(cache.entries)
    {
      if ref == NULL_ID {
        var c := new Commitish(repo, NULL_ID);
        return Ok(Root(c));
      }
      var resolved := repo.Revparse(ref);
      if resolved.Err? {
        return Err(resolved.error);
      }
      var cid := resolved.value;
      var key := (repo.url, cid);
      if key !in cache.entries {
        var log := repo.Log(cid, 1);
        if log == [] {
          return Err(EmptyLog(cid));
        }
        var e := log[0];
        var c := new Commit(repo, e.id, e.treeId, e.parents, e.message, e.authorName, e.authorDate,
                            e.committerName, e.committerDate, e.added, e.removed, e.modified);
        ghost var before := cache.View();
        cache.entries := cache.entries[key := c];
        assert cache.View() == before[key := Construct(e)];
      }
      r := Ok(Cached(cache.entries[key]));
    }

    /** The `parents` property: every stored parent id through `fromref`, in order. */
    method Parents(cache: CommitCache) returns (r: Result<seq<Handle>, Failure>)
      modifies cache, repo`calls
      ensures var s := Resolution.Parents(repo.View(), old(cache.View()), parentIds);
              cache.View() == s.cache && repo.calls == old(repo.calls) + s.calls && ResultViews(r) == s.result
      ensures r.Ok? ==> |r.value| == |parentIds|
      ensures Keeps(old(cache.entries), cache.entries)
      ensures forall k :: k in cache.entries && k !in old(cache.entries) ==> fresh(cache.entries[k])
      ensures r.Ok? ==> HandedOutAll(cache.entries, repo, parentIds, r.value)
    {
      ghost var o := repo.View();
      ghost var rest := Resolution.Parents(o, cache.View(), parentIds);
      ghost var whole := rest;
      ghost var done: seq<Call> := [];
      ghost var resolved: seq<Resolved> := [];
      var acc: seq<Handle> := [];
      var todo: seq<Id> := parentIds;
      if whole.result.Ok? {
        assert [] + whole.result.value == whole.result.value;
      }
      while todo != []
        invariant |acc| + |todo| == |parentIds|
        invariant repo.calls == old(repo.calls) + done
        invariant resolved == Views(acc)
        invariant rest == Resolution.Parents(o, cache.View(), todo)
        invariant whole.result == Prepend(resolved, rest.result)
        invariant whole.cache == rest.cache
        invariant whole.calls == done + rest.calls
        invariant todo == parentIds[|acc|..]
        invariant Keeps(old(cache.entries), cache.entries)
        invariant forall k :: k in cache.entries && k !in old(cache.entries) ==> fresh(cache.entries[k])
        invariant HandedOutAll(cache.entries, repo, parentIds[..|acc|], acc)
      {
        ParentsAdvance(o, whole, done, resolved, cache.View(), todo);
        ghost var step := Resolution.FromRef(o, cache.View(), todo[0]);
        ghost var calls0 := repo.calls;
        ghost var entries0 := cache.entries;
        var h := FromRef(cache, repo, todo[0]);
        assert repo.calls == calls0 + step.calls;
        AppendAssoc(old(repo.calls), done, step.calls);
        done := done + step.calls;
        if h.Err? {
          return Err(h.error);
        }
        ViewsSnoc(acc, h.value);
        HandedOutNext(entries0, cache.entries, repo, parentIds, acc, h.value);
        resolved := resolved + [h.value.View()];
        rest := Resolution.Parents(o, step.cache, todo[1..]);
        acc := acc + [h.value];
        todo := todo[1..];
      }
      assert resolved + [] == resolved;
      assert parentIds[..|acc|] == parentIds;
      r := Ok(acc);
    }

    /** The `parent` property: the first of `parents`. */
    method Parent(cache: CommitCache) returns (r: Result<Handle, Failure>)
      modifies cache, repo`calls
      ensures var s := Resolution.Parent(repo.View(), old(cache.View()), parentIds);
              cache.View() == s.cache && repo.calls == old(repo.calls) + s.calls && ResultView(r) == s.result
      ensures Keeps(old(cache.entries), cache.entries)
      ensures forall k :: k in cache.entries && k !in old(cache.entries) ==> fresh(cache.entries[k])
      ensures r.Ok? ==> HandedOut(cache.entries, repo, parentIds[0], r.value)
    {
      var ps := Parents(cache);
      match ps
      case Ok(hs) => r := Ok(hs[0]);
      case Err(e) => r := Err(e);
    }

    /** `diff(path)`: computed once against the first parent, then served from the memo. */
    method Diff(cache: CommitCache, path: Option<Path>) returns (r: Result<seq<DiffEntry>, Failure>)
      modifies this`diffMemo, cache, repo`calls
      ensures Keeps(old(cache.entries), cache.entries)
      ensures forall k :: k in cache.entries && k !in old(cache.entries) ==> fresh(cache.entries[k])
      ensures old(diffMemo).Some? ==>
                r == Ok(old(diffMemo).value) && diffMemo == old(diffMemo) &&
                cache.entries == old(cache.entries) && repo.calls == old(repo.calls)
      ensures old(diffMemo).None? ==>
                var s := Resolution.Parent(repo.View(), old(cache.View()), parentIds);
                cache.View() == s.cache &&
                match s.result
                case Err(e) =>
                  r == Err(e) && diffMemo == None && repo.calls == old(repo.calls) + s.calls
                case Ok(p) =>
                  r == Ok(repo.diffs(p.Ref(), commitid, path)) && diffMemo == Some(r.value) &&
                  repo.calls == old(repo.calls) + s.calls + [DiffCall(p.Ref(), commitid, path)]
    {
      if diffMemo.None? {
        var p := Parent(cache);
        if p.Err? {
          return Err(p.error);
        }
        var parentRef := match p.value case Root(c) => c.ref case Cached(c) => c.commitid;
        var d := repo.Diff(parentRef, commitid, path);
        diffMemo := Some(d);
      }
      r := Ok(diffMemo.value);
    }
  }
}

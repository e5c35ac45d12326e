# GeoGig commit records and the commit cache

A model of the commit record of the GeoGig web-API client
(`geogig/geogigwebapi/commit.py`) in Dafny. It covers:

- the sentinel id `NULL_ID`;
- how a commit's parent list is stored when it is built;
- `Commit.fromref`, which resolves a ref to a commit through the
  process-wide cache `_commitcache`, keyed by (repository url, commit id);
- the `parents` and `parent` properties, which resolve the stored parent ids
  through that cache;
- the memoised `diff`.

The model has two layers.

- `Resolution` (resolution.dfy) is the value-level specification. A remote
  repository is an `Oracle` value: its ref table (what `revparse` answers) and its
  history table (what `log(until = id)` answers). The cache is a map from
  (url, id) to the commit's fields. `FromRef`, `Parents` and `Parent` are
  functions. Each returns its outcome, the cache afterwards, and the trace of
  remote calls it made. The lemmas state the cache contracts, for example:
  - the sentinel makes no call;
  - a hit makes no `log` call;
  - a miss makes exactly one `log(cid, 1)` call;
  - only the fetched key is added;
  - resolving a list of parents fetches each commit at most once;
  - the cache is transparent: with a cache that agrees with the server, every
    answer equals the answer of an uncached reference definition (`Uncached`,
    `UncachedAll`).
- `Commits` (commit.dfy) models the same code as objects. `Commit` has the
  fields that `__init__` sets, plus a mutable diff memo. `Commitish` is the bare
  sentinel handle. `CommitCache` holds the shared dictionary of commit objects.
  Each method's `ensures` ties the new cache, the call trace and the result to
  the `Resolution` functions of the old state. `FromRef`, `Parents`, `Parent`
  and `Diff` also state, at the level of objects, that no cache entry is
  removed or rebound (`Keeps`), and that every entry they add holds a freshly
  built commit object. `FromRef`, `Parents` and `Parent` also state
  which object each returned handle is: a sentinel for `NULL_ID`, otherwise the
  very commit object cached under (url, revparse(id)) (`HandedOut`).
  `Repositories` (repository.dfy) is the repository client reduced to fixed
  answer tables. It keeps a ghost trace of the calls made to it.

`parent` returns `parents[0]` however many parents there are. Its docstring
(commit.py:54) says it assumes a linear history. For a merge commit the model
therefore returns the first parent too.

## Model

| member | source | states |
|---|---|---|
| `Resolution.NullIdShape` | geogig/geogigwebapi/commit.py:6 | `NULL_ID` has length 40 and every character is `'0'` |
| `Resolution.StoredParents` | geogig/geogigwebapi/commit.py:20 | the stored parent list is never empty (its type); it is the given list when that list is non-empty, and exactly `[NULL_ID]` when it is `None` or empty |
| `Commits.Commit.constructor` | geogig/geogigwebapi/commit.py:14-28 | the new commit stores its repository and every metadata field as given; its parents are `StoredParents(parents)`; its diff memo is unset |
| `Commits.Commitish.constructor` | geogig/geogigwebapi/commit.py:37 | the bare handle holds exactly the repository and ref it is given, with the diff memo unset |
| `Commits.CommitCache.constructor` | geogig/geogigwebapi/commit.py:10 | the shared cache starts empty |
| `Repositories.Repository.Revparse` | geogig/geogigwebapi/commit.py:39 | answers the id in the ref table, or `RefNotFound` for an unknown ref; one `revparse` call is appended to the trace |
| `Repositories.Repository.Log` | geogig/geogigwebapi/commit.py:41 | answers the newest `limit` entries of the history that ends at `until`; one `log` call is appended to the trace |
| `Repositories.Repository.Diff` | geogig/geogigwebapi/commit.py:62 | answers the repository's diff table for (from, to, path); one `diff` call is appended to the trace |
| `Resolution.ResolveRef` | geogig/geogigwebapi/commit.py:39 | defines the `revparse` answer of the modelled repository (its ensures restate this definition, on which `Repository.Revparse` rests): the id in the ref table for a known ref, otherwise `RefNotFound(ref)` |
| `Resolution.LogOf` | geogig/geogigwebapi/commit.py:41 | the answer has length min(limit, history length) and is a prefix of the history ending at `until`; empty for an unknown id |
| `Resolution.FromRef` | geogig/geogigwebapi/commit.py:31-43 | `NULL_ID` gives the sentinel, an unchanged cache and no call; a success for any other ref is exactly the cache entry at (url, revparse(ref)), which is present afterwards; a failure leaves the cache unchanged |
| `Resolution.FromRefOnlyAddsKey` | geogig/geogigwebapi/commit.py:40-42 | no existing cache entry is removed or changed; the only key that can be added is (url, revparse(ref)), and only on a miss |
| `Resolution.FromRefSentinel` | geogig/geogigwebapi/commit.py:36-37 | `fromref(NULL_ID)` returns the sentinel with ref `NULL_ID`, calls neither `revparse` nor `log`, and leaves the cache unchanged |
| `Resolution.FromRefHit` | geogig/geogigwebapi/commit.py:39-43 | on a hit the only call is `revparse`, the cache is unchanged, and the result is the cached entry |
| `Resolution.FromRefMiss` | geogig/geogigwebapi/commit.py:39-43 | on a miss the calls are `revparse(ref)` then exactly one `log(until = cid, limit = 1)`; the first log entry, as constructed, is stored under (url, cid) and returned; an empty log fails and stores nothing |
| `Resolution.FromRefUnknownRef` | geogig/geogigwebapi/commit.py:39 | an unknown ref fails with `RefNotFound` after the one `revparse` call, and leaves the cache unchanged |
| `Resolution.FromRefFetches` | geogig/geogigwebapi/commit.py:40-41 | the number of `log` calls for an id is 1 exactly when the ref misses the cache and resolves to that id, and 0 otherwise |
| `Resolution.FromRefTwice` | geogig/geogigwebapi/commit.py:40-43 | resolving a ref again right after a success returns the same result, leaves the cache unchanged and makes no `log` call |
| `Resolution.FromRefTransparent` | geogig/geogigwebapi/commit.py:31-43 | if every cached entry of this repository is what a fresh fetch would build, `fromref` answers what an uncached fetch answers, and the cache keeps that property |
| `Resolution.FromRefResolvesRef` | geogig/geogigwebapi/commit.py:39-43 | with an agreeing cache, and if the server's history for an id starts with that id, the returned handle's ref is `revparse(ref)` (`NULL_ID` for the sentinel) |
| `Resolution.AgreesInitially` | geogig/geogigwebapi/commit.py:10 | the empty cache the class starts with agrees with any server, so the agreeing-cache hypothesis of the transparency lemmas holds from the start |
| `Resolution.Parents` | geogig/geogigwebapi/commit.py:46-49 | on success there is one resolved commit per stored parent id, so a merge commit yields two |
| `Resolution.ParentsExtends` | geogig/geogigwebapi/commit.py:48 | resolving the parents never removes or changes an existing cache entry |
| `Resolution.UncachedAllAt` | geogig/geogigwebapi/commit.py:48 | the uncached list of parents succeeds exactly when every parent resolves, and then element i is the resolution of parent id i |
| `Resolution.ParentsTransparent` | geogig/geogigwebapi/commit.py:48 | with an agreeing cache, `parents` answers what the uncached reference answers, and the cache keeps agreeing |
| `Resolution.ParentsAt` | geogig/geogigwebapi/commit.py:48 | with an agreeing cache, element i of `parents` is what an uncached `fromref(repo, storedParents[i])` answers |
| `Resolution.ParentsFetchOnce` | geogig/geogigwebapi/commit.py:48 | resolving the parents makes at most one `log` call per commit id, and none for an id already cached |
| `Resolution.Parent` | geogig/geogigwebapi/commit.py:51-57 | `parent` succeeds exactly when `parents` does and is then `parents[0]`, with the same cache and calls; it needs no precondition because the stored parent list is never empty |
| `Commits.Commit.FromRef` | geogig/geogigwebapi/commit.py:30-43 | the new cache, the call trace and the result are those of `Resolution.FromRef`; the sentinel is a fresh `Commitish(repo, NULL_ID)` and the cache is untouched; a success for another ref is the very object cached under (url, revparse(ref)); a successful miss adds one fresh commit under that key and changes no other entry; anything else leaves the cache untouched; no existing entry is ever removed or rebound |
| `Commits.Commit.Parents` | geogig/geogigwebapi/commit.py:45-49 | the loop over the stored parent ids gives the cache, call trace and result of `Resolution.Parents`, with one handle per stored parent id; no existing cache entry is removed or rebound to another object; on success handle i is a sentinel when parent id i is `NULL_ID`, and otherwise the very object cached under (url, revparse(parent id i)); every entry it adds is a fresh commit object |
| `Commits.Commit.Parent` | geogig/geogigwebapi/commit.py:51-57 | cache, call trace and result are those of `Resolution.Parent`; no existing cache entry is removed or rebound; on success the handle is what `fromref` hands out for the first stored parent id, so the same object that `parents[0]` returns, or an equal sentinel when that id is `NULL_ID`; every entry it adds is a fresh commit object |
| `Commits.Commit.Diff` | geogig/geogigwebapi/commit.py:59-63 | with the memo set, returns it unchanged with no call and no cache change, whatever `path` is; with the memo unset, resolves `parent` and, if that succeeds, makes one `diff(parent.ref, commitid, path)` call and stores and returns its answer; if `parent` fails, the memo stays unset; in every case no existing cache entry is removed or rebound, and every entry added is a fresh commit object |

## Left out

- `humantext`, `committerprettydate` and `authorprettydate`: they depend on the
  system clock, time-zone offsets and a relative-date helper in a module that is
  not part of this model. Dates are carried as opaque integers.
- `__str__`: it depends on Python's unicode decoding and on `str()` of a list.
- The repository client (`revparse`, `log`, `diff`, and building commits from
  the server's answer) is not part of this model. It is replaced by fixed
  answer tables. Network and protocol failures are not modelled. The modelled
  errors are an unknown ref (`RefNotFound`) and an empty log answer: `log[0]`
  on an empty list, `EmptyLog`.
- In the source, `repo.log` builds the commit objects. Here `Commit.FromRef`
  builds the commit from the first log record with the same constructor.
- `Commitish` is not part of this model apart from its `(repo, ref)` fields and
  its diff memo. The initial `None` memo of a commit is assumed to be set by
  `Commitish.__init__`.
- The cache is a class attribute in the source. Here it is a `CommitCache`
  object passed to each method, because Dafny has no mutable static fields.
- Concurrent access to the shared cache from several threads is not modelled.
  The methods are sequential.

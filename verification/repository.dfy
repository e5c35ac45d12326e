/**
 * The repository client that a commit calls, reduced to an oracle: its
 * answers to `revparse`, `log` and `diff` are fixed tables, and a ghost
 * trace records every call made to it.
 */
module Repositories {
  import opened Wrappers
  import opened Resolution

  datatype ChangeKind = Added | Removed | Modified

  /** One entry of a diff between two revisions. */
  datatype DiffEntry = DiffEntry(path: Path, kind: ChangeKind)

  class Repository {
    const url: Url
    const refs: map<Ref, Id>
    const logs: map<Id, seq<Record>>
    const diffs: (Id, Id, Option<Path>) -> seq<DiffEntry>
    /** Every remote call made so far, oldest first. */
    ghost var calls: seq<Call>

    /** The answers this repository gives, as a value. */
    ghost function View(): Oracle
    {
      Oracle(url, refs, logs)
    }

    constructor (url: Url, refs: map<Ref, Id>, logs: map<Id, seq<Record>>,
                 diffs: (Id, Id, Option<Path>) -> seq<DiffEntry>)
      ensures View() == Oracle(url, refs, logs) && this.diffs == diffs
      ensures calls == []
    {
      this.url, this.refs, this.logs, this.diffs := url, refs, logs, diffs;
      calls := [];
    }

    method Revparse(ref: Ref) returns (r: Result<Id, Failure>)
      modifies this`calls
      ensures r == ResolveRef(View(), ref)
      ensures calls == old(calls) + [RevParseCall(ref)]
    {
      if ref in refs {
        r := Ok(refs[ref]);
      } else {
        r := Err(RefNotFound(ref));
      }
      calls := calls + [RevParseCall(ref)];
    }

    method Log(until: Id, limit: nat) returns (r: seq<Record>)
      modifies this`calls
      ensures r == LogOf(View(), until, limit)
      ensures calls == old(calls) + [LogCall(until, limit)]
    {
      if until !in logs {
        r := [];
      } else if |logs[until]| <= limit {
        r := logs[until];
      } else {
        r := logs[until][..limit];
      }
      calls := calls + [LogCall(until, limit)];
    }

    method Diff(from: Id, to: Id, path: Option<Path>) returns (r: seq<DiffEntry>)
      modifies this`calls
      ensures r == diffs(from, to, path)
      ensures calls == old(calls) + [DiffCall(from, to, path)]
    {
      r := diffs(from, to, path);
      calls := calls + [DiffCall(from, to, path)];
    }
  }
}

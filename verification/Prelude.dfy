/** Shared vocabulary: optional values, results, points in time, workflow states, and two notions on sequences. */
module Prelude {

  datatype Option<+T> = None | Some(value: T)

  datatype Result<+T, +E> = Ok(value: T) | Err(error: E)

  /** Points in time and durations, in seconds. */
  type Time = int

  /** The states a transition may name, including the two that no code path produces. */
  datatype Status =
    | Received
    | Validated
    | Guarded
    | Classified
    | ContextBuilt
    | KnowledgeRetrieved
    | Planned
    | Evaluated
    | AwaitingApproval
    | Approved
    | Rejected
    | Expired
    | Executing
    | Evaluating
    | Completed
    | Failed
    | Cancelled

  ghost predicate NoRepeats<T>(s: seq<T>) {
    forall i, j :: 0 <= i < j < |s| ==> s[i] != s[j]
  }

  function LowerChar(c: char): char {
    if 'A' <= c <= 'Z' then 'a' + (c - 'A') else c
  }

  function Lower(s: string): string {
    seq(|s|, i requires 0 <= i < |s| => LowerChar(s[i]))
  }

  /** Equal, or the two cases of one ASCII letter. */
  predicate SameLetter(a: char, b: char) {
    a == b || ('A' <= a <= 'Z' && b as int == a as int + 32) || ('A' <= b <= 'Z' && a as int == b as int + 32)
  }

  predicate SameUpToCase(a: string, b: string) {
    |a| == |b| && forall i :: 0 <= i < |a| ==> SameLetter(a[i], b[i])
  }

  lemma LowerEqualsUpToCase(a: string, b: string)
    ensures Lower(a) == Lower(b) <==> SameUpToCase(a, b)
  {
    if Lower(a) == Lower(b) {
      forall i | 0 <= i < |a| ensures SameLetter(a[i], b[i]) {
        assert Lower(a)[i] == Lower(b)[i];
      }
    }
    if SameUpToCase(a, b) {
      assert forall i :: 0 <= i < |a| ==> SameLetter(a[i], b[i]);
    }
  }
}

/** Shared values of the model: optional results, the order of session ids, and
    the records the conversation archive stores. */
module Prelude {

  datatype Option<+T> = None | Some(value: T)

  /** An instant. Zero is Go's zero time, the "not set" value. */
  type Time = nat

  datatype Role = User | Assistant | System | Tool | UserDraft

  datatype Turn = Turn(
    uuid: string,
    sessionId: string,
    turnIndex: int,
    role: Role,
    timestamp: Time,
    text: string,
    isToolCall: bool,
    parentUuid: string,
    component: string,
    ontologyVersion: string,
    mappingVersion: string)

  /** The order `sort.Strings` uses. */
  predicate Less(a: string, b: string)
  {
    if |a| == 0 then |b| > 0
    else |b| > 0 && (a[0] < b[0] || (a[0] == b[0] && Less(a[1..], b[1..])))
  }

  lemma {:induction false} LessIrreflexive(a: string)
    ensures !Less(a, a)
  {
    if |a| > 0 { LessIrreflexive(a[1..]); }
  }

  lemma {:induction false} LessTransitive(a: string, b: string, c: string)
    requires Less(a, b) && Less(b, c)
    ensures Less(a, c)
  {
    if |a| > 0 && a[0] == b[0] == c[0] { LessTransitive(a[1..], b[1..], c[1..]); }
  }

  lemma {:induction false} LessTotal(a: string, b: string)
    ensures a == b || Less(a, b) || Less(b, a)
  {
    if |a| > 0 && |b| > 0 && a[0] == b[0] {
      LessTotal(a[1..], b[1..]);
      assert a == [a[0]] + a[1..] && b == [b[0]] + b[1..];
    }
  }

  /** Strictly increasing: sorted and free of duplicates. */
  predicate Increasing(ids: seq<string>)
  {
    forall i, j :: 0 <= i < j < |ids| ==> Less(ids[i], ids[j])
  }

  function ToSet<T>(s: seq<T>): set<T> { set x | x in s }
}

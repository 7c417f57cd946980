/** The scenario-count field shared by the flat-project and hourly pages: how the
    typed count is read, and how the list of scenario cards grows or shrinks to it. */
module ScenarioList {
  import opened Wrappers
  import opened JsText

  /** The largest number of scenarios the count field accepts. */
  const MaxScenarios: int := 10

  /** What a keystroke in the count field does: resize to a count, set the count to
      0 (an emptied field) and leave the list alone, or nothing at all. */
  datatype CountAction = Resize(count: int) | ClearCount | Ignore

  /** `parseInt` of the text; a number from 1 to 10 resizes, the empty text clears
      the count, anything else is ignored. */
  function CountActionOf(text: string): (a: CountAction)
    ensures a.Resize? <==> ParseInt(text).Some? && 1 <= ParseInt(text).value <= MaxScenarios
    ensures a.Resize? ==> a.count == ParseInt(text).value && 1 <= a.count <= MaxScenarios
    ensures a.ClearCount? <==> text == ""
  {
    var parsed := ParseInt(text);
    if parsed.Some? && 1 <= parsed.value <= MaxScenarios then Resize(parsed.value)
    else if text == "" then ClearCount
    else Ignore
  }

  /** The list after a resize to `count`: a longer list gets fresh records numbered
      from its old length + 1, a shorter one keeps its first `count` records. */
  function Resized<T>(prev: seq<T>, count: nat, make: int -> T): (next: seq<T>)
    ensures |next| == count
    ensures count <= |prev| ==> next == prev[..count]
    ensures count > |prev| ==> next[..|prev|] == prev
    ensures forall i :: |prev| <= i < count ==> next[i] == make(i + 1)
  {
    if count <= |prev| then prev[..count]
    else prev + seq(count - |prev|, k => make(|prev| + k + 1))
  }

  /** The list updater passed to `setScenarios`: copy the list, then push fresh
      records one by one while it is too short, or cut it to length. */
  method ResizeList<T>(prev: seq<T>, count: nat, make: int -> T) returns (next: seq<T>)
    ensures next == Resized(prev, count, make)
  {
    next := prev;
    if count > |prev| {
      var i := |prev|;
      while i < count
        invariant |prev| <= i <= count
        invariant |next| == i
        invariant next[..|prev|] == prev
        invariant forall k :: |prev| <= k < i ==> next[k] == make(k + 1)
      {
        next := next + [make(i + 1)];
        i := i + 1;
      }
    } else {
      next := next[..count];
    }
  }

  /** Record i of the list carries id i + 1. */
  predicate IdsSequential<T>(s: seq<T>, idOf: T -> int) {
    forall i :: 0 <= i < |s| ==> idOf(s[i]) == i + 1
  }

  /** Ids 1..len before a resize are ids 1..count after it, whenever a fresh record
      made for id k carries id k. */
  lemma ResizeKeepsIdsSequential<T>(prev: seq<T>, count: nat, make: int -> T, idOf: T -> int)
    requires IdsSequential(prev, idOf)
    requires forall k :: idOf(make(k)) == k
    ensures IdsSequential(Resized(prev, count, make), idOf)
  {
    var next := Resized(prev, count, make);
    forall i | 0 <= i < |next|
      ensures idOf(next[i]) == i + 1
    {
      if i < |prev| {
        if count <= |prev| {
          assert next[i] == prev[..count][i];
        } else {
          assert next[i] == next[..|prev|][i];
        }
      }
    }
  }

  /** Growing and then shrinking back gives the original list. */
  lemma GrowThenShrink<T>(prev: seq<T>, count: nat, make: int -> T)
    requires count >= |prev|
    ensures Resized(Resized(prev, count, make), |prev|, make) == prev
  {
    var grown := Resized(prev, count, make);
    assert grown[..|prev|] == prev;
  }
}

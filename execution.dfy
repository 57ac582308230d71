/**
  What a `try` block of the web API does with its sequence of library calls:
  the calls run in order, and the first one that raises (or the first `raise`
  of the handler's own code) ends the block. A request is described by its plan,
  the steps the code would take if nothing raised, and `Execute` gives the calls
  actually made and the exception, if any, that ended the block.
 */
module Execution {
  import opened Wrappers
  import opened Ble

  /** A library call the code makes, or an exception the code raises itself. */
  datatype Step = Invoke(call: Call) | Raise(message: string)

  /** The calls made, in order, and the text of the exception that ended the block, if any. */
  datatype Run = Run(made: seq<Call>, error: Option<string>)

  /** Step `s` raises: it is a `raise`, or a call the fault map names. */
  predicate Breaks(faults: map<Call, string>, s: Step) {
    s.Raise? || s.call in faults
  }

  /** `str(e)` for the exception step `s` raises. */
  function Message(faults: map<Call, string>, s: Step): string
    requires Breaks(faults, s)
  {
    if s.Raise? then s.message else faults[s.call]
  }

  /** The calls step `s` makes. */
  function Attempted(s: Step): seq<Call> {
    if s.Invoke? then [s.call] else []
  }

  /** The calls of a plan in which nothing raises. */
  function CallsOf(plan: seq<Step>): (calls: seq<Call>)
    ensures |calls| <= |plan|
  {
    if plan == [] then [] else Attempted(plan[0]) + CallsOf(plan[1..])
  }

  /** Calls `made` happened first, then the rest of the block ran as `r`. */
  function Follow(made: seq<Call>, r: Run): Run {
    Run(made + r.made, r.error)
  }

  /** The calls a plan makes and the exception that ends it. */
  function Execute(plan: seq<Step>, faults: map<Call, string>): (r: Run)
    ensures |r.made| <= |plan|
  {
    if plan == [] then Run([], None)
    else if Breaks(faults, plan[0]) then Run(Attempted(plan[0]), Some(Message(faults, plan[0])))
    else Follow([plan[0].call], Execute(plan[1..], faults))
  }

  /** The index of the first step of `plan` that raises, or `|plan|` when none does. */
  function FirstBreak(plan: seq<Step>, faults: map<Call, string>): (k: nat)
    ensures k <= |plan|
    ensures forall i :: 0 <= i < k ==> !Breaks(faults, plan[i])
    ensures k < |plan| ==> Breaks(faults, plan[k])
  {
    if plan == [] then 0
    else if Breaks(faults, plan[0]) then 0
    else 1 + FirstBreak(plan[1..], faults)
  }

  lemma {:induction false} CallsOfAppend(a: seq<Step>, b: seq<Step>)
    ensures CallsOf(a + b) == CallsOf(a) + CallsOf(b)
  {
    if a != [] {
      assert (a + b)[1..] == a[1..] + b;
      CallsOfAppend(a[1..], b);
    } else {
      assert a + b == b;
    }
  }

  /**
    The block makes every call before the first step that raises, then that
    step's own call if it is a library call, and ends with that step's
    exception; when no step raises it makes every call of the plan and ends
    normally.
   */
  lemma {:induction false} ExecuteStopsAtFirstBreak(plan: seq<Step>, faults: map<Call, string>)
    ensures var k := FirstBreak(plan, faults);
      Execute(plan, faults) ==
        if k < |plan| then Run(CallsOf(plan[..k]) + Attempted(plan[k]), Some(Message(faults, plan[k])))
        else Run(CallsOf(plan), None)
  {
    if plan == [] {
    } else if Breaks(faults, plan[0]) {
      assert plan[..0] == [];
    } else {
      var k := FirstBreak(plan, faults);
      var rest := plan[1..];
      ExecuteStopsAtFirstBreak(rest, faults);
      assert k == 1 + FirstBreak(rest, faults);
      if k < |plan| {
        PrefixUncons(plan, k);
        CallsOfAppend([plan[0]], rest[..k - 1]);
        assert CallsOf([plan[0]]) == [plan[0].call];
      }
    }
  }

  lemma PrefixUncons(plan: seq<Step>, k: nat)
    requires 0 < k <= |plan|
    ensures plan[..k] == [plan[0]] + plan[1..][..k - 1]
  {
  }

  /** Running `a + b` is running `a` and, only if `a` ended normally, `b` after it. */
  lemma {:induction false} ExecuteAppend(a: seq<Step>, b: seq<Step>, faults: map<Call, string>)
    ensures Execute(a + b, faults) ==
      if Execute(a, faults).error.Some? then Execute(a, faults)
      else Follow(Execute(a, faults).made, Execute(b, faults))
  {
    if a == [] {
      assert a + b == b;
    } else {
      assert (a + b)[0] == a[0];
      assert (a + b)[1..] == a[1..] + b;
      ExecuteAppend(a[1..], b, faults);
    }
  }

  /** One step of a block: how `[s] + rest` runs, given how `rest` runs. */
  lemma Unfold(s: Step, rest: seq<Step>, faults: map<Call, string>)
    ensures Execute([s] + rest, faults) ==
      if Breaks(faults, s) then Run(Attempted(s), Some(Message(faults, s)))
      else Follow([s.call], Execute(rest, faults))
  {
    assert ([s] + rest)[0] == s;
    assert ([s] + rest)[1..] == rest;
  }

  /** After calls `made`, a library call `c` either raises and ends the block, or is added to the calls made. */
  lemma Advance(made: seq<Call>, c: Call, rest: seq<Step>, faults: map<Call, string>)
    ensures Follow(made, Execute([Invoke(c)] + rest, faults)) ==
      if c in faults then Run(made + [c], Some(faults[c]))
      else Follow(made + [c], Execute(rest, faults))
  {
    Unfold(Invoke(c), rest, faults);
  }

  /** After calls `made`, a `raise` ends the block with no further call. */
  lemma RaiseEnds(made: seq<Call>, message: string, rest: seq<Step>, faults: map<Call, string>)
    ensures Follow(made, Execute([Raise(message)] + rest, faults)) == Run(made, Some(message))
  {
    Unfold(Raise(message), rest, faults);
  }

  /** After calls `made`, the part `a` of a block runs and, only if it ends normally, `b` after it. */
  lemma AdvanceBy(made: seq<Call>, a: seq<Step>, b: seq<Step>, faults: map<Call, string>)
    ensures Follow(made, Execute(a + b, faults)) ==
      if Execute(a, faults).error.Some? then Follow(made, Execute(a, faults))
      else Follow(made + Execute(a, faults).made, Execute(b, faults))
  {
    ExecuteAppend(a, b, faults);
    var ra, rb := Execute(a, faults), Execute(b, faults);
    if ra.error.None? {
      assert made + (ra.made + rb.made) == made + ra.made + rb.made;
    }
  }

  lemma AppendAssociates(a: seq<Call>, b: seq<Call>, c: seq<Call>)
    ensures a + (b + c) == a + b + c
  {
  }

  /** A block ends normally exactly when none of its steps raises, and then it has made every call of its plan. */
  lemma CleanIffNoBreak(plan: seq<Step>, faults: map<Call, string>)
    ensures Execute(plan, faults).error.None? <==> forall i :: 0 <= i < |plan| ==> !Breaks(faults, plan[i])
    ensures Execute(plan, faults).error.None? ==> Execute(plan, faults).made == CallsOf(plan)
  {
    ExecuteStopsAtFirstBreak(plan, faults);
  }

  /** Every call a block makes is the call of one of its steps. */
  lemma {:induction false} MadeFromPlan(plan: seq<Step>, faults: map<Call, string>)
    ensures forall c :: c in Execute(plan, faults).made ==> Invoke(c) in plan
  {
    if plan != [] && !Breaks(faults, plan[0]) {
      var rest := plan[1..];
      MadeFromPlan(rest, faults);
      forall c | c in Execute(plan, faults).made
        ensures Invoke(c) in plan
      {
        if c != plan[0].call {
          assert c in Execute(rest, faults).made;
          assert Invoke(c) in rest;
        }
      }
    }
  }

  /** The plan that makes the calls `calls` and raises nothing of its own. */
  function Invokes(calls: seq<Call>): (plan: seq<Step>)
    ensures |plan| == |calls|
    ensures forall i :: 0 <= i < |calls| ==> plan[i] == Invoke(calls[i])
  {
    if calls == [] then [] else [Invoke(calls[0])] + Invokes(calls[1..])
  }

  lemma {:induction false} CallsOfInvokes(calls: seq<Call>)
    ensures CallsOf(Invokes(calls)) == calls
  {
    if calls != [] {
      var plan := Invokes(calls);
      assert plan[1..] == Invokes(calls[1..]);
      CallsOfInvokes(calls[1..]);
    }
  }

  /** A plan of library calls only ends normally exactly when none of its calls raises, and then makes them all. */
  lemma InvokesRun(calls: seq<Call>, faults: map<Call, string>)
    ensures Execute(Invokes(calls), faults).error.None? <==> forall i :: 0 <= i < |calls| ==> calls[i] !in faults
    ensures Execute(Invokes(calls), faults).error.None? ==> Execute(Invokes(calls), faults).made == calls
  {
    CleanIffNoBreak(Invokes(calls), faults);
    CallsOfInvokes(calls);
  }

  /**
    When the last step of a block is the only one that makes call `c`, a block
    that raised has made `c` only if `c` itself raised.
   */
  lemma LastCallOnlyWhenReached(pre: seq<Step>, c: Call, faults: map<Call, string>)
    requires Invoke(c) !in pre
    ensures var r := Execute(pre + [Invoke(c)], faults);
      r.error.Some? && c in r.made ==> c in faults && r.error == Some(faults[c])
  {
    ExecuteAppend(pre, [Invoke(c)], faults);
    MadeFromPlan(pre, faults);
    Unfold(Invoke(c), [], faults);
  }
}

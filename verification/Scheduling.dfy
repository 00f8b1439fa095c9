/** One scheduling pass over a run's steps in name order, and what it starts and skips. */
module Scheduling {
  import opened Prelude
  import opened Names
  import opened WorkflowRun

  datatype Pass = Pass(steps: Steps, active: nat)

  function ScheduleOne(p: Pass, n: string, max: int, at: int): Pass
    requires n in p.steps
  {
    var s := p.steps[n];
    if !s.state.Pending? then p
    else if HasFatal(p.steps, s) then p.(steps := p.steps[n := s.(state := Skipped, finishedAt := Some(at))])
    else if !AllCompleted(p.steps, s) || p.active >= max then p
    else Pass(p.steps[n := s.(state := Starting, startedAt := Some(at))], p.active + 1)
  }

  function ActiveCount(steps: Steps): nat {
    |set n | n in steps && steps[n].state.Active()|
  }

  /** The pass after the given names. */
  function PassOver(steps: Steps, names: seq<string>, max: int, at: int): (p: Pass)
    requires forall n | n in names :: n in steps
    ensures p.steps.Keys == steps.Keys
  {
    if names == [] then Pass(steps, ActiveCount(steps))
    else ScheduleOne(PassOver(steps, names[..|names| - 1], max, at), names[|names| - 1], max, at)
  }

  function Schedule(steps: Steps, max: int, at: int): Steps {
    PassOver(steps, Sorted(steps.Keys), max, at).steps
  }

  // ---- The closed form ----

  /** A step that may start: pending, with every dependency completed. */
  predicate Ready(steps: Steps, n: string) {
    n in steps && steps[n].state.Pending? && AllCompleted(steps, steps[n])
  }

  function ReadyNames(steps: Steps, names: seq<string>): (r: seq<string>)
    ensures forall n :: n in r <==> n in names && Ready(steps, n)
  {
    if names == [] then []
    else
      var last := names[|names| - 1];
      ReadyNames(steps, names[..|names| - 1]) + if Ready(steps, last) then [last] else []
  }

  function FreeSlots(steps: Steps, max: int): nat {
    if ActiveCount(steps) >= max then 0 else max - ActiveCount(steps)
  }

  /** The first ready steps, as many as there are free slots. */
  function Started(steps: Steps, names: seq<string>, max: int): seq<string> {
    var ready := ReadyNames(steps, names);
    if |ready| <= FreeSlots(steps, max) then ready else ready[..FreeSlots(steps, max)]
  }

  /** Pending steps with a dependency that did not complete, or that was skipped earlier in the pass. */
  function SkippedBy(steps: Steps, names: seq<string>): (r: set<string>)
    requires forall n | n in names :: n in steps
    ensures forall n | n in r :: n in names && steps[n].state.Pending?
  {
    if names == [] then {}
    else
      var last := names[|names| - 1];
      var earlier := SkippedBy(steps, names[..|names| - 1]);
      if steps[last].state.Pending? && Doomed(steps, steps[last], earlier)
      then earlier + {last} else earlier
  }

  function Marked(step: Step, skipped: bool, started: bool, at: int): Step {
    if skipped then step.(state := Skipped, finishedAt := Some(at))
    else if started then step.(state := Starting, startedAt := Some(at))
    else step
  }

  function PassResult(steps: Steps, names: seq<string>, max: int, at: int, n: string): Step
    requires n in steps && forall m | m in names :: m in steps
  {
    Marked(steps[n], n in SkippedBy(steps, names), n in Started(steps, names, max), at)
  }

  lemma ReadyIsNotSkipped(steps: Steps, names: seq<string>, n: string)
    requires forall m | m in names :: m in steps
    requires Ready(steps, n)
    ensures n !in SkippedBy(steps, names)
  {
    if names != [] {
      ReadyIsNotSkipped(steps, names[..|names| - 1], n);
    }
  }

  lemma ReadyNamesDistinct(steps: Steps, names: seq<string>)
    requires Distinct(names)
    ensures Distinct(ReadyNames(steps, names))
  {
    if names != [] {
      ReadyNamesDistinct(steps, names[..|names| - 1]);
    }
  }

  ghost predicate FollowsClosedForm(steps: Steps, names: seq<string>, max: int, at: int)
    requires forall n | n in names :: n in steps
  {
    var p := PassOver(steps, names, max, at);
    && p.active == ActiveCount(steps) + |Started(steps, names, max)|
    && forall n | n in steps :: p.steps[n] == PassResult(steps, names, max, at, n)
  }

  /** The pass does to each step exactly what the closed form says, and counts the active steps. */
  lemma {:induction false} PassIsGreedy(steps: Steps, names: seq<string>, max: int, at: int)
    requires Distinct(names) && forall n | n in names :: n in steps
    ensures FollowsClosedForm(steps, names, max, at)
  {
    if names != [] {
      var front, last := names[..|names| - 1], names[|names| - 1];
      PassIsGreedy(steps, front, max, at);
      assert last !in front;
      PassKeepsReadiness(steps, front, max, at, steps[last]);
      LastResult(steps, front, last, max, at);
      assert names == front + [last];
    }
  }

  predicate Doomed(steps: Steps, s: Step, skipped: set<string>) {
    HasFatal(steps, s) || exists d :: d in s.plan.after && d in skipped
  }

  lemma LastResult(steps: Steps, front: seq<string>, last: string, max: int, at: int)
    requires last in steps && last !in front && forall n | n in front :: n in steps
    requires FollowsClosedForm(steps, front, max, at)
    requires var p := PassOver(steps, front, max, at);
             && (AllCompleted(p.steps, steps[last]) <==> AllCompleted(steps, steps[last]))
             && (HasFatal(p.steps, steps[last]) <==> Doomed(steps, steps[last], SkippedBy(steps, front)))
    ensures FollowsClosedForm(steps, front + [last], max, at)
  {
    var names := front + [last];
    assert names[..|names| - 1] == front;
    StartedGrows(steps, names, max);
    StartedArePending(steps, front, max, last);
    if Ready(steps, last) {
      ReadyIsNotSkipped(steps, names, last);
    }
    MarkLast(steps, PassOver(steps, front, max, at), last, max, at, SkippedBy(steps, front), Started(steps, front, max));
    assert SkippedBy(steps, names) == SkippedBy(steps, front) +
        if steps[last].state.Pending? && Doomed(steps, steps[last], SkippedBy(steps, front)) then {last} else {};
  }

  lemma MarkLast(steps: Steps, p: Pass, last: string, max: int, at: int, skipped: set<string>, started: seq<string>)
    requires last in steps && p.steps.Keys == steps.Keys && last !in skipped && last !in started
    requires p.active == ActiveCount(steps) + |started|
    requires |started| <= FreeSlots(steps, max)
    requires forall n | n in steps :: p.steps[n] == Marked(steps[n], n in skipped, n in started, at)
    requires AllCompleted(p.steps, steps[last]) <==> AllCompleted(steps, steps[last])
    requires HasFatal(p.steps, steps[last]) <==> Doomed(steps, steps[last], skipped)
    requires Ready(steps, last) ==> !Doomed(steps, steps[last], skipped)
    ensures var q := ScheduleOne(p, last, max, at);
            var skipped' := skipped + if steps[last].state.Pending? && Doomed(steps, steps[last], skipped) then {last} else {};
            var started' := started + if Ready(steps, last) && |started| < FreeSlots(steps, max) then [last] else [];
            && q.active == ActiveCount(steps) + |started'|
            && forall n | n in steps :: q.steps[n] == Marked(steps[n], n in skipped', n in started', at)
  {
    assert p.steps[last] == steps[last];
    assert p.active >= max <==> |started| >= FreeSlots(steps, max);
  }

  lemma StartedGrows(steps: Steps, names: seq<string>, max: int)
    requires names != []
    ensures var front, last := names[..|names| - 1], names[|names| - 1];
            Started(steps, names, max) == Started(steps, front, max) +
              if Ready(steps, last) && |Started(steps, front, max)| < FreeSlots(steps, max) then [last] else []
  {}

  /** Earlier starts and skips in the pass never make a step ready, and only skips doom one. */
  lemma PassKeepsReadiness(steps: Steps, names: seq<string>, max: int, at: int, s: Step)
    requires forall n | n in names :: n in steps
    requires var p := PassOver(steps, names, max, at); forall n | n in steps :: p.steps[n] == PassResult(steps, names, max, at, n)
    ensures var p := PassOver(steps, names, max, at);
            && (AllCompleted(p.steps, s) <==> AllCompleted(steps, s))
            && (HasFatal(p.steps, s) <==> Doomed(steps, s, SkippedBy(steps, names)))
  {
    var p := PassOver(steps, names, max, at);
    forall d | d in s.plan.after && d in steps
      ensures p.steps[d].state.Completed? <==> steps[d].state.Completed?
      ensures p.steps[d].state.Fatal() <==> steps[d].state.Fatal() || d in SkippedBy(steps, names)
    {
      StartedArePending(steps, names, max, d);
    }
  }

  lemma StartedArePending(steps: Steps, names: seq<string>, max: int, n: string)
    ensures n in Started(steps, names, max) ==> n in names && Ready(steps, n)
  {}

  lemma AscendingIsDistinct(names: seq<string>)
    requires Ascending(names)
    ensures Distinct(names)
  {}

  /**
   * A whole pass starts exactly the first min(ready, free) ready steps in name order and skips exactly
   * the doomed ones; afterwards the slots are full or no pending step is ready.
   */
  lemma {:induction false} ScheduleIsGreedy(steps: Steps, max: int, at: int)
    ensures var names := Sorted(steps.Keys); var after := Schedule(steps, max, at);
            && after.Keys == steps.Keys
            && (forall n | n in steps :: after[n] == PassResult(steps, names, max, at, n))
            && (ActiveCount(steps) + |Started(steps, names, max)| >= max || forall n | n in steps :: !Ready(after, n))
  {
    var names := Sorted(steps.Keys);
    AscendingIsDistinct(names);
    PassIsGreedy(steps, names, max, at);
    var after := Schedule(steps, max, at);
    if ActiveCount(steps) + |Started(steps, names, max)| < max {
      forall n | n in steps ensures !Ready(after, n) {
        PassKeepsReadiness(steps, names, max, at, steps[n]);
      }
    }
  }
}

/**
 * The session rows and resources under the lock table: any number of threads lock sessions, make the calls of their
 * operations one at a time, and unlock, in any interleaving.
 */
module LockedSessions {
  import opened Prelude
  import opened SessionSteps
  import LockTable

  /** The locks and threads, and what the threads work on. */
  datatype World = World(locks: LockTable.State, store: Store)

  predicate Holds(w: World, t: nat, name: string) {
    t in w.locks.threads && w.locks.threads[t].Holding? && w.locks.threads[t].name == name
  }

  /** A thread inside a session's lock makes one call of an operation on that session. */
  ghost predicate Acts(a: World, b: World, t: nat) {
    b.locks == a.locks && exists name :: Holds(a, t, name) && Calls(name, a.store, b.store)
  }

  /** A thread takes a step of the lock protocol. */
  ghost predicate Locks(a: World, b: World, t: nat) {
    LockTable.Step(a.locks, b.locks, t) && b == a.(locks := b.locks)
  }

  ghost predicate Execution(trace: seq<World>, who: seq<nat>) {
    && |trace| == |who| + 1 && LockTable.Start(trace[0].locks) && InOrder(trace[0].store)
    && forall i | 0 <= i < |who| :: Acts(trace[i], trace[i + 1], who[i]) || Locks(trace[i], trace[i + 1], who[i])
  }

  /** In every reachable state, also in the middle of operations, the locks are consistent and rows and resources in good order. */
  lemma {:induction false} AlwaysInOrder(trace: seq<World>, who: seq<nat>, i: nat)
    requires Execution(trace, who) && i < |trace|
    ensures LockTable.Consistent(trace[i].locks) && InOrder(trace[i].store)
  {
    hide InOrder, Calls, LockTable.Consistent, LockTable.Step, LockTable.Start;
    if i == 0 {
      LockTable.StartIsConsistent(trace[0].locks);
    } else {
      AlwaysInOrder(trace, who, i - 1);
      var a, b, t := trace[i - 1], trace[i], who[i - 1];
      if Acts(a, b, t) {
        var name :| Holds(a, t, name) && Calls(name, a.store, b.store);
        CallKeeps(name, a.store, b.store);
      } else {
        LockTable.StepKeeps(a.locks, b.locks, t);
      }
    }
  }

  /** While a thread is inside a session's lock, no other thread's step changes that session. */
  lemma NobodyInterferes(trace: seq<World>, who: seq<nat>, t: nat, name: string, i: nat)
    requires Execution(trace, who) && i < |who| && Holds(trace[i], t, name) && who[i] != t
    ensures Of(trace[i + 1].store, name) == Of(trace[i].store, name)
  {
    hide InOrder, Touches, LockTable.Consistent, LockTable.Step, LockTable.Start;
    var a, b, v := trace[i], trace[i + 1], who[i];
    if Acts(a, b, v) {
      var other :| Holds(a, v, other) && Calls(other, a.store, b.store);
      AlwaysInOrder(trace, who, i);
      if other == name { LockTable.OneHolder(a.locks, t, v); }
      SameElsewhere(other, a.store, b.store, name);
    }
  }

  /** The named session at the start, and after each step that the thread itself takes. */
  function OwnStates(trace: seq<World>, who: seq<nat>, t: nat, name: string, i: nat, j: nat): (own: seq<Session>)
    requires i <= j < |trace| == |who| + 1
    ensures |own| > 0
    decreases j
  {
    if i == j then [Of(trace[i].store, name)]
    else OwnStates(trace, who, t, name, i, j - 1) + if who[j - 1] == t then [Of(trace[j].store, name)] else []
  }

  /**
   * An interleaved operation is the operation alone: from locking a session to unlocking it, a thread finds the session
   * exactly as its own calls left it, each made on what the one before it did.
   */
  lemma {:induction false} OperationsAreIsolated(trace: seq<World>, who: seq<nat>, t: nat, name: string, i: nat, j: nat)
    requires Execution(trace, who) && i <= j < |trace|
    requires forall k | i <= k <= j :: Holds(trace[k], t, name)
    ensures var own := OwnStates(trace, who, t, name, i, j);
            && own[0] == Of(trace[i].store, name) && own[|own| - 1] == Of(trace[j].store, name)
            && forall k | 0 <= k < |own| - 1 :: Touches(name, own[k], own[k + 1])
    decreases j
  {
    hide Of, InOrder, LockTable.Consistent, LockTable.Step, LockTable.Start, OnlyOne;
    if i < j {
      OperationsAreIsolated(trace, who, t, name, i, j - 1);
      var before, own := OwnStates(trace, who, t, name, i, j - 1), OwnStates(trace, who, t, name, i, j);
      if who[j - 1] != t {
        NobodyInterferes(trace, who, t, name, j - 1);
      } else {
        OwnStep(trace[j - 1], trace[j], t, name);
        assert own == before + [Of(trace[j].store, name)];
      }
    }
  }

  lemma OwnStep(a: World, b: World, t: nat, name: string)
    requires Acts(a, b, t) || Locks(a, b, t)
    requires Holds(a, t, name)
    ensures Touches(name, Of(a.store, name), Of(b.store, name))
  {
    hide Of, LockTable.Step, OnlyOne;
  }

  /** What a session operation's contract promises, a thread inside the lock does by such steps. */
  lemma OperationActs(a: World, t: nat, name: string, after: Store) returns (trace: seq<World>)
    requires Holds(a, t, name) && Works(name, a.store, after)
    ensures |trace| > 0 && trace[0] == a && trace[|trace| - 1] == a.(store := after)
    ensures forall i | 0 <= i < |trace| - 1 :: Acts(trace[i], trace[i + 1], t)
  {
    hide Calls;
    var trail :| Trail(name, trail) && trail[0] == a.store && trail[|trail| - 1] == after;
    trace := seq(|trail|, i requires 0 <= i < |trail| => a.(store := trail[i]));
    forall i | 0 <= i < |trace| - 1 ensures Acts(trace[i], trace[i + 1], t) {
      assert Holds(trace[i], t, name) && Calls(name, trail[i], trail[i + 1]);
    }
  }
}

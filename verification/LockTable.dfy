/** The reference-counted locks that serialize operations on one session, for any number of threads. */
module LockTable {
  import opened Prelude

  /** A lock object; its users are the threads that registered for it and have not unregistered. */
  datatype Lock = Lock(users: nat, holder: Option<nat>)

  /** Where a thread is: between calls, blocked on the lock, inside, or past the unlock but still registered. */
  datatype Thread = Idle | Waiting(name: string, lock: nat) | Holding(name: string, lock: nat) | Leaving(name: string, lock: nat)

  /** The table from names to locks, every lock object ever made, and the threads. */
  datatype State = State(table: map<string, nat>, locks: seq<Lock>, threads: map<nat, Thread>)

  predicate Registered(thread: Thread, name: string) {
    !thread.Idle? && thread.name == name
  }

  ghost function UsersOf(threads: map<nat, Thread>, name: string): set<nat> {
    set t | t in threads && Registered(threads[t], name)
  }

  // ---- The two critical sections, as the table's mutex protects them ----

  class Table {
    var table: map<string, nat>
    var locks: seq<Lock>

    constructor ()
      ensures table == map[] && locks == []
    {
      table, locks := map[], [];
    }

    /** Finds or makes the name's lock and counts one more user. */
    method Register(name: string) returns (lock: nat)
      requires name in table ==> table[name] < |locks|
      modifies this
      ensures (table, locks, lock) == Registering(old(table), old(locks), name)
    {
      if name !in table {
        locks := locks + [Lock(0, None)];
        table := table[name := |locks| - 1];
      }
      lock := table[name];
      locks := locks[lock := locks[lock].(users := locks[lock].users + 1)];
      assert name !in old(table) ==> locks == old(locks) + [Lock(1, None)];
    }

    /** Counts one user less and forgets a lock without users. */
    method Unregister(name: string, lock: nat)
      requires lock < |locks| && locks[lock].users > 0
      modifies this
      ensures (table, locks) == Unregistering(old(table), old(locks), name, lock)
    {
      locks := locks[lock := locks[lock].(users := locks[lock].users - 1)];
      if locks[lock].users == 0 { table := table - {name}; }
    }
  }

  function Registering(table: map<string, nat>, locks: seq<Lock>, name: string): (map<string, nat>, seq<Lock>, nat)
    requires name in table ==> table[name] < |locks|
  {
    if name in table then
      (table, locks[table[name] := locks[table[name]].(users := locks[table[name]].users + 1)], table[name])
    else (table[name := |locks|], locks + [Lock(1, None)], |locks|)
  }

  function Unregistering(table: map<string, nat>, locks: seq<Lock>, name: string, lock: nat): (map<string, nat>, seq<Lock>)
    requires lock < |locks| && locks[lock].users > 0
  {
    var left := locks[lock].users - 1;
    (if left == 0 then table - {name} else table, locks[lock := locks[lock].(users := left)])
  }

  // ---- One step of one thread ----

  ghost predicate Enter(s: State, u: State, t: nat, name: string) {
    && t in s.threads && s.threads[t].Idle?
    && (name in s.table ==> s.table[name] < |s.locks|)
    && var (table, locks, lock) := Registering(s.table, s.locks, name);
    u == State(table, locks, s.threads[t := Waiting(name, lock)])
  }

  ghost predicate Acquire(s: State, u: State, t: nat) {
    && t in s.threads && s.threads[t].Waiting?
    && var lock := s.threads[t].lock;
    && lock < |s.locks| && s.locks[lock].holder.None?
    && u == s.(locks := s.locks[lock := s.locks[lock].(holder := Some(t))],
               threads := s.threads[t := Holding(s.threads[t].name, lock)])
  }

  ghost predicate Release(s: State, u: State, t: nat) {
    && t in s.threads && s.threads[t].Holding?
    && var lock := s.threads[t].lock;
    && lock < |s.locks|
    && u == s.(locks := s.locks[lock := s.locks[lock].(holder := None)],
               threads := s.threads[t := Leaving(s.threads[t].name, lock)])
  }

  ghost predicate Leave(s: State, u: State, t: nat) {
    && t in s.threads && s.threads[t].Leaving?
    && var (name, lock) := (s.threads[t].name, s.threads[t].lock);
    && lock < |s.locks| && s.locks[lock].users > 0
    && var (table, locks) := Unregistering(s.table, s.locks, name, lock);
    u == State(table, locks, s.threads[t := Idle])
  }

  ghost predicate Step(s: State, u: State, t: nat) {
    (exists name :: Enter(s, u, t, name)) || Acquire(s, u, t) || Release(s, u, t) || Leave(s, u, t)
  }

  ghost predicate Next(s: State, u: State) {
    exists t :: Step(s, u, t)
  }

  ghost predicate Start(s: State) {
    s.table == map[] && s.locks == [] && forall t | t in s.threads :: s.threads[t].Idle?
  }

  ghost predicate Execution(trace: seq<State>) {
    && |trace| > 0 && Start(trace[0])
    && forall i | 0 <= i < |trace| - 1 :: Next(trace[i], trace[i + 1])
  }

  // ---- What every step keeps ----

  /** Every registered thread shares the lock that the table has for its name. */
  ghost predicate Shared(s: State) {
    forall t | t in s.threads && !s.threads[t].Idle? ::
      s.threads[t].name in s.table && s.table[s.threads[t].name] == s.threads[t].lock
  }

  /** A lock in the table counts exactly its registered threads, and there is at least one. */
  ghost predicate Counted(s: State) {
    forall n | n in s.table :: s.table[n] < |s.locks| && 0 < s.locks[s.table[n]].users == |UsersOf(s.threads, n)|
  }

  ghost predicate OneNameEach(s: State) {
    forall m, n | m in s.table && n in s.table && s.table[m] == s.table[n] :: m == n
  }

  /** The thread inside a lock is its holder, and nobody else is. */
  ghost predicate HeldBy(s: State) {
    && (forall t | t in s.threads && s.threads[t].Holding? ::
          s.threads[t].lock < |s.locks| && s.locks[s.threads[t].lock].holder == Some(t))
    && (forall n | n in s.table && s.table[n] < |s.locks| && s.locks[s.table[n]].holder.Some? ::
          var t := s.locks[s.table[n]].holder.value;
          t in s.threads && s.threads[t] == Holding(n, s.table[n]))
  }

  ghost predicate Consistent(s: State) {
    Shared(s) && Counted(s) && OneNameEach(s) && HeldBy(s)
  }

  lemma UsersWith(threads: map<nat, Thread>, t: nat, thread: Thread, n: string)
    requires t in threads && threads[t].Idle? && !thread.Idle?
    ensures |UsersOf(threads[t := thread], n)| == |UsersOf(threads, n)| + if thread.name == n then 1 else 0
  {
    var before, after := UsersOf(threads, n), UsersOf(threads[t := thread], n);
    assert after == if thread.name == n then before + {t} else before;
  }

  lemma UsersWithout(threads: map<nat, Thread>, t: nat, n: string)
    requires t in threads && !threads[t].Idle?
    ensures |UsersOf(threads[t := Idle], n)| == |UsersOf(threads, n)| - if threads[t].name == n then 1 else 0
  {
    var before, after := UsersOf(threads, n), UsersOf(threads[t := Idle], n);
    assert after == if threads[t].name == n then before - {t} else before;
  }

  lemma UsersSame(threads: map<nat, Thread>, t: nat, thread: Thread, n: string)
    requires t in threads && !threads[t].Idle? && !thread.Idle? && thread.name == threads[t].name
    ensures UsersOf(threads[t := thread], n) == UsersOf(threads, n)
  {}

  lemma EnterCounts(s: State, u: State, t: nat, name: string)
    requires Shared(s) && Counted(s) && OneNameEach(s) && Enter(s, u, t, name)
    ensures Counted(u)
  {
    forall n | n in u.table ensures u.table[n] < |u.locks| && 0 < u.locks[u.table[n]].users == |UsersOf(u.threads, n)| {
      UsersWith(s.threads, t, u.threads[t], n);
      if n == name && name !in s.table {
        assert UsersOf(s.threads, n) == {};
      }
    }
  }

  lemma EnterShares(s: State, u: State, t: nat, name: string)
    requires Shared(s) && Counted(s) && OneNameEach(s) && Enter(s, u, t, name)
    ensures Shared(u) && OneNameEach(u)
  {
    hide UsersOf;
  }

  lemma EnterHolds(s: State, u: State, t: nat, name: string)
    requires Shared(s) && Counted(s) && HeldBy(s) && Enter(s, u, t, name)
    ensures HeldBy(u)
  {
    hide UsersOf;
  }

  lemma EnterKeeps(s: State, u: State, t: nat, name: string)
    requires Consistent(s) && Enter(s, u, t, name)
    ensures Consistent(u)
  {
    hide Shared, Counted, OneNameEach, HeldBy, Enter;
    EnterCounts(s, u, t, name);
    EnterShares(s, u, t, name);
    EnterHolds(s, u, t, name);
  }

  lemma AcquireKeeps(s: State, u: State, t: nat)
    requires Consistent(s) && Acquire(s, u, t)
    ensures Consistent(u)
  {
    forall n | n in u.table ensures u.table[n] < |u.locks| && 0 < u.locks[u.table[n]].users == |UsersOf(u.threads, n)| {
      UsersSame(s.threads, t, u.threads[t], n);
    }
  }

  lemma ReleaseKeeps(s: State, u: State, t: nat)
    requires Consistent(s) && Release(s, u, t)
    ensures Consistent(u)
  {
    forall n | n in u.table ensures u.table[n] < |u.locks| && 0 < u.locks[u.table[n]].users == |UsersOf(u.threads, n)| {
      UsersSame(s.threads, t, u.threads[t], n);
    }
  }

  lemma LastUser(s: State, t: nat)
    requires Consistent(s) && t in s.threads && !s.threads[t].Idle? && s.locks[s.threads[t].lock].users == 1
    ensures forall v | v in s.threads && Registered(s.threads[v], s.threads[t].name) :: v == t
  {
    var name := s.threads[t].name;
    var users := UsersOf(s.threads, name);
    assert t in users && |users - {t}| == 0;
    forall v | v in s.threads && Registered(s.threads[v], name) ensures v == t {
      assert v in users && (v != t ==> v in users - {t});
    }
  }

  lemma LeaveCounts(s: State, u: State, t: nat)
    requires Shared(s) && Counted(s) && OneNameEach(s) && Leave(s, u, t)
    ensures Counted(u)
  {
    forall n | n in u.table ensures u.table[n] < |u.locks| && 0 < u.locks[u.table[n]].users == |UsersOf(u.threads, n)| {
      UsersWithout(s.threads, t, n);
    }
  }

  lemma LeaveShares(s: State, u: State, t: nat)
    requires Consistent(s) && Leave(s, u, t)
    ensures Shared(u) && OneNameEach(u)
  {
    if s.locks[s.threads[t].lock].users == 1 { LastUser(s, t); }
    hide UsersOf;
  }

  lemma LeaveHolds(s: State, u: State, t: nat)
    requires Consistent(s) && Leave(s, u, t)
    ensures HeldBy(u)
  {
    hide UsersOf;
  }

  lemma LeaveKeeps(s: State, u: State, t: nat)
    requires Consistent(s) && Leave(s, u, t)
    ensures Consistent(u)
  {
    hide Shared, Counted, OneNameEach, HeldBy, Leave;
    LeaveCounts(s, u, t);
    LeaveShares(s, u, t);
    LeaveHolds(s, u, t);
  }

  lemma StartIsConsistent(s: State)
    requires Start(s)
    ensures Consistent(s)
  {}

  lemma StepKeeps(s: State, u: State, t: nat)
    requires Consistent(s) && Step(s, u, t)
    ensures Consistent(u)
  {
    hide Consistent, Enter, Acquire, Release, Leave;
    if name :| Enter(s, u, t, name) {
      EnterKeeps(s, u, t, name);
    } else if Acquire(s, u, t) {
      AcquireKeeps(s, u, t);
    } else if Release(s, u, t) {
      ReleaseKeeps(s, u, t);
    } else {
      LeaveKeeps(s, u, t);
    }
  }

  /** In every execution, whatever the interleaving, the table is consistent. */
  lemma {:induction false} AlwaysConsistent(trace: seq<State>, i: nat)
    requires Execution(trace) && i < |trace|
    ensures Consistent(trace[i])
  {
    if i == 0 {
      StartIsConsistent(trace[0]);
    } else {
      AlwaysConsistent(trace, i - 1);
      assert Next(trace[i - 1], trace[i]);
      var t :| Step(trace[i - 1], trace[i], t);
      StepKeeps(trace[i - 1], trace[i], t);
    }
  }

  lemma OneHolder(s: State, t: nat, v: nat)
    requires Consistent(s) && t in s.threads && s.threads[t].Holding? && v in s.threads && s.threads[v].Holding?
    requires s.threads[t].name == s.threads[v].name
    ensures t == v
  {}

  /** At most one thread is ever inside the operations of a session. */
  lemma MutualExclusion(trace: seq<State>, i: nat, t: nat, v: nat)
    requires Execution(trace) && i < |trace|
    requires t in trace[i].threads && trace[i].threads[t].Holding? && v in trace[i].threads && trace[i].threads[v].Holding?
    requires trace[i].threads[t].name == trace[i].threads[v].name
    ensures t == v
  {
    AlwaysConsistent(trace, i);
    OneHolder(trace[i], t, v);
  }

  /** A name has an entry exactly while some thread is registered for it, and all of them share its lock. */
  lemma EntryWhileUsed(trace: seq<State>, i: nat, name: string)
    requires Execution(trace) && i < |trace|
    ensures var s := trace[i];
            && (name in s.table <==> exists t :: t in s.threads && Registered(s.threads[t], name))
            && (forall t | t in s.threads && Registered(s.threads[t], name) :: s.threads[t].lock == s.table[name])
            && (name in s.table ==> s.table[name] < |s.locks| && s.locks[s.table[name]].users == |UsersOf(s.threads, name)|)
  {
    AlwaysConsistent(trace, i);
    var s := trace[i];
    if name in s.table {
      var users := UsersOf(s.threads, name);
      assert users != {};
      var t :| t in users;
      assert Registered(s.threads[t], name);
    }
  }

  /** A thread that waits for a lock nobody holds can go in. */
  lemma FreeLockIsTaken(trace: seq<State>, i: nat, t: nat) returns (u: State)
    requires Execution(trace) && i < |trace|
    requires t in trace[i].threads && trace[i].threads[t].Waiting?
    requires forall v | v in trace[i].threads && trace[i].threads[v].Holding? :: trace[i].threads[v].name != trace[i].threads[t].name
    ensures Acquire(trace[i], u, t)
  {
    AlwaysConsistent(trace, i);
    var s := trace[i];
    var lock := s.threads[t].lock;
    u := s.(locks := s.locks[lock := s.locks[lock].(holder := Some(t))],
            threads := s.threads[t := Holding(s.threads[t].name, lock)]);
  }
}

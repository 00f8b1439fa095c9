/** The calls that session operations make: each changes one session's rows or resources, under a guard, and keeps good order. */
module SessionSteps {
  import opened Prelude
  import opened SessionTypes
  import opened SessionTasks
  import opened SessionStore
  import opened DnsNames

  /** The rows and the resources at one moment. */
  datatype Store = Store(sessions: Sessions, tasks: Tasks, jobs: map<string, set<string>>, claims: set<string>, publishers: set<string>)

  /** Everything about one session. */
  datatype Session = Session(record: Option<Record>, history: Option<seq<Task>>, jobs: set<string>, claimed: bool, publishing: bool)

  function Of(s: Store, name: string): Session {
    Session(if name in s.sessions then Some(s.sessions[name]) else None,
            if name in s.tasks then Some(s.tasks[name]) else None,
            JobsOf(s.jobs, name), name in s.claims, name in s.publishers)
  }

  /** What the database and the cluster keep together. */
  ghost predicate InOrder(s: Store) {
    && GoodRows(s.sessions, s.tasks) && Backed(s.sessions, s.tasks, s.jobs, s.claims)
    && Claimed(s.sessions, s.tasks, s.jobs, s.claims) && s.publishers <= s.sessions.Keys
  }

  /** A session in good order: its tasks and its resources are recorded with it, and it has the claim it needs. */
  ghost predicate Good(name: string, s: Session) {
    && (s.record.Some? <==> s.history.Some?)
    && (s.record.Some? ==>
          && GoodHistory(s.history.value) && AsIntended(s.record.value, s.history.value[0])
          && s.record.value.name == name && IsLabel(name, SESSION_NAME_MAX))
    && (forall t | t in s.jobs :: s.history.Some? && HasTask(s.history.value, t))
    && (s.claimed ==> s.record.Some? && s.record.value.definition.storage.Persistent?)
    && (s.record.Some? && NeedsClaim(s.record.value, s.history.value[0], s.jobs) ==> s.claimed)
    && (s.publishing ==> s.record.Some?)
  }

  /** Good order of the whole is good order of every session. */
  lemma AllGood(s: Store)
    ensures InOrder(s) <==> forall name :: Good(name, Of(s, name))
  {
    if InOrder(s) {
      OrderedIsGood(s);
    } else if forall name :: Good(name, Of(s, name)) {
      GoodIsOrdered(s);
    }
  }

  lemma GoodIsOrdered(s: Store)
    requires forall name :: Good(name, Of(s, name))
    ensures InOrder(s)
  {
    hide AsIntended, IsLabel, GoodTask, HasTask, NeedsClaim;
    forall name ensures name in s.tasks <==> name in s.sessions {
      assert Good(name, Of(s, name));
    }
    forall name | name in s.sessions
      ensures GoodHistory(s.tasks[name]) && |s.tasks[name]| > 0 && AsIntended(s.sessions[name], s.tasks[name][0])
      ensures s.sessions[name].name == name && IsLabel(name, SESSION_NAME_MAX)
    {
      assert Good(name, Of(s, name));
    }
    forall name, t | t in JobsOf(s.jobs, name) ensures name in s.sessions && HasTask(s.tasks[name], t) {
      assert Good(name, Of(s, name));
    }
    forall name | name in s.claims ensures name in s.sessions && s.sessions[name].definition.storage.Persistent? {
      assert Good(name, Of(s, name));
    }
    forall name | name in s.publishers ensures name in s.sessions {
      assert Good(name, Of(s, name));
    }
    forall name | name in s.sessions && name in s.tasks && |s.tasks[name]| > 0
                  && NeedsClaim(s.sessions[name], s.tasks[name][0], JobsOf(s.jobs, name)) ensures name in s.claims {
      assert Good(name, Of(s, name));
    }
  }

  lemma OrderedIsGood(s: Store)
    requires InOrder(s)
    ensures forall name :: Good(name, Of(s, name))
  {
    hide AsIntended, IsLabel, HasTask, NeedsClaim;
    forall name ensures Good(name, Of(s, name)) {
      assert name in s.tasks.Keys <==> name in s.sessions.Keys;
      assert name in s.publishers ==> name in s.sessions.Keys;
    }
  }

  // ---- The calls ----

  /** The session is inserted with its first task. */
  ghost predicate Inserted(name: string, a: Session, b: Session) {
    && a.record.None? && b == a.(record := b.record, history := b.history) && b.record.Some? && b.history.Some?
    && b.record.value.name == name && IsLabel(name, SESSION_NAME_MAX)
    && |b.history.value| == 1 && GoodTask(b.history.value[0]) && !b.history.value[0].state.Terminal()
    && AsIntended(b.record.value, b.history.value[0])
  }

  /** Another task is added after a finished one. */
  ghost predicate Added(a: Session, b: Session, task: Task) {
    && a.record.Some? && a.history.Some? && |a.history.value| > 0 && Latest(a.history.value).state.Terminal()
    && GoodTask(task) && !HasTask(a.history.value, task.id)
    && b == a.(history := Some(a.history.value + [task]))
  }

  /** The latest task goes on; it is canceled, or seen, and then it has a Job. */
  ghost predicate Progressed(a: Session, b: Session, task: Task) {
    && a.record.Some? && a.history.Some? && |a.history.value| > 0
    && TaskMoves(Latest(a.history.value), task) && GoodTask(task) && (task.state.TaskCanceled? || task.id in a.jobs)
    && b == a.(history := Some(Replaced(a.history.value, task)))
  }

  /** A deletion intent is recorded; the opposite one is in the way. */
  ghost predicate Intended(a: Session, b: Session, storage: bool) {
    && a.record.Some? && a.record.value.deletion != Some(!storage)
    && b == a.(record := Some(a.record.value.(deletion := Some(storage))))
  }

  /** The intent of a finished compute cleanup is cleared. */
  ghost predicate Cleared(a: Session, b: Session) {
    && a.record.Some? && a.record.value.deletion == Some(false) && a.jobs == {} && !a.publishing
    && b == a.(record := Some(a.record.value.(deletion := None)))
  }

  /** A session without resources is forgotten with its tasks. */
  ghost predicate Forgotten(a: Session, b: Session) {
    && a.record.Some? && a.record.value.deletion.Some? && a.jobs == {} && !a.claimed && !a.publishing
    && b == a.(record := None, history := None)
  }

  /** The resources of the unfinished latest task are applied; the first task gets its Job only with the claim. */
  ghost predicate Started(a: Session, b: Session) {
    && a.record.Some? && a.history.Some? && |a.history.value| > 0 && !Latest(a.history.value).state.Terminal()
    && var persistent := a.record.value.definition.storage.Persistent?;
    && b == a.(jobs := b.jobs, claimed := b.claimed)
    && a.jobs <= b.jobs <= a.jobs + {Latest(a.history.value).id}
    && (a.claimed ==> b.claimed) && (b.claimed ==> a.claimed || persistent)
    && (b.jobs != a.jobs && persistent && Latest(a.history.value).id == a.history.value[0].id ==> b.claimed)
  }

  /** Resources go once that is durably intended and the latest task is durably finished; the claim only with the storage. */
  ghost predicate Removed(a: Session, b: Session, storage: bool) {
    && a.record.Some? && a.record.value.deletion == Some(storage)
    && a.history.Some? && |a.history.value| > 0 && Latest(a.history.value).state.Terminal()
    && b == a.(jobs := b.jobs, claimed := b.claimed, publishing := b.publishing)
    && b.jobs <= a.jobs && (b.publishing ==> a.publishing) && (if storage then b.claimed ==> a.claimed else b.claimed == a.claimed)
  }

  /** The publisher Job of a recorded session is created, or removed. */
  ghost predicate Publishes(a: Session, b: Session) {
    b == a.(publishing := b.publishing) && (b.publishing ==> a.record.Some?)
  }

  /** What one call may do to its session, nothing included. */
  ghost predicate Touches(name: string, a: Session, b: Session) {
    || b == a || Inserted(name, a, b) || Cleared(a, b) || Forgotten(a, b) || Started(a, b) || Publishes(a, b)
    || (exists task :: Added(a, b, task)) || (exists task :: Progressed(a, b, task))
    || (exists storage :: Intended(a, b, storage)) || (exists storage :: Removed(a, b, storage))
  }

  /** Nothing but the named session is different. */
  ghost predicate OnlyOne(name: string, a: Store, b: Store) {
    && OthersKept(name, a.sessions, a.tasks, b.sessions, b.tasks)
    && OtherResources(name, a.jobs, a.claims, b.jobs, b.claims)
    && b.publishers - {name} == a.publishers - {name}
  }

  /** One call of an operation on the named session. */
  ghost predicate Calls(name: string, a: Store, b: Store) {
    Touches(name, Of(a, name), Of(b, name)) && OnlyOne(name, a, b)
  }

  // ---- Calls keep good order ----

  lemma ProgressIsGood(name: string, a: Session, b: Session, task: Task)
    requires Good(name, a) && Progressed(a, b, task)
    ensures Good(name, b)
  {
    hide IsLabel, GoodTask, Carries, AsIntended;
    var h := a.history.value;
    if |h| == 1 { StillIntended(a.record.value, a.record.value.deletion, h[0], task); }
    assert GoodHistory(Replaced(h, task)) by { assert GoodTask(task); }
    forall t | t in b.jobs ensures HasTask(Replaced(h, task), t) {
      assert HasTask(h, t);
      var i :| 0 <= i < |h| && h[i].id == t;
      assert Replaced(h, task)[i].id == t;
    }
  }

  lemma AddingIsGood(name: string, a: Session, b: Session, task: Task)
    requires Good(name, a) && Added(a, b, task)
    ensures Good(name, b)
  {
    hide IsLabel, GoodTask, Carries, AsIntended;
    var h := a.history.value;
    assert GoodHistory(h + [task]);
    forall t | t in b.jobs ensures HasTask(h + [task], t) {
      var i :| 0 <= i < |h| && h[i].id == t;
      assert (h + [task])[i].id == t;
    }
  }

  lemma StartingIsGood(name: string, a: Session, b: Session)
    requires Good(name, a) && Started(a, b)
    ensures Good(name, b)
  {
    hide IsLabel, GoodTask, AsIntended;
    var h := a.history.value;
    forall t | t in b.jobs ensures HasTask(h, t) {
      if t !in a.jobs { assert h[|h| - 1].id == t; }
    }
  }

  /** Every call leaves its session in good order. */
  lemma TouchKeeps(name: string, a: Session, b: Session)
    requires Good(name, a) && Touches(name, a, b)
    ensures Good(name, b)
  {
    hide IsLabel, GoodTask, HasTask, AsIntended;
    if task :| Added(a, b, task) {
      AddingIsGood(name, a, b, task);
    } else if task :| Progressed(a, b, task) {
      ProgressIsGood(name, a, b, task);
    } else if Started(a, b) {
      StartingIsGood(name, a, b);
    } else {
      if a.record.Some? {
        forall intent ensures AsIntended(a.record.value.(deletion := intent), a.history.value[0]) {
          StillIntended(a.record.value, intent, a.history.value[0], a.history.value[0]);
        }
      }
      hide Added, Progressed, Started;
    }
  }

  lemma SameElsewhere(name: string, a: Store, b: Store, other: string)
    requires OnlyOne(name, a, b) && other != name
    ensures Of(b, other) == Of(a, other)
  {
    OtherKept(name, a.sessions, a.tasks, b.sessions, b.tasks, other);
    Elsewhere(b.jobs, a.jobs, name, other);
    assert other in b.claims <==> other in b.claims - {name};
    assert other in a.claims <==> other in a.claims - {name};
    assert other in b.publishers <==> other in b.publishers - {name};
    assert other in a.publishers <==> other in a.publishers - {name};
  }

  /** Every call keeps everything in good order. */
  lemma CallKeeps(name: string, a: Store, b: Store)
    requires InOrder(a) && Calls(name, a, b)
    ensures InOrder(b)
  {
    hide InOrder, Good, Of, Touches, OnlyOne;
    AllGood(a);
    forall n ensures Good(n, Of(b, n)) {
      if n == name { TouchKeeps(n, Of(a, n), Of(b, n)); } else { SameElsewhere(name, a, b, n); }
    }
    AllGood(b);
  }

  // ---- Operations are sequences of calls ----

  ghost predicate Trail(name: string, trail: seq<Store>) {
    |trail| > 0 && forall i | 0 <= i < |trail| - 1 :: Calls(name, trail[i], trail[i + 1])
  }

  /** An operation on the named session: calls, one after the other. */
  ghost predicate Works(name: string, a: Store, b: Store) {
    exists trail :: Trail(name, trail) && trail[0] == a && trail[|trail| - 1] == b
  }

  lemma NoCall(name: string, a: Store)
    ensures Works(name, a, a)
  {
    assert Trail(name, [a]) && [a][0] == a;
  }

  lemma OneCall(name: string, a: Store, b: Store)
    requires Calls(name, a, b)
    ensures Works(name, a, b)
  {
    hide Calls;
    assert Trail(name, [a, b]) && [a, b][0] == a && [a, b][1] == b;
  }

  lemma WorksOn(name: string, a: Store, b: Store, c: Store)
    requires Works(name, a, b) && Works(name, b, c)
    ensures Works(name, a, c)
  {
    hide Calls;
    var s :| Trail(name, s) && s[0] == a && s[|s| - 1] == b;
    var t :| Trail(name, t) && t[0] == b && t[|t| - 1] == c;
    var u := s + t[1..];
    forall i | 0 <= i < |u| - 1 ensures Calls(name, u[i], u[i + 1]) {
      if i >= |s| - 1 { assert u[i] == t[i - |s| + 1] && u[i + 1] == t[i - |s| + 2]; }
    }
    assert Trail(name, u) && u[0] == a && u[|u| - 1] == c;
  }

  /** In every state that an operation goes through, everything is in good order. */
  lemma {:induction false} TrailKeeps(name: string, trail: seq<Store>, i: nat)
    requires Trail(name, trail) && InOrder(trail[0]) && i < |trail|
    ensures InOrder(trail[i])
  {
    hide Calls, InOrder;
    if i > 0 {
      TrailKeeps(name, trail, i - 1);
      CallKeeps(name, trail[i - 1], trail[i]);
    }
  }

  // ---- What each call's contract says is such a call ----

  lemma Called(name: string, a: Store, b: Store)
    requires InOrder(a) && Calls(name, a, b)
    ensures InOrder(b) && Works(name, a, b)
  {
    hide InOrder, Calls, Works;
    CallKeeps(name, a, b);
    OneCall(name, a, b);
  }

  lemma InsertCall(a: Store, record: Record, task: Task, b: Store)
    requires InOrder(a) && IsLabel(record.name, SESSION_NAME_MAX) && GoodTask(task) && !task.state.Terminal() && AsIntended(record, task)
    requires b == a || (record.name !in a.sessions && b == a.(sessions := a.sessions[record.name := record], tasks := a.tasks[record.name := [task]]))
    ensures InOrder(b) && Works(record.name, a, b)
  {
    hide IsLabel, AsIntended, GoodTask, GoodHistory, Backed, Claimed;
    assert OnlyOne(record.name, a, b);
    assert b == a || Inserted(record.name, Of(a, record.name), Of(b, record.name));
    Called(record.name, a, b);
  }

  lemma AddCall(a: Store, name: string, task: Task, b: Store)
    requires InOrder(a) && GoodTask(task)
    requires b == a || (&& name in a.sessions && Latest(a.tasks[name]).state.Terminal() && !HasTask(a.tasks[name], task.id)
                        && b == a.(tasks := a.tasks[name := a.tasks[name] + [task]]))
    ensures InOrder(b) && Works(name, a, b)
  {
    hide IsLabel, AsIntended, GoodTask, HasTask, Backed, Claimed;
    assert OnlyOne(name, a, b);
    assert b == a || Added(Of(a, name), Of(b, name), task);
    Called(name, a, b);
  }

  lemma ProgressCall(a: Store, name: string, task: Task, b: Store)
    requires InOrder(a) && name in a.sessions && TaskMoves(Latest(a.tasks[name]), task) && GoodTask(task)
    requires task.state.TaskCanceled? || task.id in JobsOf(a.jobs, name)
    requires b == a || b == a.(tasks := a.tasks[name := Replaced(a.tasks[name], task)])
    ensures InOrder(b) && Works(name, a, b)
  {
    hide IsLabel, GoodTask, AsIntended, Backed, Claimed;
    assert OnlyOne(name, a, b);
    assert b == a || Progressed(Of(a, name), Of(b, name), task);
    Called(name, a, b);
  }

  lemma IntendCall(a: Store, name: string, storage: bool, b: Store)
    requires InOrder(a)
    requires b == a || (&& name in a.sessions && a.sessions[name].deletion != Some(!storage)
                        && b == a.(sessions := a.sessions[name := a.sessions[name].(deletion := Some(storage))]))
    ensures InOrder(b) && Works(name, a, b)
  {
    hide IsLabel, AsIntended, GoodHistory, Backed, Claimed;
    assert OnlyOne(name, a, b);
    assert b == a || Intended(Of(a, name), Of(b, name), storage);
    Called(name, a, b);
  }

  lemma FinishCall(a: Store, name: string, remove: bool, b: Store)
    requires InOrder(a) && name in a.sessions && JobsOf(a.jobs, name) == {} && name !in a.publishers
    requires if remove then a.sessions[name].deletion.Some? && name !in a.claims else a.sessions[name].deletion == Some(false)
    requires b == a || b == if remove then a.(sessions := a.sessions - {name}, tasks := a.tasks - {name})
                            else a.(sessions := a.sessions[name := a.sessions[name].(deletion := None)])
    ensures InOrder(b) && Works(name, a, b)
  {
    hide IsLabel, AsIntended, GoodHistory, Backed, Claimed;
    assert OnlyOne(name, a, b);
    assert b == a || (if remove then Forgotten(Of(a, name), Of(b, name)) else Cleared(Of(a, name), Of(b, name)));
    Called(name, a, b);
  }

  lemma StartCall(a: Store, name: string, b: Store)
    requires InOrder(a) && name in a.sessions && !Latest(a.tasks[name]).state.Terminal()
    requires b == a.(jobs := b.jobs, claims := b.claims)
    requires b.jobs - {name} == a.jobs - {name} && JobsOf(a.jobs, name) <= JobsOf(b.jobs, name) <= JobsOf(a.jobs, name) + {Latest(a.tasks[name]).id}
    requires a.claims <= b.claims <= a.claims + if a.sessions[name].definition.storage.Persistent? then {name} else {}
    requires a.sessions[name].definition.storage.Persistent? && Latest(a.tasks[name]).id == a.tasks[name][0].id ==>
               name in b.claims || JobsOf(b.jobs, name) == JobsOf(a.jobs, name)
    ensures InOrder(b) && Works(name, a, b)
  {
    hide IsLabel, AsIntended, GoodTask, Backed, Claimed;
    assert OnlyOne(name, a, b);
    assert Started(Of(a, name), Of(b, name));
    Called(name, a, b);
  }

  lemma RemoveCall(a: Store, name: string, storage: bool, b: Store)
    requires InOrder(a) && name in a.sessions && a.sessions[name].deletion == Some(storage) && Latest(a.tasks[name]).state.Terminal()
    requires b == a.(jobs := b.jobs, claims := b.claims, publishers := b.publishers)
    requires b.jobs - {name} == a.jobs - {name} && JobsOf(b.jobs, name) <= JobsOf(a.jobs, name)
    requires a.claims - (if storage then {name} else {}) <= b.claims <= a.claims
    requires b.publishers <= a.publishers && a.publishers - {name} <= b.publishers
    ensures InOrder(b) && Works(name, a, b)
  {
    hide IsLabel, AsIntended, GoodTask, Backed, Claimed;
    assert OnlyOne(name, a, b);
    assert Removed(Of(a, name), Of(b, name), storage);
    Called(name, a, b);
  }

  lemma PublishCall(a: Store, name: string, b: Store)
    requires InOrder(a) && name in a.sessions && b == a.(publishers := b.publishers)
    requires b.publishers - {name} == a.publishers - {name}
    ensures InOrder(b) && Works(name, a, b)
  {
    hide IsLabel, AsIntended, GoodHistory, Backed, Claimed;
    assert OnlyOne(name, a, b);
    assert Publishes(Of(a, name), Of(b, name));
    Called(name, a, b);
  }
}

/** A durable row that any number of controllers read and replace under a version check. */
module OptimisticRows {
  datatype Row<V> = Row(value: V, version: nat)

  /** The stored row, and for each controller at work the row it last read or wrote. */
  datatype Table<V> = Table(row: Row<V>, held: map<nat, Row<V>>)

  /** The version-checked update: it replaces the row only when the offered version is current. */
  function Update<V>(row: Row<V>, version: nat, value: V): Row<V> {
    if version == row.version then Row(value, row.version + 1) else row
  }

  ghost predicate Load<V>(t: Table<V>, u: Table<V>, c: nat) {
    u == t.(held := t.held[c := t.row])
  }

  /** Controller c saves a change of what it holds; a stale controller gives up. */
  ghost predicate Save<V(!new)>(change: (V, V) -> bool, t: Table<V>, u: Table<V>, c: nat) {
    && c in t.held
    && exists v :: change(t.held[c].value, v)
         && u.row == Update(t.row, t.held[c].version, v)
         && u.held == if t.held[c].version == t.row.version then t.held[c := u.row] else t.held - {c}
  }

  /** Controller c crashes or returns. */
  ghost predicate Stop<V>(t: Table<V>, u: Table<V>, c: nat) {
    u == t.(held := t.held - {c})
  }

  ghost predicate Next<V(!new)>(change: (V, V) -> bool, t: Table<V>, u: Table<V>) {
    exists c :: Load(t, u, c) || Save(change, t, u, c) || Stop(t, u, c)
  }

  /** Any interleaving of any number of controllers, each of which may crash at any point. */
  ghost predicate Execution<V(!new)>(change: (V, V) -> bool, trace: seq<Table<V>>) {
    && |trace| > 0
    && trace[0].held == map[]
    && forall i | 0 <= i < |trace| - 1 :: Next(change, trace[i], trace[i + 1])
  }

  /** A controller never holds a newer row than the stored one, and holds the stored value if it is current. */
  ghost predicate Current<V>(t: Table<V>) {
    forall c | c in t.held ::
      t.held[c].version <= t.row.version && (t.held[c].version == t.row.version ==> t.held[c] == t.row)
  }

  ghost predicate Succeeds<V(!new)>(change: (V, V) -> bool, a: Row<V>, b: Row<V>) {
    b == a || (b.version == a.version + 1 && change(a.value, b.value))
  }

  lemma NextFollows<V(!new)>(change: (V, V) -> bool, t: Table<V>, u: Table<V>)
    requires Current(t) && Next(change, t, u)
    ensures Current(u) && Succeeds(change, t.row, u.row)
  {}

  /** The version check turns every interleaving into a sequence of changes, each made to the row it replaces. */
  lemma {:induction false} VersionsLinearize<V(!new)>(change: (V, V) -> bool, trace: seq<Table<V>>, i: nat)
    requires Execution(change, trace) && i < |trace|
    ensures Current(trace[i])
    ensures i + 1 < |trace| ==> Succeeds(change, trace[i].row, trace[i + 1].row)
  {
    if i > 0 {
      VersionsLinearize(change, trace, i - 1);
      NextFollows(change, trace[i - 1], trace[i]);
    }
    if i + 1 < |trace| {
      NextFollows(change, trace[i], trace[i + 1]);
    }
  }

  /** Any sequence of changes is what some execution makes of a row: one controller loading, saving, and stopping each time. */
  lemma {:induction false} ChangesAreExecution<V(!new)>(change: (V, V) -> bool, values: seq<V>) returns (trace: seq<Table<V>>)
    requires |values| > 0 && forall i | 0 <= i < |values| - 1 :: change(values[i], values[i + 1])
    ensures Execution(change, trace)
    ensures trace[0].row.value == values[0]
    ensures trace[|trace| - 1] == Table(Row(values[|values| - 1], |values|), map[])
  {
    if |values| == 1 {
      trace := [Table(Row(values[0], 1), map[])];
    } else {
      var n := |values| - 1;
      var before := ChangesAreExecution(change, values[..n]);
      var row, next := Row(values[n - 1], n), Row(values[n], n + 1);
      var t0 := before[|before| - 1];
      var t1, t2, t3 := Table(row, map[0 := row]), Table(next, map[0 := next]), Table(next, map[]);
      assert Load(t0, t1, 0);
      assert change(t1.held[0].value, values[n]) && t2.row == Update(t1.row, n, values[n]);
      assert Save(change, t1, t2, 0);
      assert Stop(t2, t3, 0);
      trace := before + [t1, t2, t3];
      forall i | 0 <= i < |trace| - 1 ensures Next(change, trace[i], trace[i + 1]) {
        if i < |before| - 1 { assert Next(change, before[i], before[i + 1]); }
      }
    }
  }

  lemma WiderChange<V(!new)>(narrow: (V, V) -> bool, wide: (V, V) -> bool, trace: seq<Table<V>>)
    requires Execution(narrow, trace)
    requires forall a, b :: narrow(a, b) ==> wide(a, b)
    ensures Execution(wide, trace)
  {
    forall i | 0 <= i < |trace| - 1 ensures Next(wide, trace[i], trace[i + 1]) {
      var c :| Load(trace[i], trace[i + 1], c) || Save(narrow, trace[i], trace[i + 1], c) || Stop(trace[i], trace[i + 1], c);
      assert Save(narrow, trace[i], trace[i + 1], c) ==> Save(wide, trace[i], trace[i + 1], c);
    }
  }
}

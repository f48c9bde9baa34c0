/**
 The migration runner. A run may stop at any point: the methods stop where they like
 (`if *`), a statement that was running leaves what it had done, a transaction nothing.
 Indexes and gates may be changed by others between any two statements; the history
 table only by holders of the advisory lock. */
module Migrations {
  import opened Base

  datatype IndexDefinition = IndexDefinition(name: string, table: string, keys: string, condition: string)

  /** Version is position plus one; `up` and `down` are the checksums of its sources. */
  datatype Migration = Migration(name: string, up: string, down: string, indexes: Option<seq<IndexDefinition>>)

  datatype RowState = Applying | Applied | Strange
  datatype Row = Row(version: int, name: string, up: string, down: string, state: RowState)

  datatype Index = Index(table: string, accessMethod: string, valid: bool, ready: bool, unique: bool, keys: string, condition: Option<string>)

  datatype Outcome = Finished | Threw(reason: string) | Crashed

  datatype Inspection = Inspection(current: nat, pending: Option<nat>)

  /* ---- the history ------------------------------------------------------------ */

  /** Row `i` is migration `i`, applied, or in its concurrent phase and last. */
  predicate RowFits(migrations: seq<Migration>, rows: seq<Row>, i: nat)
    requires i < |rows|
  {
    && i < |migrations|
    && rows[i].version == i + 1 && rows[i].name == migrations[i].name
    && rows[i].up == migrations[i].up && rows[i].down == migrations[i].down
    && (rows[i].state == Applied || (rows[i].state == Applying && migrations[i].indexes.Some? && i == |rows| - 1))
  }

  /** A prefix of the migrations with at most its last entry in a concurrent phase. */
  predicate Continuous(migrations: seq<Migration>, rows: seq<Row>) {
    forall i :: 0 <= i < |rows| ==> RowFits(migrations, rows, i)
  }

  predicate HasPending(rows: seq<Row>) {
    rows != [] && rows[|rows| - 1].state == Applying
  }

  function Summary(rows: seq<Row>): Inspection {
    if HasPending(rows) then Inspection(|rows| - 1, Some(|rows|)) else Inspection(|rows|, None)
  }

  lemma ContinuousIsShort(migrations: seq<Migration>, rows: seq<Row>)
    requires Continuous(migrations, rows)
    ensures |rows| <= |migrations|
  {
    if rows != [] { assert RowFits(migrations, rows, |rows| - 1); }
  }

  /** inspectNotificationMigrationHistory accepts exactly the continuous histories. */
  method Inspect(migrations: seq<Migration>, rows: seq<Row>, allowPending: bool) returns (r: Result<Inspection>)
    ensures r.Ok? <==> Continuous(migrations, rows) && (allowPending || !HasPending(rows))
    ensures r.Ok? ==> r.value == Summary(rows)
  {
    if |rows| > |migrations| {
      if Continuous(migrations, rows) { ContinuousIsShort(migrations, rows); }
      return Err("notification migration history contains unknown rows");
    }
    var current := 0;
    var pending: Option<nat> := None;
    for i := 0 to |rows|
      invariant forall k :: 0 <= k < i ==> RowFits(migrations, rows, k)
      invariant pending.Some? <==> i > 0 && rows[i - 1].state == Applying
      invariant pending.Some? ==> pending.value == i == |rows|
      invariant current == if pending.Some? then i - 1 else i
    {
      var row, expected := rows[i], migrations[i];
      if row.version != i + 1 || row.name != expected.name {
        assert !RowFits(migrations, rows, i);
        return Err("notification migration history is not continuous");
      }
      if row.up != expected.up || row.down != expected.down {
        assert !RowFits(migrations, rows, i);
        return Err("notification migration source checksum mismatch");
      }
      if row.state == Applying {
        if expected.indexes.None? || pending.Some? || i != |rows| - 1 {
          assert !RowFits(migrations, rows, i);
          return Err("notification migration history is not continuous");
        }
        pending := Some(i + 1);
      } else if row.state == Applied {
        if pending.Some? {
          assert false;
        }
        current := i + 1;
      } else {
        assert !RowFits(migrations, rows, i);
        return Err("notification migration history is not continuous");
      }
    }
    if pending.Some? && !allowPending {
      return Err("notification migration has an incomplete concurrent index phase");
    }
    return Ok(Inspection(current, pending));
  }

  /* ---- indexes ------------------------------------------------------------------- */

  predicate AsDefined(index: Index, d: IndexDefinition) {
    && index.table == d.table && index.accessMethod == "btree" && !index.unique
    && index.keys == d.keys && index.condition == Some(d.condition)
  }

  predicate Usable(index: Option<Index>, d: IndexDefinition) {
    index.Some? && AsDefined(index.value, d) && index.value.valid && index.value.ready
  }

  /** `answers` is what one SELECT per definition returned. */
  predicate AllUsable(answers: seq<Option<Index>>, definitions: seq<IndexDefinition>) {
    |answers| == |definitions| && forall i :: 0 <= i < |definitions| ==> Usable(answers[i], definitions[i])
  }

  /** assertConcurrentIndexes. */
  method CheckIndexes(answers: seq<Option<Index>>, definitions: seq<IndexDefinition>) returns (ok: bool)
    requires |answers| == |definitions|
    ensures ok <==> forall i :: 0 <= i < |definitions| ==>
      && answers[i].Some?
      && var index, d := answers[i].value, definitions[i];
      && index.table == d.table && index.accessMethod == "btree" && !index.unique && index.keys == d.keys
      && index.condition == Some(d.condition) && index.valid && index.ready
    ensures ok <==> AllUsable(answers, definitions)
  {
    for i := 0 to |definitions|
      invariant forall k :: 0 <= k < i ==> Usable(answers[k], definitions[k])
    {
      if answers[i].None? || !AsDefined(answers[i].value, definitions[i]) || !answers[i].value.valid || !answers[i].value.ready {
        assert !Usable(answers[i], definitions[i]);
        return false;
      }
    }
    return true;
  }

  function Lookup(indexes: map<string, Index>, name: string): Option<Index> {
    if name in indexes then Some(indexes[name]) else None
  }

  /** The index is there as defined, valid and ready. */
  predicate Stands(indexes: map<string, Index>, d: IndexDefinition) {
    Usable(Lookup(indexes, d.name), d)
  }

  predicate FitsDefinition(indexes: map<string, Index>, d: IndexDefinition) {
    d.name in indexes ==> AsDefined(indexes[d.name], d)
  }

  /** What CREATE INDEX CONCURRENTLY leaves when it succeeds. */
  function Created(d: IndexDefinition): Index {
    Index(d.table, "btree", true, true, false, d.keys, Some(d.condition))
  }

  /** No two definitions share a name. */
  ghost predicate OneDefinitionPerName(migrations: seq<Migration>) {
    forall i, j, k, l ::
      && 0 <= i < |migrations| && migrations[i].indexes.Some? && 0 <= k < |migrations[i].indexes.value|
      && 0 <= j < |migrations| && migrations[j].indexes.Some? && 0 <= l < |migrations[j].indexes.value|
      && migrations[i].indexes.value[k].name == migrations[j].indexes.value[l].name
      ==> migrations[i].indexes.value[k] == migrations[j].indexes.value[l]
  }

  /** Every applied concurrent migration found each of its indexes valid and ready in the transaction that marked it applied. */
  predicate Certified(migrations: seq<Migration>, rows: seq<Row>, marked: map<nat, seq<Option<Index>>>) {
    forall i :: 0 <= i < |rows| && i < |migrations| && rows[i].state == Applied && migrations[i].indexes.Some? ==>
      i in marked && AllUsable(marked[i], migrations[i].indexes.value)
  }

  /** The row recordMigration inserts. */
  function NewRow(migrations: seq<Migration>, i: nat, state: RowState): Row
    requires i < |migrations|
  {
    Row(i + 1, migrations[i].name, migrations[i].up, migrations[i].down, state)
  }

  lemma AppendContinuous(migrations: seq<Migration>, rows: seq<Row>, state: RowState)
    requires Continuous(migrations, rows) && !HasPending(rows) && |rows| < |migrations|
    requires state == if migrations[|rows|].indexes.Some? then Applying else Applied
    ensures Continuous(migrations, rows + [NewRow(migrations, |rows|, state)])
  {
    var after := rows + [NewRow(migrations, |rows|, state)];
    forall i | 0 <= i < |after|
      ensures RowFits(migrations, after, i)
    {
      if i < |rows| {
        assert RowFits(migrations, rows, i);
        assert i == |rows| - 1 ==> rows[i].state != Applying;
      }
    }
  }

  lemma MarkContinuous(migrations: seq<Migration>, rows: seq<Row>)
    requires Continuous(migrations, rows) && HasPending(rows)
    ensures Continuous(migrations, rows[|rows| - 1 := rows[|rows| - 1].(state := Applied)])
  {
    var after := rows[|rows| - 1 := rows[|rows| - 1].(state := Applied)];
    forall i | 0 <= i < |after|
      ensures RowFits(migrations, after, i)
    {
      assert RowFits(migrations, rows, i);
    }
  }

  lemma DropLast(migrations: seq<Migration>, rows: seq<Row>)
    requires Continuous(migrations, rows) && rows != []
    ensures Continuous(migrations, rows[..|rows| - 1]) && !HasPending(rows[..|rows| - 1])
  {
    var init := rows[..|rows| - 1];
    forall i | 0 <= i < |init|
      ensures RowFits(migrations, init, i)
    {
      assert RowFits(migrations, rows, i);
    }
    if init != [] { assert RowFits(migrations, rows, |init| - 1); }
  }

  /** Something may go wrong here, unless the run is calm. */
  method MayStop(calm: bool) returns (stops: bool)
    ensures calm ==> !stops
  {
    stops := *;
    stops := stops && !calm;
  }

  class Database {
    const migrations: seq<Migration>
    var history: seq<Row>
    var indexes: map<string, Index>
    var gatesClosed: bool
    ghost var marked: map<nat, seq<Option<Index>>>

    constructor (migrations: seq<Migration>)
      ensures this.migrations == migrations && history == [] && Certificates()
    {
      this.migrations := migrations;
      history, indexes, gatesClosed, marked := [], map[], true, map[];
    }

    ghost predicate Certificates()
      reads this
    {
      Certified(migrations, history, marked)
    }

    /** Others work on the database between two statements. */
    method Disturb()
      modifies this`indexes, this`gatesClosed
    {
      indexes := *;
      gatesClosed := *;
    }

    /** An index that stands under a defined name is the one defined. */
    ghost predicate IndexesFit()
      reads this
    {
      forall i, k :: 0 <= i < |migrations| && migrations[i].indexes.Some? && 0 <= k < |migrations[i].indexes.value| ==>
        FitsDefinition(indexes, migrations[i].indexes.value[k])
    }

    /** applyConcurrentIndexes: creates and drops indexes, and may leave an invalid one behind; `calm` says that nothing fails and nobody interferes. */
    method ApplyConcurrentIndexes(i: nat, calm: bool) returns (r: Outcome)
      requires i < |migrations| && migrations[i].indexes.Some?
      modifies this`indexes, this`gatesClosed
      ensures calm && old(IndexesFit()) && OneDefinitionPerName(migrations) ==>
        && r.Finished? && IndexesFit() && gatesClosed == old(gatesClosed)
        && forall k :: 0 <= k < |migrations[i].indexes.value| ==> Stands(indexes, migrations[i].indexes.value[k])
    {
      var definitions := migrations[i].indexes.value;
      for j := 0 to |definitions|
        invariant calm && old(IndexesFit()) && OneDefinitionPerName(migrations) ==>
          && IndexesFit() && gatesClosed == old(gatesClosed)
          && forall k :: 0 <= k < j ==> Stands(indexes, definitions[k])
      {
        var d := definitions[j];
        if !calm {
          Disturb();
        }
        if d.name in indexes {
          if !AsDefined(indexes[d.name], d) {
            return Threw("unexpected definition");
          }
          if indexes[d.name].valid && indexes[d.name].ready {
            continue;
          }
          indexes := indexes - {d.name};
        }
        var stops := MayStop(calm);
        if stops {
          return Crashed;
        }
        var created: Index := *;
        if calm {
          created := Created(d);
        }
        indexes := indexes[d.name := created];
        stops := MayStop(calm);
        if stops {
          return Crashed;
        }
        if !calm {
          Disturb();
        }
        if d.name !in indexes || !AsDefined(indexes[d.name], d) || !indexes[d.name].valid || !indexes[d.name].ready {
          return Threw("the concurrent index phase left an index invalid");
        }
      }
      return Finished;
    }

    /** The transaction that runs the source of a migration and records it. */
    method Record(i: nat, calm: bool) returns (r: Outcome)
      requires Continuous(migrations, history) && i < |migrations|
      modifies this`history
      ensures Continuous(migrations, history) && (old(Certificates()) ==> Certificates())
      ensures r.Finished? ==> |old(history)| >= i && |history| > i
      ensures r.Finished? && |old(history)| > i ==> history == old(history)
      ensures r.Finished? && |old(history)| == i ==>
        history == old(history) + [NewRow(migrations, i, if migrations[i].indexes.Some? then Applying else Applied)]
      ensures !r.Finished? ==> history == old(history)
      ensures calm ==> (r.Finished? <==> Summary(old(history)).current > i || (|old(history)| == i && !HasPending(old(history))))
    {
      var stops := MayStop(calm);
      if stops {
        return Crashed;
      }
      var current := Inspect(migrations, history, true);
      if current.Err? {
        assert false;
      }
      if current.value.current >= i + 1 {
        return Finished;
      }
      if current.value.pending.Some? || current.value.current != i {
        return Threw("notification migration history is not continuous");
      }
      stops := MayStop(calm);
      if stops {
        return Threw("the migration source failed");
      }
      var state := if migrations[i].indexes.Some? then Applying else Applied;
      AppendContinuous(migrations, history, state);
      history := history + [NewRow(migrations, i, state)];
      return Finished;
    }

    /** One SELECT per definition, each with its own view of the indexes. */
    method ReadIndexes(definitions: seq<IndexDefinition>, calm: bool) returns (answers: seq<Option<Index>>)
      modifies this`indexes, this`gatesClosed
      ensures |answers| == |definitions|
      ensures calm ==> indexes == old(indexes) && gatesClosed == old(gatesClosed)
      ensures calm ==> forall i :: 0 <= i < |definitions| ==> answers[i] == Lookup(indexes, definitions[i].name)
    {
      answers := [];
      for i := 0 to |definitions|
        invariant |answers| == i
        invariant calm ==> indexes == old(indexes) && gatesClosed == old(gatesClosed)
        invariant calm ==> forall k :: 0 <= k < i ==> answers[k] == Lookup(indexes, definitions[k].name)
      {
        if !calm {
          Disturb();
        }
        answers := answers + [Lookup(indexes, definitions[i].name)];
      }
    }

    /** The transaction that marks a concurrent migration applied; each of its statements has its own view of gates and indexes. */
    method MarkApplied(i: nat, calm: bool) returns (r: Outcome)
      requires Continuous(migrations, history) && i < |migrations| && migrations[i].indexes.Some?
      modifies this
      ensures Continuous(migrations, history) && (old(Certificates()) ==> Certificates())
      ensures r.Finished? ==> |history| > i && |history| == |old(history)| && history[i].state == Applied
      ensures !r.Finished? ==> history == old(history)
      ensures calm ==> indexes == old(indexes) && gatesClosed == old(gatesClosed)
      ensures
        && calm && gatesClosed && Summary(old(history)).pending == Some(i + 1)
        && (forall k :: 0 <= k < |migrations[i].indexes.value| ==> Stands(indexes, migrations[i].indexes.value[k]))
        ==> r.Finished?
    {
      var stops := MayStop(calm);
      if stops {
        return Crashed;
      }
      var current := Inspect(migrations, history, true);
      if current.Err? {
        assert false;
      }
      if current.value.current >= i + 1 {
        assert RowFits(migrations, history, i);
        return Finished;
      }
      if current.value.pending != Some(i + 1) {
        return Threw("notification migration history is not continuous");
      }
      if !calm {
        Disturb();
      }
      if !gatesClosed {
        return Threw("notification migration gates opened before the concurrent index phase completed");
      }
      var answers := ReadIndexes(migrations[i].indexes.value, calm);
      var ok := CheckIndexes(answers, migrations[i].indexes.value);
      if !ok {
        return Threw("notification migration concurrent index phase left an index invalid");
      }
      MarkContinuous(migrations, history);
      history := history[i := history[i].(state := Applied)];
      marked := marked[i := answers];
      return Finished;
    }

    /** One round of the loop over the migrations, for a version that is not applied yet. */
    method Advance(i: nat, calm: bool) returns (r: Outcome)
      requires Continuous(migrations, history) && i < |migrations| && Summary(history).current == i
      modifies this
      ensures Continuous(migrations, history) && (old(Certificates()) ==> Certificates())
      ensures |old(history)| <= |history| <= i + 1
      ensures r.Finished? ==> |history| == i + 1 && !HasPending(history)
      ensures calm && old(Undisturbed()) ==> r.Finished? && Undisturbed()
    {
      assert HasPending(history) ==> RowFits(migrations, history, |history| - 1);
      if migrations[i].indexes.None? {
        r := Record(i, calm);
        return;
      }
      if !HasPending(history) {
        gatesClosed := true;
        var stops := MayStop(calm);
        if stops {
          return Crashed;
        }
        r := Record(i, calm);
        if !r.Finished? {
          return;
        }
      }
      r := ApplyConcurrentIndexes(i, calm);
      if !r.Finished? {
        return;
      }
      r := MarkApplied(i, calm);
    }

    /** What a run needs to get through: gates closed if a concurrent phase is under way, and no foreign index under a defined name. */
    ghost predicate Undisturbed()
      reads this
    {
      (HasPending(history) ==> gatesClosed) && IndexesFit() && OneDefinitionPerName(migrations)
    }

    /**
     migrateNotifications, under the advisory lock. When nothing fails and nobody interferes it returns exactly
     for a target from the recorded version on, on a history it wrote itself. */
    method Migrate(target: int, calm: bool) returns (r: Outcome)
      modifies this
      ensures old(Continuous(migrations, history)) ==> Continuous(migrations, history)
      ensures old(Certificates()) ==> Certificates()
      ensures !old(Continuous(migrations, history)) ==> !r.Finished? && history == old(history)
      ensures old(Continuous(migrations, history)) ==> |old(history)| <= |history|
      ensures r.Finished? ==> 0 <= target == |history| <= |migrations|
      ensures r.Finished? ==> forall i :: 0 <= i < |history| ==> history[i].state == Applied
      ensures calm && old(Undisturbed()) ==>
        (r.Finished? <==> old(Continuous(migrations, history)) && |old(history)| <= target <= |migrations|)
    {
      if !(0 <= target <= |migrations|) {
        return Threw("notification migration target is invalid");
      }
      var inspected := Inspect(migrations, history, true);
      if inspected.Err? {
        return Threw(inspected.reason);
      }
      if target < (if inspected.value.pending.Some? then inspected.value.pending.value else inspected.value.current) {
        return Threw("migration target is behind current version");
      }
      r := AdvanceTo(target, calm);
    }

    method AdvanceTo(target: nat, calm: bool) returns (r: Outcome)
      requires |history| <= target <= |migrations| && Continuous(migrations, history)
      modifies this
      ensures Continuous(migrations, history) && (old(Certificates()) ==> Certificates())
      ensures |old(history)| <= |history|
      ensures r.Finished? ==> |history| == target && forall i :: 0 <= i < |history| ==> history[i].state == Applied
      ensures calm && old(Undisturbed()) ==> r.Finished?
    {
      ghost var before := |history|;
      for i := 0 to target
        invariant Continuous(migrations, history) && (old(Certificates()) ==> Certificates()) && before <= |history| <= target
        invariant Summary(history).current >= i
        invariant calm && old(Undisturbed()) ==> Undisturbed()
      {
        if i < Summary(history).current {
          continue;
        }
        r := Advance(i, calm);
        if !r.Finished? {
          return;
        }
      }
      var final := Inspect(migrations, history, false);
      if final.Err? {
        assert false;
      }
      forall i | 0 <= i < |history|
        ensures history[i].state == Applied
      {
        assert RowFits(migrations, history, i);
      }
      return Finished;
    }

    /** One transaction of a rollback, under the advisory lock. */
    method RollbackOne(version: nat, calm: bool) returns (r: Outcome)
      requires 0 < version <= |migrations|
      modifies this`history
      ensures old(Continuous(migrations, history)) ==> Continuous(migrations, history)
      ensures old(Certificates()) ==> Certificates()
      ensures history == old(history) || (|old(history)| == version && history == old(history)[..version - 1])
      ensures r.Finished? ==> |history| < version && !HasPending(history)
      ensures r.Finished? && |old(history)| >= version ==> history == old(history)[..version - 1]
      ensures calm ==>
        (r.Finished? <==> old(Continuous(migrations, history)) && !HasPending(old(history)) && |old(history)| <= version)
    {
      var stops := MayStop(calm);
      if stops {
        return Crashed;
      }
      var locked := Inspect(migrations, history, false);
      if locked.Err? {
        return Threw(locked.reason);
      }
      if locked.value.current < version {
        return Finished;
      }
      if locked.value.current != version {
        return Threw("notification migration history is not continuous");
      }
      stops := MayStop(calm);
      if stops {
        return Threw("the migration source failed");
      }
      DropLast(migrations, history);
      history := history[..|history| - 1];
      return Finished;
    }

    /** While the lock is free: any runs, stopped anywhere, and any transactions of other rollbacks. */
    method Others()
      modifies this
      ensures old(Continuous(migrations, history)) ==> Continuous(migrations, history)
      ensures old(Certificates()) ==> Certificates()
    {
      var n: int := *;
      while n > 0
        invariant old(Continuous(migrations, history)) ==> Continuous(migrations, history)
        invariant old(Certificates()) ==> Certificates()
      {
        var target: int := *;
        var back: bool := *;
        if !back {
          var r := Migrate(target, false);
        } else if 0 < target <= |migrations| {
          var r := RollbackOne(target, false);
        }
        n := n - 1;
      }
    }

    /**
     rollbackNotificationMigrations. It holds the lock only within each transaction; `alone` says that nothing came
     between them, `calm` that nothing failed. */
    method Rollback(target: int, alone: bool, calm: bool) returns (r: Outcome)
      modifies this
      ensures old(Continuous(migrations, history)) ==> Continuous(migrations, history)
      ensures old(Certificates()) ==> Certificates()
      ensures r.Finished? && |old(history)| > target ==> |history| <= target
      ensures old(HasPending(history)) ==> !r.Finished? && history == old(history)
      ensures alone ==> history <= old(history)
      ensures alone && r.Finished? ==> history == if |old(history)| <= target then old(history) else old(history)[..target]
      ensures alone && calm ==>
        (r.Finished? <==> 0 <= target <= |migrations| && old(Continuous(migrations, history)) && !HasPending(old(history)))
    {
      if !(0 <= target <= |migrations|) {
        return Threw("notification migration target is invalid");
      }
      var inspected := Inspect(migrations, history, false);
      if inspected.Err? {
        return Threw(inspected.reason);
      }
      ContinuousIsShort(migrations, history);
      var current := inspected.value.current;
      while current > target
        invariant current <= |old(history)| <= |migrations| && (current >= target || current == |old(history)|)
        invariant Continuous(migrations, history) && (old(Certificates()) ==> Certificates())
        invariant alone ==> history == old(history)[..current] && !HasPending(history)
        invariant current == target < |old(history)| ==> |history| <= target
      {
        if !alone {
          Others();
        }
        r := RollbackOne(current, calm);
        if !r.Finished? {
          return;
        }
        current := current - 1;
      }
      return Finished;
    }
  }

  /** Any sequence of runs and rollbacks from an empty database, each stopped anywhere, with others between the transactions of a rollback. */
  method AfterAnyRuns(migrations: seq<Migration>, targets: seq<int>) returns (db: Database)
    ensures db.migrations == migrations
    ensures Continuous(migrations, db.history) && db.Certificates()
  {
    db := new Database(migrations);
    for i := 0 to |targets|
      invariant db.migrations == migrations && Continuous(migrations, db.history) && db.Certificates()
    {
      var back: bool := *;
      if back {
        var r := db.Rollback(targets[i], false, false);
      } else {
        var r := db.Migrate(targets[i], false);
      }
    }
  }
}

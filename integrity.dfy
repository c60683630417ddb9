/** The start-up schema check: every ORM table is compared with the table
  * the database holds and created, kept or rebuilt accordingly. */
module Integrity {
  import opened Wrappers
  import opened Text
  import opened Dicts

  /** Tables the check must never touch. */
  const PROTECTED: seq<string> := ["ups_static_data", "ups_dynamic_data"]

  /** A table as an ORM model declares it: its name and its columns, each
    * with the text of its SQL type. */
  datatype ModelTable = ModelTable(name: string, columns: Dict<string>)

  /** How a DDL statement (create, or drop then create) ended. */
  datatype Ddl = Done | OperationalFailure(message: string) | ProgrammingFailure(message: string) | OtherFailure(message: string)

  /** What the database does for one model table: whether reading its
    * columns raises, and how the DDL it receives ends. */
  datatype TableOps = TableOps(inspectError: Option<string>, ddl: Ddl)

  /** The status reported for one table. */
  datatype Status = Protected | Created | Unchanged | Recreated | OrmManaged | Failed(message: string)

  /** The DDL the check issues. */
  datatype Action = Create(table: string) | DropAndCreate(table: string)

  /** The text a status is reported as. */
  function StatusText(s: Status): (r: string)
    ensures s.Failed? ==> StartsWith(r, "ERROR: ")
  {
    match s
    case Protected => "PROTECTED"
    case Created => "CREATED"
    case Unchanged => "OK"
    case Recreated => "RECREATED"
    case OrmManaged => "ORM_MANAGED"
    case Failed(m) => "ERROR: " + m
  }

  const CROSS: string := "\U{274C} "

  /** A model type agrees with the database type when, ignoring case, it
    * starts with it. */
  predicate TypeAgrees(modelType: string, dbType: string)
  {
    StartsWith(Lower(modelType), Lower(dbType))
  }

  /** Model column `i` is absent from the database or has a type that does
    * not agree. */
  predicate ColumnDiffers(model: Dict<string>, db: Dict<string>, i: int)
    requires 0 <= i < |model|
  {
    match Get(db, model[i].0)
    case None => true
    case Some(t) => !TypeAgrees(model[i].1, t)
  }

  /** A schema mismatch: some model column is missing or has another type;
    * columns only the database has do not count. */
  predicate Mismatched(model: Dict<string>, db: Dict<string>)
  {
    exists i :: 0 <= i < |model| && ColumnDiffers(model, db, i)
  }

  /** The column comparison, one model column at a time. */
  method CheckColumns(model: Dict<string>, db: Dict<string>) returns (mismatch: bool)
    ensures mismatch <==> Mismatched(model, db)
  {
    mismatch := false;
    var i := 0;
    while i < |model|
      invariant 0 <= i <= |model|
      invariant mismatch <==> exists j :: 0 <= j < i && ColumnDiffers(model, db, j)
    {
      var t := Get(db, model[i].0);
      assert ColumnDiffers(model, db, i) <==> t.None? || !TypeAgrees(model[i].1, t.value);
      if t.None? || !TypeAgrees(model[i].1, t.value) {
        mismatch := true;
      }
      i := i + 1;
    }
  }

  /** A column that only the database has never causes a mismatch. */
  lemma ExtraColumnHarmless(model: Dict<string>, db: Dict<string>, name: string, dbType: string)
    requires name !in Keys(model) && name !in Keys(db)
    ensures Mismatched(model, db + [(name, dbType)]) <==> Mismatched(model, db)
  {
    var db' := db + [(name, dbType)];
    forall i | 0 <= i < |model|
      ensures ColumnDiffers(model, db', i) <==> ColumnDiffers(model, db, i)
    {
      assert model[i].0 in Keys(model);
      GetAppend(db, name, dbType, model[i].0);
    }
  }

  /** A table whose columns all exist with agreeing types matches. */
  lemma MatchingColumnsAgree(model: Dict<string>, db: Dict<string>)
    requires forall i :: 0 <= i < |model| ==> Get(db, model[i].0).Some? && TypeAgrees(model[i].1, Get(db, model[i].0).value)
    ensures !Mismatched(model, db)
  {
  }

  /** The status of a create that failed, or `Created`. */
  function CreateStatus(table: string, ddl: Ddl): (r: Status)
    ensures r == Created <==> ddl.Done?
    ensures !ddl.Done? ==> r.Failed? && Contains(r.message, ddl.message)
  {
    match ddl
    case Done => Created
    case OperationalFailure(m) =>
      FailedMessage(CROSS + "SQLAlchemy operational error creating table " + table + ": ", m)
    case ProgrammingFailure(m) =>
      FailedMessage(CROSS + "SQLAlchemy programming error creating table " + table + ": ", m)
    case OtherFailure(m) => FailedMessage(CROSS + "Error creating table " + table + ": ", m)
  }

  /** The status of a drop and create; a programming error is worded like
    * one from a plain create. */
  function RecreateStatus(table: string, ddl: Ddl): (r: Status)
    ensures r == Recreated <==> ddl.Done?
    ensures !ddl.Done? ==> r.Failed? && Contains(r.message, ddl.message)
  {
    match ddl
    case Done => Recreated
    case OperationalFailure(m) =>
      FailedMessage(CROSS + "SQLAlchemy operational error recreating table " + table + ": ", m)
    case ProgrammingFailure(m) =>
      FailedMessage(CROSS + "SQLAlchemy programming error creating table " + table + ": ", m)
    case OtherFailure(m) => FailedMessage(CROSS + "Error recreating table " + table + ": ", m)
  }

  /** An error status whose message ends with the exception text. */
  function FailedMessage(prefix: string, m: string): (r: Status)
    ensures r.Failed? && Contains(r.message, m)
  {
    assert OccursAt(prefix + m, m, |prefix|);
    Failed(prefix + m)
  }

  /** The status the check reports for one model table, and the DDL it
    * issues for it. */
  function TableOutcome(m: ModelTable, schema: Dict<Dict<string>>, op: TableOps): (r: (Status, Option<Action>))
    ensures r.0 == Protected <==> m.name in PROTECTED
    ensures m.name in PROTECTED ==> r.1.None?
    ensures r.1 == Some(Create(m.name)) <==> m.name !in PROTECTED && !HasKey(schema, m.name)
    ensures r.1 == Some(DropAndCreate(m.name)) <==>
      m.name !in PROTECTED && HasKey(schema, m.name) && op.inspectError.None?
      && Mismatched(m.columns, Get(schema, m.name).value)
    ensures r.0 == Unchanged <==>
      m.name !in PROTECTED && HasKey(schema, m.name) && op.inspectError.None?
      && !Mismatched(m.columns, Get(schema, m.name).value)
    ensures r.1.Some? ==> r.1.value.table == m.name
  {
    if m.name in PROTECTED then (Protected, None)
    else match Get(schema, m.name)
      case None => (CreateStatus(m.name, op.ddl), Some(Create(m.name)))
      case Some(db) =>
        if op.inspectError.Some? then
          (FailedMessage(CROSS + "Error checking table " + m.name + ": ", op.inspectError.value), None)
        else if Mismatched(m.columns, db) then (RecreateStatus(m.name, op.ddl), Some(DropAndCreate(m.name)))
        else (Unchanged, None)
  }

  /** One pass of the loop: the checks for one model table. */
  method CheckTable(m: ModelTable, db: Dict<Dict<string>>, op: TableOps) returns (status: Status, action: Option<Action>)
    ensures (status, action) == TableOutcome(m, db, op)
  {
    action := None;
    if m.name in PROTECTED {
      status := Protected;
    } else if !HasKey(db, m.name) {
      status := CreateStatus(m.name, op.ddl);
      action := Some(Create(m.name));
    } else if op.inspectError.Some? {
      status := FailedMessage(CROSS + "Error checking table " + m.name + ": ", op.inspectError.value);
    } else {
      var mismatch := CheckColumns(m.columns, Get(db, m.name).value);
      if mismatch {
        status := RecreateStatus(m.name, op.ddl);
        action := Some(DropAndCreate(m.name));
      } else {
        status := Unchanged;
      }
    }
  }

  /** The model tables have distinct names, as the keys of a dictionary do. */
  predicate DistinctNames(models: seq<ModelTable>)
  {
    forall i, j :: 0 <= i < j < |models| ==> models[i].name != models[j].name
  }

  /** The ORM-managed marking used when no model classes are available:
    * every existing table but the protected ones, in order. */
  function OrmManagedMarks(existing: seq<string>): Dict<Status>
  {
    if |existing| == 0 then []
    else
      var before := OrmManagedMarks(existing[..|existing| - 1]);
      var name := existing[|existing| - 1];
      if name in PROTECTED then before else Put(before, name, OrmManaged)
  }

  /** The marks name exactly the existing unprotected tables, each as
    * ORM-managed. */
  lemma {:induction false} OrmManagedMarksGet(existing: seq<string>, t: string)
    ensures Get(OrmManagedMarks(existing), t).Some? <==> t in existing && t !in PROTECTED
    ensures Get(OrmManagedMarks(existing), t).Some? ==> Get(OrmManagedMarks(existing), t) == Some(OrmManaged)
  {
    if |existing| > 0 {
      var n := |existing| - 1;
      OrmManagedMarksGet(existing[..n], t);
      assert existing == existing[..n] + [existing[n]];
      assert t in existing <==> t in existing[..n] || t == existing[n];
    }
  }

  method MarkOrmManaged(existing: seq<string>) returns (results: Dict<Status>)
    ensures forall t :: Get(results, t).Some? <==> t in existing && t !in PROTECTED
    ensures forall t :: Get(results, t).Some? ==> Get(results, t) == Some(OrmManaged)
  {
    results := [];
    var i := 0;
    while i < |existing|
      invariant 0 <= i <= |existing|
      invariant results == OrmManagedMarks(existing[..i])
    {
      ghost var prefix := existing[..i + 1];
      assert prefix[..i] == existing[..i] && prefix[i] == existing[i];
      if existing[i] !in PROTECTED {
        results := Put(results, existing[i], OrmManaged);
      }
      i := i + 1;
    }
    assert existing[..i] == existing;
    forall t
      ensures Get(results, t).Some? <==> t in existing && t !in PROTECTED
      ensures Get(results, t).Some? ==> Get(results, t) == Some(OrmManaged)
    {
      OrmManagedMarksGet(existing, t);
    }
  }

  /** The outcome of each model table. */
  function Outcomes(ms: seq<ModelTable>, db: Dict<Dict<string>>, ops: seq<TableOps>): (r: seq<(Status, Option<Action>)>)
    requires |ops| == |ms|
    ensures |r| == |ms| && forall i :: 0 <= i < |ms| ==> r[i] == TableOutcome(ms[i], db, ops[i])
  {
    seq(|ms|, i requires 0 <= i < |ms| => TableOutcome(ms[i], db, ops[i]))
  }

  /** The statuses recorded for the given tables, in order. */
  function Recorded(ms: seq<ModelTable>, outs: seq<(Status, Option<Action>)>): Dict<Status>
    requires |outs| == |ms|
    decreases |ms|
  {
    if |ms| == 0 then []
    else Put(Recorded(ms[..|ms| - 1], outs[..|ms| - 1]), ms[|ms| - 1].name, outs[|ms| - 1].0)
  }

  /** The DDL issued for the given outcomes, in order. */
  function Issued(outs: seq<(Status, Option<Action>)>): seq<Action>
    decreases |outs|
  {
    if |outs| == 0 then []
    else Issued(outs[..|outs| - 1]) + (if outs[|outs| - 1].1.Some? then [outs[|outs| - 1].1.value] else [])
  }

  /** Each table's status is its own outcome's when no later table has its
    * name. */
  lemma {:induction false} RecordedGet(ms: seq<ModelTable>, outs: seq<(Status, Option<Action>)>, i: nat)
    requires |outs| == |ms| && i < |ms|
    requires forall j :: i < j < |ms| ==> ms[j].name != ms[i].name
    ensures Get(Recorded(ms, outs), ms[i].name) == Some(outs[i].0)
    decreases |ms|
  {
    var n := |ms| - 1;
    var prev := Recorded(ms[..n], outs[..n]);
    assert Recorded(ms, outs) == Put(prev, ms[n].name, outs[n].0);
    if i < n {
      assert ms[..n][i] == ms[i] && outs[..n][i] == outs[i];
      forall j | i < j < n ensures ms[..n][j].name != ms[..n][i].name {
        assert ms[..n][j] == ms[j];
      }
      RecordedGet(ms[..n], outs[..n], i);
      GetPutOther(prev, ms[n].name, outs[n].0, ms[i].name);
    }
  }

  lemma GetPutOther<V>(d: Dict<V>, k: string, v: V, k': string)
    requires k' != k
    ensures Get(Put(d, k, v), k') == Get(d, k')
  {
  }

  /** Only model tables get a status. */
  lemma {:induction false} RecordedOnlyModels(ms: seq<ModelTable>, outs: seq<(Status, Option<Action>)>, t: string)
    requires |outs| == |ms|
    requires Get(Recorded(ms, outs), t).Some?
    ensures exists i :: 0 <= i < |ms| && ms[i].name == t
    decreases |ms|
  {
    var n := |ms| - 1;
    if ms[n].name != t {
      RecordedOnlyModels(ms[..n], outs[..n], t);
      var i :| 0 <= i < n && ms[..n][i].name == t;
      assert ms[i] == ms[..n][i];
    }
  }

  /** An action is issued exactly when some outcome carries it. */
  lemma {:induction false} IssuedMembers(outs: seq<(Status, Option<Action>)>, a: Action)
    ensures a in Issued(outs) <==> exists i :: 0 <= i < |outs| && outs[i].1 == Some(a)
    decreases |outs|
  {
    if |outs| > 0 {
      var n := |outs| - 1;
      IssuedMembers(outs[..n], a);
      if exists i :: 0 <= i < |outs| && outs[i].1 == Some(a) {
        var i :| 0 <= i < |outs| && outs[i].1 == Some(a);
        if i < n { assert outs[..n][i] == outs[i]; }
      }
      if exists i :: 0 <= i < n && outs[..n][i].1 == Some(a) {
        var i :| 0 <= i < n && outs[..n][i].1 == Some(a);
        assert outs[i] == outs[..n][i];
      }
    }
  }


  /** One more table extends the record and the DDL by its own outcome. */
  lemma OutcomesNext(ms: seq<ModelTable>, outs: seq<(Status, Option<Action>)>, i: nat)
    requires |outs| == |ms| && i < |ms|
    ensures Recorded(ms[..i + 1], outs[..i + 1]) == Put(Recorded(ms[..i], outs[..i]), ms[i].name, outs[i].0)
    ensures Issued(outs[..i + 1]) == Issued(outs[..i]) + (if outs[i].1.Some? then [outs[i].1.value] else [])
  {
    assert ms[..i + 1][..i] == ms[..i] && outs[..i + 1][..i] == outs[..i];
  }

  /** The loop over the model tables. */
  method CheckModels(ms: seq<ModelTable>, db: Dict<Dict<string>>, ops: seq<TableOps>)
    returns (results: Dict<Status>, actions: seq<Action>)
    requires |ops| == |ms|
    ensures results == Recorded(ms, Outcomes(ms, db, ops))
    ensures actions == Issued(Outcomes(ms, db, ops))
  {
    ghost var outs := Outcomes(ms, db, ops);
    results, actions := [], [];
    var i := 0;
    while i < |ms|
      invariant 0 <= i <= |ms|
      invariant results == Recorded(ms[..i], outs[..i])
      invariant actions == Issued(outs[..i])
    {
      var status, action := CheckTable(ms[i], db, ops[i]);
      assert (status, action) == outs[i];
      OutcomesNext(ms, outs, i);
      results := Put(results, ms[i].name, status);
      if action.Some? {
        actions := actions + [action.value];
      }
      i := i + 1;
    }
    assert ms[..i] == ms && outs[..i] == outs;
  }

  /** Protected tables get no DDL. */
  lemma ProtectedUntouched(ms: seq<ModelTable>, db: Dict<Dict<string>>, ops: seq<TableOps>, a: Action)
    requires |ops| == |ms|
    requires exists i :: 0 <= i < |ms| && Outcomes(ms, db, ops)[i].1 == Some(a)
    ensures a.table !in PROTECTED
  {
  }

  /** `check_database_integrity`. `schema` is what the inspector reports
    * (table name to columns), `None` when listing the tables fails;
    * `models` is the model table of each ORM class, `None` when the
    * database object has no model classes. Returns the status of each
    * table and the DDL issued, in order. */
  method CheckDatabaseIntegrity(schema: Option<Dict<Dict<string>>>, models: Option<seq<ModelTable>>,
                                ops: seq<TableOps>) returns (results: Dict<Status>, actions: seq<Action>)
    requires models.Some? ==> |ops| == |models.value| && DistinctNames(models.value)
    ensures schema.None? ==> results == [] && actions == []
    ensures schema.Some? && models.None? ==> actions == []
    ensures schema.Some? && models.None? ==> forall t :: Get(results, t).Some? <==> HasKey(schema.value, t) && t !in PROTECTED
    ensures schema.Some? && models.None? ==> forall t :: Get(results, t).Some? ==> Get(results, t) == Some(OrmManaged)
    ensures schema.Some? && models.Some? ==> forall i :: 0 <= i < |models.value| ==>
      Get(results, models.value[i].name) == Some(TableOutcome(models.value[i], schema.value, ops[i]).0)
    ensures schema.Some? && models.Some? ==> forall t :: Get(results, t).Some? ==>
      exists i :: 0 <= i < |models.value| && models.value[i].name == t
    ensures schema.Some? && models.Some? ==> forall a :: a in actions <==>
      exists i :: 0 <= i < |models.value| && TableOutcome(models.value[i], schema.value, ops[i]).1 == Some(a)
    ensures forall a :: a in actions ==> a.table !in PROTECTED
  {
    results, actions := [], [];
    if schema.None? {
      return;
    }
    if models.None? {
      results := MarkOrmManaged(Keys(schema.value));
      return;
    }
    var ms := models.value;
    results, actions := CheckModels(ms, schema.value, ops);
    ghost var outs := Outcomes(ms, schema.value, ops);
    forall i | 0 <= i < |ms|
      ensures Get(results, ms[i].name) == Some(TableOutcome(ms[i], schema.value, ops[i]).0)
    {
      RecordedGet(ms, outs, i);
    }
    forall t | Get(results, t).Some?
      ensures exists i :: 0 <= i < |ms| && ms[i].name == t
    {
      RecordedOnlyModels(ms, outs, t);
    }
    forall a
      ensures a in actions <==> exists i :: 0 <= i < |ms| && TableOutcome(ms[i], schema.value, ops[i]).1 == Some(a)
    {
      IssuedMembers(outs, a);
    }
    forall a | a in actions
      ensures a.table !in PROTECTED
    {
      ProtectedUntouched(ms, schema.value, ops, a);
    }
  }
}

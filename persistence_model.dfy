/**
 * The database model base class: looking up a model's fields, checking
 * the result of a query, copying a one-row result into the model's
 * fields, the transaction statements, and the scoped transaction guard.
 *
 * This follows the Postgres build. The database is replaced by the Reply
 * the next query gets, and the model records, in order, every SQL text it
 * sends to the database.
 */
module Persistence {
  import opened Wrappers

  /** The column types a model field can have. */
  datatype FieldType = STRING | PASSWORD | INT | LONG | TIMESTAMP

  /** A field of a model: its column name, its type and its constraint bits. */
  datatype Field = Field(name: string, fieldType: FieldType, constraintMask: bv32)

  /** The constraint bit that marks the primary key. */
  const PRIMARYKEY: bv32 := 1

  /** What getField returns when no field has the name asked for. */
  const DEFAULT_FIELD: Field := Field("", STRING, 0)

  /** The status of a query result. */
  datatype ExecStatus =
    | EMPTY_QUERY | COMMAND_OK | TUPLES_OK | COPY_OUT | COPY_IN
    | BAD_RESPONSE | NONFATAL_ERROR | FATAL_ERROR | COPY_BOTH | SINGLE_TUPLE

  /** One column of a result: its name and its value in the first row (None for a null value). */
  datatype Column = Column(name: string, value: Option<string>)

  /** A query result: its status, its number of rows and its columns. */
  datatype ResultSet = ResultSet(status: ExecStatus, rows: nat, columns: seq<Column>)

  /** The state of one query: the result (None for a null result), the last error, the row count and the verdict. */
  datatype State = State(res: Option<ResultSet>, lastErrorMsg: string, affectedRows: int, result: bool)

  /** A freshly constructed state around a result. */
  function NewState(res: Option<ResultSet>): State {
    State(res, "", 0, false)
  }

  /** What the database does with the next query: whether a connection could be had, the result, and the connection's error text. */
  datatype Reply = Reply(connected: bool, res: Option<ResultSet>, errorMessage: string)

  /** The statuses checkLastResult counts rows for. */
  predicate IsSuccess(status: ExecStatus) {
    status == EMPTY_QUERY || status == COMMAND_OK || status == TUPLES_OK
  }

  /**
   * checkLastResult: the row count is reset; a null result or a failed,
   * fatal or unexpected status is false; a non-fatal error keeps its message
   * and still succeeds; success takes the row count and sets the verdict.
   * The connection's error text is a parameter.
   */
  function CheckLastResult(state: State, connectionError: string): (r: (bool, State))
    ensures r.0 <==> state.res.Some? && (IsSuccess(state.res.value.status) || state.res.value.status == NONFATAL_ERROR)
    ensures state.res.None? ==> r.1 == state.(affectedRows := 0)
    ensures r.0 ==> r.1.result && r.1.res == state.res
    ensures !r.0 ==> r.1.result == state.result && r.1.affectedRows == 0
    ensures r.1.affectedRows == (if state.res.Some? && IsSuccess(state.res.value.status) then state.res.value.rows else 0)
    ensures state.res.Some? && (state.res.value.status == BAD_RESPONSE || state.res.value.status == FATAL_ERROR) ==>
              r.1.res.None? && r.1.lastErrorMsg == connectionError
  {
    var cleared := state.(affectedRows := 0);
    if cleared.res.None? then (false, cleared)
    else
      match cleared.res.value.status
      case NONFATAL_ERROR => (true, cleared.(lastErrorMsg := connectionError, result := true))
      case BAD_RESPONSE => (false, cleared.(lastErrorMsg := connectionError, res := None))
      case FATAL_ERROR => (false, cleared.(lastErrorMsg := connectionError, res := None))
      case EMPTY_QUERY => (true, cleared.(affectedRows := cleared.res.value.rows, result := true))
      case COMMAND_OK => (true, cleared.(affectedRows := cleared.res.value.rows, result := true))
      case TUPLES_OK => (true, cleared.(affectedRows := cleared.res.value.rows, result := true))
      case _ => (false, cleared)
  }

  /** A value stored into a model field; numeric text is converted by the string helpers. */
  datatype FieldValue = Text(s: string) | IntValue(text: string) | LongValue(text: string) | TimestampValue(text: string)

  /** The value setValue stores for a field of the given type. */
  function Convert(t: FieldType, text: string): FieldValue {
    match t
    case STRING => Text(text)
    case PASSWORD => Text(text)
    case INT => IntValue(text)
    case LONG => LongValue(text)
    case TIMESTAMP => TimestampValue(text)
  }

  /** A null column value reads as the empty text. */
  function ValueText(v: Option<string>): string {
    if v.Some? then v.value else ""
  }

  /**
   * A model: its table, its fields, the values set into them and the SQL
   * texts it has sent to the database.
   */
  class Model {
    const tableName: string
    const fields: seq<Field>
    var values: map<string, FieldValue>
    var issued: seq<string>

    constructor(tableName: string, fields: seq<Field>)
      ensures this.tableName == tableName && this.fields == fields
      ensures values == map[] && issued == []
    {
      this.tableName := tableName;
      this.fields := fields;
      values := map[];
      issued := [];
    }

    /** The first field with the given name, if any. */
    function FindField(name: string, from: nat): (r: Option<nat>)
      decreases |fields| - from
      ensures r.Some? ==> from <= r.value < |fields| && fields[r.value].name == name
                          && forall j :: from <= j < r.value ==> fields[j].name != name
      ensures r.None? <==> forall j :: from <= j < |fields| ==> fields[j].name != name
    {
      if from >= |fields| then None
      else if fields[from].name == name then Some(from)
      else FindField(name, from + 1)
    }

    /** getField: the first field with the given name, otherwise the default field. */
    function GetField(name: string): (f: Field)
      ensures forall i :: 0 <= i < |fields| && fields[i].name == name && (forall j :: 0 <= j < i ==> fields[j].name != name) ==> f == fields[i]
      ensures (forall j :: 0 <= j < |fields| ==> fields[j].name != name) ==> f == DEFAULT_FIELD
      ensures f.name == name || f == DEFAULT_FIELD
    {
      var i := FindField(name, 0);
      if i.Some? then fields[i.value] else DEFAULT_FIELD
    }

    /** isPrimaryKey: false for an unknown name, otherwise the primary key bit of the first field with that name. */
    function IsPrimaryKey(name: string): (b: bool)
      ensures (forall j :: 0 <= j < |fields| ==> fields[j].name != name) ==> !b
      ensures forall i :: 0 <= i < |fields| && fields[i].name == name && (forall j :: 0 <= j < i ==> fields[j].name != name) ==>
                (b <==> fields[i].constraintMask & PRIMARYKEY != 0)
    {
      var i := FindField(name, 0);
      if i.None? then false else fields[i.value].constraintMask & PRIMARYKEY != 0
    }

    /** A column name fill accepts: getField finds a field carrying exactly that name. */
    predicate Known(name: string) {
      GetField(name).name == name
    }

    /**
     * A column is accepted exactly when some field carries its name, or when
     * the name is empty, which the default field's empty name matches.
     */
    lemma KnownMeaning(name: string)
      ensures Known(name) <==> (exists j :: 0 <= j < |fields| && fields[j].name == name) || name == ""
    {
      if !Known(name) && name != "" {
        assert FindField(name, 0).None?;
      }
    }

    /** The values after the given columns of the first row were set, in order. */
    function StoreColumns(v: map<string, FieldValue>, cols: seq<Column>): map<string, FieldValue> {
      if cols == [] then v
      else
        var last := cols[|cols| - 1];
        StoreColumns(v, cols[..|cols| - 1])[last.name := Convert(GetField(last.name).fieldType, ValueText(last.value))]
    }

    /** After storing, a name no column carries keeps its old value, or stays unset. */
    lemma {:induction false} StoreColumnsUntouched(v: map<string, FieldValue>, cols: seq<Column>, n: string)
      requires forall i :: 0 <= i < |cols| ==> cols[i].name != n
      ensures n in StoreColumns(v, cols) <==> n in v
      ensures n in v ==> StoreColumns(v, cols)[n] == v[n]
    {
      if cols != [] {
        var front := cols[..|cols| - 1];
        assert forall i :: 0 <= i < |front| ==> front[i] == cols[i];
        StoreColumnsUntouched(v, front, n);
      }
    }

    /** After storing, a column's name holds that column's value when no later column has the same name. */
    lemma {:induction false} StoreColumnsLast(v: map<string, FieldValue>, cols: seq<Column>, i: nat)
      requires i < |cols|
      requires forall j :: i < j < |cols| ==> cols[j].name != cols[i].name
      ensures cols[i].name in StoreColumns(v, cols)
      ensures StoreColumns(v, cols)[cols[i].name] == Convert(GetField(cols[i].name).fieldType, ValueText(cols[i].value))
    {
      if i < |cols| - 1 {
        var front := cols[..|cols| - 1];
        assert forall j :: 0 <= j < |front| ==> front[j] == cols[j];
        StoreColumnsLast(v, front, i);
      }
    }

    /** The first column, at or after from, that has no field. */
    function FirstUnknown(cols: seq<Column>, from: nat): (r: Option<nat>)
      decreases |cols| - from
      ensures r.Some? ==> from <= r.value < |cols| && !Known(cols[r.value].name)
                          && forall j :: from <= j < r.value ==> Known(cols[j].name)
      ensures r.None? <==> forall j :: from <= j < |cols| ==> Known(cols[j].name)
    {
      if from >= |cols| then None
      else if !Known(cols[from].name) then Some(from)
      else FirstUnknown(cols, from + 1)
    }

    /** The columns of a state's result; none for a null result. */
    static function Columns(state: State): seq<Column> {
      if state.res.Some? then state.res.value.columns else []
    }

    /**
     * fillModelValues: unless exactly one row was affected nothing is set and
     * the state's verdict is returned. Otherwise the columns of the first row
     * are set in order; a column without a field stops the fill with false,
     * also recorded in the state.
     */
    method FillModelValues(state: State) returns (ok: bool, after: State)
      modifies this
      ensures state.affectedRows != 1 ==> ok == state.result && after == state && values == old(values)
      ensures state.affectedRows == 1 && FirstUnknown(Columns(state), 0).None? ==>
                ok && after == state && values == StoreColumns(old(values), Columns(state))
      ensures state.affectedRows == 1 && FirstUnknown(Columns(state), 0).Some? ==>
                !ok && after == state.(result := false)
                && values == StoreColumns(old(values), Columns(state)[..FirstUnknown(Columns(state), 0).value])
      ensures issued == old(issued)
    {
      after := state;
      if state.affectedRows > 1 {
        return state.result, after;
      } else if state.affectedRows <= 0 {
        return state.result, after;
      }
      ok := StoreRow(Columns(state));
      if !ok {
        after := state.(result := false);
      }
    }

    /** The loop of fillModelValues over the first row's columns. */
    method StoreRow(cols: seq<Column>) returns (ok: bool)
      modifies this
      ensures ok <==> FirstUnknown(cols, 0).None?
      ensures ok ==> values == StoreColumns(old(values), cols)
      ensures !ok ==> values == StoreColumns(old(values), cols[..FirstUnknown(cols, 0).value])
      ensures issued == old(issued)
    {
      var i := 0;
      while i < |cols|
        invariant 0 <= i <= |cols|
        invariant FirstUnknown(cols, 0) == FirstUnknown(cols, i)
        invariant values == StoreColumns(old(values), cols[..i])
        invariant issued == old(issued)
      {
        var name := cols[i].name;
        var text := ValueText(cols[i].value);
        var f := GetField(name);
        if f.name != name {
          return false;
        }
        assert cols[..i + 1][..i] == cols[..i];
        values := values[name := Convert(f.fieldType, text)];
        i := i + 1;
      }
      assert cols[..i] == cols;
      ok := true;
    }

    /**
     * What exec leaves behind for a reply, from the values `before`: no connection or no result fails
     * and sets nothing; a failed status succeeds only as a non-fatal error
     * and sets nothing; a success with other than one row sets nothing; a
     * success with one row stores the columns up to the first one that names
     * no field, and succeeds exactly when there is no such column.
     */
    predicate ExecOutcome(reply: Reply, ok: bool, before: map<string, FieldValue>)
      reads this
    {
      && (!reply.connected || reply.res.None? ==> !ok && values == before)
      && (reply.connected && reply.res.Some? && !IsSuccess(reply.res.value.status) ==>
            ok == (reply.res.value.status == NONFATAL_ERROR) && values == before)
      && (reply.connected && reply.res.Some? && IsSuccess(reply.res.value.status) && reply.res.value.rows != 1 ==>
            ok && values == before)
      && (reply.connected && reply.res.Some? && IsSuccess(reply.res.value.status) && reply.res.value.rows == 1 ==>
            var cols := reply.res.value.columns;
            var unknown := FirstUnknown(cols, 0);
            (ok <==> unknown.None?)
            && values == StoreColumns(before, if unknown.Some? then cols[..unknown.value] else cols))
    }

    /**
     * exec: without a connection nothing is sent and the call fails;
     * otherwise the query is sent, its result checked (the check's verdict
     * is not looked at) and filled into the model.
     */
    method Exec(query: string, reply: Reply) returns (ok: bool)
      modifies this
      ensures issued == old(issued) + (if reply.connected then [query] else [])
      ensures ExecOutcome(reply, ok, old(values))
    {
      if !reply.connected {
        return false;
      }
      issued := issued + [query];
      var checked := CheckLastResult(NewState(reply.res), reply.errorMessage);
      var after;
      ok, after := FillModelValues(checked.1);
    }

    /** begin: sends "START TRANSACTION;". */
    method Begin(reply: Reply) returns (ok: bool)
      modifies this
      ensures issued == old(issued) + (if reply.connected then ["START TRANSACTION;"] else [])
      ensures ExecOutcome(reply, ok, old(values))
    {
      ok := Exec("START TRANSACTION;", reply);
    }

    /** commit: sends "COMMIT;". */
    method Commit(reply: Reply) returns (ok: bool)
      modifies this
      ensures issued == old(issued) + (if reply.connected then ["COMMIT;"] else [])
      ensures ExecOutcome(reply, ok, old(values))
    {
      ok := Exec("COMMIT;", reply);
    }

    /** rollback: sends "ROLLBACK;". */
    method Rollback(reply: Reply) returns (ok: bool)
      modifies this
      ensures issued == old(issued) + (if reply.connected then ["ROLLBACK;"] else [])
      ensures ExecOutcome(reply, ok, old(values))
    {
      ok := Exec("ROLLBACK;", reply);
    }
  }

  /**
   * A transaction guard: the first commit or rollback goes to the model,
   * later ones do nothing, and the end of the guard's scope commits when
   * autocommit is set and rolls back otherwise.
   */
  class ScopedTransaction {
    const autocommit: bool
    const model: Model
    var committed: bool

    constructor(model: Model, autocommit: bool)
      ensures this.model == model && this.autocommit == autocommit && !committed
    {
      this.model := model;
      this.autocommit := autocommit;
      committed := false;
    }

    method Commit(reply: Reply)
      modifies this, model
      ensures committed
      ensures old(committed) ==> model.issued == old(model.issued)
      ensures !old(committed) ==> model.issued == old(model.issued) + (if reply.connected then ["COMMIT;"] else [])
      ensures old(committed) ==> model.values == old(model.values)
      ensures !old(committed) ==> exists ok :: model.ExecOutcome(reply, ok, old(model.values))
    {
      if committed {
        return;
      }
      committed := true;
      var _ := model.Commit(reply);
    }

    method Rollback(reply: Reply)
      modifies this, model
      ensures committed
      ensures old(committed) ==> model.issued == old(model.issued)
      ensures !old(committed) ==> model.issued == old(model.issued) + (if reply.connected then ["ROLLBACK;"] else [])
      ensures old(committed) ==> model.values == old(model.values)
      ensures !old(committed) ==> exists ok :: model.ExecOutcome(reply, ok, old(model.values))
    {
      if committed {
        return;
      }
      committed := true;
      var _ := model.Rollback(reply);
    }

    /** The end of the guard's scope. */
    method Finish(reply: Reply)
      modifies this, model
      ensures committed
      ensures old(committed) ==> model.issued == old(model.issued)
      ensures !old(committed) ==> model.issued == old(model.issued) + (if reply.connected then [if autocommit then "COMMIT;" else "ROLLBACK;"] else [])
      ensures old(committed) ==> model.values == old(model.values)
      ensures !old(committed) ==> exists ok :: model.ExecOutcome(reply, ok, old(model.values))
    {
      if autocommit {
        Commit(reply);
      } else {
        Rollback(reply);
      }
    }
  }

  /** A reply to a statement that returns no rows. */
  const DONE: Reply := Reply(true, Some(ResultSet(COMMAND_OK, 0, [])), "")

  /**
   * A guard committed by hand, then committed, rolled back and closed again:
   * the model only ever sees the one COMMIT.
   */
  method CommitOnce() returns (issued: seq<string>)
    ensures issued == ["START TRANSACTION;", "COMMIT;"]
  {
    var model := new Model("user", [Field("id", LONG, PRIMARYKEY)]);
    var _ := model.Begin(DONE);
    var t := new ScopedTransaction(model, false);
    t.Commit(DONE);
    t.Commit(DONE);
    t.Rollback(DONE);
    t.Finish(DONE);
    issued := model.issued;
  }

  /** Guards left to their scope's end: one rolls back, the autocommit one commits. */
  method GuardScopes() returns (rolledBack: seq<string>, committed: seq<string>)
    ensures rolledBack == ["ROLLBACK;"]
    ensures committed == ["COMMIT;"]
  {
    var first := new Model("user", []);
    var t := new ScopedTransaction(first, false);
    t.Finish(DONE);
    rolledBack := first.issued;
    var second := new Model("user", []);
    var u := new ScopedTransaction(second, true);
    u.Finish(DONE);
    committed := second.issued;
  }
}

/** `MapToObject` and `QueryAsync`: a setter plan applied to each row of a
    result, building one object per row. */
module Materialize {
  import opened Wrappers
  import opened Ado
  import opened ObjectMapping
  import opened PropertySetters
  import Facade

  function SetterFault(s: PropertySetter, cause: Fault): Fault {
    WrappedError("Error setting property for " + s.columnName, cause)
  }

  /** One setter as `MapToObject` runs it: its failure is wrapped with the
      setter's column name. */
  function ApplyWrapped(s: PropertySetter, row: Row, obj: Instance): (r: Result<Instance, Fault>)
    ensures r.Success? <==> ApplySetter(s, row, obj).Success?
    ensures r.Success? ==> r.value == ApplySetter(s, row, obj).value
    ensures r.Failure? ==> r.error == SetterFault(s, ApplySetter(s, row, obj).error)
  {
    match ApplySetter(s, row, obj)
    case Success(o) => Success(o)
    case Failure(e) => Failure(SetterFault(s, e))
  }

  /** The setters applied in plan order to an object, stopping at the first
      failure. */
  function MapRow(plan: seq<PropertySetter>, row: Row, obj: Instance): Result<Instance, Fault>
    decreases |plan|
  {
    if |plan| == 0 then Success(obj)
    else
      match MapRow(plan[..|plan| - 1], row, obj)
      case Failure(e) => Failure(e)
      case Success(o) => ApplyWrapped(plan[|plan| - 1], row, o)
  }

  /** `MapToObject`: a fresh `new T()`, then every setter in order; the first
      failing setter ends the call. */
  method MapToObject(plan: seq<PropertySetter>, row: Row, t: ModelType) returns (r: Result<Instance, Fault>)
    ensures r == MapRow(plan, row, NewInstance(t))
    ensures |plan| == 0 ==> r == Success(NewInstance(t))
  {
    var result := NewInstance(t);
    var i := 0;
    while i < |plan|
      invariant 0 <= i <= |plan|
      invariant MapRow(plan[..i], row, NewInstance(t)) == Success(result)
    {
      assert plan[..i + 1][..i] == plan[..i];
      var applied := ApplySetter(plan[i], row, result);
      if applied.Failure? {
        MapRowFailureIsFinal(plan, row, NewInstance(t), i + 1);
        return Failure(SetterFault(plan[i], applied.error));
      }
      result := applied.value;
      i := i + 1;
    }
    assert plan[..i] == plan;
    r := Success(result);
  }

  /** A failure on a prefix of the plan is the failure of the whole plan. */
  lemma {:induction false} MapRowFailureIsFinal(plan: seq<PropertySetter>, row: Row, obj: Instance, k: nat)
    requires k <= |plan| && MapRow(plan[..k], row, obj).Failure?
    ensures MapRow(plan, row, obj) == MapRow(plan[..k], row, obj)
    decreases |plan| - k
  {
    if k < |plan| {
      assert plan[..k + 1][..k] == plan[..k];
      MapRowFailureIsFinal(plan, row, obj, k + 1);
    } else {
      assert plan[..k] == plan;
    }
  }

  /** The first setter that fails decides the outcome, wrapped with its
      column name; the setters after it do not run. */
  lemma FirstFailureAborts(plan: seq<PropertySetter>, row: Row, obj: Instance, k: nat, before: Instance)
    requires k < |plan| && MapRow(plan[..k], row, obj) == Success(before)
    requires ApplySetter(plan[k], row, before).Failure?
    ensures MapRow(plan, row, obj) == Failure(SetterFault(plan[k], ApplySetter(plan[k], row, before).error))
  {
    assert plan[..k + 1][..k] == plan[..k];
    MapRowFailureIsFinal(plan, row, obj, k + 1);
  }

  /** A property no setter of the plan targets keeps the value it had. */
  lemma {:induction false} UntargetedPropertiesKeepTheirValue(plan: seq<PropertySetter>, row: Row, obj: Instance, key: string)
    requires key in obj
    requires forall k :: 0 <= k < |plan| ==> plan[k].property.name != key
    requires MapRow(plan, row, obj).Success?
    ensures key in MapRow(plan, row, obj).value && MapRow(plan, row, obj).value[key] == obj[key]
    decreases |plan|
  {
    if |plan| > 0 {
      var init := plan[..|plan| - 1];
      assert forall k :: 0 <= k < |init| ==> init[k] == plan[k];
      UntargetedPropertiesKeepTheirValue(init, row, obj, key);
    }
  }

  /** Running a plan in two parts is running it whole. */
  lemma {:induction false} MapRowSplits(first: seq<PropertySetter>, second: seq<PropertySetter>, row: Row, obj: Instance)
    ensures MapRow(first + second, row, obj) ==
      match MapRow(first, row, obj)
      case Success(o) => MapRow(second, row, o)
      case Failure(e) => Failure(e)
    decreases |second|
  {
    if |second| == 0 {
      assert first + second == first;
    } else {
      var init := second[..|second| - 1];
      assert (first + second)[..|first + second| - 1] == first + init;
      assert (first + second)[|first + second| - 1] == second[|second| - 1];
      MapRowSplits(first, init, row, obj);
    }
  }

  // ---------------------------------------------------------------------------
  // Queries

  /** The objects for the first `n` rows, in row order, or the first failure. */
  function MapRows(plan: seq<PropertySetter>, rs: ResultSet, t: ModelType, n: nat): Result<seq<Instance>, Fault>
    requires n <= |rs.rows|
  {
    if n == 0 then Success([])
    else
      match MapRows(plan, rs, t, n - 1)
      case Failure(e) => Failure(e)
      case Success(objects) =>
        match MapRow(plan, RowAt(rs, n - 1), NewInstance(t))
        case Failure(e) => Failure(e)
        case Success(obj) => Success(objects + [obj])
  }

  /** What the body `QueryAsync` gives the reader computes: the object map and
      the plan, built once, then one object per row. */
  function QueryResults(t: ModelType, rs: ResultSet): Result<seq<Instance>, Fault> {
    var tables :- MapProperties(MappedProperties(t.properties));
    var plan :- Plan(rs.columns, tables.aliasToProperty);
    MapRows(plan, rs, t, |rs.rows|)
  }

  /** Every row yields one object, mapped by the same plan from a fresh
      `new T()`. */
  lemma {:induction false} MapRowsSpec(plan: seq<PropertySetter>, rs: ResultSet, t: ModelType, n: nat)
    requires n <= |rs.rows| && MapRows(plan, rs, t, n).Success?
    ensures |MapRows(plan, rs, t, n).value| == n
    ensures forall i :: 0 <= i < n ==>
      MapRow(plan, RowAt(rs, i), NewInstance(t)) == Success(MapRows(plan, rs, t, n).value[i])
  {
    if n > 0 {
      MapRowsSpec(plan, rs, t, n - 1);
    }
  }

  /** A result without rows is an empty list once the plan is built. */
  lemma ZeroRowsGiveEmptyList(t: ModelType, rs: ResultSet)
    requires |rs.rows| == 0
    requires MapProperties(MappedProperties(t.properties)).Success?
    requires Plan(rs.columns, MapProperties(MappedProperties(t.properties)).value.aliasToProperty).Success?
    ensures QueryResults(t, rs) == Success([])
  {
  }

  /** A row failure on a prefix of the rows is the failure of the query. */
  lemma {:induction false} MapRowsFailureIsFinal(plan: seq<PropertySetter>, rs: ResultSet, t: ModelType, k: nat)
    requires k <= |rs.rows| && MapRows(plan, rs, t, k).Failure?
    ensures MapRows(plan, rs, t, |rs.rows|) == MapRows(plan, rs, t, k)
    decreases |rs.rows| - k
  {
    if k < |rs.rows| {
      MapRowsFailureIsFinal(plan, rs, t, k + 1);
    }
  }

  /** The body of `QueryAsync`: the setters are built for the reader once,
      then every row is mapped. */
  method ReadRows(t: ModelType, rs: ResultSet) returns (r: Result<seq<Instance>, Fault>)
    ensures r == QueryResults(t, rs)
  {
    var built := SettersForType(rs.columns, t);
    if built.Failure? {
      return Failure(built.error);
    }
    r := MapEachRow(built.value.setters, rs, t);
  }

  /** One more row: its object is appended, or its failure ends the query. */
  lemma MapRowsStep(plan: seq<PropertySetter>, rs: ResultSet, t: ModelType, i: nat, objects: seq<Instance>,
                    row: Result<Instance, Fault>)
    requires i < |rs.rows| && MapRows(plan, rs, t, i) == Success(objects)
    requires row == MapRow(plan, RowAt(rs, i), NewInstance(t))
    ensures row.Success? ==> MapRows(plan, rs, t, i + 1) == Success(objects + [row.value])
    ensures row.Failure? ==> MapRows(plan, rs, t, |rs.rows|) == Failure(row.error)
  {
    if row.Failure? {
      MapRowsFailureIsFinal(plan, rs, t, i + 1);
    }
  }

  /** `while (reader.Read())`: each row mapped in turn and appended. */
  method MapEachRow(plan: seq<PropertySetter>, rs: ResultSet, t: ModelType) returns (r: Result<seq<Instance>, Fault>)
    ensures r == MapRows(plan, rs, t, |rs.rows|)
  {
    var result: seq<Instance> := [];
    var i := 0;
    while i < |rs.rows|
      invariant 0 <= i <= |rs.rows|
      invariant MapRows(plan, rs, t, i) == Success(result)
    {
      var obj := MapToObject(plan, RowAt(rs, i), t);
      MapRowsStep(plan, rs, t, i, result, obj);
      if obj.Failure? {
        return Failure(obj.error);
      }
      result := result + [obj.value];
      i := i + 1;
    }
    r := Success(result);
  }

  /** `QueryAsync`: the callback overload of `ExecuteReaderAsync`, with the
      default behaviour and no transaction, runs the body; the connection is
      handled entirely by that overload. */
  method QueryAsync(db: Facade.Database, cmd: Command, t: ModelType, open: Outcome<string>, exec: Result<ResultSet, string>)
    returns (r: Result<seq<Instance>, Fault>)
    modifies cmd`text, cmd`connection, cmd`transaction, cmd.connection
    ensures r.Success? ==> exec.Success? && r == QueryResults(t, exec.value)
    ensures exec.Success? && (old(cmd.connection != null && cmd.connection.state == Open) || db.TransientOpen(open) == Pass) ==>
      r == QueryResults(t, exec.value)
    ensures old(cmd.connection == null || cmd.connection.state != Open) ==>
      (db.TransientOpen(open).Fail? ==> r == Failure(db.TransientOpen(open).error))
      && (db.TransientOpen(open) == Pass ==> cmd.connection != null && cmd.connection.state == Closed)
  {
    r := db.ExecuteReaderWith(cmd, rs => QueryResults(t, rs), {}, null, open, exec);
  }
}

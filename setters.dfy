/** `DataReaderPropertySetters<T>`: the plan that says, for each column of a
    result whose upper-cased name is a column key of the object map, which
    property receives it and by which conversion. The plan is a list of
    values (column name, ordinal, property, strategy) built once per result
    shape; applying one entry to a row writes one property of an object. */
module PropertySetters {
  import opened Wrappers
  import opened Text
  import opened Ado
  import opened PropertyTypes
  import opened ObjectMapping
  import opened ReaderExtensions

  /** The value of `BOOLTRUEVALUE`: the one integer read as `true`. */
  const BoolTrueValue := 1

  /** The setter closures `getSetterMethod` can return. */
  datatype Strategy =
    | StringSetter
    | IntSetter | BoolFromInt | EnumFromInt
    | SmallIntSetter | BoolFromSmallInt | EnumFromSmallInt
    | DoubleSetter | IntFromDouble
    | DecimalSetter | IntFromDecimal | BoolFromDecimal | DoubleFromDecimal
    | DateTimeSetter
    | BinarySetter
    | GuidSetter
    | SmallIntFromByteSetter
    | DefaultSetter

  /** `PropertySetter<T>`: the upper-cased column name and what the closure
      captures. */
  datatype PropertySetter = PropertySetter(columnName: string, ordinal: nat, property: Property, strategy: Strategy)

  // ---------------------------------------------------------------------------
  // Choosing a setter

  function BinaryCastFault(t: TypeDesc): Fault {
    InvalidCastError("Could not convert binary to " + FullName(t) + ".")
  }

  /** `getSetterMethod` and the setter builders it calls: the strategy follows
      the lower-cased name of the column's field type, then the property's
      type; a binary column into a property that is neither a GUID nor a byte
      array is refused. */
  function SetterMethod(column: Column, t: TypeDesc): (r: Result<Strategy, Fault>)
    ensures r.Failure? <==> ToLower(column.fieldType) == "byte[]" && !IsGuidProperty(t) && t != Plain(ByteArrayType)
    ensures r.Failure? ==> r.error == BinaryCastFault(t)
  {
    var fieldType := ToLower(column.fieldType);
    if fieldType == "string" then Success(StringSetter)
    else if fieldType == "int16" then
      Success(if IsEnumProperty(t) then EnumFromSmallInt else if IsBoolProperty(t) then BoolFromSmallInt else SmallIntSetter)
    else if fieldType == "int32" then
      Success(if IsEnumProperty(t) then EnumFromInt else if IsBoolProperty(t) then BoolFromInt else IntSetter)
    else if fieldType == "double" then
      Success(if IsIntProperty(t) then IntFromDouble else DoubleSetter)
    else if fieldType == "decimal" then
      Success(if IsIntProperty(t) then IntFromDecimal
              else if IsBoolProperty(t) then BoolFromDecimal
              else if IsDoubleProperty(t) then DoubleFromDecimal
              else DecimalSetter)
    else if fieldType == "datetime" then Success(DateTimeSetter)
    else if fieldType == "byte[]" then
      if IsGuidProperty(t) then Success(GuidSetter)
      else if t == Plain(ByteArrayType) then Success(BinarySetter)
      else Failure(BinaryCastFault(t))
    else if fieldType == "guid" then Success(GuidSetter)
    else if fieldType == "byte" then
      if |column.dataTypeName| == 0 then Success(DefaultSetter)
      else
        var typeName := ToLower(column.dataTypeName);
        Success(if typeName == "smallint" || typeName == "tinyint" then SmallIntFromByteSetter else DefaultSetter)
    else Success(DefaultSetter)
  }

  /** A byte column widens to a 16-bit integer exactly when the provider calls
      it smallint or tinyint; any field type outside the switch gets the
      default setter. */
  lemma ByteColumnsWidenOnlyForSmallTypes(column: Column, t: TypeDesc)
    requires ToLower(column.fieldType) == "byte"
    ensures SetterMethod(column, t) == Success(
      if ToLower(column.dataTypeName) == "smallint" || ToLower(column.dataTypeName) == "tinyint"
      then SmallIntFromByteSetter else DefaultSetter)
  {
  }

  /** An integer column into an enum property is read as the enum's integer,
      into a bool property as a flag, and into anything else as an integer. */
  lemma IntegerColumnStrategies(column: Column, t: TypeDesc)
    requires ToLower(column.fieldType) == "int32"
    ensures IsEnumProperty(t) ==> SetterMethod(column, t) == Success(EnumFromInt)
    ensures IsBoolProperty(t) ==> SetterMethod(column, t) == Success(BoolFromInt)
    ensures !IsEnumProperty(t) && !IsBoolProperty(t) ==> SetterMethod(column, t) == Success(IntSetter)
  {
  }

  // ---------------------------------------------------------------------------
  // Conversions

  /** `Math.Round` to even, as `Convert.ToInt32` rounds a double or a
      decimal. */
  function RoundHalfEven(x: real): (n: int)
    ensures x - 0.5 <= n as real <= x + 0.5
    ensures x - x.Floor as real == 0.5 ==> n % 2 == 0
    ensures x - x.Floor as real != 0.5 ==> x - 0.5 < n as real < x + 0.5
  {
    var f := x.Floor;
    var d := x - f as real;
    if d < 0.5 then f
    else if d > 0.5 then f + 1
    else if f % 2 == 0 then f else f + 1
  }

  /** `Convert.ToInt32`: round to even, then refuse a result outside Int32. */
  function ConvertToInt32(x: real): (r: Result<int, Fault>)
    ensures r.Success? <==> IsInt32(RoundHalfEven(x))
    ensures r.Success? ==> r.value == RoundHalfEven(x)
    ensures r.Failure? ==> r.error == OverflowError
  {
    var n := RoundHalfEven(x);
    if IsInt32(n) then Success(n) else Failure(OverflowError)
  }

  /** The numeric value of a decimal. */
  function DecimalReal(unscaled: int, scale: nat): real {
    unscaled as real / Pow10(scale) as real
  }

  /** The value a setter writes for a column value that is not a database
      null, or the failure of the typed read or conversion it makes. */
  function Converted(strategy: Strategy, row: Row, ordinal: nat, v: Value): Result<Value, Fault> {
    match strategy
    case StringSetter =>
      var s :- GetString(v);
      Success(Str(s))
    case IntSetter =>
      var n :- GetInt32(v);
      Success(Int32(n))
    case BoolFromInt =>
      var n :- GetInt32(v);
      Success(Bool(n == BoolTrueValue))
    case EnumFromInt =>
      var n :- GetInt32(v);
      Success(Int32(n))
    case SmallIntSetter =>
      var n :- GetInt16(v);
      Success(Int16(n))
    case BoolFromSmallInt =>
      var n :- GetInt16(v);
      Success(Bool(n == BoolTrueValue))
    case EnumFromSmallInt =>
      var n :- GetInt16(v);
      Success(Int16(n))
    case DoubleSetter =>
      var x :- GetDouble(v);
      Success(Double(x))
    case IntFromDouble =>
      var x :- GetDouble(v);
      var n :- ConvertToInt32(x);
      Success(Int32(n))
    case DecimalSetter =>
      var d :- GetDecimal(v);
      Success(Decimal(d.0, d.1))
    case IntFromDecimal =>
      var d :- GetDecimal(v);
      var n :- ConvertToInt32(DecimalReal(d.0, d.1));
      Success(Int32(n))
    case BoolFromDecimal =>
      var d :- GetDecimal(v);
      var n :- ConvertToInt32(DecimalReal(d.0, d.1));
      Success(Bool(n == BoolTrueValue))
    case DoubleFromDecimal =>
      var d :- GetDecimal(v);
      Success(Double(DecimalReal(d.0, d.1)))
    case DateTimeSetter =>
      var ticks :- GetDateTime(v);
      Success(DateTime(ticks))
    case BinarySetter =>
      var data :- GetBinary(row, ordinal);
      Success(if data.Some? then Bytes(data.value) else Null)
    case GuidSetter =>
      var g :- SafeGetGuid(row, ordinal);
      Success(GuidValue(g))
    case SmallIntFromByteSetter =>
      var b :- GetByte(v);
      Success(Int16(b))
    case DefaultSetter =>
      GetValue(v)
  }

  /** Whether the setter writes null for a database null whatever the
      property: the string and byte-array setters have no null guard and
      write what `SafeGetString` or `GetBinary` returns. */
  predicate Unguarded(s: Strategy) {
    s.StringSetter? || s.BinarySetter?
  }

  /** One setter applied to one row: on a database null, a guarded setter
      sets a nullable property to null and leaves any other property as it
      was; otherwise the converted value is written. */
  function ApplySetter(s: PropertySetter, row: Row, obj: Instance): (r: Result<Instance, Fault>)
    ensures r.Success? ==>
      r.value.Keys <= obj.Keys + {s.property.name}
      && forall k :: k in obj && k != s.property.name ==> k in r.value && r.value[k] == obj[k]
  {
    var v :- ColumnValue(row, s.ordinal);
    var name := s.property.name;
    if v == DbNull then
      if Unguarded(s.strategy) || IsPropertyNullable(s.property.typ) then Success(obj[name := Null])
      else Success(obj)
    else
      var x :- Converted(s.strategy, row, s.ordinal, v);
      Success(obj[name := x])
  }

  /** The exception `MakeGenericMethod` throws when the method it is given is
      not a generic method definition (the name of the method that .NET puts
      before this text is left out). */
  const NotGenericMethodFault: Fault :=
    InvalidOperationError("MakeGenericMethod may only be called on a method for which MethodBase.IsGenericMethodDefinition is true.")

  /** The value a setter of the source actually produces. The enum setters
      make the typed read and then ask the `MethodInfo` of the non-generic
      lambda `(o) => (T)o` for a generic instance, which always throws; every
      other setter converts as `Converted` says. */
  function ConvertedAsWritten(strategy: Strategy, row: Row, ordinal: nat, v: Value): (r: Result<Value, Fault>)
    ensures !strategy.EnumFromInt? && !strategy.EnumFromSmallInt? ==> r == Converted(strategy, row, ordinal, v)
    ensures strategy.EnumFromInt? || strategy.EnumFromSmallInt? ==> r.Failure?
  {
    match strategy
    case EnumFromInt =>
      var _ :- GetInt32(v);
      Failure(NotGenericMethodFault)
    case EnumFromSmallInt =>
      var _ :- GetInt16(v);
      Failure(NotGenericMethodFault)
    case _ => Converted(strategy, row, ordinal, v)
  }

  /** One setter applied as written: as `ApplySetter`, with the enum setters
      failing on every value that is not a database null. */
  function ApplySetterAsWritten(s: PropertySetter, row: Row, obj: Instance): (r: Result<Instance, Fault>)
    ensures !s.strategy.EnumFromInt? && !s.strategy.EnumFromSmallInt? ==> r == ApplySetter(s, row, obj)
    ensures s.ordinal < |row.values| && row.values[s.ordinal] == DbNull ==> r == ApplySetter(s, row, obj)
  {
    var v :- ColumnValue(row, s.ordinal);
    var name := s.property.name;
    if v == DbNull then
      if Unguarded(s.strategy) || IsPropertyNullable(s.property.typ) then Success(obj[name := Null])
      else Success(obj)
    else
      var x :- ConvertedAsWritten(s.strategy, row, s.ordinal, v);
      Success(obj[name := x])
  }

  /** As written, an enum setter never writes: a value that the typed read
      accepts ends in the `MakeGenericMethod` failure, and one it refuses in
      the read's own failure. */
  lemma EnumSettersThrowAsWritten(s: PropertySetter, row: Row, obj: Instance)
    requires s.strategy.EnumFromInt? || s.strategy.EnumFromSmallInt?
    requires s.ordinal < |row.values| && row.values[s.ordinal] != DbNull
    ensures ApplySetterAsWritten(s, row, obj).Failure?
    ensures ((s.strategy.EnumFromInt? && GetInt32(row.values[s.ordinal]).Success?)
             || (s.strategy.EnumFromSmallInt? && GetInt16(row.values[s.ordinal]).Success?))
      ==> ApplySetterAsWritten(s, row, obj) == Failure(NotGenericMethodFault)
  {
  }

  /** As intended, an enum setter writes the integer it reads, which is the
      enum member with that underlying value. */
  lemma EnumSetterWritesValue(s: PropertySetter, row: Row, obj: Instance)
    requires s.strategy.EnumFromInt? || s.strategy.EnumFromSmallInt?
    requires s.ordinal < |row.values|
    requires (s.strategy.EnumFromInt? && row.values[s.ordinal].Int32?)
          || (s.strategy.EnumFromSmallInt? && row.values[s.ordinal].Int16?)
    ensures ApplySetter(s, row, obj) == Success(obj[s.property.name := row.values[s.ordinal]])
  {
  }

  /** The null rule: a database null writes null into a nullable property
      (and always through the string and byte-array setters), and leaves a
      non-nullable property untouched. */
  lemma DbNullRule(s: PropertySetter, row: Row, obj: Instance)
    requires s.ordinal < |row.values| && row.values[s.ordinal] == DbNull
    ensures IsPropertyNullable(s.property.typ) || Unguarded(s.strategy) ==>
      ApplySetter(s, row, obj) == Success(obj[s.property.name := Null])
    ensures !IsPropertyNullable(s.property.typ) && !Unguarded(s.strategy) ==>
      ApplySetter(s, row, obj) == Success(obj)
  {
  }

  /** An integer read into a bool property is true exactly when it is 1: a 2
      reads as false. */
  lemma BoolFromIntegerRule(s: PropertySetter, row: Row, obj: Instance)
    requires s.strategy == BoolFromInt || s.strategy == BoolFromSmallInt
    requires s.ordinal < |row.values|
    requires (s.strategy == BoolFromInt && row.values[s.ordinal].Int32?)
          || (s.strategy == BoolFromSmallInt && row.values[s.ordinal].Int16?)
    ensures ApplySetter(s, row, obj) == Success(obj[s.property.name := Bool(row.values[s.ordinal].n == 1)])
  {
  }

  /** A decimal into an int property is rounded to the nearest integer, ties
      to even, and a value that rounds outside Int32 is an overflow. */
  lemma DecimalToIntRule(s: PropertySetter, row: Row, obj: Instance)
    requires s.strategy == IntFromDecimal && s.ordinal < |row.values| && row.values[s.ordinal].Decimal?
    ensures var v := row.values[s.ordinal];
      var exact := DecimalReal(v.unscaled, v.scale);
      var r := ApplySetter(s, row, obj);
      (r.Success? ==> r.value[s.property.name].Int32?
                      && exact - 0.5 <= r.value[s.property.name].n as real <= exact + 0.5)
      && (r.Failure? <==> !IsInt32(RoundHalfEven(exact)))
  {
  }

  /** Two and a half becomes 2 and three and a half becomes 4. */
  lemma DecimalTiesGoToEven(s: PropertySetter, obj: Instance)
    requires s.strategy == IntFromDecimal && s.ordinal == 0
    ensures ApplySetter(s, Row("SqlDataReader", [], [Decimal(25, 1)]), obj) == Success(obj[s.property.name := Int32(2)])
    ensures ApplySetter(s, Row("SqlDataReader", [], [Decimal(35, 1)]), obj) == Success(obj[s.property.name := Int32(4)])
  {
    assert Pow10(1) == 10;
    assert DecimalReal(25, 1) == 2.5 && (2.5).Floor == 2;
    assert DecimalReal(35, 1) == 3.5 && (3.5).Floor == 3;
  }

  // ---------------------------------------------------------------------------
  // The plan

  /** The setter `getPropertySetters` adds for the column at `i`: none for
      a column whose upper-cased name is not a key of the map. */
  function SetterFor(columns: seq<Column>, aliasMap: map<string, Property>, i: nat): (r: Result<Option<PropertySetter>, Fault>)
    requires i < |columns|
    ensures r.Failure? <==> RefusedColumn(columns, aliasMap, i)
    ensures r == Success(None) <==> ToUpper(columns[i].name) !in aliasMap
    ensures r.Success? && r.value.Some? ==>
      var s := r.value.value;
      s.ordinal == i && s.columnName == ToUpper(columns[i].name)
      && s.columnName in aliasMap && s.property == aliasMap[s.columnName]
      && SetterMethod(columns[i], s.property.typ) == Success(s.strategy)
  {
    var key := ToUpper(columns[i].name);
    if key !in aliasMap then Success(None)
    else
      var strategy :- SetterMethod(columns[i], aliasMap[key].typ);
      Success(Some(PropertySetter(key, i, aliasMap[key], strategy)))
  }

  /** The plan for a result shape: one setter per column whose upper-cased
      name is a key of the map, in ordinal order, or the first refusal. */
  function Plan(columns: seq<Column>, aliasMap: map<string, Property>): Result<seq<PropertySetter>, Fault>
    decreases |columns|
  {
    if |columns| == 0 then Success([])
    else
      var setters :- Plan(columns[..|columns| - 1], aliasMap);
      var next :- SetterFor(columns, aliasMap, |columns| - 1);
      Success(if next.Some? then setters + [next.value] else setters)
  }

  /** A setter of the plan describes its column: it is the one
      `getPropertySetters` makes for the column at its ordinal. */
  predicate DescribesColumn(s: PropertySetter, columns: seq<Column>, aliasMap: map<string, Property>) {
    s.ordinal < |columns| && SetterFor(columns, aliasMap, s.ordinal) == Success(Some(s))
  }

  predicate PlanFor(plan: seq<PropertySetter>, columns: seq<Column>, aliasMap: map<string, Property>) {
    (forall k :: 0 <= k < |plan| ==> DescribesColumn(plan[k], columns, aliasMap))
    && (forall k, l :: 0 <= k < l < |plan| ==> plan[k].ordinal < plan[l].ordinal)
    && (forall i :: 0 <= i < |columns| && ToUpper(columns[i].name) in aliasMap ==>
          exists k :: 0 <= k < |plan| && plan[k].ordinal == i)
  }

  /** The column at `i` is mapped and its property cannot take it. */
  predicate RefusedColumn(columns: seq<Column>, aliasMap: map<string, Property>, i: int) {
    0 <= i < |columns| && ToUpper(columns[i].name) in aliasMap
    && SetterMethod(columns[i], aliasMap[ToUpper(columns[i].name)].typ).Failure?
  }

  /** Building the plan fails exactly on a mapped binary column whose property
      cannot take bytes. */
  lemma {:induction false} PlanFailsOnRefusedColumn(columns: seq<Column>, aliasMap: map<string, Property>)
    ensures Plan(columns, aliasMap).Failure? <==> exists i :: RefusedColumn(columns, aliasMap, i)
    decreases |columns|
  {
    if |columns| > 0 {
      var init := columns[..|columns| - 1];
      PlanFailsOnRefusedColumn(init, aliasMap);
      RefusedColumnSnoc(init, columns, aliasMap);
    }
  }

  /** A refused column of a list is a refused column of all but its last
      column, or the last column itself. */
  lemma RefusedColumnSnoc(init: seq<Column>, columns: seq<Column>, aliasMap: map<string, Property>)
    requires |columns| > 0 && init == columns[..|columns| - 1]
    ensures (exists i :: RefusedColumn(columns, aliasMap, i)) <==>
      (exists i :: RefusedColumn(init, aliasMap, i)) || RefusedColumn(columns, aliasMap, |init|)
  {
    if exists j :: RefusedColumn(columns, aliasMap, j) {
      var j :| RefusedColumn(columns, aliasMap, j);
      if j < |init| {
        assert init[j] == columns[j];
        assert RefusedColumn(init, aliasMap, j);
      }
    }
    if exists j :: RefusedColumn(init, aliasMap, j) {
      var j :| RefusedColumn(init, aliasMap, j);
      assert init[j] == columns[j];
      assert RefusedColumn(columns, aliasMap, j);
    }
  }

  /** The setter for a column does not depend on the columns after it. */
  lemma SetterForPrefix(init: seq<Column>, columns: seq<Column>, aliasMap: map<string, Property>, j: nat)
    requires j < |init| <= |columns| && init == columns[..|init|]
    ensures SetterFor(init, aliasMap, j) == SetterFor(columns, aliasMap, j)
  {
    assert init[j] == columns[j];
  }

  /** One more column keeps a plan in step with its columns. */
  lemma PlanStep(setters: seq<PropertySetter>, columns: seq<Column>, aliasMap: map<string, Property>)
    requires |columns| > 0
    requires PlanFor(setters, columns[..|columns| - 1], aliasMap)
    requires Plan(columns, aliasMap).Success? && Plan(columns[..|columns| - 1], aliasMap) == Success(setters)
    ensures PlanFor(Plan(columns, aliasMap).value, columns, aliasMap)
  {
    var init := columns[..|columns| - 1];
    var i := |columns| - 1;
    var plan := Plan(columns, aliasMap).value;
    var next := SetterFor(columns, aliasMap, i).value;
    assert plan == if next.Some? then setters + [next.value] else setters;
    forall k | 0 <= k < |setters| ensures DescribesColumn(setters[k], columns, aliasMap) && setters[k].ordinal < i {
      SetterForPrefix(init, columns, aliasMap, setters[k].ordinal);
    }
    forall j | 0 <= j < |columns| && ToUpper(columns[j].name) in aliasMap
      ensures exists k :: 0 <= k < |plan| && plan[k].ordinal == j
    {
      if j == i {
        assert plan[|setters|].ordinal == j;
      } else {
        SetterForPrefix(init, columns, aliasMap, j);
        assert init[j] == columns[j];
        var k :| 0 <= k < |setters| && setters[k].ordinal == j;
        assert plan[k].ordinal == j;
      }
    }
  }

  /** A plan that is built has one setter for each mapped column, in ordinal
      order, and none for an unmapped column. */
  lemma {:induction false} PlanCoversMappedColumns(columns: seq<Column>, aliasMap: map<string, Property>)
    ensures Plan(columns, aliasMap).Success? ==> PlanFor(Plan(columns, aliasMap).value, columns, aliasMap)
    decreases |columns|
  {
    if |columns| > 0 && Plan(columns, aliasMap).Success? {
      var init := columns[..|columns| - 1];
      PlanCoversMappedColumns(init, aliasMap);
      PlanStep(Plan(init, aliasMap).value, columns, aliasMap);
    }
  }

  /** `DataReaderPropertySetters<T>`: the plan for one reader, built against
      an object map. */
  class DataReaderPropertySetters {
    const objectMap: ObjectMap
    var setters: seq<PropertySetter>

    constructor Init(objectMap: ObjectMap)
      ensures this.objectMap == objectMap && setters == []
    {
      this.objectMap := objectMap;
      setters := [];
    }

    /** `DataReaderPropertySetters(dr, map)`: builds the plan for the reader's
        columns; a refused binary column makes the constructor throw. */
    static method Create(columns: seq<Column>, objectMap: ObjectMap) returns (r: Result<DataReaderPropertySetters, Fault>)
      ensures var plan := Plan(columns, objectMap.aliasToProperty);
        (r.Success? <==> plan.Success?)
        && (r.Failure? ==> r.error == plan.error)
        && (r.Success? ==> fresh(r.value) && r.value.objectMap == objectMap && r.value.setters == plan.value)
    {
      var built := new DataReaderPropertySetters.Init(objectMap);
      var outcome := built.GetPropertySetters(columns);
      if outcome.Fail? {
        r := Failure(outcome.error);
      } else {
        r := Success(built);
      }
    }

    /** `getPropertySetters`: walks the columns in ordinal order and appends a
        setter for each one whose upper-cased name is a key of the map. */
    method GetPropertySetters(columns: seq<Column>) returns (r: Outcome<Fault>)
      requires setters == []
      modifies this`setters
      ensures var plan := Plan(columns, objectMap.aliasToProperty);
        (r == Pass <==> plan.Success?)
        && (r.Fail? ==> r.error == plan.error)
        && (r == Pass ==> setters == plan.value)
    {
      var aliasMap := objectMap.aliasToProperty;
      var i := 0;
      while i < |columns|
        invariant 0 <= i <= |columns|
        invariant Plan(columns[..i], aliasMap) == Success(setters)
      {
        assert columns[..i + 1][..i] == columns[..i];
        var columnName := ToUpper(columns[i].name);
        if columnName in aliasMap {
          var strategy := SetterMethod(columns[i], aliasMap[columnName].typ);
          if strategy.Failure? {
            PlanFailureIsFinal(columns, aliasMap, i + 1);
            return Fail(strategy.error);
          }
          setters := setters + [PropertySetter(columnName, i, aliasMap[columnName], strategy.value)];
        }
        i := i + 1;
      }
      assert columns[..i] == columns;
      r := Pass;
    }
  }

  /** A plan refused on a prefix of the columns is refused the same way on all
      of them. */
  lemma {:induction false} PlanFailureIsFinal(columns: seq<Column>, aliasMap: map<string, Property>, k: nat)
    requires k <= |columns| && Plan(columns[..k], aliasMap).Failure?
    ensures Plan(columns, aliasMap) == Plan(columns[..k], aliasMap)
    decreases |columns| - k
  {
    if k < |columns| {
      assert columns[..k + 1][..k] == columns[..k];
      PlanFailureIsFinal(columns, aliasMap, k + 1);
    } else {
      assert columns[..k] == columns;
    }
  }

  /** `DataReaderPropertySetters(dr)`: the object map of the model type is
      built first, and its own failure is the constructor's. */
  method SettersForType(columns: seq<Column>, t: ModelType) returns (r: Result<DataReaderPropertySetters, Fault>)
    ensures var tables := MapProperties(MappedProperties(t.properties));
      (tables.Failure? ==> r == Failure(tables.error))
      && (tables.Success? ==>
            var plan := Plan(columns, tables.value.aliasToProperty);
            (r.Success? <==> plan.Success?)
            && (r.Failure? ==> r.error == plan.error)
            && (r.Success? ==> r.value.setters == plan.value))
  {
    var m := ObjectMap.Create(t, None);
    if m.Failure? {
      return Failure(m.error);
    }
    r := DataReaderPropertySetters.Create(columns, m.value);
  }
}

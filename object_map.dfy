/** `ObjectMap<T>`: the tables from column keys to properties and from
    property names to column keys, built once from a model type's
    attributes. Reflection is replaced by an explicit description of the
    type: its `Table` attribute, its properties with their `Alias` attributes,
    and the property values a freshly constructed object holds. */
module ObjectMapping {
  import opened Wrappers
  import opened Text
  import opened Ado
  import opened PropertyTypes

  /** A property as reflection reports it. */
  datatype Property = Property(
    name: string,
    alias: Option<string>,
    typ: TypeDesc,
    isPublic: bool,
    isStatic: bool,
    canWrite: bool)

  /** A materialised object, as the values of its properties. */
  type Instance = map<string, Value>

  /** A model type: its `Table` attribute, its properties in reflection order,
      and the property values `new T()` produces. */
  datatype ModelType = ModelType(
    name: string,
    tableAttribute: Option<string>,
    properties: seq<Property>,
    defaults: Instance)

  /** `new T()`. */
  function NewInstance(t: ModelType): Instance {
    t.defaults
  }

  /** The column key of a property: its alias verbatim, else its name in
      upper case. */
  function ColumnKey(p: Property): (key: string)
    ensures p.alias.Some? ==> key == p.alias.value
    ensures p.alias.None? ==> key == ToUpper(p.name) && |key| == |p.name|
  {
    match p.alias
    case Some(a) => a
    case None => ToUpper(p.name)
  }

  /** `GetProperties(Public | Instance).Where(p => p.CanWrite)`. */
  predicate IsMapped(p: Property) {
    p.isPublic && !p.isStatic && p.canWrite
  }

  function MappedProperties(ps: seq<Property>): (r: seq<Property>)
    ensures forall p :: p in r <==> p in ps && IsMapped(p)
    decreases |ps|
  {
    if |ps| == 0 then []
    else if IsMapped(ps[0]) then [ps[0]] + MappedProperties(ps[1..])
    else MappedProperties(ps[1..])
  }

  /** The two dictionaries of an object map. */
  datatype Tables = Tables(aliasToProperty: map<string, Property>, propertyToColumn: map<string, string>)

  function DuplicateKeyFault(key: string): Fault {
    ArgumentError("An item with the same key has already been added. Key: " + key)
  }

  /** `mapProperty`: `Dictionary.Add` into each table, failing on a key that is
      already present. */
  function AddProperty(t: Tables, p: Property): (r: Result<Tables, Fault>)
    ensures r.Success? <==> ColumnKey(p) !in t.aliasToProperty && p.name !in t.propertyToColumn
    ensures r.Success? ==>
      r.value.aliasToProperty == t.aliasToProperty[ColumnKey(p) := p]
      && r.value.propertyToColumn == t.propertyToColumn[p.name := ColumnKey(p)]
  {
    var key := ColumnKey(p);
    if key in t.aliasToProperty then Failure(DuplicateKeyFault(key))
    else if p.name in t.propertyToColumn then Failure(DuplicateKeyFault(p.name))
    else Success(Tables(t.aliasToProperty[key := p], t.propertyToColumn[p.name := key]))
  }

  /** The tables after mapping the properties in order, or the first failure. */
  function MapProperties(ps: seq<Property>): Result<Tables, Fault>
    decreases |ps|
  {
    if |ps| == 0 then Success(Tables(map[], map[]))
    else
      match MapProperties(ps[..|ps| - 1])
      case Failure(e) => Failure(e)
      case Success(t) => AddProperty(t, ps[|ps| - 1])
  }

  /** No two properties share a column key, and no two share a name. */
  predicate DistinctKeys(ps: seq<Property>) {
    forall i, j :: 0 <= i < j < |ps| ==> ColumnKey(ps[i]) != ColumnKey(ps[j]) && ps[i].name != ps[j].name
  }

  /** What the tables hold after mapping `ps`. */
  predicate TablesDescribe(t: Tables, ps: seq<Property>) {
    t.aliasToProperty.Keys == (set p | p in ps :: ColumnKey(p))
    && t.propertyToColumn.Keys == (set p | p in ps :: p.name)
    && forall p :: p in ps ==> t.aliasToProperty[ColumnKey(p)] == p && t.propertyToColumn[p.name] == ColumnKey(p)
  }

  /** Distinctness of a list extended by one property. */
  lemma DistinctKeysSnoc(init: seq<Property>, last: Property)
    ensures DistinctKeys(init + [last]) <==>
      DistinctKeys(init) && forall p :: p in init ==> ColumnKey(p) != ColumnKey(last) && p.name != last.name
  {
    var ps := init + [last];
    if DistinctKeys(ps) {
      forall i, j | 0 <= i < j < |init|
        ensures ColumnKey(init[i]) != ColumnKey(init[j]) && init[i].name != init[j].name
      {
        assert init[i] == ps[i] && init[j] == ps[j];
      }
      forall p | p in init ensures ColumnKey(p) != ColumnKey(last) && p.name != last.name {
        var i :| 0 <= i < |init| && init[i] == p;
        assert ps[i] == p && ps[|init|] == last;
      }
    }
  }

  /** Adding a property whose key and name are new keeps the tables in step
      with the list. */
  lemma DescribeStep(t: Tables, init: seq<Property>, last: Property)
    requires TablesDescribe(t, init)
    requires ColumnKey(last) !in t.aliasToProperty && last.name !in t.propertyToColumn
    ensures TablesDescribe(AddProperty(t, last).value, init + [last])
  {
    var ps := init + [last];
    assert forall p :: p in ps <==> p in init || p == last;
    var u := AddProperty(t, last).value;
    assert u.aliasToProperty.Keys == (set p | p in ps :: ColumnKey(p));
    assert u.propertyToColumn.Keys == (set p | p in ps :: p.name);
    forall p | p in ps
      ensures u.aliasToProperty[ColumnKey(p)] == p && u.propertyToColumn[p.name] == ColumnKey(p)
    {
      if p != last {
        assert ColumnKey(p) in t.aliasToProperty && p.name in t.propertyToColumn;
      }
    }
  }

  /** Mapping succeeds exactly when column keys and names are all distinct, and
      then each property is reachable from its key and its name. */
  lemma {:induction false} MapPropertiesSpec(ps: seq<Property>)
    ensures MapProperties(ps).Success? <==> DistinctKeys(ps)
    ensures MapProperties(ps).Success? ==> TablesDescribe(MapProperties(ps).value, ps)
    decreases |ps|
  {
    if |ps| > 0 {
      var init := ps[..|ps| - 1];
      var last := ps[|ps| - 1];
      MapPropertiesSpec(init);
      assert ps == init + [last];
      DistinctKeysSnoc(init, last);
      if MapProperties(init).Success? {
        var t := MapProperties(init).value;
        assert ColumnKey(last) in t.aliasToProperty <==> exists p :: p in init && ColumnKey(p) == ColumnKey(last);
        assert last.name in t.propertyToColumn <==> exists p :: p in init && p.name == last.name;
        if AddProperty(t, last).Success? {
          DescribeStep(t, init, last);
        }
      }
    }
  }

  /** Only public, instance, writable properties get a column key. */
  lemma OnlyWritablePropertiesAreMapped(t: ModelType)
    requires MapProperties(MappedProperties(t.properties)).Success?
    ensures var tables := MapProperties(MappedProperties(t.properties)).value;
      forall p :: p in t.properties && IsMapped(p) ==> ColumnKey(p) in tables.aliasToProperty && tables.aliasToProperty[ColumnKey(p)] == p
    ensures var tables := MapProperties(MappedProperties(t.properties)).value;
      forall key :: key in tables.aliasToProperty ==> IsMapped(tables.aliasToProperty[key]) && tables.aliasToProperty[key] in t.properties
  {
    MapPropertiesSpec(MappedProperties(t.properties));
  }

  class ObjectMap {
    const sourceType: ModelType
    var sourceObject: Option<Instance>
    var tableName: Option<string>
    var aliasToProperty: map<string, Property>
    var propertyToColumn: map<string, string>

    /** The allocation part of both constructors: `ObjectMap()` passes no
        object, `ObjectMap(T)` the object to map. */
    constructor Init(sourceType: ModelType, sourceObject: Option<Instance>)
      ensures this.sourceType == sourceType && this.sourceObject == sourceObject
      ensures tableName == None && aliasToProperty == map[] && propertyToColumn == map[]
    {
      this.sourceType := sourceType;
      this.sourceObject := sourceObject;
      tableName := None;
      aliasToProperty := map[];
      propertyToColumn := map[];
    }

    /** The constructors: allocate, then `configureMapping`; a failing mapping
        makes the constructor throw. */
    static method Create(sourceType: ModelType, sourceObject: Option<Instance>) returns (r: Result<ObjectMap, Fault>)
      ensures var tables := MapProperties(MappedProperties(sourceType.properties));
        (r.Success? <==> tables.Success?)
        && (r.Failure? ==> r.error == tables.error)
        && (r.Success? ==>
              fresh(r.value) && r.value.sourceType == sourceType && r.value.sourceObject == sourceObject
              && r.value.tableName == sourceType.tableAttribute
              && Tables(r.value.aliasToProperty, r.value.propertyToColumn) == tables.value)
    {
      var m := new ObjectMap.Init(sourceType, sourceObject);
      var outcome := m.ConfigureMapping();
      if outcome.Fail? {
        r := Failure(outcome.error);
      } else {
        r := Success(m);
      }
    }

    /** `getTableName`: set only when the type carries a `Table` attribute. */
    method GetTableName()
      modifies this`tableName
      ensures sourceType.tableAttribute.Some? ==> tableName == sourceType.tableAttribute
      ensures sourceType.tableAttribute.None? ==> tableName == old(tableName)
    {
      if sourceType.tableAttribute.Some? {
        tableName := sourceType.tableAttribute;
      }
    }

    /** `mapProperty`: adds the column key first, so a clash on the property
        name leaves the alias entry in place. */
    method MapProperty(p: Property) returns (r: Outcome<Fault>)
      modifies this`aliasToProperty, this`propertyToColumn
      ensures var added := AddProperty(Tables(old(aliasToProperty), old(propertyToColumn)), p);
        (r == Pass <==> added.Success?)
        && (r.Fail? ==> r.error == added.error)
        && (added.Success? ==> Tables(aliasToProperty, propertyToColumn) == added.value)
      ensures ColumnKey(p) in old(aliasToProperty) ==>
        aliasToProperty == old(aliasToProperty) && propertyToColumn == old(propertyToColumn)
    {
      var key := ColumnKey(p);
      if key in aliasToProperty {
        return Fail(DuplicateKeyFault(key));
      }
      aliasToProperty := aliasToProperty[key := p];
      if p.name in propertyToColumn {
        return Fail(DuplicateKeyFault(p.name));
      }
      propertyToColumn := propertyToColumn[p.name := key];
      r := Pass;
    }

    /** `configureMapping`: the table name, then every mapped property in
        reflection order. */
    method ConfigureMapping() returns (r: Outcome<Fault>)
      requires aliasToProperty == map[] && propertyToColumn == map[]
      modifies this`tableName, this`aliasToProperty, this`propertyToColumn
      ensures sourceType.tableAttribute.Some? ==> tableName == sourceType.tableAttribute
      ensures sourceType.tableAttribute.None? ==> tableName == old(tableName)
      ensures var tables := MapProperties(MappedProperties(sourceType.properties));
        (r == Pass <==> tables.Success?)
        && (r.Fail? ==> r.error == tables.error)
        && (r == Pass ==> Tables(aliasToProperty, propertyToColumn) == tables.value)
    {
      GetTableName();
      r := MapEachProperty(MappedProperties(sourceType.properties));
    }

    /** The loop of `configureMapping`: `mapProperty` for each property in
        turn, stopping at the first that throws. */
    method MapEachProperty(ps: seq<Property>) returns (r: Outcome<Fault>)
      requires aliasToProperty == map[] && propertyToColumn == map[]
      modifies this`aliasToProperty, this`propertyToColumn
      ensures (r == Pass <==> MapProperties(ps).Success?)
      ensures r.Fail? ==> r.error == MapProperties(ps).error
      ensures r == Pass ==> Tables(aliasToProperty, propertyToColumn) == MapProperties(ps).value
    {
      var i := 0;
      while i < |ps|
        invariant 0 <= i <= |ps|
        invariant MapProperties(ps[..i]) == Success(Tables(aliasToProperty, propertyToColumn))
      {
        MapPropertiesStep(ps, i, Tables(aliasToProperty, propertyToColumn));
        var outcome := MapProperty(ps[i]);
        if outcome.Fail? {
          MapFailureIsFinal(ps, i + 1);
          return outcome;
        }
        i := i + 1;
      }
      assert ps[..i] == ps;
      r := Pass;
    }

    /** `SourceObject`: created on first access and reused afterwards. */
    method SourceObject() returns (o: Instance)
      modifies this`sourceObject
      ensures old(sourceObject).Some? ==> o == old(sourceObject).value && sourceObject == old(sourceObject)
      ensures old(sourceObject).None? ==> o == NewInstance(sourceType) && sourceObject == Some(o)
    {
      if sourceObject.None? {
        sourceObject := Some(NewInstance(sourceType));
      }
      o := sourceObject.value;
    }
  }

  /** One more property: the tables so far with that property added. */
  lemma MapPropertiesStep(ps: seq<Property>, i: nat, t: Tables)
    requires i < |ps| && MapProperties(ps[..i]) == Success(t)
    ensures MapProperties(ps[..i + 1]) == AddProperty(t, ps[i])
  {
    assert ps[..i + 1][..i] == ps[..i];
  }

  /** A mapping that fails on a prefix fails the same way on the whole list. */
  lemma {:induction false} MapFailureIsFinal(ps: seq<Property>, k: nat)
    requires k <= |ps| && MapProperties(ps[..k]).Failure?
    ensures MapProperties(ps) == MapProperties(ps[..k])
    decreases |ps| - k
  {
    if k < |ps| {
      assert ps[..k + 1][..k] == ps[..k];
      MapFailureIsFinal(ps, k + 1);
    } else {
      assert ps[..k] == ps;
    }
  }

  /** Two calls of `SourceObject` return the same object, and the first one
      on a map built without an object is `new T()`. */
  method SourceObjectIsCached(m: ObjectMap) returns (first: Instance, second: Instance)
    modifies m`sourceObject
    ensures first == second
    ensures old(m.sourceObject).None? ==> first == NewInstance(m.sourceType)
  {
    first := m.SourceObject();
    second := m.SourceObject();
  }
}

/** The reflection tests the ORM makes on a property's type, over an explicit
    description of the type in place of `System.Type`. */
module PropertyTypes {

  /** The underlying type of a property. */
  datatype BaseType =
    | BoolType
    | Int16Type
    | Int32Type
    | DoubleType
    | DecimalType
    | GuidType
    | DateTimeType
    | ByteType
    | EnumType(enumName: string)
    | StructType(structName: string)
    | StringType
    | ByteArrayType
    | ClassType(className: string)

  /** A property type: the base type itself, or `Nullable<>` of it. */
  datatype TypeDesc = Plain(base: BaseType) | NullableOf(base: BaseType)

  /** Whether a base type is a .NET value type (a struct or an enum). */
  predicate IsValueBase(b: BaseType) {
    !(b.StringType? || b.ByteArrayType? || b.ClassType?)
  }

  /** `Nullable<>` only wraps value types. */
  predicate WellFormed(t: TypeDesc) {
    t.NullableOf? ==> IsValueBase(t.base)
  }

  /** `Type.IsValueType`: every `Nullable<>` is itself a value type. */
  predicate IsValueType(t: TypeDesc) {
    t.NullableOf? || IsValueBase(t.base)
  }

  /** `PropertyType.GetTypeInfo().BaseType == typeof(Enum)`: true only of an
      enum type itself, since the base type of `Nullable<E>` is `ValueType`. */
  predicate BaseTypeIsEnum(t: TypeDesc) {
    t.Plain? && t.base.EnumType?
  }

  function BaseName(b: BaseType): string {
    match b
    case BoolType => "System.Boolean"
    case Int16Type => "System.Int16"
    case Int32Type => "System.Int32"
    case DoubleType => "System.Double"
    case DecimalType => "System.Decimal"
    case GuidType => "System.Guid"
    case DateTimeType => "System.DateTime"
    case ByteType => "System.Byte"
    case EnumType(n) => n
    case StructType(n) => n
    case StringType => "System.String"
    case ByteArrayType => "System.Byte[]"
    case ClassType(n) => n
  }

  /** `Type.FullName`, without the assembly qualification of a generic
      argument. */
  function FullName(t: TypeDesc): string {
    match t
    case Plain(b) => BaseName(b)
    case NullableOf(b) => "System.Nullable`1[[" + BaseName(b) + "]]"
  }

  /** `IsEnumProperty`: an enum, or `Nullable<>` of one. No other type test
      holds together with it. */
  predicate IsEnumProperty(t: TypeDesc): (b: bool)
    ensures b <==> t.base.EnumType?
    ensures b ==> !IsBoolProperty(t) && !IsIntProperty(t) && !IsDoubleProperty(t) && !IsGuidProperty(t)
  {
    BaseTypeIsEnum(t) || (t.NullableOf? && t.base.EnumType?)
  }

  /** The four scalar tests: each holds exactly for its type and `Nullable<>`
      of it, so at most one of them holds for any type. */
  predicate IsBoolProperty(t: TypeDesc): (b: bool)
    ensures b <==> t.base == BoolType
  {
    t == Plain(BoolType) || t == NullableOf(BoolType)
  }

  predicate IsIntProperty(t: TypeDesc): (b: bool)
    ensures b <==> t.base == Int32Type
  {
    t == Plain(Int32Type) || t == NullableOf(Int32Type)
  }

  predicate IsDoubleProperty(t: TypeDesc): (b: bool)
    ensures b <==> t.base == DoubleType
  {
    t == Plain(DoubleType) || t == NullableOf(DoubleType)
  }

  predicate IsGuidProperty(t: TypeDesc): (b: bool)
    ensures b <==> t.base == GuidType
  {
    t == Plain(GuidType) || t == NullableOf(GuidType)
  }

  /** `IsPropertyNullable`: a reference type or a `Nullable<>`; a plain value
      type, a plain enum among them, never is. */
  predicate IsPropertyNullable(t: TypeDesc): (b: bool)
    ensures b <==> t.NullableOf? || !IsValueBase(t.base)
    ensures t.Plain? && IsValueBase(t.base) ==> !b
  {
    !IsValueType(t) || t.NullableOf?
  }
}

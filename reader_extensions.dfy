/** The `DbDataReader` extension methods: getters that turn a database null
    into a C# null, a default or `Guid.Empty`, and fall back from one typed
    read to another. Each reads one column of the row the reader is on. */
module ReaderExtensions {
  import opened Wrappers
  import opened Text
  import opened Ado
  import CommandExtensions

  // ---------------------------------------------------------------------------
  // Columns

  predicate NameMatches(c: Column, name: string, ignoreCase: bool) {
    if ignoreCase then EqualsIgnoreCase(c.name, name) else c.name == name
  }

  function FirstColumn(cols: seq<Column>, name: string, ignoreCase: bool): (r: Option<nat>)
    ensures r.Some? ==>
      r.value < |cols| && NameMatches(cols[r.value], name, ignoreCase)
      && forall j :: 0 <= j < r.value ==> !NameMatches(cols[j], name, ignoreCase)
    ensures r.None? ==> forall j :: 0 <= j < |cols| ==> !NameMatches(cols[j], name, ignoreCase)
    decreases |cols|
  {
    if |cols| == 0 then None
    else if NameMatches(cols[0], name, ignoreCase) then Some(0)
    else match FirstColumn(cols[1..], name, ignoreCase)
      case None => None
      case Some(i) => Some(i + 1)
  }

  /** `GetOrdinal`: the first column with exactly this name, else the first
      whose name matches ignoring case; an unknown name is out of range. */
  function GetOrdinal(row: Row, name: string): (r: Result<nat, Fault>)
    ensures r.Success? ==> r.value < |row.columns| && EqualsIgnoreCase(row.columns[r.value].name, name)
    ensures r.Failure? <==> forall j :: 0 <= j < |row.columns| ==> !EqualsIgnoreCase(row.columns[j].name, name)
  {
    match FirstColumn(row.columns, name, false)
    case Some(i) => Success(i)
    case None =>
      match FirstColumn(row.columns, name, true)
      case Some(i) => Success(i)
      case None => Failure(IndexOutOfRangeError(name))
  }

  /** The value at an ordinal; any read of an ordinal outside the row fails. */
  function ColumnValue(row: Row, ordinal: int): (r: Result<Value, Fault>)
    ensures r.Success? <==> 0 <= ordinal < |row.values|
    ensures r.Success? ==> r.value == row.values[ordinal]
  {
    if 0 <= ordinal < |row.values| then Success(row.values[ordinal])
    else Failure(IndexOutOfRangeError("Index was outside the bounds of the array."))
  }

  // ---------------------------------------------------------------------------
  // Strings and values

  /** `SafeGetString(ordinal)`: null for a database null, else `GetString`. */
  function SafeGetString(row: Row, ordinal: int): (r: Result<Option<string>, Fault>)
    ensures ColumnValue(row, ordinal).Success? ==>
      var v := row.values[ordinal];
      (r == Success(None) <==> v == DbNull)
      && (v.Str? ==> r == Success(Some(v.s)))
      && (v != DbNull && !v.Str? ==> r.Failure?)
  {
    var v :- ColumnValue(row, ordinal);
    if v == DbNull then Success(None)
    else
      var s :- GetString(v);
      Success(Some(s))
  }

  /** `SafeGetString(columnName)`: an unknown name fails before any read. */
  function SafeGetStringByName(row: Row, name: string): (r: Result<Option<string>, Fault>)
    ensures GetOrdinal(row, name).Failure? ==> r == Failure(GetOrdinal(row, name).error)
    ensures GetOrdinal(row, name).Success? ==> r == SafeGetString(row, GetOrdinal(row, name).value)
  {
    var ordinal :- GetOrdinal(row, name);
    SafeGetString(row, ordinal)
  }

  /** `GetString(name)`, which tests for a database null itself before calling
      `SafeGetString`. */
  function GetStringByName(row: Row, name: string): Result<Option<string>, Fault> {
    var ordinal :- GetOrdinal(row, name);
    var v :- ColumnValue(row, ordinal);
    if v == DbNull then Success(None) else SafeGetString(row, ordinal)
  }

  /** The two by-name string getters always agree: the extra null test is
      redundant. */
  lemma StringGettersAgree(row: Row, name: string)
    ensures GetStringByName(row, name) == SafeGetStringByName(row, name)
  {
  }

  /** `SafeGetValue`: null for a database null, else `GetValue`. */
  function SafeGetValue(row: Row, ordinal: int): (r: Result<Option<Value>, Fault>)
    ensures ColumnValue(row, ordinal).Success? ==>
      var v := row.values[ordinal];
      (r == Success(None) <==> v == DbNull)
      && (v != DbNull && !v.Unreadable? ==> r == Success(Some(v)))
  {
    var v :- ColumnValue(row, ordinal);
    if v == DbNull then Success(None)
    else
      var x :- GetValue(v);
      Success(Some(x))
  }

  // ---------------------------------------------------------------------------
  // Integers

  function Pow10(n: nat): (p: nat)
    ensures p >= 1
  {
    if n == 0 then 1 else 10 * Pow10(n - 1)
  }

  function ZeroPad(s: string, width: nat): (r: string)
    ensures |r| >= |s| && r[|r| - |s|..] == s
  {
    if |s| >= width then s else seq(width - |s|, _ => '0') + s
  }

  /** The text of a decimal of the given sign and magnitude, whose scale is
      `scale` and whose unit is `unit` (ten to the scale). */
  function FractionText(sign: string, magnitude: nat, unit: nat, scale: nat): (t: string)
    requires unit > 0
    ensures '.' in t
  {
    var w := NatToString(magnitude / unit);
    var f := NatToString(magnitude % unit);
    var t := sign + w + "." + ZeroPad(f, scale);
    assert t[|sign| + |w|] == '.';
    t
  }

  /** `decimal.ToString()`: the scale is kept, so a non-zero scale always
      prints a decimal point. */
  function DecimalText(unscaled: int, scale: nat): (t: string)
    ensures scale > 0 ==> '.' in t
    ensures scale == 0 ==> t == IntToString(unscaled)
  {
    if scale == 0 then IntToString(unscaled)
    else if unscaled < 0 then FractionText("-", -unscaled, Pow10(scale), scale)
    else FractionText("", unscaled, Pow10(scale), scale)
  }

  /** `GetValue(ordinal).ToString()` in the invariant culture, for the values
      whose text can be an integer literal. `None` stands for a text that
      always contains something other than digits and a leading sign: a
      fractional or exponent double, a date, a GUID, `System.Byte[]`. */
  function ValueText(v: Value): Option<string> {
    match v
    case Str(s) => Some(s)
    case Bool(b) => Some(if b then "True" else "False")
    case Byte(o) => Some(IntToString(o))
    case Int16(n) => Some(IntToString(n))
    case Int32(n) => Some(IntToString(n))
    case Decimal(u, scale) => Some(DecimalText(u, scale))
    case Double(x) => if x == x.Floor as real && IsInt32(x.Floor) then Some(IntToString(x.Floor)) else None
    case _ => None
  }

  /** `SafeGetInt32`'s decision with the value that an unparsable text yields
      as a parameter: a database null gives the default; an invalid cast falls
      back to parsing the value's text; any other failure gives the default. */
  function SafeGetInt32With(row: Row, ordinal: int, defaultVal: int, unparsable: int): Result<int, Fault> {
    var v :- ColumnValue(row, ordinal);
    if v == DbNull then Success(defaultVal)
    else match GetInt32(v)
      case Success(n) => Success(n)
      case Failure(e) =>
        if e != CastFault() then Success(defaultVal)
        else if v == Null then Failure(NullReferenceError)
        else match ValueText(v)
          case None => Success(unparsable)
          case Some(text) => Success(ParseInt32(text).GetOr(unparsable))
  }

  /** `SafeGetInt32` as written: `int.TryParse` overwrites the preset default
      with 0 when the text does not parse. */
  function SafeGetInt32(row: Row, ordinal: int, defaultVal: int): (r: Result<int, Fault>)
    ensures ColumnValue(row, ordinal).Success? ==>
      var v := row.values[ordinal];
      (v == DbNull || v.Unreadable? ==> r == Success(defaultVal))
      && (v.Int32? ==> r == Success(v.n))
      && (v == Null ==> r == Failure(NullReferenceError))
      && (v.Str? ==> r == Success(ParseInt32(v.s).GetOr(0)))
  {
    SafeGetInt32With(row, ordinal, defaultVal, 0)
  }

  /** `SafeGetInt32` as its preset of `value` shows it was meant: every failed
      read or parse gives the default. */
  function SafeGetInt32Intended(row: Row, ordinal: int, defaultVal: int): (r: Result<int, Fault>)
    ensures ColumnValue(row, ordinal).Success? ==>
      var v := row.values[ordinal];
      (v == DbNull || v.Unreadable? ==> r == Success(defaultVal))
      && (v.Int32? ==> r == Success(v.n))
      && (v == Null ==> r == Failure(NullReferenceError))
      && (v.Str? ==> r == Success(ParseInt32(v.s).GetOr(defaultVal)))
  {
    SafeGetInt32With(row, ordinal, defaultVal, defaultVal)
  }

  /** A 16-bit integer falls back to its text and reads back unchanged. */
  lemma SafeGetInt32ReadsInt16(row: Row, ordinal: int, defaultVal: int)
    requires 0 <= ordinal < |row.values| && row.values[ordinal].Int16? && IsInt32(row.values[ordinal].n)
    ensures SafeGetInt32(row, ordinal, defaultVal) == Success(row.values[ordinal].n)
  {
    ParseFormatRoundTrip(row.values[ordinal].n);
  }

  /** So does a byte. */
  lemma SafeGetInt32ReadsByte(row: Row, ordinal: int, defaultVal: int)
    requires 0 <= ordinal < |row.values| && row.values[ordinal].Byte?
    ensures SafeGetInt32(row, ordinal, defaultVal) == Success(row.values[ordinal].octet)
  {
    ParseFormatRoundTrip(row.values[ordinal].octet);
  }

  /** A decimal with a fractional scale never parses: the written code gives
      0 where the intended one gives the default. */
  lemma SafeGetInt32OnFractionalDecimal(row: Row, ordinal: int, defaultVal: int)
    requires 0 <= ordinal < |row.values| && row.values[ordinal].Decimal? && row.values[ordinal].scale > 0
    ensures SafeGetInt32(row, ordinal, defaultVal) == Success(0)
    ensures SafeGetInt32Intended(row, ordinal, defaultVal) == Success(defaultVal)
  {
    var v := row.values[ordinal];
    var text := DecimalText(v.unscaled, v.scale);
    assert ValueText(v) == Some(text);
    ForeignCharDoesNotParse(text, '.');
    assert GetInt32(v) == Failure(CastFault());
  }

  /** An integer stored as its text reads back as the integer. */
  lemma Int32TextRoundTrip(readerType: string, columns: seq<Column>, n: int, defaultVal: int)
    requires IsInt32(n)
    ensures SafeGetInt32(Row(readerType, columns, [Str(IntToString(n))]), 0, defaultVal) == Success(n)
    ensures SafeGetInt32Intended(Row(readerType, columns, [Str(IntToString(n))]), 0, defaultVal) == Success(n)
  {
    ParseFormatRoundTrip(n);
  }

  /** The two differ exactly on a value that fails the typed read with an
      invalid cast and whose text does not parse: there the written code gives
      0 and the intended one the default. */
  lemma {:induction false} SafeGetInt32DiffersOnlyOnUnparsableText(row: Row, ordinal: int, defaultVal: int)
    requires SafeGetInt32(row, ordinal, defaultVal) != SafeGetInt32Intended(row, ordinal, defaultVal)
    ensures 0 <= ordinal < |row.values|
    ensures var v := row.values[ordinal];
      GetInt32(v) == Failure(CastFault()) && v != DbNull && v != Null
      && (ValueText(v).None? || ParseInt32(ValueText(v).value).None?)
    ensures SafeGetInt32(row, ordinal, defaultVal) == Success(0)
    ensures SafeGetInt32Intended(row, ordinal, defaultVal) == Success(defaultVal)
  {
  }

  /** The counterexample: a text column holding "abc" with default 7 yields 0. */
  lemma SafeGetInt32IgnoresDefaultOnText()
    ensures SafeGetInt32(Row("SqlDataReader", [Column("N", "String", "nvarchar")], [Str("abc")]), 0, 7) == Success(0)
    ensures SafeGetInt32Intended(Row("SqlDataReader", [Column("N", "String", "nvarchar")], [Str("abc")]), 0, 7) == Success(7)
  {
    assert 'a' in "abc";
    ForeignCharDoesNotParse("abc", 'a');
  }

  /** `GetInt32(name, defaultVal)` as written: the lookup, then `SafeGetInt32`
      as written, so it inherits the lost default. */
  function GetInt32ByName(row: Row, name: string, defaultVal: int): (r: Result<int, Fault>)
    ensures GetOrdinal(row, name).Failure? ==> r == Failure(GetOrdinal(row, name).error)
    ensures GetOrdinal(row, name).Success? ==> r == SafeGetInt32(row, GetOrdinal(row, name).value, defaultVal)
  {
    var ordinal :- GetOrdinal(row, name);
    SafeGetInt32(row, ordinal, defaultVal)
  }

  /** `GetInt32(name, defaultVal)` over the corrected `SafeGetInt32`. */
  function GetInt32ByNameIntended(row: Row, name: string, defaultVal: int): (r: Result<int, Fault>)
    ensures GetOrdinal(row, name).Failure? ==> r == Failure(GetOrdinal(row, name).error)
    ensures GetOrdinal(row, name).Success? ==> r == SafeGetInt32Intended(row, GetOrdinal(row, name).value, defaultVal)
  {
    var ordinal :- GetOrdinal(row, name);
    SafeGetInt32Intended(row, ordinal, defaultVal)
  }

  /** The lookup by name passes the defect on: a text column "N" holding
      "abc", read with default 7, gives 0 as written and 7 as intended. */
  lemma GetInt32ByNameIgnoresDefaultOnText()
    ensures GetInt32ByName(Row("SqlDataReader", [Column("N", "String", "nvarchar")], [Str("abc")]), "N", 7) == Success(0)
    ensures GetInt32ByNameIntended(Row("SqlDataReader", [Column("N", "String", "nvarchar")], [Str("abc")]), "N", 7) == Success(7)
  {
    var row := Row("SqlDataReader", [Column("N", "String", "nvarchar")], [Str("abc")]);
    assert GetOrdinal(row, "N") == Success(0);
    SafeGetInt32IgnoresDefaultOnText();
  }

  // ---------------------------------------------------------------------------
  // GUIDs and binary data

  /** `maySupportGuid`: only readers whose type name mentions Oracle are
      assumed unable to return GUIDs. */
  function MaySupportGuid(readerType: string): bool {
    !Contains(readerType, "Oracle")
  }

  function ColumnGuidFault(cause: Fault): Fault {
    DataAccessError("Could not convert the data in the column to a Guid.", [], Some(cause))
  }

  /** `SafeGetGuid(ordinal)`: `Guid.Empty` for a database null, the GUID
      itself where the reader may support it, else a GUID from the first
      sixteen bytes (zero-padded); a value that yields no bytes is wrapped. */
  function SafeGetGuid(row: Row, ordinal: int): (r: Result<Guid, Fault>)
    ensures ColumnValue(row, ordinal).Success? ==>
      var v := row.values[ordinal];
      (v == DbNull ==> r == Success(EmptyGuid()))
      && (v.GuidValue? && MaySupportGuid(row.readerType) ==> r == Success(v.g))
      && (v.Bytes? && |v.data| == 16 ==> r == Success(Guid(v.data)))
      && (v != DbNull && !v.Bytes? && !(v.GuidValue? && MaySupportGuid(row.readerType)) ==> r.Failure?)
  {
    var v :- ColumnValue(row, ordinal);
    if v == DbNull then Success(EmptyGuid())
    else if MaySupportGuid(row.readerType) && v.GuidValue? then Success(v.g)
    else match GetBytes16(v)
      case Success(bytes) =>
        assert v.Bytes? && |v.data| == 16 ==> bytes == v.data[..16] == v.data;
        Success(Guid(bytes))
      case Failure(e) => Failure(ColumnGuidFault(e))
  }

  /** `SafeGetGuid(columnName)` and `GetGuid(name)`. */
  function SafeGetGuidByName(row: Row, name: string): (r: Result<Guid, Fault>)
    ensures GetOrdinal(row, name).Failure? ==> r.Failure?
    ensures GetOrdinal(row, name).Success? ==> r == SafeGetGuid(row, GetOrdinal(row, name).value)
  {
    var ordinal :- GetOrdinal(row, name);
    SafeGetGuid(row, ordinal)
  }

  /** A GUID written through `AddGuidParameter` and stored in a column reads
      back as the same GUID, in whichever encoding the provider forced, as
      long as a provider that took it as a GUID has a reader that may return
      one. */
  lemma GuidColumnRoundTrip(commandType: string, connectionString: Option<string>, name: string,
                            direction: Direction, nullable: bool, sourceColumn: string, g: Guid,
                            readerType: string, columns: seq<Column>)
    requires direction != Output
    requires CommandExtensions.SupportsGuid(commandType, connectionString) ==> MaySupportGuid(readerType)
    ensures var p := CommandExtensions.GuidParameter(commandType, connectionString, name, direction, nullable, sourceColumn, Some(g));
      SafeGetGuid(Row(readerType, columns, [p.value]), 0) == Success(g)
  {
  }

  /** A byte array shorter than sixteen bytes is padded with zeros. */
  lemma ShortBytesArePadded(row: Row, ordinal: int)
    requires 0 <= ordinal < |row.values| && row.values[ordinal].Bytes? && |row.values[ordinal].data| < 16
    ensures var data := row.values[ordinal].data;
      SafeGetGuid(row, ordinal).Success? && SafeGetGuid(row, ordinal).value.bytes[..|data|] == data
      && forall k :: |data| <= k < 16 ==> SafeGetGuid(row, ordinal).value.bytes[k] == 0
  {
  }

  /** `GetBinary(ordinal)`: null for a database null, the bytes of a binary
      column, and a wrapped failure for anything else. */
  function GetBinary(row: Row, ordinal: int): (r: Result<Option<seq<byte>>, Fault>)
    ensures ColumnValue(row, ordinal).Success? ==>
      var v := row.values[ordinal];
      (r == Success(None) <==> v == DbNull)
      && (v.Bytes? ==> r == Success(Some(v.data)))
  {
    var v :- ColumnValue(row, ordinal);
    if v == DbNull then Success(None)
    else if v.Bytes? then Success(Some(v.data))
    else Failure(DataAccessError("Could not read column into a byte array.", [], Some(ReadFailure<Value>(v).error)))
  }

  /** `GetBinary(name)`. */
  function GetBinaryByName(row: Row, name: string): (r: Result<Option<seq<byte>>, Fault>)
    ensures GetOrdinal(row, name).Failure? ==> r == Failure(GetOrdinal(row, name).error)
    ensures GetOrdinal(row, name).Success? ==> r == GetBinary(row, GetOrdinal(row, name).value)
  {
    var ordinal :- GetOrdinal(row, name);
    GetBinary(row, ordinal)
  }

  /** Data written through `AddBinaryParameter` reads back unchanged, and a
      missing array reads back as null. */
  lemma BinaryColumnRoundTrip(commandType: string, connectionString: Option<string>, name: string,
                              direction: Direction, nullable: bool, sourceColumn: string, value: Option<seq<byte>>,
                              readerType: string, columns: seq<Column>)
    ensures var p := CommandExtensions.BinaryParameter(commandType, connectionString, name, direction, nullable, sourceColumn, value);
      GetBinary(Row(readerType, columns, [p.value]), 0) == Success(value)
  {
  }
}

/** The ADO.NET objects the facade drives, reduced to what its decisions read
    and write: a connection's state, a command's text, parameters, connection
    and transaction, the values a reader yields, and the exceptions thrown.
    What a real driver does when it opens a connection or runs a command is
    not modelled: every such call takes its outcome as a parameter. */
module Ado {
  import opened Wrappers

  type byte = b: int | 0 <= b < 256

  type GuidBytes = s: seq<byte> | |s| == 16 witness [0, 0, 0, 0, 0, 0, 0, 0, 0, 0, 0, 0, 0, 0, 0, 0]

  /** A GUID, kept as its sixteen bytes (`ToByteArray()`); their layout is not
      interpreted. */
  datatype Guid = Guid(bytes: GuidBytes)

  /** `Guid.Empty`. */
  function EmptyGuid(): Guid {
    Guid(seq(16, _ => 0))
  }

  /** A value as the .NET data types see it: the C# null reference and
      `DBNull.Value` are different values. `Unreadable` stands for a column
      whose typed read fails for a reason other than a cast. */
  datatype Value =
    | Null
    | DbNull
    | Str(s: string)
    | Bool(b: bool)
    | Byte(octet: byte)
    | Int16(n: int)
    | Int32(n: int)
    | Decimal(unscaled: int, scale: nat)
    | Double(x: real)
    | DateTime(ticks: int)
    | GuidValue(g: Guid)
    | Bytes(data: seq<byte>)
    | Unreadable(reason: string)

  /** The exceptions the core throws or lets through. */
  datatype Fault =
    | DataAccessError(message: string, data: seq<(string, string)>, cause: Option<Fault>)
    | DriverError(reason: string)
    | InvalidCastError(message: string)
    | InvalidOperationError(message: string)
    | ArgumentNullError(message: string)
    | ArgumentError(message: string)
    | OverflowError
    | NullReferenceError
    | IndexOutOfRangeError(message: string)
    | WrappedError(message: string, inner: Fault)

  datatype ConnState = Closed | Open | Broken

  datatype Direction = Input | Output | InputOutput | ReturnValue

  datatype DbType = DbBinary | DbGuid | DbTypeNamed(name: string)

  /** A parameter as it sits in a command's collection. `None` in `dbType` or
      `size` means the property was never assigned. */
  datatype Parameter = Parameter(
    name: string,
    dbType: Option<DbType>,
    value: Value,
    size: Option<int>,
    direction: Direction,
    nullable: bool,
    sourceColumn: string)

  function ParameterNames(ps: seq<Parameter>): (names: seq<string>)
    ensures |names| == |ps|
    ensures forall i :: 0 <= i < |ps| ==> names[i] == ps[i].name
  {
    seq(|ps|, i requires 0 <= i < |ps| => ps[i].name)
  }

  datatype Behavior = CloseConnection | SingleResult | SchemaOnly | KeyInfo | SingleRow | SequentialAccess

  /** One column of a result: its name, the name of its .NET field type
      (`GetFieldType(i).Name`) and its provider type name (`GetDataTypeName`). */
  datatype Column = Column(name: string, fieldType: string, dataTypeName: string)

  /** What a reader returns: the reader's own type name, the column shape and
      the rows, each holding one value per column. */
  datatype ResultSet = ResultSet(readerType: string, columns: seq<Column>, rows: seq<seq<Value>>)

  predicate WellShaped(rs: ResultSet) {
    forall r :: 0 <= r < |rs.rows| ==> |rs.rows[r]| == |rs.columns|
  }

  /** The row a reader is positioned on, with the reader's type name and the
      column shape. */
  datatype Row = Row(readerType: string, columns: seq<Column>, values: seq<Value>)

  function RowAt(rs: ResultSet, i: nat): Row
    requires i < |rs.rows|
  {
    Row(rs.readerType, rs.columns, rs.rows[i])
  }

  /** An open data reader and the behaviour it was executed with. */
  datatype Reader = Reader(results: ResultSet, behavior: set<Behavior>)

  class Connection {
    const connectionString: string
    var state: ConnState

    constructor (connectionString: string)
      ensures this.connectionString == connectionString && state == Closed
    {
      this.connectionString := connectionString;
      state := Closed;
    }

    /** `DbConnection.Open()`: only a closed connection can be opened; whether
        the server accepts it is the `outcome`. */
    method Open(outcome: Outcome<string>) returns (r: Outcome<Fault>)
      modifies this
      ensures old(state) != Closed ==> r == Fail(InvalidOperationError("The connection was not closed.")) && state == old(state)
      ensures old(state) == Closed && outcome == Pass ==> r == Pass && state == ConnState.Open
      ensures old(state) == Closed && outcome.Fail? ==> r == Fail(DriverError(outcome.error)) && state == Closed
    {
      if state != Closed {
        r := Fail(InvalidOperationError("The connection was not closed."));
      } else if outcome == Pass {
        state := ConnState.Open;
        r := Pass;
      } else {
        r := Fail(DriverError(outcome.error));
      }
    }

    /** `Close()` and `Dispose()`: closing a closed connection does nothing. */
    method Close()
      modifies this
      ensures state == Closed
    {
      state := Closed;
    }
  }

  class Transaction {
    const connection: Connection?

    constructor (connection: Connection?)
      ensures this.connection == connection
    {
      this.connection := connection;
    }
  }

  class Command {
    /** `GetType().FullName` of the provider's command class. */
    const typeName: string
    var text: string
    var isStoredProcedure: bool
    var timeout: int
    var parameters: seq<Parameter>
    var connection: Connection?
    var transaction: Transaction?

    constructor (typeName: string, defaultTimeout: int)
      ensures this.typeName == typeName && timeout == defaultTimeout
      ensures text == "" && !isStoredProcedure && parameters == []
      ensures connection == null && transaction == null
    {
      this.typeName := typeName;
      timeout := defaultTimeout;
      text := "";
      isStoredProcedure := false;
      parameters := [];
      connection := null;
      transaction := null;
    }
  }

  class Adapter {
    var selectCommand: Command?

    constructor (selectCommand: Command?)
      ensures this.selectCommand == selectCommand
    {
      this.selectCommand := selectCommand;
    }
  }

  // ---------------------------------------------------------------------------
  // The typed accessors of a data reader, applied to one column value

  function CastFault(): Fault {
    InvalidCastError("Specified cast is not valid.")
  }

  /** Shared shape of the typed getters: a value of the wrong type is an
      invalid cast; an unreadable value fails with the driver's reason. */
  function ReadFailure<T>(v: Value): Result<T, Fault> {
    if v.Unreadable? then Failure(DriverError(v.reason)) else Failure(CastFault())
  }

  function GetString(v: Value): Result<string, Fault> {
    if v.Str? then Success(v.s) else ReadFailure(v)
  }

  function GetInt32(v: Value): Result<int, Fault> {
    if v.Int32? then Success(v.n) else ReadFailure(v)
  }

  function GetInt16(v: Value): Result<int, Fault> {
    if v.Int16? then Success(v.n) else ReadFailure(v)
  }

  function GetByte(v: Value): Result<byte, Fault> {
    if v.Byte? then Success(v.octet) else ReadFailure(v)
  }

  function GetDecimal(v: Value): Result<(int, nat), Fault> {
    if v.Decimal? then Success((v.unscaled, v.scale)) else ReadFailure(v)
  }

  function GetDouble(v: Value): Result<real, Fault> {
    if v.Double? then Success(v.x) else ReadFailure(v)
  }

  function GetDateTime(v: Value): Result<int, Fault> {
    if v.DateTime? then Success(v.ticks) else ReadFailure(v)
  }

  function GetGuid(v: Value): Result<Guid, Fault> {
    if v.GuidValue? then Success(v.g) else ReadFailure(v)
  }

  /** `GetBytes(ordinal, 0, buffer, 0, 16)` into a zeroed 16-byte buffer. */
  function GetBytes16(v: Value): (r: Result<GuidBytes, Fault>)
    ensures v.Bytes? <==> r.Success?
    ensures v.Bytes? && |v.data| >= 16 ==> r.value == v.data[..16]
  {
    if v.Bytes? then
      var n := if |v.data| < 16 then |v.data| else 16;
      Success(v.data[..n] + seq(16 - n, _ => 0))
    else ReadFailure(v)
  }

  /** `GetValue`: the value itself, unless it cannot be read. */
  function GetValue(v: Value): Result<Value, Fault> {
    if v.Unreadable? then Failure(DriverError(v.reason)) else Success(v)
  }
}

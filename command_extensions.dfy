/** The `DbCommand` extension methods: building parameters (null becomes
    `DBNull`, GUIDs and byte arrays encoded for what the provider supports),
    reading a GUID back out of a parameter collection, enlisting in a
    transaction, and replacing the portable SQL tokens. */
module CommandExtensions {
  import opened Wrappers
  import opened Text
  import opened Ado

  // ---------------------------------------------------------------------------
  // Provider capabilities

  /** `supportsGuid`: SQL Server commands take GUIDs; Oracle commands, commands
      without a connection and connections whose string names ORACLE do not;
      anything else is assumed to. */
  function SupportsGuid(commandType: string, connectionString: Option<string>): bool {
    if Contains(commandType, "SqlCommand") then true
    else if Contains(commandType, "Oracle") then false
    else if connectionString.None? then false
    else !Contains(ToUpper(connectionString.value), "ORACLE")
  }

  function ConnectionStringOf(cmd: Command): Option<string>
    reads cmd
  {
    if cmd.connection == null then None else Some(cmd.connection.connectionString)
  }

  /** A parameter as `CreateParameter` yields it, once named. */
  function BlankParameter(name: string): Parameter {
    Parameter(name, None, Null, None, Input, false, "")
  }

  // ---------------------------------------------------------------------------
  // Plain parameters

  /** The parameter `addParameter` appends; the `AddParameter` overloads pass
      no type, size 0, `Input`, nullable and an empty source column for the
      arguments they omit. */
  function NewParameter(name: string, dbType: Option<DbType>, size: int, direction: Direction,
                        nullable: bool, sourceColumn: string, value: Value): (p: Parameter)
    ensures p.name == name && p.direction == direction && p.nullable == nullable && p.sourceColumn == sourceColumn
    ensures p.dbType == dbType
    ensures p.size.Some? <==> size != 0
    ensures p.size.Some? ==> p.size.value == size
    ensures p.value != Null
    ensures value != Null ==> p.value == value
  {
    Parameter(name, dbType, if value == Null then DbNull else value,
              if size != 0 then Some(size) else None, direction, nullable, sourceColumn)
  }

  /** `addParameter`: exactly one parameter is appended, after the existing ones. */
  method AddParameter(cmd: Command, name: string, dbType: Option<DbType>, size: int, direction: Direction,
                      nullable: bool, sourceColumn: string, value: Value)
    modifies cmd`parameters
    ensures cmd.parameters == old(cmd.parameters) + [NewParameter(name, dbType, size, direction, nullable, sourceColumn, value)]
    ensures ParameterNames(cmd.parameters) == ParameterNames(old(cmd.parameters)) + [name]
  {
    var param := BlankParameter(name);
    if dbType.Some? {
      param := param.(dbType := dbType);
    }
    param := param.(value := if value == Null then DbNull else value);
    if size != 0 {
      param := param.(size := Some(size));
    }
    param := param.(direction := direction, nullable := nullable, sourceColumn := sourceColumn);
    cmd.parameters := cmd.parameters + [param];
  }

  // ---------------------------------------------------------------------------
  // GUID and binary parameters

  /** The parameter `AddGuidParameter` appends. A value goes in as a GUID
      where the provider supports GUIDs and as its sixteen bytes otherwise; a
      missing value goes in as `DBNull` with no type. An output parameter gets
      only the type, with size 16 when binary. */
  function GuidParameter(commandType: string, connectionString: Option<string>, name: string, direction: Direction,
                         nullable: bool, sourceColumn: string, value: Option<Guid>): (p: Parameter)
    ensures p.name == name && p.direction == direction && p.nullable == nullable && p.sourceColumn == sourceColumn
    ensures direction == Output ==>
      p.value == Null
      && p.dbType == Some(if SupportsGuid(commandType, connectionString) then DbGuid else DbBinary)
      && p.size == (if SupportsGuid(commandType, connectionString) then None else Some(16))
    ensures direction != Output && value.None? ==> p.value == DbNull && p.dbType.None? && p.size.None?
    ensures direction != Output && value.Some? && SupportsGuid(commandType, connectionString) ==>
      p.value == GuidValue(value.value) && p.dbType == Some(DbGuid) && p.size.None?
    ensures direction != Output && value.Some? && !SupportsGuid(commandType, connectionString) ==>
      p.value == Bytes(value.value.bytes) && p.dbType == Some(DbBinary) && p.size.None?
  {
    var blank := BlankParameter(name);
    var typed :=
      if direction != Output then
        if value.None? then blank.(value := DbNull)
        else if SupportsGuid(commandType, connectionString) then blank.(dbType := Some(DbGuid), value := GuidValue(value.value))
        else blank.(dbType := Some(DbBinary), value := Bytes(value.value.bytes))
      else if SupportsGuid(commandType, connectionString) then blank.(dbType := Some(DbGuid))
      else blank.(dbType := Some(DbBinary), size := Some(16));
    typed.(direction := direction, nullable := nullable, sourceColumn := sourceColumn)
  }

  /** `AddGuidParameter`. */
  method AddGuidParameter(cmd: Command, name: string, direction: Direction, nullable: bool, sourceColumn: string, value: Option<Guid>)
    modifies cmd`parameters
    ensures cmd.parameters == old(cmd.parameters)
      + [GuidParameter(cmd.typeName, ConnectionStringOf(cmd), name, direction, nullable, sourceColumn, value)]
  {
    var param := BlankParameter(name);
    var supported := SupportsGuid(cmd.typeName, ConnectionStringOf(cmd));
    if direction != Output {
      if value.None? {
        param := param.(value := DbNull);
      } else if supported {
        param := param.(dbType := Some(DbGuid), value := GuidValue(value.value));
      } else {
        param := param.(dbType := Some(DbBinary), value := Bytes(value.value.bytes));
      }
    } else if supported {
      param := param.(dbType := Some(DbGuid));
    } else {
      param := param.(dbType := Some(DbBinary), size := Some(16));
    }
    param := param.(direction := direction, nullable := nullable, sourceColumn := sourceColumn);
    cmd.parameters := cmd.parameters + [param];
  }

  /** The parameter `AddBinaryParameter` appends: always binary, sized to the
      data when there is data, and an input parameter becomes input-output for
      providers without GUID support. */
  function BinaryParameter(commandType: string, connectionString: Option<string>, name: string, direction: Direction,
                           nullable: bool, sourceColumn: string, value: Option<seq<byte>>): (p: Parameter)
    ensures p.name == name && p.nullable == nullable && p.sourceColumn == sourceColumn && p.dbType == Some(DbBinary)
    ensures value.Some? ==> p.value == Bytes(value.value) && p.size == Some(|value.value|)
    ensures value.None? ==> p.value == DbNull && p.size.None?
    ensures p.direction == InputOutput <==>
      direction == InputOutput || (direction == Input && !SupportsGuid(commandType, connectionString))
    ensures p.direction != direction ==> direction == Input && !SupportsGuid(commandType, connectionString)
  {
    var withValue :=
      if value.Some? then BlankParameter(name).(dbType := Some(DbBinary), size := Some(|value.value|), value := Bytes(value.value))
      else BlankParameter(name).(dbType := Some(DbBinary), value := DbNull);
    var dir := if !SupportsGuid(commandType, connectionString) && direction == Input then InputOutput else direction;
    withValue.(direction := dir, nullable := nullable, sourceColumn := sourceColumn)
  }

  /** `AddBinaryParameter`. */
  method AddBinaryParameter(cmd: Command, name: string, direction: Direction, nullable: bool, sourceColumn: string, value: Option<seq<byte>>)
    modifies cmd`parameters
    ensures cmd.parameters == old(cmd.parameters)
      + [BinaryParameter(cmd.typeName, ConnectionStringOf(cmd), name, direction, nullable, sourceColumn, value)]
  {
    var param := BlankParameter(name);
    param := param.(dbType := Some(DbBinary));
    if value.Some? {
      param := param.(size := Some(|value.value|), value := Bytes(value.value));
    } else {
      param := param.(value := DbNull);
    }
    if !SupportsGuid(cmd.typeName, ConnectionStringOf(cmd)) && direction == Input {
      param := param.(direction := InputOutput);
    } else {
      param := param.(direction := direction);
    }
    param := param.(nullable := nullable, sourceColumn := sourceColumn);
    cmd.parameters := cmd.parameters + [param];
  }

  // ---------------------------------------------------------------------------
  // Reading a GUID parameter

  /** The index of the first parameter whose name equals `name` ignoring case. */
  function FirstNamed(ps: seq<Parameter>, name: string): (r: Option<nat>)
    ensures r.Some? ==>
      r.value < |ps| && EqualsIgnoreCase(ps[r.value].name, name)
      && forall j :: 0 <= j < r.value ==> !EqualsIgnoreCase(ps[j].name, name)
    ensures r.None? ==> forall j :: 0 <= j < |ps| ==> !EqualsIgnoreCase(ps[j].name, name)
    decreases |ps|
  {
    if |ps| == 0 then None
    else if EqualsIgnoreCase(ps[0].name, name) then Some(0)
    else match FirstNamed(ps[1..], name)
      case None => None
      case Some(i) => Some(i + 1)
  }

  function GuidConversionFault(cause: Fault): Fault {
    DataAccessError("Could not convert the data in the parameter to a Guid.", [], Some(cause))
  }

  /** A parameter value as a GUID: null for null, the GUID itself, or the GUID
      built from exactly sixteen bytes. */
  function GuidFromValue(v: Value): Result<Option<Guid>, Fault> {
    match v
    case Null => Success(None)
    case DbNull => Success(None)
    case GuidValue(g) => Success(Some(g))
    case Bytes(b) =>
      if |b| == 16 then Success(Some(Guid(b)))
      else Failure(GuidConversionFault(ArgumentError("Byte array for Guid must be exactly 16 bytes long.")))
    case _ => Failure(GuidConversionFault(CastFault()))
  }

  /** What `GetGuidParameterValue` returns: the first case-insensitive name
      match decides, and no match is null. */
  function GuidParameterValue(ps: seq<Parameter>, name: string): Result<Option<Guid>, Fault> {
    match FirstNamed(ps, name)
    case None => Success(None)
    case Some(i) => GuidFromValue(ps[i].value)
  }

  /** `GetGuidParameterValue`: scan the collection by index. */
  method GetGuidParameterValue(ps: seq<Parameter>, name: string) returns (r: Result<Option<Guid>, Fault>)
    ensures r == GuidParameterValue(ps, name)
  {
    var index := 0;
    while index < |ps|
      invariant 0 <= index <= |ps|
      invariant forall j :: 0 <= j < index ==> !EqualsIgnoreCase(ps[j].name, name)
    {
      var parameter := ps[index];
      if !EqualsIgnoreCase(parameter.name, name) {
        index := index + 1;
        continue;
      }
      FirstNamedAt(ps, name, index);
      var value := parameter.value;
      if value == Null || value == DbNull {
        return Success(None);
      }
      if value.GuidValue? {
        return Success(Some(value.g));
      }
      if value.Bytes? && |value.data| == 16 {
        return Success(Some(Guid(value.data)));
      }
      if value.Bytes? {
        return Failure(GuidConversionFault(ArgumentError("Byte array for Guid must be exactly 16 bytes long.")));
      }
      return Failure(GuidConversionFault(CastFault()));
    }
    NoneNamed(ps, name);
    r := Success(None);
  }

  /** A match with no match before it is the first one. */
  lemma FirstNamedAt(ps: seq<Parameter>, name: string, i: nat)
    requires i < |ps| && EqualsIgnoreCase(ps[i].name, name)
    requires forall j :: 0 <= j < i ==> !EqualsIgnoreCase(ps[j].name, name)
    ensures FirstNamed(ps, name) == Some(i)
    ensures GuidParameterValue(ps, name) == GuidFromValue(ps[i].value)
  {
  }

  /** A name matched nowhere reads as null. */
  lemma NoneNamed(ps: seq<Parameter>, name: string)
    requires forall j :: 0 <= j < |ps| ==> !EqualsIgnoreCase(ps[j].name, name)
    ensures GuidParameterValue(ps, name) == Success(None)
  {
  }

  /** A parameter appended under a name not yet taken is the first match. */
  lemma FirstNamedAppended(ps: seq<Parameter>, p: Parameter, name: string)
    requires FirstNamed(ps, name).None? && p.name == name
    ensures GuidParameterValue(ps + [p], name) == GuidFromValue(p.value)
  {
    var all := ps + [p];
    assert all[|ps|] == p;
    forall j | 0 <= j < |ps| ensures !EqualsIgnoreCase(all[j].name, name) {
      assert all[j] == ps[j];
    }
    FirstNamedAt(all, name, |ps|);
  }

  /** A parameter added after a name is already taken cannot change what is
      read for that name. */
  lemma {:induction false} EarlierParameterShadows(ps: seq<Parameter>, more: seq<Parameter>, name: string)
    requires FirstNamed(ps, name).Some?
    ensures FirstNamed(ps + more, name) == FirstNamed(ps, name)
    ensures GuidParameterValue(ps + more, name) == GuidParameterValue(ps, name)
  {
    var i := FirstNamed(ps, name).value;
    assert (ps + more)[i] == ps[i];
    assert forall j :: 0 <= j < i ==> (ps + more)[j] == ps[j];
  }

  /** Reading back a GUID added as input: whichever encoding the provider
      forced, the same GUID comes out, provided no earlier parameter has the
      same name. */
  lemma {:induction false} GuidParameterRoundTrip(ps: seq<Parameter>, commandType: string, connectionString: Option<string>,
                                                  name: string, direction: Direction, nullable: bool, sourceColumn: string, g: Guid)
    requires direction != Output && FirstNamed(ps, name).None?
    ensures GuidParameterValue(ps + [GuidParameter(commandType, connectionString, name, direction, nullable, sourceColumn, Some(g))], name)
      == Success(Some(g))
  {
    FirstNamedAppended(ps, GuidParameter(commandType, connectionString, name, direction, nullable, sourceColumn, Some(g)), name);
  }

  /** A GUID parameter added without a value, or as output, reads back as null
      until the command sets it. */
  lemma {:induction false} UnsetGuidParameterReadsNull(ps: seq<Parameter>, commandType: string, connectionString: Option<string>,
                                                       name: string, direction: Direction, nullable: bool, sourceColumn: string, value: Option<Guid>)
    requires (direction == Output || value.None?) && FirstNamed(ps, name).None?
    ensures GuidParameterValue(ps + [GuidParameter(commandType, connectionString, name, direction, nullable, sourceColumn, value)], name)
      == Success(None)
  {
    FirstNamedAppended(ps, GuidParameter(commandType, connectionString, name, direction, nullable, sourceColumn, value), name);
  }

  // ---------------------------------------------------------------------------
  // Transactions

  /** `EnlistTransaction`: a transaction brings its connection along; null
      changes nothing. */
  method EnlistTransaction(cmd: Command, tx: Transaction?)
    modifies cmd`connection, cmd`transaction
    ensures tx != null ==> cmd.connection == tx.connection && cmd.transaction == tx
    ensures tx == null ==> cmd.connection == old(cmd.connection) && cmd.transaction == old(cmd.transaction)
  {
    if tx != null {
      cmd.connection := tx.connection;
      cmd.transaction := tx;
    }
  }

  // ---------------------------------------------------------------------------
  // Portable SQL tokens

  const SqlTokens: seq<string> := ["{DataType.String}", "{DataType.DateTime}", "{DataType.Integer}", "{DataType.Bool}", "{Date.Day(}"]
  const OracleSpellings: seq<string> := ["varchar2", "Date", "NUMBER", "NUMBER(1,0)", "TRUNC("]
  const SqlServerSpellings: seq<string> := ["nvarchar", "Datetime2", "BigInt", "BIT", "CONVERT(DATE,"]

  /** Each pattern in turn replaced throughout by its spelling. */
  function ReplaceEach(s: string, patterns: seq<string>, spellings: seq<string>): string
    requires |patterns| == |spellings|
    requires forall k :: 0 <= k < |patterns| ==> |patterns[k]| > 0
    decreases |patterns|
  {
    if |patterns| == 0 then s
    else ReplaceEach(ReplaceAll(s, patterns[0], spellings[0]), patterns[1..], spellings[1..])
  }

  /** Patterns that do not occur leave the text as it is. */
  lemma {:induction false} AbsentPatternsKeepText(s: string, patterns: seq<string>, spellings: seq<string>)
    requires |patterns| == |spellings|
    requires forall k :: 0 <= k < |patterns| ==> |patterns[k]| > 0 && !Contains(s, patterns[k])
    ensures ReplaceEach(s, patterns, spellings) == s
    decreases |patterns|
  {
    if |patterns| > 0 {
      ReplaceAllAbsent(s, patterns[0], spellings[0]);
      AbsentPatternsKeepText(s, patterns[1..], spellings[1..]);
    }
  }

  /** `ReplaceSqlTokens`: null and empty text come back as they are. */
  function ReplaceSqlTokens(sql: Option<string>, isOracle: bool): (r: Option<string>)
    ensures sql.None? ==> r.None?
    ensures sql == Some("") ==> r == Some("")
    ensures sql.Some? ==> r.Some?
  {
    if sql.None? || sql.value == "" then sql
    else Some(ReplaceEach(sql.value, SqlTokens, if isOracle then OracleSpellings else SqlServerSpellings))
  }

  /** Text with no opening brace mentions no token and is left alone. */
  lemma BraceFreeTextUnchanged(s: string, patterns: seq<string>, spellings: seq<string>)
    requires |patterns| == |spellings|
    requires forall k :: 0 <= k < |patterns| ==> |patterns[k]| > 0 && '{' in patterns[k]
    requires '{' !in s
    ensures ReplaceEach(s, patterns, spellings) == s
  {
    forall k | 0 <= k < |patterns|
      ensures !Contains(s, patterns[k])
    {
      MissingCharExcludes(s, patterns[k], '{');
    }
    AbsentPatternsKeepText(s, patterns, spellings);
  }

  /** Neither string is a prefix of the other. */
  predicate DifferWithin(p: string, q: string) {
    exists d :: 0 <= d < |p| && d < |q| && p[d] != q[d]
  }

  /** Patterns that each open with the one brace they hold. */
  predicate BraceOpened(patterns: seq<string>) {
    forall j :: 0 <= j < |patterns| ==> |patterns[j]| > 0 && patterns[j][0] == '{' && '{' !in patterns[j][1..]
  }

  /** A single occurrence of the `k`th pattern, between brace-free text, comes
      out as the `k`th spelling: the earlier patterns cannot match it and the
      later ones find no brace left. */
  lemma {:induction false} ReplaceEachHitsOne(a: string, b: string, patterns: seq<string>, spellings: seq<string>, k: nat)
    requires |patterns| == |spellings| && k < |patterns|
    requires BraceOpened(patterns)
    requires forall j :: 0 <= j < |spellings| ==> '{' !in spellings[j]
    requires forall j :: 0 <= j < k ==> DifferWithin(patterns[j], patterns[k])
    requires '{' !in a && '{' !in b
    ensures ReplaceEach(a + patterns[k] + b, patterns, spellings) == a + spellings[k] + b
    decreases k
  {
    var p := patterns[k];
    if k == 0 {
      ReplaceAllSingle(a, p, spellings[0], b);
      var t := a + spellings[0] + b;
      assert '{' !in t;
      forall j | 0 <= j < |patterns[1..]|
        ensures |patterns[1..][j]| > 0 && '{' in patterns[1..][j]
      {
        assert patterns[1..][j] == patterns[j + 1];
      }
      BraceFreeTextUnchanged(t, patterns[1..], spellings[1..]);
    } else {
      var d :| 0 <= d < |patterns[0]| && d < |p| && patterns[0][d] != p[d];
      SingleMarkExcludes(a, p, b, patterns[0], d);
      ReplaceAllAbsent(a + p + b, patterns[0], spellings[0]);
      assert patterns[1..][k - 1] == p && spellings[1..][k - 1] == spellings[k];
      forall j | 0 <= j < k - 1
        ensures DifferWithin(patterns[1..][j], patterns[1..][k - 1])
      {
        assert patterns[1..][j] == patterns[j + 1];
      }
      ReplaceEachHitsOne(a, b, patterns[1..], spellings[1..], k - 1);
    }
  }

  /** Each portable token, between SQL text without braces, becomes its
      dialect's spelling: `varchar2`, `Date`, `NUMBER`, `NUMBER(1,0)` and
      `TRUNC(` for Oracle, `nvarchar`, `Datetime2`, `BigInt`, `BIT` and
      `CONVERT(DATE,` otherwise. */
  lemma TokenBecomesDialectSpelling(a: string, b: string, k: nat, isOracle: bool)
    requires k < |SqlTokens|
    requires '{' !in a && '{' !in b
    ensures ReplaceSqlTokens(Some(a + SqlTokens[k] + b), isOracle)
      == Some(a + (if isOracle then OracleSpellings else SqlServerSpellings)[k] + b)
  {
    var spellings := if isOracle then OracleSpellings else SqlServerSpellings;
    TokensBraceOpened();
    forall j | 0 <= j < |spellings|
      ensures '{' !in spellings[j]
    {
    }
    forall j | 0 <= j < k
      ensures DifferWithin(SqlTokens[j], SqlTokens[k])
    {
      TokensDiffer(j, k);
    }
    ReplaceEachHitsOne(a, b, SqlTokens, spellings, k);
  }

  /** Replacement is a single left-to-right pass per token, so a token can be
      formed by an earlier replacement and survive: the `DateTime` token
      nested inside a `DataType.` prefix and a `Time}` suffix leaves the
      `DateTime` token behind. */
  lemma NestedTokenSurvives(prefix: string, suffix: string)
    requires prefix == "{DataType." && suffix == "Time}"
    ensures ReplaceSqlTokens(Some(prefix + SqlTokens[1] + suffix), true) == Some(SqlTokens[1])
  {
    var s := prefix + SqlTokens[1] + suffix;
    NestedStringTokenAbsent(prefix, suffix);
    ReplaceAllAbsent(s, SqlTokens[0], OracleSpellings[0]);
    NestedDateTimeReplaced(prefix, suffix);
    var t := SqlTokens[1];
    LaterTokensAbsent(t);
    forall j | 0 <= j < |SqlTokens[2..]|
      ensures !Contains(t, SqlTokens[2..][j])
    {
      assert SqlTokens[2..][j] == SqlTokens[j + 2];
    }
    AbsentPatternsKeepText(t, SqlTokens[2..], OracleSpellings[2..]);
    assert SqlTokens[1..][1..] == SqlTokens[2..] && OracleSpellings[1..][1..] == OracleSpellings[2..];
  }

  /** The `String` token matches at neither brace of the nested text. */
  lemma NestedStringTokenAbsent(prefix: string, suffix: string)
    requires prefix == "{DataType." && suffix == "Time}"
    ensures !Contains(prefix + SqlTokens[1] + suffix, SqlTokens[0])
  {
    var s := prefix + SqlTokens[1] + suffix;
    forall i | 0 <= i <= |s| - |SqlTokens[0]|
      ensures !OccursAt(s, SqlTokens[0], i)
    {
      if i == 0 {
        assert s[10] != SqlTokens[0][10];
      } else if i == 10 {
        assert s[20] != SqlTokens[0][10];
      } else if i < 10 {
        assert s[i] == prefix[i] != '{';
      } else {
        assert s[i] == SqlTokens[1][i - 10] != '{';
      }
    }
  }

  /** The `DateTime` token of the nested text matches only at the inner brace,
      and its spelling completes the outer one. */
  lemma NestedDateTimeReplaced(prefix: string, suffix: string)
    requires prefix == "{DataType." && suffix == "Time}"
    ensures ReplaceAll(prefix + SqlTokens[1] + suffix, SqlTokens[1], OracleSpellings[1]) == SqlTokens[1]
  {
    var s := prefix + SqlTokens[1] + suffix;
    forall i | 0 <= i < |prefix|
      ensures !OccursAt(s, SqlTokens[1], i)
    {
      if i == 0 {
        assert s[10] != SqlTokens[1][10];
      } else {
        assert s[i] == prefix[i] != '{';
      }
    }
    ReplaceAllFirstAt(prefix, SqlTokens[1], OracleSpellings[1], suffix);
  }

  /** No token after `DateTime` occurs in it. */
  lemma LaterTokensAbsent(t: string)
    requires t == SqlTokens[1]
    ensures forall j :: 2 <= j < |SqlTokens| ==> !Contains(t, SqlTokens[j])
  {
    TokensBraceOpened();
    forall j | 2 <= j < |SqlTokens|
      ensures !Contains(t, SqlTokens[j])
    {
      TokensDiffer(1, j);
      var d :| 0 <= d < |SqlTokens[1]| && d < |SqlTokens[j]| && SqlTokens[1][d] != SqlTokens[j][d];
      SingleMarkExcludes([], t, [], SqlTokens[j], d);
      assert [] + t + [] == t;
    }
  }

  lemma TokensBraceOpened()
    ensures BraceOpened(SqlTokens)
  {
    forall j | 0 <= j < |SqlTokens|
      ensures SqlTokens[j][0] == '{' && '{' !in SqlTokens[j][1..]
    {
    }
  }

  /** Two tokens part at the sixth character, or, for the four `DataType`
      tokens, at the eleventh. */
  lemma TokensDiffer(j: nat, k: nat)
    requires j < k < |SqlTokens|
    ensures DifferWithin(SqlTokens[j], SqlTokens[k])
  {
    var d := if k == 4 then 5 else 10;
    assert SqlTokens[j][d] != SqlTokens[k][d];
  }

  /** Both dialects leave SQL without tokens untouched. */
  lemma TokenFreeSqlUnchanged(sql: string, isOracle: bool)
    requires '{' !in sql
    ensures ReplaceSqlTokens(Some(sql), isOracle) == Some(sql)
  {
    if sql != "" {
      var spellings := if isOracle then OracleSpellings else SqlServerSpellings;
      forall k | 0 <= k < |SqlTokens| ensures '{' in SqlTokens[k] {
        assert SqlTokens[k][0] == '{';
      }
      BraceFreeTextUnchanged(sql, SqlTokens, spellings);
    }
  }
}

/** The `Database` facade over ADO.NET, in both of its generations: the current
    one (DataAccess/Database.cs with its async partial) and the older one
    (OgreDA/Database.cs with its OleDb partial). A `Database` remembers the
    provider factory, the engine it classified the connection as, and one
    optional default connection; each execution call decides whether to open,
    bind, close and unbind a connection around the driver call. */
module Facade {
  import opened Wrappers
  import opened Text
  import opened Ado
  import opened Placeholders

  datatype DBMS = SqlServer | Oracle | Other

  /** Provider invariant name and connection string. */
  datatype ConnectionInfo = ConnectionInfo(providerName: string, connectionString: string)

  /** The command class a factory creates: its full type name and the command
      timeout it starts with. */
  datatype CommandKind = CommandKind(typeName: string, defaultTimeout: int)

  /** A provider factory: its full type name, whether `CreateConnection` yields
      a connection, and what `CreateCommand` yields (`None` for null). */
  datatype Factory = Factory(typeName: string, yieldsConnections: bool, command: Option<CommandKind>)

  /** The outcome of `DbProviderFactories.GetFactory`: a factory, an
      `ArgumentException` for an unknown provider, or a null factory. */
  datatype FactoryLookup = Registered(factory: Factory) | NotRegistered | NullFactory

  const LegacySqlClientFactory: string := "System.Data.SqlClient.SqlClientFactory"
  const LegacyOleDbCommand: string := "System.Data.OleDb.OleDbCommand"

  const NonQueryMessage: string := "Could not execute non-query command."
  const ScalarMessage: string := "Could not execute the ExecuteScalar command."
  const ReaderMessage: string := "Could not execute the ExecuteReader command."

  // ---------------------------------------------------------------------------
  // Engine classification

  /** The part of the classification both generations share: the factory type
      name first, then the upper-cased connection string. */
  function EngineFromNames(factoryType: string, connectionString: string): DBMS {
    if Contains(factoryType, "Oracle") then Oracle
    else if Contains(ToUpper(connectionString), "ORACLE") then Oracle
    else if Contains(ToUpper(connectionString), "SQLOLEDB") then SqlServer
    else Other
  }

  /** `setDbEngine` of the current facade: any factory type whose name mentions
      `SqlClientFactory` is SQL Server. */
  function ClassifyEngine(factoryType: string, connectionString: string): DBMS {
    if Contains(factoryType, "SqlClientFactory") then SqlServer
    else EngineFromNames(factoryType, connectionString)
  }

  /** `setDbEngine` of the older facade: only `System.Data.SqlClient`'s factory
      itself is SQL Server. */
  function ClassifyEngineLegacy(factoryType: string, connectionString: string): DBMS {
    if factoryType == LegacySqlClientFactory then SqlServer
    else EngineFromNames(factoryType, connectionString)
  }

  function EngineFor(legacy: bool, factoryType: string, connectionString: string): DBMS {
    if legacy then ClassifyEngineLegacy(factoryType, connectionString)
    else ClassifyEngine(factoryType, connectionString)
  }

  /** The generations classify alike, except for a SQL client factory other than
      `System.Data.SqlClient`'s, which only the current facade recognises. */
  lemma GenerationsDisagreeOnlyOnOtherSqlClients(factoryType: string, connectionString: string)
    ensures ClassifyEngine(factoryType, connectionString) != ClassifyEngineLegacy(factoryType, connectionString)
        <==> Contains(factoryType, "SqlClientFactory") && factoryType != LegacySqlClientFactory
             && EngineFromNames(factoryType, connectionString) != SqlServer
  {
    if factoryType == LegacySqlClientFactory {
      assert OccursAt(factoryType, "SqlClientFactory", 22);
    }
  }

  /** The factory of the newer `Microsoft.Data.SqlClient` package is SQL Server
      for the current facade, but for the older facade only a connection string
      naming SQLOLEDB (and not ORACLE) makes it one. */
  lemma MicrosoftSqlClientClassification(connectionString: string)
    ensures ClassifyEngine("Microsoft.Data.SqlClient.SqlClientFactory", connectionString) == SqlServer
    ensures ClassifyEngineLegacy("Microsoft.Data.SqlClient.SqlClientFactory", connectionString) == SqlServer
        <==> !Contains(ToUpper(connectionString), "ORACLE") && Contains(ToUpper(connectionString), "SQLOLEDB")
  {
    var name := "Microsoft.Data.SqlClient.SqlClientFactory";
    assert OccursAt(name, "SqlClientFactory", 25);
    assert 'O' in "Oracle";
    MissingCharExcludes(name, "Oracle", 'O');
  }

  /** A factory whose type names Oracle decides the engine whatever the
      connection string says, unless it is a SQL client factory. */
  lemma OracleFactoryDecides(legacy: bool, factoryType: string, cs1: string, cs2: string)
    requires Contains(factoryType, "Oracle") && !Contains(factoryType, "SqlClientFactory")
    ensures EngineFor(legacy, factoryType, cs1) == EngineFor(legacy, factoryType, cs2) == Oracle
  {
    if factoryType == LegacySqlClientFactory {
      assert OccursAt(factoryType, "SqlClientFactory", 22);
    }
  }

  // ---------------------------------------------------------------------------
  // SQL text fix-up

  /** Whether the command is the OleDb command, whose parameters are positional. */
  function IsPositionalCommand(legacy: bool, commandType: string): bool {
    if legacy then commandType == LegacyOleDbCommand else Contains(commandType, "OleDbCommand")
  }

  /** The text `fixUpParameterizedStatementForProvider` leaves in a command:
      OleDb commands get `?` placeholders, other Oracle commands get `:` for
      every `@`, and then, for the Oracle engine only, `ISNULL(` becomes
      `NVL(`. */
  function FixedUpText(legacy: bool, engine: DBMS, commandType: string, text: string, names: seq<string>): string {
    var afterParameters :=
      if IsPositionalCommand(legacy, commandType) then ReplaceParameters(text, names)
      else if Contains(commandType, "Oracle") then ReplaceChar(text, '@', ':')
      else text;
    if engine == Oracle then ReplaceAll(afterParameters, "ISNULL(", "NVL(") else afterParameters
  }

  /** An OleDb command keeps no reference to any of its parameters when the
      engine is not Oracle; in particular its `@` signs are never turned into
      colons. The Oracle engine is excluded because its `ISNULL(` rewrite runs
      after the placeholders and can form a reference anew, as
      `OracleRewriteCanFormReference` shows. */
  lemma PositionalFixUpRemovesReferences(legacy: bool, engine: DBMS, commandType: string, text: string, names: seq<string>)
    requires IsPositionalCommand(legacy, commandType) && engine != Oracle
    requires AllParameterNames(names)
    ensures forall k :: 0 <= k < |names| ==>
      NoMatch(FixedUpText(legacy, engine, commandType, text, names), PrefixedName(names[k]))
  {
    NoParameterReferenceRemains(text, names);
  }

  /** On the Oracle engine, an OleDb command whose text reads `@pISNULL(x)`
      and whose one parameter is `pNVL` keeps no reference after the
      placeholder pass, but the later `ISNULL(` rewrite turns the text into
      `@pNVL(x)`, which references that parameter. */
  lemma OracleRewriteCanFormReference(text: string, names: seq<string>)
    requires text == "@pISNULL(x)" && names == ["pNVL"]
    ensures FixedUpText(false, Oracle, LegacyOleDbCommand, text, names) == "@pNVL(x)"
    ensures MatchAt(FixedUpText(false, Oracle, LegacyOleDbCommand, text, names), 0, PrefixedName(names[0]))
  {
    NvlTextMentionsNoParameter(text, names);
    UnmentionedParametersKeepText(text, names);
    assert IsPositionalCommand(false, LegacyOleDbCommand) by {
      assert OccursAt(LegacyOleDbCommand, "OleDbCommand", 18);
    }
    IsNullBecomesNvl(text);
  }

  lemma NvlTextMentionsNoParameter(text: string, names: seq<string>)
    requires text == "@pISNULL(x)" && names == ["pNVL"]
    ensures PrefixedName(names[0]) == "@pNVL"
    ensures forall k :: 0 <= k < |names| ==> NoMatch(text, PrefixedName(names[k]))
  {
    assert names[0][0] == 'p';
    var p := PrefixedName(names[0]);
    assert p == "@" + names[0] == "@pNVL";
    forall i | 0 <= i
      ensures !MatchAt(text, i, p)
    {
      if i == 0 {
        assert text[2] != p[2];
      } else if i < |text| {
        assert text[i] != '@';
      }
    }
  }

  lemma IsNullBecomesNvl(text: string)
    requires text == "@pISNULL(x)"
    ensures ReplaceAll(text, "ISNULL(", "NVL(") == "@pNVL(x)"
  {
    var isnull := "ISNULL(";
    assert text == "@p" + isnull + "x)";
    forall i | 0 <= i < 2
      ensures !OccursAt(text, isnull, i)
    {
      assert text[i] != 'I';
    }
    ReplaceAllFirstAt("@p", isnull, "NVL(", "x)");
    assert "@p" + "NVL(" + "x)" == "@pNVL(x)";
  }

  /** Every `@` disappears from a non-OleDb Oracle command, also after the
      `ISNULL(` rewrite. */
  lemma OracleFixUpRemovesAtSigns(legacy: bool, engine: DBMS, commandType: string, text: string, names: seq<string>)
    requires !IsPositionalCommand(legacy, commandType) && Contains(commandType, "Oracle")
    ensures '@' !in FixedUpText(legacy, engine, commandType, text, names)
  {
    var t := ReplaceChar(text, '@', ':');
    if engine == Oracle {
      ReplaceAllKeepsCharAbsent(t, "ISNULL(", "NVL(", '@');
    }
  }

  /** Text without `ISNULL(` and without parameter syntax to rewrite passes
      through unchanged on every engine. */
  lemma FixUpLeavesPlainTextAlone(legacy: bool, engine: DBMS, commandType: string, text: string, names: seq<string>)
    requires !IsPositionalCommand(legacy, commandType) && !Contains(commandType, "Oracle")
    requires !Contains(text, "ISNULL(")
    ensures FixedUpText(legacy, engine, commandType, text, names) == text
  {
    if engine == Oracle {
      ReplaceAllAbsent(text, "ISNULL(", "NVL(");
    }
  }

  /** `CreateCommand`'s timeout: an explicit non-negative timeout is used as
      given; otherwise a positive provider default is replaced by the current
      value of the public static `DefaultCommandTimeout` (30 until a caller
      assigns it), and a zero ("wait
      indefinitely") or negative provider default is kept. */
  function CommandTimeout(requested: int, providerDefault: int, facadeDefault: int): (t: int)
    ensures requested >= 0 ==> t == requested
    ensures requested < 0 && providerDefault > 0 ==> t == facadeDefault
    ensures requested < 0 && providerDefault <= 0 ==> t == providerDefault
    ensures providerDefault >= 0 && facadeDefault >= 0 ==> t >= 0
    ensures t == requested || t == providerDefault || t == facadeDefault
  {
    if requested >= 0 then requested
    else if providerDefault > 0 then facadeDefault
    else providerDefault
  }

  // ---------------------------------------------------------------------------
  // Outcomes of the driver calls

  /** `DbProviderFactories.GetFactory` inside `setupProvider`: an unknown
      provider becomes "Provider not recognized"; a null factory is reported by
      the current facade and dereferenced by the older one. */
  function ProviderFactory(legacy: bool, lookup: FactoryLookup): (r: Result<Factory, Fault>)
    ensures lookup.Registered? <==> r.Success?
    ensures r.Success? ==> r.value == lookup.factory
    ensures lookup.NotRegistered? ==> r.error == DataAccessError("Provider not recognized", [], None)
  {
    match lookup
    case Registered(f) => Success(f)
    case NotRegistered => Failure(DataAccessError("Provider not recognized", [], None))
    case NullFactory =>
      if legacy then Failure(NullReferenceError)
      else Failure(DataAccessError("A DbProvider Factory was not created.", [], None))
  }

  /** `ExecuteScalar<T>`'s conversion of the scalar: the current facade returns
      `default(T)` for null, and otherwise tries a direct cast and then
      `Convert.ChangeType`; the older one has no null case. A cast that
      succeeds is the result, so `ChangeType`'s failures cannot surface, and
      the generations convert every non-null scalar alike. */
  function ConvertScalar<T>(legacy: bool, v: Value, cast: Value -> Option<T>, change: Value -> Result<T, Fault>, default: T): (r: Result<T, Fault>)
    ensures !legacy && v == Null ==> r == Success(default)
    ensures (legacy || v != Null) && cast(v).Some? ==> r == Success(cast(v).value)
    ensures (legacy || v != Null) && cast(v).None? ==> r == change(v)
  {
    if !legacy && v == Null then Success(default)
    else match cast(v)
      case Some(t) => Success(t)
      case None => change(v)
  }

  // ---------------------------------------------------------------------------
  // The facade

  class Database {
    const legacy: bool
    const info: ConnectionInfo
    const factory: Factory
    var dbEngine: DBMS
    var defaultConnection: Connection?

    constructor (legacy: bool, info: ConnectionInfo, factory: Factory)
      ensures this.legacy == legacy && this.info == info && this.factory == factory
      ensures dbEngine == EngineFor(legacy, factory.typeName, info.connectionString)
      ensures defaultConnection == null
    {
      this.legacy := legacy;
      this.info := info;
      this.factory := factory;
      defaultConnection := null;
      new;
      SetDbEngine();
    }

    /** `setDbEngine`. */
    method SetDbEngine()
      modifies this`dbEngine
      ensures dbEngine == EngineFor(legacy, factory.typeName, info.connectionString)
    {
      if legacy {
        if factory.typeName == LegacySqlClientFactory {
          dbEngine := SqlServer;
        } else if Contains(factory.typeName, "Oracle") {
          dbEngine := Oracle;
        } else if Contains(ToUpper(info.connectionString), "ORACLE") {
          dbEngine := Oracle;
        } else if Contains(ToUpper(info.connectionString), "SQLOLEDB") {
          dbEngine := SqlServer;
        } else {
          dbEngine := Other;
        }
      } else {
        if Contains(factory.typeName, "SqlClientFactory") {
          dbEngine := SqlServer;
        } else if Contains(factory.typeName, "Oracle") {
          dbEngine := Oracle;
        } else if Contains(ToUpper(info.connectionString), "ORACLE") {
          dbEngine := Oracle;
        } else if Contains(ToUpper(info.connectionString), "SQLOLEDB") {
          dbEngine := SqlServer;
        } else {
          dbEngine := Other;
        }
      }
    }

    /** The constructors taking connection information or a provider name and
        a connection string: the string must be present and non-empty, then
        the provider is looked up. */
    static method Connect(legacy: bool, info: Option<ConnectionInfo>, lookup: FactoryLookup) returns (r: Result<Database, Fault>)
      ensures (info.None? || info.value.connectionString == "") ==>
        r == Failure(ArgumentNullError("connectionString cannot be null or empty."))
      ensures info.Some? && info.value.connectionString != "" && ProviderFactory(legacy, lookup).Failure? ==>
        r == Failure(ProviderFactory(legacy, lookup).error)
      ensures r.Success? ==> (fresh(r.value) && r.value.legacy == legacy && info == Some(r.value.info)
        && ProviderFactory(legacy, lookup) == Success(r.value.factory)
        && r.value.defaultConnection == null
        && r.value.dbEngine == EngineFor(legacy, r.value.factory.typeName, r.value.info.connectionString))
    {
      if info.None? || info.value.connectionString == "" {
        r := Failure(ArgumentNullError("connectionString cannot be null or empty."));
        return;
      }
      var f := ProviderFactory(legacy, lookup);
      if f.Failure? {
        r := Failure(f.error);
        return;
      }
      var db := new Database(legacy, info.value, f.value);
      r := Success(db);
    }

    /** The older facade's constructor taking a connection name, resolved in
        the configuration; an empty connection string is accepted here. */
    static method ConnectNamed(name: string, config: map<string, ConnectionInfo>, lookup: FactoryLookup) returns (r: Result<Database, Fault>)
      ensures name !in config ==> r == Failure(DataAccessError("Connection information not found for: " + name, [], None))
      ensures name in config && ProviderFactory(true, lookup).Failure? ==> r == Failure(ProviderFactory(true, lookup).error)
      ensures r.Success? ==> (fresh(r.value) && r.value.legacy && name in config && r.value.info == config[name]
        && ProviderFactory(true, lookup) == Success(r.value.factory)
        && r.value.defaultConnection == null
        && r.value.dbEngine == ClassifyEngineLegacy(r.value.factory.typeName, r.value.info.connectionString))
    {
      if name !in config {
        r := Failure(DataAccessError("Connection information not found for: " + name, [], None));
        return;
      }
      var f := ProviderFactory(true, lookup);
      if f.Failure? {
        r := Failure(f.error);
        return;
      }
      var db := new Database(true, config[name], f.value);
      r := Success(db);
    }

    // -------------------------------------------------------------------------
    // Faults

    function NoConnectionStringFault(): Fault {
      DataAccessError("Cannot create a connection because a database connection string was not provided.", [], None)
    }

    /** The factory yielded no connection: reported by the current facade,
        dereferenced by the older one. */
    function NoConnectionFault(): Fault {
      if legacy then NullReferenceError else DataAccessError("Connection could not be created.", [], None)
    }

    function NoCommandFault(): Fault {
      if legacy then NullReferenceError else DataAccessError("Command could not be created.", [], None)
    }

    /** The `DataAccessException` thrown when opening a connection fails. */
    function OpenFault(cause: Fault): (f: Fault)
      ensures f.DataAccessError? && f.cause == Some(cause)
      ensures |f.data| == 2 && f.data[0] == ("Provider", info.providerName) && f.data[1] == ("Connection String", info.connectionString)
    {
      DataAccessError("The database connection could not be opened.",
        [("Provider", info.providerName), ("Connection String", info.connectionString)], Some(cause))
    }

    /** The `DataAccessException` wrapping a failed driver execution. */
    function ExecFault(message: string, commandText: string, cause: string): (f: Fault)
      ensures f.DataAccessError? && f.message == message && f.cause == Some(DriverError(cause))
      ensures |f.data| == 3 && f.data[0] == ("Provider", info.providerName)
        && f.data[1] == ("Connection String", info.connectionString) && f.data[2] == ("Command Text", commandText)
    {
      DataAccessError(message,
        [("Provider", info.providerName), ("Connection String", info.connectionString), ("Command Text", commandText)],
        Some(DriverError(cause)))
    }

    /** What `OpenConnection(false)` comes to: a missing connection string, a
        factory without connections, or a failed `Open`, each as thrown. */
    function TransientOpen(open: Outcome<string>): Outcome<Fault> {
      if info.connectionString == "" then Fail(NoConnectionStringFault())
      else if !factory.yieldsConnections then Fail(NoConnectionFault())
      else if open.Fail? then Fail(OpenFault(DriverError(open.error)))
      else Pass
    }

    function Wrapped<V>(exec: Result<V, string>, message: string, commandText: string): Result<V, Fault> {
      match exec
      case Success(v) => Success(v)
      case Failure(e) => Failure(ExecFault(message, commandText, e))
    }

    /** What a reader-returning call yields once its connection is ready. */
    function ReaderResult(exec: Result<ResultSet, string>, behavior: set<Behavior>, commandText: string): (r: Result<Reader, Fault>)
      ensures r.Success? <==> exec.Success?
      ensures r.Success? ==> r.value.results == exec.value && r.value.behavior == behavior
      ensures r.Failure? ==> r.error == ExecFault(ReaderMessage, commandText, exec.error)
    {
      match exec
      case Success(rs) => Success(Reader(rs, behavior))
      case Failure(e) => Failure(ExecFault(ReaderMessage, commandText, e))
    }

    /** The result of `ExecuteNonQuery`/`ExecuteScalar` by the connection the
        command had on entry: none (a transient one is opened), or a bound one
        in the given state, whose failing `Open` is not wrapped. */
    function ExecutionResult<V>(bound: bool, boundState: ConnState, open: Outcome<string>, exec: Result<V, string>,
                                transientMessage: string, boundMessage: string, commandText: string): Result<V, Fault> {
      if !bound then
        match TransientOpen(open)
        case Fail(e) => Failure(e)
        case Pass => Wrapped(exec, transientMessage, commandText)
      else if boundState == Closed && open.Fail? then Failure(DriverError(open.error))
      else Wrapped(exec, boundMessage, commandText)
    }

    /** The connection policy of `ExecuteNonQuery` and `ExecuteScalar`: a
        command that came without a connection leaves without one, and a bound
        connection ends in the state it started in. */
    predicate ConnectionRestored(cmd: Command, bound: Connection?, boundState: ConnState)
      reads cmd, bound
    {
      if bound == null then cmd.connection == null
      else cmd.connection == bound && bound.state == boundState
    }

    // -------------------------------------------------------------------------
    // Connections and commands

    /** `CreateConnection`: the default connection is created once and then
        handed out again; otherwise every call yields a fresh, closed
        connection and leaves the default alone. */
    method CreateConnection(useDefault: bool) returns (r: Result<Connection, Fault>)
      modifies if useDefault then {this} else {}
      ensures dbEngine == old(dbEngine)
      ensures info.connectionString == "" ==> r == Failure(NoConnectionStringFault()) && defaultConnection == old(defaultConnection)
      ensures info.connectionString != "" && useDefault && old(defaultConnection) != null ==>
        r == Success(old(defaultConnection)) && defaultConnection == old(defaultConnection)
      ensures info.connectionString != "" && !(useDefault && old(defaultConnection) != null) && !factory.yieldsConnections ==>
        r == Failure(NoConnectionFault()) && defaultConnection == old(defaultConnection)
      ensures info.connectionString != "" && !(useDefault && old(defaultConnection) != null) && factory.yieldsConnections ==>
        r.Success? && fresh(r.value) && r.value.state == Closed && r.value.connectionString == info.connectionString
        && defaultConnection == (if useDefault then r.value else old(defaultConnection))
    {
      if info.connectionString == "" {
        r := Failure(NoConnectionStringFault());
        return;
      }
      if useDefault && defaultConnection != null {
        r := Success(defaultConnection);
        return;
      }
      if !factory.yieldsConnections {
        r := Failure(NoConnectionFault());
        return;
      }
      var connection := new Connection(info.connectionString);
      if useDefault {
        defaultConnection := connection;
      }
      r := Success(connection);
    }

    /** `CreateConnection(true)` twice gives one object; `CreateConnection(false)`
        gives another. */
    method DefaultConnectionIsShared() returns (first: Connection, second: Connection, other: Connection)
      requires info.connectionString != "" && factory.yieldsConnections
      modifies this
      ensures first == second == defaultConnection && other != first
    {
      var a := CreateConnection(true);
      var b := CreateConnection(true);
      var c := CreateConnection(false);
      first, second, other := a.value, b.value, c.value;
    }

    /** `OpenConnection`: create (or reuse the default), then open; any failure
        of `Open` is wrapped with the provider and connection string. */
    method OpenConnection(useDefault: bool, open: Outcome<string>) returns (r: Result<Connection, Fault>)
      modifies if useDefault then {this} else {}, if useDefault then {defaultConnection} else {}
      ensures dbEngine == old(dbEngine)
      ensures !useDefault ==> (defaultConnection == old(defaultConnection)
        && (r.Success? <==> TransientOpen(open) == Pass)
        && (r.Failure? ==> TransientOpen(open) == Fail(r.error))
        && (r.Success? ==> fresh(r.value) && r.value.state == Open && r.value.connectionString == info.connectionString))
      ensures useDefault && info.connectionString == "" ==> r == Failure(NoConnectionStringFault())
      ensures useDefault && info.connectionString != "" && old(defaultConnection) != null ==>
        defaultConnection == old(defaultConnection)
        && (old(defaultConnection.state) != Closed ==>
              r == Failure(OpenFault(InvalidOperationError("The connection was not closed.")))
              && defaultConnection.state == old(defaultConnection.state))
        && (old(defaultConnection.state) == Closed && open.Fail? ==>
              r == Failure(OpenFault(DriverError(open.error))) && defaultConnection.state == Closed)
        && (old(defaultConnection.state) == Closed && open == Pass ==>
              r == Success(defaultConnection) && defaultConnection.state == Open)
      ensures useDefault && info.connectionString != "" && old(defaultConnection) == null ==>
        (!factory.yieldsConnections ==> r == Failure(NoConnectionFault()) && defaultConnection == null)
        && (factory.yieldsConnections ==> (defaultConnection != null && fresh(defaultConnection)
              && (open.Fail? ==> r == Failure(OpenFault(DriverError(open.error))) && defaultConnection.state == Closed)
              && (open == Pass ==> r == Success(defaultConnection) && defaultConnection.state == Open)))
    {
      var created := CreateConnection(useDefault);
      if created.Failure? {
        r := created;
        return;
      }
      var connection := created.value;
      var result := connection.Open(open);
      if result.Fail? {
        r := Failure(OpenFault(result.error));
        return;
      }
      r := Success(connection);
    }

    /** `CreateCommand`: a command of the provider's class, bound to the
        default connection on request, with the chosen timeout; `facadeDefault`
        is the value the static `DefaultCommandTimeout` holds at the call. */
    method CreateCommand(useDefault: bool, timeout: int, facadeDefault: int) returns (r: Result<Command, Fault>)
      ensures factory.command.None? ==> r == Failure(NoCommandFault())
      ensures factory.command.Some? ==> (r.Success? && fresh(r.value)
        && r.value.typeName == factory.command.value.typeName
        && r.value.timeout == CommandTimeout(timeout, factory.command.value.defaultTimeout, facadeDefault)
        && r.value.connection == (if useDefault then defaultConnection else null)
        && r.value.text == "" && !r.value.isStoredProcedure && r.value.parameters == [] && r.value.transaction == null)
    {
      if factory.command.None? {
        r := Failure(NoCommandFault());
        return;
      }
      var command := new Command(factory.command.value.typeName, factory.command.value.defaultTimeout);
      if useDefault {
        command.connection := defaultConnection;
      }
      if timeout >= 0 {
        command.timeout := timeout;
      } else if command.timeout > 0 {
        command.timeout := facadeDefault;
      }
      r := Success(command);
    }

    /** `GetStoredProcCommand`: a new command naming the stored procedure. */
    method GetStoredProcCommand(procedure: string, useDefault: bool, timeout: int, facadeDefault: int) returns (r: Result<Command, Fault>)
      ensures factory.command.None? ==> r == Failure(NoCommandFault())
      ensures factory.command.Some? ==> (r.Success? && fresh(r.value)
        && r.value.typeName == factory.command.value.typeName
        && r.value.timeout == CommandTimeout(timeout, factory.command.value.defaultTimeout, facadeDefault)
        && r.value.connection == (if useDefault then defaultConnection else null)
        && r.value.text == procedure && r.value.isStoredProcedure && r.value.parameters == [] && r.value.transaction == null)
    {
      r := CreateCommand(false, timeout, facadeDefault);
      if r.Failure? {
        return;
      }
      var command := r.value;
      command.text := procedure;
      command.isStoredProcedure := true;
      if useDefault {
        command.connection := defaultConnection;
      }
    }

    // -------------------------------------------------------------------------
    // Statement fix-up

    /** `replaceParametersWithPlaceHolder`: each parameter in collection order
        rewrites its references, and the text is stored once at the end. */
    method ReplaceParametersWithPlaceHolder(cmd: Command)
      modifies cmd`text
      ensures cmd.text == ReplaceParameters(old(cmd.text), ParameterNames(cmd.parameters))
    {
      var names := ParameterNames(cmd.parameters);
      var commandText := cmd.text;
      var i := 0;
      while i < |cmd.parameters|
        invariant 0 <= i <= |cmd.parameters|
        invariant ReplaceParameters(commandText, names[i..]) == ReplaceParameters(old(cmd.text), names)
      {
        var name := cmd.parameters[i].name;
        if !StartsWith(name, "@") {
          name := "@" + name;
        }
        assert names[i..][1..] == names[i + 1..];
        commandText := ReplaceMatches(commandText, name);
        i := i + 1;
      }
      assert names[i..] == [];
      cmd.text := commandText;
    }

    /** `handleProviderSpecificParameters`: only OleDb commands are rewritten. */
    method HandleProviderSpecificParameters(cmd: Command) returns (handled: bool)
      modifies cmd`text
      ensures handled == IsPositionalCommand(legacy, cmd.typeName)
      ensures cmd.text == if handled then ReplaceParameters(old(cmd.text), ParameterNames(cmd.parameters)) else old(cmd.text)
    {
      handled := IsPositionalCommand(legacy, cmd.typeName);
      if handled {
        ReplaceParametersWithPlaceHolder(cmd);
      }
    }

    /** `fixUpParameterizedStatementForProvider`. */
    method FixUpParameterizedStatement(cmd: Command)
      modifies cmd`text
      ensures cmd.text == FixedUpText(legacy, dbEngine, cmd.typeName, old(cmd.text), ParameterNames(cmd.parameters))
    {
      var handled := HandleProviderSpecificParameters(cmd);
      if !handled && Contains(cmd.typeName, "Oracle") {
        cmd.text := ReplaceChar(cmd.text, '@', ':');
      }
      if dbEngine == Oracle {
        cmd.text := ReplaceAll(cmd.text, "ISNULL(", "NVL(");
      }
    }

    // -------------------------------------------------------------------------
    // Execution with the connection managed per call

    /** The body shared by `ExecuteNonQuery` and `ExecuteScalar` and their
        async forms: with no connection a transient one is opened, bound,
        closed and unbound whatever the driver does; a closed bound connection
        is opened and closed again; an open one is left open. */
    method ExecuteManaged<V>(cmd: Command, open: Outcome<string>, exec: Result<V, string>,
                             transientMessage: string, boundMessage: string)
      returns (r: Result<V, Fault>, ghost transient: Connection?)
      modifies cmd`text, cmd`connection, cmd.connection
      ensures cmd.text == FixedUpText(legacy, dbEngine, cmd.typeName, old(cmd.text), ParameterNames(cmd.parameters))
      ensures ConnectionRestored(cmd, old(cmd.connection), old(if cmd.connection == null then Closed else cmd.connection.state))
      ensures r == ExecutionResult(old(cmd.connection) != null, old(if cmd.connection == null then Closed else cmd.connection.state),
                                   open, exec, transientMessage, boundMessage, cmd.text)
      ensures old(cmd.connection) == null ==> (transient != null <==> TransientOpen(open) == Pass)
      ensures transient != null ==> fresh(transient) && transient.state == Closed
    {
      FixUpParameterizedStatement(cmd);
      transient := null;
      if cmd.connection == null {
        var openedHere := OpenConnection(false, open);
        if openedHere.Failure? {
          r := Failure(openedHere.error);
          return;
        }
        var connection := openedHere.value;
        cmd.connection := connection;
        r := Wrapped(exec, transientMessage, cmd.text);
        connection.Close();
        cmd.connection := null;
        transient := connection;
      } else {
        var connectionOpened := false;
        if cmd.connection.state == Closed {
          var o := cmd.connection.Open(open);
          if o.Fail? {
            r := Failure(o.error);
            return;
          }
          connectionOpened := true;
        }
        r := Wrapped(exec, boundMessage, cmd.text);
        if connectionOpened {
          cmd.connection.Close();
        }
      }
    }

    /** `ExecuteNonQuery(command)`. */
    method ExecuteNonQuery(cmd: Command, open: Outcome<string>, exec: Result<int, string>) returns (r: Result<int, Fault>)
      modifies cmd`text, cmd`connection, cmd.connection
      ensures cmd.text == FixedUpText(legacy, dbEngine, cmd.typeName, old(cmd.text), ParameterNames(cmd.parameters))
      ensures ConnectionRestored(cmd, old(cmd.connection), old(if cmd.connection == null then Closed else cmd.connection.state))
      ensures r == ExecutionResult(old(cmd.connection) != null, old(if cmd.connection == null then Closed else cmd.connection.state),
                                   open, exec, NonQueryMessage, NonQueryMessage, cmd.text)
    {
      ghost var transient;
      r, transient := ExecuteManaged(cmd, open, exec, NonQueryMessage, NonQueryMessage);
    }

    /** `ExecuteScalar(command)`; the bound path reuses the non-query message. */
    method ExecuteScalar(cmd: Command, open: Outcome<string>, exec: Result<Value, string>) returns (r: Result<Value, Fault>)
      modifies cmd`text, cmd`connection, cmd.connection
      ensures cmd.text == FixedUpText(legacy, dbEngine, cmd.typeName, old(cmd.text), ParameterNames(cmd.parameters))
      ensures ConnectionRestored(cmd, old(cmd.connection), old(if cmd.connection == null then Closed else cmd.connection.state))
      ensures r == ExecutionResult(old(cmd.connection) != null, old(if cmd.connection == null then Closed else cmd.connection.state),
                                   open, exec, ScalarMessage, NonQueryMessage, cmd.text)
    {
      ghost var transient;
      r, transient := ExecuteManaged(cmd, open, exec, ScalarMessage, NonQueryMessage);
    }

    /** `ExecuteNonQueryAsync(command)`, run to completion. */
    method ExecuteNonQueryAsync(cmd: Command, open: Outcome<string>, exec: Result<int, string>) returns (r: Result<int, Fault>)
      modifies cmd`text, cmd`connection, cmd.connection
      ensures cmd.text == FixedUpText(legacy, dbEngine, cmd.typeName, old(cmd.text), ParameterNames(cmd.parameters))
      ensures ConnectionRestored(cmd, old(cmd.connection), old(if cmd.connection == null then Closed else cmd.connection.state))
      ensures r == ExecutionResult(old(cmd.connection) != null, old(if cmd.connection == null then Closed else cmd.connection.state),
                                   open, exec, NonQueryMessage, NonQueryMessage, cmd.text)
    {
      ghost var transient;
      r, transient := ExecuteManaged(cmd, open, exec, NonQueryMessage, NonQueryMessage);
    }

    /** `ExecuteScalarAsync(command)`, run to completion. */
    method ExecuteScalarAsync(cmd: Command, open: Outcome<string>, exec: Result<Value, string>) returns (r: Result<Value, Fault>)
      modifies cmd`text, cmd`connection, cmd.connection
      ensures cmd.text == FixedUpText(legacy, dbEngine, cmd.typeName, old(cmd.text), ParameterNames(cmd.parameters))
      ensures ConnectionRestored(cmd, old(cmd.connection), old(if cmd.connection == null then Closed else cmd.connection.state))
      ensures r == ExecutionResult(old(cmd.connection) != null, old(if cmd.connection == null then Closed else cmd.connection.state),
                                   open, exec, ScalarMessage, NonQueryMessage, cmd.text)
    {
      ghost var transient;
      r, transient := ExecuteManaged(cmd, open, exec, ScalarMessage, NonQueryMessage);
    }

    /** `ExecuteScalar<T>` and `ExecuteScalarAsync<T>`: the scalar, converted. */
    method ExecuteScalarAs<T>(cmd: Command, cast: Value -> Option<T>, change: Value -> Result<T, Fault>, default: T,
                              open: Outcome<string>, exec: Result<Value, string>) returns (r: Result<T, Fault>)
      modifies cmd`text, cmd`connection, cmd.connection
      ensures cmd.text == FixedUpText(legacy, dbEngine, cmd.typeName, old(cmd.text), ParameterNames(cmd.parameters))
      ensures ConnectionRestored(cmd, old(cmd.connection), old(if cmd.connection == null then Closed else cmd.connection.state))
      ensures var s := ExecutionResult(old(cmd.connection) != null, old(if cmd.connection == null then Closed else cmd.connection.state),
                                       open, exec, ScalarMessage, NonQueryMessage, cmd.text);
              r == if s.Failure? then Failure(s.error) else ConvertScalar(legacy, s.value, cast, change, default)
    {
      var s := ExecuteScalar(cmd, open, exec);
      if s.Failure? {
        r := Failure(s.error);
        return;
      }
      r := ConvertScalar(legacy, s.value, cast, change, default);
    }

    // -------------------------------------------------------------------------
    // Execution inside a caller's transaction

    /** The transaction overloads: the transaction is attached when given and
        the connection is used as it is. */
    method ExecuteInTransaction<V>(cmd: Command, tx: Transaction?, exec: Result<V, string>, message: string) returns (r: Result<V, Fault>)
      modifies cmd`text, cmd`transaction
      ensures cmd.transaction == if tx != null then tx else old(cmd.transaction)
      ensures cmd.text == FixedUpText(legacy, dbEngine, cmd.typeName, old(cmd.text), ParameterNames(cmd.parameters))
      ensures r == Wrapped(exec, message, cmd.text)
    {
      if tx != null {
        cmd.transaction := tx;
      }
      FixUpParameterizedStatement(cmd);
      r := Wrapped(exec, message, cmd.text);
    }

    /** `ExecuteNonQuery(command, transaction)`. */
    method ExecuteNonQueryInTransaction(cmd: Command, tx: Transaction?, exec: Result<int, string>) returns (r: Result<int, Fault>)
      modifies cmd`text, cmd`transaction
      ensures cmd.transaction == if tx != null then tx else old(cmd.transaction)
      ensures cmd.text == FixedUpText(legacy, dbEngine, cmd.typeName, old(cmd.text), ParameterNames(cmd.parameters))
      ensures r == Wrapped(exec, NonQueryMessage, cmd.text)
    {
      r := ExecuteInTransaction(cmd, tx, exec, NonQueryMessage);
    }

    /** `ExecuteScalar(command, transaction)`; its failure message is the
        reader's. */
    method ExecuteScalarInTransaction(cmd: Command, tx: Transaction?, exec: Result<Value, string>) returns (r: Result<Value, Fault>)
      modifies cmd`text, cmd`transaction
      ensures cmd.transaction == if tx != null then tx else old(cmd.transaction)
      ensures cmd.text == FixedUpText(legacy, dbEngine, cmd.typeName, old(cmd.text), ParameterNames(cmd.parameters))
      ensures r == Wrapped(exec, ReaderMessage, cmd.text)
    {
      r := ExecuteInTransaction(cmd, tx, exec, ReaderMessage);
    }

    /** `ExecuteReader(command, transaction)`: default behaviour, never
        `CloseConnection`. */
    method ExecuteReaderInTransaction(cmd: Command, tx: Transaction?, exec: Result<ResultSet, string>) returns (r: Result<Reader, Fault>)
      modifies cmd`text, cmd`transaction
      ensures cmd.transaction == if tx != null then tx else old(cmd.transaction)
      ensures cmd.text == FixedUpText(legacy, dbEngine, cmd.typeName, old(cmd.text), ParameterNames(cmd.parameters))
      ensures r == ReaderResult(exec, {}, cmd.text)
    {
      var rs := ExecuteInTransaction(cmd, tx, exec, ReaderMessage);
      r := if rs.Success? then Success(Reader(rs.value, {})) else Failure(rs.error);
    }

    // -------------------------------------------------------------------------
    // Readers

    /** The connection policy of `ExecuteReader`: the connection is opened when
        missing or closed and then left open for the reader, which closes it on
        disposal exactly when the facade opened it. */
    predicate ReaderPolicy(cmd: Command, bound: Connection?, boundState: ConnState, behavior: set<Behavior>,
                           open: Outcome<string>, exec: Result<ResultSet, string>, r: Result<Reader, Fault>)
      reads cmd, bound, cmd.connection
    {
      if bound == null then
        match TransientOpen(open)
        case Fail(e) => cmd.connection == null && r == Failure(e)
        case Pass => cmd.connection != null && cmd.connection.state == Open
                     && r == ReaderResult(exec, behavior + {CloseConnection}, cmd.text)
      else
        cmd.connection == bound &&
        if boundState == Closed && open.Fail? then bound.state == Closed && r == Failure(DriverError(open.error))
        else if boundState == Closed then bound.state == Open && r == ReaderResult(exec, behavior + {CloseConnection}, cmd.text)
        else bound.state == boundState && r == ReaderResult(exec, behavior, cmd.text)
    }

    /** A reader asks to close its connection exactly when the caller asked
        for it or the facade had to open the connection. */
    lemma ReaderClosesWhatItOpened(cmd: Command, bound: Connection?, boundState: ConnState, behavior: set<Behavior>,
                                   open: Outcome<string>, exec: Result<ResultSet, string>, r: Result<Reader, Fault>)
      requires ReaderPolicy(cmd, bound, boundState, behavior, open, exec, r) && r.Success?
      ensures CloseConnection in r.value.behavior <==> CloseConnection in behavior || bound == null || boundState == Closed
      ensures r.value.behavior - {CloseConnection} == behavior - {CloseConnection}
    {
    }

    /** Opens the command's connection for a reader when needed. */
    method BindForReader(cmd: Command, open: Outcome<string>) returns (openedHere: bool, failure: Option<Fault>)
      modifies cmd`connection, cmd.connection
      ensures old(cmd.connection) == null ==>
        (failure.None? <==> TransientOpen(open) == Pass) && (failure.Some? ==> TransientOpen(open) == Fail(failure.value))
        && (failure.Some? ==> cmd.connection == null)
        && (failure.None? ==> openedHere && cmd.connection != null && fresh(cmd.connection) && cmd.connection.state == Open)
      ensures old(cmd.connection) != null ==> cmd.connection == old(cmd.connection)
      ensures old(cmd.connection) != null && old(cmd.connection.state) == Closed ==>
        (open.Fail? ==> failure == Some(DriverError(open.error)) && cmd.connection.state == Closed)
        && (open == Pass ==> failure.None? && openedHere && cmd.connection.state == Open)
      ensures old(cmd.connection) != null && old(cmd.connection.state) != Closed ==>
        failure.None? && !openedHere && cmd.connection.state == old(cmd.connection.state)
    {
      openedHere, failure := false, None;
      if cmd.connection == null {
        var connection := OpenConnection(false, open);
        if connection.Failure? {
          failure := Some(connection.error);
          return;
        }
        cmd.connection := connection.value;
        openedHere := true;
      } else if cmd.connection.state == Closed {
        var o := cmd.connection.Open(open);
        if o.Fail? {
          failure := Some(o.error);
          return;
        }
        openedHere := true;
      }
    }

    /** `ExecuteReader(command, behavior)`. The connection stays open when the
        driver fails, as the facade does not close it. */
    method ExecuteReader(cmd: Command, behavior: set<Behavior>, open: Outcome<string>, exec: Result<ResultSet, string>)
      returns (r: Result<Reader, Fault>)
      modifies cmd`text, cmd`connection, cmd.connection
      ensures cmd.text == FixedUpText(legacy, dbEngine, cmd.typeName, old(cmd.text), ParameterNames(cmd.parameters))
      ensures ReaderPolicy(cmd, old(cmd.connection), old(if cmd.connection == null then Closed else cmd.connection.state),
                           behavior, open, exec, r)
      ensures old(cmd.connection) == null && cmd.connection != null ==> fresh(cmd.connection)
    {
      FixUpParameterizedStatement(cmd);
      var openedHere, failure := BindForReader(cmd, open);
      if failure.Some? {
        r := Failure(failure.value);
        return;
      }
      r := ReaderResult(exec, if openedHere then behavior + {CloseConnection} else behavior, cmd.text);
    }

    /** `ExecuteReaderAsync(command, behavior, transaction)`: with a transaction
        the command is only enlisted and its connection used as it is. */
    method ExecuteReaderAsync(cmd: Command, behavior: set<Behavior>, tx: Transaction?, open: Outcome<string>,
                              exec: Result<ResultSet, string>) returns (r: Result<Reader, Fault>)
      modifies cmd`text, cmd`connection, cmd`transaction, cmd.connection
      ensures cmd.text == FixedUpText(legacy, dbEngine, cmd.typeName, old(cmd.text), ParameterNames(cmd.parameters))
      ensures tx != null ==> (cmd.transaction == tx && cmd.connection == old(cmd.connection)
        && (cmd.connection != null ==> cmd.connection.state == old(cmd.connection.state))
        && r == ReaderResult(exec, behavior, cmd.text))
      ensures tx == null ==> (cmd.transaction == old(cmd.transaction)
        && ReaderPolicy(cmd, old(cmd.connection), old(if cmd.connection == null then Closed else cmd.connection.state),
                        behavior, open, exec, r)
        && (old(cmd.connection) == null && cmd.connection != null ==> fresh(cmd.connection)))
    {
      var openedHere := false;
      FixUpParameterizedStatement(cmd);
      if tx != null {
        cmd.transaction := tx;
      } else {
        var failure;
        openedHere, failure := BindForReader(cmd, open);
        if failure.Some? {
          r := Failure(failure.value);
          return;
        }
      }
      r := ReaderResult(exec, if openedHere then behavior + {CloseConnection} else behavior, cmd.text);
    }

    /** Disposing a reader closes its connection when it was executed with
        `CloseConnection`. */
    method DisposeReader(reader: Reader, connection: Connection)
      modifies connection
      ensures connection.state == if CloseConnection in reader.behavior then Closed else old(connection.state)
    {
      if CloseConnection in reader.behavior {
        connection.Close();
      }
    }

    function CallbackResult<T>(exec: Result<ResultSet, string>, body: ResultSet -> Result<T, Fault>, commandText: string): Result<T, Fault> {
      match exec
      case Success(rs) => body(rs)
      case Failure(e) => Failure(ExecFault(ReaderMessage, commandText, e))
    }

    /** The callback overloads of `ExecuteReader` and `ExecuteReaderAsync`
        (`body` is the action or function given the reader). Unless the bound
        connection is open, a brand-new connection is opened, bound to the
        command, and disposed after the body; the transaction argument is then
        dropped. Otherwise the transaction is attached and the reader runs on
        the open connection. */
    method ExecuteReaderWith<T>(cmd: Command, body: ResultSet -> Result<T, Fault>, behavior: set<Behavior>, tx: Transaction?,
                                open: Outcome<string>, exec: Result<ResultSet, string>) returns (r: Result<T, Fault>)
      modifies cmd`text, cmd`connection, cmd`transaction, cmd.connection
      ensures old(cmd.connection == null || cmd.connection.state != Open) ==>
        cmd.transaction == old(cmd.transaction)
        && (old(cmd.connection) != null ==> old(cmd.connection).state == old(cmd.connection.state))
        && (TransientOpen(open).Fail? ==>
              r == Failure(TransientOpen(open).error) && cmd.connection == old(cmd.connection) && cmd.text == old(cmd.text))
        && (TransientOpen(open) == Pass ==>
              cmd.connection != null && fresh(cmd.connection) && cmd.connection.state == Closed
              && cmd.text == FixedUpText(legacy, dbEngine, cmd.typeName, old(cmd.text), ParameterNames(cmd.parameters))
              && r == CallbackResult(exec, body, cmd.text))
      ensures old(cmd.connection != null && cmd.connection.state == Open) ==>
        cmd.connection == old(cmd.connection)
        && cmd.transaction == (if tx != null then tx else old(cmd.transaction))
        && cmd.text == FixedUpText(legacy, dbEngine, cmd.typeName, old(cmd.text), ParameterNames(cmd.parameters))
        && cmd.connection.state == (if exec.Success? && CloseConnection in behavior then Closed else Open)
        && r == CallbackResult(exec, body, cmd.text)
    {
      var needToOpen := cmd.connection == null || cmd.connection.state != Open;
      if needToOpen {
        var openedHere := OpenConnection(false, open);
        if openedHere.Failure? {
          r := Failure(openedHere.error);
          return;
        }
        var connection := openedHere.value;
        cmd.connection := connection;
        var reader := ExecuteReader(cmd, behavior, open, exec);
        if reader.Success? {
          r := body(reader.value.results);
          DisposeReader(reader.value, connection);
        } else {
          r := Failure(reader.error);
        }
        connection.Close();
      } else {
        if tx != null {
          cmd.transaction := tx;
        }
        var reader := ExecuteReader(cmd, behavior, open, exec);
        if reader.Success? {
          r := body(reader.value.results);
          DisposeReader(reader.value, cmd.connection);
        } else {
          r := Failure(reader.error);
        }
      }
    }

    // -------------------------------------------------------------------------
    // Data adapters

    /** `FillDataAdapter`: an adapter without a select command is refused; a
        select command without a connection gets a new, unopened one. */
    method FillDataAdapter(adapter: Adapter, fill: Outcome<string>) returns (r: Outcome<Fault>)
      modifies adapter.selectCommand
      ensures adapter.selectCommand == null ==>
        r == Fail(DataAccessError("Could not fill adapter without a command.", [], Some(ArgumentNullError("adapter.SelectCommand"))))
      ensures adapter.selectCommand != null && old(adapter.selectCommand.connection) != null ==>
        adapter.selectCommand.connection == old(adapter.selectCommand.connection)
        && r == (if fill.Fail? then Fail(DriverError(fill.error)) else Pass)
      ensures adapter.selectCommand != null && old(adapter.selectCommand.connection) == null ==>
        if info.connectionString == "" then r == Fail(NoConnectionStringFault()) && adapter.selectCommand.connection == null
        else if !factory.yieldsConnections then r == Fail(NoConnectionFault()) && adapter.selectCommand.connection == null
        else (adapter.selectCommand.connection != null && fresh(adapter.selectCommand.connection)
              && adapter.selectCommand.connection.state == Closed
              && r == (if fill.Fail? then Fail(DriverError(fill.error)) else Pass))
    {
      var select := adapter.selectCommand;
      if select == null {
        r := Fail(DataAccessError("Could not fill adapter without a command.", [], Some(ArgumentNullError("adapter.SelectCommand"))));
        return;
      }
      if select.connection == null {
        var created := CreateConnection(false);
        if created.Failure? {
          r := Fail(created.error);
          return;
        }
        select.connection := created.value;
      }
      r := if fill.Fail? then Fail(DriverError(fill.error)) else Pass;
    }
  }
}

# Ogre-DA data access core, modelled in Dafny

Ogre-DA is a thin data-access layer over ADO.NET. This project models its core:

- **The `Database` facade**, in its current generation (`DataAccess/Database.cs`,
  `DataAccess/DatabaseAsync.cs`) and its older one (`OgreDA/Database.cs`,
  `OgreDA/OgreDA.DataAccess/Database.cs`). It looks up the provider factory and
  classifies the engine as SQL Server, Oracle or other. It creates connections and
  commands, and rewrites the command text for the provider. Around every execution
  it decides whether to open, bind, close and unbind a connection.
- **The `DbCommand` extensions**: building parameters, GUID and binary encodings,
  reading a GUID parameter back, enlisting in a transaction, and portable SQL tokens.
- **The `DbDataReader` extensions**: getters that turn a database null into null, a
  default or `Guid.Empty`.
- **The ORM**:
  - `ObjectMap<T>`, which builds the tables from column key to property and from
    property name to column key;
  - the property-type tests;
  - `DataReaderPropertySetters<T>`, the per-result plan of which column feeds which
    property and through which conversion;
  - `MapToObject`, which applies the plan to one row;
  - `QueryAsync`, which maps every row of a query;
  - `SqlSelectClause`.

## How the model is built

**Ado.** The ADO.NET objects the facade drives are reduced to what its decisions
read and write:

- a connection's state;
- a command's text, parameters, connection and transaction;
- the values a reader yields;
- the exceptions thrown, as a `Fault` datatype.

**Driver calls.** A driver call (`Open`, `ExecuteNonQuery`, `ExecuteReader`,
`Fill`) is not modelled. Its outcome is a parameter of the operation that makes it.

**Statics.** The public static `DefaultCommandTimeout` can be assigned by any
caller, so `CreateCommand` and `GetStoredProcCommand` take its current value as a
parameter.

**Failures.** Each C# `throw` becomes a `Failure` carrying the fault the code
builds, with its message and its data entries.

**Mutable objects.** These are classes whose methods state their whole new state:

- the facade;
- connections and commands;
- `ObjectMap`;
- `DataReaderPropertySetters`.

**Pure logic.** These are functions, proved against lemmas:

- engine classification;
- the text rewrites;
- the getters;
- the setter choice;
- the plan and row mapping.

**Loops.** Each loop of the source is a method with invariants, proved equal to a
left-fold specification function:

- `replaceParametersWithPlaceHolder`;
- `configureMapping`;
- `getPropertySetters`;
- `MapToObject`;
- the `while (reader.Read())` loop of `QueryAsync`;
- `GetGuidParameterValue`.

**Generations.** The current and older facades differ in a few decisions. A
`legacy` flag selects the older behaviour:

- the SQL client test;
- the OleDb test;
- a null factory, connection or command, which the older code dereferences;
- the null scalar.

Reflection is replaced by an explicit description of each model type: its `Table`
attribute, its properties with their `Alias` attributes, and the values `new T()`
holds.

## Model

| member | source | states |
|---|---|---|
| Facade.GenerationsDisagreeOnlyOnOtherSqlClients | DataAccess/Database.cs:625-642 | The two `setDbEngine` versions classify alike except for a factory type that mentions SqlClientFactory, is not System.Data.SqlClient's, and is not otherwise SQL Server (compare OgreDA/Database.cs:686-703). |
| Facade.MicrosoftSqlClientClassification | OgreDA/Database.cs:686-703 | Microsoft.Data.SqlClient's factory is SQL Server for the current facade. For the older one it is SQL Server only when the connection string names SQLOLEDB and not ORACLE. |
| Facade.OracleFactoryDecides | DataAccess/Database.cs:625-642 | A factory type naming Oracle (and not SqlClientFactory) is Oracle whatever the connection string says, in both generations. |
| Facade.PositionalFixUpRemovesReferences | DataAccess/Database.cs:643-663 | After the fix-up of an OleDb command on a non-Oracle engine, no reference to any of its parameters ending on a word boundary remains. |
| Facade.OracleRewriteCanFormReference | DataAccess/Database.cs:643-663 | On the Oracle engine the later ISNULL( to NVL( rewrite can form a parameter reference: `@pISNULL(x)` with parameter `pNVL` becomes `@pNVL(x)`, which references it. |
| Facade.OracleFixUpRemovesAtSigns | DataAccess/Database.cs:643-654 | A non-OleDb Oracle command keeps no `@` after the fix-up, even after the ISNULL( to NVL( rewrite. |
| Facade.FixUpLeavesPlainTextAlone | DataAccess/Database.cs:643-654 | Text without ISNULL( in a command that is neither OleDb nor Oracle is unchanged on every engine. |
| Facade.CommandTimeout | DataAccess/Database.cs:149-156 | A non-negative requested timeout is used. Otherwise a positive provider default becomes the current value of the static `DefaultCommandTimeout` (30 until a caller assigns it, :11), and a zero or negative one is kept. The result is one of the three, and never negative when neither default is. |
| Facade.ProviderFactory | DataAccess/Database.cs:602-624 | Success exactly for a registered provider. An unknown provider fails with "Provider not recognized". A null factory is reported (current) or dereferenced (older, OgreDA/Database.cs:667-685). |
| Facade.ConvertScalar | DataAccess/Database.cs:587-600 | Null gives `default(T)` in the current generation. Otherwise a direct cast that succeeds is the result and `ChangeType` is consulted only after a failed cast, so both generations convert every non-null scalar alike (older: OgreDA/Database.cs:609-625). |
| Facade.Database.constructor | DataAccess/Database.cs:35-43 | A new facade holds the connection information and factory, no default connection, and the engine `setDbEngine` computes. |
| Facade.Database.SetDbEngine | DataAccess/Database.cs:625-642 | The engine is the generation's classification of the factory type and connection string. |
| Facade.Database.Connect | DataAccess/Database.cs:35-64 | A missing or empty connection string throws ArgumentNullException. A provider lookup failure is the constructor's. On success the facade is fresh, with no default connection and the classified engine (older: OgreDA/Database.cs:64-93). |
| Facade.Database.ConnectNamed | OgreDA/Database.cs:43-53 | An unknown connection name fails with "Connection information not found for: " and the name. Otherwise the provider is set up from the configured entry. |
| Facade.Database.OpenFault | DataAccess/Database.cs:122-128 | The open failure is a DataAccessException wrapping the cause, with the Provider and Connection String data entries in that order. |
| Facade.Database.ExecFault | DataAccess/Database.cs:230-237 | The execution failure wraps the driver error, with the Provider, Connection String and Command Text entries. |
| Facade.Database.ReaderResult | DataAccess/Database.cs:347-358 | A reader exactly when the driver succeeds, carrying its results and behaviour. Otherwise the wrapped "Could not execute the ExecuteReader command." failure. |
| Facade.Database.CreateConnection | DataAccess/Database.cs:77-102 | An empty connection string fails. The default connection, once made, is handed out again. Otherwise a fresh closed connection with the facade's string, remembered only as the default when asked. A factory yielding no connection fails. |
| Facade.Database.DefaultConnectionIsShared | DataAccess/Database.cs:84-97 | Two calls asking for the default connection return the same object, and a call not asking for it returns another. |
| Facade.Database.OpenConnection | DataAccess/Database.cs:115-130 | The connection `CreateConnection` gives is opened. A failed Open (including reopening an open default connection) becomes the wrapped open failure, and the connection stays as it was. |
| Facade.Database.CreateCommand | DataAccess/Database.cs:139-160 | A fresh command of the provider's class with empty text, no parameters, no transaction, the default connection on request and the timeout `CommandTimeout` chooses from the request, the provider default and the static's current value. A factory yielding no command fails. |
| Facade.Database.GetStoredProcCommand | DataAccess/Database.cs:171-181 | As `CreateCommand`, with the procedure name as text and the stored-procedure command type. |
| Facade.Database.ReplaceParametersWithPlaceHolder | DataAccess/Database.cs:664-679 | The text is rewritten by each parameter's `@name\b` pattern in collection order, and stored once (older: OgreDA/OgreDA.DataAccess/Database.cs:21-36). |
| Facade.Database.HandleProviderSpecificParameters | DataAccess/Database.cs:655-663 | It reports handling exactly for an OleDb command, which alone is rewritten (older: OgreDA/OgreDA.DataAccess/Database.cs:12-20). |
| Facade.Database.FixUpParameterizedStatement | DataAccess/Database.cs:643-654 | The new text is the fix-up function of the old text, the command class, the engine and the parameter names. |
| Facade.Database.ExecuteManaged | DataAccess/Database.cs:215-273 | A command without a connection gets a transient one that is opened, bound, closed and unbound whatever the driver does. A closed bound connection is opened and closed again. An open one is left open. The result is the open failure or the wrapped driver outcome. |
| Facade.Database.ExecuteNonQuery | DataAccess/Database.cs:215-273 | Fix-up, connection restored to its state on entry, and the result of the managed execution with the non-query message. |
| Facade.Database.ExecuteScalar | DataAccess/Database.cs:491-549 | As `ExecuteNonQuery`, with the ExecuteScalar message on the transient path and the non-query message on the bound path. |
| Facade.Database.ExecuteNonQueryAsync | DataAccess/DatabaseAsync.cs:190-248 | The same contract as `ExecuteNonQuery`. |
| Facade.Database.ExecuteScalarAsync | DataAccess/DatabaseAsync.cs:117-175 | The same contract as `ExecuteScalar`. |
| Facade.Database.ExecuteScalarAs | DataAccess/DatabaseAsync.cs:176-189 | The scalar's failure, or the scalar converted: default(T) for null (current), else a cast, else ChangeType (also DataAccess/Database.cs:587-600). |
| Facade.Database.ExecuteInTransaction | DataAccess/Database.cs:291-310 | A given transaction is attached and null keeps the old one. The text is fixed up and the connection is used as it is. |
| Facade.Database.ExecuteNonQueryInTransaction | DataAccess/Database.cs:291-310 | As above, with the non-query message. |
| Facade.Database.ExecuteScalarInTransaction | DataAccess/Database.cs:566-585 | As above, with the reader's message, which the source uses here. |
| Facade.Database.ExecuteReaderInTransaction | DataAccess/Database.cs:378-397 | As above, and the reader has the default behaviour, never CloseConnection. |
| Facade.Database.ReaderClosesWhatItOpened | DataAccess/Database.cs:332-359 | A reader asks to close its connection exactly when the caller asked or the facade had to open it. Other behaviour flags are passed through. |
| Facade.Database.BindForReader | DataAccess/Database.cs:334-346 | A missing connection is opened and bound. A closed one is opened. An open one is left alone. `openedHere` says which. |
| Facade.Database.ExecuteReader | DataAccess/Database.cs:332-359 | The reader policy: the connection is opened when missing or closed and left open for the reader, which carries CloseConnection in that case. The connection is not closed when the driver fails. |
| Facade.Database.ExecuteReaderAsync | DataAccess/DatabaseAsync.cs:9-44 | With a transaction the command is only enlisted and its connection used as it is. Without one it follows the reader policy. |
| Facade.Database.DisposeReader | DataAccess/Database.cs:436-439 | Disposing a reader closes its connection exactly when it carries CloseConnection. |
| Facade.Database.ExecuteReaderWith | DataAccess/Database.cs:402-473 | Unless the bound connection is open, a brand-new connection is opened, bound, used and left closed, and the transaction argument is dropped. Otherwise the transaction is attached and the body runs on the open connection. The result is the body's or the failure (async: DataAccess/DatabaseAsync.cs:45-116). |
| Facade.Database.FillDataAdapter | OgreDA/Database.cs:654-665 | An adapter without a select command is refused. A select command without a connection gets a new unopened one. The fill outcome is passed through. |
| CommandExtensions.NewParameter | DataAccess/DbCommandExtensions.cs:91-119 | Name, direction, nullability and source column as given. The type is set only when given and the size only when non-zero. A null value becomes DBNull. |
| CommandExtensions.AddParameter | DataAccess/DbCommandExtensions.cs:28-119 | Exactly the new parameter is appended after the existing ones, so the parameter names keep the declaration order that the positional rewrite follows. |
| CommandExtensions.GuidParameter | DataAccess/DbCommandExtensions.cs:184-204 | A value goes in as a GUID where supported and as its 16 bytes otherwise. A missing value is DBNull with no type. An output parameter gets only the type, with size 16 when binary (also 317-360). |
| CommandExtensions.AddGuidParameter | DataAccess/DbCommandExtensions.cs:160-204 | Exactly that parameter is appended. |
| CommandExtensions.BinaryParameter | DataAccess/DbCommandExtensions.cs:239-260 | Always binary, sized to the data when there is data, else DBNull. An input parameter becomes input-output exactly for providers without GUID support (also 295-315). |
| CommandExtensions.AddBinaryParameter | DataAccess/DbCommandExtensions.cs:212-260 | Exactly that parameter is appended. |
| CommandExtensions.FirstNamed | DataAccess/DbCommandExtensions.cs:263-267 | The first index whose name equals the given one ignoring case, or none if no name does. |
| CommandExtensions.GetGuidParameterValue | DataAccess/DbCommandExtensions.cs:261-293 | The scan returns what the first case-insensitive match holds: null, the GUID, the GUID of 16 bytes, or the wrapped conversion failure; no match gives null. |
| CommandExtensions.EarlierParameterShadows | DataAccess/DbCommandExtensions.cs:263-267 | Parameters added after a name is taken cannot change what is read for it. |
| CommandExtensions.GuidParameterRoundTrip | DataAccess/DbCommandExtensions.cs:184-293 | A GUID added as input reads back as the same GUID, whichever encoding the provider forced. |
| CommandExtensions.UnsetGuidParameterReadsNull | DataAccess/DbCommandExtensions.cs:184-293 | A GUID parameter added without a value, or as output, reads back as null. |
| CommandExtensions.EnlistTransaction | DataAccess/DbCommandExtensions.cs:14-21 | A transaction brings its connection along. Null changes nothing. |
| CommandExtensions.ReplaceSqlTokens | DataAccess/DbCommandExtensions.cs:127-152 | Null and empty text come back as they are, and any other text stays present. |
| CommandExtensions.TokenBecomesDialectSpelling | DataAccess/DbCommandExtensions.cs:134-148 | Each of the five tokens, between text without braces, becomes its dialect's spelling: varchar2, Date, NUMBER, NUMBER(1,0), TRUNC( for Oracle and nvarchar, Datetime2, BigInt, BIT, CONVERT(DATE, otherwise. |
| CommandExtensions.ReplaceEachHitsOne | DataAccess/DbCommandExtensions.cs:137-149 | In a chain of replacements, one occurrence of the `k`th pattern becomes the `k`th spelling when earlier patterns cannot match it and no later one finds a brace. |
| CommandExtensions.NestedTokenSurvives | DataAccess/DbCommandExtensions.cs:137-141 | One pass per token can leave a token behind: `{DataType.{DataType.DateTime}Time}` becomes `{DataType.DateTime}` on Oracle. |
| CommandExtensions.TokenFreeSqlUnchanged | DataAccess/DbCommandExtensions.cs:127-152 | SQL without tokens is unchanged in both dialects. |
| ReaderExtensions.GetOrdinal | DataAccess/DbDataReaderExtensions.cs:15 | The ordinal found names the column up to case. Failure happens exactly when no column matches ignoring case. |
| ReaderExtensions.ColumnValue | DataAccess/DbDataReaderExtensions.cs:11 | A read succeeds exactly for an ordinal inside the row, giving its value. |
| ReaderExtensions.SafeGetString | DataAccess/DbDataReaderExtensions.cs:9-12 | Null exactly for DBNull, the string of a string column, and a failure for any other value. |
| ReaderExtensions.SafeGetStringByName | DataAccess/DbDataReaderExtensions.cs:13-17 | An unknown name fails. Otherwise it is `SafeGetString` at the ordinal. |
| ReaderExtensions.StringGettersAgree | DataAccess/DbDataReaderExtensions.cs:22-26 | `GetString(name)` always agrees with `SafeGetString(name)`: its extra null test is redundant. |
| ReaderExtensions.SafeGetValue | DataAccess/DbDataReaderExtensions.cs:18-21 | Null exactly for DBNull, and any readable value is returned as is. |
| ReaderExtensions.DecimalText | DataAccess/DbDataReaderExtensions.cs:39 | A decimal's text keeps its scale, so a non-zero scale always prints a decimal point. |
| ReaderExtensions.SafeGetInt32 | DataAccess/DbDataReaderExtensions.cs:27-46 | As written: DBNull and non-cast failures give the default, an Int32 gives itself, a null value is dereferenced, and a text column gives its parsed value or, when it does not parse, 0. |
| ReaderExtensions.SafeGetInt32Intended | DataAccess/DbDataReaderExtensions.cs:27-46 | As meant: the same cases, and a text column gives its parsed value or, when it does not parse, the default. |
| ReaderExtensions.SafeGetInt32ReadsInt16 | DataAccess/DbDataReaderExtensions.cs:36-41 | A 16-bit integer falls back to its text and reads back unchanged. |
| ReaderExtensions.SafeGetInt32ReadsByte | DataAccess/DbDataReaderExtensions.cs:36-41 | So does a byte. |
| ReaderExtensions.SafeGetInt32OnFractionalDecimal | DataAccess/DbDataReaderExtensions.cs:36-41 | A decimal with a fractional scale gives 0 as written and the default as intended. |
| ReaderExtensions.Int32TextRoundTrip | DataAccess/DbDataReaderExtensions.cs:36-41 | An Int32 stored as its text reads back as the integer. |
| ReaderExtensions.SafeGetInt32DiffersOnlyOnUnparsableText | DataAccess/DbDataReaderExtensions.cs:36-41 | The written and intended versions differ only on a value that fails the cast and whose text does not parse; there they give 0 and the default. |
| ReaderExtensions.SafeGetInt32IgnoresDefaultOnText | DataAccess/DbDataReaderExtensions.cs:38-39 | The text "abc" with default 7 gives 0 as written and 7 as intended. |
| ReaderExtensions.GetInt32ByName | DataAccess/DbDataReaderExtensions.cs:47-51 | As written: an unknown name fails with the lookup error. Otherwise it is `SafeGetInt32` as written at the ordinal with the given default. |
| ReaderExtensions.GetInt32ByNameIntended | DataAccess/DbDataReaderExtensions.cs:47-51 | As meant: the same lookup, then the corrected `SafeGetInt32`. |
| ReaderExtensions.GetInt32ByNameIgnoresDefaultOnText | DataAccess/DbDataReaderExtensions.cs:47-51 | A text column "N" holding "abc" read by name with default 7 gives 0 as written and 7 as intended. |
| ReaderExtensions.SafeGetGuid | DataAccess/DbDataReaderExtensions.cs:57-84 | DBNull gives Guid.Empty. A GUID value gives itself unless the reader is Oracle's. Sixteen bytes give their GUID. Any other value is the wrapped conversion failure. |
| ReaderExtensions.SafeGetGuidByName | DataAccess/DbDataReaderExtensions.cs:52-56 | An unknown name fails. Otherwise it is `SafeGetGuid` at the ordinal (also `GetGuid(name)`, 86-90). |
| ReaderExtensions.GuidColumnRoundTrip | DataAccess/DbDataReaderExtensions.cs:57-84 | A GUID written through `AddGuidParameter` and stored in a column reads back unchanged, as long as a provider that took it as a GUID has a reader that may return one. |
| ReaderExtensions.ShortBytesArePadded | DataAccess/DbDataReaderExtensions.cs:76-78 | Fewer than 16 bytes are zero-padded into the GUID. |
| ReaderExtensions.GetBinary | DataAccess/DbDataReaderExtensions.cs:91-106 | Null exactly for DBNull, and the bytes of a binary column. |
| ReaderExtensions.GetBinaryByName | DataAccess/DbDataReaderExtensions.cs:107-111 | An unknown name fails. Otherwise it is `GetBinary` at the ordinal. |
| ReaderExtensions.BinaryColumnRoundTrip | DataAccess/DbDataReaderExtensions.cs:91-106 | Data written through `AddBinaryParameter` reads back unchanged, and a missing array reads back as null. |
| PropertyTypes.IsEnumProperty | Orm/PropertyInfoExtensions.cs:7-13 | True exactly for an enum and `Nullable<>` of one, and never together with the bool, int, double or GUID test. |
| PropertyTypes.IsBoolProperty | Orm/PropertyInfoExtensions.cs:15-18 | True exactly for bool and `Nullable<bool>`. |
| PropertyTypes.IsIntProperty | Orm/PropertyInfoExtensions.cs:19-22 | True exactly for int and `Nullable<int>`. |
| PropertyTypes.IsDoubleProperty | Orm/PropertyInfoExtensions.cs:23-26 | True exactly for double and `Nullable<double>`. |
| PropertyTypes.IsGuidProperty | Orm/PropertyInfoExtensions.cs:27-30 | True exactly for Guid and `Nullable<Guid>`. |
| PropertyTypes.IsPropertyNullable | Orm/PropertyInfoExtensions.cs:31-36 | True exactly for a reference type or a `Nullable<>`; a plain value type, a plain enum included, is never nullable. |
| ObjectMapping.ColumnKey | Orm/ObjectMap.cs:65-66 | The alias verbatim when there is one, else the property name in upper case. |
| ObjectMapping.MappedProperties | Orm/ObjectMap.cs:48 | Exactly the public, instance, writable properties. |
| ObjectMapping.AddProperty | Orm/ObjectMap.cs:63-69 | Succeeds exactly when neither the column key nor the name is taken, and then adds one entry to each table. |
| ObjectMapping.MapPropertiesSpec | Orm/ObjectMap.cs:44-69 | Mapping succeeds exactly when column keys and names are all distinct. Then each property is reachable from its key and its name, and nothing else is in the tables. |
| ObjectMapping.OnlyWritablePropertiesAreMapped | Orm/ObjectMap.cs:48-52 | Every mapped property is reachable by its column key, and every entry is a mapped property of the type. |
| ObjectMapping.MapFailureIsFinal | Orm/ObjectMap.cs:49-52 | A mapping that fails on a prefix fails the same way on the whole list. |
| ObjectMapping.ObjectMap.constructor | Orm/ObjectMap.cs:28-42 | The allocation of both constructors: empty tables and the object passed, if any. |
| ObjectMapping.ObjectMap.Create | Orm/ObjectMap.cs:28-42 | The constructor succeeds exactly when the mapping does. It then holds the table name and the tables of the mapping, and otherwise throws the mapping's error. |
| ObjectMapping.ObjectMap.GetTableName | Orm/ObjectMap.cs:55-62 | The table name is set only when the type has a Table attribute. |
| ObjectMapping.ObjectMap.MapProperty | Orm/ObjectMap.cs:63-69 | The tables grow as `AddProperty` says, and its failure is thrown. A clashing column key changes nothing. |
| ObjectMapping.ObjectMap.ConfigureMapping | Orm/ObjectMap.cs:44-53 | The table name is read, then every mapped property is added in reflection order. The result is that of `MapProperties`. |
| ObjectMapping.ObjectMap.MapEachProperty | Orm/ObjectMap.cs:49-52 | `mapProperty` on each property in turn; the outcome and the two dictionaries are those of `MapProperties` on the list, and the first failure ends the loop. |
| ObjectMapping.ObjectMap.SourceObject | Orm/ObjectMap.cs:16-26 | The object is created by `new T()` on first access and reused afterwards. |
| ObjectMapping.SourceObjectIsCached | Orm/ObjectMap.cs:16-26 | Two accesses return the same object. |
| PropertySetters.SetterMethod | Orm/DataReaderPropertySetters.cs:60-98 | The strategy follows the lower-cased field type, then the property type. It fails exactly for a binary column into a property that is neither a GUID nor a byte array, with "Could not convert binary to" and the type name. |
| PropertySetters.ByteColumnsWidenOnlyForSmallTypes | Orm/DataReaderPropertySetters.cs:87-94 | A byte column widens to Int16 exactly when the provider type is smallint or tinyint. |
| PropertySetters.IntegerColumnStrategies | Orm/DataReaderPropertySetters.cs:108-165 | An Int32 column feeds an enum as its integer, a bool as a flag, and anything else as an integer. |
| PropertySetters.RoundHalfEven | Orm/DataReaderPropertySetters.cs:226-302 | The nearest integer, with ties to even. |
| PropertySetters.ConvertToInt32 | Orm/DataReaderPropertySetters.cs:236-285 | The rounded value when it fits in Int32, else OverflowException. |
| PropertySetters.ApplySetter | Orm/DataReaderPropertySetters.cs:100-386 | One setter writes only its own property. |
| PropertySetters.ConvertedAsWritten | Orm/DataReaderPropertySetters.cs:154-160 | As written: the enum setters always fail after their typed read (also 213-219); every other setter converts as the corrected model does. |
| PropertySetters.ApplySetterAsWritten | Orm/DataReaderPropertySetters.cs:136-221 | As written: the same as `ApplySetter` except for the enum setters, and the same for them on DBNull. |
| PropertySetters.EnumSettersThrowAsWritten | Orm/DataReaderPropertySetters.cs:154-160 | As written, an enum setter fails on every value that is not DBNull: with the MakeGenericMethod InvalidOperationException once the typed read succeeds (also 213-219). |
| PropertySetters.EnumSetterWritesValue | Orm/DataReaderPropertySetters.cs:136-221 | As meant, an enum setter writes the integer it reads. |
| PropertySetters.DbNullRule | Orm/DataReaderPropertySetters.cs:370-386 | DBNull sets a nullable property (and always the string and binary setters' property) to null, and leaves a non-nullable one as it was. |
| PropertySetters.BoolFromIntegerRule | Orm/DataReaderPropertySetters.cs:117-128 | An integer read into a bool is true exactly when it is 1. |
| PropertySetters.DecimalToIntRule | Orm/DataReaderPropertySetters.cs:252-302 | A decimal into an int is rounded to within a half, and fails exactly when the rounding leaves Int32. |
| PropertySetters.DecimalTiesGoToEven | Orm/DataReaderPropertySetters.cs:252-302 | 2.5 becomes 2 and 3.5 becomes 4. |
| PropertySetters.SetterFor | Orm/DataReaderPropertySetters.cs:41-58 | No setter for a column whose upper-cased name is not a key. A refused column fails. Otherwise the setter names that column, its ordinal, its property and the chosen strategy. |
| PropertySetters.PlanFailsOnRefusedColumn | Orm/DataReaderPropertySetters.cs:41-58 | Building the plan fails exactly when some mapped column is refused. |
| PropertySetters.PlanCoversMappedColumns | Orm/DataReaderPropertySetters.cs:41-58 | A built plan has, in ordinal order, one setter describing each mapped column and none for an unmapped column. |
| PropertySetters.PlanFailureIsFinal | Orm/DataReaderPropertySetters.cs:41-58 | A refusal on a prefix of the columns is the refusal of all of them. |
| PropertySetters.DataReaderPropertySetters.Create | Orm/DataReaderPropertySetters.cs:34-39 | The constructor succeeds exactly when the plan does, and then holds it. |
| PropertySetters.DataReaderPropertySetters.GetPropertySetters | Orm/DataReaderPropertySetters.cs:41-58 | The loop leaves exactly the plan, or the first refusal. |
| PropertySetters.SettersForType | Orm/DataReaderPropertySetters.cs:28-33 | The object map is built first and its failure is the constructor's. Then comes the plan over its key table. |
| Materialize.ApplyWrapped | Orm/DbDataReaderExtentions.cs:12-19 | A setter's failure is wrapped with "Error setting property for" and the column name. Success is unchanged. |
| Materialize.MapToObject | Orm/DbDataReaderExtentions.cs:7-22 | Starting from `new T()`, the setters run in plan order and the first failure ends the call. An empty plan gives `new T()`. |
| Materialize.MapRowFailureIsFinal | Orm/DbDataReaderExtentions.cs:10-20 | A failure on a prefix of the plan is the failure of the whole plan. |
| Materialize.FirstFailureAborts | Orm/DbDataReaderExtentions.cs:10-20 | The first failing setter decides the outcome, and the later ones do not run. |
| Materialize.UntargetedPropertiesKeepTheirValue | Orm/DbDataReaderExtentions.cs:9-21 | A property no setter targets keeps its `new T()` value. |
| Materialize.MapRowSplits | Orm/DbDataReaderExtentions.cs:10-20 | Running a plan in two parts is running it whole. |
| Materialize.MapRowsSpec | Orm/DatabaseExtensions.cs:14-17 | One object per row, in row order, each mapped from a fresh `new T()` by the same plan. |
| Materialize.ZeroRowsGiveEmptyList | Orm/DatabaseExtensions.cs:10-20 | A result without rows gives an empty list once the plan is built. |
| Materialize.MapRowsFailureIsFinal | Orm/DatabaseExtensions.cs:14-17 | A row failure ends the query with that failure. |
| Materialize.ReadRows | Orm/DatabaseExtensions.cs:11-18 | The body builds the setters once and then maps every row, giving the query's results. |
| Materialize.MapEachRow | Orm/DatabaseExtensions.cs:14-17 | The `while (reader.Read())` loop appends one object per row, in order. |
| Materialize.QueryAsync | Orm/DatabaseExtensions.cs:8-21 | A success is the mapped rows of a successful execution. An open bound connection or a successful transient open gives the mapped rows. A failed transient open is the query's failure. A transient connection is left closed. |
| SqlSelect.ToCommandText | Orm/Query/SqlSelectClause.cs:13-19 | As written: it starts with "SELECT " and ends with "ORDER BY " and the order clause. |
| SqlSelect.ToCommandTextIntended | Orm/Query/SqlSelectClause.cs:13-19 | As meant: the same, with a space before ORDER BY. |
| SqlSelect.CountIgnoresColumnsAndOrder | Orm/Query/SqlSelectClause.cs:20-25 | The count command does not depend on the column and order clauses. |
| SqlSelect.QueryExtendsCount | Orm/Query/SqlSelectClause.cs:13-25 | With COUNT(*) as its columns, the query is the count command followed by the ordering: both read the same rows. |
| SqlSelect.EmptyFilterKeepsWhereKeyword | Orm/Query/SqlSelectClause.cs:20-25 | An empty filter still emits "WHERE ". |
| SqlSelect.OrderByFusesWithFilter | Orm/Query/SqlSelectClause.cs:17-18 | For any filter not ending in a space, its last character is immediately followed by `ORDER BY ` (so "ID = 1" ordered by NAME yields "…WHERE ID = 1ORDER BY NAME"). |
| SqlSelect.IntendedSeparatesFilterFromOrder | Orm/Query/SqlSelectClause.cs:17-18 | In the intended text the filter is always followed by a space. |

## Left out

- Asynchrony: each async method is modelled as run to completion. Task scheduling, `Task.Run` around the body and cancellation are not modelled.
- The driver: opening, executing and filling are parameters of each operation. Connection pooling, real SQL execution and `DataSet` contents are not modelled.
- `DbProviderFactories` registration and the configuration file (`ConfigFileManager`): the provider lookup and the configured connections are inputs.
- The parameterless older constructor (`OgreDA/Database.cs:33`) leaves every field null, and each later call then dereferences null. It is not modelled.
- `CreateParameter`, `CreateDataAdapter` and `CreateCommandBuilder` only forward to the factory, and are not modelled. `DatasetSupport` is not part of this model.
- The Oracle reflection in `verifyBinaryDbTypeAndValue` (setting `OracleDbType` to Blob) is not modelled. Binary parameters are typed Binary only.
- GUID byte layout: a GUID is kept as its 16 bytes, and `ToByteArray`'s little-endian field order is not interpreted.
- `GetBinary` reads a stream copy in the source. The model reads a binary value directly, and treats any other value as the wrapped failure.
- Floating point: doubles are modelled as reals. Rounding of double arithmetic and `ToString` of a non-integral double (treated as never parsing) are not modelled.
- Text: case mapping and word characters are ASCII only, with no culture rules. A parameter name containing regular-expression metacharacters is treated literally.
- `FullName` of `Nullable<T>` omits the assembly qualification of the type argument in the binary-cast message.
- Null clauses of `SqlSelectClause` are treated as empty strings, which is what C# interpolation prints.
- Object identity: a materialised object is a map from property names to values, so aliasing between objects is not modelled.
- PropertySetters.ApplySetter: the enum setters write the enum's integer value, which is the intended behaviour. The source throws at its `MakeGenericMethod` call on every such read; that is modelled separately by `ApplySetterAsWritten` (see Findings), and the plan and `MapToObject` use the intended setter. `PropertyInfo.SetValue`'s own type check of the written value is not modelled.
- Facade.Database.ExecuteReaderWith: the callback's exceptions other than the facade's own are part of `body`'s result. The reader's `Dispose` is modelled as closing only.
- Materialize.QueryAsync: the list the callback fills is returned only after the reader completes. A partial list left after a failure is not modelled, because the source rethrows.
- `Fluent` and `PagedList` are not part of this model.

## Findings

| source | as written | input that shows it | evidently intended | confidence | as-written member | corrected member |
|---|---|---|---|---|---|---|
| DataAccess/DbDataReaderExtensions.cs:36-41 | After an invalid cast, `value` is preset to the default, but `int.TryParse` overwrites it with 0 when the text does not parse | A text column holding "abc" read with default 7 gives 0 | The default, as the preset of `value` and the other catch branch show | not executed | ReaderExtensions.SafeGetInt32 and ReaderExtensions.GetInt32ByName, which calls it at :47-51 (shown by ReaderExtensions.SafeGetInt32IgnoresDefaultOnText and ReaderExtensions.GetInt32ByNameIgnoresDefaultOnText) | ReaderExtensions.SafeGetInt32Intended and ReaderExtensions.GetInt32ByNameIntended |
| Orm/Query/SqlSelectClause.cs:17-18 | Nothing separates the where clause from `ORDER BY` | Filter "ID = 1" ordered by NAME gives "SELECT * FROM T WHERE ID = 1ORDER BY NAME" | A space before `ORDER BY`, as every other clause boundary has | not executed | SqlSelect.ToCommandText (shown by SqlSelect.OrderByFusesWithFilter) | SqlSelect.ToCommandTextIntended (proved by SqlSelect.IntendedSeparatesFilterFromOrder) |
| Orm/DataReaderPropertySetters.cs:157-159 | The enum setters call `MakeGenericMethod(enumType)` on the `MethodInfo` of the lambda `(o) => (T)o`, which is not a generic method definition, so it throws InvalidOperationException (also 216-218) | Any Int32 or Int16 column that is not DBNull, read into an enum property; `MapToObject` rethrows it as "Error setting property for" the column | The enum member whose underlying value was read | not executed | PropertySetters.ApplySetterAsWritten (shown by PropertySetters.EnumSettersThrowAsWritten) | PropertySetters.ApplySetter (proved by PropertySetters.EnumSetterWritesValue) |

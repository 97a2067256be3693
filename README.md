# Castle ActiveRecord core, modelled in Dafny

This project models the parts of Castle ActiveRecord that hold decisions of their own. The surrounding ORM engine (NHibernate) is reduced to abstract sessions, stores and query functions.

- **Conversations** (`Conversations`, `ConversationFlushModes`, `Engine`, `ConversationScenarios`).
  - A `ScopedConversation` owns one engine session per session factory, created on first request through a `ConversationalScope`.
  - It locks its flush mode once a session is open, can be canceled, and notifies each cancellation.
  - On `Dispose` or `Restart` it rolls back (canceled) or flushes and commits (not canceled) every session, then disposes of it.
  - `Execute` runs an action in a fresh scope; any exception cancels the conversation.
- **Configuration** (`DatabaseTypes`, `DefaultDatabaseConfigurations`, `XmlConfiguration`).
  - The `DatabaseType` enumeration and case-insensitive lookup of its names.
  - The default engine properties for each database kind.
  - The XML configuration source: it reads the framework settings from the root element and one (type, properties) pair per `config` child. A pair's properties are the short form's defaults overlaid by `add` entries.
- **LINQ** (`LinqQueries`, `QueryProviders`).
  - `QueryProvider<T>.Execute` either hands back a `LinqResultWrapper` that re-runs the query on every enumeration, or runs the query at once.
  - `GetClosingType` picks the wrapper's element type.
  - `LinqQuery<T>` keeps the rows of a result that is a sequence of `T`.
- **Mapping attributes** (`PrimaryKeyAttributes`, `PropertyAttributes`, `OptionalTableAttributes`). These cover constructors, defaults and setter round trips of `PrimaryKeyAttribute`, `PropertyAttribute` and `WithAccessOptionalTableAttribute`.

Modelling choices:

- **Objects whose fields the source updates in place are classes**: the conversation, the engine session, the query, the wrapper, the provider, the attributes and the XML source. Their methods state the whole new state.
- **Pure logic is functions and lemmas**: name lookup, default properties, the layering of `add` entries and the closing-type search.
- **Loops are methods with loop invariants**, each proved against a specification function:
  - `ClearSessions` and `Flush` go over the session table;
  - `Execute` goes over the action's session requests;
  - `BuildProperties` goes over the `add` entries;
  - `PopulateConfigNodes` goes over the children of the root;
  - `GetClosingType` goes over the generic arguments.
- **Exceptions are `Result`/`Option` values** (`Exceptions.Exception`), and null is `None`.
- **Given as parameters**:
  - the CLR type lookup of the XML source (`Type.GetType`);
  - the test "`IEnumerable<a>` is assignable from `t`";
  - the engine's LINQ provider;
  - the session the framework opens for a root type.
- **Where the documentation and the code disagree, the model follows the code.** `IConversation.FlushMode` is documented as settable only before the conversation is actually used. The code refuses a new mode only while the session table is non-empty, and `Restart` empties it. So the mode can be set again after a restart (`ConversationScenarios.FlushModeCanBeSetAfterRestart`).

## Model

| member | source | states |
|---|---|---|
| ConversationFlushModes.ExactlyThreeFlushModes | Castle.ActiveRecord/Framework/Scopes/IConversation.cs:22-40 | The flush mode enumeration has exactly the three members Automatic, OnClose and Explicit, each listed once. |
| Conversations.Terminated | Castle.ActiveRecord/Framework/Scopes/ScopedConversation.cs:59-71 | What termination does to one session. The session ends closed. Its transaction is rolled back exactly when the conversation was canceled, and committed otherwise. It is flushed exactly once more exactly when not canceled and the mode is not Explicit. Its engine flush mode is unchanged. |
| Conversations.DocumentedTermination | Castle.ActiveRecord/Framework/Scopes/IConversation.cs:22-40 | The documented meaning of the modes. Under OnClose an uncanceled conversation flushes and commits at termination. Under Explicit termination never flushes. A canceled conversation rolls back and does not flush. |
| Conversations.ScopedConversation.constructor | Castle.ActiveRecord/Framework/Scopes/ScopedConversation.cs:33-35 | A new conversation has the Automatic mode, is not canceled, has no sessions and has raised no notification. |
| Conversations.ScopedConversation.WithMode | Castle.ActiveRecord/Framework/Scopes/ScopedConversation.cs:41-44 | A new conversation has the given mode, is not canceled and has no sessions. |
| Conversations.ScopedConversation.Dispose | Castle.ActiveRecord/Framework/Scopes/ScopedConversation.cs:52-55 | Every session in the table ends as `Terminated` says for the current flag and mode. The table is emptied. The canceled flag, mode and notifications are unchanged. |
| Conversations.ScopedConversation.ClearSessions | Castle.ActiveRecord/Framework/Scopes/ScopedConversation.cs:57-73 | The loop over the table: each session is rolled back, or flushed (unless Explicit) and committed, then disposed. Afterwards the table is empty. |
| Conversations.ScopedConversation.Cancel | Castle.ActiveRecord/Framework/Scopes/ScopedConversation.cs:76-79 | Sets the canceled flag and appends one notification with CanceledByUser true and no exception, on every call. Sessions and mode are unchanged. |
| Conversations.ScopedConversation.DoCancel | Castle.ActiveRecord/Framework/Scopes/ScopedConversation.cs:81-86 | Sets the canceled flag and appends exactly one notification carrying the given arguments. |
| Conversations.ScopedConversation.TriggerCanceled | Castle.ActiveRecord/Framework/Scopes/ScopedConversation.cs:195-201 | Raising the event appends its arguments to the notification log and changes nothing else. |
| Conversations.ScopedConversation.AssertNotCanceled | Castle.ActiveRecord/Framework/Scopes/ScopedConversation.cs:159-169 | There is an error exactly when the conversation is canceled, and it is the ActiveRecordException with the cancellation message. |
| Conversations.ScopedConversation.Flush | Castle.ActiveRecord/Framework/Scopes/ScopedConversation.cs:89-96 | A canceled conversation fails and no session changes. Otherwise every session is flushed exactly once, and nothing else about it changes. |
| Conversations.ScopedConversation.Restart | Castle.ActiveRecord/Framework/Scopes/ScopedConversation.cs:99-103 | Sessions are terminated as `Terminated` says for the flag held before the call. The table is emptied and the canceled flag cleared. |
| Conversations.ScopedConversation.SetFlushMode | Castle.ActiveRecord/Framework/Scopes/ScopedConversation.cs:106-120 | With any session open, the call fails with the locked-mode message and the mode is unchanged. With none, the mode becomes the value. |
| Conversations.ScopedConversation.Execute | Castle.ActiveRecord/Framework/Scopes/ScopedConversation.cs:133-148 | The caught exception is the cancellation error of the first session request on a canceled conversation, or else the action's exception. If there is one, the conversation becomes canceled with one notification (not by user, carrying it), and it is rethrown unless silent. The factories the action used end up with sessions; existing sessions are kept; new ones are fresh. |
| Conversations.ScopedConversation.ExecuteAction | Castle.ActiveRecord/Framework/Scopes/ScopedConversation.cs:183-186 | Same contract as `Execute`, with the caught exception rethrown: cancellation and notification as for `Execute`, the flush mode unchanged, existing sessions kept as the same objects, and new sessions fresh and open for the factories the action used. |
| Conversations.ScopedConversation.ExecuteSilently | Castle.ActiveRecord/Framework/Scopes/ScopedConversation.cs:189-192 | Same contract as `Execute`, with nothing rethrown: cancellation and notification as for `Execute`, the flush mode unchanged, existing sessions kept as the same objects, and new sessions fresh and open for the factories the action used. |
| Conversations.ScopedConversation.GetSession | Castle.ActiveRecord/Framework/Scopes/ScopedConversation.cs:151-157 | A canceled conversation fails with the cancellation error and changes nothing. Otherwise the session already open for the factory is returned unchanged, or a fresh one is created, added and returned. |
| Conversations.ScopedConversation.CreateSession | Castle.ActiveRecord/Framework/Scopes/ScopedConversation.cs:171-180 | The table gains exactly one fresh session for the factory. It is open, its transaction is begun, it has never been flushed, and its engine mode matches the conversation's mode (Auto, Commit, Never). |
| Conversations.ConversationalScope.constructor | src/Castle.ActiveRecord/Framework/Scopes/ConversationalScope.cs:36-40 | The scope keeps the conversation, with the Config flush action and the Transactional scope type. |
| Conversations.ConversationalScope.WantsToCreateTheSession | src/Castle.ActiveRecord/Framework/Scopes/ConversationalScope.cs:55 | Always true. |
| Conversations.ConversationalScope.FailSession | src/Castle.ActiveRecord/Framework/Scopes/ConversationalScope.cs:47-50 | Always throws NotImplementedException. |
| Conversations.ConversationalScope.OpenSession | src/Castle.ActiveRecord/Framework/Scopes/ConversationalScope.cs:64-67 | Has exactly the contract of the conversation's `GetSession`. |
| ConversationScenarios.CanceledMessageIsReasonable | Castle.ActiveRecord/Framework/Scopes/ScopedConversation.cs:163-167 | The cancellation message contains "cancel", "ConversationalScope", "session" and "request". |
| ConversationScenarios.FlushModeLockedMessageIsReasonable | Castle.ActiveRecord/Framework/Scopes/ScopedConversation.cs:112-117 | The locked-mode message contains "FlushMode", "set", "after" and "session". |
| ConversationScenarios.SessionsAreKeptThroughoutTheConversation | Castle.ActiveRecord.Tests/Conversation/ScopedConversationTests.cs:31-52 | Two scopes in a row get the identical session. It stays open between them and is closed by disposing of the conversation. |
| ConversationScenarios.SeparateConversationsHaveSeparateSessions | Castle.ActiveRecord/Framework/Scopes/ScopedConversation.cs:49 | Two conversations give two different sessions for the same factory. |
| ConversationScenarios.ThrowsReasonableErrorMessageWhenUsedAfterCancel | Castle.ActiveRecord.Tests/Conversation/ScopedConversationTests.cs:55-73 | A scope over a canceled conversation fails with an ActiveRecordException whose message has the four words. |
| ConversationScenarios.CannotFlushAfterCancel | Castle.ActiveRecord.Tests/Conversation/ScopedConversationTests.cs:76-83 | Flushing a canceled conversation fails with an ActiveRecordException. |
| ConversationScenarios.CanSetFlushModeAfterCreation | Castle.ActiveRecord.Tests/Conversation/ScopedConversationTests.cs:86-93 | A new conversation accepts a mode and reads it back. |
| ConversationScenarios.CannotSetFlushModeAfterUsingTheConversation | Castle.ActiveRecord.Tests/Conversation/ScopedConversationTests.cs:96-114 | After a session is opened, setting the mode fails with a message with the four words, and the mode stays Automatic. |
| ConversationScenarios.FlushModeCanBeSetAfterRestart | Castle.ActiveRecord/Framework/Scopes/ScopedConversation.cs:99-120 | After a restart the table is empty, so a new mode is accepted. |
| ConversationScenarios.RestartAfterCancelOpensFreshSession | Castle.ActiveRecord.Tests/Conversation/ScopedConversationTests.cs:127-137 | Cancel then Restart: the old session is rolled back and closed, the flag is cleared, and the next request opens a different, active session. |
| ConversationScenarios.CanCancelConversations | Castle.ActiveRecord/Framework/Scopes/ScopedConversation.cs:59-62 | A canceled conversation's session is rolled back and closed on disposal. |
| ConversationScenarios.ExplicitConversationFlushesOnlyOnRequest | Castle.ActiveRecord/Framework/Scopes/ScopedConversation.cs:65-67 | Under Explicit, a session is flushed once by `Flush` and not again by disposal, which commits. |
| ConversationScenarios.OnCloseConversationFlushesOnDispose | Castle.ActiveRecord/Framework/Scopes/ScopedConversation.cs:57-73 | Under OnClose, disposal flushes a session exactly once and commits it. |
| ConversationScenarios.TriggersWithRightArgsWhenCanceling | Castle.ActiveRecord.Tests/Conversation/ScopedConversationTests.cs:174-188 | Each `Cancel` raises one notification with CanceledByUser true and no exception. |
| ConversationScenarios.ConversationIsCanceledAfterErrorInExecute | Castle.ActiveRecord.Tests/Conversation/ScopedConversationTests.cs:140-147 | A throwing action cancels the conversation. The exception is rethrown, and the one notification carries it with CanceledByUser false. |
| ConversationScenarios.ConversationIsCanceledAfterSilentError | Castle.ActiveRecord.Tests/Conversation/ScopedConversationTests.cs:150-157 | `ExecuteSilently` swallows the exception and still cancels with a notification carrying it. |
| ConversationScenarios.SuccessfulActionKeepsConversation | Castle.ActiveRecord/Framework/Scopes/ScopedConversation.cs:133-148 | An action that returns normally leaves the conversation uncanceled, with one session for the factory it used twice. |
| ConversationScenarios.ExecuteAfterCancelNotifiesAgain | Castle.ActiveRecord/Framework/Scopes/ScopedConversation.cs:133-169 | On a canceled conversation, an action that requests a session makes `Execute` throw the cancellation error and raise a second notification carrying it. |
| DatabaseTypes.Ordinal | src/Castle.ActiveRecord/Framework/Config/DatabaseType.cs:21-79 | Each member's value is its position in the declaration. |
| DatabaseTypes.FromOrdinal | src/Castle.ActiveRecord/Framework/Config/DatabaseType.cs:21-79 | An integer names a member exactly when it is between 0 and 13, and then the member's value is that integer. |
| DatabaseTypes.ExactlyFourteenMembers | src/Castle.ActiveRecord/Framework/Config/DatabaseType.cs:26-78 | The enumeration has fourteen members. Each is listed once, and each member's value is its index. |
| DatabaseTypes.NamesDistinctIgnoringCase | src/Castle.ActiveRecord/Framework/Config/DatabaseType.cs:26-78 | Two member names are equal ignoring case exactly when the members are equal. |
| DatabaseTypes.FirstNamed | Castle.ActiveRecord/Framework/Config/XmlConfigurationSource.cs:185-186 | The search finds a candidate whose name matches ignoring case, and finds nothing exactly when no candidate matches. |
| DatabaseTypes.ParseAcceptsExactlyMemberNames | Castle.ActiveRecord/Framework/Config/XmlConfigurationSource.cs:185-199 | A name parses to a member exactly when it equals that member's name ignoring case, and fails exactly when it matches no member. |
| DatabaseTypes.ParseName | Castle.ActiveRecord/Framework/Config/XmlConfigurationSource.cs:199 | Any letter case of a member's name parses back to that member. |
| DefaultDatabaseConfigurations.DialectNamesDistinct | Castle.ActiveRecord/Framework/Config/DefaultDatabaseConfiguration.cs:105-108 | Different dialects have different assembly-qualified names. |
| DefaultDatabaseConfigurations.Configure | Castle.ActiveRecord/Framework/Config/DefaultDatabaseConfiguration.cs:93-103 | The keys are those of the input plus the five common keys. The provider, cache ("False"), proxy factory, dialect and driver values are set. Every other input entry is kept. |
| DefaultDatabaseConfigurations.SQLiteExtras | Castle.ActiveRecord/Framework/Config/DefaultDatabaseConfiguration.cs:110-117 | The only key is the query substitutions, "true=1;false=0". |
| DefaultDatabaseConfigurations.MsSqlCeExtras | Castle.ActiveRecord/Framework/Config/DefaultDatabaseConfiguration.cs:119-128 | The only key is the connection release mode, "on_close". |
| DefaultDatabaseConfigurations.FirebirdExtras | Castle.ActiveRecord/Framework/Config/DefaultDatabaseConfiguration.cs:130-140 | Exactly four keys, with the substitutions, "ReadCommitted", "444" and "True". |
| DefaultDatabaseConfigurations.For | Castle.ActiveRecord/Framework/Config/DefaultDatabaseConfiguration.cs:53-88 | Every kind's defaults hold the five common keys. The cache is "False". Provider and proxy factory are fixed. The dialect and driver are the kind's own. |
| DefaultDatabaseConfigurations.ForValue | Castle.ActiveRecord/Framework/Config/DefaultDatabaseConfiguration.cs:53-91 | A raw value fails exactly when it names no member, with ArgumentOutOfRangeException for "databaseType". |
| DefaultDatabaseConfigurations.ForValueOfMember | Castle.ActiveRecord/Framework/Config/DefaultDatabaseConfiguration.cs:55-88 | Every member's value reaches that member's defaults. |
| DefaultDatabaseConfigurations.PlainKindsHaveOnlyCommonKeys | Castle.ActiveRecord/Framework/Config/DefaultDatabaseConfiguration.cs:41-46 | Every kind but SQLite, SQL Server CE and Firebird has exactly the five common keys. |
| DefaultDatabaseConfigurations.SQLiteDefaults | Castle.ActiveRecord/Framework/Config/DefaultDatabaseConfiguration.cs:63-64 | SQLite's keys are the common ones plus the substitutions, with their value. |
| DefaultDatabaseConfigurations.MsSqlCeDefaults | Castle.ActiveRecord/Framework/Config/DefaultDatabaseConfiguration.cs:77-78 | SQL Server CE's keys are the common ones plus the release mode "on_close". |
| DefaultDatabaseConfigurations.FirebirdDefaults | Castle.ActiveRecord/Framework/Config/DefaultDatabaseConfiguration.cs:69-70 | Firebird's keys are the common ones plus four extras, with their values. |
| DefaultDatabaseConfigurations.SameDriverDifferOnlyInDialect | Castle.ActiveRecord/Framework/Config/DefaultDatabaseConfiguration.cs:93-103 | Kinds with the same driver and extras have defaults with the same keys, agreeing on all but the dialect. |
| DefaultDatabaseConfigurations.MsSqlServerVariantsDifferOnlyInDialect | Castle.ActiveRecord/Framework/Config/DefaultDatabaseConfiguration.cs:57-62 | The SQL Server versions use SqlClientDriver and differ only in the dialect. |
| DefaultDatabaseConfigurations.MsSqlServerVariantsHaveDistinctDialects | Castle.ActiveRecord/Framework/Config/DefaultDatabaseConfiguration.cs:57-62 | Two SQL Server versions have the same dialect exactly when they are the same version. |
| DefaultDatabaseConfigurations.OracleVariantsDifferOnlyInDialect | Castle.ActiveRecord/Framework/Config/DefaultDatabaseConfiguration.cs:82-87 | The Oracle versions use OracleDataClientDriver and differ only in the dialect. |
| DefaultDatabaseConfigurations.OracleVariantsHaveDistinctDialects | Castle.ActiveRecord/Framework/Config/DefaultDatabaseConfiguration.cs:82-87 | Two Oracle versions have the same dialect exactly when they are the same version. |
| DefaultDatabaseConfigurations.PostgreSqlVariantsDifferOnlyInDialect | Castle.ActiveRecord/Framework/Config/DefaultDatabaseConfiguration.cs:71-76 | The PostgreSQL versions use NpgsqlDriver and differ only in the dialect. |
| DefaultDatabaseConfigurations.PostgreSqlVariantsHaveDistinctDialects | Castle.ActiveRecord/Framework/Config/DefaultDatabaseConfiguration.cs:71-76 | Two PostgreSQL versions have the same dialect exactly when they are the same version. |
| XmlConfiguration.InvalidDatabaseMessageListsEveryMember | Castle.ActiveRecord/Framework/Config/XmlConfigurationSource.cs:188-196 | The error for an unknown database name contains every member's name in quotes. |
| XmlConfiguration.ConvertBoolIgnoresCase | Castle.ActiveRecord/Framework/Config/XmlConfigurationSource.cs:234-237 | A flag is on exactly when the attribute is present and upper-cases to "TRUE". A missing attribute, "1" or "yes" is off. |
| XmlConfiguration.SetDefaults | Castle.ActiveRecord/Framework/Config/XmlConfigurationSource.cs:183-203 | A failure carries the message listing the valid names. A success holds the connection string name under its key. |
| XmlConfiguration.SetDefaultsAcceptsExactlyMemberNames | Castle.ActiveRecord/Framework/Config/XmlConfigurationSource.cs:183-203 | A name fails exactly when no member name matches it ignoring case. A matching name gives that member's defaults plus the connection string name. |
| XmlConfiguration.AddElements | Castle.ActiveRecord/Framework/Config/XmlConfigurationSource.cs:215 | The result holds only `add` elements, and every `add` child is in it. |
| XmlConfiguration.LayeredFailurePersists | Castle.ActiveRecord/Framework/Config/XmlConfigurationSource.cs:220-225 | Once a prefix of the `add` entries fails, the whole fails with the same error. |
| XmlConfiguration.LayeredFailsIffSomeAddIncomplete | Castle.ActiveRecord/Framework/Config/XmlConfigurationSource.cs:215-229 | Building fails exactly when some `add` lacks its key or value, and then with the fixed message. |
| XmlConfiguration.LastValueFor | Castle.ActiveRecord/Framework/Config/XmlConfigurationSource.cs:215-229 | There is a value exactly when some complete `add` has the key. It is the value of the last such `add`. |
| XmlConfiguration.LayeredLastAddWins | Castle.ActiveRecord/Framework/Config/XmlConfigurationSource.cs:211-232 | The last `add` for a key decides its value. A key no `add` names keeps its default. No other key appears. |
| XmlConfiguration.BuildProperties | Castle.ActiveRecord/Framework/Config/XmlConfigurationSource.cs:211-232 | The loop's result is the `add` entries applied in order over the defaults, or over an empty dictionary without them. |
| XmlConfiguration.TargetType | Castle.ActiveRecord/Framework/Config/XmlConfigurationSource.cs:137-156 | Without a `type` attribute the target is ActiveRecordBase. A name that resolves is configured as the type it resolves to. A name that resolves to nothing fails with the message naming it. |
| XmlConfiguration.EachConfigNodeAddsOneEntry | Castle.ActiveRecord/Framework/Config/XmlConfigurationSource.cs:125-174 | When the walk succeeds, every element child is `config` and adds exactly one pair, and other nodes add nothing. |
| XmlConfiguration.UnexpectedNodeIsRejected | Castle.ActiveRecord/Framework/Config/XmlConfigurationSource.cs:129-135 | An element child not named `config` stops the walk with the error naming it, before anything is added. |
| XmlConfiguration.ShortFormNeedsBoth | Castle.ActiveRecord/Framework/Config/XmlConfigurationSource.cs:164-170 | One short-form attribute without the other is an error. |
| XmlConfiguration.LongAttributeNamesWin | Castle.ActiveRecord/Framework/Config/XmlConfigurationSource.cs:158-159 | With `database` and `connectionStringName` present, `db` and `csn` have no effect. |
| XmlConfiguration.AcceptedShortFormDefaults | Castle.ActiveRecord/Framework/Config/XmlConfigurationSource.cs:158-163 | A member name in any case plus a connection string name select that member's defaults plus the name. |
| XmlConfiguration.AcceptedShortFormUsesDefaults | Castle.ActiveRecord/Framework/Config/XmlConfigurationSource.cs:158-173 | Such a node's pair is the configured type with those defaults overlaid by its `add` entries. It fails exactly when the overlay does. |
| XmlConfiguration.DefaultTargetIsActiveRecordBase | Castle.ActiveRecord/Framework/Config/XmlConfigurationSource.cs:137 | A `config` node without `type` configures ActiveRecordBase. |
| XmlConfiguration.ExactFlagsDifferFromConvertedFlags | Castle.ActiveRecord/Framework/Config/XmlConfigurationSource.cs:84-116 | "TRUE" switches on `isDebug` and `searchable` but not `isWeb` or `verifyModelsAgainstDBSchema`. "true" switches on all four. |
| XmlConfiguration.FlushTypeSelection | Castle.ActiveRecord/Framework/Config/XmlConfigurationSource.cs:107-114 | A missing `flush` attribute selects Classic; a present one is passed on as written. |
| XmlConfiguration.ReadConfigNode | Castle.ActiveRecord/Framework/Config/XmlConfigurationSource.cs:127-173 | One element child: the name check, type lookup, short form and `add` entries give the pair or the first error. |
| XmlConfiguration.XmlConfigurationSource.PopulateSource | Castle.ActiveRecord/Framework/Config/XmlConfigurationSource.cs:73-119 | The settings become those of the root's attributes. Then the pairs of the `config` children are appended, up to the first error, which is returned. |
| XmlConfiguration.XmlConfigurationSource.PopulateConfigNodes | Castle.ActiveRecord/Framework/Config/XmlConfigurationSource.cs:121-175 | The loop appends one pair per `config` child in document order and stops at the first error. Pairs added before it stay. |
| LinqQueries.CachedResult | Castle.ActiveRecord.Linq/LinqQuery.cs:55-62 | After a run, `Result` holds the rows, in order, exactly when the value is a sequence of `T`; otherwise it is what it was. |
| LinqQueries.AsEnumerable | Castle.ActiveRecord.Linq/LinqQuery.cs:67-70 | The cast fails with InvalidCastException exactly for a non-enumerable value, and otherwise returns the value itself. |
| LinqQueries.LinqQuery.constructor | Castle.ActiveRecord.Linq/LinqQuery.cs:41-52 | The query keeps options, expression and root type; `RootType` returns the given root type; `Result` starts null. |
| LinqQueries.LinqQuery.Execute | Castle.ActiveRecord.Linq/LinqQuery.cs:58-64 | Returns exactly the engine's value for the expression over the store. `Result` is updated as `CachedResult` says. |
| LinqQueries.LinqQuery.Enumerate | Castle.ActiveRecord.Linq/LinqQuery.cs:67-70 | Returns the engine's value cast to an enumerable, with the same effect on `Result` as `Execute`. |
| LinqQueries.CachingTwiceIsCachingOnce | Castle.ActiveRecord.Linq/LinqQuery.cs:58-64 | Running the same query on the same store twice leaves the same `Result` as once. |
| QueryProviders.FirstEnumerableArgumentIsFirstMatch | Castle.ActiveRecord.Linq/QueryProvider.cs:71-80 | The search finds nothing exactly when no argument qualifies. What it finds is a qualifying argument with no qualifying argument before it. |
| QueryProviders.ClosingTypeIsFirstMatch | Castle.ActiveRecord.Linq/QueryProvider.cs:63-81 | With one generic argument, the closing type is that argument. Otherwise it is the first argument `a` in declared order such that `IEnumerable<a>` is assignable from the type, and there is none exactly when no argument qualifies. |
| QueryProviders.GetClosingType | Castle.ActiveRecord.Linq/QueryProvider.cs:63-81 | The loop returns exactly the closing type. |
| QueryProviders.ExperimentalSwitch.constructor | Castle.ActiveRecord.Linq/QueryProvider.cs:20-23 | `Experimental` is on by default. |
| QueryProviders.ExperimentalSwitch.Set | Castle.ActiveRecord.Linq/QueryProvider.cs:37-40 | The switch reads back the value set. |
| QueryProviders.LinqResultWrapper.constructor | Castle.ActiveRecord.Linq/QueryProvider.cs:98-103 | The wrapper keeps options, expression and root type, and its list is null. |
| QueryProviders.LinqResultWrapper.Populate | Castle.ActiveRecord.Linq/QueryProvider.cs:112-117 | Runs a fresh query for `T` with the wrapper's root type. The list is replaced by its `Result`: the rows when they are a sequence of `T`, else null. |
| QueryProviders.LinqResultWrapper.GetEnumerator | Castle.ActiveRecord.Linq/QueryProvider.cs:106-110 | Every enumeration re-populates the list from the current store. It yields exactly the list's rows, and fails with NullReferenceException when the list is null. |
| QueryProviders.QueryProvider.constructor | Castle.ActiveRecord.Linq/QueryProvider.cs:29-32 | The provider keeps its options. |
| QueryProviders.QueryProvider.Execute | Castle.ActiveRecord.Linq/QueryProvider.cs:43-61 | The call defers exactly when `Experimental` is on and the expression's type is generic with a closing type. It then returns a fresh wrapper over the closing type that queries with root type `T` and has run nothing. Otherwise it returns the value of a query for `T` run at once in the session for `T`. |
| QueryProviders.DefaultProviderDefers | Castle.ActiveRecord.Linq/QueryProvider.cs:20-56 | With the default switch, a query of a one-argument generic type is deferred and nothing is cached yet. |
| QueryProviders.SwitchedOffProviderRunsEagerly | Castle.ActiveRecord.Linq/QueryProvider.cs:45-60 | With the switch off, the provider returns the engine's value at once. |
| QueryProviders.WrapperSeesLatestRows | Castle.ActiveRecord.Linq/QueryProvider.cs:106-124 | Two enumerations of one wrapper over different stores each yield the rows of the store at that time. |
| OptionalTableAttributes.WithAccessOptionalTableAttribute.constructor | Castle.ActiveRecord/Attributes/WithAccessOptionalTableAttribute.cs:25-26 | `Table` is null and `OptimisticLock` is true by default. |
| OptionalTableAttributes.WithAccessOptionalTableAttribute.SetTable | Castle.ActiveRecord/Attributes/WithAccessOptionalTableAttribute.cs:31-35 | `Table` reads back the value set, and `OptimisticLock` is unchanged. |
| OptionalTableAttributes.WithAccessOptionalTableAttribute.SetOptimisticLock | Castle.ActiveRecord/Attributes/WithAccessOptionalTableAttribute.cs:40-44 | `OptimisticLock` reads back the value set, and `Table` is unchanged. |
| OptionalTableAttributes.SettersAreIndependent | Castle.ActiveRecord/Attributes/WithAccessOptionalTableAttribute.cs:31-44 | Setting both on a fresh attribute leaves both as set. |
| PrimaryKeyAttributes.PrimaryKeyAttribute.constructor | Castle.ActiveRecord/Attributes/PrimaryKeyAttribute.cs:119-121 | No generator is specified, and every auto-property is at its default. |
| PrimaryKeyAttributes.PrimaryKeyAttribute.WithCustomGenerator | Castle.ActiveRecord/Attributes/PrimaryKeyAttribute.cs:128-131 | The generator is Custom and the custom generator class is kept. |
| PrimaryKeyAttributes.PrimaryKeyAttribute.WithGenerator | Castle.ActiveRecord/Attributes/PrimaryKeyAttribute.cs:137-140 | The generator given is kept. |
| PrimaryKeyAttributes.PrimaryKeyAttribute.WithGeneratorAndColumn | Castle.ActiveRecord/Attributes/PrimaryKeyAttribute.cs:147-150 | The generator and the column given are both kept. |
| PrimaryKeyAttributes.PrimaryKeyAttribute.WithColumn | Castle.ActiveRecord/Attributes/PrimaryKeyAttribute.cs:156-159 | The column is kept and no generator is specified. |
| PrimaryKeyAttributes.PrimaryKeyAttribute.Generator | Castle.ActiveRecord/Attributes/PrimaryKeyAttribute.cs:113-114 | `Generator` reads the generator given, or Native when none was. |
| PrimaryKeyAttributes.PrimaryKeyAttribute.TypeSpecified | Castle.ActiveRecord/Attributes/PrimaryKeyAttribute.cs:218-221 | True exactly when a generator was given. |
| PrimaryKeyAttributes.PrimaryKeyAttribute.SetGenerator | Castle.ActiveRecord/Attributes/PrimaryKeyAttribute.cs:165-169 | `Generator` reads back the value set, and the generator now counts as specified. |
| PrimaryKeyAttributes.ExplicitNativeDiffersFromDefault | Castle.ActiveRecord/Attributes/PrimaryKeyAttribute.cs:156-169 | A column-only attribute reads Native, unspecified. After setting Native it reads Native, specified. |
| PrimaryKeyAttributes.CustomGeneratorIsSpecified | Castle.ActiveRecord/Attributes/PrimaryKeyAttribute.cs:128-131 | The custom-generator constructor reads Custom, is specified and keeps the class. |
| PropertyAttributes.PropertyAttribute.constructor | src/Castle.ActiveRecord/Attributes/PropertyAttribute.cs:53-57 | `Insert` and `Update` are true. Every other member is false, 0 or null. The table part has no table and optimistic locking on. |
| PropertyAttributes.PropertyAttribute.WithColumn | src/Castle.ActiveRecord/Attributes/PropertyAttribute.cs:63-66 | As the default constructor, with `Column` set. |
| PropertyAttributes.PropertyAttribute.WithColumnAndType | src/Castle.ActiveRecord/Attributes/PropertyAttribute.cs:73-76 | As the column constructor, with `ColumnType` set. |
| PropertyAttributes.AutoPropertiesReadBack | src/Castle.ActiveRecord/Attributes/PropertyAttribute.cs:82-175 | An example on a fresh default attribute. Setting `Insert` and `Column` reads them back, and of two values set on `Length` the last is read. `Update`, `Unique` and the table part's `OptimisticLock` keep their defaults. |
| PropertyAttributes.JoinedTableLeavesPropertyAlone | src/Castle.ActiveRecord/Attributes/PropertyAttribute.cs:48-66 | Setting the inherited `Table` does not disturb the property's own members. |

## Left out

- The engine (NHibernate): sessions are reduced to open/closed, transaction state, a flush count and a flush mode. SQL, data, caching and real transactions are not modelled.
- Callers may change a session they obtained from the conversation (close it, end its transaction, change its engine flush mode). The conversation requires nothing of its sessions' states, but the engine's own errors for an operation on a closed session or an ended transaction are not modelled. The engine operations always succeed here.
- Commit or rollback failing in the middle of `ClearSessions`: the model assumes they succeed. The code would then leave the table partly processed and not cleared.
- The iteration order of the session table in `ClearSessions` and `Flush` is unspecified in the code. Properties are stated per session, never as an order.
- Subscribers of the `Canceled` event are arbitrary code. Each notification is recorded in a log instead of being delivered.
- `Execute`'s action is modelled as its sequence of session requests followed by a normal return or a throw. Actions that catch the cancellation error themselves, or call the conversation directly, are not modelled.
- `IConversation.Canceled` (a property in the interface) and `ScopedConversation.IsCanceled` are modelled by the one field `isCanceled`; the event of the same name is the notification log.
- The ambient scope machinery (`AbstractScope`, disposing of the scope in `Execute`, `ActiveRecordBase.ExecuteQuery`) is not part of this model. `ExecuteQuery` is a stand-in that runs the query in the session for its root type.
- XML loading (`XmlDocument.Load`, the constructors of `XmlConfigurationSource`) is left out. The document is a tree value given to `PopulateSource`.
- The base-class setters `PopulateSource` calls are modelled as one record of settings. How the base class interprets the raw flush type or the type names is not part of this model.
- `Type.GetType` is a parameter; so is the CLR's assignability test used by `GetClosingType` and by `result is IEnumerable<T>`.
- `LongName`: assembly-qualified names are namespace, type name and assembly name; the Version, Culture and PublicKeyToken parts are left out.
- Dictionaries in `Configure`, `For`, `SetDefaults` and `BuildProperties` are modelled as map values. Aliasing of the dictionaries that `Configure` and `BuildProperties` update in place is therefore not captured. Every caller in the code hands it a fresh dictionary.
- `Enum.Parse` on numeric strings and comma-separated flag lists is not modelled. `SetDefaults` rejects those strings before parsing because they are not member names.
- Case-insensitive comparison folds ASCII letters only. .NET's `OrdinalIgnoreCase` also upper-cases some non-ASCII letters onto ASCII ones (U+017F, long s, becomes `S`). So the model rejects spellings such as "ſQLite" for a database name that the program may accept.
- Query options, expression trees and their translation are opaque values handed to the engine function.
- `ExperimentalSwitch.constructor`: the static `Experimental` property exists once per closed `QueryProvider<T>`. The model gives each provider the switch object for its `T`, and the caller decides which providers share it.
- `QueryProviders.LinqResultWrapper.GetEnumerator` also stands for the non-generic `GetEnumerator`, whose body is the same.
- `GetEnumerator` returns the rows rather than a lazy enumerator object, so partial enumeration is not modelled.
- Inheritance of `PropertyAttribute` from `WithAccessOptionalTableAttribute` is modelled by composition: the property attribute holds its table part as an object.
- The `WithAccessAttribute` base class (the access strategy) is not part of this model.
- `StatelessSessionWrapper`, the proxy and lazy-loading machinery, `ActiveRecordLinqBase` and the fluent `Configure` builder are not part of this model.

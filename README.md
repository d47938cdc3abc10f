# Dapper.AmbientContext: the ambient scope-stack engine

Dapper.AmbientContext lets code that runs Dapper queries share one database
connection and transaction without passing them around. Each logical call chain
keeps a last-in, first-out stack of active contexts. A context is either a
**root**, which owns a connection and a transaction, or **joined** to the context
that was on top of the stack when it was created. The first query on a context
opens the connection and begins a transaction. Only roots commit or roll back.
Disposing a context pops it and, for a root, releases the connection.

The library ships two generations of this engine, and the model keeps them apart:

- `Ambient` (ambient.dfy) is the current generation: `AmbientDbContext`, its
  factory and its locator.
  - A joined context copies its parent's connection, transaction, suppress flag
    and isolation level when it is constructed.
  - On its first query, a joined context opens the parent's connection and then
    adopts the parent's transaction.
  - `Dispose` insists on top-of-stack order.
  - The stack lives in a side table reached through a token held in contextual
    storage. `Storage` (storage.dfy) models that storage: the async-local slot,
    the process-wide storage selector and `ContextualStorageHelper`.
- `Legacy` (legacy.dfy) is the older generation: `DbContextScope` with its
  option flags (New, Join, Suppress), its factory and its locator.
  - A joined scope reads its isolation level, option, connection and transaction
    through its parent chain up to the root, and its `Transaction` setter writes
    the root.
  - The stack lives in a table keyed by a token held in the logical call context.
    The stack getter mints the token on first use, and a root's disposal clears
    it when the stack empties.

`Data` (data.dfy) models the ADO.NET and Dapper collaborators:
- connections and transactions are classes that count the calls made on them;
- a provider failure is a flag fixed when the object is made;
- exceptions are an `Error` datatype;
- a Dapper call is the value handed to Dapper.

Process-wide statics are explicit objects that callers pass in:
- the storage provider (`AmbientDbContextStorageProvider`);
- the side tables (`StackTable`, `ScopeRegistry`);
- the call-context slot.

A fresh GUID is a `guid` parameter. Constructors that can throw are static `New`
methods returning a `Result`. Stacks are sequences with the top last.

### Where the library's behaviour is surprising
These are modelled as the code is written:

- **Legacy double dispose throws.** Disposing a legacy root twice throws, as the
  code is written: the first disposal clears the token, so the second mints a
  new token with an empty stack and popping that stack throws
  (`Legacy.SecondRootDisposalThrows`). The library's own test
  (source/Dapper.AmbientContext.Tests/DbContextScopeTests.Dispose.cs:13-41)
  expects no exception.
- **Current-generation Commit can report the rollback's exception.** When the
  commit fails, `Rollback()` runs, and a rollback that also throws escapes in
  place of the commit's exception.
- **Current-generation storage keeps its token.** The token is never cleared when
  the stack empties, and a token whose table entry is missing makes the stack
  null, which the constructor, `Dispose` and `Get` then dereference.
- **Legacy Commit and Rollback wrap their failures.** Every failure becomes a
  `NullReferenceException` ("Tried Commit/Rollback on closed Transaction") that
  wraps the cause. A root `Rollback` with no transaction throws that exception
  too, wrapping the null dereference.

## Model

| member | source | states |
|---|---|---|
| Storage.AsyncLocalContextStorage.GetValue | src/Dapper.AmbientContext/Storage/AsyncLocalContextStorage.cs:52-55 | returns exactly what the slot holds, whatever the key |
| Storage.AsyncLocalContextStorage.Exists | src/Dapper.AmbientContext/Storage/AsyncLocalContextStorage.cs:66-69 | true exactly when the slot is non-null |
| Storage.AsyncLocalContextStorage.RemoveValue | src/Dapper.AmbientContext/Storage/AsyncLocalContextStorage.cs:77-80 | the slot is null afterwards, so Exists is false and GetValue returns null |
| Storage.AsyncLocalContextStorage.SetValue | src/Dapper.AmbientContext/Storage/AsyncLocalContextStorage.cs:94-97 | the slot holds the value, so a later GetValue with any key returns it |
| Storage.AmbientDbContextStorageProvider.Storage | src/Dapper.AmbientContext/AmbientDbContextStorageProvider.cs:49-60 | fails with InvalidOperationException and the fixed message exactly when no storage is set; otherwise returns the stored one |
| Storage.AmbientDbContextStorageProvider.SetStorage | src/Dapper.AmbientContext/AmbientDbContextStorageProvider.cs:71-74 | overwrites the storage with the argument, null included (no argument check) |
| Storage.SaveThenLookup | source/Dapper.AmbientContext/Storage/ContextualStorageHelper.cs:103-123 | saving then reading returns the saved stack; only the current token's entry changes |
| Storage.MissingTokenFails | source/Dapper.AmbientContext/Storage/ContextualStorageHelper.cs:79-111 | without a token both GetStack and SaveStack fail with AmbientDbContextException |
| Storage.ContextualStorageHelper.New | source/Dapper.AmbientContext/Storage/ContextualStorageHelper.cs:66-71 | wraps the storage and initialises: a stored token is left alone; otherwise the guid is stored and an empty stack registered, and a key already in the table fails with ArgumentException after the slot was written (a path of the plain-map abstraction only, see Left out) |
| Storage.ContextualStorageHelper.Initialize | source/Dapper.AmbientContext/Storage/ContextualStorageHelper.cs:129-141 | the same initialisation effect |
| Storage.ContextualStorageHelper.GetStack | source/Dapper.AmbientContext/Storage/ContextualStorageHelper.cs:79-95 | fails without a token, returns null when the table has no entry, otherwise the entry; never writes |
| Storage.ContextualStorageHelper.SaveStack | source/Dapper.AmbientContext/Storage/ContextualStorageHelper.cs:103-123 | fails without a token and writes nothing; otherwise replaces only the token's entry, so GetStack then returns the saved stack; never writes the slot |
| Ambient.CheckedPop | src/Dapper.AmbientContext/AmbientDbContext.cs:124-141 | empty stack: AmbientDbContextException; a context that is not the top: InvalidOperationException; otherwise removes exactly that context from the top |
| Ambient.NestedDisposalRestores | src/Dapper.AmbientContext/AmbientDbContext.cs:85-141 | contexts pushed on a stack and disposed in reverse order of creation leave exactly the original stack |
| Ambient.OnlyReverseOrderSucceeds | src/Dapper.AmbientContext/AmbientDbContext.cs:124-141 | disposing as many contexts as were pushed succeeds only in exactly the reverse order of creation |
| Ambient.OutOfOrderRejected | src/Dapper.AmbientContext/AmbientDbContext.cs:132-137 | disposing a parent before its child is rejected; the child pops cleanly |
| Ambient.DisposeCheck | src/Dapper.AmbientContext/AmbientDbContext.cs:122-141 | Dispose's checks in order: the storage lookup's error, a null stack, then CheckedPop |
| Ambient.AmbientDbContext.New | src/Dapper.AmbientContext/AmbientDbContext.cs:63-88 | without storage: the provider's error; a token clash (plain-map abstraction only) or a missing stack: that error; otherwise the new context is pushed on the stack read. With join and a non-empty stack it is joined to the previous top and copies its connection, transaction, suppress flag and isolation level; otherwise it is a root with the given values and no null-connection check |
| Ambient.AmbientDbContext.Prepare | src/Dapper.AmbientContext/AmbientDbContext.Proxy.cs:1341-1373 | root: open a non-open connection and begin a transaction unless suppressed. Joined: open the parent's Closed connection and store a new transaction in the parent only (unless the parent is suppressed), then adopt the parent's transaction only if the parent's connection is Open, the parent has a transaction and this context has none. A null connection throws. A prepared context is left unchanged, so preparing is idempotent |
| Ambient.AmbientDbContext.PrepareConnectionAndTransaction | src/Dapper.AmbientContext/AmbientDbContext.Proxy.cs:1341-1373 | the prepare effect with a synchronous Open |
| Ambient.AmbientDbContext.PrepareConnectionAndTransactionAsync | source/Dapper.AmbientContext/AmbientDbContext.ProxyAsync.cs:1475-1506 | the prepare effect with OpenAsync and the given cancellation token |
| Ambient.AmbientDbContext.InjectTransaction | src/Dapper.AmbientContext/AmbientDbContext.cs:245-262 | the command unchanged without a transaction; otherwise the same command with only its transaction replaced |
| Ambient.AmbientDbContext.Execute | src/Dapper.AmbientContext/AmbientDbContext.Proxy.cs:61-70 | prepares first, then hands Dapper the connection, the SQL and the context's transaction; a failed prepare reaches no Dapper call |
| Ambient.AmbientDbContext.ExecuteCommand | src/Dapper.AmbientContext/AmbientDbContext.Proxy.cs:81-86 | prepares first, then hands Dapper the command with the transaction injected |
| Ambient.AmbientDbContext.QueryAsync | source/Dapper.AmbientContext/AmbientDbContext.ProxyAsync.cs:68-77 | prepares asynchronously with the default token, then delegates with the transaction |
| Ambient.AmbientDbContext.QueryAsyncCommand | source/Dapper.AmbientContext/AmbientDbContext.ProxyAsync.cs:92-97 | prepares asynchronously with the command's own token, then delegates with the transaction injected |
| Ambient.AmbientDbContext.Rollback | src/Dapper.AmbientContext/AmbientDbContext.cs:193-219 | no-op on a joined context. On a root it rolls back, disposes and forgets the transaction; when the rollback throws, it disposes and forgets only if the transaction still has a connection, then rethrows |
| Ambient.AmbientDbContext.Commit | src/Dapper.AmbientContext/AmbientDbContext.cs:166-188 | no-op on a joined context. On a root it commits, disposes and forgets the transaction; a failed commit runs Rollback and rethrows, unless the rollback's own exception escapes first |
| Ambient.AmbientDbContext.Dispose | src/Dapper.AmbientContext/AmbientDbContext.cs:122-161 | a failed check changes nothing. Otherwise it pops this context before any resource work, replacing only the current token's entry of the shared table, and a joined context touches nothing more. A root commits a pending transaction; a failed commit leaves the connection untouched. Otherwise the root closes the connection only if Open, always disposes it and forgets it |
| Ambient.ChildPreparesFirst | src/Dapper.AmbientContext/AmbientDbContext.Proxy.cs:1355-1372 | a child preparing first leaves its parent Open with a new transaction at the parent's isolation level, which the child shares |
| Ambient.AmbientDbContextFactory.Create | source/Dapper.AmbientContext/AmbientDbContextFactory.cs:74-86 | takes exactly one connection. A connection that is not Closed is refused with AmbientDbContextException and nothing is constructed or pushed. Otherwise it constructs with the given join, suppress and isolation values, and the connection is left Closed; the connection is never opened, closed, disposed or asked for a transaction here |
| Ambient.AmbientDbContextLocator.New | src/Dapper.AmbientContext/AmbientDbContextLocator.cs:46-49 | builds a helper over the configured storage, which mints a token when there is none |
| Ambient.AmbientDbContextLocator.Get | src/Dapper.AmbientContext/AmbientDbContextLocator.cs:60-70 | the top of the stack; InvalidOperationException on an empty stack; reads only |
| Legacy.ComposeOption | source/Dapper.AmbientContext/DbContextScopeFactory.cs:102-107 | New, never Join, and Suppress exactly when asked |
| Legacy.ScopeCheck | source/Dapper.AmbientContext/DbContextScope.cs:71-89 | in order: New without a connection, New with Join, Join on an empty stack; success exactly when none applies, joining the top of the stack with Join |
| Legacy.FactoryOptionPassesChecks | source/Dapper.AmbientContext/DbContextScopeFactory.cs:98-109 | a factory-composed option passes the constructor's checks with a connection, whatever the stack |
| Legacy.GetStackOf | source/Dapper.AmbientContext/DbContextScope.cs:142-165 | mints and stores a token when there is none, adds an empty entry only when missing, and leaves every existing entry as it was |
| Legacy.SetStackOf | source/Dapper.AmbientContext/DbContextScope.cs:167-186 | mints a token when there is none; the getter then reads back the stored stack, and other tokens' entries are unchanged |
| Legacy.ClearOf | source/Dapper.AmbientContext/DbContextScope.cs:192-202 | drops the token and exactly its entry; without a token nothing changes |
| Legacy.PopOf | source/Dapper.AmbientContext/DbContextScope.cs:466 | the pop fails exactly when the stack read is empty |
| Legacy.GetStackIdempotent | source/Dapper.AmbientContext/DbContextScope.cs:142-165 | a second read of the stack changes nothing and reads the same stack |
| Legacy.PushThenPopRestores | source/Dapper.AmbientContext/DbContextScope.cs:445-466 | on a chain that has its stack, a push then a pop restores the state exactly |
| Legacy.NestedScopesRestore | source/Dapper.AmbientContext/DbContextScope.cs:445-466 | on a chain that already holds its token, any number of pushes followed by as many pops restores the state exactly; from a chain without a token the pushes mint one that the pops leave in place |
| Legacy.RootPopClearsExactlyWhenEmpty | source/Dapper.AmbientContext/DbContextScope.cs:466-471 | a root's disposal clears the token, and removes its entry, exactly when its pop empties the stack |
| Legacy.SecondRootDisposalThrows | source/Dapper.AmbientContext/DbContextScope.cs:466-471 | after a root's disposal emptied the stack, disposing it again throws on the freshly minted empty stack |
| Legacy.ScopeRegistry.GetStack | source/Dapper.AmbientContext/DbContextScope.cs:142-165 | the getter's effect on the slot and the table, and the stack it returns |
| Legacy.ScopeRegistry.SetStack | source/Dapper.AmbientContext/DbContextScope.cs:167-186 | the setter's effect |
| Legacy.ScopeRegistry.Clear | source/Dapper.AmbientContext/DbContextScope.cs:192-202 | ClearDbContextScopeStack's effect |
| Legacy.ScopeRegistry.Pop | source/Dapper.AmbientContext/DbContextScope.cs:449 | the getter, then a pop that throws on an empty stack, then the setter |
| Legacy.DbContextScope.ReadsThroughToRoot | source/Dapper.AmbientContext/DbContextScope.cs:97-122 | at any depth the IsolationLevel, Option, Connection and Transaction getters return the root's own fields |
| Legacy.DbContextScope.SameRootSameView | source/Dapper.AmbientContext/DbContextScope.cs:97-122 | all scopes of one chain report the same isolation level, option, connection and transaction |
| Legacy.DbContextScope.SetTransaction | source/Dapper.AmbientContext/DbContextScope.cs:124-134 | the Transaction setter writes the root's field, so every scope of the chain sees the new transaction |
| Legacy.DbContextScope.New | source/Dapper.AmbientContext/DbContextScope.cs:65-92 | a failed check returns its error and pushes nothing; only a Join may have minted the token. Otherwise the new scope is pushed, keeps the given connection, option and level, and a joined scope's parent is the previous top, with the same root |
| Legacy.DbContextScope.Prepare | source/Dapper.AmbientContext/DbContextScope.cs:239-253 | opens the read-through connection only if it is Closed. It begins a transaction at the read-through isolation level, stored on the root, only if the read-through Transaction is null and Option lacks Suppress. A null connection throws. A prepared scope is left unchanged |
| Legacy.DbContextScope.PrepareConnection | source/Dapper.AmbientContext/DbContextScope.cs:239-253 | the prepare effect with a synchronous Open |
| Legacy.DbContextScope.PrepareAsyncConnection | source/Dapper.AmbientContext/DbContextScope.Async.cs:50-64 | the prepare effect with OpenAsync |
| Legacy.DbContextScope.OpenAsync | source/Dapper.AmbientContext/DbContextScope.Async.cs:42-45 | exactly PrepareAsyncConnection |
| Legacy.DbContextScope.Query | source/Dapper.AmbientContext/DbContextScope.cs:275-280 | prepares, then hands Dapper the root's connection and transaction |
| Legacy.DbContextScope.QueryAsync | source/Dapper.AmbientContext/DbContextScope.Async.cs:86-91 | prepares asynchronously, then delegates the same way |
| Legacy.DbContextScope.Dispose | source/Dapper.AmbientContext/DbContextScope.cs:445-472 | a joined scope only pops, with no top-of-stack check. A root disposes and forgets its transaction without committing it. It closes, disposes and forgets its connection unless that is Closed. It then pops, and clears the token when the stack is empty |
| Legacy.DbContextScope.Commit | source/Dapper.AmbientContext/DbContextScope.cs:477-502 | no-op on a joined scope. On a root it commits, disposes and forgets the transaction. A failed commit runs Rollback only when the transaction has a connection, then throws a NullReferenceException wrapping the cause; a rollback failure escapes instead |
| Legacy.DbContextScope.Rollback | source/Dapper.AmbientContext/DbContextScope.cs:507-524 | no-op on a joined scope. On a root it rolls back, disposes and forgets the transaction. With no transaction, or when the rollback fails, it throws the wrapping NullReferenceException and leaves the transaction as it was |
| Legacy.CommitThenPrepare | source/Dapper.AmbientContext/DbContextScope.cs:239-253 | after a successful commit, the next prepare begins a new transaction on the still-open connection |
| Legacy.DbContextScopeFactory.CreateInternal | source/Dapper.AmbientContext/DbContextScopeFactory.cs:98-110 | takes one connection and pushes a root with option New (plus Suppress) and the requested isolation level, passed unchanged |
| Legacy.DbContextScopeFactory.Create | source/Dapper.AmbientContext/DbContextScopeFactory.cs:61-68 | opens eagerly: a Closed connection is opened once, and a transaction at the requested level is begun exactly when not suppressed |
| Legacy.DbContextScopeFactory.CreateOrJoin | source/Dapper.AmbientContext/DbContextScopeFactory.cs:76-84 | on an empty stack behaves as Create with the defaults: a root with option New over the new connection, opened if it was Closed, with a new ReadCommitted transaction on it. Otherwise it pushes a scope joined to the top that shares its root and asks the connection factory for nothing |
| Legacy.AmbientDbContextLocator.Get | source/Dapper.AmbientContext/AmbientDbContextLocator.cs:43-53 | InvalidOperationException on an empty stack, otherwise a DbContext around the top scope; pushes and pops nothing, though the getter may mint the token and an empty entry |

## Left out

- **Forwarding overloads.** The Dapper forwarding overloads of the proxies, the
  legacy query methods and `DbContext` are not modelled one by one. Each is
  "prepare, then an opaque call into Dapper". `Execute`, `ExecuteCommand`,
  `QueryAsync`, `QueryAsyncCommand`, `Query` and the legacy `QueryAsync` stand
  for them. Dapper and the database are not part of this model.
- **Flow across threads and tasks.** `AsyncLocal` and `LogicalCallContext` flow
  (copy-on-fork, isolation between tasks) and the cross-AppDomain
  `MarshalByRefObject` wrappers are left out. One slot object stands for what
  one call chain sees.
- **Garbage collection.** The `ConditionalWeakTable` is a plain map, so entries
  are never collected.
- **GUIDs.** GUID generation is a parameter. The side tables are plain maps
  keyed by the token's text. The program's `ConditionalWeakTable` compares keys
  by reference, so a newly minted token never matches an existing key. The model
  still lets a `guid` equal to an existing key reach the table. There, the
  current generation's `Add` fails with ArgumentException and the legacy getter
  shares the other chain's entry. Both paths come from the plain-map
  abstraction; the program cannot take either.
- **Async scheduling.** `ConfigureAwait` and cancellation are left out. The
  asynchronous prepare steps run sequentially, and only the token passed is
  recorded.
- **Collaborator failures.** Only commit and rollback can fail, and each
  transaction's failure flags are fixed when it is made. Open, OpenAsync, Close,
  Dispose and BeginTransaction never throw, and the data provider's own
  exception messages are placeholders.
- **Constant values not shown.** `AmbientDbContextStorageKey.Key` and the
  `DbContextScopeOption` enumeration are not part of this model. The key is a
  named constant that the async-local storage ignores, and the option is the set
  of its three flags.
- **The legacy `Open()`.** The synchronous `Open()` the legacy factory calls is
  not shown; it is modelled as `PrepareConnection`.
- **The duplicated `PrepareAsyncConnection`.** It is defined twice, in
  DbContextScope.cs and in DbContextScope.Async.cs, and the two definitions
  differ only in a cast. It is modelled once, as is the class that is declared
  `public` in one file and `sealed partial` in the other.
- **The interface-only files.** `IDbContextScopeFactory`'s `New`/`Join` names are
  not reconciled with `Create`/`CreateOrJoin`.
- **One shared async-local slot.** The source keeps the slot in a static
  field, so every `AsyncLocalContextStorage` instance sees the same slot. In the
  model each instance owns its own `value`. Installing a new instance through
  `SetStorage` therefore starts with no token in the model, while the program
  keeps the token it had.
- **The cast to `DbConnection`.** The asynchronous prepare steps cast the
  connection to `DbConnection`. For an `IDbConnection` that is not a
  `DbConnection` this throws `InvalidCastException`. The model's connections are
  all of one kind, so these steps never fail that way.
- **Exception types.** `AmbientDbContextException` is a tag of `Error`.
- **Legacy.DbContextScopeFactory.Create: a scope that fails to open.** It does
  not model this case, because the factory's connection is never null, and only
  a null connection makes the prepare step fail.

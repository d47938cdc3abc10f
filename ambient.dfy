/** The current generation of the ambient context: AmbientDbContext, its
    factory and its locator.

    Every logical call chain keeps a LIFO stack of active contexts in contextual
    storage. A context is either a root, which owns its connection and
    transaction, or joined to the context that was on top of the stack when it
    was made; a joined context copies its parent's connection, transaction,
    suppress flag and isolation level at that moment. The first query opens the
    connection and begins the transaction lazily. Only roots commit, roll back
    or release their connection; disposal must follow the stack order. */
module Ambient {
  import opened Wrappers
  import opened Data
  import opened Storage

  const DisposeMissingMessage := "Could not dispose ambient database context because it does not exist in storage."
  const DisposeOutOfOrderMessage :=
    "Could not dispose ambient database context because it is not the active ambient database context. This could occur because ambient database context is being disposed out of order."
  const NoActiveContextMessage :=
    "Could not find active ambient database context instance. Use AmbientDbContextFactory to create ambient database context before attempting to execute queries."
  const NonClosedConnectionMessage :=
    "The database connection factory returned a database connection in a non-closed state. This behavior is not allowed as the ambient database context will maintain database connection state as required."

  /* ---------------- The stack discipline, on values ---------------- */

  /** Dispose's check on the stack it reads: the stack must be non-empty and
      `c` must be its top; the result is the stack with `c` popped. */
  function CheckedPop<T(==)>(s: seq<T>, c: T): (r: Result<seq<T>, Error>)
    ensures r.Success? <==> s != [] && s[|s| - 1] == c
    ensures r.Success? ==> r.value + [c] == s
    ensures s == [] ==> r == Failure(AmbientDbContextException(DisposeMissingMessage))
    ensures s != [] && s[|s| - 1] != c ==> r == Failure(InvalidOperationException(DisposeOutOfOrderMessage))
  {
    if s == [] then Failure(AmbientDbContextException(DisposeMissingMessage))
    else if s[|s| - 1] != c then Failure(InvalidOperationException(DisposeOutOfOrderMessage))
    else Success(s[..|s| - 1])
  }

  /** Disposing the contexts `ds`, in that order, from the stack `s`; the first
      rejected disposal stops the sequence. */
  function CheckedPopAll<T(==)>(s: seq<T>, ds: seq<T>): Result<seq<T>, Error>
    decreases |ds|
  {
    if ds == [] then Success(s)
    else
      match CheckedPop(s, ds[0])
      case Failure(e) => Failure(e)
      case Success(s') => CheckedPopAll(s', ds[1..])
  }

  /** `s` back to front. */
  function Reversed<T>(s: seq<T>): (r: seq<T>)
    ensures |r| == |s|
  {
    if s == [] then [] else [s[|s| - 1]] + Reversed(s[..|s| - 1])
  }

  /** Push/pop symmetry: contexts created on top of `s` and disposed in reverse
      order of creation leave exactly `s`. */
  lemma {:induction false} NestedDisposalRestores<T>(s: seq<T>, cs: seq<T>)
    ensures CheckedPopAll(s + cs, Reversed(cs)) == Success(s)
  {
    if cs != [] {
      var n := |cs| - 1;
      assert s + cs == (s + cs[..n]) + [cs[n]];
      assert CheckedPop(s + cs, cs[n]) == Success(s + cs[..n]);
      var rs := Reversed(cs);
      assert rs == [cs[n]] + Reversed(cs[..n]);
      assert rs[0] == cs[n] && rs[1..] == Reversed(cs[..n]);
      NestedDisposalRestores(s, cs[..n]);
      assert CheckedPopAll(s + cs, rs) == CheckedPopAll(s + cs[..n], rs[1..]);
    } else {
      assert s + cs == s;
    }
  }

  /** The stack order is enforced: disposing as many contexts as were created
      succeeds only in exactly the reverse order of creation. */
  lemma {:induction false} OnlyReverseOrderSucceeds<T>(s: seq<T>, cs: seq<T>, ds: seq<T>)
    requires |ds| == |cs|
    requires CheckedPopAll(s + cs, ds).Success?
    ensures ds == Reversed(cs)
    ensures CheckedPopAll(s + cs, ds) == Success(s)
  {
    if cs != [] {
      var n := |cs| - 1;
      assert s + cs == (s + cs[..n]) + [cs[n]];
      assert ds[0] == cs[n];
      assert CheckedPop(s + cs, ds[0]) == Success(s + cs[..n]);
      assert CheckedPopAll(s + cs, ds) == CheckedPopAll(s + cs[..n], ds[1..]);
      OnlyReverseOrderSucceeds(s, cs[..n], ds[1..]);
      assert ds == [ds[0]] + ds[1..];
      assert Reversed(cs) == [cs[n]] + Reversed(cs[..n]);
    } else {
      assert s + cs == s;
    }
  }

  /** An out-of-order disposal is rejected before anything is popped. */
  lemma OutOfOrderRejected<T>(s: seq<T>, root: T, child: T)
    requires root != child
    ensures CheckedPop(s + [root, child], root) == Failure(InvalidOperationException(DisposeOutOfOrderMessage))
    ensures CheckedPop(s + [root, child], child) == Success(s + [root])
  {
    assert (s + [root, child])[..|s| + 1] == s + [root];
  }

  /** Everything Dispose can find wrong with the stored stack, in the order the
      library checks it: the token lookup, a null stack, then CheckedPop. */
  function DisposeCheck<T(==)>(stored: Result<Option<seq<T>>, Error>, c: T): (r: Result<seq<T>, Error>)
    ensures stored.Failure? ==> r == Failure(stored.error)
    ensures stored == Success(None) ==> r == Failure(NullDereference)
    ensures stored.Success? && stored.value.Some? ==> r == CheckedPop(stored.value.value, c)
  {
    match stored
    case Failure(e) => Failure(e)
    case Success(None) => Failure(NullDereference)
    case Success(Some(s)) => CheckedPop(s, c)
  }

  /* ---------------- The context ---------------- */

  /** What Commit returns for a root whose transaction is `t`: a commit failure
      is rethrown after the rollback, unless the rollback throws first. */
  function CommitOutcomeOf(t: Transaction?): Outcome<Error>
  {
    if t == null || !t.failOnCommit then Pass
    else if t.failOnRollback then Fail(DataException(RollbackFailedMessage))
    else Fail(DataException(CommitFailedMessage))
  }

  class AmbientDbContext {
    var connection: Connection?
    var transaction: Transaction?
    const suppress: bool
    const isolationLevel: IsolationLevel
    const parent: AmbientDbContext?
    const storageHelper: ContextualStorageHelper<AmbientDbContext>

    /** A context never joins itself. */
    ghost predicate Valid()
    {
      parent != this
    }

    constructor Init(storageHelper: ContextualStorageHelper<AmbientDbContext>, connection: Connection?,
                     transaction: Transaction?, suppress: bool, level: IsolationLevel, parent: AmbientDbContext?)
      ensures this.storageHelper == storageHelper && this.parent == parent
      ensures this.connection == connection && this.transaction == transaction
      ensures this.suppress == suppress && isolationLevel == level
    {
      this.storageHelper := storageHelper;
      this.connection := connection;
      this.transaction := transaction;
      this.suppress := suppress;
      isolationLevel := level;
      this.parent := parent;
    }

    /** The constructor: prepare the storage and read the stack, become a root
        or join the top of the stack, push this context and save the stack.
        `prior` is the stack the constructor read. */
    static method New(provider: AmbientDbContextStorageProvider, table: StackTable<AmbientDbContext>,
                      connection: Connection?, join: bool, suppress: bool, level: IsolationLevel, guid: string)
      returns (r: Result<AmbientDbContext, Error>, ghost prior: seq<AmbientDbContext>)
      modifies provider.storage, table
      ensures Constructed(provider.storage, table, connection, join, suppress, level, guid, r, prior)
    {
      prior := [];
      var storage :- provider.Storage();
      var helper :- ContextualStorageHelper<AmbientDbContext>.New(storage, table, guid);
      var got := helper.GetStack();
      assert got.Success?;  // the token was stored by the helper's construction
      var stored := got.value;
      if stored.None? {
        return Failure(NullDereference), prior;
      }
      var stack := stored.value;
      prior := stack;
      var c: AmbientDbContext;
      if join && stack != [] {
        var p := stack[|stack| - 1];
        c := new AmbientDbContext.Init(helper, p.connection, p.transaction, p.suppress, p.isolationLevel, p);
      } else {
        c := new AmbientDbContext.Init(helper, connection, null, suppress, level, null);
      }
      var saved := helper.SaveStack(stack + [c]);
      assert saved.Pass?;
      r := Success(c);
    }

    /** The parent's connection, or null for a root. */
    ghost function ParentConnection(): Connection?
      reads parent
    {
      if parent == null then null else parent.connection
    }

    /** The state after which a prepare step does nothing more: a root's
        connection is open; a joined context's parent connection is no longer
        closed, and if it is open the parent's transaction has been adopted
        already (or there is none to adopt). */
    ghost predicate Prepared()
      reads this, connection, parent, ParentConnection()
    {
      if parent == null then
        connection != null && connection.state == ConnectionState.Open
      else
        var pc := ParentConnection();
        && pc != null
        && pc.state != Closed
        && (pc.state == ConnectionState.Open ==> parent.transaction == null || transaction != null)
    }

    /** The only failure of a prepare step: dereferencing a null connection. */
    ghost function PrepareOutcome(): Outcome<Error>
      reads this, parent
    {
      if (parent == null && connection == null) || (parent != null && parent.connection == null)
      then Fail(NullDereference) else Pass
    }

    /** What PrepareConnectionAndTransaction(Async) does. A root whose
        connection is not open opens it and, unless suppressed, begins a
        transaction at its own isolation level; an open root is left alone even
        without a transaction. A joined context opens its parent's connection
        only when that is Closed, storing the new transaction (unless the parent
        is suppressed) in the parent, one level up only; it then adopts the
        parent's transaction when the parent's connection is open, the parent
        has a transaction and it has none of its own yet. */
    twostate predicate PrepareEffect(mode: OpenMode, new o: Outcome<Error>)
      reads this, connection, parent, ParentConnection(), transaction
      reads if parent == null then {} else Obj(parent.transaction)
    {
      && connection == old(connection)
      && ParentConnection() == old(ParentConnection())
      && o == old(PrepareOutcome())
      && (o.Pass? ==> Prepared())
      && (old(Prepared()) ==> PrepareIsNoOp())
      && if parent == null then
           if connection == null then
             transaction == old(transaction)
           else if old(connection.state) == ConnectionState.Open then
             transaction == old(transaction) && unchanged(connection)
           else
             && OpenedBy(connection, mode)
             && if suppress then transaction == old(transaction) && connection.begun == old(connection.begun)
                else BegunOn(connection, transaction, isolationLevel)
         else
           var pc := ParentConnection();
           && (connection != pc ==> unchanged(Obj(connection)))
           && if pc == null then
                transaction == old(transaction) && parent.transaction == old(parent.transaction)
              else
                && (if old(pc.state) == Closed then
                      && OpenedBy(pc, mode)
                      && if parent.suppress then parent.transaction == old(parent.transaction) && pc.begun == old(pc.begun)
                         else BegunOn(pc, parent.transaction, parent.isolationLevel)
                    else
                      unchanged(pc) && parent.transaction == old(parent.transaction))
                && transaction ==
                     if pc.state == ConnectionState.Open && parent.transaction != null && old(transaction) == null
                     then parent.transaction else old(transaction)
    }

    /** Nothing a prepare step could change has changed. */
    twostate predicate PrepareIsNoOp()
      reads this, connection, parent, ParentConnection()
    {
      && connection == old(connection)
      && ParentConnection() == old(ParentConnection())
      && transaction == old(transaction)
      && unchanged(Obj(connection))
      && (parent != null ==> parent.transaction == old(parent.transaction))
      && unchanged(Obj(ParentConnection()))
    }

    method Prepare(mode: OpenMode) returns (o: Outcome<Error>)
      requires Valid()
      modifies this`transaction, connection, parent, ParentConnection()
      ensures PrepareEffect(mode, o)
    {
      if parent == null {
        if connection == null {
          return Fail(NullDereference);
        }
        if connection.state != ConnectionState.Open {
          OpenConnection(connection, mode);
          if !suppress {
            transaction := connection.BeginTransaction(isolationLevel);
          }
        }
        return Pass;
      }
      var pc := parent.connection;
      if pc == null {
        return Fail(NullDereference);
      }
      if pc.state == Closed {
        OpenConnection(pc, mode);
        if !parent.suppress {
          var t := pc.BeginTransaction(parent.isolationLevel);
          parent.transaction := t;
        }
      }
      if pc.state == ConnectionState.Open {
        if parent.transaction != null && transaction == null {
          transaction := parent.transaction;
        }
      }
      return Pass;
    }

    /** PrepareConnectionAndTransaction: the step every synchronous query runs
        before delegating to Dapper. */
    method PrepareConnectionAndTransaction() returns (o: Outcome<Error>)
      requires Valid()
      modifies this`transaction, connection, parent, ParentConnection()
      ensures PrepareEffect(Synchronous, o)
    {
      o := Prepare(Synchronous);
    }

    /** PrepareConnectionAndTransactionAsync(cancellationToken): the same step,
        awaiting OpenAsync with the given token. */
    method PrepareConnectionAndTransactionAsync(token: CancellationToken) returns (o: Outcome<Error>)
      requires Valid()
      modifies this`transaction, connection, parent, ParentConnection()
      ensures PrepareEffect(Asynchronous(token), o)
    {
      o := Prepare(Asynchronous(token));
    }

    /** InjectTransaction: the command with this context's transaction in place
        of its own, or the command itself when there is no transaction. */
    function InjectTransaction(command: CommandDefinition): (r: CommandDefinition)
      reads this
      ensures transaction == null ==> r == command
      ensures transaction != null ==> r == command.(transaction := transaction)
    {
      if transaction == null then command
      else CommandDefinition(command.commandText, command.parameters, transaction, command.commandTimeout,
                             command.commandType, command.flags, command.cancellationToken)
    }

    /** Execute(sql, ...) and its sibling SQL-text overloads: prepare, then hand
        Dapper the connection, the SQL and this context's transaction. */
    method Execute(sql: string) returns (r: Result<DapperCall, Error>)
      requires Valid()
      modifies this`transaction, connection, parent, ParentConnection()
      ensures PrepareEffect(Synchronous, old(PrepareOutcome()))
      ensures old(PrepareOutcome()).Fail? ==> r == Failure(old(PrepareOutcome()).error)
      ensures old(PrepareOutcome()).Pass? ==>
        r == if connection == null then Failure(NullDereference) else Success(SqlCall(connection, sql, transaction))
    {
      var o := PrepareConnectionAndTransaction();
      if o.Fail? {
        return Failure(o.error);
      }
      if connection == null {
        return Failure(NullDereference);
      }
      return Success(SqlCall(connection, sql, transaction));
    }

    /** Execute(CommandDefinition) and its siblings: prepare, then hand Dapper
        the command with the transaction injected. */
    method ExecuteCommand(command: CommandDefinition) returns (r: Result<DapperCall, Error>)
      requires Valid()
      modifies this`transaction, connection, parent, ParentConnection()
      ensures PrepareEffect(Synchronous, old(PrepareOutcome()))
      ensures old(PrepareOutcome()).Fail? ==> r == Failure(old(PrepareOutcome()).error)
      ensures old(PrepareOutcome()).Pass? ==>
        r == if connection == null then Failure(NullDereference)
             else Success(CommandCall(connection, InjectTransaction(command)))
    {
      var o := PrepareConnectionAndTransaction();
      if o.Fail? {
        return Failure(o.error);
      }
      if connection == null {
        return Failure(NullDereference);
      }
      return Success(CommandCall(connection, InjectTransaction(command)));
    }

    /** QueryAsync(sql, ...) and its sibling SQL-text overloads: prepare with the
        default cancellation token, then delegate with this context's transaction. */
    method QueryAsync(sql: string) returns (r: Result<DapperCall, Error>)
      requires Valid()
      modifies this`transaction, connection, parent, ParentConnection()
      ensures PrepareEffect(Asynchronous(NoToken), old(PrepareOutcome()))
      ensures old(PrepareOutcome()).Fail? ==> r == Failure(old(PrepareOutcome()).error)
      ensures old(PrepareOutcome()).Pass? ==>
        r == if connection == null then Failure(NullDereference) else Success(SqlCall(connection, sql, transaction))
    {
      var o := PrepareConnectionAndTransactionAsync(NoToken);
      if o.Fail? {
        return Failure(o.error);
      }
      if connection == null {
        return Failure(NullDereference);
      }
      return Success(SqlCall(connection, sql, transaction));
    }

    /** QueryAsync(CommandDefinition) and its siblings: prepare with the
        command's own cancellation token, then delegate with the transaction injected. */
    method QueryAsyncCommand(command: CommandDefinition) returns (r: Result<DapperCall, Error>)
      requires Valid()
      modifies this`transaction, connection, parent, ParentConnection()
      ensures PrepareEffect(Asynchronous(command.cancellationToken), old(PrepareOutcome()))
      ensures old(PrepareOutcome()).Fail? ==> r == Failure(old(PrepareOutcome()).error)
      ensures old(PrepareOutcome()).Pass? ==>
        r == if connection == null then Failure(NullDereference)
             else Success(CommandCall(connection, InjectTransaction(command)))
    {
      var o := PrepareConnectionAndTransactionAsync(command.cancellationToken);
      if o.Fail? {
        return Failure(o.error);
      }
      if connection == null {
        return Failure(NullDereference);
      }
      return Success(CommandCall(connection, InjectTransaction(command)));
    }

    /** What Rollback does on a root whose transaction was `t`: roll back,
        dispose and forget it; when the rollback throws, dispose and forget it
        only if it still has a connection, then rethrow. */
    twostate predicate RollbackEffect(t: Transaction?, new o: Outcome<Error>)
      reads this, t
    {
      if t == null then o == Pass && transaction == null
      else
        && t.rollbacks == old(t.rollbacks) + 1 && t.commits == old(t.commits)
        && o == (if t.failOnRollback then Fail(DataException(RollbackFailedMessage)) else Pass)
        && if !t.failOnRollback || t.connection != null then
             t.disposals == old(t.disposals) + 1 && transaction == null
           else
             t.disposals == old(t.disposals) && transaction == t
    }

    /** What Commit does on a root whose transaction was `t`: commit, dispose
        and forget it; when the commit throws, run Rollback and rethrow. */
    twostate predicate CommitEffect(t: Transaction?, new o: Outcome<Error>)
      reads this, t
    {
      && o == CommitOutcomeOf(t)
      && if t == null then transaction == null
         else
           && t.commits == old(t.commits) + 1
           && if !t.failOnCommit then
                t.rollbacks == old(t.rollbacks) && t.disposals == old(t.disposals) + 1 && transaction == null
              else
                && t.rollbacks == old(t.rollbacks) + 1
                && if !t.failOnRollback || t.connection != null then
                     t.disposals == old(t.disposals) + 1 && transaction == null
                   else
                     t.disposals == old(t.disposals) && transaction == t
    }

    method Rollback() returns (o: Outcome<Error>)
      modifies this`transaction, transaction
      ensures parent != null ==> o == Pass && transaction == old(transaction) && unchanged(Obj(old(transaction)))
      ensures parent == null ==> RollbackEffect(old(transaction), o)
      ensures old(transaction) != null ==> old(transaction).connection == old(transaction.connection)
    {
      if parent != null {
        return Pass;
      }
      var t := transaction;
      if t != null {
        o := t.Rollback();
        if o.Fail? {
          if t.connection != null {
            t.Dispose();
            transaction := null;
          }
          return o;
        }
        t.Dispose();
        transaction := null;
      }
      return Pass;
    }

    method Commit() returns (o: Outcome<Error>)
      modifies this`transaction, transaction
      ensures parent != null ==> o == Pass && transaction == old(transaction) && unchanged(Obj(old(transaction)))
      ensures parent == null ==> CommitEffect(old(transaction), o)
      ensures old(transaction) != null ==> old(transaction).connection == old(transaction.connection)
    {
      if parent != null {
        return Pass;
      }
      var t := transaction;
      if t != null {
        o := t.Commit();
        if o.Fail? {
          var rolledBack := Rollback();
          if rolledBack.Fail? {
            return rolledBack;
          }
          return o;
        }
        t.Dispose();
        transaction := null;
      }
      return Pass;
    }

    /** Dispose: check the stack, pop this context and save the stack; then, for
        a root only, commit a pending transaction and release the connection
        (Close only when Open, always Dispose, then forget it). A commit that
        throws ends Dispose with the stack already popped and the connection
        untouched. */
    method Dispose() returns (o: Outcome<Error>)
      modifies storageHelper.table, this, connection, transaction
      ensures var popped := DisposeCheck(old(storageHelper.Stack()), this);
        && (popped.Failure? ==>
              && o == Fail(popped.error)
              && unchanged(storageHelper.table, this)
              && unchanged(Obj(old(connection))) && unchanged(Obj(old(transaction))))
        && (popped.Success? ==>
              && storageHelper.Stack() == Success(Some(popped.value))
              && Success(storageHelper.table.entries)
                 == SaveStackOf(storageHelper.storage.value, old(storageHelper.table.entries), popped.value))
        && (popped.Success? && parent != null ==>
              && o == Pass && connection == old(connection) && transaction == old(transaction)
              && unchanged(Obj(old(connection))) && unchanged(Obj(old(transaction))))
        && (popped.Success? && parent == null ==>
              && CommitEffect(old(transaction), CommitOutcomeOf(old(transaction)))
              && if CommitOutcomeOf(old(transaction)).Fail? then
                   o == CommitOutcomeOf(old(transaction)) && connection == old(connection) && unchanged(Obj(old(connection)))
                 else
                   o == Pass && connection == null && ReleasedConnection(old(connection)))
      ensures old(transaction) != null ==> old(transaction).connection == old(transaction.connection)
    {
      var stored := storageHelper.GetStack();
      if stored.Failure? {
        return Fail(stored.error);
      }
      if stored.value.None? {
        return Fail(NullDereference);
      }
      var stack := stored.value.value;
      if stack == [] {
        return Fail(AmbientDbContextException(DisposeMissingMessage));
      }
      if this != stack[|stack| - 1] {
        return Fail(InvalidOperationException(DisposeOutOfOrderMessage));
      }
      var saved := storageHelper.SaveStack(stack[..|stack| - 1]);
      assert saved.Pass?;
      if parent == null {
        if transaction != null {
          var committed := Commit();
          if committed.Fail? {
            return committed;
          }
        }
        var c := connection;
        if c != null {
          if c.state == ConnectionState.Open {
            c.Close();
          }
          c.Dispose();
          connection := null;
        }
      }
      return Pass;
    }
  }

  /** A joined context that runs the first query of its chain: its parent's
      closed connection is opened and begins a transaction at the parent's
      isolation level, and the child shares that transaction. */
  method ChildPreparesFirst(child: AmbientDbContext) returns (o: Outcome<Error>)
    requires child.Valid() && child.parent != null && child.transaction == null
    requires child.parent.connection != null && child.parent.connection.state == Closed
    requires !child.parent.suppress
    modifies child`transaction, child.connection, child.parent, child.ParentConnection()
    ensures o == Pass
    ensures child.parent.connection == old(child.parent.connection)
    ensures child.parent.connection.state == ConnectionState.Open
    ensures child.parent.transaction != null && fresh(child.parent.transaction)
    ensures child.parent.transaction.connection == child.parent.connection
    ensures child.parent.transaction.isolationLevel == child.parent.isolationLevel
    ensures child.transaction == child.parent.transaction
  {
    o := child.PrepareConnectionAndTransaction();
  }

  /** A root's connection `c` after Dispose released it: closed if it was
      open, disposed in any case. */
  twostate predicate ReleasedConnection(c: Connection?)
    reads c
  {
    c != null ==>
      && c.disposals == old(c.disposals) + 1
      && c.opens == old(c.opens) && c.asyncOpens == old(c.asyncOpens) && c.begun == old(c.begun)
      && if old(c.state) == ConnectionState.Open then c.state == Closed && c.closes == old(c.closes) + 1
         else c.state == old(c.state) && c.closes == old(c.closes)
  }

  /** What the constructor leaves behind, given the storage installed in the
      provider. Without storage: the provider's error. Otherwise the helper is
      set up (storing `guid` as the token if there was none); a token clash in
      the table and a token with no stack behind it are the two errors; on
      success the new context sits on top of the stack it read (`prior`). With
      `join` and a non-empty stack it is joined to the previous top and copies
      its connection, transaction, suppress flag and isolation level; otherwise
      it is a root holding the given connection (null included), suppress flag
      and isolation level, with no transaction. */
  twostate predicate Constructed(storage: AsyncLocalContextStorage?, table: StackTable<AmbientDbContext>,
                                 new connection: Connection?, join: bool, suppress: bool, level: IsolationLevel,
                                 guid: string, new r: Result<AmbientDbContext, Error>, new prior: seq<AmbientDbContext>)
    reads storage, table, (if r.Success? then {r.value} else {}), (set x | x in prior)
  {
    if storage == null then
      r == Failure(InvalidOperationException(StorageNotConfiguredMessage)) && table.entries == old(table.entries)
    else
      var slot := old(storage.value);
      if slot.None? && guid in old(table.entries) then
        && r == Failure(ArgumentException(DuplicateKeyMessage))
        && storage.value == Some(ContextualStorageItem(guid)) && table.entries == old(table.entries)
      else if slot.Some? && slot.value.value !in old(table.entries) then
        r == Failure(NullDereference) && storage.value == slot && table.entries == old(table.entries)
      else
        && prior == (if slot.None? then [] else old(table.entries)[slot.value.value])
        && r.Success?
        && var c := r.value;
        && var token := if slot.None? then guid else slot.value.value;
        && fresh(c) && c.Valid()
        && c.storageHelper.storage == storage && c.storageHelper.table == table
        && storage.value == Some(ContextualStorageItem(token))
        && table.entries == old(table.entries)[token := prior + [c]]
        && if join && prior != [] then
             var p := prior[|prior| - 1];
             && c.parent == p
             && c.connection == p.connection && c.transaction == p.transaction
             && c.suppress == p.suppress && c.isolationLevel == p.isolationLevel
           else
             && c.parent == null
             && c.connection == connection && c.transaction == null
             && c.suppress == suppress && c.isolationLevel == level
  }

  /** AmbientDbContextFactory: takes one connection from the connection
      factory per call and refuses one that is not Closed. */
  class AmbientDbContextFactory {
    const connectionFactory: DbConnectionFactory

    constructor (connectionFactory: DbConnectionFactory)
      ensures this.connectionFactory == connectionFactory
    {
      this.connectionFactory := connectionFactory;
    }

    /** Create(join = true, suppress = false, isolationLevel = ReadCommitted).
        The process-wide storage provider and side table, the identifier for a
        new token and how the next connection behaves come first as parameters. */
    method Create(provider: AmbientDbContextStorageProvider, table: StackTable<AmbientDbContext>, guid: string,
                  behaviour: ConnectionBehaviour,
                  join: bool := true, suppress: bool := false, level: IsolationLevel := ReadCommitted)
      returns (r: Result<AmbientDbContext, Error>, ghost prior: seq<AmbientDbContext>)
      modifies connectionFactory, provider.storage, table
      ensures |connectionFactory.created| == |old(connectionFactory.created)| + 1
      ensures connectionFactory.created[..|connectionFactory.created| - 1] == old(connectionFactory.created)
      ensures var c := connectionFactory.created[|connectionFactory.created| - 1];
        && fresh(c) && c.state == behaviour.initialState && c.opens == 0 && c.asyncOpens == [] && c.begun == 0
        && c.closes == 0 && c.disposals == 0
        && if behaviour.initialState != Closed then
             && r == Failure(AmbientDbContextException(NonClosedConnectionMessage))
             && unchanged(Obj(provider.storage), table)
           else
             Constructed(provider.storage, table, c, join, suppress, level, guid, r, prior)
    {
      prior := [];
      var c := connectionFactory.Create(behaviour);
      if c.state != Closed {
        return Failure(AmbientDbContextException(NonClosedConnectionMessage)), prior;
      }
      r, prior := AmbientDbContext.New(provider, table, c, join, suppress, level, guid);
    }
  }

  /** AmbientDbContextLocator: finds the active (top) context of the call chain. */
  class AmbientDbContextLocator {
    const storageHelper: ContextualStorageHelper<AmbientDbContext>

    constructor Wrap(storageHelper: ContextualStorageHelper<AmbientDbContext>)
      ensures this.storageHelper == storageHelper
    {
      this.storageHelper := storageHelper;
    }

    /** The locator's constructor: a helper over the configured storage, which
        stores `guid` as the token when the call chain has none yet. */
    static method New(provider: AmbientDbContextStorageProvider, table: StackTable<AmbientDbContext>, guid: string)
      returns (r: Result<AmbientDbContextLocator, Error>)
      modifies provider.storage, table
      ensures provider.storage == null ==>
        r == Failure(InvalidOperationException(StorageNotConfiguredMessage)) && unchanged(table)
      ensures provider.storage != null ==>
        && ContextualStorageHelper<AmbientDbContext>.InitializeEffect(provider.storage, table, guid, r.Failure?)
        && (r.Success? ==> r.value.storageHelper.storage == provider.storage && r.value.storageHelper.table == table)
    {
      var storage :- provider.Storage();
      var helper :- ContextualStorageHelper<AmbientDbContext>.New(storage, table, guid);
      var locator := new AmbientDbContextLocator.Wrap(helper);
      return Success(locator);
    }

    /** Get: the top of the stack; InvalidOperationException when it is empty.
        Reads only. */
    method Get() returns (r: Result<AmbientDbContext, Error>)
      ensures var stored := storageHelper.Stack();
        && (stored.Failure? ==> r == Failure(stored.error))
        && (stored == Success(None) ==> r == Failure(NullDereference))
        && (stored == Success(Some([])) ==> r == Failure(InvalidOperationException(NoActiveContextMessage)))
        && (stored.Success? && stored.value.Some? && stored.value.value != [] ==>
              r == Success(stored.value.value[|stored.value.value| - 1]))
    {
      var stored :- storageHelper.GetStack();
      if stored.None? {
        return Failure(NullDereference);
      }
      var stack := stored.value;
      if stack == [] {
        return Failure(InvalidOperationException(NoActiveContextMessage));
      }
      return Success(stack[|stack| - 1]);
    }
  }
}

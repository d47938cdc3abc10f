/** The ADO.NET and Dapper collaborators of the ambient context: connections,
    transactions, the pluggable connection factory, Dapper's command definition,
    and the exceptions the library raises or lets through.

    Connections and transactions are objects whose state the library changes in
    place (it opens, closes, commits and disposes them), so they are classes. Each
    one counts the calls made on it, which is what the library's own tests observe
    through their mocks. Whether a provider call fails is a property fixed when the
    object is made (`commitFails`, `failOnRollback`, ...): the database itself is
    not modelled. */
module Data {
  import opened Wrappers

  /** System.Data.ConnectionState. */
  datatype ConnectionState = Closed | Open | Connecting | Executing | Fetching | Broken

  /** System.Data.IsolationLevel. */
  datatype IsolationLevel =
    | Unspecified | Chaos | ReadUncommitted | ReadCommitted | RepeatableRead | Serializable | Snapshot

  /** System.Threading.CancellationToken; `NoToken` is `default(CancellationToken)`. */
  datatype CancellationToken = NoToken | Token(id: nat)

  /** The exceptions that reach the library's callers. */
  datatype Error =
    | AmbientDbContextException(message: string)
    | InvalidOperationException(message: string)
    | NullReferenceException(message: string, inner: Option<Error>)
    | ArgumentException(message: string)
    /** an exception raised by the data provider itself (a failed commit or rollback) */
    | DataException(message: string)

  const CommitFailedMessage := "The data provider failed to commit the transaction."
  const RollbackFailedMessage := "The data provider failed to roll back the transaction."
  const NullReferenceMessage := "Object reference not set to an instance of an object."

  /** What the runtime raises when a member is accessed through a null reference. */
  const NullDereference := NullReferenceException(NullReferenceMessage, None)

  /** The objects a nullable reference points to: none for null. */
  ghost function Obj(x: object?): set<object>
  {
    if x == null then {} else {x as object}
  }

  /** How a connection handed out by the connection factory behaves: the state it is
      in, and whether the transactions it begins fail on commit or on rollback. */
  datatype ConnectionBehaviour = ConnectionBehaviour(
    initialState: ConnectionState, commitFails: bool, rollbackFails: bool)

  /** An IDbConnection. */
  class Connection {
    var state: ConnectionState
    var opens: nat                          // Open() calls
    var asyncOpens: seq<CancellationToken>  // OpenAsync(token) calls, with their tokens
    var closes: nat
    var disposals: nat
    var begun: nat                          // BeginTransaction calls
    const commitFails: bool
    const rollbackFails: bool

    constructor (behaviour: ConnectionBehaviour)
      ensures state == behaviour.initialState
      ensures commitFails == behaviour.commitFails && rollbackFails == behaviour.rollbackFails
      ensures opens == closes == disposals == begun == 0 && asyncOpens == []
    {
      state := behaviour.initialState;
      commitFails, rollbackFails := behaviour.commitFails, behaviour.rollbackFails;
      opens, closes, disposals, begun := 0, 0, 0, 0;
      asyncOpens := [];
    }

    method Open()
      modifies this`state, this`opens
      ensures state == ConnectionState.Open && opens == old(opens) + 1
    {
      state := ConnectionState.Open;
      opens := opens + 1;
    }

    /** DbConnection.OpenAsync(cancellationToken), awaited. */
    method OpenAsync(token: CancellationToken)
      modifies this`state, this`asyncOpens
      ensures state == ConnectionState.Open && asyncOpens == old(asyncOpens) + [token]
    {
      state := ConnectionState.Open;
      asyncOpens := asyncOpens + [token];
    }

    method Close()
      modifies this`state, this`closes
      ensures state == Closed && closes == old(closes) + 1
    {
      state := Closed;
      closes := closes + 1;
    }

    method Dispose()
      modifies this`disposals
      ensures disposals == old(disposals) + 1
    {
      disposals := disposals + 1;
    }

    /** IDbConnection.BeginTransaction(isolationLevel): a new transaction on this connection. */
    method BeginTransaction(level: IsolationLevel) returns (t: Transaction)
      modifies this`begun
      ensures begun == old(begun) + 1
      ensures fresh(t) && t.isolationLevel == level && t.connection == this
      ensures t.failOnCommit == commitFails && t.failOnRollback == rollbackFails
      ensures t.commits == t.rollbacks == t.disposals == 0
    {
      begun := begun + 1;
      t := new Transaction(this, level, commitFails, rollbackFails);
    }
  }

  /** An IDbTransaction. */
  class Transaction {
    const isolationLevel: IsolationLevel
    var connection: Connection?
    const failOnCommit: bool
    const failOnRollback: bool
    var commits: nat    // Commit() calls, failed ones included
    var rollbacks: nat  // Rollback() calls, failed ones included
    var disposals: nat

    constructor (connection: Connection?, level: IsolationLevel, failOnCommit: bool, failOnRollback: bool)
      ensures this.connection == connection && isolationLevel == level
      ensures this.failOnCommit == failOnCommit && this.failOnRollback == failOnRollback
      ensures commits == rollbacks == disposals == 0
    {
      this.connection := connection;
      isolationLevel := level;
      this.failOnCommit, this.failOnRollback := failOnCommit, failOnRollback;
      commits, rollbacks, disposals := 0, 0, 0;
    }

    method Commit() returns (o: Outcome<Error>)
      modifies this`commits
      ensures commits == old(commits) + 1
      ensures o == if failOnCommit then Fail(DataException(CommitFailedMessage)) else Pass
    {
      commits := commits + 1;
      o := if failOnCommit then Fail(DataException(CommitFailedMessage)) else Pass;
    }

    method Rollback() returns (o: Outcome<Error>)
      modifies this`rollbacks
      ensures rollbacks == old(rollbacks) + 1
      ensures o == if failOnRollback then Fail(DataException(RollbackFailedMessage)) else Pass
    {
      rollbacks := rollbacks + 1;
      o := if failOnRollback then Fail(DataException(RollbackFailedMessage)) else Pass;
    }

    method Dispose()
      modifies this`disposals
      ensures disposals == old(disposals) + 1
    {
      disposals := disposals + 1;
    }
  }

  /** IDbConnectionFactory: every Create() hands out a new connection. How that
      connection behaves is the factory's business, so it is a parameter here. */
  class DbConnectionFactory {
    var created: seq<Connection>

    constructor ()
      ensures created == []
    {
      created := [];
    }

    method Create(behaviour: ConnectionBehaviour) returns (c: Connection)
      modifies this
      ensures fresh(c) && created == old(created) + [c]
      ensures c.state == behaviour.initialState
      ensures c.commitFails == behaviour.commitFails && c.rollbackFails == behaviour.rollbackFails
      ensures c.opens == c.closes == c.disposals == c.begun == 0 && c.asyncOpens == []
    {
      c := new Connection(behaviour);
      created := created + [c];
    }
  }

  /** How a prepare step opens a closed connection: Open(), or OpenAsync(token) awaited. */
  datatype OpenMode = Synchronous | Asynchronous(token: CancellationToken)

  twostate predicate OpenedBy(c: Connection, mode: OpenMode)
    reads c
  {
    && c.state == ConnectionState.Open
    && c.closes == old(c.closes) && c.disposals == old(c.disposals)
    && match mode
       case Synchronous => c.opens == old(c.opens) + 1 && c.asyncOpens == old(c.asyncOpens)
       case Asynchronous(token) => c.opens == old(c.opens) && c.asyncOpens == old(c.asyncOpens) + [token]
  }

  /** `t` is a transaction just begun on `c` at `level`. */
  twostate predicate BegunOn(c: Connection, new t: Transaction?, level: IsolationLevel)
    reads c, t
  {
    && t != null && fresh(t)
    && t.connection == c && t.isolationLevel == level
    && t.failOnCommit == c.commitFails && t.failOnRollback == c.rollbackFails
    && t.commits == t.rollbacks == t.disposals == 0
    && c.begun == old(c.begun) + 1
  }

  /** Opens `c` the way `mode` says. */
  method OpenConnection(c: Connection, mode: OpenMode)
    modifies c
    ensures OpenedBy(c, mode)
    ensures c.begun == old(c.begun)
  {
    match mode
    case Synchronous => c.Open();
    case Asynchronous(token) => c.OpenAsync(token);
  }

  /** Dapper's CommandType. */
  datatype CommandType = Text | StoredProcedure | TableDirect

  /** Dapper's CommandFlags. */
  datatype CommandFlag = Buffered | Pipelined | NoCache

  /** Dapper's CommandDefinition: everything a query needs besides the connection.
      The parameter object is opaque to the library and is kept as text. */
  datatype CommandDefinition = CommandDefinition(
    commandText: string,
    parameters: Option<string>,
    transaction: Transaction?,
    commandTimeout: Option<int>,
    commandType: Option<CommandType>,
    flags: set<CommandFlag>,
    cancellationToken: CancellationToken)

  /** What a forwarding method hands to Dapper: the connection, the transaction to
      enlist in, and the command. Dapper itself is not part of this model. */
  datatype DapperCall =
    | SqlCall(connection: Connection, sql: string, transaction: Transaction?)
    | CommandCall(connection: Connection, command: CommandDefinition)
}

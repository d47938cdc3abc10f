/** The legacy generation of the engine: DbContextScope, its factory and its
    locator.

    A scope is created with a set of option flags (New, Join, Suppress). A new
    scope owns a connection; a joined scope keeps a reference to the scope that
    was on top of the stack when it was created and reads its isolation level,
    option, connection and transaction through that parent, all the way up to
    the root. The stack of active scopes lives in a process-wide table keyed by
    a token that the logical call context holds; the token and its entry are
    dropped when a root's disposal empties the stack. */
module Legacy {
  import opened Wrappers
  import opened Data

  const NewWithoutConnectionMessage := "Must specify a database connection when creating new database context scope."
  const NewAndJoinMessage := "The database context scope option should be set to either new or join."
  const NothingToJoinMessage := "Could not find available database context scope to join."
  const NoActiveScopeMessage :=
    "Cannot find active database context scope. Make sure a context scope is created before attempting to run a query."
  const CommitOnClosedMessage := "Tried Commit on closed Transaction"
  const RollbackOnClosedMessage := "Tried Rollback on closed Transaction"
  /** What System.Collections.Immutable throws on Pop or Peek of an empty stack. */
  const EmptyStackMessage := "This operation does not apply to an empty instance."

  /** DbContextScopeOption, a flags enumeration: which of its flags are set. */
  datatype ScopeOption = ScopeOption(isNew: bool, join: bool, suppress: bool)

  /** The constructor's default option. */
  const JoinOption := ScopeOption(false, true, false)

  /** CreateInternal's option: New, with Suppress added when asked for. */
  function ComposeOption(suppress: bool): (r: ScopeOption)
    ensures r.isNew && !r.join
    ensures r.suppress <==> suppress
  {
    ScopeOption(true, false, suppress)
  }

  /** The constructor's three checks, in the order it makes them. On success,
      the scope to join: the top of `stack` with Join, none otherwise. `stack`
      is what the stack getter reports; only a Join consults it. */
  function ScopeCheck<T>(option: ScopeOption, hasConnection: bool, stack: seq<T>): (r: Result<Option<T>, Error>)
    ensures r.Success? <==>
      && (option.isNew ==> hasConnection && !option.join)
      && (option.join ==> stack != [])
    ensures r.Failure? ==> r.error.InvalidOperationException?
    ensures r.Success? ==> (r.value.Some? <==> option.join)
    ensures r.Success? && option.join ==> r.value.value == stack[|stack| - 1]
  {
    if option.isNew && !hasConnection then Failure(InvalidOperationException(NewWithoutConnectionMessage))
    else if option.isNew && option.join then Failure(InvalidOperationException(NewAndJoinMessage))
    else if option.join && stack == [] then Failure(InvalidOperationException(NothingToJoinMessage))
    else Success(if option.join then Some(stack[|stack| - 1]) else None)
  }

  /** An option composed by the factory passes the constructor's checks with
      any connection the connection factory hands out, whatever the stack. */
  lemma FactoryOptionPassesChecks<T>(suppress: bool, stack: seq<T>)
    ensures ScopeCheck(ComposeOption(suppress), true, stack) == Success(None)
    ensures ScopeCheck(ComposeOption(suppress), false, stack) == Failure(InvalidOperationException(NewWithoutConnectionMessage))
  {
  }

  /* ---------------- The stack in the logical call context ---------------- */

  /** What one logical call chain sees: the token in its call-context slot and
      the process-wide table from tokens to stacks (top of stack last). */
  datatype CallState<T> = CallState(slot: Option<string>, table: map<string, seq<T>>)

  /** The state after reading the stack, and the stack read. */
  datatype Lookup<T> = Lookup(state: CallState<T>, stack: seq<T>)

  /** The state after a stack update, and whether it threw. */
  datatype Step<T> = Step(state: CallState<T>, outcome: Outcome<Error>)

  /** The token the getter and the setter use: the stored one, or `guid`, the
      identifier they mint when the slot is empty. */
  function TokenOf<T>(st: CallState<T>, guid: string): string
  {
    if st.slot.Some? then st.slot.value else guid
  }

  /** The chain has a token and the table has its stack. */
  predicate Ready<T>(st: CallState<T>)
  {
    st.slot.Some? && st.slot.value in st.table
  }

  /** The stack getter: mint and store a token if there is none, then read the
      token's stack, adding an empty one when the table has none. */
  function GetStackOf<T>(st: CallState<T>, guid: string): (r: Lookup<T>)
    ensures Ready(r.state) && r.state.slot == Some(TokenOf(st, guid))
    ensures r.state.table[TokenOf(st, guid)] == r.stack
    ensures r.stack == if TokenOf(st, guid) in st.table then st.table[TokenOf(st, guid)] else []
    ensures r.state.table.Keys == st.table.Keys + {TokenOf(st, guid)}
    ensures forall k :: k in st.table ==> r.state.table[k] == st.table[k]
  {
    var k := TokenOf(st, guid);
    if k in st.table then Lookup(CallState(Some(k), st.table), st.table[k])
    else Lookup(CallState(Some(k), st.table[k := []]), [])
  }

  /** The stack setter: mint a token if there is none, then replace the
      token's entry with `s` (remove, then add). */
  function SetStackOf<T>(st: CallState<T>, guid: string, s: seq<T>): (r: CallState<T>)
    ensures r.slot == Some(TokenOf(st, guid))
    ensures GetStackOf(r, guid).stack == s && GetStackOf(r, guid).state == r
    ensures forall k :: k in st.table && k != TokenOf(st, guid) ==> k in r.table && r.table[k] == st.table[k]
  {
    var k := TokenOf(st, guid);
    CallState(Some(k), (st.table - {k})[k := s])
  }

  /** ClearDbContextScopeStack: drop the token and its table entry, if any. */
  function ClearOf<T>(st: CallState<T>): (r: CallState<T>)
    ensures r.slot == None
    ensures st.slot.Some? ==> r.table == st.table - {st.slot.value}
    ensures st.slot.None? ==> r == st
  {
    if st.slot.None? then st else CallState(None, st.table - {st.slot.value})
  }

  /** `DbContextScopeStack = DbContextScopeStack.Push(c)`. */
  function PushOf<T>(st: CallState<T>, guid: string, c: T): CallState<T>
  {
    var g := GetStackOf(st, guid);
    SetStackOf(g.state, guid, g.stack + [c])
  }

  /** `DbContextScopeStack = DbContextScopeStack.Pop()`: popping an empty
      stack throws after the getter has run, and the setter is not reached. */
  function PopOf<T>(st: CallState<T>, guid: string): (r: Step<T>)
    ensures r.outcome.Fail? <==> GetStackOf(st, guid).stack == []
  {
    var g := GetStackOf(st, guid);
    if g.stack == [] then Step(g.state, Fail(InvalidOperationException(EmptyStackMessage)))
    else Step(SetStackOf(g.state, guid, g.stack[..|g.stack| - 1]), Pass)
  }

  /** A root's pop: pop, then clear the token and its entry when the stack is
      now empty. */
  function RootPopOf<T>(st: CallState<T>, guid: string): Step<T>
  {
    var p := PopOf(st, guid);
    if p.outcome.Fail? then p
    else
      var g := GetStackOf(p.state, guid);
      if g.stack == [] then Step(ClearOf(g.state), Pass) else Step(g.state, Pass)
  }

  /** Reading the stack twice reads the same stack and changes nothing more:
      the second read finds the token and the entry the first one stored. */
  lemma GetStackIdempotent<T>(st: CallState<T>, guid: string, guid': string)
    ensures GetStackOf(GetStackOf(st, guid).state, guid') == GetStackOf(st, guid)
  {
  }

  /** Once a chain is ready, pushing and popping one scope restores it exactly. */
  lemma PushThenPopRestores<T>(st: CallState<T>, guid: string, c: T)
    requires Ready(st)
    ensures Ready(PushOf(st, guid, c))
    ensures PopOf(PushOf(st, guid, c), guid) == Step(st, Pass)
  {
    var k := st.slot.value;
    var pushed := PushOf(st, guid, c);
    assert pushed.table[k] == st.table[k] + [c];
    assert (st.table[k] + [c])[..|st.table[k]|] == st.table[k];
    assert (pushed.table - {k})[k := st.table[k]] == st.table;
  }

  /** Pushes of `cs`, in order. */
  function PushAllOf<T>(st: CallState<T>, guid: string, cs: seq<T>): CallState<T>
    decreases |cs|
  {
    if cs == [] then st else PushOf(PushAllOf(st, guid, cs[..|cs| - 1]), guid, cs[|cs| - 1])
  }

  /** `n` pops; the first one that throws ends the sequence. */
  function PopNOf<T>(st: CallState<T>, guid: string, n: nat): Step<T>
    decreases n
  {
    if n == 0 then Step(st, Pass)
    else
      var p := PopOf(st, guid);
      if p.outcome.Fail? then p else PopNOf(p.state, guid, n - 1)
  }

  lemma {:induction false} PushAllKeepsReady<T>(st: CallState<T>, guid: string, cs: seq<T>)
    requires Ready(st)
    ensures Ready(PushAllOf(st, guid, cs))
    decreases |cs|
  {
    if cs != [] {
      PushAllKeepsReady(st, guid, cs[..|cs| - 1]);
    }
  }

  /** Push/pop symmetry: scopes created on a ready chain and disposed as many
      times (joined scopes only pop) leave the chain exactly as it was. */
  lemma {:induction false} NestedScopesRestore<T>(st: CallState<T>, guid: string, cs: seq<T>)
    requires Ready(st)
    ensures PopNOf(PushAllOf(st, guid, cs), guid, |cs|) == Step(st, Pass)
    decreases |cs|
  {
    if cs != [] {
      var n := |cs| - 1;
      var inner := PushAllOf(st, guid, cs[..n]);
      PushAllKeepsReady(st, guid, cs[..n]);
      PushThenPopRestores(inner, guid, cs[n]);
      assert cs[..|cs|][..n] == cs[..n];
      NestedScopesRestore(st, guid, cs[..n]);
      assert |cs[..n]| == n;
    }
  }

  /** A root's disposal drops the token exactly when its pop empties the
      stack; otherwise the token stays and the popped stack is stored. */
  lemma RootPopClearsExactlyWhenEmpty<T>(st: CallState<T>, guid: string)
    requires PopOf(st, guid).outcome.Pass?
    ensures var s := GetStackOf(st, guid).stack;
      && (RootPopOf(st, guid).state.slot.None? <==> |s| == 1)
      && (|s| == 1 ==> TokenOf(st, guid) !in RootPopOf(st, guid).state.table)
      && (|s| > 1 ==> RootPopOf(st, guid).state == PopOf(st, guid).state)
  {
  }

  /** A second disposal of a root that emptied the stack throws: the token was
      cleared, so the getter mints a new one with an empty stack to pop. */
  lemma SecondRootDisposalThrows<T>(st: CallState<T>, guid: string, guid': string)
    requires PopOf(st, guid).outcome.Pass? && |GetStackOf(st, guid).stack| == 1
    requires guid' !in RootPopOf(st, guid).state.table
    ensures RootPopOf(RootPopOf(st, guid).state, guid').outcome == Fail(InvalidOperationException(EmptyStackMessage))
  {
  }

  /** The logical call-context slot and the process-wide scope table. */
  class ScopeRegistry {
    var slot: Option<string>
    var table: map<string, seq<DbContextScope>>

    constructor ()
      ensures slot == None && table == map[]
    {
      slot := None;
      table := map[];
    }

    /** Every scope on every stack is well linked to its ancestors. */
    ghost predicate Valid()
      reads this
    {
      forall k | k in table :: forall x | x in table[k] :: x.Linked()
    }

    function State(): CallState<DbContextScope>
      reads this
    {
      CallState(slot, table)
    }

    /** The DbContextScopeStack getter. */
    method GetStack(guid: string) returns (s: seq<DbContextScope>)
      requires Valid()
      modifies this
      ensures Valid()
      ensures GetStackOf(old(State()), guid) == Lookup(State(), s)
    {
      if slot.None? {
        slot := Some(guid);
      }
      var k := slot.value;
      if k in table {
        return table[k];
      }
      s := [];
      table := table[k := s];
    }

    /** The DbContextScopeStack setter. */
    method SetStack(guid: string, s: seq<DbContextScope>)
      requires Valid() && forall x | x in s :: x.Linked()
      modifies this
      ensures Valid()
      ensures State() == SetStackOf(old(State()), guid, s)
    {
      if slot.None? {
        slot := Some(guid);
      }
      var k := slot.value;
      if k in table {
        table := table - {k};
      }
      table := table[k := s];
    }

    method Clear()
      requires Valid()
      modifies this
      ensures Valid()
      ensures State() == ClearOf(old(State()))
    {
      if slot.Some? {
        var k := slot.value;
        slot := None;
        table := table - {k};
      }
    }

    /** `Pop()` followed by the setter. */
    method Pop(guid: string) returns (o: Outcome<Error>)
      requires Valid()
      modifies this
      ensures Valid()
      ensures Step(State(), o) == PopOf(old(State()), guid)
    {
      var s := GetStack(guid);
      if s == [] {
        return Fail(InvalidOperationException(EmptyStackMessage));
      }
      SetStack(guid, s[..|s| - 1]);
      return Pass;
    }
  }

  /* ---------------- The scope ---------------- */

  class DbContextScope {
    var connection: Connection?
    var transaction: Transaction?
    const option: ScopeOption
    const isolationLevel: IsolationLevel
    const parent: DbContextScope?
    /** How many ancestors this scope has. */
    ghost const depth: nat

    /** The parent chain is finite and ends at a root. */
    ghost predicate Linked()
      decreases depth
    {
      if parent == null then depth == 0 else parent.depth + 1 == depth && parent.Linked()
    }

    constructor Init(connection: Connection?, option: ScopeOption, level: IsolationLevel, parent: DbContextScope?)
      requires parent != null ==> parent.Linked()
      ensures this.connection == connection && transaction == null
      ensures this.option == option && isolationLevel == level && this.parent == parent
      ensures Linked()
    {
      this.connection := connection;
      transaction := null;
      this.option := option;
      isolationLevel := level;
      this.parent := parent;
      depth := if parent == null then 0 else parent.depth + 1;
    }

    /** The root of the parent chain. */
    function Root(): (r: DbContextScope)
      requires Linked()
      ensures r.parent == null && r.Linked()
      decreases depth
    {
      if parent == null then this else parent.Root()
    }

    /** The read-through getters: this scope's own value for a root, the
        parent's getter for a joined scope. */
    function IsolationLevel(): IsolationLevel
      requires Linked()
      decreases depth
    {
      if parent == null then isolationLevel else parent.IsolationLevel()
    }

    function Option(): ScopeOption
      requires Linked()
      decreases depth
    {
      if parent == null then option else parent.Option()
    }

    function Connection(): Connection?
      requires Linked()
      reads Root()
      decreases depth
    {
      if parent == null then connection else parent.Connection()
    }

    function Transaction(): Transaction?
      requires Linked()
      reads Root()
      decreases depth
    {
      if parent == null then transaction else parent.Transaction()
    }

    /** At any depth, every getter reports the root's own field. */
    lemma {:induction false} ReadsThroughToRoot()
      requires Linked()
      ensures IsolationLevel() == Root().isolationLevel && Option() == Root().option
      ensures Connection() == Root().connection && Transaction() == Root().transaction
      decreases depth
    {
      if parent != null {
        parent.ReadsThroughToRoot();
      }
    }

    /** Scopes of one chain see the same connection and transaction. */
    lemma SameRootSameView(other: DbContextScope)
      requires Linked() && other.Linked() && other.Root() == Root()
      ensures other.IsolationLevel() == IsolationLevel() && other.Option() == Option()
      ensures other.Connection() == Connection() && other.Transaction() == Transaction()
    {
      ReadsThroughToRoot();
      other.ReadsThroughToRoot();
    }

    /** The Transaction setter: writes the root's field, whatever the depth. */
    method SetTransaction(t: Transaction?)
      requires Linked()
      modifies Root()`transaction
      ensures Root().transaction == t && Transaction() == t
      decreases depth
    {
      if parent == null {
        transaction := t;
      } else {
        parent.SetTransaction(t);
      }
      ReadsThroughToRoot();
    }

    /** The constructor: check the option flags, find the scope to join, then
        push the new scope. `guid` is the token the stack getter mints when
        the call chain has none. On a failed check nothing is pushed, though
        a Join may already have minted the token. */
    static method New(registry: ScopeRegistry, connection: Connection?, option: ScopeOption,
                      level: IsolationLevel, guid: string)
      returns (r: Result<DbContextScope, Error>)
      requires registry.Valid()
      modifies registry
      ensures registry.Valid()
      ensures var st := old(registry.State());
        var g := GetStackOf(st, guid);
        var check := ScopeCheck(option, connection != null, g.stack);
        && (check.Failure? ==>
              r == Failure(check.error) && registry.State() == (if option.isNew then st else g.state))
        && (check.Success? ==>
              && r.Success? && fresh(r.value) && r.value.Linked()
              && r.value.connection == connection && r.value.transaction == null
              && r.value.option == option && r.value.isolationLevel == level
              && (check.value.None? ==> r.value.parent == null)
              && (check.value.Some? ==> r.value.parent == check.value.value && r.value.Root() == check.value.value.Root())
              && registry.State() == PushOf(st, guid, r.value))
    {
      ghost var st := registry.State();
      if option.isNew && connection == null {
        return Failure(InvalidOperationException(NewWithoutConnectionMessage));
      }
      if option.isNew && option.join {
        return Failure(InvalidOperationException(NewAndJoinMessage));
      }
      var parent: DbContextScope? := null;
      if option.join {
        var stack := registry.GetStack(guid);
        if stack == [] {
          return Failure(InvalidOperationException(NothingToJoinMessage));
        }
        var top := registry.GetStack(guid);
        parent := top[|top| - 1];
        assert parent in registry.table[registry.slot.value];
      }
      var c := new DbContextScope.Init(connection, option, level, parent);
      var stack := registry.GetStack(guid);
      GetStackIdempotent(st, guid, guid);
      registry.SetStack(guid, stack + [c]);
      return Success(c);
    }

    /** A scope on which a prepare step does nothing: its connection is not
        Closed and it has a transaction, or its option suppresses one. */
    ghost predicate Prepared()
      requires Linked()
      reads Root(), Obj(Connection())
    {
      && Connection() != null
      && Connection().state != Closed
      && (Transaction() != null || Option().suppress)
    }

    /** What a prepare step does, on the read-through connection and
        transaction: open the connection only if it is Closed; begin a
        transaction at the read-through isolation level, stored on the root,
        only if there is none and Suppress is not set. A null connection
        throws before anything happens. */
    twostate predicate PrepareEffect(mode: OpenMode, new o: Outcome<Error>)
      requires Linked()
      reads Root(), Obj(Connection()), Obj(Root().transaction)
    {
      && Connection() == old(Connection())
      && var c := Connection();
      if c == null then
        o == Fail(NullDereference) && Root().transaction == old(Root().transaction)
      else
        && o == Pass
        && c.closes == old(c.closes) && c.disposals == old(c.disposals)
        && (if old(c.state) == Closed then OpenedBy(c, mode)
            else c.state == old(c.state) && c.opens == old(c.opens) && c.asyncOpens == old(c.asyncOpens))
        && if old(Transaction()) == null && !Option().suppress then BegunOn(c, Root().transaction, IsolationLevel())
           else Root().transaction == old(Root().transaction) && c.begun == old(c.begun)
    }

    /** PrepareConnection (mode Synchronous) and PrepareAsyncConnection (mode
        Asynchronous). */
    method Prepare(mode: OpenMode) returns (o: Outcome<Error>)
      requires Linked()
      modifies Root()`transaction, Obj(Connection())
      ensures PrepareEffect(mode, o)
      ensures o.Pass? ==> Prepared()
      ensures old(Prepared()) ==> o.Pass? && unchanged(Root()) && unchanged(Obj(Connection()))
    {
      ReadsThroughToRoot();
      assert allocated(Root());  // so that the calls below leave the root's connection alone
      var c := Connection();
      if c == null {
        return Fail(NullDereference);
      }
      if c.state == Closed {
        OpenConnection(c, mode);
      }
      if Transaction() == null {
        if !Option().suppress {
          var t := c.BeginTransaction(IsolationLevel());
          SetTransaction(t);
        }
      }
      ReadsThroughToRoot();
      return Pass;
    }

    method PrepareConnection() returns (o: Outcome<Error>)
      requires Linked()
      modifies Root()`transaction, Obj(Connection())
      ensures PrepareEffect(Synchronous, o)
    {
      o := Prepare(Synchronous);
    }

    method PrepareAsyncConnection() returns (o: Outcome<Error>)
      requires Linked()
      modifies Root()`transaction, Obj(Connection())
      ensures PrepareEffect(Asynchronous(NoToken), o)
    {
      o := Prepare(Asynchronous(NoToken));
    }

    /** OpenAsync: exactly PrepareAsyncConnection. */
    method OpenAsync() returns (o: Outcome<Error>)
      requires Linked()
      modifies Root()`transaction, Obj(Connection())
      ensures PrepareEffect(Asynchronous(NoToken), o)
    {
      o := PrepareAsyncConnection();
    }

    /** A query (Query, Execute, ExecuteScalar, ...): prepare, then hand Dapper
        the read-through connection and transaction. */
    method Query(sql: string) returns (r: Result<DapperCall, Error>)
      requires Linked()
      modifies Root()`transaction, Obj(Connection())
      ensures PrepareEffect(Synchronous, if r.Success? then Pass else Fail(r.error))
      ensures r.Success? ==> Root().connection != null && r.value == SqlCall(Root().connection, sql, Root().transaction)
    {
      var o := PrepareConnection();
      if o.Fail? {
        return Failure(o.error);
      }
      ReadsThroughToRoot();
      return Success(SqlCall(Connection(), sql, Transaction()));
    }

    /** An asynchronous query (QueryAsync, ExecuteAsync, ...): prepare
        asynchronously, then delegate the same way. */
    method QueryAsync(sql: string) returns (r: Result<DapperCall, Error>)
      requires Linked()
      modifies Root()`transaction, Obj(Connection())
      ensures PrepareEffect(Asynchronous(NoToken), if r.Success? then Pass else Fail(r.error))
      ensures r.Success? ==> Root().connection != null && r.value == SqlCall(Root().connection, sql, Root().transaction)
    {
      var o := PrepareAsyncConnection();
      if o.Fail? {
        return Failure(o.error);
      }
      ReadsThroughToRoot();
      return Success(SqlCall(Connection(), sql, Transaction()));
    }

    /** Dispose. A joined scope only pops (whatever is on top). A root first
        disposes and forgets its transaction (no commit), then closes,
        disposes and forgets its connection unless that is Closed, then pops
        and, when the stack is now empty, clears the token and its entry. An
        empty stack makes the pop throw after the resources were released. */
    method Dispose(registry: ScopeRegistry, guid: string) returns (o: Outcome<Error>)
      requires Linked() && registry.Valid()
      modifies registry, this`transaction, this`connection, Obj(transaction), Obj(connection)
      ensures registry.Valid()
      ensures parent != null ==>
        && Step(registry.State(), o) == PopOf(old(registry.State()), guid)
        && connection == old(connection) && transaction == old(transaction)
        && unchanged(Obj(old(connection))) && unchanged(Obj(old(transaction)))
      ensures parent == null ==>
        && Step(registry.State(), o) == RootPopOf(old(registry.State()), guid)
        && transaction == null && DisposedTransaction(old(transaction))
        && if old(connection) != null && old(connection.state) != Closed then
             connection == null && ClosedAndDisposed(old(connection))
           else
             connection == old(connection) && unchanged(Obj(old(connection)))
    {
      if parent != null {
        o := registry.Pop(guid);
        return;
      }
      if transaction != null {
        transaction.Dispose();
        transaction := null;
      }
      if connection != null && connection.state != Closed {
        connection.Close();
        connection.Dispose();
        connection := null;
      }
      o := registry.Pop(guid);
      if o.Fail? {
        return;
      }
      var s := registry.GetStack(guid);
      if s == [] {
        registry.Clear();
      }
    }

    /** What Commit does on a root whose transaction was `t`: commit, dispose
        and forget it. When the commit throws and `t` still has a connection,
        Rollback runs (its own exception escapes instead); either way the
        caller gets a NullReferenceException wrapping the cause. */
    twostate predicate CommitEffect(t: Transaction?, new o: Outcome<Error>)
      reads this, t
    {
      if t == null then o == Pass && transaction == null
      else
        && t.commits == old(t.commits) + 1
        && if !t.failOnCommit then
             o == Pass && t.rollbacks == old(t.rollbacks) && t.disposals == old(t.disposals) + 1 && transaction == null
           else if t.connection == null then
             && o == Fail(NullReferenceException(CommitOnClosedMessage, Some(DataException(CommitFailedMessage))))
             && t.rollbacks == old(t.rollbacks) && t.disposals == old(t.disposals) && transaction == t
           else
             && t.rollbacks == old(t.rollbacks) + 1
             && if t.failOnRollback then
                  && o == Fail(NullReferenceException(RollbackOnClosedMessage, Some(DataException(RollbackFailedMessage))))
                  && t.disposals == old(t.disposals) && transaction == t
                else
                  && o == Fail(NullReferenceException(CommitOnClosedMessage, Some(DataException(CommitFailedMessage))))
                  && t.disposals == old(t.disposals) + 1 && transaction == null
    }

    /** What Rollback does on a root whose transaction was `t`: roll back,
        dispose and forget it. A null transaction, or a rollback that throws,
        ends in a NullReferenceException wrapping the cause, with the
        transaction neither disposed nor forgotten. */
    twostate predicate RollbackEffect(t: Transaction?, new o: Outcome<Error>)
      reads this, t
    {
      if t == null then
        o == Fail(NullReferenceException(RollbackOnClosedMessage, Some(NullDereference))) && transaction == null
      else
        && t.rollbacks == old(t.rollbacks) + 1 && t.commits == old(t.commits) && t.connection == old(t.connection)
        && if t.failOnRollback then
             && o == Fail(NullReferenceException(RollbackOnClosedMessage, Some(DataException(RollbackFailedMessage))))
             && t.disposals == old(t.disposals) && transaction == t
           else
             o == Pass && t.disposals == old(t.disposals) + 1 && transaction == null
    }

    method Commit() returns (o: Outcome<Error>)
      modifies this`transaction, Obj(transaction)
      ensures parent != null ==> o == Pass && transaction == old(transaction) && unchanged(Obj(old(transaction)))
      ensures parent == null ==> CommitEffect(old(transaction), o)
      ensures old(transaction) != null ==> old(transaction).connection == old(transaction.connection)
    {
      if parent != null {
        return Pass;
      }
      var t := transaction;
      if t != null {
        var committed := t.Commit();
        if committed.Fail? {
          if transaction != null && transaction.connection != null {
            var rolledBack := Rollback();
            if rolledBack.Fail? {
              return rolledBack;
            }
          }
          return Fail(NullReferenceException(CommitOnClosedMessage, Some(committed.error)));
        }
        t.Dispose();
        transaction := null;
      }
      return Pass;
    }

    method Rollback() returns (o: Outcome<Error>)
      modifies this`transaction, Obj(transaction)
      ensures parent != null ==> o == Pass && transaction == old(transaction) && unchanged(Obj(old(transaction)))
      ensures parent == null ==> RollbackEffect(old(transaction), o)
    {
      if parent != null {
        return Pass;
      }
      var t := transaction;
      if t == null {
        return Fail(NullReferenceException(RollbackOnClosedMessage, Some(NullDereference)));
      }
      var rolledBack := t.Rollback();
      if rolledBack.Fail? {
        return Fail(NullReferenceException(RollbackOnClosedMessage, Some(rolledBack.error)));
      }
      t.Dispose();
      transaction := null;
      return Pass;
    }
  }

  /** A root that commits and then runs another query: the commit leaves it
      without a transaction, so the next prepare step begins a new one. */
  method CommitThenPrepare(scope: DbContextScope) returns (committed: Outcome<Error>, prepared: Outcome<Error>)
    requires scope.Linked() && scope.parent == null && !scope.option.suppress
    requires scope.connection != null && scope.connection.state == ConnectionState.Open
    requires scope.transaction != null && !scope.transaction.failOnCommit
    modifies scope`transaction, scope.transaction, scope.connection
    ensures committed == Pass && prepared == Pass
    ensures old(scope.transaction).commits == old(scope.transaction.commits) + 1
    ensures scope.transaction != null && fresh(scope.transaction)
    ensures scope.transaction.connection == scope.connection && scope.transaction.isolationLevel == scope.isolationLevel
    ensures scope.connection.state == ConnectionState.Open && scope.connection.opens == old(scope.connection.opens)
  {
    committed := scope.Commit();
    prepared := scope.PrepareConnection();
  }

  /** A root's transaction `t` after Dispose: disposed once, not committed or
      rolled back, still on its connection. */
  twostate predicate DisposedTransaction(t: Transaction?)
    reads t
  {
    t != null ==>
      && t.disposals == old(t.disposals) + 1 && t.commits == old(t.commits) && t.rollbacks == old(t.rollbacks)
      && t.connection == old(t.connection)
  }

  /** A root's connection `c` after Dispose released it: closed and disposed. */
  twostate predicate ClosedAndDisposed(c: Connection)
    reads c
  {
    && c.state == Closed && c.closes == old(c.closes) + 1 && c.disposals == old(c.disposals) + 1
    && c.opens == old(c.opens) && c.asyncOpens == old(c.asyncOpens) && c.begun == old(c.begun)
  }

  /** DbContext: the query facade the locator hands out around a scope. Its
      forwarding methods are not part of this model. */
  datatype DbContext = DbContext(scope: DbContextScope)

  /** DbContextScopeFactory: every new scope gets a connection of its own. */
  class DbContextScopeFactory {
    const connectionFactory: DbConnectionFactory

    constructor (connectionFactory: DbConnectionFactory)
      ensures this.connectionFactory == connectionFactory
    {
      this.connectionFactory := connectionFactory;
    }

    /** CreateInternal: a new root over a fresh connection, with option New
        (plus Suppress) and the requested isolation level, pushed on the stack.
        `behaviour` says how the connection factory's next connection behaves. */
    method CreateInternal(registry: ScopeRegistry, guid: string, behaviour: ConnectionBehaviour,
                          suppress: bool := false, level: IsolationLevel := ReadCommitted)
      returns (scope: DbContextScope)
      requires registry.Valid()
      modifies connectionFactory, registry
      ensures registry.Valid()
      ensures |connectionFactory.created| == |old(connectionFactory.created)| + 1
      ensures connectionFactory.created[..|old(connectionFactory.created)|] == old(connectionFactory.created)
      ensures var c := connectionFactory.created[|connectionFactory.created| - 1];
        && fresh(c) && c.state == behaviour.initialState
        && c.commitFails == behaviour.commitFails && c.rollbackFails == behaviour.rollbackFails
        && c.opens == c.closes == c.disposals == c.begun == 0 && c.asyncOpens == []
        && fresh(scope) && scope.Linked() && scope.parent == null
        && scope.connection == c && scope.transaction == null
        && scope.option == ComposeOption(suppress) && scope.isolationLevel == level
      ensures registry.State() == PushOf(old(registry.State()), guid, scope)
    {
      var c := connectionFactory.Create(behaviour);
      FactoryOptionPassesChecks<DbContextScope>(suppress, GetStackOf(registry.State(), guid).stack);
      var r := DbContextScope.New(registry, c, ComposeOption(suppress), level, guid);
      scope := r.value;
    }

    /** Create: CreateInternal, then open the scope at once (Open behaves as
        PrepareConnection): the connection is opened if it was Closed, and a
        transaction at the requested level is begun unless suppressed. */
    method Create(registry: ScopeRegistry, guid: string, behaviour: ConnectionBehaviour,
                  suppress: bool := false, level: IsolationLevel := ReadCommitted)
      returns (scope: DbContextScope)
      requires registry.Valid()
      modifies connectionFactory, registry
      ensures registry.Valid()
      ensures |connectionFactory.created| == |old(connectionFactory.created)| + 1
      ensures connectionFactory.created[..|old(connectionFactory.created)|] == old(connectionFactory.created)
      ensures var c := connectionFactory.created[|connectionFactory.created| - 1];
        && fresh(c) && fresh(scope) && scope.Linked() && scope.parent == null
        && scope.connection == c && scope.option == ComposeOption(suppress) && scope.isolationLevel == level
        && c.state == (if behaviour.initialState == Closed then ConnectionState.Open else behaviour.initialState)
        && c.opens == (if behaviour.initialState == Closed then 1 else 0) && c.asyncOpens == []
        && (scope.transaction != null <==> !suppress)
        && (scope.transaction != null ==>
              fresh(scope.transaction) && scope.transaction.connection == c && scope.transaction.isolationLevel == level)
      ensures registry.State() == PushOf(old(registry.State()), guid, scope)
    {
      scope := CreateInternal(registry, guid, behaviour, suppress, level);
      var o := scope.Prepare(Synchronous);
    }

    /** CreateOrJoin: a new scope with the defaults when the stack is empty,
        otherwise a scope joined to the top that asks the connection factory
        for nothing. */
    method CreateOrJoin(registry: ScopeRegistry, guid: string, behaviour: ConnectionBehaviour)
      returns (scope: DbContextScope)
      requires registry.Valid()
      modifies connectionFactory, registry
      ensures registry.Valid()
      ensures var g := GetStackOf(old(registry.State()), guid);
        && registry.State() == PushOf(g.state, guid, scope)
        && fresh(scope) && scope.Linked()
        && (g.stack == [] ==>
              && scope.parent == null && scope.option == ComposeOption(false) && scope.isolationLevel == ReadCommitted
              && |connectionFactory.created| == |old(connectionFactory.created)| + 1
              && scope.connection == connectionFactory.created[|connectionFactory.created| - 1]
              && fresh(scope.connection)
              && (behaviour.initialState == Closed ==> scope.connection.state == ConnectionState.Open)
              && scope.transaction != null && fresh(scope.transaction)
              && scope.transaction.connection == scope.connection
              && scope.transaction.isolationLevel == ReadCommitted)
        && (g.stack != [] ==>
              && connectionFactory.created == old(connectionFactory.created)
              && scope.parent == g.stack[|g.stack| - 1] && scope.Root() == scope.parent.Root()
              && scope.connection == null && scope.option == JoinOption)
    {
      var stack := registry.GetStack(guid);
      if stack == [] {
        scope := Create(registry, guid, behaviour);
        return;
      }
      ghost var st := registry.State();
      GetStackIdempotent(st, guid, guid);
      var r := DbContextScope.New(registry, null, JoinOption, ReadCommitted, guid);
      scope := r.value;
    }
  }

  /** The legacy AmbientDbContextLocator: wraps the top scope in a DbContext. */
  class AmbientDbContextLocator {
    constructor ()
    {
    }

    /** Get: InvalidOperationException on an empty stack, otherwise a
        DbContext around the top scope. It pushes and pops nothing, though the
        stack getter it goes through may mint the token and an empty entry. */
    method Get(registry: ScopeRegistry, guid: string) returns (r: Result<DbContext, Error>)
      requires registry.Valid()
      modifies registry
      ensures registry.Valid()
      ensures var g := GetStackOf(old(registry.State()), guid);
        && registry.State() == g.state
        && (g.stack == [] ==> r == Failure(InvalidOperationException(NoActiveScopeMessage)))
        && (g.stack != [] ==> r == Success(DbContext(g.stack[|g.stack| - 1])))
    {
      var stack := registry.GetStack(guid);
      if stack == [] {
        return Failure(InvalidOperationException(NoActiveScopeMessage));
      }
      var top := registry.GetStack(guid);
      return Success(DbContext(top[|top| - 1]));
    }
  }
}

/** The ORM engine's session, reduced to what a conversation does with it: a session is
    opened by a factory, begins a transaction, is flushed, commits or rolls back, and is
    disposed. Queries, data and caching are not part of this model. */
module Engine {

  /** A session factory, known only by its identity. */
  datatype SessionFactory = SessionFactory(id: nat)

  /** The interceptor passed when opening a session. */
  datatype Interceptor = NoInterceptor | Interceptor(id: nat)

  /** The state of a session's transaction. */
  datatype TransactionState = NotBegun | Active | Committed | RolledBack

  /** The engine's own flush mode (the values the conversation uses). */
  datatype EngineFlushMode = Never | Commit | Auto

  /** Everything observable about a session at one moment. */
  datatype SessionState = SessionState(
    isOpen: bool,
    transaction: TransactionState,
    flushCount: nat,
    flushMode: EngineFlushMode)

  /** The state after `ISession.Flush`. */
  function Flushed(s: SessionState): (r: SessionState)
    ensures r.flushCount == s.flushCount + 1
    ensures r.(flushCount := s.flushCount) == s
  {
    s.(flushCount := s.flushCount + 1)
  }

  /** The state after `Transaction.Commit`. */
  function CommittedState(s: SessionState): SessionState {
    s.(transaction := Committed)
  }

  /** The state after `Transaction.Rollback`. */
  function RolledBackState(s: SessionState): SessionState {
    s.(transaction := RolledBack)
  }

  /** The state after `ISession.Dispose`. */
  function DisposedState(s: SessionState): SessionState {
    s.(isOpen := false)
  }

  /** An engine session. Its identity is the object's identity. */
  class Session {
    const factory: SessionFactory
    const interceptor: Interceptor
    var isOpen: bool
    var transaction: TransactionState
    var flushCount: nat
    var flushMode: EngineFlushMode

    function Snapshot(): SessionState
      reads this
    {
      SessionState(isOpen, transaction, flushCount, flushMode)
    }

    /** `factory.OpenSession(interceptor)`: an open session without a transaction,
        in the engine's default flush mode. */
    constructor Open(factory: SessionFactory, interceptor: Interceptor)
      ensures this.factory == factory && this.interceptor == interceptor
      ensures Snapshot() == SessionState(true, NotBegun, 0, Auto)
    {
      this.factory := factory;
      this.interceptor := interceptor;
      isOpen := true;
      transaction := NotBegun;
      flushCount := 0;
      flushMode := Auto;
    }

    method BeginTransaction()
      modifies this
      ensures Snapshot() == old(Snapshot()).(transaction := Active)
    {
      transaction := Active;
    }

    method SetFlushMode(mode: EngineFlushMode)
      modifies this
      ensures Snapshot() == old(Snapshot()).(flushMode := mode)
    {
      flushMode := mode;
    }

    method Flush()
      modifies this
      ensures Snapshot() == Flushed(old(Snapshot()))
    {
      flushCount := flushCount + 1;
    }

    method Commit()
      modifies this
      ensures Snapshot() == CommittedState(old(Snapshot()))
    {
      transaction := Committed;
    }

    method Rollback()
      modifies this
      ensures Snapshot() == RolledBackState(old(Snapshot()))
    {
      transaction := RolledBack;
    }

    method Dispose()
      modifies this
      ensures Snapshot() == DisposedState(old(Snapshot()))
    {
      isOpen := false;
    }
  }
}

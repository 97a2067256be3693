/** A conversation: a unit of work that spans several scopes. It owns one engine session per
    session factory, locks its flush mode once a session is open, can be canceled, and on
    disposal or restart rolls back (canceled) or flushes and commits (not canceled) every
    session before disposing of it. `ConversationalScope` is the scope that borrows its
    sessions from a conversation; the two live in one module because each refers to the other
    (`Execute` runs its action inside a fresh scope over the conversation). */
module Conversations {
  import opened Wrappers
  import opened Exceptions
  import opened ConversationFlushModes
  import opened Engine
  import opened Text

  /** Arguments of the `Canceled` event. */
  datatype CanceledEventArgs = CanceledEventArgs(canceledByUser: bool, exception: Option<Exception>)

  /** The message of the error raised when a canceled conversation is used
      (word for word, including its "_isCanceled"). */
  const CanceledMessage: string := Concat(CanceledMessageParts)

  /** The phrases of `CanceledMessage`, in order. */
  const CanceledMessageParts: seq<string> :=
    ["A session ", "was requested ", "from a conversation ", "that has been already ",
     "_isCanceled. ", "Please check that ", "after the ", "cancellation ",
     "of a conversation ", "no more ", "ConversationalScopes ", "are opened using it."]

  /** The message of the error raised when the flush mode is set on a conversation in use. */
  const FlushModeLockedMessage: string := Concat(FlushModeLockedMessageParts)

  /** The phrases of `FlushModeLockedMessage`, in order. */
  const FlushModeLockedMessageParts: seq<string> :=
    ["The FlushMode ", "cannot be set ", "after the conversation ", "was used ",
     "for the first time. ", "A session ", "was already opened, ", "setting the FlushMode ",
     "must be done ", "before any sessions ", "are opened."]

  /** The engine flush mode a new session gets under a conversation flush mode. */
  function EngineModeFor(mode: ConversationFlushMode): EngineFlushMode {
    match mode
    case Automatic => EngineFlushMode.Auto
    case OnClose => EngineFlushMode.Commit
    case Explicit => EngineFlushMode.Never
  }

  /** The state of a session the conversation has just created: open, with a begun
      transaction, never flushed, in the engine mode matching the conversation's mode. */
  function NewSessionState(mode: ConversationFlushMode): SessionState {
    SessionState(true, Active, 0, EngineModeFor(mode))
  }

  /** What termination (disposal or restart) does to one session: roll back if the
      conversation was canceled, otherwise flush (unless the mode is Explicit) and commit;
      then dispose. */
  function Terminated(s: SessionState, canceled: bool, mode: ConversationFlushMode): (r: SessionState)
    ensures !r.isOpen
    ensures r.transaction == if canceled then RolledBack else Committed
    ensures r.flushCount == if !canceled && mode != Explicit then s.flushCount + 1 else s.flushCount
    ensures r.flushMode == s.flushMode
  {
    var processed :=
      if canceled then RolledBackState(s)
      else CommittedState(if mode != Explicit then Flushed(s) else s);
    DisposedState(processed)
  }

  /** The documented meaning of the flush modes and of cancellation, at termination. */
  lemma DocumentedTermination(s: SessionState, canceled: bool, mode: ConversationFlushMode)
    ensures mode == OnClose && !canceled ==>
      Terminated(s, canceled, mode).flushCount == s.flushCount + 1
      && Terminated(s, canceled, mode).transaction == Committed
    ensures mode == Explicit ==> Terminated(s, canceled, mode).flushCount == s.flushCount
    ensures canceled ==>
      Terminated(s, canceled, mode).transaction == RolledBack
      && Terminated(s, canceled, mode).flushCount == s.flushCount
  {
  }

  /** How the action given to `Execute` behaves: the persistence operations it performs each
      ask the ambient scope for the session of a factory, in order; then it returns normally
      or throws. */
  datatype ActionOutcome = Returns | Throws(exception: Exception)
  datatype Action = Action(requests: seq<(SessionFactory, Interceptor)>, outcome: ActionOutcome)

  /** The factories an action asks sessions for. */
  function RequestedFactories(action: Action): set<SessionFactory> {
    set i | 0 <= i < |action.requests| :: action.requests[i].0
  }

  /** The exception `Execute` catches: the cancellation error raised by the first session
      request when the conversation was already canceled, else what the action throws. */
  function CaughtException(wasCanceled: bool, action: Action): Option<Exception> {
    if wasCanceled && |action.requests| > 0 then Some(ActiveRecordException(CanceledMessage))
    else if action.outcome.Throws? then Some(action.outcome.exception)
    else None
  }

  /** The contract of `GetSession`, shared with the scope that forwards to it: a canceled
      conversation throws and changes nothing; otherwise the session already open for the
      factory is returned, or a new one is created, added to the table and returned. */
  twostate predicate SessionRequested(c: ScopedConversation, factory: SessionFactory,
                                      interceptor: Interceptor, new r: Result<Session, Exception>)
    reads c, if r.Success? then {r.value} else {}
  {
    && c.flushMode == old(c.flushMode)
    && c.isCanceled == old(c.isCanceled)
    && c.canceledEvents == old(c.canceledEvents)
    && (old(c.isCanceled) ==>
          r == Failure(ActiveRecordException(CanceledMessage))
          && c.openedSessions == old(c.openedSessions))
    && (!old(c.isCanceled) ==>
          r.Success? && factory in c.openedSessions && c.openedSessions[factory] == r.value)
    && (!old(c.isCanceled) && factory in old(c.openedSessions) ==>
          c.openedSessions == old(c.openedSessions))
    && (!old(c.isCanceled) && factory !in old(c.openedSessions) ==>
          && r.Success?
          && fresh(r.value)
          && c.openedSessions == old(c.openedSessions)[factory := r.value]
          && r.value.factory == factory
          && r.value.interceptor == interceptor
          && r.value.Snapshot() == NewSessionState(c.flushMode))
  }

  class ScopedConversation {
    var flushMode: ConversationFlushMode
    var isCanceled: bool
    /** One open session per session factory. */
    var openedSessions: map<SessionFactory, Session>
    /** The `Canceled` notifications raised so far, oldest first. */
    var canceledEvents: seq<CanceledEventArgs>

    /** Every session in the table belongs to its factory. Callers may change a session
        they obtained (close it, end its transaction, change its flush mode), so nothing
        more is required of the sessions' states. */
    ghost predicate Valid()
      reads this, openedSessions.Values
    {
      forall f | f in openedSessions :: openedSessions[f].factory == f
    }

    /** A conversation with the Automatic flush mode. */
    constructor ()
      ensures Valid()
      ensures flushMode == Automatic && !isCanceled
      ensures openedSessions == map[] && canceledEvents == []
    {
      flushMode := Automatic;
      isCanceled := false;
      openedSessions := map[];
      canceledEvents := [];
    }

    /** A conversation with the given flush mode. */
    constructor WithMode(mode: ConversationFlushMode)
      ensures Valid()
      ensures flushMode == mode && !isCanceled
      ensures openedSessions == map[] && canceledEvents == []
    {
      flushMode := mode;
      isCanceled := false;
      openedSessions := map[];
      canceledEvents := [];
    }

    /** Terminates every open session and empties the table; the canceled flag stays. */
    method Dispose()
      requires Valid()
      modifies this, openedSessions.Values
      ensures Valid() && openedSessions == map[]
      ensures isCanceled == old(isCanceled) && flushMode == old(flushMode)
      ensures canceledEvents == old(canceledEvents)
      ensures forall f | f in old(openedSessions) ::
        old(openedSessions)[f].Snapshot()
        == Terminated(old(openedSessions[f].Snapshot()), isCanceled, flushMode)
    {
      ClearSessions();
    }

    method ClearSessions()
      requires Valid()
      modifies this, openedSessions.Values
      ensures Valid() && openedSessions == map[]
      ensures isCanceled == old(isCanceled) && flushMode == old(flushMode)
      ensures canceledEvents == old(canceledEvents)
      ensures forall f | f in old(openedSessions) ::
        old(openedSessions)[f].Snapshot()
        == Terminated(old(openedSessions[f].Snapshot()), isCanceled, flushMode)
    {
      var pending := openedSessions.Values;
      while pending != {}
        invariant pending <= old(openedSessions.Values)
        invariant openedSessions == old(openedSessions)
        invariant isCanceled == old(isCanceled) && flushMode == old(flushMode)
        invariant canceledEvents == old(canceledEvents)
        invariant forall s | s in old(openedSessions.Values) && s !in pending ::
          s.Snapshot() == Terminated(old(s.Snapshot()), isCanceled, flushMode)
        invariant forall s | s in pending :: s.Snapshot() == old(s.Snapshot())
        decreases pending
      {
        var session :| session in pending;
        if isCanceled {
          session.Rollback();
        } else {
          if flushMode != Explicit {
            session.Flush();
          }
          session.Commit();
        }
        session.Dispose();
        pending := pending - {session};
      }
      openedSessions := map[];
    }

    /** Cancels the conversation on the user's behalf. Not guarded: every call raises
        another notification. */
    method Cancel()
      requires Valid()
      modifies this
      ensures Valid() && isCanceled
      ensures canceledEvents == old(canceledEvents) + [CanceledEventArgs(true, None)]
      ensures openedSessions == old(openedSessions) && flushMode == old(flushMode)
    {
      DoCancel(true, None);
    }

    method DoCancel(userCanceled: bool, exceptionCaught: Option<Exception>)
      requires Valid()
      modifies this
      ensures Valid() && isCanceled
      ensures canceledEvents == old(canceledEvents) + [CanceledEventArgs(userCanceled, exceptionCaught)]
      ensures openedSessions == old(openedSessions) && flushMode == old(flushMode)
    {
      isCanceled := true;
      var args := CanceledEventArgs(userCanceled, exceptionCaught);
      TriggerCanceled(args);
    }

    /** Raises the `Canceled` event; the subscribers are not modelled, only the notification. */
    method TriggerCanceled(args: CanceledEventArgs)
      modifies this`canceledEvents
      ensures canceledEvents == old(canceledEvents) + [args]
    {
      canceledEvents := canceledEvents + [args];
    }

    /** The error a canceled conversation raises, if it is canceled. */
    function AssertNotCanceled(): (error: Option<Exception>)
      reads this
      ensures error.Some? <==> isCanceled
      ensures error.Some? ==> error.value == ActiveRecordException(CanceledMessage)
    {
      if isCanceled then Some(ActiveRecordException(CanceledMessage)) else None
    }

    /** Flushes every open session, unless the conversation is canceled. */
    method Flush() returns (error: Option<Exception>)
      requires Valid()
      modifies openedSessions.Values
      ensures Valid()
      ensures isCanceled ==>
        && error == Some(ActiveRecordException(CanceledMessage))
        && forall f | f in openedSessions :: openedSessions[f].Snapshot() == old(openedSessions[f].Snapshot())
      ensures !isCanceled ==>
        && error == None
        && forall f | f in openedSessions :: openedSessions[f].Snapshot() == Flushed(old(openedSessions[f].Snapshot()))
    {
      error := AssertNotCanceled();
      if error.Some? {
        return;
      }
      var pending := openedSessions.Values;
      while pending != {}
        invariant pending <= openedSessions.Values
        invariant forall s | s in openedSessions.Values && s !in pending ::
          s.Snapshot() == Flushed(old(s.Snapshot()))
        invariant forall s | s in pending :: s.Snapshot() == old(s.Snapshot())
        decreases pending
      {
        var session :| session in pending;
        session.Flush();
        pending := pending - {session};
      }
    }

    /** Terminates every open session like `Dispose`, then clears the canceled flag so that
        the conversation can be used again with new sessions. */
    method Restart()
      requires Valid()
      modifies this, openedSessions.Values
      ensures Valid() && openedSessions == map[] && !isCanceled
      ensures flushMode == old(flushMode) && canceledEvents == old(canceledEvents)
      ensures forall f | f in old(openedSessions) ::
        old(openedSessions)[f].Snapshot()
        == Terminated(old(openedSessions[f].Snapshot()), old(isCanceled), flushMode)
    {
      ClearSessions();
      isCanceled := false;
    }

    /** The `FlushMode` setter: refused while any session is open. */
    method SetFlushMode(value: ConversationFlushMode) returns (error: Option<Exception>)
      requires Valid()
      modifies this`flushMode
      ensures Valid()
      ensures |old(openedSessions)| > 0 ==>
        error == Some(ActiveRecordException(FlushModeLockedMessage)) && flushMode == old(flushMode)
      ensures |old(openedSessions)| == 0 ==> error == None && flushMode == value
    {
      if |openedSessions| > 0 {
        return Some(ActiveRecordException(FlushModeLockedMessage));
      }
      flushMode := value;
      error := None;
    }

    /** Runs the action inside a conversational scope over this conversation. Whatever it
        throws, including the cancellation error of a session request, cancels the
        conversation with a notification carrying that exception; the exception is rethrown
        unless `silently`. */
    method Execute(action: Action, silently: bool) returns (thrown: Option<Exception>)
      requires Valid()
      modifies this
      ensures Valid()
      ensures flushMode == old(flushMode)
      ensures var caught := CaughtException(old(isCanceled), action);
        && isCanceled == (old(isCanceled) || caught.Some?)
        && canceledEvents == old(canceledEvents) + (if caught.Some? then [CanceledEventArgs(false, caught)] else [])
        && thrown == (if silently then None else caught)
      ensures old(isCanceled) ==> openedSessions == old(openedSessions)
      ensures !old(isCanceled) ==>
        openedSessions.Keys == old(openedSessions).Keys + RequestedFactories(action)
      ensures forall f | f in old(openedSessions) ::
        f in openedSessions && openedSessions[f] == old(openedSessions)[f]
      ensures forall f | f in openedSessions && f !in old(openedSessions) ::
        fresh(openedSessions[f]) && openedSessions[f].Snapshot() == NewSessionState(flushMode)
    {
      var scope := new ConversationalScope(this);
      var caught: Option<Exception> := None;
      var i := 0;
      while i < |action.requests| && caught.None?
        invariant 0 <= i <= |action.requests|
        invariant Valid()
        invariant flushMode == old(flushMode) && isCanceled == old(isCanceled)
        invariant canceledEvents == old(canceledEvents)
        invariant old(isCanceled) ==>
          && openedSessions == old(openedSessions)
          && (caught.None? <==> i == 0)
          && (caught.Some? ==> caught == Some(ActiveRecordException(CanceledMessage)))
        invariant !old(isCanceled) ==>
          && caught.None?
          && openedSessions.Keys
             == old(openedSessions).Keys + (set j | 0 <= j < i :: action.requests[j].0)
        invariant forall f | f in old(openedSessions) ::
          f in openedSessions && openedSessions[f] == old(openedSessions)[f]
        invariant forall f | f in openedSessions && f !in old(openedSessions) ::
          fresh(openedSessions[f]) && openedSessions[f].Snapshot() == NewSessionState(flushMode)
      {
        var r := scope.OpenSession(action.requests[i].0, action.requests[i].1);
        if r.Failure? {
          caught := Some(r.error);
        }
        i := i + 1;
      }
      if caught.None? && action.outcome.Throws? {
        caught := Some(action.outcome.exception);
      }
      thrown := None;
      if caught.Some? {
        DoCancel(false, caught);
        if !silently {
          thrown := caught;
        }
      }
    }

    /** `Execute(action)`: rethrows what the action throws. */
    method ExecuteAction(action: Action) returns (thrown: Option<Exception>)
      requires Valid()
      modifies this
      ensures Valid()
      ensures flushMode == old(flushMode)
      ensures var caught := CaughtException(old(isCanceled), action);
        && isCanceled == (old(isCanceled) || caught.Some?)
        && canceledEvents == old(canceledEvents) + (if caught.Some? then [CanceledEventArgs(false, caught)] else [])
        && thrown == caught
      ensures old(isCanceled) ==> openedSessions == old(openedSessions)
      ensures !old(isCanceled) ==>
        openedSessions.Keys == old(openedSessions).Keys + RequestedFactories(action)
      ensures forall f | f in old(openedSessions) ::
        f in openedSessions && openedSessions[f] == old(openedSessions)[f]
      ensures forall f | f in openedSessions && f !in old(openedSessions) ::
        fresh(openedSessions[f]) && openedSessions[f].Snapshot() == NewSessionState(flushMode)
    {
      thrown := Execute(action, false);
    }

    /** `ExecuteSilently(action)`: swallows what the action throws. */
    method ExecuteSilently(action: Action)
      requires Valid()
      modifies this
      ensures Valid()
      ensures flushMode == old(flushMode)
      ensures var caught := CaughtException(old(isCanceled), action);
        && isCanceled == (old(isCanceled) || caught.Some?)
        && canceledEvents == old(canceledEvents) + (if caught.Some? then [CanceledEventArgs(false, caught)] else [])
      ensures old(isCanceled) ==> openedSessions == old(openedSessions)
      ensures !old(isCanceled) ==>
        openedSessions.Keys == old(openedSessions).Keys + RequestedFactories(action)
      ensures forall f | f in old(openedSessions) ::
        f in openedSessions && openedSessions[f] == old(openedSessions)[f]
      ensures forall f | f in openedSessions && f !in old(openedSessions) ::
        fresh(openedSessions[f]) && openedSessions[f].Snapshot() == NewSessionState(flushMode)
    {
      var thrown := Execute(action, true);
    }

    /** Looks up the session of `factory`, creating it on first use. */
    method GetSession(factory: SessionFactory, interceptor: Interceptor)
      returns (r: Result<Session, Exception>)
      requires Valid()
      modifies this`openedSessions
      ensures Valid()
      ensures SessionRequested(this, factory, interceptor, r)
    {
      var error := AssertNotCanceled();
      if error.Some? {
        return Failure(error.value);
      }
      if factory !in openedSessions {
        CreateSession(factory, interceptor);
      }
      r := Success(openedSessions[factory]);
    }

    /** Opens a session of `factory`, begins its transaction, sets its engine flush mode and
        adds it to the table. */
    method CreateSession(factory: SessionFactory, interceptor: Interceptor)
      requires Valid() && factory !in openedSessions
      modifies this`openedSessions
      ensures Valid()
      ensures factory in openedSessions && fresh(openedSessions[factory])
      ensures openedSessions == old(openedSessions)[factory := openedSessions[factory]]
      ensures openedSessions[factory].interceptor == interceptor
      ensures openedSessions[factory].Snapshot() == NewSessionState(flushMode)
    {
      var session := new Session.Open(factory, interceptor);
      session.BeginTransaction();
      session.SetFlushMode(
        if flushMode == Automatic then EngineFlushMode.Auto
        else if flushMode == OnClose then EngineFlushMode.Commit
        else EngineFlushMode.Never);
      openedSessions := openedSessions[factory := session];
    }
  }

  /** The flush action and scope type a scope is created with. */
  datatype FlushAction = Auto | Config | Never
  datatype SessionScopeType = Undefined | Simple | Transactional | Custom

  /** A scope that takes its sessions from a conversation. */
  class ConversationalScope {
    const conversation: ScopedConversation
    const flushAction: FlushAction
    const scopeType: SessionScopeType

    constructor (conversation: ScopedConversation)
      ensures this.conversation == conversation
      ensures flushAction == Config && scopeType == Transactional
    {
      this.conversation := conversation;
      flushAction := Config;
      scopeType := Transactional;
    }

    /** Always true: the scope takes sessions from the conversation. */
    function WantsToCreateTheSession(): (wants: bool)
      ensures wants
    {
      true
    }

    /** Not implemented: always throws. */
    method FailSession(session: Session) returns (thrown: Exception)
      ensures thrown == NotImplementedException
    {
      thrown := NotImplementedException;
    }

    /** Delegates to the conversation: the scope never opens a session itself. */
    method OpenSession(factory: SessionFactory, interceptor: Interceptor)
      returns (r: Result<Session, Exception>)
      requires conversation.Valid()
      modifies conversation`openedSessions
      ensures conversation.Valid()
      ensures SessionRequested(conversation, factory, interceptor, r)
    {
      r := conversation.GetSession(factory, interceptor);
    }
  }
}

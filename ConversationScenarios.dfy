/** Whole-conversation properties: sequences of calls on fresh conversations and scopes, each
    proved from the contracts of the calls it makes, and what the error messages say. */
module ConversationScenarios {
  import opened Wrappers
  import opened Exceptions
  import opened Text
  import opened ConversationFlushModes
  import opened Engine
  import opened Conversations

  /** The error of a canceled conversation mentions cancellation, the scope, the session
      and the request. */
  lemma CanceledMessageIsReasonable()
    ensures Contains(CanceledMessage, "cancel")
    ensures Contains(CanceledMessage, "ConversationalScope")
    ensures Contains(CanceledMessage, "session")
    ensures Contains(CanceledMessage, "request")
  {
    var parts := CanceledMessageParts;
    assert OccursAt(parts[7], "cancel", 0);
    ContainsPart(parts, 7, "cancel");
    assert OccursAt(parts[10], "ConversationalScope", 0);
    ContainsPart(parts, 10, "ConversationalScope");
    assert OccursAt(parts[0], "session", 2);
    ContainsPart(parts, 0, "session");
    assert OccursAt(parts[1], "request", 4);
    ContainsPart(parts, 1, "request");
  }

  /** The error of a locked flush mode mentions the flush mode, setting it, "after" and the
      session. */
  lemma FlushModeLockedMessageIsReasonable()
    ensures Contains(FlushModeLockedMessage, "FlushMode")
    ensures Contains(FlushModeLockedMessage, "set")
    ensures Contains(FlushModeLockedMessage, "after")
    ensures Contains(FlushModeLockedMessage, "session")
  {
    var parts := FlushModeLockedMessageParts;
    assert OccursAt(parts[0], "FlushMode", 4);
    ContainsPart(parts, 0, "FlushMode");
    assert OccursAt(parts[1], "set", 10);
    ContainsPart(parts, 1, "set");
    assert OccursAt(parts[2], "after", 0);
    ContainsPart(parts, 2, "after");
    assert OccursAt(parts[5], "session", 2);
    ContainsPart(parts, 5, "session");
  }

  /** Two scopes used one after the other over the same conversation obtain the identical
      session for a factory; it stays open between them and is closed by disposing of the
      conversation. */
  method SessionsAreKeptThroughoutTheConversation(factory: SessionFactory, interceptor: Interceptor)
    returns (first: Session, openBetween: bool, second: Session, openAfterDispose: bool)
    ensures first == second
    ensures openBetween && !openAfterDispose
  {
    var conversation := new ScopedConversation();
    var scope := new ConversationalScope(conversation);
    var r := scope.OpenSession(factory, interceptor);
    first := r.value;
    openBetween := first.isOpen;
    var nextScope := new ConversationalScope(conversation);
    var r' := nextScope.OpenSession(factory, interceptor);
    second := r'.value;
    conversation.Dispose();
    openAfterDispose := first.isOpen;
  }

  /** Scopes over two different conversations obtain two different sessions. */
  method SeparateConversationsHaveSeparateSessions(factory: SessionFactory, interceptor: Interceptor)
    returns (first: Session, second: Session)
    ensures first != second
  {
    var one := new ScopedConversation();
    var other := new ScopedConversation();
    var r := one.GetSession(factory, interceptor);
    first := r.value;
    var r' := other.GetSession(factory, interceptor);
    second := r'.value;
  }

  /** After `Cancel`, opening a session through a scope fails with an ActiveRecordException
      whose message mentions cancel, ConversationalScope, session and request. */
  method ThrowsReasonableErrorMessageWhenUsedAfterCancel(factory: SessionFactory, interceptor: Interceptor)
    returns (r: Result<Session, Exception>)
    ensures r.Failure? && r.error.ActiveRecordException?
    ensures Contains(r.error.message, "cancel") && Contains(r.error.message, "ConversationalScope")
    ensures Contains(r.error.message, "session") && Contains(r.error.message, "request")
  {
    var conversation := new ScopedConversation();
    conversation.Cancel();
    var scope := new ConversationalScope(conversation);
    r := scope.OpenSession(factory, interceptor);
    CanceledMessageIsReasonable();
  }

  /** A canceled conversation refuses to flush. */
  method CannotFlushAfterCancel() returns (error: Option<Exception>)
    ensures error.Some? && error.value.ActiveRecordException?
  {
    var conversation := new ScopedConversation.WithMode(Explicit);
    conversation.Cancel();
    error := conversation.Flush();
  }

  /** The flush mode of an unused conversation can be set and reads back. */
  method CanSetFlushModeAfterCreation() returns (error: Option<Exception>, mode: ConversationFlushMode)
    ensures error == None && mode == Explicit
  {
    var conversation := new ScopedConversation();
    error := conversation.SetFlushMode(Explicit);
    mode := conversation.flushMode;
  }

  /** Once a session is open, setting the flush mode fails with a message mentioning
      FlushMode, set, after and session, and the mode is unchanged. */
  method CannotSetFlushModeAfterUsingTheConversation(factory: SessionFactory, interceptor: Interceptor)
    returns (error: Option<Exception>, mode: ConversationFlushMode)
    ensures error.Some? && error.value.ActiveRecordException?
    ensures Contains(error.value.message, "FlushMode") && Contains(error.value.message, "set")
    ensures Contains(error.value.message, "after") && Contains(error.value.message, "session")
    ensures mode == Automatic
  {
    var conversation := new ScopedConversation();
    var scope := new ConversationalScope(conversation);
    var r := scope.OpenSession(factory, interceptor);
    error := conversation.SetFlushMode(Explicit);
    mode := conversation.flushMode;
    FlushModeLockedMessageIsReasonable();
  }

  /** Restarting empties the session table, so the flush mode can be set again. */
  method FlushModeCanBeSetAfterRestart(factory: SessionFactory, interceptor: Interceptor)
    returns (error: Option<Exception>, mode: ConversationFlushMode)
    ensures error == None && mode == OnClose
  {
    var conversation := new ScopedConversation();
    var r := conversation.GetSession(factory, interceptor);
    conversation.Restart();
    error := conversation.SetFlushMode(OnClose);
    mode := conversation.flushMode;
  }

  /** Cancel then Restart: the old session was rolled back and closed, the conversation is
      no longer canceled, and the next request opens a new session. */
  method RestartAfterCancelOpensFreshSession(factory: SessionFactory, interceptor: Interceptor)
    returns (before: Session, canceledAfterRestart: bool, after: Session)
    ensures !canceledAfterRestart
    ensures before != after
    ensures !before.isOpen && before.transaction == RolledBack
    ensures after.isOpen && after.transaction == Active
  {
    var conversation := new ScopedConversation();
    var r := conversation.GetSession(factory, interceptor);
    before := r.value;
    conversation.Cancel();
    conversation.Restart();
    canceledAfterRestart := conversation.isCanceled;
    var r' := conversation.GetSession(factory, interceptor);
    after := r'.value;
  }

  /** Changes made in a conversation that is then canceled are rolled back on disposal and
      never committed. */
  method CanCancelConversations(factory: SessionFactory, interceptor: Interceptor)
    returns (session: Session)
    ensures !session.isOpen && session.transaction == RolledBack
  {
    var conversation := new ScopedConversation();
    var r := conversation.GetSession(factory, interceptor);
    session := r.value;
    conversation.Cancel();
    conversation.Dispose();
  }

  /** Under the Explicit mode nothing is flushed until `Flush` is called, and disposal
      commits without flushing again. */
  method ExplicitConversationFlushesOnlyOnRequest(factory: SessionFactory, interceptor: Interceptor)
    returns (flushesBefore: nat, flushesAfterFlush: nat, flushesAfterDispose: nat, committed: bool)
    ensures flushesBefore == 0 && flushesAfterFlush == 1 && flushesAfterDispose == 1
    ensures committed
  {
    var conversation := new ScopedConversation.WithMode(Explicit);
    var r := conversation.GetSession(factory, interceptor);
    var session := r.value;
    flushesBefore := session.flushCount;
    var error := conversation.Flush();
    flushesAfterFlush := session.flushCount;
    conversation.Dispose();
    flushesAfterDispose := session.flushCount;
    committed := session.transaction == Committed;
  }

  /** Under the OnClose mode disposal of an uncanceled conversation flushes every session
      once and commits it. */
  method OnCloseConversationFlushesOnDispose(factory: SessionFactory, interceptor: Interceptor)
    returns (flushesBefore: nat, flushesAfterDispose: nat, committed: bool)
    ensures flushesBefore == 0 && flushesAfterDispose == 1 && committed
  {
    var conversation := new ScopedConversation.WithMode(OnClose);
    var r := conversation.GetSession(factory, interceptor);
    var session := r.value;
    flushesBefore := session.flushCount;
    conversation.Dispose();
    flushesAfterDispose := session.flushCount;
    committed := session.transaction == Committed;
  }

  /** `Cancel` raises one notification per call, each with CanceledByUser and no exception. */
  method TriggersWithRightArgsWhenCanceling() returns (canceled: bool, events: seq<CanceledEventArgs>)
    ensures canceled
    ensures events == [CanceledEventArgs(true, None), CanceledEventArgs(true, None)]
  {
    var conversation := new ScopedConversation();
    conversation.Cancel();
    conversation.Cancel();
    canceled := conversation.isCanceled;
    events := conversation.canceledEvents;
  }

  /** An action that throws cancels the conversation; `Execute` rethrows the exception and
      the notification carries it, with CanceledByUser false. */
  method ConversationIsCanceledAfterErrorInExecute(ex: Exception)
    returns (thrown: Option<Exception>, canceled: bool, events: seq<CanceledEventArgs>)
    ensures thrown == Some(ex) && canceled
    ensures events == [CanceledEventArgs(false, Some(ex))]
  {
    var conversation := new ScopedConversation();
    thrown := conversation.ExecuteAction(Action([], Throws(ex)));
    canceled := conversation.isCanceled;
    events := conversation.canceledEvents;
  }

  /** `ExecuteSilently` swallows the exception but cancels the conversation all the same. */
  method ConversationIsCanceledAfterSilentError(ex: Exception)
    returns (canceled: bool, events: seq<CanceledEventArgs>)
    ensures canceled
    ensures events == [CanceledEventArgs(false, Some(ex))]
  {
    var conversation := new ScopedConversation();
    conversation.ExecuteSilently(Action([], Throws(ex)));
    canceled := conversation.isCanceled;
    events := conversation.canceledEvents;
  }

  /** An action that returns normally leaves the conversation uncanceled, with a session
      open for every factory it used. */
  method SuccessfulActionKeepsConversation(factory: SessionFactory, interceptor: Interceptor)
    returns (thrown: Option<Exception>, canceled: bool, factories: set<SessionFactory>)
    ensures thrown == None && !canceled
    ensures factories == {factory}
  {
    var conversation := new ScopedConversation();
    thrown := conversation.ExecuteAction(Action([(factory, interceptor), (factory, interceptor)], Returns));
    canceled := conversation.isCanceled;
    factories := conversation.openedSessions.Keys;
    var requests := [(factory, interceptor), (factory, interceptor)];
    assert forall k :: 0 <= k < |requests| ==> requests[k].0 == factory;
    assert requests[0].0 in RequestedFactories(Action(requests, Returns));
    assert RequestedFactories(Action([(factory, interceptor), (factory, interceptor)], Returns)) == {factory};
  }

  /** Executing an action that uses a session on an already canceled conversation: the
      session request throws, `Execute` catches it and raises a second notification, this
      time carrying the cancellation error. */
  method ExecuteAfterCancelNotifiesAgain(factory: SessionFactory, interceptor: Interceptor)
    returns (thrown: Option<Exception>, events: seq<CanceledEventArgs>)
    ensures thrown == Some(ActiveRecordException(CanceledMessage))
    ensures events == [CanceledEventArgs(true, None),
                       CanceledEventArgs(false, Some(ActiveRecordException(CanceledMessage)))]
  {
    var conversation := new ScopedConversation();
    conversation.Cancel();
    thrown := conversation.ExecuteAction(Action([(factory, interceptor)], Returns));
    events := conversation.canceledEvents;
  }
}

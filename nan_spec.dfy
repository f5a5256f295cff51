/** The public operations of WifiNanServiceImpl as pure steps over the registry. Each
    function takes the state before the call and the call's inputs (the resolved caller and,
    for `connect`, whether `linkToDeath` succeeded) and gives the state after it, the calls
    made outside the service, and how the call ended. */
module NanSpec {
  import opened NanTypes
  import opened NanChecks

  /** The part of a session operation's outcome that does not depend on which operation it
      is: nothing in the registry changes; it completes exactly when every check passes and
      otherwise throws the first failing check's error without calling anything. */
  ghost predicate Gated(r: Registry, checks: seq<Check>, s: Step)
  {
    && s.reg == r
    && (s.outcome.Completed? <==> AllPass(checks))
    && (!s.outcome.Completed? ==> s.outcome.Threw? && s.events == [] && FirstFailure(checks) == Some(s.outcome.error))
  }

  /** `connect(binder, callback, configRequest)`. */
  function Connect(r: Registry, caller: Caller, binder: Option<Binder>, callback: Option<EventCallback>,
                   configRequest: Option<ConfigRequest>, linkSucceeds: bool): (s: Step)
    // a rejected call changes nothing and calls nothing
    ensures s.outcome.Threw? <==> !AllPass(ConnectChecks(caller, binder, callback, configRequest))
    ensures s.outcome.Threw? ==> s.reg == r && s.events == []
                                 && FirstFailure(ConnectChecks(caller, binder, callback, configRequest)) == Some(s.outcome.error)
    // past validation an id is taken from the counter, whether or not the link succeeds
    ensures !s.outcome.Threw? ==> s.reg.nextClientId == r.nextClientId + 1 && callback.Some? && binder.Some?
    // a failed link returns 0, records nothing, tells the callback and forwards nothing
    ensures !s.outcome.Threw? && !linkSucceeds ==>
              && s.outcome == ReturnedId(0)
              && s.reg.uidByClientId == r.uidByClientId
              && s.reg.deathRecipientsByClientId == r.deathRecipientsByClientId
              && s.events == [OnConnectFail(callback.value, ReasonOther)]
    // a successful link records the caller under the new id in both tables and forwards it
    ensures !s.outcome.Threw? && linkSucceeds ==>
              && s.outcome == ReturnedId(r.nextClientId)
              && r.nextClientId in s.reg.uidByClientId && s.reg.uidByClientId[r.nextClientId] == caller.uid
              && r.nextClientId in s.reg.deathRecipientsByClientId
              && s.reg.deathRecipientsByClientId[r.nextClientId] == DeathRecipient(r.nextClientId, binder.value)
              && SameOutside(s.reg.uidByClientId, r.uidByClientId, r.nextClientId)
              && SameOutside(s.reg.deathRecipientsByClientId, r.deathRecipientsByClientId, r.nextClientId)
              && s.events == [LinkToDeath(binder.value, DeathRecipient(r.nextClientId, binder.value)),
                              SmConnect(r.nextClientId, callback.value, EffectiveConfig(configRequest))]
    // the new id is fresh, so no entry is overwritten
    ensures Inv(r) && !s.outcome.Threw? && linkSucceeds ==>
              && r.nextClientId !in r.uidByClientId
              && |s.reg.uidByClientId| == |r.uidByClientId| + 1
    ensures Inv(r) ==> Inv(s.reg)
  {
    var checks := ConnectChecks(caller, binder, callback, configRequest);
    var err := FirstFailure(checks);
    if err.Some? then Step(r, [], Threw(err.value))
    else
      assert checks[2].passes && checks[3].passes;
      var clientId := r.nextClientId;
      var counted := r.(nextClientId := clientId + 1);
      var dr := DeathRecipient(clientId, binder.value);
      if !linkSucceeds then
        Step(counted, [OnConnectFail(callback.value, ReasonOther)], ReturnedId(0))
      else
        Step(counted.(deathRecipientsByClientId := r.deathRecipientsByClientId[clientId := dr],
                      uidByClientId := r.uidByClientId[clientId := caller.uid]),
             [LinkToDeath(binder.value, dr), SmConnect(clientId, callback.value, EffectiveConfig(configRequest))],
             ReturnedId(clientId))
  }

  /** `disconnect(clientId, binder)`. */
  function Disconnect(r: Registry, caller: Caller, clientId: int, binder: Option<Binder>): (s: Step)
    ensures s.outcome.Completed? || s.outcome.Threw?
    ensures s.outcome.Completed? <==> AllPass(DisconnectChecks(r.uidByClientId, caller, clientId, binder))
    ensures s.outcome.Threw? ==> s.reg == r && s.events == []
                                 && FirstFailure(DisconnectChecks(r.uidByClientId, caller, clientId, binder)) == Some(s.outcome.error)
    // only the owner gets through, and exactly its id leaves both tables
    ensures s.outcome.Completed? ==>
              && clientId in r.uidByClientId && r.uidByClientId[clientId] == caller.uid && binder.Some?
              && s.reg.nextClientId == r.nextClientId
              && clientId !in s.reg.uidByClientId && clientId !in s.reg.deathRecipientsByClientId
              && SameOutside(s.reg.uidByClientId, r.uidByClientId, clientId)
              && SameOutside(s.reg.deathRecipientsByClientId, r.deathRecipientsByClientId, clientId)
              && |s.events| > 0 && s.events[|s.events| - 1] == SmDisconnect(clientId)
    // the recorded death recipient is unlinked from the binder passed in
    ensures s.outcome.Completed? && Inv(r) ==>
              s.events == [UnlinkToDeath(binder.value, r.deathRecipientsByClientId[clientId]), SmDisconnect(clientId)]
    ensures Inv(r) ==> Inv(s.reg)
  {
    var checks := DisconnectChecks(r.uidByClientId, caller, clientId, binder);
    var err := FirstFailure(checks);
    if err.Some? then Step(r, [], Threw(err.value))
    else
      assert checks[2].passes && checks[3].passes;
      var unlink := if clientId in r.deathRecipientsByClientId
                    then [UnlinkToDeath(binder.value, r.deathRecipientsByClientId[clientId])]
                    else [];
      Step(r.(deathRecipientsByClientId := r.deathRecipientsByClientId - {clientId},
              uidByClientId := r.uidByClientId - {clientId}),
           unlink + [SmDisconnect(clientId)],
           Completed)
  }

  /** `binderDied()` of the death recipient `recipient`. It has no guard: it removes its id
      from both tables (a no-op for an id already gone) and always forwards a disconnect. */
  function BinderDied(r: Registry, recipient: DeathRecipient): (s: Step)
    ensures s.outcome == Completed
    ensures s.reg.nextClientId == r.nextClientId
    ensures recipient.clientId !in s.reg.uidByClientId && recipient.clientId !in s.reg.deathRecipientsByClientId
    ensures SameOutside(s.reg.uidByClientId, r.uidByClientId, recipient.clientId)
    ensures SameOutside(s.reg.deathRecipientsByClientId, r.deathRecipientsByClientId, recipient.clientId)
    ensures s.events == [UnlinkToDeath(recipient.binder, recipient), SmDisconnect(recipient.clientId)]
    ensures Inv(r) ==> Inv(s.reg)
  {
    var clientId := recipient.clientId;
    Step(r.(deathRecipientsByClientId := r.deathRecipientsByClientId - {clientId},
            uidByClientId := r.uidByClientId - {clientId}),
         [UnlinkToDeath(recipient.binder, recipient), SmDisconnect(clientId)],
         Completed)
  }

  /** `terminateSession(clientId, sessionId)`. */
  function TerminateSession(r: Registry, caller: Caller, clientId: int, sessionId: int): (s: Step)
    ensures Gated(r, TerminateSessionChecks(r.uidByClientId, caller, clientId), s)
    ensures s.outcome.Completed? ==>
              && clientId in r.uidByClientId && r.uidByClientId[clientId] == caller.uid
              && s.events == [SmTerminateSession(clientId, sessionId)]
  {
    var checks := TerminateSessionChecks(r.uidByClientId, caller, clientId);
    var err := FirstFailure(checks);
    if err.Some? then Step(r, [], Threw(err.value))
    else
      assert checks[2].passes;
      Step(r, [SmTerminateSession(clientId, sessionId)], Completed)
  }

  /** `publish(clientId, publishConfig, callback)`. */
  function Publish(r: Registry, caller: Caller, clientId: int, publishConfig: Option<PublishConfig>,
                   callback: Option<SessionCallback>): (s: Step)
    ensures Gated(r, PublishChecks(r.uidByClientId, caller, clientId, publishConfig, callback), s)
    ensures s.outcome.Completed? ==>
              && clientId in r.uidByClientId && r.uidByClientId[clientId] == caller.uid
              && publishConfig.Some? && publishConfig.value.passesValidate && callback.Some?
              && s.events == [SmPublish(clientId, publishConfig.value, callback.value)]
  {
    var checks := PublishChecks(r.uidByClientId, caller, clientId, publishConfig, callback);
    var err := FirstFailure(checks);
    if err.Some? then Step(r, [], Threw(err.value))
    else
      assert checks[2].passes && checks[4].passes && checks[5].passes;
      Step(r, [SmPublish(clientId, publishConfig.value, callback.value)], Completed)
  }

  /** `updatePublish(clientId, sessionId, publishConfig)`. */
  function UpdatePublish(r: Registry, caller: Caller, clientId: int, sessionId: int,
                         publishConfig: Option<PublishConfig>): (s: Step)
    ensures Gated(r, UpdatePublishChecks(r.uidByClientId, caller, clientId, publishConfig), s)
    ensures s.outcome.Completed? ==>
              && clientId in r.uidByClientId && r.uidByClientId[clientId] == caller.uid
              && publishConfig.Some? && publishConfig.value.passesValidate
              && s.events == [SmUpdatePublish(clientId, sessionId, publishConfig.value)]
  {
    var checks := UpdatePublishChecks(r.uidByClientId, caller, clientId, publishConfig);
    var err := FirstFailure(checks);
    if err.Some? then Step(r, [], Threw(err.value))
    else
      assert checks[3].passes && checks[4].passes;
      Step(r, [SmUpdatePublish(clientId, sessionId, publishConfig.value)], Completed)
  }

  /** `subscribe(clientId, subscribeConfig, callback)`. */
  function Subscribe(r: Registry, caller: Caller, clientId: int, subscribeConfig: Option<SubscribeConfig>,
                     callback: Option<SessionCallback>): (s: Step)
    ensures Gated(r, SubscribeChecks(r.uidByClientId, caller, clientId, subscribeConfig, callback), s)
    ensures s.outcome.Completed? ==>
              && clientId in r.uidByClientId && r.uidByClientId[clientId] == caller.uid
              && subscribeConfig.Some? && subscribeConfig.value.passesValidate && callback.Some?
              && s.events == [SmSubscribe(clientId, subscribeConfig.value, callback.value)]
  {
    var checks := SubscribeChecks(r.uidByClientId, caller, clientId, subscribeConfig, callback);
    var err := FirstFailure(checks);
    if err.Some? then Step(r, [], Threw(err.value))
    else
      assert checks[2].passes && checks[4].passes && checks[5].passes;
      Step(r, [SmSubscribe(clientId, subscribeConfig.value, callback.value)], Completed)
  }

  /** `updateSubscribe(clientId, sessionId, subscribeConfig)`. */
  function UpdateSubscribe(r: Registry, caller: Caller, clientId: int, sessionId: int,
                           subscribeConfig: Option<SubscribeConfig>): (s: Step)
    ensures Gated(r, UpdateSubscribeChecks(r.uidByClientId, caller, clientId, subscribeConfig), s)
    ensures s.outcome.Completed? ==>
              && clientId in r.uidByClientId && r.uidByClientId[clientId] == caller.uid
              && subscribeConfig.Some? && subscribeConfig.value.passesValidate
              && s.events == [SmUpdateSubscribe(clientId, sessionId, subscribeConfig.value)]
  {
    var checks := UpdateSubscribeChecks(r.uidByClientId, caller, clientId, subscribeConfig);
    var err := FirstFailure(checks);
    if err.Some? then Step(r, [], Threw(err.value))
    else
      assert checks[3].passes && checks[4].passes;
      Step(r, [SmUpdateSubscribe(clientId, sessionId, subscribeConfig.value)], Completed)
  }

  /** `sendMessage(clientId, sessionId, peerId, message, messageLength, messageId)`. */
  function SendMessage(r: Registry, caller: Caller, clientId: int, sessionId: int, peerId: int,
                       message: Option<seq<Byte>>, messageLength: int, messageId: int): (s: Step)
    ensures Gated(r, SendMessageChecks(r.uidByClientId, caller, clientId, message, messageLength), s)
    ensures s.outcome.Completed? ==>
              && clientId in r.uidByClientId && r.uidByClientId[clientId] == caller.uid
              && (messageLength == 0 || (message.Some? && messageLength <= |message.value|))
              && s.events == [SmSendMessage(clientId, sessionId, peerId, message, messageLength, messageId)]
  {
    var checks := SendMessageChecks(r.uidByClientId, caller, clientId, message, messageLength);
    var err := FirstFailure(checks);
    if err.Some? then Step(r, [], Threw(err.value))
    else
      assert checks[2].passes && checks[3].passes;
      Step(r, [SmSendMessage(clientId, sessionId, peerId, message, messageLength, messageId)], Completed)
  }

  /** One call into the service, with the inputs the environment chooses. */
  datatype Call =
    | ConnectCall(caller: Caller, binder: Option<Binder>, callback: Option<EventCallback>,
                  configRequest: Option<ConfigRequest>, linkSucceeds: bool)
    | DisconnectCall(caller: Caller, clientId: int, binder: Option<Binder>)
    | TerminateSessionCall(caller: Caller, clientId: int, sessionId: int)
    | PublishCall(caller: Caller, clientId: int, publishConfig: Option<PublishConfig>,
                  sessionCallback: Option<SessionCallback>)
    | UpdatePublishCall(caller: Caller, clientId: int, sessionId: int, publishConfig: Option<PublishConfig>)
    | SubscribeCall(caller: Caller, clientId: int, subscribeConfig: Option<SubscribeConfig>,
                    sessionCallback: Option<SessionCallback>)
    | UpdateSubscribeCall(caller: Caller, clientId: int, sessionId: int, subscribeConfig: Option<SubscribeConfig>)
    | SendMessageCall(caller: Caller, clientId: int, sessionId: int, peerId: int, message: Option<seq<Byte>>,
                      messageLength: int, messageId: int)
    | BinderDiedCall(recipient: DeathRecipient)

  /** The client id a call is checked against with `enforceClientValidity`, if any. */
  function OwnedTarget(c: Call): Option<int>
  {
    match c
    case ConnectCall(_, _, _, _, _) => None
    case BinderDiedCall(_) => None
    case DisconnectCall(_, clientId, _) => Some(clientId)
    case TerminateSessionCall(_, clientId, _) => Some(clientId)
    case PublishCall(_, clientId, _, _) => Some(clientId)
    case UpdatePublishCall(_, clientId, _, _) => Some(clientId)
    case SubscribeCall(_, clientId, _, _) => Some(clientId)
    case UpdateSubscribeCall(_, clientId, _, _) => Some(clientId)
    case SendMessageCall(_, clientId, _, _, _, _, _) => Some(clientId)
  }

  /** The check list a call runs (none for a death recipient firing). */
  function ChecksOf(r: Registry, c: Call): seq<Check>
  {
    match c
    case ConnectCall(caller, binder, callback, configRequest, _) => ConnectChecks(caller, binder, callback, configRequest)
    case DisconnectCall(caller, clientId, binder) => DisconnectChecks(r.uidByClientId, caller, clientId, binder)
    case TerminateSessionCall(caller, clientId, _) => TerminateSessionChecks(r.uidByClientId, caller, clientId)
    case PublishCall(caller, clientId, publishConfig, callback) =>
      PublishChecks(r.uidByClientId, caller, clientId, publishConfig, callback)
    case UpdatePublishCall(caller, clientId, _, publishConfig) =>
      UpdatePublishChecks(r.uidByClientId, caller, clientId, publishConfig)
    case SubscribeCall(caller, clientId, subscribeConfig, callback) =>
      SubscribeChecks(r.uidByClientId, caller, clientId, subscribeConfig, callback)
    case UpdateSubscribeCall(caller, clientId, _, subscribeConfig) =>
      UpdateSubscribeChecks(r.uidByClientId, caller, clientId, subscribeConfig)
    case SendMessageCall(caller, clientId, _, _, message, messageLength, _) =>
      SendMessageChecks(r.uidByClientId, caller, clientId, message, messageLength)
    case BinderDiedCall(_) => []
  }

  /** One atomic step of the service. */
  function Apply(r: Registry, c: Call): (s: Step)
    ensures Inv(r) ==> Inv(s.reg)
    // the counter moves only forwards, by at most one
    ensures s.reg.nextClientId == r.nextClientId || s.reg.nextClientId == r.nextClientId + 1
    // an id handed out is the counter's value before the step
    ensures s.outcome.ReturnedId? && s.outcome.clientId != 0 ==>
              s.outcome.clientId == r.nextClientId && s.reg.nextClientId == r.nextClientId + 1
    // the only id a step can add to the tables is the counter's value before it
    ensures s.reg.uidByClientId.Keys <= r.uidByClientId.Keys + {r.nextClientId}
    ensures s.reg.deathRecipientsByClientId.Keys <= r.deathRecipientsByClientId.Keys + {r.nextClientId}
    // a rejected call changes nothing and calls nothing
    ensures s.outcome.Threw? ==> s.reg == r && s.events == []
  {
    match c
    case ConnectCall(caller, binder, callback, configRequest, linkSucceeds) =>
      Connect(r, caller, binder, callback, configRequest, linkSucceeds)
    case DisconnectCall(caller, clientId, binder) => Disconnect(r, caller, clientId, binder)
    case TerminateSessionCall(caller, clientId, sessionId) => TerminateSession(r, caller, clientId, sessionId)
    case PublishCall(caller, clientId, publishConfig, callback) => Publish(r, caller, clientId, publishConfig, callback)
    case UpdatePublishCall(caller, clientId, sessionId, publishConfig) =>
      UpdatePublish(r, caller, clientId, sessionId, publishConfig)
    case SubscribeCall(caller, clientId, subscribeConfig, callback) =>
      Subscribe(r, caller, clientId, subscribeConfig, callback)
    case UpdateSubscribeCall(caller, clientId, sessionId, subscribeConfig) =>
      UpdateSubscribe(r, caller, clientId, sessionId, subscribeConfig)
    case SendMessageCall(caller, clientId, sessionId, peerId, message, messageLength, messageId) =>
      SendMessage(r, caller, clientId, sessionId, peerId, message, messageLength, messageId)
    case BinderDiedCall(recipient) => BinderDied(r, recipient)
  }

  /** The result of a sequence of calls: the final state, every outside call in order, and
      each call's outcome. */
  datatype Trace = Trace(final: Registry, events: seq<Event>, outcomes: seq<Outcome>)

  function Run(r: Registry, calls: seq<Call>): (t: Trace)
    ensures |t.outcomes| == |calls|
    decreases |calls|
  {
    if calls == [] then Trace(r, [], [])
    else
      var s := Apply(r, calls[0]);
      var rest := Run(s.reg, calls[1..]);
      Trace(rest.final, s.events + rest.events, [s.outcome] + rest.outcomes)
  }

  /** The non-zero ids `connect` returned, in the order they were returned. */
  function IssuedIds(outcomes: seq<Outcome>): seq<int>
  {
    if outcomes == [] then []
    else (if outcomes[0].ReturnedId? && outcomes[0].clientId != 0 then [outcomes[0].clientId] else [])
         + IssuedIds(outcomes[1..])
  }
}

/** WifiNanServiceImpl as an object: the client-id counter and the two tables keyed by client
    id are fields that its methods update in place, one atomic step per call. What it calls
    outside itself (binder links, the client's event callback, the state manager) is appended
    to the ghost `log`. Each method is proved to take exactly the step NanSpec gives for it. */
module NanService {
  import opened NanTypes
  import opened NanChecks
  import NanSpec

  class WifiNanServiceImpl {
    var mNextClientId: int
    var mDeathRecipientsByClientId: map<int, DeathRecipient>
    var mUidByClientId: map<int, int>
    ghost var log: seq<Event>

    /** The registry the fields hold. */
    function State(): Registry
      reads this
    {
      Registry(mNextClientId, mDeathRecipientsByClientId, mUidByClientId)
    }

    ghost predicate Valid()
      reads this
    {
      Inv(State())
    }

    constructor ()
      ensures Valid() && State() == Initial && log == []
      ensures mNextClientId == 1
    {
      mNextClientId := 1;
      mDeathRecipientsByClientId := map[];
      mUidByClientId := map[];
      log := [];
    }

    method Connect(caller: Caller, binder: Option<Binder>, callback: Option<EventCallback>,
                   configRequest: Option<ConfigRequest>, linkSucceeds: bool) returns (outcome: Outcome)
      requires Valid()
      modifies this
      ensures Valid()
      ensures var s := NanSpec.Connect(old(State()), caller, binder, callback, configRequest, linkSucceeds);
              State() == s.reg && log == old(log) + s.events && outcome == s.outcome
      ensures outcome.ReturnedId? && outcome.clientId != 0 ==>
                outcome.clientId == old(mNextClientId) && outcome.clientId !in old(mUidByClientId)
                && mUidByClientId[outcome.clientId] == caller.uid
    {
      var checks := ConnectChecks(caller, binder, callback, configRequest);
      var err := FirstFailure(checks);
      if err.Some? {
        return Threw(err.value);
      }
      assert checks[2].passes && checks[3].passes;
      var config := EffectiveConfig(configRequest);
      var uid := caller.uid;
      var clientId := mNextClientId;
      mNextClientId := mNextClientId + 1;
      var dr := DeathRecipient(clientId, binder.value);
      if !linkSucceeds {
        log := log + [OnConnectFail(callback.value, ReasonOther)];
        return ReturnedId(0);
      }
      log := log + [LinkToDeath(binder.value, dr)];
      mDeathRecipientsByClientId := mDeathRecipientsByClientId[clientId := dr];
      mUidByClientId := mUidByClientId[clientId := uid];
      log := log + [SmConnect(clientId, callback.value, config)];
      return ReturnedId(clientId);
    }

    method Disconnect(caller: Caller, clientId: int, binder: Option<Binder>) returns (outcome: Outcome)
      requires Valid()
      modifies this
      ensures Valid()
      ensures var s := NanSpec.Disconnect(old(State()), caller, clientId, binder);
              State() == s.reg && log == old(log) + s.events && outcome == s.outcome
      ensures outcome.Completed? ==> clientId !in mUidByClientId && clientId !in mDeathRecipientsByClientId
    {
      var checks := DisconnectChecks(mUidByClientId, caller, clientId, binder);
      var err := FirstFailure(checks);
      if err.Some? {
        return Threw(err.value);
      }
      assert checks[3].passes;
      if clientId in mDeathRecipientsByClientId {
        var dr := mDeathRecipientsByClientId[clientId];
        log := log + [UnlinkToDeath(binder.value, dr)];
        mDeathRecipientsByClientId := mDeathRecipientsByClientId - {clientId};
      }
      mUidByClientId := mUidByClientId - {clientId};
      log := log + [SmDisconnect(clientId)];
      return Completed;
    }

    /** The death recipient created by `connect` firing. */
    method BinderDied(recipient: DeathRecipient)
      requires Valid()
      modifies this
      ensures Valid()
      ensures var s := NanSpec.BinderDied(old(State()), recipient);
              State() == s.reg && log == old(log) + s.events
      ensures recipient.clientId !in mUidByClientId && recipient.clientId !in mDeathRecipientsByClientId
    {
      log := log + [UnlinkToDeath(recipient.binder, recipient)];
      mDeathRecipientsByClientId := mDeathRecipientsByClientId - {recipient.clientId};
      mUidByClientId := mUidByClientId - {recipient.clientId};
      log := log + [SmDisconnect(recipient.clientId)];
    }

    method TerminateSession(caller: Caller, clientId: int, sessionId: int) returns (outcome: Outcome)
      requires Valid()
      modifies this`log
      ensures var s := NanSpec.TerminateSession(State(), caller, clientId, sessionId);
              log == old(log) + s.events && outcome == s.outcome
    {
      var checks := TerminateSessionChecks(mUidByClientId, caller, clientId);
      var err := FirstFailure(checks);
      if err.Some? {
        return Threw(err.value);
      }
      log := log + [SmTerminateSession(clientId, sessionId)];
      return Completed;
    }

    method Publish(caller: Caller, clientId: int, publishConfig: Option<PublishConfig>,
                   callback: Option<SessionCallback>) returns (outcome: Outcome)
      requires Valid()
      modifies this`log
      ensures var s := NanSpec.Publish(State(), caller, clientId, publishConfig, callback);
              log == old(log) + s.events && outcome == s.outcome
    {
      var checks := PublishChecks(mUidByClientId, caller, clientId, publishConfig, callback);
      var err := FirstFailure(checks);
      if err.Some? {
        return Threw(err.value);
      }
      assert checks[2].passes && checks[3].passes;
      log := log + [SmPublish(clientId, publishConfig.value, callback.value)];
      return Completed;
    }

    method UpdatePublish(caller: Caller, clientId: int, sessionId: int,
                         publishConfig: Option<PublishConfig>) returns (outcome: Outcome)
      requires Valid()
      modifies this`log
      ensures var s := NanSpec.UpdatePublish(State(), caller, clientId, sessionId, publishConfig);
              log == old(log) + s.events && outcome == s.outcome
    {
      var checks := UpdatePublishChecks(mUidByClientId, caller, clientId, publishConfig);
      var err := FirstFailure(checks);
      if err.Some? {
        return Threw(err.value);
      }
      assert checks[2].passes;
      log := log + [SmUpdatePublish(clientId, sessionId, publishConfig.value)];
      return Completed;
    }

    method Subscribe(caller: Caller, clientId: int, subscribeConfig: Option<SubscribeConfig>,
                     callback: Option<SessionCallback>) returns (outcome: Outcome)
      requires Valid()
      modifies this`log
      ensures var s := NanSpec.Subscribe(State(), caller, clientId, subscribeConfig, callback);
              log == old(log) + s.events && outcome == s.outcome
    {
      var checks := SubscribeChecks(mUidByClientId, caller, clientId, subscribeConfig, callback);
      var err := FirstFailure(checks);
      if err.Some? {
        return Threw(err.value);
      }
      assert checks[2].passes && checks[3].passes;
      log := log + [SmSubscribe(clientId, subscribeConfig.value, callback.value)];
      return Completed;
    }

    method UpdateSubscribe(caller: Caller, clientId: int, sessionId: int,
                           subscribeConfig: Option<SubscribeConfig>) returns (outcome: Outcome)
      requires Valid()
      modifies this`log
      ensures var s := NanSpec.UpdateSubscribe(State(), caller, clientId, sessionId, subscribeConfig);
              log == old(log) + s.events && outcome == s.outcome
    {
      var checks := UpdateSubscribeChecks(mUidByClientId, caller, clientId, subscribeConfig);
      var err := FirstFailure(checks);
      if err.Some? {
        return Threw(err.value);
      }
      assert checks[2].passes;
      log := log + [SmUpdateSubscribe(clientId, sessionId, subscribeConfig.value)];
      return Completed;
    }

    method SendMessage(caller: Caller, clientId: int, sessionId: int, peerId: int,
                       message: Option<seq<Byte>>, messageLength: int, messageId: int) returns (outcome: Outcome)
      requires Valid()
      modifies this`log
      ensures var s := NanSpec.SendMessage(State(), caller, clientId, sessionId, peerId, message, messageLength, messageId);
              log == old(log) + s.events && outcome == s.outcome
    {
      var checks := SendMessageChecks(mUidByClientId, caller, clientId, message, messageLength);
      var err := FirstFailure(checks);
      if err.Some? {
        return Threw(err.value);
      }
      log := log + [SmSendMessage(clientId, sessionId, peerId, message, messageLength, messageId)];
      return Completed;
    }
  }
}

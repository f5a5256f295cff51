/** What the registry logic of WifiNanServiceImpl guarantees over any sequence of calls:
    the invariant linking the two tables, the ids `connect` hands out, teardown, ownership,
    and the order in which the guards reject bad input. */
module NanProperties {
  import opened NanTypes
  import opened NanChecks
  import opened NanSpec

  predicate StrictlyIncreasing(s: seq<int>)
  {
    forall i, j :: 0 <= i < j < |s| ==> s[i] < s[j]
  }

  /** Every sequence of calls keeps the registry invariant. */
  lemma {:induction false} RunPreservesInv(r: Registry, calls: seq<Call>)
    requires Inv(r)
    ensures Inv(Run(r, calls).final)
    decreases |calls|
  {
    if calls != [] {
      RunPreservesInv(Apply(r, calls[0]).reg, calls[1..]);
    }
  }

  /** A value below every element of an increasing sequence can be put in front of it. */
  lemma PrependKeepsIncreasing(head: seq<int>, ids: seq<int>, lo: int)
    requires StrictlyIncreasing(ids) && |head| <= 1
    requires forall k :: 0 <= k < |ids| ==> lo <= ids[k]
    requires forall k :: 0 <= k < |head| ==> head[k] < lo
    ensures StrictlyIncreasing(head + ids)
  {
  }

  /** The ids `connect` returns over any sequence of calls are strictly increasing, hence
      distinct, and each was taken from the counter during the run. */
  lemma {:induction false} RunIssuesIncreasingIds(r: Registry, calls: seq<Call>)
    ensures var t := Run(r, calls);
            && r.nextClientId <= t.final.nextClientId
            && StrictlyIncreasing(IssuedIds(t.outcomes))
            && forall k :: 0 <= k < |IssuedIds(t.outcomes)| ==>
                 r.nextClientId <= IssuedIds(t.outcomes)[k] < t.final.nextClientId
    decreases |calls|
  {
    if calls != [] {
      var s := Apply(r, calls[0]);
      var rest := Run(s.reg, calls[1..]);
      RunIssuesIncreasingIds(s.reg, calls[1..]);
      var t := Run(r, calls);
      assert t.final == rest.final;
      assert t.outcomes == [s.outcome] + rest.outcomes;
      assert t.outcomes[1..] == rest.outcomes;
      var head := if s.outcome.ReturnedId? && s.outcome.clientId != 0 then [s.outcome.clientId] else [];
      var ids := IssuedIds(rest.outcomes);
      assert IssuedIds(t.outcomes) == head + ids;
      PrependKeepsIncreasing(head, ids, s.reg.nextClientId);
    }
  }

  /** Starting from a fresh service, every id handed out is at least 1. */
  lemma IssuedIdsArePositive(calls: seq<Call>)
    ensures forall k :: 0 <= k < |IssuedIds(Run(Initial, calls).outcomes)| ==>
              IssuedIds(Run(Initial, calls).outcomes)[k] >= 1
  {
    RunIssuesIncreasingIds(Initial, calls);
  }

  /** An id that was issued and is no longer registered never comes back. */
  lemma {:induction false} RetiredIdStaysRetired(r: Registry, calls: seq<Call>, clientId: int)
    requires clientId < r.nextClientId
    requires clientId !in r.uidByClientId && clientId !in r.deathRecipientsByClientId
    ensures var t := Run(r, calls);
            clientId < t.final.nextClientId
            && clientId !in t.final.uidByClientId && clientId !in t.final.deathRecipientsByClientId
    decreases |calls|
  {
    if calls != [] {
      RetiredIdStaysRetired(Apply(r, calls[0]).reg, calls[1..], clientId);
    }
  }

  /** A call checked against an id the caller does not own, because the id is not
      registered or is registered to another uid, is rejected and changes nothing. */
  lemma UnownedIdRejected(r: Registry, c: Call)
    requires OwnedTarget(c).Some? && !EnforceClientValidity(r.uidByClientId, c.caller.uid, OwnedTarget(c).value).passes
    ensures Apply(r, c).outcome.Threw? && Apply(r, c).reg == r && Apply(r, c).events == []
  {
    ApplyFollowsChecks(r, c);
  }

  /** Teardown: once `disconnect` has completed for an id, or the death recipient created for
      it has fired, every later call on that id, by anyone and after any calls in between, is
      rejected. (A recipient is created by `connect` with an id taken from the counter.) */
  lemma TornDownIdRejectedForever(r: Registry, teardown: Call, clientId: int, calls: seq<Call>, c: Call)
    requires Inv(r)
    requires teardown.DisconnectCall? || teardown.BinderDiedCall?
    requires teardown.DisconnectCall? ==> teardown.clientId == clientId
    requires teardown.BinderDiedCall? ==> teardown.recipient.clientId == clientId && clientId < r.nextClientId
    requires !Apply(r, teardown).outcome.Threw?
    requires OwnedTarget(c) == Some(clientId)
    ensures Apply(Run(Apply(r, teardown).reg, calls).final, c).outcome.Threw?
    ensures forall uid :: !EnforceClientValidity(Run(Apply(r, teardown).reg, calls).final.uidByClientId, uid, clientId).passes
  {
    var s := Apply(r, teardown);
    assert clientId < s.reg.nextClientId;
    assert clientId !in s.reg.uidByClientId && clientId !in s.reg.deathRecipientsByClientId;
    RetiredIdStaysRetired(s.reg, calls, clientId);
    UnownedIdRejected(Run(s.reg, calls).final, c);
  }

  /** At most one uid owns a client id. */
  lemma OwnershipIsExclusive(uidByClientId: map<int, int>, uid1: int, uid2: int, clientId: int)
    requires EnforceClientValidity(uidByClientId, uid1, clientId).passes
    requires EnforceClientValidity(uidByClientId, uid2, clientId).passes
    ensures uid1 == uid2
  {
  }

  /** One call never changes the uid recorded for an id that stays registered. */
  lemma ApplyKeepsOwner(r: Registry, c: Call, clientId: int)
    requires Inv(r)
    requires clientId in r.uidByClientId && clientId in Apply(r, c).reg.uidByClientId
    ensures Apply(r, c).reg.uidByClientId[clientId] == r.uidByClientId[clientId]
  {
  }

  /** The uid recorded for an id never changes while the id stays registered, over any
      sequence of calls: no call can hand a live id to another caller. */
  lemma {:induction false} RunKeepsOwner(r: Registry, calls: seq<Call>, clientId: int)
    requires Inv(r)
    requires clientId in r.uidByClientId && clientId in Run(r, calls).final.uidByClientId
    ensures Run(r, calls).final.uidByClientId[clientId] == r.uidByClientId[clientId]
    decreases |calls|
  {
    if calls != [] {
      var s := Apply(r, calls[0]);
      if clientId in s.reg.uidByClientId {
        ApplyKeepsOwner(r, calls[0], clientId);
        RunKeepsOwner(s.reg, calls[1..], clientId);
      } else {
        RetiredIdStaysRetired(s.reg, calls[1..], clientId);
      }
    }
  }

  /** Every public operation starts with the two permission checks, throws exactly when one
      of its checks fails, and then throws the first failing check's error; the ownership
      check is the last one, except in `disconnect`, where it is the third. */
  lemma ApplyFollowsChecks(r: Registry, c: Call)
    requires !c.BinderDiedCall?
    ensures var checks := ChecksOf(r, c);
            && |checks| >= 3 && checks[..2] == PermissionChecks(c.caller)
            && (Apply(r, c).outcome.Threw? <==> !AllPass(checks))
            && (Apply(r, c).outcome.Threw? ==> FirstFailure(checks) == Some(Apply(r, c).outcome.error))
            && (OwnedTarget(c).Some? ==>
                  var validity := EnforceClientValidity(r.uidByClientId, c.caller.uid, OwnedTarget(c).value);
                  if c.DisconnectCall? then checks[2] == validity else checks[|checks| - 1] == validity)
  {
  }

  /** The access permission is enforced before anything else. */
  lemma AccessPermissionCheckedFirst(r: Registry, c: Call)
    requires !c.BinderDiedCall? && !c.caller.hasAccessWifiState
    ensures Apply(r, c).outcome == Threw(PermissionDenied(AccessWifiState))
    ensures Apply(r, c).reg == r && Apply(r, c).events == []
  {
    ApplyFollowsChecks(r, c);
    FirstFailureAt(ChecksOf(r, c), 0);
  }

  /** The change permission is enforced next. */
  lemma ChangePermissionCheckedSecond(r: Registry, c: Call)
    requires !c.BinderDiedCall? && c.caller.hasAccessWifiState && !c.caller.hasChangeWifiState
    ensures Apply(r, c).outcome == Threw(PermissionDenied(ChangeWifiState))
    ensures Apply(r, c).reg == r && Apply(r, c).events == []
  {
    ApplyFollowsChecks(r, c);
    var checks := ChecksOf(r, c);
    assert checks[0] == PermissionChecks(c.caller)[0];
    FirstFailureAt(checks, 1);
  }

  /** Null arguments to `connect` are rejected before any counter or table change; the
      callback is checked before the binder. */
  lemma ConnectNullArgumentsRejected(r: Registry, caller: Caller, binder: Option<Binder>,
                                     callback: Option<EventCallback>, configRequest: Option<ConfigRequest>,
                                     linkSucceeds: bool)
    requires caller.hasAccessWifiState && caller.hasChangeWifiState
    requires callback.None? || binder.None?
    ensures var s := Connect(r, caller, binder, callback, configRequest, linkSucceeds);
            && s.reg == r && s.events == []
            && s.outcome == Threw(NullArgument(if callback.None? then CallbackArg else BinderArg))
  {
    var checks := ConnectChecks(caller, binder, callback, configRequest);
    if callback.None? {
      FirstFailureAt(checks, 2);
    } else {
      FirstFailureAt(checks, 3);
    }
  }

  /** A `connect` without a `ConfigRequest` goes ahead with the default one. */
  lemma ConnectDefaultsConfig(r: Registry, caller: Caller, binder: Binder, callback: EventCallback)
    requires caller.hasAccessWifiState && caller.hasChangeWifiState
    ensures var s := Connect(r, caller, Some(binder), Some(callback), None, true);
            && s.outcome == ReturnedId(r.nextClientId)
            && SmConnect(r.nextClientId, callback, DefaultConfigRequest) in s.events
  {
    var checks := ConnectChecks(caller, Some(binder), Some(callback), None);
    assert AllPass(checks) by {
      forall i | 0 <= i < |checks| ensures checks[i].passes {
      }
    }
  }

  /** `publish`: a null session callback is reported before a null configuration, and both
      before ownership. */
  lemma PublishNullArgumentsRejected(r: Registry, caller: Caller, clientId: int,
                                     publishConfig: Option<PublishConfig>, callback: Option<SessionCallback>)
    requires caller.hasAccessWifiState && caller.hasChangeWifiState
    requires callback.None? || publishConfig.None?
    ensures var s := Publish(r, caller, clientId, publishConfig, callback);
            s.outcome == Threw(NullArgument(if callback.None? then CallbackArg else PublishConfigArg))
            && ExceptionOf(s.outcome.error) == IllegalArgumentException
  {
    FirstFailureAt(PublishChecks(r.uidByClientId, caller, clientId, publishConfig, callback),
                   if callback.None? then 2 else 3);
  }

  /** `subscribe`: a null session callback is reported before a null configuration, and both
      before ownership. */
  lemma SubscribeNullArgumentsRejected(r: Registry, caller: Caller, clientId: int,
                                       subscribeConfig: Option<SubscribeConfig>, callback: Option<SessionCallback>)
    requires caller.hasAccessWifiState && caller.hasChangeWifiState
    requires callback.None? || subscribeConfig.None?
    ensures var s := Subscribe(r, caller, clientId, subscribeConfig, callback);
            s.outcome == Threw(NullArgument(if callback.None? then CallbackArg else SubscribeConfigArg))
            && ExceptionOf(s.outcome.error) == IllegalArgumentException
  {
    FirstFailureAt(SubscribeChecks(r.uidByClientId, caller, clientId, subscribeConfig, callback),
                   if callback.None? then 2 else 3);
  }

  /** `updatePublish`: a null configuration is reported before ownership. */
  lemma UpdatePublishNullConfigRejected(r: Registry, caller: Caller, clientId: int, sessionId: int)
    requires caller.hasAccessWifiState && caller.hasChangeWifiState
    ensures UpdatePublish(r, caller, clientId, sessionId, None).outcome == Threw(NullArgument(PublishConfigArg))
  {
    FirstFailureAt(UpdatePublishChecks(r.uidByClientId, caller, clientId, None), 2);
  }

  /** `updateSubscribe`: a null configuration is reported before ownership. */
  lemma UpdateSubscribeNullConfigRejected(r: Registry, caller: Caller, clientId: int, sessionId: int)
    requires caller.hasAccessWifiState && caller.hasChangeWifiState
    ensures UpdateSubscribe(r, caller, clientId, sessionId, None).outcome == Threw(NullArgument(SubscribeConfigArg))
  {
    FirstFailureAt(UpdateSubscribeChecks(r.uidByClientId, caller, clientId, None), 2);
  }

  /** In `disconnect` a caller that does not own the id is rejected for that before the
      binder is looked at, even when the binder is null. */
  lemma DisconnectOwnershipBeforeBinder(r: Registry, caller: Caller, clientId: int, binder: Option<Binder>)
    requires caller.hasAccessWifiState && caller.hasChangeWifiState
    requires !EnforceClientValidity(r.uidByClientId, caller.uid, clientId).passes
    ensures Disconnect(r, caller, clientId, binder).outcome == Threw(InvalidClient(caller.uid, clientId))
  {
    FirstFailureAt(DisconnectChecks(r.uidByClientId, caller, clientId, binder), 2);
  }

  /** `sendMessage` rejects a non-zero length the buffer cannot cover before it checks
      ownership, and forwards nothing. */
  lemma SendMessageLengthCheckedBeforeOwnership(r: Registry, caller: Caller, clientId: int, sessionId: int,
                                                peerId: int, message: Option<seq<Byte>>, messageLength: int,
                                                messageId: int)
    requires caller.hasAccessWifiState && caller.hasChangeWifiState
    requires messageLength != 0 && (message.None? || |message.value| < messageLength)
    ensures var s := SendMessage(r, caller, clientId, sessionId, peerId, message, messageLength, messageId);
            s.outcome == Threw(MessageLengthMismatch) && ExceptionOf(s.outcome.error) == IllegalArgumentException
            && s.events == [] && s.reg == r
  {
    FirstFailureAt(SendMessageChecks(r.uidByClientId, caller, clientId, message, messageLength), 2);
  }

  /** The length check lets a negative length through whenever a buffer is given. */
  lemma NegativeMessageLengthPasses(message: seq<Byte>, messageLength: int)
    requires messageLength < 0
    ensures !MessageLengthInvalid(Some(message), messageLength)
  {
  }

  /** `binderDied` is not guarded by the registry removal: when it runs for an id that
      `disconnect` has already torn down, it forwards a second disconnect for that id. It can
      fire then only if `disconnect` unlinked it from a binder other than the linked one, or
      ran concurrently with it. */
  lemma DeathAfterDisconnectForwardsAgain(r: Registry, caller: Caller, clientId: int, binder: Option<Binder>,
                                          recipient: DeathRecipient)
    requires recipient.clientId == clientId
    requires Disconnect(r, caller, clientId, binder).outcome.Completed?
    ensures var s1 := Disconnect(r, caller, clientId, binder);
            var s2 := BinderDied(s1.reg, recipient);
            && SmDisconnect(clientId) in s1.events && SmDisconnect(clientId) in s2.events
            && s2.reg == s1.reg
  {
  }

  /** The first id a fresh service hands out is 1. */
  lemma FirstConnectIssuesOne(caller: Caller, binder: Binder, callback: EventCallback,
                              configRequest: Option<ConfigRequest>)
    requires caller.hasAccessWifiState && caller.hasChangeWifiState
    requires EffectiveConfig(configRequest).passesValidate
    ensures Connect(Initial, caller, Some(binder), Some(callback), configRequest, true).outcome == ReturnedId(1)
  {
    var checks := ConnectChecks(caller, Some(binder), Some(callback), configRequest);
    assert AllPass(checks) by {
      forall i | 0 <= i < |checks| ensures checks[i].passes {
      }
    }
  }

  /** A connects and gets id 1; B, another uid, cannot disconnect it; A's binder dies; then
      A's own `publish` on id 1 is rejected. */
  lemma ForeignDisconnectThenDeathScenario(a: Caller, b: Caller, binder: Binder, callback: EventCallback,
                                           publishConfig: PublishConfig, sessionCallback: SessionCallback)
    requires a.hasAccessWifiState && a.hasChangeWifiState && b.hasAccessWifiState && b.hasChangeWifiState
    requires a.uid != b.uid
    ensures var s1 := Connect(Initial, a, Some(binder), Some(callback), None, true);
            var s2 := Disconnect(s1.reg, b, 1, Some(binder));
            var s3 := BinderDied(s2.reg, DeathRecipient(1, binder));
            var s4 := Publish(s3.reg, a, 1, Some(publishConfig), Some(sessionCallback));
            && s1.outcome == ReturnedId(1)
            && s2.outcome == Threw(InvalidClient(b.uid, 1)) && s2.reg == s1.reg
            && 1 !in s3.reg.uidByClientId
            && s4.outcome.Threw?
  {
    ConnectDefaultsConfig(Initial, a, binder, callback);
    var s1 := Connect(Initial, a, Some(binder), Some(callback), None, true);
    DisconnectOwnershipBeforeBinder(s1.reg, b, 1, Some(binder));
  }

  /** Two connects by one caller get ids 1 and 2; disconnecting 1 leaves 2 registered to the
      caller. */
  lemma TwoConnectsScenario(a: Caller, binder: Binder, callback: EventCallback)
    requires a.hasAccessWifiState && a.hasChangeWifiState
    ensures var s1 := Connect(Initial, a, Some(binder), Some(callback), None, true);
            var s2 := Connect(s1.reg, a, Some(binder), Some(callback), None, true);
            var s3 := Disconnect(s2.reg, a, 1, Some(binder));
            && s1.outcome == ReturnedId(1) && s2.outcome == ReturnedId(2)
            && s3.outcome == Completed
            && 1 !in s3.reg.uidByClientId
            && 2 in s3.reg.uidByClientId && s3.reg.uidByClientId[2] == a.uid
  {
    ConnectDefaultsConfig(Initial, a, binder, callback);
    var s1 := Connect(Initial, a, Some(binder), Some(callback), None, true);
    ConnectDefaultsConfig(s1.reg, a, binder, callback);
    var s2 := Connect(s1.reg, a, Some(binder), Some(callback), None, true);
    var checks := DisconnectChecks(s2.reg.uidByClientId, a, 1, Some(binder));
    assert AllPass(checks) by {
      forall i | 0 <= i < |checks| ensures checks[i].passes {
      }
    }
  }
}

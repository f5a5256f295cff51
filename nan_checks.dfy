/** The guards of WifiNanServiceImpl. Each public operation runs a fixed list of checks in
    source order and throws at the first one that fails; `FirstFailure` is that rule, and the
    `...Checks` functions give each operation's list. */
module NanChecks {
  import opened NanTypes

  /** A guard: whether it passes, and the error thrown when it does not. */
  datatype Check = Check(passes: bool, error: Error)

  predicate AllPass(checks: seq<Check>)
  {
    forall i :: 0 <= i < |checks| ==> checks[i].passes
  }

  /** The error of the first failing check, or None when every check passes. */
  function FirstFailure(checks: seq<Check>): (err: Option<Error>)
    ensures err.None? <==> AllPass(checks)
    ensures err.Some? ==> exists i :: 0 <= i < |checks| && !checks[i].passes && checks[i].error == err.value
                                        && AllPass(checks[..i])
  {
    if checks == [] then None
    else if !checks[0].passes then
      assert checks[..0] == [];
      Some(checks[0].error)
    else
      var rest := FirstFailure(checks[1..]);
      if rest.Some? then
        var i :| 0 <= i < |checks[1..]| && !checks[1..][i].passes && checks[1..][i].error == rest.value
                  && AllPass(checks[1..][..i]);
        assert checks[..i + 1] == [checks[0]] + checks[1..][..i];
        rest
      else
        rest
  }

  /** `enforceAccessPermission(); enforceChangePermission();`, which open every operation. */
  function PermissionChecks(caller: Caller): seq<Check>
  {
    [Check(caller.hasAccessWifiState, PermissionDenied(AccessWifiState)),
     Check(caller.hasChangeWifiState, PermissionDenied(ChangeWifiState))]
  }

  /** `mUidByClientId.get(clientId)`: the uid recorded for `clientId`, or null. */
  function UidLookup(uidByClientId: map<int, int>, clientId: int): Option<int>
  {
    if clientId in uidByClientId then Some(uidByClientId[clientId]) else None
  }

  /** `enforceClientValidity`: the looked-up uid must be present and equal the caller's. */
  function EnforceClientValidity(uidByClientId: map<int, int>, uid: int, clientId: int): (c: Check)
    ensures c.error == InvalidClient(uid, clientId)
    ensures c.passes <==> clientId in uidByClientId && uidByClientId[clientId] == uid
  {
    var uidLookup := UidLookup(uidByClientId, clientId);
    Check(uidLookup.Some? && uidLookup.value == uid, InvalidClient(uid, clientId))
  }

  /** The `sendMessage` guard on a message and its declared length. */
  function MessageLengthInvalid(message: Option<seq<Byte>>, messageLength: int): (invalid: bool)
    // without a buffer, only length 0 is accepted
    ensures message.None? ==> (invalid <==> messageLength != 0)
    // with a buffer, exactly the lengths it cannot cover are refused (0 and negatives pass)
    ensures message.Some? ==> (invalid <==> |message.value| < messageLength)
  {
    messageLength != 0 && (message.None? || |message.value| < messageLength)
  }

  /** A null `ConfigRequest` is replaced by the default one. */
  function EffectiveConfig(configRequest: Option<ConfigRequest>): ConfigRequest
  {
    if configRequest.Some? then configRequest.value else DefaultConfigRequest
  }

  function ConnectChecks(caller: Caller, binder: Option<Binder>, callback: Option<EventCallback>,
                         configRequest: Option<ConfigRequest>): seq<Check>
  {
    PermissionChecks(caller) +
    [Check(callback.Some?, NullArgument(CallbackArg)),
     Check(binder.Some?, NullArgument(BinderArg)),
     Check(EffectiveConfig(configRequest).passesValidate, ConfigRejected)]
  }

  /** In `disconnect` the ownership check comes before the binder-null check. */
  function DisconnectChecks(uidByClientId: map<int, int>, caller: Caller, clientId: int,
                            binder: Option<Binder>): seq<Check>
  {
    PermissionChecks(caller) +
    [EnforceClientValidity(uidByClientId, caller.uid, clientId),
     Check(binder.Some?, NullArgument(BinderArg))]
  }

  function TerminateSessionChecks(uidByClientId: map<int, int>, caller: Caller, clientId: int): seq<Check>
  {
    PermissionChecks(caller) + [EnforceClientValidity(uidByClientId, caller.uid, clientId)]
  }

  function PublishChecks(uidByClientId: map<int, int>, caller: Caller, clientId: int,
                         publishConfig: Option<PublishConfig>, callback: Option<SessionCallback>): seq<Check>
  {
    PermissionChecks(caller) +
    [Check(callback.Some?, NullArgument(CallbackArg)),
     Check(publishConfig.Some?, NullArgument(PublishConfigArg)),
     Check(publishConfig.Some? && publishConfig.value.passesValidate, ConfigRejected),
     EnforceClientValidity(uidByClientId, caller.uid, clientId)]
  }

  function UpdatePublishChecks(uidByClientId: map<int, int>, caller: Caller, clientId: int,
                               publishConfig: Option<PublishConfig>): seq<Check>
  {
    PermissionChecks(caller) +
    [Check(publishConfig.Some?, NullArgument(PublishConfigArg)),
     Check(publishConfig.Some? && publishConfig.value.passesValidate, ConfigRejected),
     EnforceClientValidity(uidByClientId, caller.uid, clientId)]
  }

  function SubscribeChecks(uidByClientId: map<int, int>, caller: Caller, clientId: int,
                           subscribeConfig: Option<SubscribeConfig>, callback: Option<SessionCallback>): seq<Check>
  {
    PermissionChecks(caller) +
    [Check(callback.Some?, NullArgument(CallbackArg)),
     Check(subscribeConfig.Some?, NullArgument(SubscribeConfigArg)),
     Check(subscribeConfig.Some? && subscribeConfig.value.passesValidate, ConfigRejected),
     EnforceClientValidity(uidByClientId, caller.uid, clientId)]
  }

  function UpdateSubscribeChecks(uidByClientId: map<int, int>, caller: Caller, clientId: int,
                                 subscribeConfig: Option<SubscribeConfig>): seq<Check>
  {
    PermissionChecks(caller) +
    [Check(subscribeConfig.Some?, NullArgument(SubscribeConfigArg)),
     Check(subscribeConfig.Some? && subscribeConfig.value.passesValidate, ConfigRejected),
     EnforceClientValidity(uidByClientId, caller.uid, clientId)]
  }

  /** In `sendMessage` the length check comes before the ownership check. */
  function SendMessageChecks(uidByClientId: map<int, int>, caller: Caller, clientId: int,
                             message: Option<seq<Byte>>, messageLength: int): seq<Check>
  {
    PermissionChecks(caller) +
    [Check(!MessageLengthInvalid(message, messageLength), MessageLengthMismatch),
     EnforceClientValidity(uidByClientId, caller.uid, clientId)]
  }

  /** A failing check that follows only passing ones decides the error. */
  lemma {:induction false} FirstFailureAt(checks: seq<Check>, i: nat)
    requires i < |checks| && !checks[i].passes && AllPass(checks[..i])
    ensures FirstFailure(checks) == Some(checks[i].error)
  {
    if i > 0 {
      assert checks[0] == checks[..i][0];
      assert checks[1..][..i - 1] == checks[..i][1..];
      FirstFailureAt(checks[1..], i - 1);
    }
  }
}

# Wi-Fi NAN service: client registry and gatekeeping

A Dafny model of the client registry and the guards of `WifiNanServiceImpl`, the Binder
entry point of the Wi-Fi Neighbor Awareness Networking (NAN) service. The service hands each
connecting client an integer client id. It remembers which uid connected that id, and which
death recipient watches the client's binder. Every later operation checks the caller's uid
against that record before it forwards the call to the NAN state manager. A client leaves
the registry by calling `disconnect`, or when its process dies and the death recipient fires.

The model has five modules:

- `NanTypes` (`nan_types.dfy`) holds the data. It has opaque handles for binders and
  callbacks, the configuration objects, the errors and the Java exceptions they surface as,
  and the outside calls (`Event`). `Registry` is the counter `mNextClientId` plus the two
  tables `mDeathRecipientsByClientId` and `mUidByClientId`. `Inv` is the registry
  invariant: both tables have the same keys, every key lies in `[1, mNextClientId)`, and
  each recipient is filed under its own id.
- `NanChecks` (`nan_checks.dfy`) holds the guards. Each operation runs a list of checks in
  source order and throws at the first one that fails (`FirstFailure`). The module also
  holds `enforceClientValidity` and the `sendMessage` length guard.
- `NanSpec` (`nan_spec.dfy`) gives every public operation as a pure step: the registry
  before, the inputs, then the registry after, the outside calls made, and the outcome. It
  also defines runs of many calls (`Call`, `Apply`, `Run`).
- `NanService` (`nan_service.dfy`) is the class `WifiNanServiceImpl`. It has the three
  source fields, which its methods update in place, and a ghost `log` of outside calls.
  Each method is proved to take exactly the step `NanSpec` defines for it, and to keep the
  invariant.
- `NanProperties` (`nan_properties.dfy`) proves what holds over any run of calls: issued ids,
  the table invariant, teardown, ownership, and the order of the checks.

The code's inputs from the outside world are parameters:

- the caller's uid and whether it holds the two Wi-Fi permissions (`Caller`);
- whether `linkToDeath` succeeded (`linkSucceeds`);
- whether a configuration object's own `validate()` accepts it (`passesValidate`).

Outside effects are recorded as `Event`s, in order: a successful link, an unlink, the
`onConnectFail` callback, and each call forwarded to the state manager. A null argument is
`None`.

Three behaviours of the code are easy to miss, and each has a lemma of its own:

- `binderDied` (line 130) has no guard. It removes its id and always forwards a disconnect,
  even when `disconnect` has already torn the id down
  (`DeathAfterDisconnectForwardsAgain`). Since `disconnect` unlinks the recorded recipient
  (line 172), this can happen only when `disconnect` was given a binder other than the
  linked one, or when the two calls raced (see "## Left out").
- `disconnect` checks ownership (line 162) before it checks for a null binder (lines
  165-167). A caller that does not own the id gets the ownership error even with a null
  binder (`DisconnectOwnershipBeforeBinder`).
- The `sendMessage` length guard (line 290) rejects a non-zero length when no buffer is
  given, and otherwise exactly when the buffer is shorter than the length. With a buffer
  given, any negative length passes
  (`NegativeMessageLengthPasses`).

## Model

| member | source | states |
|---|---|---|
| NanChecks.FirstFailure | service/java/com/android/server/wifi/nan/WifiNanServiceImpl.java:88-105 | The guards run in sequence and the first failing one throws: the result is None exactly when every check passes; otherwise it is the error of a failing check that only passing checks precede |
| NanChecks.FirstFailureAt | service/java/com/android/server/wifi/nan/WifiNanServiceImpl.java:88-95 | A failing check with only passing checks before it decides which exception is thrown, whatever the later checks say |
| NanChecks.EnforceClientValidity | service/java/com/android/server/wifi/nan/WifiNanServiceImpl.java:324-335 | Looks the id up in the uid table and passes only when the lookup is non-null and equals the caller's uid; this is shown to be the same as the id being a key of the table mapped to the caller's uid. On failure the SecurityException names that uid and id |
| NanChecks.MessageLengthInvalid | service/java/com/android/server/wifi/nan/WifiNanServiceImpl.java:290-293 | With no buffer, every non-zero length is refused and only 0 passes. With a buffer, a length is refused exactly when the buffer is shorter than it, so 0 and every negative length pass |
| NanSpec.Connect | service/java/com/android/server/wifi/nan/WifiNanServiceImpl.java:86-154 | A rejected connect changes nothing and calls nothing. Past validation, connect takes the counter's value and increments the counter. A failed link returns 0, leaves both tables alone and only calls onConnectFail. A successful link records the caller's uid and a recipient for the new id in both tables, leaves every other entry, links, forwards connect with the effective config, and returns the id. The id is fresh, so the tables grow by one. The invariant is kept |
| NanSpec.Disconnect | service/java/com/android/server/wifi/nan/WifiNanServiceImpl.java:157-179 | It completes exactly when all of its checks pass. If so, the caller owned the id and the binder is non-null. Exactly that id leaves both tables, the counter stays, the recorded recipient is unlinked, and disconnect is forwarded. A rejection changes nothing. The invariant is kept |
| NanSpec.BinderDied | service/java/com/android/server/wifi/nan/WifiNanServiceImpl.java:119-132 | The recipient's id leaves both tables, every other entry and the counter stay, the recipient unlinks itself, and disconnect is forwarded unconditionally. The invariant is kept |
| NanSpec.TerminateSession | service/java/com/android/server/wifi/nan/WifiNanServiceImpl.java:182-194 | The registry never changes. It forwards exactly when permissions and ownership hold. A rejection forwards nothing and throws the first failing check's error |
| NanSpec.Publish | service/java/com/android/server/wifi/nan/WifiNanServiceImpl.java:197-218 | The registry never changes. It forwards exactly when permissions hold, the callback and config are non-null, the config validates, and the caller owns the id. Otherwise it throws the first failing check's error and forwards nothing |
| NanSpec.UpdatePublish | service/java/com/android/server/wifi/nan/WifiNanServiceImpl.java:221-238 | Same as publish, without the callback check and with the session id forwarded |
| NanSpec.Subscribe | service/java/com/android/server/wifi/nan/WifiNanServiceImpl.java:241-262 | Same as publish, for subscribe configurations |
| NanSpec.UpdateSubscribe | service/java/com/android/server/wifi/nan/WifiNanServiceImpl.java:265-282 | Same as updatePublish, for subscribe configurations |
| NanSpec.SendMessage | service/java/com/android/server/wifi/nan/WifiNanServiceImpl.java:285-305 | The registry never changes. It forwards the message unchanged exactly when permissions hold, the length guard accepts, and the caller owns the id. Otherwise it forwards nothing |
| NanSpec.Apply | service/java/com/android/server/wifi/nan/WifiNanServiceImpl.java:53-56 | Every operation keeps the invariant and moves the counter forward by at most one. A returned non-zero id is the counter's value before the call. The only key a call can add to either table is that counter value. A rejected call changes nothing |
| NanService.WifiNanServiceImpl.constructor | service/java/com/android/server/wifi/nan/WifiNanServiceImpl.java:53-56 | A new service has counter 1 and two empty tables, and the invariant holds |
| NanService.WifiNanServiceImpl.Connect | service/java/com/android/server/wifi/nan/WifiNanServiceImpl.java:86-154 | Updates the fields in place to NanSpec.Connect's new registry, appends its calls to the log, and keeps the invariant. A returned non-zero id is the old counter value, was not in the uid table before, and now maps to the caller's uid |
| NanService.WifiNanServiceImpl.Disconnect | service/java/com/android/server/wifi/nan/WifiNanServiceImpl.java:157-179 | Updates the fields in place to NanSpec.Disconnect's new registry and keeps the invariant. After a completed call the id is absent from both tables |
| NanService.WifiNanServiceImpl.BinderDied | service/java/com/android/server/wifi/nan/WifiNanServiceImpl.java:121-131 | Updates the fields in place to NanSpec.BinderDied's new registry and keeps the invariant. Afterwards the recipient's id is absent from both tables |
| NanService.WifiNanServiceImpl.TerminateSession | service/java/com/android/server/wifi/nan/WifiNanServiceImpl.java:182-194 | Changes only the log, by exactly NanSpec.TerminateSession's calls, and returns its outcome |
| NanService.WifiNanServiceImpl.Publish | service/java/com/android/server/wifi/nan/WifiNanServiceImpl.java:197-218 | Changes only the log, by exactly NanSpec.Publish's calls, and returns its outcome |
| NanService.WifiNanServiceImpl.UpdatePublish | service/java/com/android/server/wifi/nan/WifiNanServiceImpl.java:221-238 | Changes only the log, by exactly NanSpec.UpdatePublish's calls, and returns its outcome |
| NanService.WifiNanServiceImpl.Subscribe | service/java/com/android/server/wifi/nan/WifiNanServiceImpl.java:241-262 | Changes only the log, by exactly NanSpec.Subscribe's calls, and returns its outcome |
| NanService.WifiNanServiceImpl.UpdateSubscribe | service/java/com/android/server/wifi/nan/WifiNanServiceImpl.java:265-282 | Changes only the log, by exactly NanSpec.UpdateSubscribe's calls, and returns its outcome |
| NanService.WifiNanServiceImpl.SendMessage | service/java/com/android/server/wifi/nan/WifiNanServiceImpl.java:285-305 | Changes only the log, by exactly NanSpec.SendMessage's calls, and returns its outcome |
| NanProperties.RunPreservesInv | service/java/com/android/server/wifi/nan/WifiNanServiceImpl.java:121-179 | Every sequence of calls keeps both tables on the same key set, with every key in [1, mNextClientId) |
| NanProperties.RunIssuesIncreasingIds | service/java/com/android/server/wifi/nan/WifiNanServiceImpl.java:109-112 | Over any sequence of calls, the ids connect returns are strictly increasing, and therefore distinct. Each lies between the counter's values before and after the run, and the counter never decreases |
| NanProperties.IssuedIdsArePositive | service/java/com/android/server/wifi/nan/WifiNanServiceImpl.java:55 | From a fresh service, no id handed out is below 1 |
| NanProperties.FirstConnectIssuesOne | service/java/com/android/server/wifi/nan/WifiNanServiceImpl.java:55 | The first connect of a fresh service that passes validation and links returns id 1 |
| NanProperties.RetiredIdStaysRetired | service/java/com/android/server/wifi/nan/WifiNanServiceImpl.java:109-149 | An id below the counter that is in neither table stays out of both tables after any further calls |
| NanProperties.UnownedIdRejected | service/java/com/android/server/wifi/nan/WifiNanServiceImpl.java:324-335 | Every operation checked by enforceClientValidity rejects a call on an id the caller does not own, whether the id is unregistered or recorded for another uid. It then leaves the registry unchanged and calls nothing |
| NanProperties.TornDownIdRejectedForever | service/java/com/android/server/wifi/nan/WifiNanServiceImpl.java:169-178 | After a completed disconnect of an id, or its recipient firing, every later operation on that id is rejected, after any calls in between, and the ownership check on that id fails for every uid |
| NanProperties.OwnershipIsExclusive | service/java/com/android/server/wifi/nan/WifiNanServiceImpl.java:330 | At most one uid passes the ownership check for a client id |
| NanProperties.ApplyKeepsOwner | service/java/com/android/server/wifi/nan/WifiNanServiceImpl.java:121-179 | A single call never changes the uid recorded for an id that is still registered after it |
| NanProperties.RunKeepsOwner | service/java/com/android/server/wifi/nan/WifiNanServiceImpl.java:121-179 | Over any sequence of calls, an id registered at both ends keeps the uid recorded for it: the only writes to the uid table are the insertion of a fresh id and removals, and a removed id never returns |
| NanProperties.ApplyFollowsChecks | service/java/com/android/server/wifi/nan/WifiNanServiceImpl.java:86-305 | Every public operation opens with the two permission checks. It throws exactly when one of its checks fails, and then throws the first failing check's error. The ownership check is the last check, except in disconnect, where it is third |
| NanProperties.AccessPermissionCheckedFirst | service/java/com/android/server/wifi/nan/WifiNanServiceImpl.java:337-339 | Without ACCESS_WIFI_STATE every public operation throws that permission error and changes and calls nothing |
| NanProperties.ChangePermissionCheckedSecond | service/java/com/android/server/wifi/nan/WifiNanServiceImpl.java:341-343 | With ACCESS_WIFI_STATE but without CHANGE_WIFI_STATE every public operation throws that permission error and changes and calls nothing |
| NanProperties.ConnectNullArgumentsRejected | service/java/com/android/server/wifi/nan/WifiNanServiceImpl.java:90-95 | A null callback or binder makes connect throw IllegalArgument before the counter or tables change. The callback is checked first |
| NanProperties.ConnectDefaultsConfig | service/java/com/android/server/wifi/nan/WifiNanServiceImpl.java:97-104 | A connect with a null ConfigRequest goes ahead and forwards the default configuration |
| NanProperties.PublishNullArgumentsRejected | service/java/com/android/server/wifi/nan/WifiNanServiceImpl.java:202-207 | In publish a null callback throws IllegalArgumentException for the callback, else a null configuration throws it for the configuration, before validation and ownership |
| NanProperties.SubscribeNullArgumentsRejected | service/java/com/android/server/wifi/nan/WifiNanServiceImpl.java:246-251 | In subscribe a null callback throws IllegalArgumentException for the callback, else a null configuration throws it for the configuration, before validation and ownership |
| NanProperties.UpdatePublishNullConfigRejected | service/java/com/android/server/wifi/nan/WifiNanServiceImpl.java:225-227 | In updatePublish a null configuration is rejected as a null argument before ownership is checked |
| NanProperties.UpdateSubscribeNullConfigRejected | service/java/com/android/server/wifi/nan/WifiNanServiceImpl.java:269-271 | In updateSubscribe a null configuration is rejected as a null argument before ownership is checked |
| NanProperties.DisconnectOwnershipBeforeBinder | service/java/com/android/server/wifi/nan/WifiNanServiceImpl.java:161-167 | In disconnect a caller that does not own the id gets the ownership error, even when the binder is null |
| NanProperties.SendMessageLengthCheckedBeforeOwnership | service/java/com/android/server/wifi/nan/WifiNanServiceImpl.java:290-296 | A non-zero length with no buffer or a shorter buffer throws IllegalArgumentException before ownership is checked. The registry is unchanged and nothing is forwarded |
| NanProperties.NegativeMessageLengthPasses | service/java/com/android/server/wifi/nan/WifiNanServiceImpl.java:290 | The length guard accepts a negative length whenever a buffer is given |
| NanProperties.DeathAfterDisconnectForwardsAgain | service/java/com/android/server/wifi/nan/WifiNanServiceImpl.java:130 | If the death recipient runs after disconnect has torn its id down, it forwards a second disconnect for that id and changes nothing else |
| NanProperties.ForeignDisconnectThenDeathScenario | service/java/com/android/server/wifi/nan/WifiNanServiceImpl.java:86-218 | Client A connects and gets id 1. Another uid's disconnect of id 1 is rejected and changes nothing. A's binder then dies, removing id 1. After that, A's own publish on id 1 is rejected |
| NanProperties.TwoConnectsScenario | service/java/com/android/server/wifi/nan/WifiNanServiceImpl.java:109-179 | Two connects get ids 1 and 2. Disconnecting id 1 removes it and leaves id 2 registered to its caller |

## Left out

- Binder IPC is not modelled. The outcome of `linkToDeath` is an input. `unlinkToDeath` is
  recorded as an event, not executed. A `RemoteException` from `onConnectFail` is swallowed
  by the code and not modelled.
- NanSpec.BinderDied can be applied to any death recipient value, not only to one still
  linked. This allows more than the Binder runtime does, so what is proved over runs also
  holds for the real firings. TornDownIdRejectedForever requires only that the recipient's
  id was already issued, which holds for every recipient `connect` creates.
- Threads, `synchronized (mLock)` and the race between `disconnect` and `binderDied` are
  not modelled. Each public method is one atomic step.
- Permission enforcement is two booleans of the caller, checked first in source order.
  The framework's permission lookup is not modelled.
- `getMockableCallingUid` is the caller's uid, passed as a parameter.
- The state manager is only the list of calls forwarded to it. What it does with them is
  not part of this model.
- `ConfigRequest.validate`, `PublishConfig.validate` and `SubscribeConfig.validate` are not
  part of this model. Each object carries the outcome of its own validation. The default
  `ConfigRequest` is taken to pass it. The exception `validate()` throws is unknown here, so
  it is kept as its own kind.
- Integer overflow of `mNextClientId` is not modelled: ids are unbounded integers, because
  the code does not handle wrap-around.
- `start()` (lines 75-83) starts a handler thread and then starts the state manager on that
  thread's looper. Neither the thread nor the state manager is part of this model, so
  `start()` is left out.
- `dump()` (lines 307-322) prints the counter and both tables behind the DUMP permission,
  then forwards to the state manager's own `dump`. It does not change the registry, so it
  is left out, as is logging.

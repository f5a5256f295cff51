/** Values shared by the Wi-Fi NAN service model: opaque handles for the objects that cross
    the Binder interface, the configuration objects, the errors the service throws, the calls
    it makes on its collaborators, and the registry state (client-id counter and the two
    tables keyed by client id). */
module NanTypes {

  datatype Option<T> = None | Some(value: T)

  /** A Java `byte`. Only the length of a message buffer matters to the service. */
  newtype Byte = b: int | -128 <= b < 128

  /** Opaque handles: the client's `IBinder` and its two kinds of callback object. */
  datatype Binder = Binder(handle: int)
  datatype EventCallback = EventCallback(handle: int)
  datatype SessionCallback = SessionCallback(handle: int)

  /** Configuration objects. Their settings are not interpreted by the service;
      `passesValidate` stands for the outcome of the object's own `validate()`. */
  datatype ConfigRequest = ConfigRequest(settings: seq<int>, passesValidate: bool)
  datatype PublishConfig = PublishConfig(settings: seq<int>, passesValidate: bool)
  datatype SubscribeConfig = SubscribeConfig(settings: seq<int>, passesValidate: bool)

  /** What `new ConfigRequest.Builder().build()` yields; taken to pass `validate()`. */
  const DefaultConfigRequest: ConfigRequest := ConfigRequest([], true)

  /** The identity of the Binder caller, resolved once per call, and whether it holds the
      two permissions every operation enforces first. */
  datatype Caller = Caller(uid: int, hasAccessWifiState: bool, hasChangeWifiState: bool)

  /** The anonymous death recipient created by `connect`: it captures the client id it
      was created for and the binder it is linked to. */
  datatype DeathRecipient = DeathRecipient(clientId: int, binder: Binder)

  datatype Permission = AccessWifiState | ChangeWifiState

  datatype Argument = CallbackArg | BinderArg | PublishConfigArg | SubscribeConfigArg

  /** Why a call is rejected. */
  datatype Error =
    | PermissionDenied(permission: Permission)
    | NullArgument(argument: Argument)
    | ConfigRejected
    | MessageLengthMismatch
    | InvalidClient(uid: int, clientId: int)

  datatype JavaException = SecurityException | IllegalArgumentException | ThrownByValidate

  /** The Java exception each rejection surfaces as. */
  function ExceptionOf(e: Error): JavaException
  {
    match e
    case PermissionDenied(_) => SecurityException
    case InvalidClient(_, _) => SecurityException
    case NullArgument(_) => IllegalArgumentException
    case MessageLengthMismatch => IllegalArgumentException
    case ConfigRejected => ThrownByValidate
  }

  datatype ConnectFailReason = ReasonOther

  /** The calls the service makes on things outside it: the binder, the client's event
      callback and the state manager (the `Sm` events). */
  datatype Event =
    | LinkToDeath(binder: Binder, recipient: DeathRecipient)
    | UnlinkToDeath(binder: Binder, recipient: DeathRecipient)
    | OnConnectFail(callback: EventCallback, reason: ConnectFailReason)
    | SmConnect(clientId: int, callback: EventCallback, config: ConfigRequest)
    | SmDisconnect(clientId: int)
    | SmTerminateSession(clientId: int, sessionId: int)
    | SmPublish(clientId: int, publishConfig: PublishConfig, sessionCallback: SessionCallback)
    | SmUpdatePublish(clientId: int, sessionId: int, publishConfig: PublishConfig)
    | SmSubscribe(clientId: int, subscribeConfig: SubscribeConfig, sessionCallback: SessionCallback)
    | SmUpdateSubscribe(clientId: int, sessionId: int, subscribeConfig: SubscribeConfig)
    | SmSendMessage(clientId: int, sessionId: int, peerId: int, message: Option<seq<Byte>>,
                    messageLength: int, messageId: int)

  /** How a call ends: a void call returns, `connect` returns an id (0 for a failed link),
      or the call throws. */
  datatype Outcome = Completed | ReturnedId(clientId: int) | Threw(error: Error)

  /** The service's state: `mNextClientId`, `mDeathRecipientsByClientId`, `mUidByClientId`. */
  datatype Registry = Registry(nextClientId: int,
                               deathRecipientsByClientId: map<int, DeathRecipient>,
                               uidByClientId: map<int, int>)

  /** The state of a freshly constructed service. */
  const Initial: Registry := Registry(1, map[], map[])

  /** The registry invariant: both tables hold the same ids, every id was issued by the
      counter, and each death recipient is filed under the id it was created for. */
  predicate Inv(r: Registry)
  {
    && r.nextClientId >= 1
    && r.deathRecipientsByClientId.Keys == r.uidByClientId.Keys
    && (forall id :: id in r.uidByClientId ==> 1 <= id < r.nextClientId)
    && (forall id :: id in r.deathRecipientsByClientId ==> r.deathRecipientsByClientId[id].clientId == id)
  }

  /** One atomic step of the service: the state after it, what it called outside, how it ended. */
  datatype Step = Step(reg: Registry, events: seq<Event>, outcome: Outcome)

  /** `a` and `b` agree on every key other than `id`. */
  ghost predicate SameOutside<V>(a: map<int, V>, b: map<int, V>, id: int)
  {
    forall k :: k != id ==> (k in a <==> k in b) && (k in a && k in b ==> a[k] == b[k])
  }
}

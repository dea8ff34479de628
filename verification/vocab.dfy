/** What the core hears and what it asks for: events, actions, and the records
    both of them carry. */
module Vocab {
  import opened Wrappers

  type LinkId = nat
  type TransportId = nat
  type DialToken = nat
  type EffectToken = nat
  type TransferId = nat
  type Cap = string

  /** A static public key, its fingerprint and its device id. The hashes that
      derive the last two are taken as injective, so one number stands for all
      three. */
  type DeviceId = nat

  /** The two clocks a call is given. */
  datatype Now = Now(mono: nat, wall: nat)

  const MAX_SKEW_MS: nat := 60_000
  const BULK_DIAL_WAIT_MS: nat := 30_000
  const MAX_SEEN: nat := 256

  datatype Config = Config(
    name: string,
    platform: string,
    pairingWindow: nat,
    acceptPairRequests: bool,
    pairCooldown: nat,
    pairDeniedCooldown: nat,
    reconnectEvery: nat,
    handshakeTimeout: nat,
    dialTimeout: nat)

  datatype ErrorCode =
    | CapNotNegotiated | UnknownType | BadBody | NotAllowed
    | NotPaired | TooLarge | Internal

  function CodeName(c: ErrorCode): string {
    match c
    case CapNotNegotiated => "cap_not_negotiated"
    case UnknownType => "unknown_type"
    case BadBody => "bad_body"
    case NotAllowed => "not_allowed"
    case NotPaired => "not_paired"
    case TooLarge => "too_large"
    case Internal => "internal"
  }

  // ------------------------------------------------------------ the transports

  datatype Bulk = NoBulk | SideChannel

  datatype LinkAttrs = LinkAttrs(
    transport: TransportId, maxMessage: nat, reliable: bool, ordered: bool, bulk: Bulk)

  predicate SupportsStatefulCipher(a: LinkAttrs) {
    a.reliable && a.ordered
  }

  datatype Route = Route(transport: TransportId, addr: string)

  /** At most one address per transport. */
  type Routes = map<TransportId, string>

  // ------------------------------------------------------------------ messages

  datatype Hello = Hello(ts: nat, name: string, platform: string, capsOut: set<Cap>, capsIn: set<Cap>)

  datatype Envelope = Envelope(id: nat, re: Option<nat>, cap: Cap, ty: string, body: string)

  datatype FrameKind = PairHandshake | SessionHandshake | Transport

  /** What decryption leaves behind. */
  datatype Plain = Undecodable | Message(env: Envelope)

  /** What the cryptography says about one frame body. Each field answers one
      question the core puts to it:
      `opener`: the key `session_identify` reads out of a session opener;
      `read`: whether the handshake accepts the body;
      `hello`: the decoded handshake payload;
      `write`: whether the next handshake message can be produced;
      `key`, `hash`: the peer key and handshake hash once complete;
      `plain`: the plaintext of a transport frame. */
  datatype Body = Body(
    opener: Option<DeviceId>, read: bool, hello: Option<Hello>, write: bool,
    key: Option<DeviceId>, hash: nat, plain: Option<Plain>)

  datatype Frame = Malformed | Frame(kind: FrameKind, body: Body)

  // ------------------------------------------------------------------- records

  /** Both are derived from a handshake hash, by functions taken as ideal. */
  datatype Psk = SessionPsk(hash: nat)
  datatype Digits = Sas(hash: nat)

  /** `key` and `psk` are `None` when the stored bytes have the wrong length. */
  datatype PeerRecord = PeerRecord(
    deviceId: DeviceId, key: Option<DeviceId>, name: string, platform: string,
    psk: Option<Psk>, greatestSeen: nat, capsOut: set<Cap>, capsIn: set<Cap>)

  // ------------------------------------------------------------------- plugins

  datatype PluginNote =
    | PluginSays(peer: DeviceId, cap: Cap, ty: string, body: string)
    | PluginError(errorPeer: Option<DeviceId>, code: ErrorCode)

  datatype PendingSend = PendingSend(peer: DeviceId, cap: Cap, ty: string, body: string, re: Option<nat>)

  datatype BulkRequest =
    | Listen(peer: DeviceId, transfer: TransferId, offeredAs: nat, expectBytes: nat)
    | Send(peer: DeviceId, transfer: TransferId, endpoint: string)
    | Cancel(transfer: TransferId)

  /** Why a plugin is called. `idx` is its place in registration order. */
  datatype Call =
    | Connected(peer: DeviceId)
    | Disconnected(peer: DeviceId)
    | Received(idx: nat, peer: DeviceId, env: Envelope, bulk: Option<Bulk>)
    | Asked(idx: nat, peer: DeviceId, ty: string, body: string, bulk: Option<Bulk>)
    | EffectAnswer(idx: nat, token: EffectToken, result: string)
    | BulkReady(idx: nat, transfer: TransferId, endpoint: string)
    | BulkOver(idx: nat, transfer: TransferId, ok: bool, detail: string)
    | Woken

  /** Everything one call accumulated in its context. `minted` counts the
      transfer ids it took; `wakeIn` is the shortest wake it asked for;
      `error` is what a message or command handler returned. */
  datatype Requests = Requests(
    notes: seq<PluginNote>, effects: seq<string>, bulk: seq<BulkRequest>,
    sends: seq<PendingSend>, wakeIn: Option<nat>, minted: nat, error: Option<ErrorCode>)

  /** The n-th call of a run. */
  datatype NthCall = NthCall(n: nat, call: Call)

  /** What encrypting an envelope gives: nothing, or a frame of that length. */
  datatype Sealing = Unsealable | Length(bytes: nat)

  /** The parts of the world a core is built with. `store` holds the restored
      records; `plugin` says what the plugins do at each call of a run, so they may
      keep state, and a call it does not name asks for nothing; `sealed` is what becomes of an envelope,
      and one it does not name does not even encode; `handler` is the first
      plugin whose manifest names a capability. */
  datatype Env = Env(
    config: Config, store: map<DeviceId, PeerRecord>, me: DeviceId, capsOut: set<Cap>, capsIn: set<Cap>,
    handler: map<Cap, nat>, plugin: map<NthCall, Requests>, sealed: map<Envelope, Sealing>)

  // ---------------------------------------------------------- events and actions

  datatype Command =
    | RequestPairing(route: Route)
    | ConfirmPairing(accept: bool)
    | SetPeerAddress(peer: DeviceId, route: Route)
    | Connect(peer: DeviceId)
    | ReconsiderRoutes
    | Disconnect(peer: DeviceId)
    | Revoke(peer: DeviceId)
    | PluginCommand(peer: DeviceId, cap: Cap, ty: string, body: string)

  /** `speaks` says whether the first handshake message can be produced. */
  datatype Event =
    | LinkUp(link: LinkId, attrs: LinkAttrs, answers: Option<DialToken>, speaks: bool)
    | LinkRecv(link: LinkId, frame: Frame)
    | LinkDown(link: LinkId)
    | DialFailed(dial: DialToken, reason: string)
    | Discovered(transport: TransportId, who: Option<DeviceId>, name: string, addr: string, busy: bool)
    | Undiscovered(transport: TransportId, addr: string)
    | Tick
    | BulkListening(transfer: TransferId, endpoint: string)
    | BulkStarted(transfer: TransferId)
    | BulkFinished(transfer: TransferId, ok: bool, detail: string)
    | Local(cmd: Command)
    | EffectDone(token: EffectToken, result: string)

  /** Why a pairing ended without a peer. */
  datatype PairingEnd =
    | NotAccepting | AlreadyConfirming | AlreadyPairing | TooSoon
    | DialRefused(reason: string) | HandshakeFailed | CodesDiffer | NobodyConfirmed

  /** Why a peer could not be reached. */
  datatype Why = HostSays(reason: string) | CutOff | NoAnswer | ClosedEarly | Nowhere

  datatype UiEvent =
    | PairingSas(name: string, who: DeviceId, sas: Digits)
    | PairingComplete(peer: DeviceId, name: string)
    | Revoked(peer: DeviceId)
    | PairingFailed(end: PairingEnd)
    | Offered(who: DeviceId, name: string, route: Route, busy: bool)
    | Withdrawn(who: DeviceId)
    | PeerReachable(peer: DeviceId, name: string)
    | PeerUnreachable(peer: DeviceId)
    | FromPlugin(peer: DeviceId, cap: Cap, ty: string, body: string)
    | Error(about: Option<DeviceId>, code: ErrorCode)

  datatype CloseReason = Closed | Protocol(code: ErrorCode)

  datatype BulkKey = BulkKey(hash: nat, offerer: DeviceId, number: nat)

  /** What a frame on the wire says. `ours` notes that the core itself, not a
      plugin, asked for the message; it does not travel. */
  datatype Wire =
    | PairOpener
    | PairMessage(hello: Hello)
    | SessionMessage(hello: Hello)
    | Sealed(env: Envelope, ours: bool)

  /** `after` notes which dial came to nothing, when this one carries its attempt
      on; the host is not told. */
  datatype Action =
    | Dial(route: Route, dial: DialToken, after: Option<DialToken>)
    | LinkSend(link: LinkId, msg: Wire)
    | Close(link: LinkId, reason: CloseReason)
    | Effect(token: EffectToken, effect: string)
    | Persist(who: DeviceId, value: Option<PeerRecord>)
    | BulkListen(transfer: TransferId, offeredAs: nat, key: BulkKey, expectBytes: nat)
    | BulkSend(transfer: TransferId, endpoint: string, key: BulkKey)
    | BulkCancel(transfer: TransferId)
    | Ui(event: UiEvent)

  /** One action and the clocks of the call that pushed it. */
  datatype Entry = Entry(now: Now, action: Action)
}

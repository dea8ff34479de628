/** The core as functions of its state. Each function is one routine of the
    state machine; `Handle` is the single entry point. The class in core.dfy
    does the same work in place and is proved equal to these. */
module Protocol {
  import opened Wrappers
  import opened Orders
  import opened Vocab
  import opened History

  // ----------------------------------------------------------------- the state

  datatype Mode = Pair | Session

  /** A Noise handshake: `done` of its messages have been read or written. */
  datatype Handshake = Handshake(mode: Mode, initiator: bool, done: nat)

  /** XX has three messages, IKpsk2 has two. */
  function Messages(m: Mode): nat {
    if m == Pair then 3 else 2
  }

  predicate Complete(h: Handshake) {
    h.done >= Messages(h.mode)
  }

  /** Messages alternate and the initiator writes the first. */
  predicate MyTurn(h: Handshake) {
    !Complete(h) && (h.done % 2 == 0) == h.initiator
  }

  function Advance(h: Handshake): Handshake {
    h.(done := h.done + 1)
  }

  /** A dial in flight: target, routes not yet tried, whether a person asked.
      `latest` notes the attempt's last dial, for `Action.Dial` to name. */
  datatype PeerDial = PeerDial(peer: DeviceId, routes: seq<Route>, byHand: bool, latest: DialToken)

  datatype TimedDial = TimedDial(deadline: nat, dial: PeerDial)

  datatype Link =
    | Pending(attrs: LinkAttrs, deadline: nat)
    | Handshaking(hs: Handshake, attrs: LinkAttrs, deadline: nat, aim: Option<DeviceId>,
                  via: Option<Route>, fallback: Option<PeerDial>)
    | Up(peer: DeviceId, hash: nat, bulk: Bulk, maxMessage: nat, lastRecv: nat,
         transport: TransportId, canSend: set<Cap>, canRecv: set<Cap>)

  /** A finished pairing handshake waiting on a human. */
  datatype Awaiting = Awaiting(link: LinkId, record: PeerRecord, sas: Digits, via: Option<Route>)

  datatype Window = Window(deadline: nat, awaiting: Option<Awaiting>)

  datatype Sighting = Sighting(routes: Routes, name: string, busy: bool)

  /** Where peers and strangers were seen: last-known addresses of peers,
      every sighting, and why the last attempt to reach a peer failed. */
  datatype Atlas = Atlas(addrs: map<DeviceId, Routes>, seen: map<DeviceId, Sighting>, trouble: map<DeviceId, Why>)

  /** Dials for pairing, dials to peers, and the last token given out. */
  datatype Dials = Dials(pair: map<DialToken, Route>, peer: map<DialToken, TimedDial>, last: DialToken)

  /** The plugins' affairs: who is owed which answer, transfers a host is
      listening for, the counters, the next wake, and the calls so far. */
  datatype Desk = Desk(
    effectOwner: map<EffectToken, nat>, bulkOwner: map<TransferId, nat>, bulkWait: map<TransferId, nat>,
    nextToken: nat, nextTransfer: nat, nextMsg: nat, wake: Option<nat>, calls: nat)

  /** Everything the core holds, with the clocks of the call in progress and
      `log`, every action of the run. */
  datatype State = State(
    env: Env,
    peers: map<DeviceId, PeerRecord>,
    links: map<LinkId, Link>,
    atlas: Atlas,
    pairing: Option<Window>,
    quietUntil: nat,
    dials: Dials,
    reconnectAt: Option<nat>,
    desk: Desk,
    now: Now,
    log: seq<Entry>)

  /** Peers restored by the host; a record with a malformed key is dropped. */
  function Build(env: Env): State {
    State(env, map id | id in env.store && env.store[id].key == Some(id) :: env.store[id], map[],
          Atlas(map[], map[], map[]), None, 0, Dials(map[], map[], 0), None,
          Desk(map[], map[], map[], 0, 0, 0, None, 0), Now(0, 0), [])
  }

  /** What the run so far has shown. */
  ghost function Shown(s: State): Digest {
    Observe(s.env, s.log)
  }

  function Push(s: State, a: Action): (r: State)
    ensures Shown(r) == Note(s.env, Shown(s), Entry(s.now, a))
  {
    var r := s.(log := s.log + [Entry(s.now, a)]);
    assert r.log[..|r.log| - 1] == s.log;
    r
  }

  function Tell(s: State, e: UiEvent): State {
    Push(s, Ui(e))
  }

  /** An error on the screen changes nothing else. */
  function Complain(s: State, about: Option<DeviceId>, code: ErrorCode): (after: State)
    ensures after == s.(log := after.log) && Shown(after) == Shown(s)
  {
    Tell(s, Error(about, code))
  }

  // ------------------------------------------------------------------- queries

  predicate UpTo(links: map<LinkId, Link>, l: LinkId, peer: DeviceId) {
    l in links && links[l].Up? && links[l].peer == peer
  }

  predicate Online(links: map<LinkId, Link>, peer: DeviceId) {
    exists l :: l in links && UpTo(links, l, peer)
  }

  /** Whether `b` is at least as good a way out as `a`: heard from more
      recently, else on a better transport, else newer. */
  predicate NoBetter(links: map<LinkId, Link>, a: LinkId, b: LinkId) {
    && a in links && links[a].Up?
    && b in links && links[b].Up?
    && if links[a].lastRecv != links[b].lastRecv then links[a].lastRecv < links[b].lastRecv
       else if links[a].transport != links[b].transport then links[a].transport > links[b].transport
       else a <= b
  }

  predicate Best(links: map<LinkId, Link>, peer: DeviceId, b: LinkId) {
    UpTo(links, b, peer) && forall l :: l in links && UpTo(links, l, peer) ==> NoBetter(links, l, b)
  }

  lemma NoBetterChain(links: map<LinkId, Link>, a: LinkId, b: LinkId, c: LinkId)
    requires NoBetter(links, a, b) && NoBetter(links, b, c)
    ensures NoBetter(links, a, c)
  {
  }

  /** Among any sessions one is at least as good as every other. */
  lemma {:induction false} BestAmong(links: map<LinkId, Link>, peer: DeviceId, among: set<LinkId>) returns (b: LinkId)
    requires among != {} && forall l :: l in among ==> UpTo(links, l, peer)
    ensures b in among && forall l :: l in among ==> NoBetter(links, l, b)
    decreases among
  {
    var x :| x in among;
    b := x;
    if among != {x} {
      var y := BestAmong(links, peer, among - {x});
      if NoBetter(links, x, y) {
        b := y;
      } else {
        forall l | l in among - {x} ensures NoBetter(links, l, x) { NoBetterChain(links, l, y, x); }
      }
      forall l | l in among ensures NoBetter(links, l, b) { assert l == x || l in among - {x}; }
    }
  }

  lemma BestExists(links: map<LinkId, Link>, peer: DeviceId)
    requires Online(links, peer)
    ensures exists b :: b in links && Best(links, peer, b)
  {
    var among := set l | l in links && UpTo(links, l, peer);
    var l :| l in links && UpTo(links, l, peer);
    assert l in among;
    var b := BestAmong(links, peer, among);
    assert Best(links, peer, b);
  }

  /** The link a message to this peer takes. */
  function BestLink(links: map<LinkId, Link>, peer: DeviceId): (best: Option<LinkId>)
    ensures best.Some? ==> UpTo(links, best.value, peer)
    ensures best.Some? <==> Online(links, peer)
  {
    if Online(links, peer) then
      BestExists(links, peer);
      var b :| b in links && Best(links, peer, b);
      Some(b)
    else None
  }

  function BulkSupport(links: map<LinkId, Link>, peer: DeviceId): Option<Bulk> {
    if exists l :: l in links && UpTo(links, l, peer) && links[l].bulk == SideChannel then Some(SideChannel)
    else if exists l :: l in links && UpTo(links, l, peer) then Some(NoBulk)
    else None
  }

  datatype PeerState = Unreachable | Connecting | Reachable

  /** What the first link that concerns this peer says. */
  function FirstWord(links: map<LinkId, Link>, peer: DeviceId, ids: seq<LinkId>): (w: Option<PeerState>)
    requires forall l :: l in ids ==> l in links
    ensures w != Some(Unreachable)
    ensures w == Some(Reachable) ==> Online(links, peer)
    ensures w.None? ==> forall l :: l in ids ==> !UpTo(links, l, peer)
  {
    if ids == [] then None else
      var k := links[ids[0]];
      if k.Up? && k.peer == peer then Some(Reachable)
      else if k.Handshaking? && k.aim == Some(peer) then Some(Connecting)
      else FirstWord(links, peer, ids[1..])
  }

  predicate Dialling(s: State, peer: DeviceId) {
    exists d :: d in s.dials.peer && s.dials.peer[d].dial.peer == peer
  }

  function PeerStateOf(s: State, peer: DeviceId): (p: PeerState)
    ensures p.Reachable? ==> Online(s.links, peer)
    ensures p.Unreachable? ==> !Online(s.links, peer)
  {
    match FirstWord(s.links, peer, Ascending(s.links.Keys))
    case Some(w) => w
    case None => if Dialling(s, peer) then Connecting else Unreachable
  }

  function NameOf(s: State, peer: DeviceId): string {
    if peer in s.peers then s.peers[peer].name else ""
  }

  /** The machine behind a fingerprint is paired. */
  predicate Paired(s: State, who: DeviceId) {
    exists id :: id in s.peers && s.peers[id].key == Some(who)
  }

  function RouteList(r: Routes): seq<Route> {
    var ts := Ascending(r.Keys);
    seq(|ts|, i requires 0 <= i < |ts| => Route(ts[i], r[ts[i]]))
  }

  function BetterThan(routes: seq<Route>, t: TransportId): seq<Route> {
    if routes == [] then []
    else if routes[0].transport < t then [routes[0]] + BetterThan(routes[1..], t)
    else BetterThan(routes[1..], t)
  }

  function WhyNotPair(s: State): Option<PairingEnd> {
    if !s.env.config.acceptPairRequests then Some(NotAccepting)
    else if s.pairing.Some? && s.pairing.value.awaiting.Some? then Some(AlreadyConfirming)
    else if s.pairing.Some? then Some(AlreadyPairing)
    else if s.now.mono < s.quietUntil then Some(TooSoon)
    else None
  }

  function OurHello(s: State): Hello {
    Hello(s.now.wall, s.env.config.name, s.env.config.platform, s.env.capsOut, s.env.capsIn)
  }

  function HandlerOf(s: State, cap: Cap): Option<nat> {
    if cap in s.env.handler then Some(s.env.handler[cap]) else None
  }

  function Min(a: Option<nat>, b: nat): Option<nat> {
    if a.Some? && a.value < b then a else Some(b)
  }

  // ----------------------------------------------------------------- footprints

  /** Only somebody online was announced reachable, only somebody offline gone. */
  ghost predicate Truthful(links: map<LinkId, Link>, a: Digest, b: Digest) {
    && (forall p :: p in b.reach && p !in a.reach ==> Online(links, p))
    && (forall p :: p in a.reach && p !in b.reach ==> !Online(links, p))
  }

  /** A session that may carry this. */
  predicate Carries(links: map<LinkId, Link>, x: Saying) {
    x.link in links && links[x.link].Up? && x.cap in links[x.link].canSend
  }

  /** Whatever was said in between was said on a session that may carry it. */
  ghost predicate Talks(links: map<LinkId, Link>, a: Speech, b: Speech) {
    b.candid == a.candid && forall x :: x in b.said && x !in a.said ==> Carries(links, x)
  }

  /** A plugin call and everything it may ask for: what `Talk` says, and no
      error from the core. */
  ghost predicate Calm(s: State, r: State) {
    Talk(s, r) && Shown(r).speech.errs == Shown(s).speech.errs
  }

  /** Messages and plugin calls: the tables of links, peers, dials and pairings
      stay, and so does all that was shown of them. */
  ghost predicate Talk(s: State, r: State) {
    && r == s.(desk := r.desk, log := r.log)
    && Shown(r) == Shown(s).(reach := Shown(r).reach, speech := Shown(r).speech)
    && Truthful(s.links, Shown(s), Shown(r))
    && Talks(s.links, Shown(s).speech, Shown(r).speech)
  }

  /** Dialling: only the dial table, what is known of failures, and whether a
      person is waiting change. */
  ghost predicate Walk(s: State, r: State) {
    && r == s.(dials := r.dials, atlas := s.atlas.(trouble := r.atlas.trouble), links := r.links, log := r.log)
    && r.dials.pair == s.dials.pair
    && Alike(s.links, r.links)
    && Shown(r) == Shown(s).(reach := Shown(r).reach, march := Shown(r).march)
    && Truthful(s.links, Shown(s), Shown(r))
  }

  /** The same links, but for who is waiting on the fallback routes. */
  ghost predicate Alike(a: map<LinkId, Link>, b: map<LinkId, Link>) {
    && a.Keys == b.Keys
    && forall l :: l in a ==>
         b[l] == a[l] || (a[l].Handshaking? && a[l].fallback.Some? && b[l].Handshaking?
                          && b[l] == a[l].(fallback := b[l].fallback))
  }

  /** Nothing that concerns trust or pairing changed, nor was any of it shown. */
  ghost predicate Steady(s: State, r: State) {
    && r.env == s.env && r.peers == s.peers && r.now == s.now
    && r.pairing == s.pairing && r.quietUntil == s.quietUntil && r.dials.pair == s.dials.pair
    && Shown(r).trust == Shown(s).trust && Shown(r).prompts == Shown(s).prompts
    && Shown(r).speech.errs == Shown(s).speech.errs
  }

  /** No dial was made, answered or dropped. */
  ghost predicate SameDials(s: State, r: State) {
    r.dials == s.dials && Shown(r).march == Shown(s).march
  }

  /** Exactly the peers with a session are announced reachable. */
  ghost predicate Mirrors(links: map<LinkId, Link>, reach: set<DeviceId>) {
    forall p :: p in reach <==> Online(links, p)
  }

  /** An announced set that was right stays right. */
  ghost predicate KeepsMirror(s: State, r: State) {
    Mirrors(s.links, Shown(s).reach) ==> Mirrors(r.links, Shown(r).reach)
  }

  lemma OnlineAfterDrop(links: map<LinkId, Link>, l: LinkId)
    ensures forall p :: Online(links, p) <==> Online(links - {l}, p) || UpTo(links, l, p)
  {
    var out := links - {l};
    forall p ensures Online(links, p) <==> Online(out, p) || UpTo(links, l, p) {
      if Online(out, p) {
        var k :| k in out && UpTo(out, k, p);
        assert UpTo(links, k, p);
      }
      if Online(links, p) && !UpTo(links, l, p) {
        var k :| k in links && UpTo(links, k, p);
        assert UpTo(out, k, p);
      }
    }
  }

  lemma OnlineAfterPut(links: map<LinkId, Link>, l: LinkId, k: Link)
    ensures forall p :: Online(links[l := k], p) <==> Online(links - {l}, p) || (k.Up? && k.peer == p)
  {
    OnlineAfterDrop(links[l := k], l);
    assert links[l := k] - {l} == links - {l};
  }

  predicate IsPairing(k: Link) {
    k.Handshaking? && k.hs.mode == Pair
  }

  // ------------------------------------------------------------ small mutations

  function BeginPairing(s: State): State {
    s.(pairing := Some(Window(s.now.mono + s.env.config.pairingWindow, None)))
  }

  function EndPairing(s: State, denied: bool): State {
    s.(pairing := None,
       quietUntil := s.now.mono + if denied then s.env.config.pairDeniedCooldown else s.env.config.pairCooldown)
  }

  function Announce(s: State, who: DeviceId): (after: State)
    ensures after == s.(log := after.log) && Shown(after) == Shown(s)
  {
    if who !in s.atlas.seen || s.atlas.seen[who].routes == map[] || Paired(s, who) then s
    else
      var k := s.atlas.seen[who];
      Tell(s, Offered(who, k.name, RouteList(k.routes)[0], k.busy))
  }

  /** Close a link, and say so. */
  function Condemn(s: State, link: LinkId, about: Option<DeviceId>): (after: State)
    ensures after == s.(log := after.log) && Shown(after) == Shown(s)
  {
    Complain(Push(s, Close(link, Protocol(NotAllowed))), about, NotAllowed)
  }

  function FailLink(s: State, link: LinkId): (after: State)
    ensures after == s.(links := s.links - {link}, log := after.log) && Shown(after) == Shown(s)
  {
    if link in s.links && s.links[link].Up?
    then Condemn(s.(links := s.links - {link}), link, Some(s.links[link].peer))
    else Condemn(s.(links := s.links - {link}), link, None)
  }

  function PairingAttemptFailed(s: State, link: LinkId): (after: State)
    ensures after == s.(links := s.links - {link}, pairing := None, log := after.log,
                        quietUntil := s.now.mono + s.env.config.pairCooldown)
    ensures Shown(after) == Shown(s)
  {
    Tell(EndPairing(FailLink(s, link), false), PairingFailed(HandshakeFailed))
  }

  // --------------------------------------------------------- plugins and sending

  /** Encrypt and emit one message on a session. */
  function SendOn(s: State, l: LinkId, m: PendingSend, ours: bool): (after: State)
    requires l in s.links && s.links[l].Up?
    ensures after == s.(desk := after.desk, log := after.log)
    ensures Shown(after) == Shown(s).(speech := Shown(after).speech)
    ensures Talks(s.links, Shown(s).speech, Shown(after).speech)
    ensures Shown(s).speech.errs <= Shown(after).speech.errs <= Shown(s).speech.errs + if ours then 1 else 0
  {
    if m.cap !in s.links[l].canSend then Complain(s, Some(s.links[l].peer), CapNotNegotiated) else
      var id := (s.desk.nextMsg + 1) % 0x1_0000_0000;
      var env := Envelope(id, m.re, m.cap, m.ty, m.body);
      var counted := s.(desk := s.desk.(nextMsg := id));
      if env !in s.env.sealed then counted
      else if s.env.sealed[env].Unsealable? then Complain(counted, Some(s.links[l].peer), Internal)
      else if s.env.sealed[env].bytes > s.links[l].maxMessage then Complain(counted, Some(s.links[l].peer), TooLarge)
      else Push(counted, LinkSend(l, Sealed(env, ours)))
  }

  function DispatchSend(s: State, m: PendingSend, ours: bool): (after: State)
    ensures Talk(s, after)
    ensures Shown(s).speech.errs <= Shown(after).speech.errs <= Shown(s).speech.errs + if ours then 1 else 0
  {
    var best := BestLink(s.links, m.peer);
    if best.None? then Tell(s, PeerUnreachable(m.peer)) else SendOn(s, best.value, m, ours)
  }

  function SendError(s: State, peer: DeviceId, to: Envelope, code: ErrorCode): (after: State)
    ensures Talk(s, after)
    ensures Shown(s).speech.errs <= Shown(after).speech.errs <= Shown(s).speech.errs + 1
  {
    DispatchSend(s, PendingSend(peer, to.cap, "err", CodeName(code), Some(to.id)), true)
  }

  /** Have the host listen, and bound how long a sender may take to dial. */
  function Listening(s: State, t: TransferId, offeredAs: nat, key: BulkKey, bytes: nat): (after: State)
    ensures Calm(s, after)
  {
    var s := s.(desk := s.desk.(bulkWait := s.desk.bulkWait[t := s.now.mono + BULK_DIAL_WAIT_MS]));
    Push(s, BulkListen(t, offeredAs, key, bytes))
  }

  /** A link that cannot carry bulk refuses, and the transfer is over. */
  function RefuseBulk(s: State, peer: DeviceId, t: TransferId): (after: State)
    ensures Calm(s, after)
  {
    var s := Push(Complain(s, Some(peer), NotAllowed), BulkCancel(t));
    s.(desk := s.desk.(bulkOwner := s.desk.bulkOwner - {t}))
  }

  function DispatchBulk(s: State, b: BulkRequest): (after: State)
    ensures Calm(s, after)
  {
    if b.Cancel? then Push(s, BulkCancel(b.transfer))
    else if BulkSupport(s.links, b.peer) == Some(NoBulk) then RefuseBulk(s, b.peer, b.transfer)
    else
      var best := BestLink(s.links, b.peer);
      if best.None? then Complain(s, Some(b.peer), NotAllowed) else
        var hash := s.links[best.value].hash;
        if b.Listen? then Listening(s, b.transfer, b.offeredAs, BulkKey(hash, b.peer, b.offeredAs), b.expectBytes)
        else Push(s, BulkSend(b.transfer, b.endpoint, BulkKey(hash, s.env.me, b.transfer)))
  }

  function SaidBy(n: PluginNote): UiEvent {
    match n
    case PluginSays(p, c, t, b) => FromPlugin(p, c, t, b)
    case PluginError(p, code) => Error(p, code)
  }

  function DrainNotes(s: State, xs: seq<PluginNote>): (after: State)
    ensures Calm(s, after)
  {
    if xs == [] then s else Tell(DrainNotes(s, xs[..|xs| - 1]), SaidBy(xs[|xs| - 1]))
  }

  /** Effects are numbered upwards from `first`. */
  function Tokened(first: nat, xs: seq<string>): seq<Action> {
    seq(|xs|, i requires 0 <= i < |xs| => Effect(first + i + 1, xs[i]))
  }

  function DrainEffects(s: State, xs: seq<Action>): (after: State)
    requires forall i :: 0 <= i < |xs| ==> xs[i].Effect?
    ensures Calm(s, after)
  {
    if xs == [] then s else Push(DrainEffects(s, xs[..|xs| - 1]), xs[|xs| - 1])
  }

  function DrainBulk(s: State, xs: seq<BulkRequest>): (after: State)
    ensures Calm(s, after)
  {
    if xs == [] then s else DispatchBulk(DrainBulk(s, xs[..|xs| - 1]), xs[|xs| - 1])
  }

  function DrainSends(s: State, xs: seq<PendingSend>): (after: State)
    ensures Calm(s, after)
  {
    if xs == [] then s else DispatchSend(DrainSends(s, xs[..|xs| - 1]), xs[|xs| - 1], false)
  }

  /** Everything a call asked for, in the order it is carried out. */
  function CarryOut(s: State, first: nat, r: Requests): (after: State)
    ensures Calm(s, after)
  {
    DrainSends(DrainBulk(DrainEffects(DrainNotes(s, r.notes), Tokened(first, r.effects)), r.bulk), r.sends)
  }

  function Drain(s: State, first: nat, r: Requests): (after: State)
    ensures Calm(s, after)
  {
    WakeWithin(CarryOut(s, first, r), r.wakeIn)
  }

  /** Wake no later than that, if a plugin asked. */
  function WakeWithin(s: State, ms: Option<nat>): (after: State)
    ensures Calm(s, after)
  {
    if ms.None? then s else s.(desk := s.desk.(wake := Min(s.desk.wake, s.now.mono + ms.value)))
  }

  /** Effects `first + 1` to `first + n` belong to plugin `idx`. */
  function OwnEffects(m: map<EffectToken, nat>, first: nat, n: nat, idx: nat): map<EffectToken, nat> {
    if n == 0 then m else OwnEffects(m, first, n - 1, idx)[first + n := idx]
  }

  function OwnTransfers(m: map<TransferId, nat>, xs: seq<BulkRequest>, idx: nat): map<TransferId, nat> {
    if xs == [] then m else
      var (m, b) := (OwnTransfers(m, xs[..|xs| - 1], idx), xs[|xs| - 1]);
      if b.Cancel? then m else m[b.transfer := idx]
  }

  function Answer(s: State, c: Call): Requests {
    var n := NthCall(s.desk.calls, c);
    if n in s.env.plugin then s.env.plugin[n] else Requests([], [], [], [], None, 0, None)
  }

  /** Count the call, and remember who is owed the answers when that is kept. */
  function Charge(d: Desk, r: Requests, owner: Option<nat>): Desk {
    var d1 := d.(calls := d.calls + 1, nextToken := d.nextToken + |r.effects|, nextTransfer := d.nextTransfer + r.minted);
    if owner.None? then d1 else
      d1.(effectOwner := OwnEffects(d.effectOwner, d.nextToken, |r.effects|, owner.value),
          bulkOwner := OwnTransfers(d.bulkOwner, r.bulk, owner.value))
  }

  /** Call the plugins and carry out what they asked for; `owner` is the plugin
      whose effects and transfers are to be answered later, if that is kept. */
  function CallPlugin(s: State, c: Call, owner: Option<nat>): (after: State)
    ensures Calm(s, after)
  {
    Drain(s.(desk := Charge(s.desk, Answer(s, c), owner)), s.desk.nextToken, Answer(s, c))
  }

  /** Tell the plugin that owns a transfer it has somewhere to listen. */
  function TellReady(s: State, t: TransferId, endpoint: string): (after: State)
    ensures Calm(s, after)
  {
    if t !in s.desk.bulkOwner then s
    else CallPlugin(s, BulkReady(s.desk.bulkOwner[t], t, endpoint), Some(s.desk.bulkOwner[t]))
  }

  /** Tell the plugin that owns a transfer it has ended. */
  function TellOver(s: State, t: TransferId, ok: bool, detail: string): (after: State)
    ensures Calm(s, after)
  {
    if t !in s.desk.bulkOwner then s
    else CallPlugin(s, BulkOver(s.desk.bulkOwner[t], t, ok, detail), Some(s.desk.bulkOwner[t]))
  }

  // ------------------------------------------------------------------- dialling

  /** Dial for an attempt; `after` is the dial it carries on, if any. */
  function StartDial(s: State, r: Route, rest: PeerDial, after: Option<DialToken>): (done: State)
    ensures Walk(s, done)
  {
    var d := s.dials.last + 1;
    var timed := TimedDial(s.now.mono + s.env.config.dialTimeout, rest.(latest := d));
    Push(s.(dials := s.dials.(last := d, peer := s.dials.peer[d := timed])), Dial(r, d, after))
  }

  /** Record why a peer could not be reached. */
  function Blame(s: State, peer: DeviceId, why: Why): State {
    s.(atlas := s.atlas.(trouble := s.atlas.trouble[peer := why]))
  }

  function TryNextRoute(s: State, p: PeerDial, why: Why): (after: State)
    ensures Walk(s, after) && after.links == s.links
  {
    if BestLink(s.links, p.peer).Some? then s
    else if p.routes == [] then
      var s := Blame(s, p.peer, why);
      if p.byHand then Tell(s, PeerUnreachable(p.peer)) else s
    else StartDial(s, p.routes[0], p.(routes := p.routes[1..]), Some(p.latest))
  }

  function Adopted(p: PeerDial, peer: DeviceId): PeerDial {
    if p.peer == peer then p.(byHand := true) else p
  }

  function AdoptedDial(t: TimedDial, peer: DeviceId): TimedDial {
    t.(dial := Adopted(t.dial, peer))
  }

  function AdoptedLink(k: Link, peer: DeviceId): Link {
    if k.Handshaking? && k.fallback.Some? then k.(fallback := Some(Adopted(k.fallback.value, peer))) else k
  }

  function AdoptAttempt(s: State, peer: DeviceId): State {
    var dials := map d | d in s.dials.peer :: AdoptedDial(s.dials.peer[d], peer);
    s.(dials := s.dials.(peer := dials), links := map l | l in s.links :: AdoptedLink(s.links[l], peer))
  }

  function KnownRoutes(s: State, peer: DeviceId): Routes {
    if peer in s.atlas.addrs then s.atlas.addrs[peer]
    else if peer in s.peers && s.peers[peer].key.Some? && s.peers[peer].key.value in s.atlas.seen
    then s.atlas.seen[s.peers[peer].key.value].routes
    else map[]
  }

  function DialFirst(s: State, peer: DeviceId, routes: seq<Route>, byHand: bool): (after: State)
    ensures routes != [] || !Online(s.links, peer) ==> Walk(s, after)
  {
    if routes == [] then
      var s := Blame(s, peer, Nowhere);
      if byHand then Tell(Complain(s, Some(peer), NotAllowed), PeerUnreachable(peer)) else s
    else StartDial(s, routes[0], PeerDial(peer, routes[1..], byHand, 0), None)
  }

  function ConnectPeer(s: State, peer: DeviceId, byHand: bool): (after: State)
    ensures Walk(s, after)
  {
    if !byHand && Dialling(s, peer) then s else
      var routes := RouteList(KnownRoutes(s, peer));
      match PeerStateOf(s, peer)
      case Unreachable => DialFirst(s, peer, routes, byHand)
      case Connecting => if byHand then AdoptAttempt(s, peer) else s
      case Reachable =>
        if byHand then Tell(s, PeerReachable(peer, NameOf(s, peer))) else
          var best := BestLink(s.links, peer);
          if best.None? then s else
            var better := BetterThan(routes, s.links[best.value].transport);
            if better == [] then s else DialFirst(s, peer, better, byHand)
  }

  function ConnectEach(s: State, ids: seq<DeviceId>): (after: State)
    ensures Walk(s, after)
  {
    if ids == [] then s else ConnectPeer(ConnectEach(s, ids[..|ids| - 1]), ids[|ids| - 1], false)
  }

  // ---------------------------------------------------------------- losing links

  /** A link that never became a session has not proved its peer unreachable,
      only this way in. */
  function WalkOn(s: State, fallback: Option<PeerDial>, why: Why): (after: State)
    ensures Walk(s, after) && after.links == s.links
  {
    if fallback.None? then s else TryNextRoute(s, fallback.value, why)
  }

  /** Announce that a peer has gone, and arm an immediate retry. */
  function Gone(s: State, peer: DeviceId): (after: State)
    ensures after == s.(reconnectAt := Some(0), log := after.log)
    ensures Shown(after) == Shown(s).(reach := Shown(s).reach - {peer})
  {
    Tell(s, PeerUnreachable(peer)).(reconnectAt := Some(0))
  }

  /** Tell everybody, plugins included. */
  function Mourn(s: State, peer: DeviceId): (after: State)
    requires !Online(s.links, peer)
    ensures after == s.(reconnectAt := Some(0), desk := after.desk, log := after.log)
    ensures Shown(after) == Shown(s).(reach := Shown(after).reach, speech := Shown(after).speech)
    ensures Talks(s.links, Shown(s).speech, Shown(after).speech)
    ensures Shown(after).speech.errs == Shown(s).speech.errs
    ensures Truthful(s.links, Shown(s), Shown(after)) && peer !in Shown(after).reach
  {
    CallPlugin(Gone(s, peer), Disconnected(peer), None)
  }

  /** The last session with `peer` may just have gone. */
  function AfterLoss(s: State, peer: DeviceId): (after: State)
    ensures Steady(s, after) && after.links == s.links && SameDials(s, after)
    ensures Talks(s.links, Shown(s).speech, Shown(after).speech)
    ensures Truthful(s.links, Shown(s), Shown(after))
    ensures peer in Shown(after).reach <==> Online(s.links, peer)
  {
    if BestLink(s.links, peer).Some? then Tell(s, PeerReachable(peer, NameOf(s, peer))) else Mourn(s, peer)
  }

  function OnLinkDown(s: State, link: LinkId): (after: State)
    ensures after.links == s.links - {link}
    ensures Steady(s.(pairing := after.pairing), after)
    ensures Talks(s.links, Shown(s).speech, Shown(after).speech)
    ensures link in s.links && s.links[link].Up? ==> SameDials(s, after)
    ensures after.pairing == if link in s.links && IsPairing(s.links[link]) then None else s.pairing
    ensures KeepsMirror(s, after)
  {
    OnlineAfterDrop(s.links, link);
    var out := s.(links := s.links - {link});
    if link !in s.links || s.links[link].Pending? then out
    else if s.links[link].Up? then AfterLoss(out, s.links[link].peer)
    else if IsPairing(s.links[link]) then WalkOn(out.(pairing := None), s.links[link].fallback, ClosedEarly)
    else WalkOn(out, s.links[link].fallback, ClosedEarly)
  }

  function FailUpLink(s: State, link: LinkId): (after: State)
    requires link in s.links && s.links[link].Up?
    ensures after.links == s.links - {link} && SameDials(s, after)
    ensures Talks(s.links, Shown(s).speech, Shown(after).speech)
    ensures Steady(s, after) && KeepsMirror(s, after)
  {
    OnLinkDown(Condemn(s, link, Some(s.links[link].peer)), link)
  }

  /** Close a session ourselves. */
  function Drop(s: State, link: LinkId, why: CloseReason): (after: State)
    requires link in s.links ==> s.links[link].Up?
    ensures after.links == s.links - {link}
    ensures Talks(s.links, Shown(s).speech, Shown(after).speech)
    ensures Steady(s, after) && KeepsMirror(s, after) && SameDials(s, after)
  {
    OnLinkDown(Push(s, Close(link, why)), link)
  }

  function DropEach(s: State, ids: seq<LinkId>, why: CloseReason): (after: State)
    requires forall l :: l in ids ==> l in s.links ==> s.links[l].Up?
    ensures forall l :: l in after.links <==> l in s.links && l !in ids
    ensures forall l :: l in after.links ==> after.links[l] == s.links[l]
    ensures Talks(s.links, Shown(s).speech, Shown(after).speech)
    ensures Steady(s, after) && KeepsMirror(s, after) && SameDials(s, after)
  {
    if ids == [] then s else
      Drop(DropEach(s, ids[..|ids| - 1], why), ids[|ids| - 1], why)
  }

  function UpLinks(links: map<LinkId, Link>, peer: DeviceId): (ids: seq<LinkId>)
    ensures forall l :: l in ids <==> l in links && UpTo(links, l, peer)
  {
    Ascending(set l | l in links && UpTo(links, l, peer))
  }

  // ---------------------------------------------------------------- link events

  /** Say who we are, in a session handshake. */
  function Greet(s: State, link: LinkId): (after: State)
    ensures after == s.(log := after.log) && Shown(after) == Shown(s)
  {
    Push(s, LinkSend(link, SessionMessage(OurHello(s))))
  }

  /** Say who we are, in a pairing handshake. */
  function GreetPair(s: State, link: LinkId): (after: State)
    ensures after == s.(log := after.log) && Shown(after) == Shown(s)
  {
    Push(s, LinkSend(link, PairMessage(OurHello(s))))
  }

  function StartSession(s: State, link: LinkId, attrs: LinkAttrs, p: PeerDial, speaks: bool): (after: State)
    ensures after == s.(links := after.links, log := after.log) && Shown(after) == Shown(s)
    ensures after.links == s.links - {link}
      || after.links == s.links[link := Handshaking(Handshake(Session, true, 1), attrs,
           s.now.mono + s.env.config.handshakeTimeout, Some(p.peer), None, Some(p))]
  {
    var deadline := s.now.mono + s.env.config.handshakeTimeout;
    if p.peer !in s.peers || s.peers[p.peer].key.None? || s.peers[p.peer].psk.None? || !speaks then FailLink(s, link)
    else
      var s := Greet(s, link);
      s.(links := s.links[link := Handshaking(Handshake(Session, true, 1), attrs, deadline, Some(p.peer), None, Some(p))])
  }

  /** A link dialled to pair: we speak first, with XX. */
  function StartPairing(s: State, link: LinkId, attrs: LinkAttrs, d: DialToken, speaks: bool): (after: State)
    requires d in s.dials.pair
    ensures after == s.(dials := s.dials.(pair := s.dials.pair - {d}), links := after.links, log := after.log)
    ensures Shown(after) == Shown(s)
    ensures after.links == if !speaks then s.links - {link} else
      s.links[link := Handshaking(Handshake(Pair, true, 1), attrs, s.now.mono + s.env.config.handshakeTimeout,
                                  None, Some(s.dials.pair[d]), None)]
  {
    var out := s.(dials := s.dials.(pair := s.dials.pair - {d}));
    if !speaks then FailLink(out, link) else
      var k := Handshaking(Handshake(Pair, true, 1), attrs, s.now.mono + s.env.config.handshakeTimeout,
                           None, Some(s.dials.pair[d]), None);
      Push(out, LinkSend(link, PairOpener)).(links := s.links[link := k])
  }

  function OnLinkUp(s: State, link: LinkId, attrs: LinkAttrs, answers: Option<DialToken>, speaks: bool): (after: State)
    ensures after == s.(dials := after.dials, links := after.links, log := after.log) && Shown(after) == Shown(s)
    ensures after.links == s.links - {link}
      || (link in after.links && after.links == s.links[link := after.links[link]] && !after.links[link].Up?)
  {
    if answers.Some? && answers.value in s.dials.pair then StartPairing(s, link, attrs, answers.value, speaks)
    else if answers.Some? && answers.value in s.dials.peer then
      var d := answers.value;
      StartSession(s.(dials := s.dials.(peer := s.dials.peer - {d})), link, attrs, s.dials.peer[d].dial, speaks)
    else
      s.(links := s.links[link := Pending(attrs, s.now.mono + s.env.config.handshakeTimeout)])
  }

  function CheckFreshness(ts: nat, wall: nat, greatestSeen: nat): bool {
    (if wall >= ts then wall - ts else ts - wall) <= MAX_SKEW_MS && ts > greatestSeen
  }

  /** A record as a fresh Hello leaves it. */
  function Refreshed(rec: PeerRecord, h: Hello): PeerRecord {
    rec.(greatestSeen := h.ts, name := h.name, platform := h.platform, capsOut := h.capsOut, capsIn := h.capsIn)
  }

  function Recorded(s: State, peer: DeviceId, rec: PeerRecord): State {
    s.(peers := s.peers[peer := rec])
  }

  /** Write one record to disk. */
  function Save(s: State, rec: PeerRecord): (after: State)
    ensures after == s.(log := after.log)
    ensures Shown(after) == Shown(s).(trust := NotePersist(Shown(s).trust, rec.deviceId, Some(rec), s.now.wall))
  {
    var after := Push(s, Persist(rec.deviceId, Some(rec)));
    assert Shown(after) == Note(s.env, Shown(s), Entry(s.now, Persist(rec.deviceId, Some(rec))));
    after
  }

  /** Advance a peer's replay watermark, on disk too. */
  function Refresh(s: State, peer: DeviceId, rec: PeerRecord): (after: State)
    ensures after == s.(peers := s.peers[peer := rec], log := after.log)
    ensures Shown(after) == Shown(s).(trust := NotePersist(Shown(s).trust, rec.deviceId, Some(rec), s.now.wall))
  {
    Save(Recorded(s, peer, rec), rec)
  }

  /** Validate a peer's Hello and advance its replay watermark. */
  function AcceptHello(s: State, peer: DeviceId, hello: Option<Hello>): (r: (State, bool))
    ensures r.0 == s.(peers := r.0.peers, log := r.0.log)
    ensures Shown(r.0) == Shown(s).(trust := Shown(r.0).trust)
  {
    if hello.None? then (Complain(s, Some(peer), BadBody), false)
    else if peer !in s.peers then (s, false)
    else if !CheckFreshness(hello.value.ts, s.now.wall, s.peers[peer].greatestSeen) then
      (Complain(s, Some(peer), NotAllowed), false)
    else (Refresh(s, peer, Refreshed(s.peers[peer], hello.value)), true)
  }

  /** The link that a finished session handshake leaves in the table. */
  function SessionLink(s: State, hash: nat, attrs: LinkAttrs, peer: DeviceId, rec: PeerRecord): Link {
    Up(peer, hash, attrs.bulk, attrs.maxMessage, s.now.mono, attrs.transport,
       s.env.capsOut * rec.capsIn, rec.capsOut * s.env.capsIn)
  }

  /** Put a session in the table and announce its peer. */
  function Open(s: State, link: LinkId, up: Link, name: string): (after: State)
    requires link !in s.links && up.Up?
    ensures after == s.(links := s.links[link := up], atlas := after.atlas, log := after.log)
    ensures Shown(after) == Shown(s).(reach := Shown(s).reach + {up.peer})
    ensures KeepsMirror(s, after)
  {
    OnlineAfterPut(s.links, link, up);
    assert s.links - {link} == s.links;
    Tell(s.(links := s.links[link := up], atlas := s.atlas.(trouble := s.atlas.trouble - {up.peer})),
         PeerReachable(up.peer, name))
  }

  function FinishSession(s: State, link: LinkId, hash: nat, attrs: LinkAttrs, peer: DeviceId): (after: State)
    requires link !in s.links
    ensures Steady(s, after) && KeepsMirror(s, after) && SameDials(s, after)
    ensures Talks(after.links, Shown(s).speech, Shown(after).speech)
    ensures after.links == if !SupportsStatefulCipher(attrs) || peer !in s.peers then s.links
                           else s.links[link := SessionLink(s, hash, attrs, peer, s.peers[peer])]
  {
    if !SupportsStatefulCipher(attrs) || peer !in s.peers then
      assert s.links - {link} == s.links;
      FailLink(s, link)
    else
      var rec := s.peers[peer];
      CallPlugin(Open(s, link, SessionLink(s, hash, attrs, peer, rec), rec.name), Connected(peer), None)
  }

  /** Claim the slot, answer, and wait for the third message. */
  function Engage(s: State, link: LinkId, attrs: LinkAttrs, deadline: nat): (after: State)
    ensures after == s.(links := after.links, pairing := after.pairing, log := after.log) && Shown(after) == Shown(s)
    ensures after.links == s.links[link := Handshaking(Handshake(Pair, false, 2), attrs, deadline, None, None, None)]
    ensures after.pairing == Some(Window(s.now.mono + s.env.config.pairingWindow, None))
  {
    var s := GreetPair(BeginPairing(s), link);
    s.(links := s.links[link := Handshaking(Handshake(Pair, false, 2), attrs, deadline, None, None, None)])
  }

  /** A first message nobody can read costs a cooldown. */
  function Spoil(s: State, link: LinkId): (after: State)
    requires link !in s.links
    ensures after == s.(quietUntil := s.now.mono + s.env.config.pairCooldown, log := after.log) && Shown(after) == Shown(s)
  {
    FailLink(s.(quietUntil := s.now.mono + s.env.config.pairCooldown), link)
  }

  /** An inbound pairing opener, on a link already taken out of the table. */
  function OnPairOpener(s: State, link: LinkId, attrs: LinkAttrs, deadline: nat, body: Body): (after: State)
    requires link !in s.links
    ensures after == s.(links := after.links, pairing := after.pairing, quietUntil := after.quietUntil, log := after.log)
    ensures Shown(after) == Shown(s)
    ensures after.links - {link} == s.links
    ensures link in after.links ==> IsPairing(after.links[link])
  {
    if WhyNotPair(s).Some? then FailLink(s, link)
    else if !body.read then Spoil(s, link)
    else if !body.write then FailLink(s, link)
    else Engage(s, link, attrs, deadline)
  }

  /** An inbound session opener, on a link already taken out of the table. */
  function OnSessionOpener(s: State, link: LinkId, attrs: LinkAttrs, body: Body): State
    requires link !in s.links
  {
    if body.opener.None? || body.opener.value !in s.peers
       || s.peers[body.opener.value].psk.None? || !body.read then FailLink(s, link)
    else
      var r := AcceptHello(s, body.opener.value, body.hello);
      if !r.1 || !body.write then FailLink(r.0, link)
      else
        FinishSession(Greet(r.0, link), link, body.hash, attrs, body.opener.value)
  }

  /** The record a finished pairing would store. */
  function NewRecord(id: DeviceId, h: Hello, hash: nat): PeerRecord {
    PeerRecord(id, Some(id), h.name, h.platform, Some(SessionPsk(hash)), 0, h.capsOut, h.capsIn)
  }

  /** Show the digits, on a person's clock. */
  function Ask(s: State, id: DeviceId, a: Awaiting): (after: State)
    ensures after == s.(pairing := Some(Window(s.now.mono + s.env.config.pairingWindow, Some(a))), log := after.log)
    ensures Shown(after) == NoteUi(s.env.config, Shown(s), s.now, PairingSas(a.record.name, id, a.sas))
  {
    Tell(s.(pairing := Some(Window(s.now.mono + s.env.config.pairingWindow, Some(a)))),
         PairingSas(a.record.name, id, a.sas))
  }

  /** Nothing is written until a human agrees; the link is parked meanwhile. */
  function PairingCompleted(s: State, link: LinkId, k: Link, body: Body): State
    requires k.Handshaking? && link !in s.links
  {
    if body.key.None? then FailLink(s, link)
    else if body.hello.None? then PairingAttemptFailed(s, link)
    else
      var parked := s.(links := s.links[link := Pending(k.attrs, k.deadline)]);
      if s.pairing.None? || s.pairing.value.awaiting.Some? then FailLink(parked, link)
      else
        var record := NewRecord(body.key.value, body.hello.value, body.hash);
        Ask(parked, body.key.value, Awaiting(link, record, Sas(body.hash), k.via))
  }

  /** A handshake message was read, and any reply to it sent. */
  function AfterRead(s: State, link: LinkId, k: Link, hs: Handshake, body: Body): State
    requires k.Handshaking? && link !in s.links
  {
    if !Complete(hs) then s.(links := s.links[link := k.(hs := hs)])
    else if IsPairing(k) then PairingCompleted(s, link, k, body)
    else if k.aim.None? then FailLink(s, link)
    else
      var r := AcceptHello(s, k.aim.value, body.hello);
      if !r.1 then FailLink(r.0, link) else FinishSession(r.0, link, body.hash, k.attrs, k.aim.value)
  }

  /** A frame on a link still handshaking, already taken out of the table. */
  function OnHandshakeFrame(s: State, link: LinkId, k: Link, kind: FrameKind, body: Body): State
    requires k.Handshaking? && link !in s.links
  {
    if kind != (if IsPairing(k) then PairHandshake else SessionHandshake) then FailLink(s, link)
    else if !body.read then (if IsPairing(k) then PairingAttemptFailed(s, link) else FailLink(s, link))
    else
      var hs := Advance(k.hs);
      // A pairing initiator owes one more message before either side is done.
      if IsPairing(k) && MyTurn(hs) then
        if !body.write then FailLink(s, link)
        else AfterRead(GreetPair(s, link), link, k, Advance(hs), body)
      else AfterRead(s, link, k, hs, body)
  }

  /** A decrypted frame on a session. */
  function OnPlain(s: State, peer: DeviceId, allowed: set<Cap>, plain: Plain): (after: State)
    ensures Talk(s, after)
  {
    if plain.Undecodable? then Complain(s, Some(peer), BadBody)
    else
      var env := plain.env;
      if env.cap !in allowed then SendError(s, peer, env, CapNotNegotiated)
      else if env.ty == "err" then Tell(s, FromPlugin(peer, env.cap, "err", env.body))
      else
        var idx := HandlerOf(s, env.cap);
        if idx.None? then SendError(s, peer, env, CapNotNegotiated)
        else
          var call := Received(idx.value, peer, env, BulkSupport(s.links, peer));
          var failed := Answer(s, call).error;
          var s := CallPlugin(s, call, idx);
          if failed.None? then s else SendError(s, peer, env, failed.value)
  }

  function OnTransportFrame(s: State, link: LinkId, kind: FrameKind, body: Body): State
    requires link in s.links && s.links[link].Up?
  {
    if !kind.Transport? || body.plain.None? then FailUpLink(s, link)
    else
      var u := s.links[link];
      OnPlain(s.(links := s.links[link := u.(lastRecv := s.now.mono)]), u.peer, u.canRecv, body.plain.value)
  }

  function OnLinkRecv(s: State, link: LinkId, frame: Frame): State {
    if frame.Malformed? || link !in s.links then FailLink(s, link)
    else
      var k := s.links[link];
      var (kind, body) := (frame.kind, frame.body);
      var out := s.(links := s.links - {link});
      match k
      case Up(_, _, _, _, _, _, _, _) => OnTransportFrame(s, link, kind, body)
      case Handshaking(_, _, _, _, _, _) => OnHandshakeFrame(out, link, k, kind, body)
      case Pending(attrs, deadline) =>
        match kind
        case PairHandshake => OnPairOpener(out, link, attrs, deadline, body)
        case SessionHandshake => OnSessionOpener(out, link, attrs, body)
        case Transport => FailLink(out, link)
  }

  // ------------------------------------------------------------ local commands

  function LearnRoute(s: State, peer: DeviceId, r: Route): State {
    var known := if peer in s.atlas.addrs then s.atlas.addrs[peer] else map[];
    s.(atlas := s.atlas.(addrs := s.atlas.addrs[peer := known[r.transport := r.addr]]))
  }

  function LearnProven(s: State, a: Awaiting, id: DeviceId): State {
    if a.via.Some? then LearnRoute(s, id, a.via.value)
    else if id in s.atlas.seen then
      var known := if id in s.atlas.addrs then s.atlas.addrs[id] else map[];
      s.(atlas := s.atlas.(addrs := s.atlas.addrs[id := known + s.atlas.seen[id].routes]))
    else s
  }

  /** Different digits are the one sign of a relay: close the link, go quiet. */
  function Deny(s: State, a: Awaiting): (after: State)
    ensures after.links == s.links - {a.link} && after.pairing == None
    ensures after == s.(links := after.links, pairing := None, log := after.log,
                        quietUntil := s.now.mono + s.env.config.pairDeniedCooldown)
    ensures Shown(after) == Shown(s).(prompts := NoteDenial(Shown(s).prompts, s.now.mono))
  {
    var out := Push(s, Close(a.link, Protocol(NotAllowed))).(links := s.links - {a.link});
    Tell(EndPairing(out, true), PairingFailed(CodesDiffer))
  }

  /** File the record, tell, close the link and arm the first session. */
  function Admit(s: State, a: Awaiting, id: DeviceId): (after: State)
    ensures after == s.(peers := s.peers[id := a.record], links := s.links - {a.link}, atlas := after.atlas,
                        pairing := None, reconnectAt := Some(0), log := after.log)
    ensures Shown(after) == Shown(s).(trust := NotePersist(Shown(s).trust, a.record.deviceId, Some(a.record), s.now.wall),
                                      prompts := Shown(s).prompts.(last := None, recent := None))
  {
    var stored := Push(LearnProven(s, a, id), Persist(a.record.deviceId, Some(a.record)));
    var told := Tell(stored, PairingComplete(id, a.record.name));
    var filed := told.(peers := s.peers[id := a.record], pairing := None);
    Push(filed, Close(a.link, Closed)).(links := s.links - {a.link}, reconnectAt := Some(0))
  }

  function OnConfirm(s: State, accept: bool): State {
    if s.pairing.None? || s.pairing.value.awaiting.None? then s
    else
      var a := s.pairing.value.awaiting.value;
      if !accept then Deny(s, a)
      else if a.record.key.None? then s.(pairing := Some(s.pairing.value.(awaiting := None)))
      else Admit(s, a, a.record.key.value)
  }

  function OnRequestPairing(s: State, r: Route): (after: State)
    ensures after == s.(pairing := after.pairing, dials := after.dials, log := after.log)
    ensures Shown(after) == Shown(s).(march := Shown(after).march)
  {
    var why := WhyNotPair(s);
    if why.Some? then Tell(s, PairingFailed(why.value))
    else
      var s := BeginPairing(s);
      var d := s.dials.last + 1;
      Push(s.(dials := s.dials.(last := d, pair := s.dials.pair[d := r])), Dial(r, d, None))
  }

  function Erased(s: State, peer: DeviceId): State {
    var atlas := s.atlas.(addrs := s.atlas.addrs - {peer}, trouble := s.atlas.trouble - {peer});
    s.(peers := s.peers - {peer}, atlas := atlas)
  }

  /** Drop the record, on disk too. */
  function Forgotten(s: State, peer: DeviceId): (after: State)
    ensures after == s.(peers := s.peers - {peer}, atlas := after.atlas, log := after.log)
    ensures Shown(after) == Shown(s).(trust := NotePersist(Shown(s).trust, peer, None, s.now.wall))
  {
    Push(Erased(s, peer), Persist(peer, None))
  }

  /** Say a peer is forgotten, and offer its machine again if it is in sight. */
  function Farewell(s: State, peer: DeviceId, who: Option<DeviceId>): (after: State)
    ensures after == s.(log := after.log) && Shown(after) == Shown(s)
  {
    if who.None? then Tell(s, Revoked(peer)) else Announce(Tell(s, Revoked(peer)), who.value)
  }

  /** The record goes first, so no race leaves a session with a forgotten peer. */
  function OnRevoke(s: State, peer: DeviceId): (after: State)
    ensures after.peers == s.peers - {peer} && after.env == s.env && after.now == s.now
    ensures after.pairing == s.pairing && after.quietUntil == s.quietUntil && after.dials.pair == s.dials.pair
    ensures Shown(after).trust == NotePersist(Shown(s).trust, peer, None, s.now.wall)
    ensures Shown(after).prompts == Shown(s).prompts
    ensures KeepsMirror(s, after) && SameDials(s, after) && Shown(after).speech.errs == Shown(s).speech.errs
    ensures Talks(s.links, Shown(s).speech, Shown(after).speech)
    ensures forall l :: l in after.links <==> l in s.links && !UpTo(s.links, l, peer)
    ensures forall l :: l in after.links ==> after.links[l] == s.links[l]
  {
    Farewell(DropEach(Forgotten(s, peer), UpLinks(s.links, peer), Protocol(NotPaired)), peer,
             if peer in s.peers then s.peers[peer].key else None)
  }

  function OnPluginCommand(s: State, peer: DeviceId, cap: Cap, ty: string, body: string): (after: State)
    ensures Calm(s, after)
  {
    var idx := HandlerOf(s, cap);
    if idx.None? then Complain(s, Some(peer), UnknownType)
    else
      var call := Asked(idx.value, peer, ty, body, BulkSupport(s.links, peer));
      var failed := Answer(s, call).error;
      var s := CallPlugin(s, call, idx);
      if failed.None? then s else Complain(s, Some(peer), failed.value)
  }

  function OnLocal(s: State, cmd: Command): State {
    match cmd
    case RequestPairing(r) => OnRequestPairing(s, r)
    case ConfirmPairing(accept) => OnConfirm(s, accept)
    case SetPeerAddress(peer, r) =>
      if peer in s.peers then LearnRoute(s, peer, r) else Complain(s, Some(peer), NotPaired)
    case Connect(peer) => ConnectPeer(s, peer, true)
    case ReconsiderRoutes => ConnectEach(s, Ascending(s.peers.Keys))
    case Disconnect(peer) => DropEach(s, UpLinks(s.links, peer), Closed)
    case Revoke(peer) => OnRevoke(s, peer)
    case PluginCommand(peer, cap, ty, body) => OnPluginCommand(s, peer, cap, ty, body)
  }

  // ------------------------------------------------------------------ discovery

  function Sighted(s: State, t: TransportId, who: DeviceId, name: string, addr: string, busy: bool): State {
    var seen := if |s.atlas.seen| >= MAX_SEEN && who !in s.atlas.seen then map[] else s.atlas.seen;
    var routes := if who in seen then seen[who].routes else map[];
    s.(atlas := s.atlas.(seen := seen[who := Sighting(routes[t := addr], name, busy)]))
  }

  function OnDiscovered(s: State, t: TransportId, who: Option<DeviceId>, name: string, addr: string, busy: bool): (after: State)
    ensures Walk(s.(atlas := after.atlas), after)
  {
    if who.None? then s else
      var s := Sighted(s, t, who.value, name, addr, busy);
      if Paired(s, who.value) then ConnectPeer(LearnRoute(s, who.value, Route(t, addr)), who.value, false)
      else Announce(s, who.value)
  }

  function Forget(k: Sighting, t: TransportId, addr: string): Sighting {
    if t in k.routes && k.routes[t] == addr then k.(routes := k.routes - {t}) else k
  }

  function WithdrawEach(s: State, ids: seq<DeviceId>): (after: State)
    ensures after == s.(atlas := after.atlas, log := after.log) && Shown(after) == Shown(s)
  {
    if ids == [] then s else
      var (front, who) := (WithdrawEach(s, ids[..|ids| - 1]), ids[|ids| - 1]);
      var s := front.(atlas := front.atlas.(seen := front.atlas.seen - {who}));
      if Paired(s, who) then s else Tell(s, Withdrawn(who))
  }

  function OnUndiscovered(s: State, t: TransportId, addr: string): (after: State)
    ensures after == s.(atlas := after.atlas, log := after.log) && Shown(after) == Shown(s)
  {
    var gone := set w | w in s.atlas.seen && Forget(s.atlas.seen[w], t, addr) != s.atlas.seen[w] && Forget(s.atlas.seen[w], t, addr).routes == map[];
    var s := s.(atlas := s.atlas.(seen := map w | w in s.atlas.seen :: Forget(s.atlas.seen[w], t, addr)));
    WithdrawEach(s, Ascending(gone))
  }

  // ----------------------------------------------------------------------- tick

  predicate Lapses(s: State) {
    s.pairing.Some? && s.now.mono >= s.pairing.value.deadline
  }

  function TickPairing(s: State): (after: State)
    ensures after == s.(links := after.links, pairing := after.pairing, quietUntil := after.quietUntil, log := after.log)
    ensures Shown(after) == Shown(s)
    ensures !Lapses(s) ==> after == s
    ensures Lapses(s) ==> after.pairing == None && after.quietUntil == s.now.mono + s.env.config.pairCooldown
    ensures Lapses(s) ==> after.links == if s.pairing.value.awaiting.None? then s.links
                                         else s.links - {s.pairing.value.awaiting.value.link}
  {
    if !Lapses(s) then s
    else if s.pairing.value.awaiting.None? then Tell(EndPairing(s, false), PairingFailed(NobodyConfirmed))
    else
      var l := s.pairing.value.awaiting.value.link;
      Tell(EndPairing(Push(s, Close(l, Closed)).(links := s.links - {l}), false), PairingFailed(NobodyConfirmed))
  }

  function StopWaiting(s: State, t: TransferId): (after: State)
    ensures Calm(s, after)
  {
    s.(desk := s.desk.(bulkWait := s.desk.bulkWait - {t}))
  }

  function CallOff(s: State, t: TransferId): (after: State)
    ensures after == s.(log := after.log) && Shown(after) == Shown(s)
  {
    assert Note(s.env, Shown(s), Entry(s.now, BulkCancel(t))) == Shown(s);
    Push(s, BulkCancel(t))
  }

  /** A sender told where to connect that never did. */
  function GiveUp(s: State, t: TransferId): (after: State)
    ensures Calm(s, after)
  {
    var s := TellOver(CallOff(StopWaiting(s, t), t), t, false, "the sender never connected");
    s.(desk := s.desk.(bulkOwner := s.desk.bulkOwner - {t}))
  }

  function GiveUpEach(s: State, ids: seq<TransferId>): (after: State)
    ensures Calm(s, after)
  {
    if ids == [] then s else GiveUp(GiveUpEach(s, ids[..|ids| - 1]), ids[|ids| - 1])
  }

  function LateTransfers(wait: map<TransferId, nat>, now: nat): (ids: seq<TransferId>)
    ensures forall t :: t in ids <==> t in wait && now >= wait[t]
  {
    Ascending(set t | t in wait && now >= wait[t])
  }

  function TickBulk(s: State): (after: State)
    ensures Calm(s, after)
  {
    GiveUpEach(s, LateTransfers(s.desk.bulkWait, s.now.mono))
  }

  predicate Stale(k: Link, now: nat) {
    !k.Up? && now >= k.deadline
  }

  function CloseStale(s: State, l: LinkId): (after: State)
    ensures Walk(s.(links := s.links - {l}), after) && after.links == s.links - {l}
  {
    var out := Push(s.(links := s.links - {l}), Close(l, Closed));
    if l in s.links && s.links[l].Handshaking? then WalkOn(out, s.links[l].fallback, CutOff) else out
  }

  function CloseEach(s: State, ids: seq<LinkId>): (after: State)
    requires forall l :: l in ids && l in s.links ==> !s.links[l].Up?
    ensures Walk(s.(links := after.links), after)
    ensures forall l :: l in after.links <==> l in s.links && l !in ids
    ensures forall l :: l in after.links ==> after.links[l] == s.links[l]
    ensures forall p :: Online(after.links, p) <==> Online(s.links, p)
  {
    if ids == [] then s else
      var front := CloseEach(s, ids[..|ids| - 1]);
      OnlineAfterDrop(front.links, ids[|ids| - 1]);
      CloseStale(front, ids[|ids| - 1])
  }

  function StaleLinks(links: map<LinkId, Link>, now: nat): (ids: seq<LinkId>)
    ensures forall l :: l in ids <==> l in links && Stale(links[l], now)
  {
    Ascending(set l | l in links && Stale(links[l], now))
  }

  function TickLinks(s: State): (after: State)
    ensures Walk(s.(links := after.links), after)
    ensures forall p :: Online(after.links, p) <==> Online(s.links, p)
    ensures forall l :: l in after.links <==> l in s.links && !Stale(s.links[l], s.now.mono)
    ensures forall l :: l in after.links ==> after.links[l] == s.links[l]
  {
    CloseEach(s, StaleLinks(s.links, s.now.mono))
  }

  function Expire(s: State, d: DialToken): (after: State)
    ensures Walk(s, after)
  {
    if d !in s.dials.peer then s
    else TryNextRoute(s.(dials := s.dials.(peer := s.dials.peer - {d})), s.dials.peer[d].dial, NoAnswer)
  }

  function ExpireEach(s: State, ids: seq<DialToken>): (after: State)
    ensures Walk(s, after)
  {
    if ids == [] then s else Expire(ExpireEach(s, ids[..|ids| - 1]), ids[|ids| - 1])
  }

  function LateDials(dials: map<DialToken, TimedDial>, now: nat): (ids: seq<DialToken>)
    ensures forall d :: d in ids <==> d in dials && now >= dials[d].deadline
  {
    Ascending(set d | d in dials && now >= dials[d].deadline)
  }

  function TickDials(s: State): (after: State)
    ensures Walk(s, after)
  {
    ExpireEach(s, LateDials(s.dials.peer, s.now.mono))
  }

  /** The retry of every peer in sight is due. */
  predicate RetryDue(s: State) {
    s.reconnectAt.None? || s.now.mono >= s.reconnectAt.value
  }

  /** Peers with no session and somewhere to dial. */
  function OutOfReach(peers: map<DeviceId, PeerRecord>, links: map<LinkId, Link>, addrs: map<DeviceId, Routes>): seq<DeviceId> {
    Ascending(set id | id in peers && BestLink(links, id).None? && id in addrs)
  }

  function Rearmed(s: State): State {
    s.(reconnectAt := Some(s.now.mono + s.env.config.reconnectEvery))
  }

  function TickReconnect(s: State): (after: State)
    ensures Walk(s.(reconnectAt := after.reconnectAt), after)
  {
    if !RetryDue(s) then s else ConnectEach(Rearmed(s), OutOfReach(s.peers, s.links, s.atlas.addrs))
  }

  function TickWake(s: State): (after: State)
    ensures Calm(s, after)
  {
    if s.desk.wake.None? || s.now.mono < s.desk.wake.value then s
    else CallPlugin(s.(desk := s.desk.(wake := None)), Woken, None)
  }

  /** All of a tick but the pairing window. */
  function TickRest(s: State): State {
    TickWake(TickReconnect(TickDials(TickLinks(TickBulk(s)))))
  }

  function OnTick(s: State): State {
    TickRest(TickPairing(s))
  }

  // ---------------------------------------------------------------- entry point

  function OnDialFailed(s: State, d: DialToken, reason: string): State {
    if d in s.dials.pair then
      Tell(s.(dials := s.dials.(pair := s.dials.pair - {d}), pairing := None), PairingFailed(DialRefused(reason)))
    else if d in s.dials.peer then
      TryNextRoute(s.(dials := s.dials.(peer := s.dials.peer - {d})), s.dials.peer[d].dial, HostSays(reason))
    else s
  }

  function OnBulkFinished(s: State, t: TransferId, ok: bool, detail: string): (after: State)
    ensures Calm(s, after)
  {
    var s := TellOver(s, t, ok, detail);
    s.(desk := s.desk.(bulkOwner := s.desk.bulkOwner - {t}, bulkWait := s.desk.bulkWait - {t}))
  }

  function OnEffectDone(s: State, t: EffectToken, result: string): (after: State)
    ensures Calm(s, after)
  {
    if t !in s.desk.effectOwner then s else
      var idx := s.desk.effectOwner[t];
      CallPlugin(s.(desk := s.desk.(effectOwner := s.desk.effectOwner - {t})), EffectAnswer(idx, t, result), Some(idx))
  }

  function React(s: State, ev: Event): State {
    match ev
    case LinkUp(link, attrs, answers, speaks) => OnLinkUp(s, link, attrs, answers, speaks)
    case LinkRecv(link, frame) => OnLinkRecv(s, link, frame)
    case LinkDown(link) => OnLinkDown(s, link)
    case DialFailed(d, reason) => OnDialFailed(s, d, reason)
    case Discovered(t, who, name, addr, busy) => OnDiscovered(s, t, who, name, addr, busy)
    case Undiscovered(t, addr) => OnUndiscovered(s, t, addr)
    case Tick => OnTick(s)
    case BulkListening(t, endpoint) => TellReady(s, t, endpoint)
    case BulkStarted(t) => s.(desk := s.desk.(bulkWait := s.desk.bulkWait - {t}))
    case BulkFinished(t, ok, detail) => OnBulkFinished(s, t, ok, detail)
    case Local(cmd) => OnLocal(s, cmd)
    case EffectDone(t, result) => OnEffectDone(s, t, result)
  }

  function Handle(s: State, now: Now, ev: Event): State {
    React(s.(now := now), ev)
  }
}

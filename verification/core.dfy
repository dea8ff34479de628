/** The core as it works in place: fields, reassigned one after another by one
    method per routine. Every method is proved equal to its function in
    protocol.dfy, so the run theorems speak of this class. */
module InPlace {
  import opened Wrappers
  import opened Orders
  import opened Vocab
  import opened History
  import opened P = Protocol
  import opened Runs
  import opened Timers
  import TrustTable
  import Reach
  import RouteWalk

  function Stamped(now: Now, actions: seq<Action>): seq<Entry> {
    seq(|actions|, i requires 0 <= i < |actions| => Entry(now, actions[i]))
  }

  class Core {
    const env: Env
    var peers: map<DeviceId, PeerRecord>
    var links: map<LinkId, Link>
    var addrs: map<DeviceId, Routes>
    var seen: map<DeviceId, Sighting>
    var trouble: map<DeviceId, Why>
    var pairing: Option<Window>
    var quietUntil: nat
    var pairDials: map<DialToken, Route>
    var peerDials: map<DialToken, TimedDial>
    var nextDial: DialToken
    var reconnectAt: Option<nat>
    var effectOwner: map<EffectToken, nat>
    var bulkOwner: map<TransferId, nat>
    var bulkWait: map<TransferId, nat>
    var nextToken: nat
    var nextTransfer: nat
    var nextMsg: nat
    var wake: Option<nat>
    var calls: nat
    var now: Now

    /** What the call in progress has asked for so far. */
    var out: seq<Action>
    /** What the calls before it asked for. */
    ghost var past: seq<Entry>

    ghost function Abs(): State
      reads this
    {
      State(env, peers, links, Atlas(addrs, seen, trouble), pairing, quietUntil,
            Dials(pairDials, peerDials, nextDial), reconnectAt,
            Desk(effectOwner, bulkOwner, bulkWait, nextToken, nextTransfer, nextMsg, wake, calls),
            now, past + Stamped(now, out))
    }

    constructor (env: Env)
      ensures Abs() == Build(env)
    {
      this.env := env;
      peers := map id | id in env.store && env.store[id].key == Some(id) :: env.store[id];
      links, addrs, seen, trouble := map[], map[], map[], map[];
      pairing, quietUntil := None, 0;
      pairDials, peerDials, nextDial, reconnectAt := map[], map[], 0, None;
      effectOwner, bulkOwner, bulkWait := map[], map[], map[];
      nextToken, nextTransfer, nextMsg, wake, calls := 0, 0, 0, None, 0;
      now, out, past := Now(0, 0), [], [];
    }

    /** A new core over the store that `past` left behind; `calls` plugin calls have
        been made before. */
    constructor Revive(env: Env, store: map<DeviceId, PeerRecord>, calls: nat, ghost past: seq<Entry>)
      requires store == Replay(env.store, past)
      ensures Abs() == Rebuilt(env, past, calls)
    {
      this.env := env;
      peers := map id | id in store && store[id].key == Some(id) :: store[id];
      links, addrs, seen, trouble := map[], map[], map[], map[];
      pairing, quietUntil := None, 0;
      pairDials, peerDials, nextDial, reconnectAt := map[], map[], 0, None;
      effectOwner, bulkOwner, bulkWait := map[], map[], map[];
      nextToken, nextTransfer, nextMsg, wake, this.calls := 0, 0, 0, None, calls;
      now, out, this.past := Now(0, 0), [], past;
      assert past + [] == past;
    }

    method Emit(a: Action)
      modifies this`out
      ensures Abs() == Push(old(Abs()), a)
    {
      out := out + [a];
      assert Stamped(now, out) == old(Stamped(now, out)) + [Entry(now, a)];
    }

    method Say(e: UiEvent)
      modifies this`out
      ensures Abs() == Tell(old(Abs()), e)
    {
      Emit(Ui(e));
    }

    method Complain(about: Option<DeviceId>, code: ErrorCode)
      modifies this`out
      ensures Abs() == P.Complain(old(Abs()), about, code)
    {
      Say(Error(about, code));
    }

    // ------------------------------------------------------------------- queries

    function WhyNotPair(): (r: Option<PairingEnd>)
      reads this
      ensures r == P.WhyNotPair(Abs())
    {
      if !env.config.acceptPairRequests then Some(NotAccepting)
      else if pairing.Some? && pairing.value.awaiting.Some? then Some(AlreadyConfirming)
      else if pairing.Some? then Some(AlreadyPairing)
      else if now.mono < quietUntil then Some(TooSoon)
      else None
    }

    predicate Dialling(peer: DeviceId)
      reads this
      ensures Dialling(peer) <==> P.Dialling(Abs(), peer)
    {
      exists d :: d in peerDials && peerDials[d].dial.peer == peer
    }

    function PeerStateOf(peer: DeviceId): (r: PeerState)
      reads this
      ensures r == P.PeerStateOf(Abs(), peer)
    {
      match FirstWord(links, peer, Ascending(links.Keys))
      case Some(w) => w
      case None => if Dialling(peer) then Connecting else Unreachable
    }

    function NameOf(peer: DeviceId): (r: string)
      reads this
      ensures r == P.NameOf(Abs(), peer)
    {
      if peer in peers then peers[peer].name else ""
    }

    predicate Paired(who: DeviceId)
      reads this
      ensures Paired(who) <==> P.Paired(Abs(), who)
    {
      exists id :: id in peers && peers[id].key == Some(who)
    }

    function KnownRoutes(peer: DeviceId): (r: Routes)
      reads this
      ensures r == P.KnownRoutes(Abs(), peer)
    {
      if peer in addrs then addrs[peer]
      else if peer in peers && peers[peer].key.Some? && peers[peer].key.value in seen
      then seen[peers[peer].key.value].routes
      else map[]
    }

    function OurHello(): (r: Hello)
      reads this
      ensures r == P.OurHello(Abs())
    {
      Hello(now.wall, env.config.name, env.config.platform, env.capsOut, env.capsIn)
    }

    function HandlerOf(cap: Cap): (r: Option<nat>)
      reads this
      ensures r == P.HandlerOf(Abs(), cap)
    {
      if cap in env.handler then Some(env.handler[cap]) else None
    }

    function AnswerTo(c: Call): (r: Requests)
      reads this
      ensures r == Answer(Abs(), c)
    {
      var n := NthCall(calls, c);
      if n in env.plugin then env.plugin[n] else Requests([], [], [], [], None, 0, None)
    }

    // ------------------------------------------------------------ small mutations

    method Announce(who: DeviceId)
      modifies this`out
      ensures Abs() == P.Announce(old(Abs()), who)
    {
      if who !in seen || seen[who].routes == map[] || Paired(who) { return; }
      var k := seen[who];
      Say(Offered(who, k.name, RouteList(k.routes)[0], k.busy));
    }

    method BeginPairing()
      modifies this`pairing
      ensures Abs() == P.BeginPairing(old(Abs()))
    {
      pairing := Some(Window(now.mono + env.config.pairingWindow, None));
    }

    method EndPairing(denied: bool)
      modifies this`pairing, this`quietUntil
      ensures Abs() == P.EndPairing(old(Abs()), denied)
    {
      pairing := None;
      quietUntil := now.mono + if denied then env.config.pairDeniedCooldown else env.config.pairCooldown;
    }

    method FailLink(link: LinkId)
      modifies this`links, this`out
      ensures Abs() == P.FailLink(old(Abs()), link)
    {
      var about: Option<DeviceId> := None;
      if link in links && links[link].Up? { about := Some(links[link].peer); }
      links := links - {link};
      Emit(Close(link, Protocol(NotAllowed)));
      Complain(about, NotAllowed);
    }

    method PairingAttemptFailed(link: LinkId)
      modifies this`links, this`pairing, this`quietUntil, this`out
      ensures Abs() == P.PairingAttemptFailed(old(Abs()), link)
    {
      FailLink(link);
      EndPairing(false);
      Say(PairingFailed(HandshakeFailed));
    }

    // --------------------------------------------------------- plugins and sending

    method DispatchSend(m: PendingSend, ours: bool)
      modifies this`nextMsg, this`out
      ensures Abs() == P.DispatchSend(old(Abs()), m, ours)
    {
      var best := BestLink(links, m.peer);
      if best.None? {
        Say(PeerUnreachable(m.peer));
        return;
      }
      var u := links[best.value];
      if m.cap !in u.canSend {
        Complain(Some(u.peer), CapNotNegotiated);
        return;
      }
      nextMsg := (nextMsg + 1) % 0x1_0000_0000;
      var msg := Envelope(nextMsg, m.re, m.cap, m.ty, m.body);
      if msg !in env.sealed { return; }
      if env.sealed[msg].Unsealable? {
        Complain(Some(u.peer), Internal);
      } else if env.sealed[msg].bytes > u.maxMessage {
        Complain(Some(u.peer), TooLarge);
      } else {
        Emit(LinkSend(best.value, Sealed(msg, ours)));
      }
    }

    method SendError(peer: DeviceId, to: Envelope, code: ErrorCode)
      modifies this`nextMsg, this`out
      ensures Abs() == P.SendError(old(Abs()), peer, to, code)
    {
      DispatchSend(PendingSend(peer, to.cap, "err", CodeName(code), Some(to.id)), true);
    }

    method Listening(t: TransferId, offeredAs: nat, key: BulkKey, bytes: nat)
      modifies this`bulkWait, this`out
      ensures Abs() == P.Listening(old(Abs()), t, offeredAs, key, bytes)
    {
      bulkWait := bulkWait[t := now.mono + BULK_DIAL_WAIT_MS];
      Emit(BulkListen(t, offeredAs, key, bytes));
    }

    method RefuseBulk(peer: DeviceId, t: TransferId)
      modifies this`bulkOwner, this`out
      ensures Abs() == P.RefuseBulk(old(Abs()), peer, t)
    {
      Complain(Some(peer), NotAllowed);
      Emit(BulkCancel(t));
      bulkOwner := bulkOwner - {t};
    }

    method DispatchBulk(b: BulkRequest)
      modifies this`bulkOwner, this`bulkWait, this`out
      ensures Abs() == P.DispatchBulk(old(Abs()), b)
    {
      if b.Cancel? {
        Emit(BulkCancel(b.transfer));
        return;
      }
      if BulkSupport(links, b.peer) == Some(NoBulk) {
        RefuseBulk(b.peer, b.transfer);
        return;
      }
      var best := BestLink(links, b.peer);
      if best.None? {
        Complain(Some(b.peer), NotAllowed);
        return;
      }
      var hash := links[best.value].hash;
      if b.Listen? {
        Listening(b.transfer, b.offeredAs, BulkKey(hash, b.peer, b.offeredAs), b.expectBytes);
      } else {
        Emit(BulkSend(b.transfer, b.endpoint, BulkKey(hash, env.me, b.transfer)));
      }
    }

    method SayEach(xs: seq<PluginNote>)
      modifies this`out
      ensures Abs() == DrainNotes(old(Abs()), xs)
    {
      for i := 0 to |xs|
        invariant Abs() == DrainNotes(old(Abs()), xs[..i])
      {
        assert xs[..i + 1][..i] == xs[..i];
        Say(SaidBy(xs[i]));
      }
      assert xs[..|xs|] == xs;
    }

    method PerformEach(xs: seq<Action>)
      requires forall i :: 0 <= i < |xs| ==> xs[i].Effect?
      modifies this`out
      ensures Abs() == DrainEffects(old(Abs()), xs)
    {
      for i := 0 to |xs|
        invariant Abs() == DrainEffects(old(Abs()), xs[..i])
      {
        assert xs[..i + 1][..i] == xs[..i];
        Emit(xs[i]);
      }
      assert xs[..|xs|] == xs;
    }

    method BulkEach(xs: seq<BulkRequest>)
      modifies this`bulkOwner, this`bulkWait, this`out
      ensures Abs() == DrainBulk(old(Abs()), xs)
    {
      for i := 0 to |xs|
        invariant Abs() == DrainBulk(old(Abs()), xs[..i])
      {
        assert xs[..i + 1][..i] == xs[..i];
        DispatchBulk(xs[i]);
      }
      assert xs[..|xs|] == xs;
    }

    method SendEach(xs: seq<PendingSend>)
      modifies this`nextMsg, this`out
      ensures Abs() == DrainSends(old(Abs()), xs)
    {
      for i := 0 to |xs|
        invariant Abs() == DrainSends(old(Abs()), xs[..i])
      {
        assert xs[..i + 1][..i] == xs[..i];
        DispatchSend(xs[i], false);
      }
      assert xs[..|xs|] == xs;
    }

    method WakeWithin(ms: Option<nat>)
      modifies this`wake
      ensures Abs() == P.WakeWithin(old(Abs()), ms)
    {
      if ms.None? { return; }
      var at := now.mono + ms.value;
      if wake.None? || at <= wake.value { wake := Some(at); }
    }

    method CarryOut(first: nat, r: Requests)
      modifies this`bulkOwner, this`bulkWait, this`nextMsg, this`out
      ensures Abs() == P.CarryOut(old(Abs()), first, r)
    {
      SayEach(r.notes);
      PerformEach(Tokened(first, r.effects));
      BulkEach(r.bulk);
      SendEach(r.sends);
    }

    method Drain(first: nat, r: Requests)
      modifies this`bulkOwner, this`bulkWait, this`nextMsg, this`wake, this`out
      ensures Abs() == P.Drain(old(Abs()), first, r)
    {
      CarryOut(first, r);
      WakeWithin(r.wakeIn);
    }

    /** Remember which plugin is owed the answers. */
    method RememberOwner(first: nat, r: Requests, idx: nat)
      modifies this`effectOwner, this`bulkOwner
      ensures effectOwner == OwnEffects(old(effectOwner), first, |r.effects|, idx)
      ensures bulkOwner == OwnTransfers(old(bulkOwner), r.bulk, idx)
    {
      for i := 0 to |r.effects|
        invariant effectOwner == OwnEffects(old(effectOwner), first, i, idx)
        invariant bulkOwner == old(bulkOwner)
      {
        effectOwner := effectOwner[first + i + 1 := idx];
      }
      for i := 0 to |r.bulk|
        invariant effectOwner == OwnEffects(old(effectOwner), first, |r.effects|, idx)
        invariant bulkOwner == OwnTransfers(old(bulkOwner), r.bulk[..i], idx)
      {
        assert r.bulk[..i + 1][..i] == r.bulk[..i];
        if !r.bulk[i].Cancel? { bulkOwner := bulkOwner[r.bulk[i].transfer := idx]; }
      }
      assert r.bulk[..|r.bulk|] == r.bulk;
    }

    method Count(r: Requests)
      modifies this`calls, this`nextToken, this`nextTransfer
      ensures Abs() == old(Abs()).(desk := Charge(old(Abs()).desk, r, None))
    {
      calls, nextToken, nextTransfer := calls + 1, nextToken + |r.effects|, nextTransfer + r.minted;
    }

    /** Book one call: the counters move on, and the owner is noted. */
    method Book(r: Requests, owner: Option<nat>)
      modifies this`calls, this`nextToken, this`nextTransfer, this`effectOwner, this`bulkOwner
      ensures Abs() == old(Abs()).(desk := Charge(old(Abs()).desk, r, owner))
    {
      var first := nextToken;
      Count(r);
      if owner.Some? { RememberOwner(first, r, owner.value); }
    }

    method CallPlugin(c: Call, owner: Option<nat>)
      modifies this`calls, this`nextToken, this`nextTransfer, this`effectOwner
      modifies this`bulkOwner, this`bulkWait, this`nextMsg, this`wake, this`out
      ensures Abs() == P.CallPlugin(old(Abs()), c, owner)
    {
      var r := AnswerTo(c);
      var first := nextToken;
      Book(r, owner);
      Drain(first, r);
    }

    method TellReady(t: TransferId, endpoint: string)
      modifies this`calls, this`nextToken, this`nextTransfer, this`effectOwner
      modifies this`bulkOwner, this`bulkWait, this`nextMsg, this`wake, this`out
      ensures Abs() == P.TellReady(old(Abs()), t, endpoint)
    {
      if t in bulkOwner { CallPlugin(BulkReady(bulkOwner[t], t, endpoint), Some(bulkOwner[t])); }
    }

    method TellOver(t: TransferId, ok: bool, detail: string)
      modifies this`calls, this`nextToken, this`nextTransfer, this`effectOwner
      modifies this`bulkOwner, this`bulkWait, this`nextMsg, this`wake, this`out
      ensures Abs() == P.TellOver(old(Abs()), t, ok, detail)
    {
      if t in bulkOwner { CallPlugin(BulkOver(bulkOwner[t], t, ok, detail), Some(bulkOwner[t])); }
    }

    // ------------------------------------------------------------------- dialling

    /** Give out the next dial token, to an attempt that is timed from now. */
    method Enlist(rest: PeerDial)
      modifies this`nextDial, this`peerDials
      ensures nextDial == old(nextDial) + 1
      ensures var timed := TimedDial(now.mono + env.config.dialTimeout, rest.(latest := nextDial));
        Abs() == old(Abs()).(dials := old(Abs()).dials.(last := nextDial, peer := old(peerDials)[nextDial := timed]))
    {
      nextDial := nextDial + 1;
      peerDials := peerDials[nextDial := TimedDial(now.mono + env.config.dialTimeout, rest.(latest := nextDial))];
    }

    method StartDial(r: Route, rest: PeerDial, after: Option<DialToken>)
      modifies this`nextDial, this`peerDials, this`out
      ensures Abs() == P.StartDial(old(Abs()), r, rest, after)
    {
      Enlist(rest);
      Emit(Dial(r, nextDial, after));
    }

    method TryNextRoute(p: PeerDial, why: Why)
      modifies this`nextDial, this`peerDials, this`trouble, this`out
      ensures Abs() == P.TryNextRoute(old(Abs()), p, why)
    {
      if BestLink(links, p.peer).Some? { return; }
      if p.routes == [] {
        trouble := trouble[p.peer := why];
        if p.byHand { Say(PeerUnreachable(p.peer)); }
        return;
      }
      StartDial(p.routes[0], p.(routes := p.routes[1..]), Some(p.latest));
    }

    method AdoptDials(peer: DeviceId)
      modifies this`peerDials
      ensures peerDials == map d | d in old(peerDials) :: AdoptedDial(old(peerDials)[d], peer)
    {
      var ids := Ascending(peerDials.Keys);
      for i := 0 to |ids|
        invariant peerDials.Keys == old(peerDials).Keys
        invariant forall d :: d in peerDials ==>
          peerDials[d] == if d in ids[..i] then AdoptedDial(old(peerDials)[d], peer) else old(peerDials)[d]
      {
        var t := peerDials[ids[i]];
        if t.dial.peer == peer { peerDials := peerDials[ids[i] := t.(dial := t.dial.(byHand := true))]; }
      }
    }

    method AdoptLinks(peer: DeviceId)
      modifies this`links
      ensures links == map l | l in old(links) :: AdoptedLink(old(links)[l], peer)
    {
      var ids := Ascending(links.Keys);
      for i := 0 to |ids|
        invariant links.Keys == old(links).Keys
        invariant forall l :: l in links ==>
          links[l] == if l in ids[..i] then AdoptedLink(old(links)[l], peer) else old(links)[l]
      {
        var k := links[ids[i]];
        if k.Handshaking? && k.fallback.Some? && k.fallback.value.peer == peer {
          links := links[ids[i] := k.(fallback := Some(k.fallback.value.(byHand := true)))];
        }
      }
    }

    method AdoptAttempt(peer: DeviceId)
      modifies this`peerDials, this`links
      ensures Abs() == P.AdoptAttempt(old(Abs()), peer)
    {
      AdoptDials(peer);
      assert Abs() == old(Abs()).(dials := P.AdoptAttempt(old(Abs()), peer).dials);
      AdoptLinks(peer);
    }

    method DialFirst(peer: DeviceId, routes: seq<Route>, byHand: bool)
      modifies this`nextDial, this`peerDials, this`trouble, this`out
      ensures Abs() == P.DialFirst(old(Abs()), peer, routes, byHand)
    {
      if routes == [] {
        trouble := trouble[peer := Nowhere];
        if byHand {
          Complain(Some(peer), NotAllowed);
          Say(PeerUnreachable(peer));
        }
        return;
      }
      StartDial(routes[0], PeerDial(peer, routes[1..], byHand, 0), None);
    }

    method ConnectPeer(peer: DeviceId, byHand: bool)
      modifies this`nextDial, this`peerDials, this`links, this`trouble, this`out
      ensures Abs() == P.ConnectPeer(old(Abs()), peer, byHand)
    {
      if !byHand && Dialling(peer) { return; }
      var routes := RouteList(KnownRoutes(peer));
      match PeerStateOf(peer)
      case Unreachable =>
        DialFirst(peer, routes, byHand);
      case Connecting =>
        if byHand { AdoptAttempt(peer); }
      case Reachable =>
        if byHand {
          Say(PeerReachable(peer, NameOf(peer)));
          return;
        }
        var best := BestLink(links, peer);
        if best.None? { return; }
        routes := BetterThan(routes, links[best.value].transport);
        if routes == [] { return; }
        DialFirst(peer, routes, byHand);
    }

    method ConnectEach(ids: seq<DeviceId>)
      modifies this`nextDial, this`peerDials, this`links, this`trouble, this`out
      ensures Abs() == P.ConnectEach(old(Abs()), ids)
    {
      for i := 0 to |ids|
        invariant Abs() == P.ConnectEach(old(Abs()), ids[..i])
      {
        assert ids[..i + 1][..i] == ids[..i];
        ConnectPeer(ids[i], false);
      }
      assert ids[..|ids|] == ids;
    }

    // ---------------------------------------------------------------- losing links

    method Gone(peer: DeviceId)
      modifies this`reconnectAt, this`out
      ensures Abs() == P.Gone(old(Abs()), peer)
    {
      Say(PeerUnreachable(peer));
      reconnectAt := Some(0);
    }

    method AfterLoss(peer: DeviceId)
      modifies this
      ensures Abs() == P.AfterLoss(old(Abs()), peer) && past == old(past)
    {
      if BestLink(links, peer).Some? {
        Say(PeerReachable(peer, NameOf(peer)));
        return;
      }
      Gone(peer);
      CallPlugin(Disconnected(peer), None);
    }

    /** A link that died while handshaking gives back the pairing slot, or lets
        its attempt go on. */
    method NeverOpened(k: Link)
      requires k.Handshaking?
      modifies this`pairing, this`nextDial, this`peerDials, this`trouble, this`out
      ensures var s := old(Abs());
        Abs() == WalkOn(if IsPairing(k) then s.(pairing := None) else s, k.fallback, ClosedEarly)
    {
      if k.hs.mode == Pair { pairing := None; }
      if k.fallback.Some? { TryNextRoute(k.fallback.value, ClosedEarly); }
    }

    method OnLinkDown(link: LinkId)
      modifies this
      ensures Abs() == P.OnLinkDown(old(Abs()), link) && past == old(past)
    {
      if link !in links || links[link].Pending? {
        links := links - {link};
        return;
      }
      var k := links[link];
      links := links - {link};
      if k.Handshaking? { NeverOpened(k); } else { AfterLoss(k.peer); }
    }

    method FailUpLink(link: LinkId)
      requires link in links && links[link].Up?
      modifies this
      ensures Abs() == P.FailUpLink(old(Abs()), link) && past == old(past)
    {
      Emit(Close(link, Protocol(NotAllowed)));
      Complain(Some(links[link].peer), NotAllowed);
      OnLinkDown(link);
    }

    method Drop(link: LinkId, why: CloseReason)
      requires link in links ==> links[link].Up?
      modifies this
      ensures Abs() == P.Drop(old(Abs()), link, why) && past == old(past)
    {
      Emit(Close(link, why));
      OnLinkDown(link);
    }

    method DropEach(ids: seq<LinkId>, why: CloseReason)
      requires forall l :: l in ids ==> l in links ==> links[l].Up?
      modifies this
      ensures Abs() == P.DropEach(old(Abs()), ids, why) && past == old(past)
    {
      for i := 0 to |ids|
        invariant Abs() == P.DropEach(old(Abs()), ids[..i], why) && past == old(past)
      {
        assert ids[..i + 1][..i] == ids[..i];
        Drop(ids[i], why);
      }
      assert ids[..|ids|] == ids;
    }

    // ---------------------------------------------------------------- link events

    method TakePairDial(d: DialToken)
      modifies this`pairDials
      ensures Abs() == old(Abs()).(dials := old(Abs()).dials.(pair := old(pairDials) - {d}))
    {
      pairDials := pairDials - {d};
    }

    method StartPairing(link: LinkId, attrs: LinkAttrs, d: DialToken, speaks: bool)
      requires d in pairDials
      modifies this`pairDials, this`links, this`out
      ensures Abs() == P.StartPairing(old(Abs()), link, attrs, d, speaks)
    {
      var via := pairDials[d];
      TakePairDial(d);
      if !speaks {
        FailLink(link);
        return;
      }
      Emit(LinkSend(link, PairOpener));
      links := links[link := Handshaking(Handshake(Pair, true, 1), attrs, now.mono + env.config.handshakeTimeout,
                                         None, Some(via), None)];
    }

    method StartSession(link: LinkId, attrs: LinkAttrs, p: PeerDial, speaks: bool)
      modifies this`links, this`out
      ensures Abs() == P.StartSession(old(Abs()), link, attrs, p, speaks)
    {
      if p.peer !in peers || peers[p.peer].key.None? || peers[p.peer].psk.None? || !speaks {
        FailLink(link);
        return;
      }
      Emit(LinkSend(link, SessionMessage(OurHello())));
      links := links[link := Handshaking(Handshake(Session, true, 1), attrs, now.mono + env.config.handshakeTimeout,
                                         Some(p.peer), None, Some(p))];
    }

    method OnLinkUp(link: LinkId, attrs: LinkAttrs, answers: Option<DialToken>, speaks: bool)
      modifies this`pairDials, this`peerDials, this`links, this`out
      ensures Abs() == P.OnLinkUp(old(Abs()), link, attrs, answers, speaks)
    {
      if answers.Some? && answers.value in pairDials {
        StartPairing(link, attrs, answers.value, speaks);
        return;
      }
      if answers.Some? && answers.value in peerDials {
        var p := TakeDial(answers.value);
        StartSession(link, attrs, p, speaks);
        return;
      }
      links := links[link := Pending(attrs, now.mono + env.config.handshakeTimeout)];
    }

    /** Validate a peer's Hello and advance its replay watermark. */
    method AcceptHello(peer: DeviceId, hello: Option<Hello>) returns (ok: bool)
      modifies this`peers, this`out
      ensures (Abs(), ok) == P.AcceptHello(old(Abs()), peer, hello)
    {
      if hello.None? {
        Complain(Some(peer), BadBody);
        return false;
      }
      if peer !in peers { return false; }
      var h := hello.value;
      if !CheckFreshness(h.ts, now.wall, peers[peer].greatestSeen) {
        Complain(Some(peer), NotAllowed);
        return false;
      }
      peers := peers[peer := Refreshed(peers[peer], h)];
      Emit(Persist(peers[peer].deviceId, Some(peers[peer])));
      return true;
    }

    method Install(link: LinkId, up: Link)
      requires up.Up?
      modifies this`links, this`trouble
      ensures var s := old(Abs());
        Abs() == s.(links := s.links[link := up], atlas := s.atlas.(trouble := s.atlas.trouble - {up.peer}))
    {
      links := links[link := up];
      trouble := trouble - {up.peer};
    }

    method Open(link: LinkId, up: Link, name: string)
      requires link !in links && up.Up?
      modifies this`links, this`trouble, this`out
      ensures Abs() == P.Open(old(Abs()), link, up, name)
    {
      Install(link, up);
      Say(PeerReachable(up.peer, name));
    }

    method FinishSession(link: LinkId, hash: nat, attrs: LinkAttrs, peer: DeviceId)
      requires link !in links
      modifies this
      ensures Abs() == P.FinishSession(old(Abs()), link, hash, attrs, peer) && past == old(past)
    {
      if !SupportsStatefulCipher(attrs) || peer !in peers {
        FailLink(link);
        return;
      }
      var rec := peers[peer];
      var up := Up(peer, hash, attrs.bulk, attrs.maxMessage, now.mono, attrs.transport,
                   env.capsOut * rec.capsIn, rec.capsOut * env.capsIn);
      Open(link, up, rec.name);
      CallPlugin(Connected(peer), None);
    }

    method Engage(link: LinkId, attrs: LinkAttrs, deadline: nat)
      modifies this`links, this`pairing, this`out
      ensures Abs() == P.Engage(old(Abs()), link, attrs, deadline)
    {
      BeginPairing();
      Emit(LinkSend(link, PairMessage(OurHello())));
      links := links[link := Handshaking(Handshake(Pair, false, 2), attrs, deadline, None, None, None)];
    }

    method OnPairOpener(link: LinkId, attrs: LinkAttrs, deadline: nat, body: Body)
      requires link !in links
      modifies this`links, this`pairing, this`quietUntil, this`out
      ensures Abs() == P.OnPairOpener(old(Abs()), link, attrs, deadline, body)
    {
      if WhyNotPair().Some? {
        FailLink(link);
        return;
      }
      if !body.read {
        quietUntil := now.mono + env.config.pairCooldown;
        FailLink(link);
        return;
      }
      if !body.write {
        FailLink(link);
        return;
      }
      Engage(link, attrs, deadline);
    }

    method OnSessionOpener(link: LinkId, attrs: LinkAttrs, body: Body)
      requires link !in links
      modifies this
      ensures Abs() == P.OnSessionOpener(old(Abs()), link, attrs, body) && past == old(past)
    {
      if body.opener.None? || body.opener.value !in peers
         || peers[body.opener.value].psk.None? || !body.read {
        FailLink(link);
        return;
      }
      var id := body.opener.value;
      var ok := AcceptHello(id, body.hello);
      if !ok || !body.write {
        FailLink(link);
        return;
      }
      Emit(LinkSend(link, SessionMessage(OurHello())));
      FinishSession(link, body.hash, attrs, id);
    }

    method Ask(id: DeviceId, a: Awaiting)
      modifies this`pairing, this`out
      ensures Abs() == P.Ask(old(Abs()), id, a)
    {
      pairing := Some(Window(now.mono + env.config.pairingWindow, Some(a)));
      Say(PairingSas(a.record.name, id, a.sas));
    }

    method PairingCompleted(link: LinkId, k: Link, body: Body)
      requires k.Handshaking? && link !in links
      modifies this`links, this`pairing, this`quietUntil, this`out
      ensures Abs() == P.PairingCompleted(old(Abs()), link, k, body)
    {
      if body.key.None? {
        FailLink(link);
        return;
      }
      if body.hello.None? {
        PairingAttemptFailed(link);
        return;
      }
      var record := NewRecord(body.key.value, body.hello.value, body.hash);
      links := links[link := Pending(k.attrs, k.deadline)];
      if pairing.None? || pairing.value.awaiting.Some? {
        FailLink(link);
        return;
      }
      Ask(body.key.value, Awaiting(link, record, Sas(body.hash), k.via));
    }

    method AfterRead(link: LinkId, k: Link, hs: Handshake, body: Body)
      requires k.Handshaking? && link !in links
      modifies this
      ensures Abs() == P.AfterRead(old(Abs()), link, k, hs, body) && past == old(past)
    {
      if !Complete(hs) {
        links := links[link := k.(hs := hs)];
        return;
      }
      if IsPairing(k) {
        PairingCompleted(link, k, body);
        return;
      }
      if k.aim.None? {
        FailLink(link);
        return;
      }
      var ok := AcceptHello(k.aim.value, body.hello);
      if !ok {
        FailLink(link);
        return;
      }
      FinishSession(link, body.hash, k.attrs, k.aim.value);
    }

    method OnHandshakeFrame(link: LinkId, k: Link, kind: FrameKind, body: Body)
      requires k.Handshaking? && link !in links
      modifies this
      ensures Abs() == P.OnHandshakeFrame(old(Abs()), link, k, kind, body) && past == old(past)
    {
      if kind != (if IsPairing(k) then PairHandshake else SessionHandshake) {
        FailLink(link);
        return;
      }
      if !body.read {
        if IsPairing(k) { PairingAttemptFailed(link); } else { FailLink(link); }
        return;
      }
      var hs := Advance(k.hs);
      if IsPairing(k) && MyTurn(hs) {
        if !body.write {
          FailLink(link);
          return;
        }
        Emit(LinkSend(link, PairMessage(OurHello())));
        hs := Advance(hs);
      }
      AfterRead(link, k, hs, body);
    }

    method OnPlain(peer: DeviceId, allowed: set<Cap>, plain: Plain)
      modifies this
      ensures Abs() == P.OnPlain(old(Abs()), peer, allowed, plain) && past == old(past)
    {
      if plain.Undecodable? {
        Complain(Some(peer), BadBody);
        return;
      }
      var msg := plain.env;
      if msg.cap !in allowed {
        SendError(peer, msg, CapNotNegotiated);
        return;
      }
      if msg.ty == "err" {
        Say(FromPlugin(peer, msg.cap, "err", msg.body));
        return;
      }
      var idx := HandlerOf(msg.cap);
      if idx.None? {
        SendError(peer, msg, CapNotNegotiated);
        return;
      }
      var call := Received(idx.value, peer, msg, BulkSupport(links, peer));
      var failed := AnswerTo(call).error;
      CallPlugin(call, idx);
      if failed.Some? { SendError(peer, msg, failed.value); }
    }

    method OnTransportFrame(link: LinkId, kind: FrameKind, body: Body)
      requires link in links && links[link].Up?
      modifies this
      ensures Abs() == P.OnTransportFrame(old(Abs()), link, kind, body) && past == old(past)
    {
      if !kind.Transport? || body.plain.None? {
        FailUpLink(link);
        return;
      }
      var u := links[link];
      links := links[link := u.(lastRecv := now.mono)];
      OnPlain(u.peer, u.canRecv, body.plain.value);
    }

    method OnLinkRecv(link: LinkId, frame: Frame)
      modifies this
      ensures Abs() == P.OnLinkRecv(old(Abs()), link, frame) && past == old(past)
    {
      if frame.Malformed? || link !in links {
        FailLink(link);
        return;
      }
      var k := links[link];
      if k.Up? {
        OnTransportFrame(link, frame.kind, frame.body);
        return;
      }
      links := links - {link};
      if k.Handshaking? {
        OnHandshakeFrame(link, k, frame.kind, frame.body);
        return;
      }
      match frame.kind
      case PairHandshake => OnPairOpener(link, k.attrs, k.deadline, frame.body);
      case SessionHandshake => OnSessionOpener(link, k.attrs, frame.body);
      case Transport => FailLink(link);
    }

    // ------------------------------------------------------------ local commands

    method LearnRoute(peer: DeviceId, r: Route)
      modifies this`addrs
      ensures Abs() == P.LearnRoute(old(Abs()), peer, r)
    {
      var known := if peer in addrs then addrs[peer] else map[];
      addrs := addrs[peer := known[r.transport := r.addr]];
    }

    method LearnProven(a: Awaiting, id: DeviceId)
      modifies this`addrs
      ensures Abs() == P.LearnProven(old(Abs()), a, id)
    {
      if a.via.Some? {
        LearnRoute(id, a.via.value);
      } else if id in seen {
        var known := if id in addrs then addrs[id] else map[];
        addrs := addrs[id := known + seen[id].routes];
      }
    }

    method Deny(a: Awaiting)
      modifies this`links, this`pairing, this`quietUntil, this`out
      ensures Abs() == P.Deny(old(Abs()), a)
    {
      Emit(Close(a.link, Protocol(NotAllowed)));
      links := links - {a.link};
      EndPairing(true);
      Say(PairingFailed(CodesDiffer));
    }

    method File(id: DeviceId, r: PeerRecord)
      modifies this`peers, this`pairing
      ensures Abs() == old(Abs()).(peers := old(peers)[id := r], pairing := None)
    {
      peers := peers[id := r];
      pairing := None;
    }

    /** Take a link out, and arm the first session. */
    method Part(link: LinkId)
      modifies this`links, this`reconnectAt
      ensures Abs() == old(Abs()).(links := old(links) - {link}, reconnectAt := Some(0))
    {
      links := links - {link};
      reconnectAt := Some(0);
    }

    method Admit(a: Awaiting, id: DeviceId)
      modifies this`addrs, this`peers, this`pairing, this`links, this`reconnectAt, this`out
      ensures Abs() == P.Admit(old(Abs()), a, id)
    {
      LearnProven(a, id);
      Emit(Persist(a.record.deviceId, Some(a.record)));
      Say(PairingComplete(id, a.record.name));
      File(id, a.record);
      Emit(Close(a.link, Closed));
      Part(a.link);
    }

    method OnConfirm(accept: bool)
      modifies this
      ensures Abs() == P.OnConfirm(old(Abs()), accept) && past == old(past)
    {
      if pairing.None? || pairing.value.awaiting.None? { return; }
      var a := pairing.value.awaiting.value;
      if !accept {
        Deny(a);
      } else if a.record.key.None? {
        pairing := Some(pairing.value.(awaiting := None));
      } else {
        Admit(a, a.record.key.value);
      }
    }

    method EnlistPair(r: Route)
      modifies this`nextDial, this`pairDials
      ensures nextDial == old(nextDial) + 1
      ensures Abs() == old(Abs()).(dials := Dials(old(pairDials)[nextDial := r], old(peerDials), nextDial))
    {
      nextDial := nextDial + 1;
      pairDials := pairDials[nextDial := r];
    }

    method OnRequestPairing(r: Route)
      modifies this`pairing, this`nextDial, this`pairDials, this`out
      ensures Abs() == P.OnRequestPairing(old(Abs()), r)
    {
      var why := WhyNotPair();
      if why.Some? {
        Say(PairingFailed(why.value));
        return;
      }
      BeginPairing();
      EnlistPair(r);
      Emit(Dial(r, nextDial, None));
    }

    method Erase(peer: DeviceId)
      modifies this`peers, this`addrs, this`trouble
      ensures Abs() == Erased(old(Abs()), peer)
    {
      peers := peers - {peer};
      addrs := addrs - {peer};
      trouble := trouble - {peer};
    }

    method Forgotten(peer: DeviceId)
      modifies this`peers, this`addrs, this`trouble, this`out
      ensures Abs() == P.Forgotten(old(Abs()), peer)
    {
      Erase(peer);
      Emit(Persist(peer, None));
    }

    method OnRevoke(peer: DeviceId)
      modifies this
      ensures Abs() == P.OnRevoke(old(Abs()), peer) && past == old(past)
    {
      var who := if peer in peers then peers[peer].key else None;
      Forgotten(peer);
      DropEach(UpLinks(links, peer), Protocol(NotPaired));
      Say(Revoked(peer));
      if who.Some? { Announce(who.value); }
    }

    method OnPluginCommand(peer: DeviceId, cap: Cap, ty: string, body: string)
      modifies this
      ensures Abs() == P.OnPluginCommand(old(Abs()), peer, cap, ty, body) && past == old(past)
    {
      var idx := HandlerOf(cap);
      if idx.None? {
        Complain(Some(peer), UnknownType);
        return;
      }
      var call := Asked(idx.value, peer, ty, body, BulkSupport(links, peer));
      var failed := AnswerTo(call).error;
      CallPlugin(call, idx);
      if failed.Some? { Complain(Some(peer), failed.value); }
    }

    method OnLocal(cmd: Command)
      modifies this
      ensures Abs() == P.OnLocal(old(Abs()), cmd) && past == old(past)
    {
      match cmd
      case RequestPairing(r) => OnRequestPairing(r);
      case ConfirmPairing(accept) => OnConfirm(accept);
      case SetPeerAddress(peer, r) =>
        if peer in peers { LearnRoute(peer, r); } else { Complain(Some(peer), NotPaired); }
      case Connect(peer) => ConnectPeer(peer, true);
      case ReconsiderRoutes => ConnectEach(Ascending(peers.Keys));
      case Disconnect(peer) => DropEach(UpLinks(links, peer), Closed);
      case Revoke(peer) => OnRevoke(peer);
      case PluginCommand(peer, cap, ty, body) => OnPluginCommand(peer, cap, ty, body);
    }

    // ------------------------------------------------------------------ discovery

    method Sighted(t: TransportId, who: DeviceId, name: string, addr: string, busy: bool)
      modifies this`seen
      ensures Abs() == P.Sighted(old(Abs()), t, who, name, addr, busy)
    {
      if |seen| >= MAX_SEEN && who !in seen { seen := map[]; }
      var routes := if who in seen then seen[who].routes else map[];
      seen := seen[who := Sighting(routes[t := addr], name, busy)];
    }

    method OnDiscovered(t: TransportId, who: Option<DeviceId>, name: string, addr: string, busy: bool)
      modifies this
      ensures Abs() == P.OnDiscovered(old(Abs()), t, who, name, addr, busy) && past == old(past)
    {
      if who.None? { return; }
      Sighted(t, who.value, name, addr, busy);
      if Paired(who.value) {
        LearnRoute(who.value, Route(t, addr));
        ConnectPeer(who.value, false);
      } else {
        Announce(who.value);
      }
    }

    method OnUndiscovered(t: TransportId, addr: string)
      modifies this`seen, this`out
      ensures Abs() == P.OnUndiscovered(old(Abs()), t, addr)
    {
      var gone := set w | w in seen && Forget(seen[w], t, addr) != seen[w] && Forget(seen[w], t, addr).routes == map[];
      seen := map w | w in seen :: Forget(seen[w], t, addr);
      WithdrawEach(Ascending(gone));
    }

    method Withdraw(who: DeviceId)
      modifies this`seen, this`out
      ensures var s := old(Abs());
        var out := s.(atlas := s.atlas.(seen := s.atlas.seen - {who}));
        Abs() == if P.Paired(out, who) then out else Tell(out, Withdrawn(who))
    {
      seen := seen - {who};
      if !Paired(who) { Say(Withdrawn(who)); }
    }

    method WithdrawEach(ids: seq<DeviceId>)
      modifies this`seen, this`out
      ensures Abs() == P.WithdrawEach(old(Abs()), ids)
    {
      for i := 0 to |ids|
        invariant Abs() == P.WithdrawEach(old(Abs()), ids[..i])
      {
        assert ids[..i + 1][..i] == ids[..i];
        Withdraw(ids[i]);
      }
      assert ids[..|ids|] == ids;
    }

    // ----------------------------------------------------------------------- tick

    method TickPairing()
      modifies this`links, this`pairing, this`quietUntil, this`out
      ensures Abs() == P.TickPairing(old(Abs()))
    {
      if pairing.None? || now.mono < pairing.value.deadline { return; }
      if pairing.value.awaiting.Some? {
        Emit(Close(pairing.value.awaiting.value.link, Closed));
        links := links - {pairing.value.awaiting.value.link};
      }
      EndPairing(false);
      Say(PairingFailed(NobodyConfirmed));
    }

    method StopWaiting(t: TransferId)
      modifies this`bulkWait
      ensures Abs() == old(Abs()).(desk := old(Abs()).desk.(bulkWait := old(bulkWait) - {t}))
    {
      bulkWait := bulkWait - {t};
    }

    method Disown(t: TransferId)
      modifies this`bulkOwner
      ensures Abs() == old(Abs()).(desk := old(Abs()).desk.(bulkOwner := old(bulkOwner) - {t}))
    {
      bulkOwner := bulkOwner - {t};
    }

    method GiveUp(t: TransferId)
      modifies this`calls, this`nextToken, this`nextTransfer, this`effectOwner
      modifies this`bulkOwner, this`bulkWait, this`nextMsg, this`wake, this`out
      ensures Abs() == P.GiveUp(old(Abs()), t)
    {
      StopWaiting(t);
      Emit(BulkCancel(t));
      TellOver(t, false, "the sender never connected");
      Disown(t);
    }

    method GiveUpEach(ids: seq<TransferId>)
      modifies this`calls, this`nextToken, this`nextTransfer, this`effectOwner
      modifies this`bulkOwner, this`bulkWait, this`nextMsg, this`wake, this`out
      ensures Abs() == P.GiveUpEach(old(Abs()), ids)
    {
      for i := 0 to |ids|
        invariant Abs() == P.GiveUpEach(old(Abs()), ids[..i])
      {
        assert ids[..i + 1][..i] == ids[..i];
        GiveUp(ids[i]);
      }
      assert ids[..|ids|] == ids;
    }

    method TickBulk()
      modifies this`calls, this`nextToken, this`nextTransfer, this`effectOwner
      modifies this`bulkOwner, this`bulkWait, this`nextMsg, this`wake, this`out
      ensures Abs() == P.TickBulk(old(Abs()))
    {
      GiveUpEach(LateTransfers(bulkWait, now.mono));
    }

    method CloseStale(l: LinkId)
      modifies this`links, this`nextDial, this`peerDials, this`trouble, this`out
      ensures Abs() == P.CloseStale(old(Abs()), l)
    {
      var fallback: Option<PeerDial> := None;
      if l in links && links[l].Handshaking? { fallback := links[l].fallback; }
      links := links - {l};
      Emit(Close(l, Closed));
      if fallback.Some? { TryNextRoute(fallback.value, CutOff); }
    }

    method CloseEach(ids: seq<LinkId>)
      requires forall l :: l in ids && l in links ==> !links[l].Up?
      modifies this`links, this`nextDial, this`peerDials, this`trouble, this`out
      ensures Abs() == P.CloseEach(old(Abs()), ids)
    {
      for i := 0 to |ids|
        invariant Abs() == P.CloseEach(old(Abs()), ids[..i])
      {
        assert ids[..i + 1][..i] == ids[..i];
        CloseStale(ids[i]);
      }
      assert ids[..|ids|] == ids;
    }

    method TickLinks()
      modifies this`links, this`nextDial, this`peerDials, this`trouble, this`out
      ensures Abs() == P.TickLinks(old(Abs()))
    {
      CloseEach(StaleLinks(links, now.mono));
    }

    method Expire(d: DialToken)
      modifies this`nextDial, this`peerDials, this`trouble, this`out
      ensures Abs() == P.Expire(old(Abs()), d)
    {
      if d !in peerDials { return; }
      var p := TakeDial(d);
      TryNextRoute(p, NoAnswer);
    }

    method ExpireEach(ids: seq<DialToken>)
      modifies this`nextDial, this`peerDials, this`trouble, this`out
      ensures Abs() == P.ExpireEach(old(Abs()), ids)
    {
      for i := 0 to |ids|
        invariant Abs() == P.ExpireEach(old(Abs()), ids[..i])
      {
        assert ids[..i + 1][..i] == ids[..i];
        Expire(ids[i]);
      }
      assert ids[..|ids|] == ids;
    }

    method TickDials()
      modifies this`nextDial, this`peerDials, this`trouble, this`out
      ensures Abs() == P.TickDials(old(Abs()))
    {
      ExpireEach(LateDials(peerDials, now.mono));
    }

    method Rearm()
      modifies this`reconnectAt
      ensures Abs() == Rearmed(old(Abs()))
    {
      reconnectAt := Some(now.mono + env.config.reconnectEvery);
    }

    method TickReconnect()
      modifies this
      ensures Abs() == P.TickReconnect(old(Abs())) && past == old(past)
    {
      if reconnectAt.Some? && now.mono < reconnectAt.value { return; }
      Rearm();
      ConnectEach(OutOfReach(peers, links, addrs));
    }

    method TickWake()
      modifies this
      ensures Abs() == P.TickWake(old(Abs())) && past == old(past)
    {
      if wake.None? || now.mono < wake.value { return; }
      wake := None;
      CallPlugin(Woken, None);
    }

    method OnTick()
      modifies this
      ensures Abs() == P.OnTick(old(Abs())) && past == old(past)
    {
      TickPairing();
      TickBulk();
      TickLinks();
      TickDials();
      TickReconnect();
      TickWake();
    }

    // ---------------------------------------------------------------- entry point

    method TakeDial(d: DialToken) returns (p: PeerDial)
      requires d in peerDials
      modifies this`peerDials
      ensures p == old(peerDials)[d].dial
      ensures Abs() == old(Abs()).(dials := old(Abs()).dials.(peer := old(peerDials) - {d}))
    {
      p := peerDials[d].dial;
      peerDials := peerDials - {d};
    }

    method OnDialFailed(d: DialToken, reason: string)
      modifies this
      ensures Abs() == P.OnDialFailed(old(Abs()), d, reason) && past == old(past)
    {
      if d in pairDials {
        TakePairDial(d);
        pairing := None;
        Say(PairingFailed(DialRefused(reason)));
      } else if d in peerDials {
        var p := TakeDial(d);
        TryNextRoute(p, HostSays(reason));
      }
    }

    method OnBulkFinished(t: TransferId, ok: bool, detail: string)
      modifies this
      ensures Abs() == P.OnBulkFinished(old(Abs()), t, ok, detail) && past == old(past)
    {
      TellOver(t, ok, detail);
      Disown(t);
      StopWaiting(t);
    }

    method OnEffectDone(t: EffectToken, result: string)
      modifies this
      ensures Abs() == P.OnEffectDone(old(Abs()), t, result) && past == old(past)
    {
      if t !in effectOwner { return; }
      var idx := effectOwner[t];
      effectOwner := effectOwner - {t};
      CallPlugin(EffectAnswer(idx, t, result), Some(idx));
    }

    method ReactToLink(ev: Event)
      requires ev.LinkUp? || ev.LinkRecv? || ev.LinkDown?
      modifies this
      ensures Abs() == P.React(old(Abs()), ev) && past == old(past)
    {
      match ev
      case LinkUp(link, attrs, answers, speaks) => OnLinkUp(link, attrs, answers, speaks);
      case LinkRecv(link, frame) => OnLinkRecv(link, frame);
      case LinkDown(link) => OnLinkDown(link);
    }

    method ReactToHost(ev: Event)
      requires ev.DialFailed? || ev.Discovered? || ev.Undiscovered?
      modifies this
      ensures Abs() == P.React(old(Abs()), ev) && past == old(past)
    {
      match ev
      case DialFailed(d, reason) => OnDialFailed(d, reason);
      case Discovered(t, who, name, addr, busy) => OnDiscovered(t, who, name, addr, busy);
      case Undiscovered(t, addr) => OnUndiscovered(t, addr);
    }

    method React(ev: Event)
      modifies this
      ensures Abs() == P.React(old(Abs()), ev) && past == old(past)
    {
      if ev.LinkUp? || ev.LinkRecv? || ev.LinkDown? {
        ReactToLink(ev);
      } else if ev.DialFailed? || ev.Discovered? || ev.Undiscovered? {
        ReactToHost(ev);
      } else if ev.BulkListening? {
        TellReady(ev.transfer, ev.endpoint);
      } else if ev.BulkStarted? {
        StopWaiting(ev.transfer);
      } else if ev.BulkFinished? {
        OnBulkFinished(ev.transfer, ev.ok, ev.detail);
      } else {
        match ev
        case Tick => OnTick();
        case Local(cmd) => OnLocal(cmd);
        case EffectDone(t, result) => OnEffectDone(t, result);
      }
    }

    /** A call begins with an empty outbox. */
    method Begin(now: Now)
      modifies this`now, this`out, this`past
      ensures Abs() == old(Abs()).(now := now) && out == [] && past == old(Abs().log)
    {
      past := past + Stamped(this.now, out);
      this.now, out := now, [];
      assert Stamped(now, []) == [];
    }

    /** The single entry point: what to do, and when to call again at the latest.
        Trust, the attempts under way and the announcements are kept as the run
        theorems say, and after a tick the host is asked back strictly later. */
    method Handle(now: Now, ev: Event) returns (actions: seq<Action>, deadline: Option<nat>)
      modifies this
      ensures Abs() == P.Handle(old(Abs()), now, ev)
      ensures Abs().log == old(Abs().log) + Stamped(Abs().now, actions)
      ensures deadline == Timers.NextDeadline(Abs())
      ensures Keeps(old(Abs()), Abs(), now, ev)
      ensures ev.Tick? && Positive(env) ==> After(deadline, now.mono)
    {
      ghost var before := Abs();
      Begin(now);
      React(ev);
      actions := out;
      deadline := NextDeadline();
      HandleKeeps(before, now, ev);
      if ev.Tick? && Positive(env) { TickClears(before, now); }
    }

    /** The soonest of all the moments the core waits for. */
    method NextDeadline() returns (best: Option<nat>)
      ensures best == Timers.NextDeadline(Abs())
    {
      best := wake;
      best := Soonest(best, reconnectAt, AsSet(wake));
      ghost var sofar := AsSet(wake) + AsSet(reconnectAt);
      best := SoonestOf(best, DialTimes(peerDials), sofar);
      sofar := sofar + DialTimes(peerDials).Values;
      best := Soonest(best, WindowTime(pairing), sofar);
      sofar := sofar + AsSet(WindowTime(pairing));
      best := SoonestOf(best, bulkWait, sofar);
      sofar := sofar + bulkWait.Values;
      best := SoonestOf(best, LinkTimes(links), sofar);
      sofar := sofar + LinkTimes(links).Values;
    }
  }

  /** What a caller wants of any call. */
  ghost predicate Keeps(s: State, r: State, now: Now, ev: Event) {
    && (TrustTable.Trusted(s) ==> TrustTable.Trusted(r) && TrustTable.Held(s.pairing, r.pairing))
    && (RouteWalk.Marching(s) ==> RouteWalk.Marching(r) && RouteWalk.Spent(s.dials, r.dials))
    && (Reach.Known(s) && Reach.Parked(s) && Reach.Mirrored(s) && Reach.Fresh(s, ev) ==>
          && Reach.Known(r)
          && (Reach.Mirrored(r) <==> !Reach.SilentLoss(s, ev))
          && (Reach.Parked(r) <==> !Reach.OpensOnParked(s.(now := now), ev)))
  }

  lemma HandleKeeps(s: State, now: Now, ev: Event)
    ensures Keeps(s, P.Handle(s, now, ev), now, ev)
  {
    if TrustTable.Trusted(s) { TrustTable.PairingLedger(s, now, ev); }
    if RouteWalk.Marching(s) { RouteWalk.RouteStep(s, now, ev); }
    if Reach.Known(s) && Reach.Parked(s) && Reach.Mirrored(s) && Reach.Fresh(s, ev) { Reach.MirrorStep(s, now, ev); }
  }

  // -------------------------------------------------------------------- the host

  /** The store once every `Persist` among some actions is carried out. */
  function Stored(disk: map<DeviceId, PeerRecord>, actions: seq<Action>): map<DeviceId, PeerRecord> {
    if actions == [] then disk else
      var before := Stored(disk, actions[..|actions| - 1]);
      match actions[|actions| - 1]
      case Persist(id, v) => if v.None? then before - {id} else before[id := v.value]
      case _ => before
  }

  lemma {:induction false} StoredIsReplayed(store: map<DeviceId, PeerRecord>, log: seq<Entry>, now: Now, actions: seq<Action>)
    ensures Replay(store, log + Stamped(now, actions)) == Stored(Replay(store, log), actions)
  {
    if actions == [] {
      assert log + Stamped(now, actions) == log;
    } else {
      var (front, last) := (actions[..|actions| - 1], actions[|actions| - 1]);
      StoredIsReplayed(store, log, now, front);
      var all := log + Stamped(now, actions);
      assert all[..|all| - 1] == log + Stamped(now, front) && all[|all| - 1] == Entry(now, last);
    }
  }

  method Store(disk: map<DeviceId, PeerRecord>, actions: seq<Action>) returns (after: map<DeviceId, PeerRecord>)
    ensures after == Stored(disk, actions)
  {
    after := disk;
    for i := 0 to |actions|
      invariant after == Stored(disk, actions[..i])
    {
      assert actions[..i + 1][..i] == actions[..i];
      match actions[i] {
        case Persist(id, v) => after := if v.None? then after - {id} else after[id := v.value];
        case _ =>
      }
    }
    assert actions[..|actions|] == actions;
  }

  /** A host that builds a core, carries out what it persists, calls it, and now and
      then starts it over from the store: what it then holds is what the run
      theorems speak of. */
  method Serve(env: Env, inputs: seq<Input>) returns (core: Core, disk: map<DeviceId, PeerRecord>)
    ensures fresh(core) && core.Abs() == Run(env, inputs)
    ensures disk == Replay(env.store, core.Abs().log)
    ensures TrustTable.Honest(env.store) ==> TrustTable.Trusted(core.Abs()) && core.Abs().peers == Filed(disk)
    ensures (forall i :: 0 <= i < |inputs| ==> inputs[i].Call?) ==> RouteWalk.Marching(core.Abs())
  {
    core := new Core(env);
    disk := env.store;
    for i := 0 to |inputs|
      invariant fresh(core) && core.env == env && core.Abs() == Run(env, inputs[..i])
      invariant disk == Replay(env.store, core.Abs().log)
    {
      assert inputs[..i + 1][..i] == inputs[..i];
      if inputs[i].Call? {
        ghost var log := core.Abs().log;
        var actions, deadline := core.Handle(inputs[i].now, inputs[i].ev);
        StoredIsReplayed(env.store, log, core.Abs().now, actions);
        disk := Store(disk, actions);
      } else {
        core := new Core.Revive(env, disk, core.calls, core.Abs().log);
      }
    }
    assert inputs[..|inputs|] == inputs;
    if TrustTable.Honest(env.store) {
      TrustTable.TrustHolds(env, inputs);
      TrustTable.RestartRebuilds(env, inputs);
    }
    if forall i :: 0 <= i < |inputs| ==> inputs[i].Call? {
      RunIsLive(env, CallsOf(inputs));
      RouteWalk.RoutesHold(env, CallsOf(inputs));
    }
  }

  /** The least of a set, when it has one. */
  predicate IsSoonest(best: Option<nat>, s: set<nat>) {
    (best.None? <==> s == {}) && (best.Some? ==> best.value in s && forall d :: d in s ==> best.value <= d)
  }

  function Sooner(best: Option<nat>, d: nat): Option<nat> {
    if best.Some? && best.value < d then best else Some(d)
  }

  function Soonest(best: Option<nat>, d: Option<nat>, ghost s: set<nat>): (r: Option<nat>)
    requires IsSoonest(best, s)
    ensures IsSoonest(r, s + AsSet(d))
  {
    if d.None? then best else Sooner(best, d.value)
  }

  method SoonestOf(first: Option<nat>, m: map<nat, nat>, ghost s: set<nat>) returns (best: Option<nat>)
    requires IsSoonest(first, s)
    ensures IsSoonest(best, s + m.Values)
  {
    var ids := Ascending(m.Keys);
    best := first;
    for i := 0 to |ids|
      invariant IsSoonest(best, s + set k | 0 <= k < i :: m[ids[k]])
    {
      assert (set k | 0 <= k < i + 1 :: m[ids[k]]) == (set k | 0 <= k < i :: m[ids[k]]) + {m[ids[i]]};
      assert s + (set k | 0 <= k < i + 1 :: m[ids[k]]) == s + (set k | 0 <= k < i :: m[ids[k]]) + {m[ids[i]]};
      best := Sooner(best, m[ids[i]]);
    }
    assert (set k | 0 <= k < |ids| :: m[ids[k]]) == m.Values by {
      forall v | v in m.Values ensures v in set k | 0 <= k < |ids| :: m[ids[k]] {
        var key :| key in m && m[key] == v;
        assert key in ids;
      }
    }
  }
}

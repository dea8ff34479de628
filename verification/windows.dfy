/** Hosts that never ask to pair: a pairing handshake cannot outlive its
    window, so no tick strands one. */
module PairingWindow {
  import opened Wrappers
  import opened Orders
  import opened Vocab
  import opened History
  import opened Protocol
  import opened Runs
  import opened TrustTable
  import opened PromptRate

  /** No pairing was dialled; no link waits longer than a handshake may take,
      and none that pairs waits longer than the window. */
  predicate InTime(s: State) {
    && s.dials.pair == map[]
    && forall l :: l in s.links && !s.links[l].Up? ==>
         && s.links[l].deadline <= s.now.mono + s.env.config.handshakeTimeout
         && (IsPairing(s.links[l]) ==> s.pairing.Some? && s.links[l].deadline <= s.pairing.value.deadline)
  }

  lemma InTimeIsNotStranded(s: State)
    requires InTime(s)
    ensures !Strands(s)
  {
  }

  /** No link was added, none waits longer, and none began to pair. */
  predicate LinksKept(a: map<LinkId, Link>, b: map<LinkId, Link>) {
    forall l :: l in b && !b[l].Up? ==>
      && l in a && !a[l].Up? && b[l].deadline == a[l].deadline
      && (IsPairing(b[l]) ==> IsPairing(a[l]))
  }

  /** The window is the same, or closed, or now waits for a person. */
  predicate WindowKept(a: Option<Window>, b: Option<Window>) {
    b.None? || b.value.awaiting.Some? || (a.Some? && a.value.deadline == b.value.deadline)
  }

  predicate Drifts(s: State, r: State) {
    && r.now == s.now && r.env == s.env && (s.dials.pair == map[] ==> r.dials.pair == map[])
    && LinksKept(s.links, r.links) && WindowKept(s.pairing, r.pairing)
  }

  lemma DriftIsInTime(s: State, r: State)
    requires InTime(s) && Drifts(s, r) && Single(r)
    ensures InTime(r)
  {
    forall l | l in r.links && IsPairing(r.links[l])
      ensures r.pairing.Some? && r.links[l].deadline <= r.pairing.value.deadline {
      assert !Idle(r);
    }
  }

  lemma WalkDrifts(s: State, r: State)
    requires Walk(s, r)
    ensures Drifts(s, r)
  {
  }

  lemma FewerDrift(s: State, r: State)
    requires r.now == s.now && r.env == s.env && r.dials.pair == s.dials.pair && WindowKept(s.pairing, r.pairing)
    requires forall l :: l in r.links && !r.links[l].Up? ==> l in s.links && r.links[l] == s.links[l]
    ensures Drifts(s, r)
  {
  }

  // -------------------------------------------------------------- received frames

  lemma HelloDrifts(s: State, peer: DeviceId, hello: Option<Hello>)
    ensures var r := AcceptHello(s, peer, hello).0;
      r == s.(peers := r.peers, log := r.log)
  {
  }

  lemma FinishDrifts(s: State, m: State, link: LinkId, hash: nat, attrs: LinkAttrs, peer: DeviceId)
    requires link !in m.links && m == s.(peers := m.peers, log := m.log)
    ensures Drifts(s, FinishSession(m, link, hash, attrs, peer))
  {
    FewerDrift(s, FinishSession(m, link, hash, attrs, peer));
  }

  lemma FailDrifts(s: State, m: State, link: LinkId)
    requires m == s.(peers := m.peers, log := m.log)
    ensures Drifts(s, FailLink(m, link))
  {
  }

  lemma SessionOpenerDrifts(s: State, link: LinkId, attrs: LinkAttrs, body: Body)
    requires link !in s.links
    ensures Drifts(s, OnSessionOpener(s, link, attrs, body))
  {
    if body.opener.None? || body.opener.value !in s.peers
       || s.peers[body.opener.value].psk.None? || !body.read {
      FailDrifts(s, s, link);
    } else {
      var r := AcceptHello(s, body.opener.value, body.hello);
      HelloDrifts(s, body.opener.value, body.hello);
      if !r.1 || !body.write {
        FailDrifts(s, r.0, link);
      } else {
        FinishDrifts(s, Greet(r.0, link), link, body.hash, attrs, body.opener.value);
      }
    }
  }

  /** `link` was taken out of `s`, where it was `k`. */
  predicate TookOut(s: State, out: State, link: LinkId, k: Link) {
    && link in s.links && s.links[link] == k && k.Handshaking?
    && out == s.(links := s.links - {link}, log := out.log)
  }

  lemma PairingCompletedDrifts(s: State, out: State, link: LinkId, k: Link, body: Body)
    requires TookOut(s, out, link, k)
    ensures Drifts(s, PairingCompleted(out, link, k, body))
  {
    if body.key.None? {
    } else if body.hello.None? {
    } else if out.pairing.None? || out.pairing.value.awaiting.Some? {
    } else {
    }
  }

  lemma AfterReadDrifts(s: State, out: State, link: LinkId, k: Link, hs: Handshake, body: Body)
    requires TookOut(s, out, link, k) && hs.mode == k.hs.mode
    ensures Drifts(s, AfterRead(out, link, k, hs, body))
  {
    if !Complete(hs) {
    } else if IsPairing(k) {
      PairingCompletedDrifts(s, out, link, k, body);
    } else if k.aim.None? {
    } else {
      HelloDrifts(out, k.aim.value, body.hello);
      var r := AcceptHello(out, k.aim.value, body.hello);
      if !r.1 {
        FailDrifts(out, r.0, link);
      } else {
        FinishDrifts(out, r.0, link, body.hash, k.attrs, k.aim.value);
      }
    }
  }

  lemma HandshakeFrameDrifts(s: State, out: State, link: LinkId, k: Link, kind: FrameKind, body: Body)
    requires TookOut(s, out, link, k)
    ensures Drifts(s, OnHandshakeFrame(out, link, k, kind, body))
  {
    if kind != (if IsPairing(k) then PairHandshake else SessionHandshake) {
    } else if !body.read {
      if IsPairing(k) {} else {}
    } else {
      var hs := Advance(k.hs);
      if IsPairing(k) && MyTurn(hs) {
        if body.write {
          AfterReadDrifts(s, GreetPair(out, link), link, k, Advance(hs), body);
        }
      } else {
        AfterReadDrifts(s, out, link, k, hs, body);
      }
    }
  }

  /** An opener that takes the slot opens a window no shorter than what is
      left of its link's time. */
  lemma PairOpenerInTime(s: State, link: LinkId, attrs: LinkAttrs, deadline: nat, body: Body)
    requires InTime(s) && link !in s.links && s.env.config.handshakeTimeout <= s.env.config.pairingWindow
    requires deadline <= s.now.mono + s.env.config.handshakeTimeout
    requires Single(OnPairOpener(s, link, attrs, deadline, body))
    ensures InTime(OnPairOpener(s, link, attrs, deadline, body))
  {
    var r := OnPairOpener(s, link, attrs, deadline, body);
    if WhyNotPair(s).Some? {
      DriftIsInTime(s, r);
    } else if !body.read {
      DriftIsInTime(s, r);
    } else if !body.write {
      DriftIsInTime(s, r);
    } else {
      assert PairLink(r.links, link);
      assert forall l :: PairLink(r.links, l) ==> l == link;
    }
  }

  lemma TransportDrifts(s: State, link: LinkId, kind: FrameKind, body: Body)
    requires link in s.links && s.links[link].Up?
    ensures Drifts(s, OnTransportFrame(s, link, kind, body))
  {
    FewerDrift(s, OnTransportFrame(s, link, kind, body));
  }

  lemma RecvInTime(s: State, link: LinkId, frame: Frame)
    requires InTime(s) && s.env.config.handshakeTimeout <= s.env.config.pairingWindow
    requires Single(OnLinkRecv(s, link, frame))
    ensures InTime(OnLinkRecv(s, link, frame))
  {
    var out := s.(links := s.links - {link});
    var r := OnLinkRecv(s, link, frame);
    if frame.Malformed? || link !in s.links {
      DriftIsInTime(s, r);
    } else if s.links[link].Up? {
      TransportDrifts(s, link, frame.kind, frame.body);
      DriftIsInTime(s, r);
    } else if s.links[link].Handshaking? {
      HandshakeFrameDrifts(s, out, link, s.links[link], frame.kind, frame.body);
      DriftIsInTime(s, r);
    } else {
      match frame.kind
      case PairHandshake =>
        PairOpenerInTime(out, link, s.links[link].attrs, s.links[link].deadline, frame.body);
      case SessionHandshake =>
        SessionOpenerDrifts(out, link, s.links[link].attrs, frame.body);
        DriftIsInTime(out, r);
      case Transport =>
        DriftIsInTime(s, r);
    }
  }

  // -------------------------------------------------------------- everything else

  lemma LinkUpInTime(s: State, link: LinkId, attrs: LinkAttrs, answers: Option<DialToken>, speaks: bool)
    requires InTime(s)
    ensures InTime(OnLinkUp(s, link, attrs, answers, speaks))
  {
    if answers.Some? && answers.value in s.dials.peer {} else {}
  }

  lemma ConfirmDrifts(s: State, accept: bool)
    ensures Drifts(s, OnConfirm(s, accept))
  {
    if Awaits(s.pairing).None? {
    } else if !accept {
    } else if Awaits(s.pairing).value.record.key.None? {
    } else {
    }
  }

  lemma LocalDrifts(s: State, cmd: Command)
    requires !cmd.RequestPairing?
    ensures Drifts(s, OnLocal(s, cmd))
  {
    match cmd
    case RequestPairing(route) =>
    case ConfirmPairing(accept) => ConfirmDrifts(s, accept);
    case SetPeerAddress(peer, route) => if peer in s.peers {} else {}
    case Connect(peer) => WalkDrifts(s, ConnectPeer(s, peer, true));
    case ReconsiderRoutes => WalkDrifts(s, ConnectEach(s, Ascending(s.peers.Keys)));
    case Disconnect(peer) => FewerDrift(s, DropEach(s, UpLinks(s.links, peer), Closed));
    case Revoke(peer) => FewerDrift(s, OnRevoke(s, peer));
    case PluginCommand(peer, cap, ty, body) => FewerDrift(s, OnPluginCommand(s, peer, cap, ty, body));
  }

  lemma DriftTwice(s: State, m: State, r: State)
    requires Drifts(s, m) && Drifts(m, r)
    requires r.pairing == m.pairing
    ensures Drifts(s, r)
  {
  }

  lemma TickDrifts(s: State)
    ensures Drifts(s, OnTick(s))
  {
    var s1 := TickPairing(s);
    var s2 := TickBulk(s1);
    var s3 := TickLinks(s2);
    FewerDrift(s, s3);
    var s4 := TickDials(s3);
    WalkDrifts(s3, s4);
    var s5 := TickReconnect(s4);
    WalkDrifts(s4.(reconnectAt := s5.reconnectAt), s5);
    var s6 := TickWake(s5);
    DriftTwice(s, s3, s4);
    DriftTwice(s, s4, s5);
    DriftTwice(s, s5, s6);
  }

  lemma DialFailedDrifts(s: State, d: DialToken, reason: string)
    requires s.dials.pair == map[]
    ensures Drifts(s, OnDialFailed(s, d, reason))
  {
    if d in s.dials.peer {
      WalkDrifts(s.(dials := s.dials.(peer := s.dials.peer - {d})), OnDialFailed(s, d, reason));
    }
  }

  lemma ReactDrifts(s: State, ev: Event)
    requires !ev.LinkUp? && !ev.LinkRecv? && s.dials.pair == map[]
    requires ev.Local? ==> !ev.cmd.RequestPairing?
    ensures Drifts(s, React(s, ev))
  {
    if ev.LinkDown? {
      FewerDrift(s, React(s, ev));
    } else if ev.DialFailed? {
      DialFailedDrifts(s, ev.dial, ev.reason);
    } else if ev.Discovered? {
      WalkDrifts(s.(atlas := React(s, ev).atlas), React(s, ev));
    } else if ev.Tick? {
      TickDrifts(s);
    } else if ev.Local? {
      LocalDrifts(s, ev.cmd);
    } else {
      FewerDrift(s, React(s, ev));
    }
  }

  // ------------------------------------------------------------- the theorem

  /** Time goes on, and nobody at this host asks to pair. */
  predicate Passive(env: Env, inputs: seq<Input>) {
    if inputs == [] then true else
      var front := inputs[..|inputs| - 1];
      Passive(env, front) &&
      match inputs[|inputs| - 1]
      case Call(now, ev) => Run(env, front).now.mono <= now.mono && (ev.Local? ==> !ev.cmd.RequestPairing?)
      case Restart => false
  }

  lemma PassiveStep(s: State, now: Now, ev: Event)
    requires s.env.config.handshakeTimeout <= s.env.config.pairingWindow
    requires Single(s) && Quieted(s) && InTime(s) && s.now.mono <= now.mono
    requires ev.Local? ==> !ev.cmd.RequestPairing?
    ensures !(ev.Tick? && Strands(s.(now := now)))
    ensures InTime(Handle(s, now, ev))
  {
    var s0 := s.(now := now);
    assert InTime(s0);
    InTimeIsNotStranded(s0);
    PromptStep(s, now, ev);
    if ev.LinkUp? {
      LinkUpInTime(s0, ev.link, ev.attrs, ev.answers, ev.speaks);
    } else if ev.LinkRecv? {
      RecvInTime(s0, ev.link, ev.frame);
    } else {
      ReactDrifts(s0, ev);
      DriftIsInTime(s0, React(s0, ev));
    }
  }

  /** Where nobody asks to pair and a handshake may take no longer than the
      window, in every reachable state at most one pairing link is handshaking,
      and only while the slot is held with nothing waiting for a person; and all
      prompts keep their distance. */
  lemma {:induction false} PassiveIsOrderly(env: Env, inputs: seq<Input>)
    requires env.config.handshakeTimeout <= env.config.pairingWindow && Passive(env, inputs)
    ensures Orderly(env, inputs)
    ensures var s := Run(env, inputs); Single(s) && Quieted(s) && InTime(s) && s.env == env
  {
    if inputs != [] {
      var front := inputs[..|inputs| - 1];
      PassiveIsOrderly(env, front);
      match inputs[|inputs| - 1]
      case Call(now, ev) => PassiveStep(Run(env, front), now, ev);
      case Restart =>
    }
    PromptsHold(env, inputs);
  }
}

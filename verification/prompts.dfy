/** How often a person can be asked to compare digits. */
module PromptRate {
  import opened Wrappers
  import opened Orders
  import opened Vocab
  import opened History
  import opened Protocol
  import opened Runs
  import opened TrustTable

  predicate PairLink(links: map<LinkId, Link>, l: LinkId) {
    l in links && IsPairing(links[l])
  }

  predicate NoPairLink(links: map<LinkId, Link>) {
    forall l :: l in links ==> !IsPairing(links[l])
  }

  /** Nobody is pairing: no handshake, and no dial that would start one. */
  predicate Idle(s: State) {
    NoPairLink(s.links) && s.dials.pair == map[]
  }

  /** At most one pairing is under way, as a dial or as a handshake, and only
      while the slot is held with nothing waiting for a person. */
  ghost predicate Single(s: State) {
    && (forall l, m :: PairLink(s.links, l) && PairLink(s.links, m) ==> l == m)
    && (forall c, d :: c in s.dials.pair && d in s.dials.pair ==> c == d)
    && (s.dials.pair == map[] || NoPairLink(s.links))
    && (!Idle(s) ==> s.pairing.Some? && s.pairing.value.awaiting.None?)
  }

  /** What happened at `t` is over: the gap has passed, or the slot is empty and
      stays closed until it has. */
  predicate Rested(s: State, t: Option<nat>, gap: nat) {
    t.None? || t.value + gap <= s.now.mono || (s.pairing.None? && t.value + gap <= s.quietUntil)
  }

  ghost predicate Quieted(s: State) {
    var p := Shown(s).prompts;
    && p.spaced
    && (p.last.Some? ==> p.last.value <= s.now.mono)
    && (p.recent.Some? ==> p.recent.value <= s.now.mono)
    && (Awaits(s.pairing).Some? ==> Awaits(s.pairing).value.record.key.Some?)
    && (Awaits(s.pairing).Some? || Rested(s, p.last, Gap(s.env.config)))
    && (Awaits(s.pairing).Some? || Rested(s, p.recent, s.env.config.pairCooldown))
    && Rested(s, p.denial, s.env.config.pairDeniedCooldown)
  }

  ghost predicate FewerPairs(a: map<LinkId, Link>, b: map<LinkId, Link>) {
    forall l :: PairLink(b, l) ==> PairLink(a, l)
  }

  ghost predicate Undisturbed(s: State, r: State) {
    && r.env == s.env && r.now == s.now
    && r.pairing == s.pairing && r.quietUntil == s.quietUntil && r.dials.pair == s.dials.pair
    && Shown(r).prompts == Shown(s).prompts
  }

  /** What every step keeps. */
  ghost predicate Spacing(s: State, r: State) {
    Single(s) && Quieted(s) ==> Single(r) && Quieted(r)
  }

  /** Nothing about pairing moved, but that an attempt may have vanished. */
  lemma Resting(s: State, r: State)
    requires Undisturbed(s, r) && FewerPairs(s.links, r.links)
    ensures Spacing(s, r)
    ensures Single(s) ==> Single(r)
    ensures Quieted(s) ==> Quieted(r)
  {
    if Idle(s) { assert forall l :: l in r.links ==> !PairLink(r.links, l); }
    if NoPairLink(s.links) { assert forall l :: l in r.links ==> !PairLink(r.links, l); }
  }

  lemma FewerAlike(a: map<LinkId, Link>, b: map<LinkId, Link>)
    requires Alike(a, b)
    ensures FewerPairs(a, b)
  {
  }

  // -------------------------------------------------------------- received frames

  lemma HelloUndisturbed(s: State, peer: DeviceId, hello: Option<Hello>)
    ensures Undisturbed(s, AcceptHello(s, peer, hello).0)
  {
    if hello.None? {
    } else if peer !in s.peers {
    } else if !CheckFreshness(hello.value.ts, s.now.wall, s.peers[peer].greatestSeen) {
    } else {
    }
  }

  lemma SessionOpenerRests(s: State, link: LinkId, attrs: LinkAttrs, body: Body)
    requires link !in s.links
    ensures var r := OnSessionOpener(s, link, attrs, body); Undisturbed(s, r) && FewerPairs(s.links, r.links)
  {
    if body.opener.None? || body.opener.value !in s.peers
       || s.peers[body.opener.value].psk.None? || !body.read {
    } else {
      HelloUndisturbed(s, body.opener.value, body.hello);
      var r := AcceptHello(s, body.opener.value, body.hello);
      if !r.1 || !body.write {
      } else {
        var sent := Greet(r.0, link);
        var f := FinishSession(sent, link, body.hash, attrs, body.opener.value);
        assert f == OnSessionOpener(s, link, attrs, body);
      }
    }
  }

  /** An inbound opener takes the slot only when it is free, its cooldown over
      and this machine willing; a bad first message only starts the cooldown; and
      whatever else is wrong changes neither slot nor quiet time. */
  lemma OpenerTakesFreeSlot(s: State, link: LinkId, attrs: LinkAttrs, deadline: nat, body: Body)
    requires link !in s.links
    ensures var r := OnPairOpener(s, link, attrs, deadline, body);
      var free := s.env.config.acceptPairRequests && s.pairing.None? && s.quietUntil <= s.now.mono;
      && r.pairing == (if free && body.read && body.write
                       then Some(Window(s.now.mono + s.env.config.pairingWindow, None)) else s.pairing)
      && r.quietUntil == (if free && !body.read then s.now.mono + s.env.config.pairCooldown else s.quietUntil)
      && (link in r.links <==> free && body.read && body.write)
  {
    if WhyNotPair(s).Some? {
    } else if !body.read {
    } else if !body.write {
    } else {
    }
  }

  lemma PairOpenerSpaces(s: State, link: LinkId, attrs: LinkAttrs, deadline: nat, body: Body)
    requires link !in s.links
    ensures Spacing(s, OnPairOpener(s, link, attrs, deadline, body))
  {
    var r := OnPairOpener(s, link, attrs, deadline, body);
    if WhyNotPair(s).Some? {
      Resting(s, r);
    } else if !body.read {
      assert s.links - {link} == s.links;
    } else if !body.write {
      Resting(s, r);
    } else if Single(s) && Quieted(s) {
      assert Idle(s);
      assert forall l :: PairLink(r.links, l) ==> l == link;
    }
  }

  /** The attempt on `link` was the only one, and its link is out of the table. */
  ghost predicate Alone(s: State) {
    && Idle(s) && Quieted(s)
    && s.pairing.Some? && s.pairing.value.awaiting.None?
  }

  lemma OnlyAttempt(s: State, link: LinkId)
    requires Single(s) && Quieted(s) && PairLink(s.links, link)
    ensures Alone(s.(links := s.links - {link}))
  {
    var out := s.(links := s.links - {link});
    forall l | l in out.links ensures !IsPairing(out.links[l]) { assert PairLink(s.links, l) ==> l == link; }
  }

  lemma IdleIsSingle(s: State)
    requires Idle(s)
    ensures Single(s)
  {
  }

  /** A prompt comes when the slot was held with nobody waiting and all
      cooldowns over. */
  lemma AskSpaces(s: State, id: DeviceId, a: Awaiting)
    requires Alone(s) && a.record.key.Some?
    ensures Single(Ask(s, id, a)) && Quieted(Ask(s, id, a))
  {
    IdleIsSingle(Ask(s, id, a));
  }

  lemma PairingCompletedSpaces(s: State, link: LinkId, k: Link, body: Body)
    requires k.Handshaking? && link !in s.links && Alone(s)
    ensures Single(PairingCompleted(s, link, k, body)) && Quieted(PairingCompleted(s, link, k, body))
  {
    assert s.links - {link} == s.links;
    if body.key.None? {
      Resting(s, FailLink(s, link));
    } else if body.hello.None? {
      IdleIsSingle(PairingAttemptFailed(s, link));
    } else {
      var parked := s.(links := s.links[link := Pending(k.attrs, k.deadline)]);
      var record := NewRecord(body.key.value, body.hello.value, body.hash);
      AskSpaces(parked, body.key.value, Awaiting(link, record, Sas(body.hash), k.via));
    }
  }

  lemma PairAfterReadSpaces(s: State, link: LinkId, k: Link, hs: Handshake, body: Body)
    requires IsPairing(k) && hs.mode == Pair && link !in s.links && Alone(s)
    ensures var r := AfterRead(s, link, k, hs, body); Single(r) && Quieted(r)
  {
    if !Complete(hs) {
      var r := AfterRead(s, link, k, hs, body);
      assert forall l :: PairLink(r.links, l) ==> l == link;
    } else {
      PairingCompletedSpaces(s, link, k, body);
    }
  }

  lemma PairFrameSpaces(s: State, link: LinkId, k: Link, kind: FrameKind, body: Body)
    requires IsPairing(k) && link !in s.links && Alone(s)
    ensures var r := OnHandshakeFrame(s, link, k, kind, body); Single(r) && Quieted(r)
  {
    assert s.links - {link} == s.links;
    if kind != PairHandshake {
    } else if !body.read {
    } else {
      var hs := Advance(k.hs);
      if MyTurn(hs) {
        if body.write {
          var sent := GreetPair(s, link);
          PairAfterReadSpaces(sent, link, k, Advance(hs), body);
        }
      } else {
        PairAfterReadSpaces(s, link, k, hs, body);
      }
    }
  }

  lemma SessionAfterReadRests(s: State, link: LinkId, k: Link, hs: Handshake, body: Body)
    requires k.Handshaking? && !IsPairing(k) && hs.mode == Session && link !in s.links
    ensures var r := AfterRead(s, link, k, hs, body); Undisturbed(s, r) && FewerPairs(s.links, r.links)
  {
    if !Complete(hs) {
    } else if k.aim.None? {
    } else {
      HelloUndisturbed(s, k.aim.value, body.hello);
      var r := AcceptHello(s, k.aim.value, body.hello);
      if !r.1 {
      } else {
        var f := FinishSession(r.0, link, body.hash, k.attrs, k.aim.value);
        assert f == AfterRead(s, link, k, hs, body);
      }
    }
  }

  lemma SessionFrameRests(s: State, link: LinkId, k: Link, kind: FrameKind, body: Body)
    requires k.Handshaking? && !IsPairing(k) && link !in s.links
    ensures var r := OnHandshakeFrame(s, link, k, kind, body); Undisturbed(s, r) && FewerPairs(s.links, r.links)
  {
    if kind != SessionHandshake {
    } else if !body.read {
    } else {
      SessionAfterReadRests(s, link, k, Advance(k.hs), body);
    }
  }

  lemma FirstFrameSpaces(s: State, link: LinkId, frame: Frame)
    requires link in s.links && s.links[link].Pending? && frame.Frame?
    ensures Spacing(s, OnLinkRecv(s, link, frame))
  {
    var out := s.(links := s.links - {link});
    var r := OnLinkRecv(s, link, frame);
    Resting(s, out);
    match frame.kind
    case PairHandshake => PairOpenerSpaces(out, link, s.links[link].attrs, s.links[link].deadline, frame.body);
    case SessionHandshake =>
      SessionOpenerRests(out, link, s.links[link].attrs, frame.body);
      Resting(out, r);
    case Transport => Resting(out, r);
  }

  lemma RecvSpaces(s: State, link: LinkId, frame: Frame)
    ensures Spacing(s, OnLinkRecv(s, link, frame))
  {
    var out := s.(links := s.links - {link});
    var r := OnLinkRecv(s, link, frame);
    Resting(s, out);
    if frame.Malformed? || link !in s.links {
      Resting(s, r);
    } else if s.links[link].Up? {
      Resting(s, r);
    } else if IsPairing(s.links[link]) {
      if Single(s) && Quieted(s) {
        OnlyAttempt(s, link);
        PairFrameSpaces(out, link, s.links[link], frame.kind, frame.body);
      }
    } else if s.links[link].Handshaking? {
      SessionFrameRests(out, link, s.links[link], frame.kind, frame.body);
      Resting(out, r);
    } else {
      FirstFrameSpaces(s, link, frame);
    }
  }

  // -------------------------------------------------------------- everything else

  /** The one dial under way becomes the one handshake, or nothing. */
  lemma PairDialAnswered(s: State, link: LinkId, attrs: LinkAttrs, d: DialToken, speaks: bool)
    requires Single(s) && Quieted(s) && d in s.dials.pair
    ensures Single(StartPairing(s, link, attrs, d, speaks)) && Quieted(StartPairing(s, link, attrs, d, speaks))
  {
    var r := StartPairing(s, link, attrs, d, speaks);
    assert forall l :: PairLink(r.links, l) ==> l == link;
    assert forall c :: c in s.dials.pair ==> c == d;
    assert r.dials.pair == map[];
  }

  lemma LinkUpSpaces(s: State, link: LinkId, attrs: LinkAttrs, answers: Option<DialToken>, speaks: bool)
    ensures Spacing(s, OnLinkUp(s, link, attrs, answers, speaks))
  {
    var r := OnLinkUp(s, link, attrs, answers, speaks);
    if answers.Some? && answers.value in s.dials.pair {
      if Single(s) && Quieted(s) { PairDialAnswered(s, link, attrs, answers.value, speaks); }
    } else if answers.Some? && answers.value in s.dials.peer {
      Resting(s, r);
    } else {
      Resting(s, r);
    }
  }

  lemma LinkDownSpaces(s: State, link: LinkId)
    ensures Spacing(s, OnLinkDown(s, link))
  {
    var r := OnLinkDown(s, link);
    if PairLink(s.links, link) {
      if Single(s) && Quieted(s) { OnlyAttempt(s, link); }
    } else {
      Resting(s, r);
    }
  }

  lemma DialFailedSpaces(s: State, d: DialToken, reason: string)
    ensures Spacing(s, OnDialFailed(s, d, reason))
  {
    var r := OnDialFailed(s, d, reason);
    if d in s.dials.pair {
      if Single(s) && Quieted(s) {
        assert forall c :: c in s.dials.pair ==> c == d;
        assert r.dials.pair == map[];
      }
    } else if d in s.dials.peer {
      FewerAlike(s.links, r.links);
      Resting(s, r);
    }
  }

  lemma ConfirmSpaces(s: State, accept: bool)
    ensures Spacing(s, OnConfirm(s, accept))
  {
    if Awaits(s.pairing).None? {
    } else if Single(s) && Quieted(s) {
      var r := OnConfirm(s, accept);
      assert FewerPairs(s.links, r.links);
      if !accept {
      } else {
      }
    }
  }

  lemma RequestSpaces(s: State, route: Route)
    ensures Spacing(s, OnRequestPairing(s, route))
  {
    if WhyNotPair(s).Some? {
      Resting(s, OnRequestPairing(s, route));
    } else if Single(s) && Quieted(s) {
      assert Idle(s);
    }
  }

  lemma WalkSpaces(s: State, r: State)
    requires Walk(s, r)
    ensures Spacing(s, r)
  {
    FewerAlike(s.links, r.links);
    Resting(s, r);
  }

  lemma LocalSpaces(s: State, cmd: Command)
    ensures Spacing(s, OnLocal(s, cmd))
  {
    match cmd
    case RequestPairing(route) => RequestSpaces(s, route);
    case ConfirmPairing(accept) => ConfirmSpaces(s, accept);
    case SetPeerAddress(peer, route) =>
      if peer in s.peers { Resting(s, LearnRoute(s, peer, route)); } else { Resting(s, OnLocal(s, cmd)); }
    case Connect(peer) => WalkSpaces(s, ConnectPeer(s, peer, true));
    case ReconsiderRoutes => WalkSpaces(s, ConnectEach(s, Ascending(s.peers.Keys)));
    case Disconnect(peer) => Resting(s, DropEach(s, UpLinks(s.links, peer), Closed));
    case Revoke(peer) => Resting(s, OnRevoke(s, peer));
    case PluginCommand(peer, cap, ty, body) => Resting(s, OnPluginCommand(s, peer, cap, ty, body));
  }

  /** The window lapses while the one pairing under way goes on: its dial is
      still out, or its handshake has time left. */
  predicate Strands(s: State) {
    && Lapses(s) && s.pairing.value.awaiting.None?
    && (s.dials.pair != map[] || exists l :: l in s.links && IsPairing(s.links[l]) && !Stale(s.links[l], s.now.mono))
  }

  lemma LapseSpaces(s: State)
    requires Single(s) && Quieted(s) && Lapses(s)
    ensures Quieted(TickPairing(s))
    ensures Awaits(s.pairing).Some? ==> Idle(TickPairing(s))
  {
    var r := TickPairing(s);
    if Awaits(s.pairing).Some? {
      assert FewerPairs(s.links, r.links);
      forall l | l in r.links ensures !IsPairing(r.links[l]) { assert PairLink(r.links, l) ==> PairLink(s.links, l); }
    } else {
    }
  }

  /** The rest of a tick closes what is stale and starts no pairing. */
  ghost predicate Swept(s: State, r: State) {
    && Undisturbed(s, r)
    && forall l :: PairLink(r.links, l) <==> PairLink(s.links, l) && !Stale(s.links[l], s.now.mono)
  }

  lemma SamePairs(a: map<LinkId, Link>, b: map<LinkId, Link>)
    requires Alike(a, b)
    ensures forall l :: PairLink(b, l) <==> PairLink(a, l)
  {
  }

  lemma DialsSweep(s: State)
    ensures var r := TickWake(TickReconnect(TickDials(s)));
      Undisturbed(s, r) && forall l :: PairLink(r.links, l) <==> PairLink(s.links, l)
  {
    var s4 := TickDials(s);
    SamePairs(s.links, s4.links);
    var s5 := TickReconnect(s4);
    SamePairs(s4.links, s5.links);
  }

  lemma RestSweeps(s: State)
    ensures Swept(s, TickRest(s))
  {
    var s3 := TickLinks(TickBulk(s));
    assert forall l :: PairLink(s3.links, l) <==> PairLink(s.links, l) && !Stale(s.links[l], s.now.mono);
    DialsSweep(s3);
  }

  /** The sweep leaves a pairing link exactly when one has time left. */
  lemma SweptLinks(s: State, r: State)
    requires Lapses(s) && s.pairing.value.awaiting.None? && Swept(TickPairing(s), r)
    ensures NoPairLink(r.links) <==> !exists l :: l in s.links && IsPairing(s.links[l]) && !Stale(s.links[l], s.now.mono)
  {
    if l :| l in s.links && IsPairing(s.links[l]) && !Stale(s.links[l], s.now.mono) {
      assert PairLink(r.links, l);
    }
    if l :| l in r.links && IsPairing(r.links[l]) {
      assert PairLink(r.links, l);
    }
  }

  lemma SweptLapse(s: State, r: State)
    requires Single(s) && Quieted(s) && Lapses(s) && Swept(TickPairing(s), r)
    ensures Quieted(r)
    ensures Single(r) <==> !Strands(s)
  {
    LapseSpaces(s);
    if Awaits(s.pairing).Some? { SweptAwaiting(s, r); } else { SweptUnmet(s, r); }
  }

  lemma SweptAwaiting(s: State, r: State)
    requires Single(s) && Lapses(s) && Swept(TickPairing(s), r) && Awaits(s.pairing).Some?
    ensures Single(r) && !Strands(s)
  {
    assert forall l :: l in r.links ==> !PairLink(r.links, l);
  }

  lemma SweptUnmet(s: State, r: State)
    requires Single(s) && Lapses(s) && Swept(TickPairing(s), r) && Awaits(s.pairing).None?
    ensures Single(r) <==> !Strands(s)
  {
    SweptLinks(s, r);
    if Idle(r) { IdleIsSingle(r); }
  }

  lemma TickSpaces(s: State)
    requires Single(s) && Quieted(s)
    ensures Quieted(OnTick(s))
    ensures Single(OnTick(s)) <==> !Strands(s)
  {
    RestSweeps(TickPairing(s));
    if Lapses(s) {
      SweptLapse(s, TickRest(TickPairing(s)));
    } else {
      Resting(s, TickRest(s));
    }
  }

  lemma CallSpaces(s: State, r: State)
    requires Calm(s, r)
    ensures Spacing(s, r)
  {
    Resting(s, r);
  }

  lemma SightSpaces(s: State, ev: Event)
    requires ev.Discovered? || ev.Undiscovered?
    ensures Spacing(s, React(s, ev))
  {
    var seen := s.(atlas := React(s, ev).atlas);
    Resting(s, seen);
    if ev.Discovered? { WalkSpaces(seen, React(s, ev)); } else { Resting(s, React(s, ev)); }
  }

  lemma ReactSpaces(s: State, ev: Event)
    requires !ev.Tick?
    ensures Spacing(s, React(s, ev))
  {
    if ev.LinkUp? {
      LinkUpSpaces(s, ev.link, ev.attrs, ev.answers, ev.speaks);
    } else if ev.LinkRecv? {
      RecvSpaces(s, ev.link, ev.frame);
    } else if ev.LinkDown? {
      LinkDownSpaces(s, ev.link);
    } else if ev.DialFailed? {
      DialFailedSpaces(s, ev.dial, ev.reason);
    } else if ev.Discovered? || ev.Undiscovered? {
      SightSpaces(s, ev);
    } else if ev.Local? {
      LocalSpaces(s, ev.cmd);
    } else if ev.BulkStarted? {
      Resting(s, React(s, ev));
    } else {
      CallSpaces(s, React(s, ev));
    }
  }

  // ------------------------------------------------------------- the theorems

  /** One call at a clock that has not gone back: the spacing of prompts is
      kept, and there is still at most one pairing under way if and only if
      the call is not a tick that strands one. */
  lemma PromptStep(s: State, now: Now, ev: Event)
    requires Single(s) && Quieted(s) && s.now.mono <= now.mono
    ensures Quieted(Handle(s, now, ev))
    ensures Single(Handle(s, now, ev)) <==> !(ev.Tick? && Strands(s.(now := now)))
  {
    var s0 := s.(now := now);
    assert Single(s0) && Quieted(s0);
    if ev.Tick? { TickSpaces(s0); } else { ReactSpaces(s0, ev); }
  }

  lemma Granted(s: State, route: Route)
    requires WhyNotPair(s).None?
    ensures var r := OnRequestPairing(s, route);
      r.pairing == Some(Window(s.now.mono + s.env.config.pairingWindow, None)) && r.dials.pair != map[]
      && r.env == s.env
  {
    assert s.dials.last + 1 in OnRequestPairing(s, route).dials.pair;
  }

  /** The exception is real: whenever a person's request to pair is granted and
      its dial is still unanswered when the window lapses, the dial is left
      behind beside an empty slot, free to become a second pairing. */
  lemma StrandHappens(s: State, route: Route, later: Now)
    requires Single(s) && Quieted(s) && WhyNotPair(s).None?
    requires later.mono >= s.now.mono + s.env.config.pairingWindow
    ensures !Single(Handle(Handle(s, s.now, Local(RequestPairing(route))), later, Tick))
  {
    var asked := Handle(s, s.now, Local(RequestPairing(route)));
    assert s.(now := s.now) == s;
    Granted(s, route);
    PromptStep(s, s.now, Local(RequestPairing(route)));
    PromptStep(asked, later, Tick);
  }

  /** No call of a run goes back in time or strands a pairing. */
  predicate Orderly(env: Env, inputs: seq<Input>) {
    if inputs == [] then true else
      var front := inputs[..|inputs| - 1];
      var s := Run(env, front);
      Orderly(env, front) &&
      match inputs[|inputs| - 1]
      case Call(now, ev) => s.now.mono <= now.mono && !(ev.Tick? && Strands(s.(now := now)))
      case Restart => false
  }

  lemma {:induction false} PromptsHold(env: Env, inputs: seq<Input>)
    requires Orderly(env, inputs)
    ensures var s := Run(env, inputs); Single(s) && Quieted(s) && s.env == env
  {
    if inputs != [] {
      var front := inputs[..|inputs| - 1];
      PromptsHold(env, front);
      var s := Run(env, front);
      match inputs[|inputs| - 1]
      case Call(now, ev) =>
        PromptStep(s, now, ev);
        ReactKeepsEnv(s.(now := now), ev);
      case Restart =>
    }
  }

  lemma ReactKeepsEnv(s: State, ev: Event)
    ensures React(s, ev).env == s.env
  {
    if ev.Local? && ev.cmd.ConfirmPairing? {
      if Awaits(s.pairing).None? {
      } else if !ev.cmd.accept {
      } else if Awaits(s.pairing).value.record.key.None? {
      } else {
      }
    } else {
      ReactKeepsTrust(s, ev);
    }
  }
}

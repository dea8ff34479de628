/** Two cores and the links between them: both ends of a session agree for as long
    as it lasts, and an error one core sends never draws another. */
module TwoCores {
  import opened Wrappers
  import opened Orders
  import opened Vocab
  import opened History
  import opened Protocol
  import opened Runs
  import opened ErrorReplies
  import PromptRate

  /** One end's links to the other core, and the other core's end of each. */
  type Wires = map<LinkId, LinkId>

  /** The same links, seen from either end. */
  predicate Opposite(w: Wires, v: Wires) {
    && (forall l :: l in w ==> w[l] in v && v[w[l]] == l)
    && forall m :: m in v ==> v[m] in w && w[v[m]] == m
  }

  predicate Sent(log: seq<Entry>, l: LinkId, m: Wire) {
    exists i :: 0 <= i < |log| && log[i].action == LinkSend(l, m)
  }

  /** What opens on a session, whoever asked for it to be said. */
  predicate Said(log: seq<Entry>, l: LinkId, e: Envelope) {
    Sent(log, l, Sealed(e, true)) || Sent(log, l, Sealed(e, false))
  }

  /** Ideal cryptography: whatever opens on a link to the other core was sent on it
      by that core. Frames may be lost, repeated, reordered, or fail to open. */
  predicate Authentic(other: seq<Entry>, w: Wires, ev: Event) {
    ev.LinkRecv? && ev.link in w && ev.frame.Frame? ==>
      var body := ev.frame.body;
      && (body.plain.Some? && body.plain.value.Message? ==> Said(other, w[ev.link], body.plain.value.env))
      && (ev.frame.kind == SessionHandshake && body.read && body.hello.Some? ==>
            Sent(other, w[ev.link], SessionMessage(body.hello.value)))
  }

  // ---------------------------------------------------------------- one end's part

  /** Every session with the other core may carry what the two have in common. */
  predicate Agreed(s: State, other: Env, w: Wires) {
    forall l :: l in s.links && l in w && s.links[l].Up? ==>
      && s.links[l].canSend == s.env.capsOut * other.capsIn
      && s.links[l].canRecv == other.capsOut * s.env.capsIn
  }

  /** Nothing else was ever said to it. */
  predicate Spoken(said: set<Saying>, ours: Env, other: Env, w: Wires) {
    forall x :: x in said && x.link in w ==> x.cap in ours.capsOut * other.capsIn
  }

  ghost predicate Fair(s: State, other: Env, w: Wires) {
    Agreed(s, other, w) && Spoken(Shown(s).speech.said, s.env, other, w) && Shown(s).speech.candid
  }

  /** No session was opened, and none changed what it may carry. */
  predicate NoneOpened(a: map<LinkId, Link>, b: map<LinkId, Link>) {
    forall l :: l in b && b[l].Up? ==>
      l in a && a[l].Up? && b[l].canSend == a[l].canSend && b[l].canRecv == a[l].canRecv
  }

  /** The same, and nothing was said but on such sessions. */
  ghost predicate Tame(s: State, r: State) {
    r.env == s.env && NoneOpened(s.links, r.links) && Talks(s.links, Shown(s).speech, Shown(r).speech)
  }

  lemma TameIsFair(s: State, r: State, other: Env, w: Wires)
    requires Fair(s, other, w) && Tame(s, r)
    ensures Fair(r, other, w)
  {
  }

  lemma TameTwice(s: State, m: State, r: State)
    requires Tame(s, m) && Tame(m, r)
    ensures Tame(s, r)
  {
    forall x | x in Shown(r).speech.said && x !in Shown(s).speech.said ensures Carries(s.links, x) {
      if x !in Shown(m).speech.said { assert Carries(m.links, x); }
    }
  }

  lemma WalkIsTame(s: State, r: State)
    requires Walk(s, r)
    ensures Tame(s, r)
  {
  }

  lemma CallIsTame(s: State, r: State)
    requires Talk(s, r)
    ensures Tame(s, r)
  {
  }

  /** Links may go, and others may wait, but no session opened. */
  lemma FewerIsTame(s: State, r: State)
    requires r.env == s.env && Shown(r).speech == Shown(s).speech
    requires forall l :: l in r.links && r.links[l].Up? ==> l in s.links && r.links[l] == s.links[l]
    ensures Tame(s, r)
  {
  }

  // -------------------------------------------------------------- received frames

  /** A session that a greeting opened: it may carry what both know. */
  predicate OpenedBy(s: State, k: Link, h: Hello) {
    k.Up? && k.canSend == s.env.capsOut * h.capsIn && k.canRecv == h.capsOut * s.env.capsIn
  }

  /** What a frame may do: open one session, on its own link, by the greeting it
      carries; and what is said is said on sessions there were or the new one. */
  ghost predicate Opening(s: State, r: State, link: LinkId, hello: Option<Hello>) {
    && r.env == s.env && link !in s.links
    && NoneOpened(s.links, r.links - {link})
    && (link in r.links && r.links[link].Up? ==> hello.Some? && OpenedBy(s, r.links[link], hello.value))
    && Talks(r.links, Shown(s).speech, Shown(r).speech)
    && (link in r.links && !r.links[link].Up? ==> Tame(s, r))
  }

  lemma TameIsOpening(s: State, r: State, link: LinkId, hello: Option<Hello>)
    requires Tame(s, r) && Shown(r).speech == Shown(s).speech && link !in s.links
    ensures Opening(s, r, link, hello)
  {
  }

  lemma FinishOpening(s: State, m: State, link: LinkId, hash: nat, attrs: LinkAttrs, peer: DeviceId, hello: Hello)
    requires link !in s.links && m.links == s.links && m.env == s.env && Shown(m).speech == Shown(s).speech
    requires peer in m.peers && m.peers[peer].capsIn == hello.capsIn && m.peers[peer].capsOut == hello.capsOut
    ensures Opening(s, FinishSession(m, link, hash, attrs, peer), link, Some(hello))
  {
    var r := FinishSession(m, link, hash, attrs, peer);
    FinishCaps(m, link, hash, attrs, peer, hello);
    assert r.links - {link} == s.links by { if link in r.links { assert r.links == s.links[link := r.links[link]]; } }
  }

  lemma HelloSpeech(s: State, peer: DeviceId, hello: Option<Hello>)
    ensures Shown(AcceptHello(s, peer, hello).0).speech == Shown(s).speech
  {
    if hello.None? {
    } else if peer !in s.peers {
    } else if !CheckFreshness(hello.value.ts, s.now.wall, s.peers[peer].greatestSeen) {
    } else {
    }
  }

  lemma FailOpening(s: State, m: State, link: LinkId, hello: Option<Hello>)
    requires link !in s.links && m.links == s.links && m.env == s.env && Shown(m).speech == Shown(s).speech
    ensures Opening(s, FailLink(m, link), link, hello)
  {
    TameIsOpening(s, FailLink(m, link), link, hello);
  }

  lemma SessionOpenerOpening(s: State, link: LinkId, attrs: LinkAttrs, body: Body)
    requires link !in s.links
    ensures Opening(s, OnSessionOpener(s, link, attrs, body), link, if body.read then body.hello else None)
  {
    if body.opener.None? || body.opener.value !in s.peers
       || s.peers[body.opener.value].psk.None? || !body.read {
      FailOpening(s, s, link, if body.read then body.hello else None);
    } else {
      var r := AcceptHello(s, body.opener.value, body.hello);
      HelloCaps(s, body.opener.value, body.hello);
      HelloSpeech(s, body.opener.value, body.hello);
      if !r.1 || !body.write {
        FailOpening(s, r.0, link, body.hello);
      } else {
        FinishOpening(s, Greet(r.0, link), link, body.hash, attrs, body.opener.value, body.hello.value);
      }
    }
  }

  lemma SessionAfterReadOpening(s: State, link: LinkId, k: Link, hs: Handshake, body: Body)
    requires k.Handshaking? && !IsPairing(k) && hs.mode == Session && link !in s.links
    ensures Opening(s, AfterRead(s, link, k, hs, body), link, body.hello)
  {
    if !Complete(hs) {
      TameIsOpening(s, AfterRead(s, link, k, hs, body), link, body.hello);
    } else if k.aim.None? {
      FailOpening(s, s, link, body.hello);
    } else {
      var r := AcceptHello(s, k.aim.value, body.hello);
      HelloCaps(s, k.aim.value, body.hello);
      HelloSpeech(s, k.aim.value, body.hello);
      if !r.1 {
        FailOpening(s, r.0, link, body.hello);
      } else {
        FinishOpening(s, r.0, link, body.hash, k.attrs, k.aim.value, body.hello.value);
      }
    }
  }

  /** A pairing link comes back to wait, or not at all, and nothing is said. */
  lemma WaitsIsTame(s: State, r: State, link: LinkId)
    requires r.env == s.env && Shown(r).speech == Shown(s).speech && link !in s.links
    requires r.links - {link} == s.links && (link in r.links ==> !r.links[link].Up?)
    ensures Tame(s, r)
  {
    forall l | l in r.links && r.links[l].Up? ensures l in s.links && s.links[l] == r.links[l] {
      assert l in r.links - {link} && (r.links - {link})[l] == r.links[l];
    }
  }

  lemma PairingCompletedIsTame(s: State, link: LinkId, k: Link, body: Body)
    requires k.Handshaking? && link !in s.links
    ensures Tame(s, PairingCompleted(s, link, k, body))
    ensures Shown(PairingCompleted(s, link, k, body)).speech == Shown(s).speech
  {
    var r := PairingCompleted(s, link, k, body);
    assert s.links - {link} == s.links;
    assert s.links[link := Pending(k.attrs, k.deadline)] - {link} == s.links;
    if body.key.None? {
      WaitsIsTame(s, r, link);
    } else if body.hello.None? {
      WaitsIsTame(s, r, link);
    } else if s.pairing.None? || s.pairing.value.awaiting.Some? {
      WaitsIsTame(s, r, link);
    } else {
      WaitsIsTame(s, r, link);
    }
  }

  lemma PairFrameIsTame(s: State, link: LinkId, k: Link, kind: FrameKind, body: Body)
    requires IsPairing(k) && link !in s.links
    ensures Tame(s, OnHandshakeFrame(s, link, k, kind, body))
    ensures Shown(OnHandshakeFrame(s, link, k, kind, body)).speech == Shown(s).speech
  {
    if kind != PairHandshake {
    } else if !body.read {
    } else {
      var hs := Advance(k.hs);
      if MyTurn(hs) {
        if body.write {
          if Complete(Advance(hs)) { PairingCompletedIsTame(GreetPair(s, link), link, k, body); }
        }
      } else if Complete(hs) {
        PairingCompletedIsTame(s, link, k, body);
      }
    }
  }

  lemma SessionFrameOpening(s: State, link: LinkId, k: Link, kind: FrameKind, body: Body)
    requires k.Handshaking? && !IsPairing(k) && link !in s.links
    ensures var heard := if kind == SessionHandshake && body.read then body.hello else None;
      Opening(s, OnHandshakeFrame(s, link, k, kind, body), link, heard)
  {
    if kind != SessionHandshake {
      FailOpening(s, s, link, None);
    } else if !body.read {
      FailOpening(s, s, link, None);
    } else {
      SessionAfterReadOpening(s, link, k, Advance(k.hs), body);
    }
  }

  /** Hearing from a peer changes nothing a session may carry. */
  lemma HeardIsTame(s: State, link: LinkId)
    requires link in s.links && s.links[link].Up?
    ensures Tame(s, s.(links := s.links[link := s.links[link].(lastRecv := s.now.mono)]))
  {
  }

  lemma TransportIsTame(s: State, link: LinkId, kind: FrameKind, body: Body)
    requires link in s.links && s.links[link].Up?
    ensures Tame(s, OnTransportFrame(s, link, kind, body))
  {
    if !kind.Transport? || body.plain.None? {
    } else {
      var u := s.links[link];
      var heard := s.(links := s.links[link := u.(lastRecv := s.now.mono)]);
      var r := OnPlain(heard, u.peer, u.canRecv, body.plain.value);
      HeardIsTame(s, link);
      CallIsTame(heard, r);
      TameTwice(s, heard, r);
    }
  }

  /** The greeting a frame brings, if it is read as one. */
  function Greeting(frame: Frame): Option<Hello> {
    if frame.Frame? && frame.kind == SessionHandshake && frame.body.read then frame.body.hello else None
  }

  /** A session opened by what the other core says of itself is one both agree on. */
  lemma OpeningIsFair(s: State, out: State, r: State, link: LinkId, hello: Option<Hello>, other: Env, w: Wires)
    requires Fair(s, other, w) && out.links == s.links - {link} && out.env == s.env && Shown(out).speech == Shown(s).speech
    requires Opening(out, r, link, hello)
    requires hello.Some? && link in w ==> hello.value.capsOut == other.capsOut && hello.value.capsIn == other.capsIn
    ensures Fair(r, other, w)
  {
    forall l | l in r.links && l in w && r.links[l].Up?
      ensures r.links[l].canSend == r.env.capsOut * other.capsIn && r.links[l].canRecv == other.capsOut * r.env.capsIn {
      if l != link { assert l in r.links - {link} && (r.links - {link})[l] == r.links[l]; }
    }
    assert Agreed(r, other, w);
  }

  lemma NoGreetingIsTame(s: State, link: LinkId, frame: Frame)
    requires link in s.links && s.links[link].Pending? && frame.Frame? && frame.kind != SessionHandshake
    ensures Tame(s, OnLinkRecv(s, link, frame))
  {
    FewerIsTame(s, OnLinkRecv(s, link, frame));
  }

  lemma FirstFrameIsFair(s: State, link: LinkId, frame: Frame, other: Env, w: Wires)
    requires Fair(s, other, w) && link in s.links && s.links[link].Pending? && frame.Frame?
    requires link in w && Greeting(frame).Some? ==>
      Greeting(frame).value.capsOut == other.capsOut && Greeting(frame).value.capsIn == other.capsIn
    ensures Fair(OnLinkRecv(s, link, frame), other, w)
  {
    var out := s.(links := s.links - {link});
    var r := OnLinkRecv(s, link, frame);
    if frame.kind == SessionHandshake {
      SessionOpenerOpening(out, link, s.links[link].attrs, frame.body);
      OpeningIsFair(s, out, r, link, Greeting(frame), other, w);
    } else {
      NoGreetingIsTame(s, link, frame);
      TameIsFair(s, r, other, w);
    }
  }

  lemma PairingRecvIsFair(s: State, link: LinkId, frame: Frame, other: Env, w: Wires)
    requires Fair(s, other, w) && link in s.links && IsPairing(s.links[link]) && frame.Frame?
    ensures Fair(OnLinkRecv(s, link, frame), other, w)
  {
    var out := s.(links := s.links - {link});
    var r := OnLinkRecv(s, link, frame);
    PairFrameIsTame(out, link, s.links[link], frame.kind, frame.body);
    FewerIsTame(s, out);
    TameTwice(s, out, r);
    TameIsFair(s, r, other, w);
  }

  lemma RecvIsFair(s: State, link: LinkId, frame: Frame, other: Env, w: Wires)
    requires Fair(s, other, w)
    requires link in w && Greeting(frame).Some? ==>
      Greeting(frame).value.capsOut == other.capsOut && Greeting(frame).value.capsIn == other.capsIn
    ensures Fair(OnLinkRecv(s, link, frame), other, w)
  {
    var r := OnLinkRecv(s, link, frame);
    if frame.Malformed? || link !in s.links {
      FewerIsTame(s, r);
      TameIsFair(s, r, other, w);
    } else if s.links[link].Up? {
      TransportIsTame(s, link, frame.kind, frame.body);
      TameIsFair(s, r, other, w);
    } else if IsPairing(s.links[link]) {
      PairingRecvIsFair(s, link, frame, other, w);
    } else if s.links[link].Handshaking? {
      var out := s.(links := s.links - {link});
      SessionFrameOpening(out, link, s.links[link], frame.kind, frame.body);
      OpeningIsFair(s, out, r, link, Greeting(frame), other, w);
    } else {
      FirstFrameIsFair(s, link, frame, other, w);
    }
  }

  // -------------------------------------------------------------- everything else

  lemma TickIsTame(s: State)
    ensures Tame(s, OnTick(s))
  {
    var s1 := TickPairing(s);
    FewerIsTame(s, s1);
    var s2 := TickBulk(s1);
    CallIsTame(s1, s2);
    var s3 := TickLinks(s2);
    FewerIsTame(s2, s3);
    var s4 := TickDials(s3);
    WalkIsTame(s3, s4);
    var s5 := TickReconnect(s4);
    WalkIsTame(s4.(reconnectAt := s5.reconnectAt), s5);
    var s6 := TickWake(s5);
    CallIsTame(s5, s6);
    TameTwice(s, s1, s2);
    TameTwice(s, s2, s3);
    TameTwice(s, s3, s4);
    TameTwice(s, s4, s5);
    TameTwice(s, s5, s6);
  }

  lemma ConfirmIsTame(s: State, accept: bool)
    ensures Tame(s, OnConfirm(s, accept))
  {
    if s.pairing.None? || s.pairing.value.awaiting.None? {
    } else if !accept {
    } else if s.pairing.value.awaiting.value.record.key.None? {
    } else {
    }
  }

  lemma LocalIsTame(s: State, cmd: Command)
    ensures Tame(s, OnLocal(s, cmd))
  {
    if cmd.RequestPairing? {
      if WhyNotPair(s).Some? {} else {}
    } else if cmd.ConfirmPairing? {
      ConfirmIsTame(s, cmd.accept);
    } else if cmd.SetPeerAddress? {
      if cmd.peer in s.peers {} else {}
    } else if cmd.Connect? || cmd.ReconsiderRoutes? {
      WalkIsTame(s, OnLocal(s, cmd));
    } else if cmd.PluginCommand? {
      CallIsTame(s, OnLocal(s, cmd));
    } else {
    }
  }

  lemma DialFailedIsTame(s: State, d: DialToken, reason: string)
    ensures Tame(s, OnDialFailed(s, d, reason))
  {
    if d in s.dials.pair {
    } else if d in s.dials.peer {
      WalkIsTame(s.(dials := s.dials.(peer := s.dials.peer - {d})), OnDialFailed(s, d, reason));
    }
  }

  lemma SightIsTame(s: State, ev: Event)
    requires ev.Discovered? || ev.Undiscovered?
    ensures Tame(s, React(s, ev))
  {
    if ev.Discovered? {
      WalkIsTame(s.(atlas := React(s, ev).atlas), React(s, ev));
    } else {
      FewerIsTame(s, React(s, ev));
    }
  }

  lemma ReactIsTame(s: State, ev: Event)
    requires !ev.LinkRecv?
    ensures Tame(s, React(s, ev))
  {
    if ev.LinkUp? {
      FewerIsTame(s, React(s, ev));
    } else if ev.LinkDown? {
    } else if ev.DialFailed? {
      DialFailedIsTame(s, ev.dial, ev.reason);
    } else if ev.Discovered? || ev.Undiscovered? {
      SightIsTame(s, ev);
    } else if ev.Tick? {
      TickIsTame(s);
    } else if ev.Local? {
      LocalIsTame(s, ev.cmd);
    } else if ev.BulkStarted? {
    } else {
      CallIsTame(s, React(s, ev));
    }
  }

  // ------------------------------------------------------------- read off the logs

  lemma {:induction false} SentIsShown(env: Env, log: seq<Entry>, l: LinkId, e: Envelope)
    requires Said(log, l, e)
    ensures Saying(l, e.cap) in Observe(env, log).speech.said
  {
    var (front, last) := (log[..|log| - 1], log[|log| - 1].action);
    if last == LinkSend(l, Sealed(e, true)) || last == LinkSend(l, Sealed(e, false)) {
    } else {
      if Sent(log, l, Sealed(e, true)) {
        SentEarlier(log, l, Sealed(e, true));
      } else {
        SentEarlier(log, l, Sealed(e, false));
      }
      SentIsShown(env, front, l, e);
    }
  }

  lemma SentEarlier(log: seq<Entry>, l: LinkId, m: Wire)
    requires log != [] && Sent(log, l, m) && log[|log| - 1].action != LinkSend(l, m)
    ensures Sent(log[..|log| - 1], l, m)
  {
    var i :| 0 <= i < |log| && log[i].action == LinkSend(l, m);
    assert log[..|log| - 1][i] == log[i];
  }

  lemma {:induction false} CandidGreeting(env: Env, log: seq<Entry>, l: LinkId, h: Hello)
    requires Sent(log, l, SessionMessage(h)) && Observe(env, log).speech.candid
    ensures h.capsOut == env.capsOut && h.capsIn == env.capsIn
  {
    if log[|log| - 1].action != LinkSend(l, SessionMessage(h)) {
      SentEarlier(log, l, SessionMessage(h));
      CandidGreeting(env, log[..|log| - 1], l, h);
    }
  }

  // --------------------------------------------------------------------- both ends

  /** Both ends hold up their part. */
  ghost predicate Joined(a: State, b: State, w: Wires, v: Wires) {
    Fair(a, b.env, w) && Fair(b, a.env, v)
  }

  /** What one may say on a session is what the other may hear, for as long as both
      have it. */
  lemma EndsStayAgreed(a: State, b: State, w: Wires, v: Wires, l: LinkId)
    requires Joined(a, b, w, v) && Opposite(w, v) && l in w
    requires l in a.links && a.links[l].Up? && w[l] in b.links && b.links[w[l]].Up?
    ensures a.links[l].canSend == b.links[w[l]].canRecv && b.links[w[l]].canSend == a.links[l].canRecv
  {
    assert w[l] in v;
  }

  /** One end's call keeps its part, whatever the links do to what was sent. */
  lemma FairStep(s: State, o: State, w: Wires, now: Now, ev: Event)
    requires Fair(s, o.env, w) && Shown(o).speech.candid && Authentic(o.log, w, ev)
    ensures Fair(Handle(s, now, ev), o.env, w) && Handle(s, now, ev).env == s.env
  {
    var s0 := s.(now := now);
    PromptRate.ReactKeepsEnv(s0, ev);
    if ev.LinkRecv? {
      if ev.link in w && Greeting(ev.frame).Some? {
        CandidGreeting(o.env, o.log, w[ev.link], Greeting(ev.frame).value);
      }
      RecvIsFair(s0, ev.link, ev.frame, o.env, w);
    } else {
      ReactIsTame(s0, ev);
      TameIsFair(s0, React(s0, ev), o.env, w);
    }
  }

  /** The one message a call brings, on a session. */
  function Heard(s: State, ev: Event): Option<Envelope> {
    if ev.LinkRecv? && ev.frame.Frame? && ev.frame.kind.Transport? && ev.link in s.links && s.links[ev.link].Up?
       && ev.frame.body.plain.Some? && ev.frame.body.plain.value.Message?
    then Some(ev.frame.body.plain.value.env) else None
  }

  /** An error that opens on a session with the other core is always one the session
      may carry: it goes to the screen, and nothing is sent. */
  lemma ErrorIsHarmless(s: State, o: State, w: Wires, v: Wires, now: Now, ev: Event)
    requires Joined(s, o, w, v) && Opposite(w, v) && Authentic(o.log, w, ev)
    requires ev.LinkRecv? && ev.link in w && Heard(s, ev).Some? && Heard(s, ev).value.ty == "err"
    ensures var e := Heard(s, ev).value;
      && !Provokes(s, ev)
      && Handle(s, now, ev).log == s.log + [Entry(now, Ui(FromPlugin(s.links[ev.link].peer, e.cap, "err", e.body)))]
  {
    var e := Heard(s, ev).value;
    SentIsShown(o.env, o.log, w[ev.link], e);
    assert v[w[ev.link]] == ev.link;
    assert e.cap in o.env.capsOut * s.env.capsIn by { assert Saying(w[ev.link], e.cap).link in v; }
    ErrorIsFinal(s, now, ev.link, ev.frame.body);
    assert ev.frame == Frame(Transport, ev.frame.body);
  }

  // ---------------------------------------------------------------------- the runs

  datatype Turn = First(now: Now, ev: Event) | Second(now: Now, ev: Event)

  datatype Duo = Duo(a: State, b: State)

  function Played(ea: Env, eb: Env, turns: seq<Turn>): Duo {
    if turns == [] then Duo(Build(ea), Build(eb)) else
      var d := Played(ea, eb, turns[..|turns| - 1]);
      match turns[|turns| - 1]
      case First(now, ev) => d.(a := Handle(d.a, now, ev))
      case Second(now, ev) => d.(b := Handle(d.b, now, ev))
  }

  /** At every turn, what opens on a link between the two was sent on it. */
  predicate Genuine(ea: Env, eb: Env, w: Wires, v: Wires, turns: seq<Turn>) {
    if turns == [] then true else
      var (front, t) := (turns[..|turns| - 1], turns[|turns| - 1]);
      var d := Played(ea, eb, front);
      Genuine(ea, eb, w, v, front)
      && if t.First? then Authentic(d.b.log, w, t.ev) else Authentic(d.a.log, v, t.ev)
  }

  /** The turn brings a message that is no error from the other core; or anything a
      stranger says that draws one. */
  predicate Invites(s: State, w: Wires, ev: Event) {
    Provokes(s, ev) && (ev.link in w ==> ev.frame.body.plain.value.env.ty != "err")
  }

  function Invited(ea: Env, eb: Env, w: Wires, v: Wires, turns: seq<Turn>): nat {
    if turns == [] then 0 else
      var (front, t) := (turns[..|turns| - 1], turns[|turns| - 1]);
      var d := Played(ea, eb, front);
      Invited(ea, eb, w, v, front)
      + if (if t.First? then Invites(d.a, w, t.ev) else Invites(d.b, v, t.ev)) then 1 else 0
  }

  /** On a link to the other core only what is no error draws an error. */
  lemma OnlyInvited(s: State, o: State, w: Wires, v: Wires, now: Now, ev: Event)
    requires Joined(s, o, w, v) && Opposite(w, v) && Authentic(o.log, w, ev)
    ensures Shown(Handle(s, now, ev)).speech.errs <= Shown(s).speech.errs + if Invites(s, w, ev) then 1 else 0
  {
    ErrorStep(s, now, ev);
    if Provokes(s, ev) && ev.link in w && ev.frame.body.plain.value.env.ty == "err" {
      ErrorIsHarmless(s, o, w, v, now, ev);
    }
  }

  lemma JoinedStep(a: State, b: State, w: Wires, v: Wires, now: Now, ev: Event)
    requires Joined(a, b, w, v) && Authentic(b.log, w, ev)
    ensures Joined(Handle(a, now, ev), b, w, v) && Handle(a, now, ev).env == a.env
  {
    FairStep(a, b, w, now, ev);
  }

  /** In every state the two ever reach, both ends of every session agree, and so it
      is for the whole life of the session. */
  lemma {:induction false} JoinedHolds(ea: Env, eb: Env, w: Wires, v: Wires, turns: seq<Turn>)
    requires Opposite(w, v) && Genuine(ea, eb, w, v, turns)
    ensures var d := Played(ea, eb, turns); Joined(d.a, d.b, w, v) && d.a.env == ea && d.b.env == eb
    ensures var d := Played(ea, eb, turns);
      Shown(d.a).speech.errs + Shown(d.b).speech.errs <= Invited(ea, eb, w, v, turns)
  {
    if turns != [] {
      var (front, t) := (turns[..|turns| - 1], turns[|turns| - 1]);
      JoinedHolds(ea, eb, w, v, front);
      var d := Played(ea, eb, front);
      if t.First? {
        JoinedStep(d.a, d.b, w, v, t.now, t.ev);
        OnlyInvited(d.a, d.b, w, v, t.now, t.ev);
      } else {
        JoinedStep(d.b, d.a, v, w, t.now, t.ev);
        OnlyInvited(d.b, d.a, v, w, t.now, t.ev);
      }
    }
  }

  /** However the two talk, and whatever is lost, repeated or reordered between
      them: the errors both sent never outnumber the messages delivered that were
      no errors (counting whatever strangers say to draw one). So the two can
      never answer each other's errors. */
  lemma NoChainsBetween(ea: Env, eb: Env, w: Wires, v: Wires, turns: seq<Turn>)
    requires Opposite(w, v) && Genuine(ea, eb, w, v, turns)
    ensures var d := Played(ea, eb, turns); ErrorsIn(d.a.log) + ErrorsIn(d.b.log) <= Invited(ea, eb, w, v, turns)
  {
    JoinedHolds(ea, eb, w, v, turns);
    var d := Played(ea, eb, turns);
    ErrorsAreShown(ea, d.a.log);
    ErrorsAreShown(eb, d.b.log);
  }
}

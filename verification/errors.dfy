/** Error replies: both ends of a session agree on what may be said, and an
    error is never answered with another. */
module ErrorReplies {
  import opened Wrappers
  import opened Orders
  import opened Vocab
  import opened History
  import opened Protocol
  import opened Runs
  import PromptRate

  // ----------------------------------------------------------- the two ends agree

  /** What the opener offered and what the answer offered, as each core says it. */
  predicate Exchanged(a: Env, b: Env, toB: Hello, toA: Hello) {
    && toB.capsOut == a.capsOut && toB.capsIn == a.capsIn
    && toA.capsOut == b.capsOut && toA.capsIn == b.capsIn
  }

  /** An accepted Hello is what the record says from then on. */
  lemma HelloCaps(s: State, peer: DeviceId, hello: Option<Hello>)
    ensures var r := AcceptHello(s, peer, hello);
      && r.0.env == s.env && r.0.links == s.links
      && (r.1 ==>
            && hello.Some? && peer in r.0.peers
            && r.0.peers[peer].capsIn == hello.value.capsIn && r.0.peers[peer].capsOut == hello.value.capsOut)
  {
    if hello.None? {
    } else if peer !in s.peers {
    } else if !CheckFreshness(hello.value.ts, s.now.wall, s.peers[peer].greatestSeen) {
    } else {
    }
  }

  /** What a session that was just opened may carry, if it was opened. */
  ghost predicate Negotiated(links: map<LinkId, Link>, link: LinkId, ours: Env, hello: Option<Hello>) {
    link in links ==>
      && hello.Some? && links[link].Up?
      && links[link].canSend == ours.capsOut * hello.value.capsIn
      && links[link].canRecv == hello.value.capsOut * ours.capsIn
  }

  lemma FinishCaps(m: State, link: LinkId, hash: nat, attrs: LinkAttrs, peer: DeviceId, hello: Hello)
    requires link !in m.links && peer in m.peers
    requires m.peers[peer].capsIn == hello.capsIn && m.peers[peer].capsOut == hello.capsOut
    ensures Negotiated(FinishSession(m, link, hash, attrs, peer).links, link, m.env, Some(hello))
  {
    var r := FinishSession(m, link, hash, attrs, peer);
  }

  /** The session a responder opens for an accepted opener. */
  lemma ResponderCaps(b: State, link: LinkId, attrs: LinkAttrs, body: Body)
    requires link !in b.links
    ensures Negotiated(OnSessionOpener(b, link, attrs, body).links, link, b.env, body.hello)
  {
    if body.opener.None? || body.opener.value !in b.peers
       || b.peers[body.opener.value].psk.None? || !body.read {
    } else {
      var r := AcceptHello(b, body.opener.value, body.hello);
      HelloCaps(b, body.opener.value, body.hello);
      if !r.1 || !body.write {
      } else {
        var sent := Greet(r.0, link);
        FinishCaps(sent, link, body.hash, attrs, body.opener.value, body.hello.value);
      }
    }
  }

  /** The session an initiator opens on the answer to its opener. */
  lemma InitiatorCaps(a: State, link: LinkId, k: Link, body: Body)
    requires link !in a.links && k.Handshaking? && k.hs == Handshake(Session, true, 1)
    ensures Negotiated(OnHandshakeFrame(a, link, k, SessionHandshake, body).links, link, a.env, body.hello)
  {
    if !body.read {
    } else if k.aim.None? {
    } else {
      var r := AcceptHello(a, k.aim.value, body.hello);
      HelloCaps(a, k.aim.value, body.hello);
      if r.1 { FinishCaps(r.0, link, body.hash, k.attrs, k.aim.value, body.hello.value); }
    }
  }

  /** When both ends finish a handshake in which each read what the other core
      says of itself, what one may send is what the other may receive. */
  lemma EndsAgree(a: State, la: LinkId, k: Link, answer: Body, b: State, lb: LinkId, attrs: LinkAttrs, opener: Body)
    requires la !in a.links && k.Handshaking? && k.hs == Handshake(Session, true, 1) && lb !in b.links
    requires opener.hello.Some? && answer.hello.Some? && Exchanged(a.env, b.env, opener.hello.value, answer.hello.value)
    ensures var ra := OnHandshakeFrame(a, la, k, SessionHandshake, answer);
      var rb := OnSessionOpener(b, lb, attrs, opener);
      la in ra.links && lb in rb.links ==>
        && ra.links[la].Up? && rb.links[lb].Up?
        && ra.links[la].canSend == rb.links[lb].canRecv
        && rb.links[lb].canSend == ra.links[la].canRecv
  {
    InitiatorCaps(a, la, k, answer);
    ResponderCaps(b, lb, attrs, opener);
  }

  // --------------------------------------------------------------- what is sent

  /** Whatever went out sealed went out on a session that may carry it. */
  ghost predicate Welcome(s: State, r: State) {
    && |s.log| <= |r.log| && r.log[..|s.log|] == s.log
    && forall i :: |s.log| <= i < |r.log| && r.log[i].action.LinkSend? && r.log[i].action.msg.Sealed? ==>
         var l := r.log[i].action.link;
         l in s.links && s.links[l].Up? && r.log[i].action.msg.env.cap in s.links[l].canSend
  }

  lemma WelcomeTwice(s: State, m: State, r: State)
    requires Welcome(s, m) && Welcome(m, r) && m.links == s.links
    ensures Welcome(s, r)
  {
    assert r.log[..|s.log|] == r.log[..|m.log|][..|s.log|];
    forall i | |s.log| <= i < |m.log| ensures r.log[i] == m.log[i] { assert r.log[..|m.log|][i] == m.log[i]; }
  }

  lemma SendIsWelcome(s: State, m: PendingSend, ours: bool)
    ensures Welcome(s, DispatchSend(s, m, ours))
  {
    var best := BestLink(s.links, m.peer);
    if best.None? {
    } else if m.cap !in s.links[best.value].canSend {
    } else {
      var env := Envelope((s.desk.nextMsg + 1) % 0x1_0000_0000, m.re, m.cap, m.ty, m.body);
      if env !in s.env.sealed {
      } else if s.env.sealed[env].Unsealable? {
      } else if s.env.sealed[env].bytes > s.links[best.value].maxMessage {
      } else {
      }
    }
  }

  lemma {:induction false} SendsAreWelcome(s: State, xs: seq<PendingSend>)
    ensures Welcome(s, DrainSends(s, xs))
  {
    if xs != [] {
      var front := DrainSends(s, xs[..|xs| - 1]);
      SendsAreWelcome(s, xs[..|xs| - 1]);
      SendIsWelcome(front, xs[|xs| - 1], false);
      WelcomeTwice(s, front, DrainSends(s, xs));
    }
  }

  lemma {:induction false} NotesAreWelcome(s: State, xs: seq<PluginNote>)
    ensures Welcome(s, DrainNotes(s, xs))
  {
    if xs != [] {
      var front := DrainNotes(s, xs[..|xs| - 1]);
      NotesAreWelcome(s, xs[..|xs| - 1]);
      WelcomeTwice(s, front, DrainNotes(s, xs));
    }
  }

  lemma {:induction false} EffectsAreWelcome(s: State, xs: seq<Action>)
    requires forall i :: 0 <= i < |xs| ==> xs[i].Effect?
    ensures Welcome(s, DrainEffects(s, xs))
  {
    if xs != [] {
      var front := DrainEffects(s, xs[..|xs| - 1]);
      EffectsAreWelcome(s, xs[..|xs| - 1]);
      WelcomeTwice(s, front, DrainEffects(s, xs));
    }
  }

  lemma BulkIsWelcome(s: State, b: BulkRequest)
    ensures Welcome(s, DispatchBulk(s, b))
  {
    if b.Cancel? {
    } else if BulkSupport(s.links, b.peer) == Some(NoBulk) {
    } else if BestLink(s.links, b.peer).None? {
    } else if b.Listen? {
    } else {
    }
  }

  lemma {:induction false} BulksAreWelcome(s: State, xs: seq<BulkRequest>)
    ensures Welcome(s, DrainBulk(s, xs))
  {
    if xs != [] {
      var front := DrainBulk(s, xs[..|xs| - 1]);
      BulksAreWelcome(s, xs[..|xs| - 1]);
      BulkIsWelcome(front, xs[|xs| - 1]);
      WelcomeTwice(s, front, DrainBulk(s, xs));
    }
  }

  lemma CallIsWelcome(s: State, c: Call, owner: Option<nat>)
    ensures Welcome(s, CallPlugin(s, c, owner))
  {
    var r := Answer(s, c);
    var s1 := s.(desk := Charge(s.desk, r, owner));
    var s2 := DrainNotes(s1, r.notes);
    NotesAreWelcome(s1, r.notes);
    var s3 := DrainEffects(s2, Tokened(s.desk.nextToken, r.effects));
    EffectsAreWelcome(s2, Tokened(s.desk.nextToken, r.effects));
    var s4 := DrainBulk(s3, r.bulk);
    BulksAreWelcome(s3, r.bulk);
    var s5 := DrainSends(s4, r.sends);
    SendsAreWelcome(s4, r.sends);
    WelcomeTwice(s1, s2, s3);
    WelcomeTwice(s1, s3, s4);
    WelcomeTwice(s1, s4, s5);
    assert CallPlugin(s, c, owner).log == s5.log;
  }

  /** Everything the core or its plugins say in answer to a message, errors
      included, goes out under a capability the session it leaves on may carry. */
  lemma RepliesAreWelcome(s: State, peer: DeviceId, allowed: set<Cap>, plain: Plain)
    ensures Welcome(s, OnPlain(s, peer, allowed, plain))
  {
    if plain.Undecodable? {
    } else {
      var env := plain.env;
      var refusal := PendingSend(peer, env.cap, "err", CodeName(CapNotNegotiated), Some(env.id));
      if env.cap !in allowed {
        SendIsWelcome(s, refusal, true);
      } else if env.ty == "err" {
      } else {
        var idx := HandlerOf(s, env.cap);
        if idx.None? {
          SendIsWelcome(s, refusal, true);
        } else {
          var call := Received(idx.value, peer, env, BulkSupport(s.links, peer));
          var m := CallPlugin(s, call, idx);
          CallIsWelcome(s, call, idx);
          var failed := Answer(s, call).error;
          if failed.Some? {
            SendIsWelcome(m, PendingSend(peer, env.cap, "err", CodeName(failed.value), Some(env.id)), true);
            WelcomeTwice(s, m, OnPlain(s, peer, allowed, plain));
          }
        }
      }
    }
  }

  /** An error under a capability the session may receive is shown to the host,
      and nothing is sent back. */
  lemma ErrorIsFinal(s: State, now: Now, link: LinkId, body: Body)
    requires link in s.links && s.links[link].Up?
    requires body.plain.Some? && body.plain.value.Message? && body.plain.value.env.ty == "err"
    requires body.plain.value.env.cap in s.links[link].canRecv
    ensures var env := body.plain.value.env;
      var r := Handle(s, now, LinkRecv(link, Frame(Transport, body)));
      r.log == s.log + [Entry(now, Ui(FromPlugin(s.links[link].peer, env.cap, "err", env.body)))]
      && r.desk == s.desk
  {
  }

  // ------------------------------------------------------------------- the count

  /** A message on a session that is not an error the session may receive. */
  predicate Provokes(s: State, ev: Event) {
    && ev.LinkRecv? && ev.frame.Frame? && ev.frame.kind.Transport?
    && ev.link in s.links && s.links[ev.link].Up?
    && ev.frame.body.plain.Some? && ev.frame.body.plain.value.Message?
    && !(ev.frame.body.plain.value.env.ty == "err" && ev.frame.body.plain.value.env.cap in s.links[ev.link].canRecv)
  }

  lemma PlainCount(s: State, peer: DeviceId, allowed: set<Cap>, plain: Plain)
    ensures Shown(OnPlain(s, peer, allowed, plain)).speech.errs <= Shown(s).speech.errs
      + if plain.Message? && !(plain.env.ty == "err" && plain.env.cap in allowed) then 1 else 0
  {
    if plain.Undecodable? {
    } else if plain.env.cap !in allowed {
    } else if plain.env.ty == "err" {
    } else if HandlerOf(s, plain.env.cap).None? {
    } else {
      var idx := HandlerOf(s, plain.env.cap);
      var call := Received(idx.value, peer, plain.env, BulkSupport(s.links, peer));
      assert Silent(s, CallPlugin(s, call, idx));
    }
  }

  ghost predicate Silent(s: State, r: State) {
    Shown(r).speech.errs == Shown(s).speech.errs
  }

  lemma SessionOpenerIsSilent(s: State, link: LinkId, attrs: LinkAttrs, body: Body)
    requires link !in s.links
    ensures Silent(s, OnSessionOpener(s, link, attrs, body))
  {
    if body.opener.None? || body.opener.value !in s.peers
       || s.peers[body.opener.value].psk.None? || !body.read {
    } else {
      var r := AcceptHello(s, body.opener.value, body.hello);
      HelloIsSilent(s, body.opener.value, body.hello);
      if !r.1 || !body.write {
      } else {
        var sent := Greet(r.0, link);
        assert Silent(sent, FinishSession(sent, link, body.hash, attrs, body.opener.value));
      }
    }
  }

  lemma HelloIsSilent(s: State, peer: DeviceId, hello: Option<Hello>)
    ensures var r := AcceptHello(s, peer, hello).0; Silent(s, r) && r.env == s.env
  {
    if hello.None? {
    } else if peer !in s.peers {
    } else if !CheckFreshness(hello.value.ts, s.now.wall, s.peers[peer].greatestSeen) {
    } else {
    }
  }

  lemma PairingCompletedIsSilent(s: State, link: LinkId, k: Link, body: Body)
    requires k.Handshaking? && link !in s.links
    ensures Silent(s, PairingCompleted(s, link, k, body))
  {
    if body.key.None? {
    } else if body.hello.None? {
    } else if s.pairing.None? || s.pairing.value.awaiting.Some? {
    } else {
    }
  }

  lemma AfterReadIsSilent(s: State, link: LinkId, k: Link, hs: Handshake, body: Body)
    requires k.Handshaking? && link !in s.links
    ensures Silent(s, AfterRead(s, link, k, hs, body))
  {
    if !Complete(hs) {
    } else if IsPairing(k) {
      PairingCompletedIsSilent(s, link, k, body);
    } else if k.aim.None? {
    } else {
      HelloIsSilent(s, k.aim.value, body.hello);
      var r := AcceptHello(s, k.aim.value, body.hello);
      if r.1 { assert Silent(r.0, FinishSession(r.0, link, body.hash, k.attrs, k.aim.value)); }
    }
  }

  lemma HandshakeFrameIsSilent(s: State, link: LinkId, k: Link, kind: FrameKind, body: Body)
    requires k.Handshaking? && link !in s.links
    ensures Silent(s, OnHandshakeFrame(s, link, k, kind, body))
  {
    if kind != (if IsPairing(k) then PairHandshake else SessionHandshake) {
    } else if !body.read {
      if IsPairing(k) {} else {}
    } else {
      var hs := Advance(k.hs);
      if IsPairing(k) && MyTurn(hs) {
        if body.write {
          AfterReadIsSilent(GreetPair(s, link), link, k, Advance(hs), body);
        }
      } else {
        AfterReadIsSilent(s, link, k, hs, body);
      }
    }
  }

  lemma RecvCount(s: State, link: LinkId, frame: Frame)
    ensures Shown(OnLinkRecv(s, link, frame)).speech.errs
      <= Shown(s).speech.errs + if Provokes(s, LinkRecv(link, frame)) then 1 else 0
  {
    if frame.Malformed? || link !in s.links {
    } else if s.links[link].Up? {
      if frame.kind.Transport? && frame.body.plain.Some? {
        var u := s.links[link];
        PlainCount(s.(links := s.links[link := u.(lastRecv := s.now.mono)]), u.peer, u.canRecv, frame.body.plain.value);
      }
    } else if s.links[link].Handshaking? {
      HandshakeFrameIsSilent(s.(links := s.links - {link}), link, s.links[link], frame.kind, frame.body);
    } else {
      match frame.kind
      case PairHandshake =>
      case SessionHandshake =>
        SessionOpenerIsSilent(s.(links := s.links - {link}), link, s.links[link].attrs, frame.body);
      case Transport =>
    }
  }

  lemma TickIsSilent(s: State)
    ensures Silent(s, OnTick(s))
  {
    var s1 := TickPairing(s);
    var s2 := TickBulk(s1);
    var s3 := TickLinks(s2);
    var s4 := TickDials(s3);
    var s5 := TickReconnect(s4);
    assert Silent(s5, TickWake(s5));
  }

  lemma LocalIsSilent(s: State, cmd: Command)
    ensures Silent(s, OnLocal(s, cmd))
  {
    match cmd
    case RequestPairing(route) => if WhyNotPair(s).Some? {} else {}
    case ConfirmPairing(accept) =>
      if s.pairing.None? || s.pairing.value.awaiting.None? {
      } else if !accept {
      } else if s.pairing.value.awaiting.value.record.key.None? {
      } else {}
    case SetPeerAddress(peer, route) => if peer in s.peers {} else {}
    case Connect(peer) =>
    case ReconsiderRoutes =>
    case Disconnect(peer) =>
    case Revoke(peer) =>
    case PluginCommand(peer, cap, ty, body) =>
  }

  /** One call: at most one error goes out, and only in answer to a message that
      is not itself an acceptable error. */
  lemma ErrorStep(s: State, now: Now, ev: Event)
    ensures Shown(Handle(s, now, ev)).speech.errs <= Shown(s).speech.errs + if Provokes(s, ev) then 1 else 0
  {
    var s0 := s.(now := now);
    if ev.LinkRecv? {
      RecvCount(s0, ev.link, ev.frame);
    } else if ev.Tick? {
      TickIsSilent(s0);
    } else if ev.Local? {
      LocalIsSilent(s0, ev.cmd);
    } else if ev.DialFailed? {
      if ev.dial in s.dials.pair {} else if ev.dial in s.dials.peer {} else {}
    } else {
      assert Silent(s0, React(s0, ev));
    }
  }

  /** The error messages in a log. */
  function ErrorsIn(log: seq<Entry>): nat {
    if log == [] then 0 else
      var a := log[|log| - 1].action;
      ErrorsIn(log[..|log| - 1]) + if a.LinkSend? && IsError(a.msg) then 1 else 0
  }

  lemma {:induction false} ErrorsAreShown(env: Env, log: seq<Entry>)
    ensures ErrorsIn(log) == Observe(env, log).speech.errs
  {
    if log != [] { ErrorsAreShown(env, log[..|log| - 1]); }
  }

  /** How many of the calls brought such a message. */
  function Provoked(s: State, calls: seq<Timed>): nat {
    if calls == [] then 0 else
      var (front, c) := (calls[..|calls| - 1], calls[|calls| - 1]);
      Provoked(s, front) + if Provokes(Live(s, front), c.ev) then 1 else 0
  }

  lemma {:induction false} CountHolds(env: Env, calls: seq<Timed>)
    ensures Shown(Live(Build(env), calls)).speech.errs <= Provoked(Build(env), calls)
    ensures Live(Build(env), calls).env == env
  {
    if calls != [] {
      var (front, c) := (calls[..|calls| - 1], calls[|calls| - 1]);
      CountHolds(env, front);
      var s := Live(Build(env), front);
      ErrorStep(s, c.now, c.ev);
      PromptRate.ReactKeepsEnv(s.(now := c.now), c.ev);
    }
  }

  /** Over a whole life, the errors sent never outnumber the messages received
      that are not acceptable errors. `TwoCores` joins two such lives. */
  lemma ErrorsAreProvoked(env: Env, calls: seq<Timed>)
    ensures ErrorsIn(Live(Build(env), calls).log) <= Provoked(Build(env), calls)
  {
    CountHolds(env, calls);
    ErrorsAreShown(env, Live(Build(env), calls).log);
  }
}

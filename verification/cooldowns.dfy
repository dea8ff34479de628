/** How far apart prompts stay, with no assumption on how many pairings are under
    way, and exactly what can cut a cooldown short. */
module Cooldowns {
  import opened Wrappers
  import opened Orders
  import opened Vocab
  import opened History
  import opened Protocol
  import opened Runs
  import opened TrustTable
  import opened PromptRate

  /** The last message of a pairing is read, and any reply to it can be written. */
  predicate Ends(k: Link, body: Body)
    requires k.Handshaking?
  {
    var hs := Advance(k.hs);
    body.read && if MyTurn(hs) then body.write && Complete(Advance(hs)) else Complete(hs)
  }

  /** A frame that fails a pairing handshake. */
  predicate Botched(k: Link, kind: FrameKind, body: Body) {
    IsPairing(k) && kind == PairHandshake && (!body.read || (Ends(k, body) && body.key.Some? && body.hello.None?))
  }

  /** Too recent for a slot that is given back with no cooldown of its own. */
  predicate Young(s: State, t: Option<nat>, gap: nat) {
    t.Some? && t.value + gap > s.now.mono && t.value + gap > s.quietUntil
  }

  /** A person is being asked, and was too recently for the slot to be free. */
  ghost predicate Hasty(s: State) {
    var p := Shown(s).prompts;
    Awaits(s.pairing).Some? && (Young(s, p.last, Gap(s.env.config)) || Young(s, p.recent, s.env.config.pairCooldown))
  }

  /** The denial cooldown outlasts the one a failed handshake would start. */
  ghost predicate Hushed(s: State) {
    var d := Shown(s).prompts.denial;
    s.pairing.None? && d.Some? && d.value + s.env.config.pairDeniedCooldown > s.now.mono + s.env.config.pairCooldown
  }

  /** Exactly the calls that cut a cooldown short. Each comes from a pairing that
      does not hold the slot: its handshake fails under a longer quiet, or it
      goes away while somebody else's prompt is up. */
  ghost predicate Disturbs(s: State, ev: Event) {
    match ev
    case LinkRecv(link, frame) =>
      link in s.links && frame.Frame? && Botched(s.links[link], frame.kind, frame.body) && Hushed(s)
    case LinkDown(link) => PairLink(s.links, link) && Hasty(s)
    case DialFailed(d, _) => d in s.dials.pair && Hasty(s)
    case _ => false
  }

  /** The slot, the quiet time and what was asked are as before. */
  ghost predicate Untouched(s: State, r: State) {
    && r.env == s.env && r.now == s.now && r.pairing == s.pairing && r.quietUntil == s.quietUntil
    && Shown(r).prompts == Shown(s).prompts
  }

  lemma UntouchedQuiet(s: State, r: State)
    requires Untouched(s, r)
    ensures Quieted(r) <==> Quieted(s)
  {
  }

  // -------------------------------------------------------------- received frames

  lemma OpenerQuiet(s: State, link: LinkId, attrs: LinkAttrs, deadline: nat, body: Body)
    requires link !in s.links && Quieted(s)
    ensures Quieted(OnPairOpener(s, link, attrs, deadline, body))
  {
    if WhyNotPair(s).Some? {
      UntouchedQuiet(s, FailLink(s, link));
    } else if !body.read {
    } else if !body.write {
      UntouchedQuiet(s, FailLink(s, link));
    } else {
    }
  }

  /** A handshake that fails starts the ordinary cooldown, whatever was running. */
  lemma FailedQuiet(s: State, link: LinkId)
    requires Quieted(s)
    ensures Quieted(PairingAttemptFailed(s, link)) <==> !Hushed(s)
  {
  }

  lemma AskQuiet(s: State, id: DeviceId, a: Awaiting)
    requires Quieted(s) && s.pairing.Some? && s.pairing.value.awaiting.None? && a.record.key.Some?
    ensures Quieted(Ask(s, id, a))
  {
  }

  lemma CompletedQuiet(s: State, link: LinkId, k: Link, body: Body)
    requires k.Handshaking? && link !in s.links && Quieted(s)
    ensures Quieted(PairingCompleted(s, link, k, body)) <==> !(body.key.Some? && body.hello.None? && Hushed(s))
  {
    var parked := s.(links := s.links[link := Pending(k.attrs, k.deadline)]);
    UntouchedQuiet(s, parked);
    if body.key.None? {
      UntouchedQuiet(s, FailLink(s, link));
    } else if body.hello.None? {
      FailedQuiet(s, link);
    } else if s.pairing.None? || s.pairing.value.awaiting.Some? {
      UntouchedQuiet(s, FailLink(parked, link));
    } else {
      var record := NewRecord(body.key.value, body.hello.value, body.hash);
      AskQuiet(parked, body.key.value, Awaiting(link, record, Sas(body.hash), k.via));
    }
  }

  lemma PairAfterReadQuiet(s: State, link: LinkId, k: Link, hs: Handshake, body: Body)
    requires IsPairing(k) && link !in s.links && Quieted(s)
    ensures Quieted(AfterRead(s, link, k, hs, body))
      <==> !(Complete(hs) && body.key.Some? && body.hello.None? && Hushed(s))
  {
    if !Complete(hs) {
      UntouchedQuiet(s, AfterRead(s, link, k, hs, body));
    } else {
      CompletedQuiet(s, link, k, body);
    }
  }

  lemma PairFrameQuiet(s: State, link: LinkId, k: Link, kind: FrameKind, body: Body)
    requires IsPairing(k) && link !in s.links && Quieted(s)
    ensures Quieted(OnHandshakeFrame(s, link, k, kind, body)) <==> !(Botched(k, kind, body) && Hushed(s))
  {
    if kind != PairHandshake {
      UntouchedQuiet(s, FailLink(s, link));
    } else if !body.read {
      FailedQuiet(s, link);
    } else {
      var hs := Advance(k.hs);
      if MyTurn(hs) {
        if body.write {
          UntouchedQuiet(s, GreetPair(s, link));
          PairAfterReadQuiet(GreetPair(s, link), link, k, Advance(hs), body);
        } else {
          UntouchedQuiet(s, FailLink(s, link));
        }
      } else {
        PairAfterReadQuiet(s, link, k, hs, body);
      }
    }
  }

  lemma RecvQuiet(s: State, link: LinkId, frame: Frame)
    requires Quieted(s)
    ensures Quieted(OnLinkRecv(s, link, frame)) <==> !Disturbs(s, LinkRecv(link, frame))
  {
    var out := s.(links := s.links - {link});
    var r := OnLinkRecv(s, link, frame);
    UntouchedQuiet(s, out);
    if frame.Malformed? || link !in s.links {
      UntouchedQuiet(s, r);
    } else if s.links[link].Up? {
      UntouchedQuiet(s, r);
    } else if IsPairing(s.links[link]) {
      PairFrameQuiet(out, link, s.links[link], frame.kind, frame.body);
    } else if s.links[link].Handshaking? {
      SessionFrameRests(out, link, s.links[link], frame.kind, frame.body);
      UntouchedQuiet(out, r);
    } else {
      match frame.kind
      case PairHandshake => OpenerQuiet(out, link, s.links[link].attrs, s.links[link].deadline, frame.body);
      case SessionHandshake =>
        SessionOpenerRests(out, link, s.links[link].attrs, frame.body);
        UntouchedQuiet(out, r);
      case Transport => UntouchedQuiet(out, r);
    }
  }

  // -------------------------------------------------------------- everything else

  /** The slot is given back with no cooldown. */
  lemma ReleasedQuiet(s: State, r: State)
    requires Quieted(s) && r.env == s.env && r.now == s.now && r.quietUntil == s.quietUntil
    requires r.pairing == None && Shown(r).prompts == Shown(s).prompts
    ensures Quieted(r) <==> !Hasty(s)
  {
  }

  lemma LinkDownQuiet(s: State, link: LinkId)
    requires Quieted(s)
    ensures Quieted(OnLinkDown(s, link)) <==> !Disturbs(s, LinkDown(link))
  {
    if PairLink(s.links, link) {
      ReleasedQuiet(s, OnLinkDown(s, link));
    } else {
      UntouchedQuiet(s, OnLinkDown(s, link));
    }
  }

  lemma DialFailedQuiet(s: State, d: DialToken, reason: string)
    requires Quieted(s)
    ensures Quieted(OnDialFailed(s, d, reason)) <==> !Disturbs(s, DialFailed(d, reason))
  {
    if d in s.dials.pair {
      ReleasedQuiet(s, OnDialFailed(s, d, reason));
    } else if d in s.dials.peer {
      UntouchedQuiet(s, OnDialFailed(s, d, reason));
    }
  }

  lemma ConfirmQuiet(s: State, accept: bool)
    requires Quieted(s)
    ensures Quieted(OnConfirm(s, accept))
  {
    if Awaits(s.pairing).None? {
    } else if !accept {
    } else {
    }
  }

  lemma RequestQuiet(s: State, route: Route)
    requires Quieted(s)
    ensures Quieted(OnRequestPairing(s, route))
  {
    if WhyNotPair(s).Some? {} else {}
  }

  lemma LocalQuiet(s: State, cmd: Command)
    requires Quieted(s)
    ensures Quieted(OnLocal(s, cmd))
  {
    if cmd.RequestPairing? {
      RequestQuiet(s, cmd.route);
    } else if cmd.ConfirmPairing? {
      ConfirmQuiet(s, cmd.accept);
    } else if cmd.SetPeerAddress? {
      if cmd.peer in s.peers {} else {}
      UntouchedQuiet(s, OnLocal(s, cmd));
    } else {
      UntouchedQuiet(s, OnLocal(s, cmd));
    }
  }

  lemma TickQuiet(s: State)
    requires Quieted(s)
    ensures Quieted(OnTick(s))
  {
    var s1 := TickPairing(s);
    if Lapses(s) {
      assert Quieted(s1);
    }
    RestSweeps(s1);
    UntouchedQuiet(s1, TickRest(s1));
  }

  lemma ReactQuiet(s: State, ev: Event)
    requires Quieted(s)
    ensures Quieted(React(s, ev)) <==> !Disturbs(s, ev)
  {
    if ev.LinkRecv? {
      RecvQuiet(s, ev.link, ev.frame);
    } else if ev.LinkDown? {
      LinkDownQuiet(s, ev.link);
    } else if ev.DialFailed? {
      DialFailedQuiet(s, ev.dial, ev.reason);
    } else if ev.Tick? {
      TickQuiet(s);
    } else if ev.Local? {
      LocalQuiet(s, ev.cmd);
    } else {
      UntouchedQuiet(s, React(s, ev));
    }
  }

  // ------------------------------------------------------------- the theorems

  /** One call at a clock that has not gone back, however many pairings are under
      way: cooldowns are kept if and only if it is not one of the calls that cut
      them short. */
  lemma QuietStep(s: State, now: Now, ev: Event)
    requires Quieted(s) && s.now.mono <= now.mono
    ensures Quieted(Handle(s, now, ev)) <==> !Disturbs(s.(now := now), ev)
  {
    var s0 := s.(now := now);
    assert Quieted(s0);
    ReactQuiet(s0, ev);
  }

  /** Whoever is let in to pair, from either side, finds the slot empty and every
      cooldown over. */
  lemma AdmittedIsRested(s: State)
    requires Quieted(s) && WhyNotPair(s).None?
    ensures var p := Shown(s).prompts;
      && s.env.config.acceptPairRequests && s.pairing.None?
      && LongAfter(p.last, Gap(s.env.config), s.now.mono)
      && LongAfter(p.recent, s.env.config.pairCooldown, s.now.mono)
      && LongAfter(p.denial, s.env.config.pairDeniedCooldown, s.now.mono)
  {
  }

  /** A pairing that holds the slot never cuts a cooldown short. */
  lemma SingleIsPeaceful(s: State, ev: Event)
    requires Single(s)
    ensures !Disturbs(s, ev)
  {
    if ev.LinkRecv? && ev.link in s.links && IsPairing(s.links[ev.link]) { assert PairLink(s.links, ev.link); }
    if ev.LinkDown? && PairLink(s.links, ev.link) { assert !Idle(s); }
  }

  /** No call of a run goes back in time or cuts a cooldown short. */
  ghost predicate Peaceful(env: Env, inputs: seq<Input>) {
    if inputs == [] then true else
      var front := inputs[..|inputs| - 1];
      var s := Run(env, front);
      Peaceful(env, front) &&
      match inputs[|inputs| - 1]
      case Call(now, ev) => s.now.mono <= now.mono && !Disturbs(s.(now := now), ev)
      case Restart => false
  }

  lemma {:induction false} QuietHolds(env: Env, inputs: seq<Input>)
    requires Peaceful(env, inputs)
    ensures Quieted(Run(env, inputs)) && Run(env, inputs).env == env
  {
    if inputs != [] {
      var front := inputs[..|inputs| - 1];
      QuietHolds(env, front);
      var s := Run(env, front);
      match inputs[|inputs| - 1]
      case Call(now, ev) =>
        QuietStep(s, now, ev);
        ReactKeepsEnv(s.(now := now), ev);
      case Restart =>
    }
  }

  /** Runs that strand no pairing are such runs. */
  lemma {:induction false} OrderlyIsPeaceful(env: Env, inputs: seq<Input>)
    requires Orderly(env, inputs)
    ensures Peaceful(env, inputs)
  {
    if inputs != [] {
      var front := inputs[..|inputs| - 1];
      OrderlyIsPeaceful(env, front);
      PromptsHold(env, front);
      match inputs[|inputs| - 1]
      case Call(now, ev) => SingleIsPeaceful(Run(env, front).(now := now), ev);
      case Restart =>
    }
  }

  predicate IsPrompt(e: Entry) {
    e.action.Ui? && e.action.event.PairingSas?
  }

  predicate IsDenial(e: Entry) {
    e.action.Ui? && e.action.event == PairingFailed(CodesDiffer)
  }

  predicate IsAccepted(e: Entry) {
    e.action.Ui? && e.action.event.PairingComplete?
  }

  lemma {:induction false} SpacedEarlier(env: Env, log: seq<Entry>, n: nat)
    requires n <= |log| && Observe(env, log).prompts.spaced
    ensures Observe(env, log[..n]).prompts.spaced
  {
    if n < |log| {
      SpacedEarlier(env, log[..|log| - 1], n);
      assert log[..|log| - 1][..n] == log[..n];
    } else {
      assert log[..n] == log;
    }
  }

  lemma {:induction false} PromptRemembered(env: Env, log: seq<Entry>, i: nat)
    requires i < |log| && IsPrompt(log[i])
    requires forall k :: i < k < |log| ==> !IsAccepted(log[k])
    ensures var p := Observe(env, log).prompts; p.last.Some? && log[i].now.mono <= p.last.value
  {
    var n := |log| - 1;
    if i < n {
      assert log[..n][i] == log[i];
      PromptRemembered(env, log[..n], i);
      assert !IsAccepted(log[n]);
    }
  }

  lemma {:induction false} RecentRemembered(env: Env, log: seq<Entry>, i: nat)
    requires i < |log| && IsPrompt(log[i])
    requires forall k :: i < k < |log| ==> !IsAccepted(log[k]) && !IsDenial(log[k])
    ensures var p := Observe(env, log).prompts; p.recent.Some? && log[i].now.mono <= p.recent.value
  {
    var n := |log| - 1;
    if i < n {
      assert log[..n][i] == log[i];
      RecentRemembered(env, log[..n], i);
      assert !IsAccepted(log[n]) && !IsDenial(log[n]);
    }
  }

  lemma {:induction false} DenialRemembered(env: Env, log: seq<Entry>, i: nat)
    requires i < |log| && IsDenial(log[i])
    ensures var p := Observe(env, log).prompts; p.denial.Some? && log[i].now.mono <= p.denial.value
  {
    var n := |log| - 1;
    if i < n {
      assert log[..n][i] == log[i];
      DenialRemembered(env, log[..n], i);
    }
  }

  /** The prompts of a log keep their distance. */
  predicate Apart(c: Config, log: seq<Entry>, i: nat, j: nat)
    requires i < j < |log|
  {
    && (IsPrompt(log[i]) && (forall k :: i < k < j ==> !IsAccepted(log[k])) ==>
          log[i].now.mono + Gap(c) <= log[j].now.mono)
    && (IsPrompt(log[i]) && (forall k :: i < k < j ==> !IsAccepted(log[k]) && !IsDenial(log[k])) ==>
          log[i].now.mono + c.pairCooldown <= log[j].now.mono)
    && (IsDenial(log[i]) ==> log[i].now.mono + c.pairDeniedCooldown <= log[j].now.mono)
  }

  lemma SpacedIsApart(env: Env, log: seq<Entry>, i: nat, j: nat)
    requires i < j < |log| && IsPrompt(log[j])
    requires Observe(env, log).prompts.spaced
    ensures Apart(env.config, log, i, j)
  {
    var before := log[..j];
    var upto := log[..j + 1];
    SpacedEarlier(env, log, j + 1);
    assert upto[..j] == before && upto[j] == log[j] && before[i] == log[i];
    if IsPrompt(log[i]) && forall k :: i < k < j ==> !IsAccepted(log[k]) {
      PromptRemembered(env, before, i);
    }
    if IsPrompt(log[i]) && forall k :: i < k < j ==> !IsAccepted(log[k]) && !IsDenial(log[k]) {
      RecentRemembered(env, before, i);
    }
    if IsDenial(log[i]) {
      DenialRemembered(env, before, i);
    }
  }

  /** A person is bothered at most once a cooldown: two prompts with no accepted
      pairing and no denial between them are apart by the cooldown; no prompt
      follows a denial before the denial cooldown is over; and two prompts with
      no accepted pairing between them are apart by the shorter of the two. */
  lemma PromptsAreApart(env: Env, inputs: seq<Input>, i: nat, j: nat)
    requires Peaceful(env, inputs)
    requires i < j < |Run(env, inputs).log| && IsPrompt(Run(env, inputs).log[j])
    ensures Apart(env.config, Run(env, inputs).log, i, j)
  {
    QuietHolds(env, inputs);
    SpacedIsApart(env, Run(env, inputs).log, i, j);
  }
}

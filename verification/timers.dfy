/** The one deadline handed to the host, and why a tick never has to be
    followed by another at the same instant. */
module Timers {
  import opened Wrappers
  import opened Orders
  import opened Vocab
  import opened History
  import opened Protocol

  function AsSet(o: Option<nat>): set<nat> {
    if o.None? then {} else {o.value}
  }

  function DialTimes(dials: map<DialToken, TimedDial>): map<DialToken, nat> {
    map d | d in dials :: dials[d].deadline
  }

  function LinkTimes(links: map<LinkId, Link>): map<LinkId, nat> {
    map l | l in links && !links[l].Up? :: links[l].deadline
  }

  function WindowTime(w: Option<Window>): Option<nat> {
    if w.None? then None else Some(w.value.deadline)
  }

  /** Every moment the core is waiting for. */
  function Outstanding(s: State): set<nat> {
    AsSet(s.desk.wake) + AsSet(s.reconnectAt) + DialTimes(s.dials.peer).Values
    + AsSet(WindowTime(s.pairing)) + s.desk.bulkWait.Values + LinkTimes(s.links).Values
  }

  function NextDeadline(s: State): (r: Option<nat>)
    ensures r.None? <==> Outstanding(s) == {}
    ensures r.Some? ==> r.value in Outstanding(s)
    ensures forall d :: d in Outstanding(s) ==> r.Some? && r.value <= d
  {
    if Outstanding(s) == {} then None else Some(Least(Outstanding(s)))
  }

  /** Timeouts and the wakes plugins ask for are at least a millisecond. */
  predicate Positive(env: Env) {
    && env.config.dialTimeout > 0 && env.config.reconnectEvery > 0
    && forall n :: n in env.plugin && env.plugin[n].wakeIn.Some? ==> env.plugin[n].wakeIn.value > 0
  }

  // ------------------------------------------------------------ plugins and bulk

  /** Nothing the plugins' desk waits for became overdue. */
  predicate Patient(s: State, r: State) {
    && r.now == s.now && r.env == s.env
    && (forall t :: t in r.desk.bulkWait ==>
          r.desk.bulkWait[t] > s.now.mono || (t in s.desk.bulkWait && s.desk.bulkWait[t] == r.desk.bulkWait[t]))
    && (r.desk.wake.Some? && r.desk.wake.value <= s.now.mono ==>
          s.desk.wake.Some? && s.desk.wake.value <= s.now.mono)
  }

  lemma {:induction false} NotesArePatient(s: State, xs: seq<PluginNote>)
    ensures DrainNotes(s, xs).desk == s.desk
  {
    if xs != [] { NotesArePatient(s, xs[..|xs| - 1]); }
  }

  lemma {:induction false} EffectsArePatient(s: State, xs: seq<Action>)
    requires forall i :: 0 <= i < |xs| ==> xs[i].Effect?
    ensures DrainEffects(s, xs).desk == s.desk
  {
    if xs != [] { EffectsArePatient(s, xs[..|xs| - 1]); }
  }

  lemma BulkIsPatient(s: State, b: BulkRequest)
    ensures Patient(s, DispatchBulk(s, b)) && DispatchBulk(s, b).desk.wake == s.desk.wake
  {
    if b.Cancel? {
    } else if BulkSupport(s.links, b.peer) == Some(NoBulk) {
    } else if BestLink(s.links, b.peer).None? {
    } else if b.Listen? {
    } else {
    }
  }

  lemma {:induction false} BulksArePatient(s: State, xs: seq<BulkRequest>)
    ensures Patient(s, DrainBulk(s, xs)) && DrainBulk(s, xs).desk.wake == s.desk.wake
  {
    if xs != [] {
      BulksArePatient(s, xs[..|xs| - 1]);
      BulkIsPatient(DrainBulk(s, xs[..|xs| - 1]), xs[|xs| - 1]);
    }
  }

  lemma SendOnIsPatient(s: State, l: LinkId, m: PendingSend, ours: bool)
    requires l in s.links && s.links[l].Up?
    ensures var d := SendOn(s, l, m, ours).desk; d == s.desk.(nextMsg := d.nextMsg)
  {
    if m.cap !in s.links[l].canSend {
    } else {
      var env := Envelope((s.desk.nextMsg + 1) % 0x1_0000_0000, m.re, m.cap, m.ty, m.body);
      if env !in s.env.sealed {
      } else if s.env.sealed[env].Unsealable? {
      } else if s.env.sealed[env].bytes > s.links[l].maxMessage {
      } else {
      }
    }
  }

  lemma SendIsPatient(s: State, m: PendingSend, ours: bool)
    ensures var d := DispatchSend(s, m, ours).desk; d == s.desk.(nextMsg := d.nextMsg)
  {
    var best := BestLink(s.links, m.peer);
    if best.Some? { SendOnIsPatient(s, best.value, m, ours); }
  }

  lemma {:induction false} SendsArePatient(s: State, xs: seq<PendingSend>)
    ensures var d := DrainSends(s, xs).desk; d == s.desk.(nextMsg := d.nextMsg)
  {
    if xs != [] {
      SendsArePatient(s, xs[..|xs| - 1]);
      SendIsPatient(DrainSends(s, xs[..|xs| - 1]), xs[|xs| - 1], false);
    }
  }

  lemma DrainIsPatient(s: State, first: nat, r: Requests)
    requires r.wakeIn.Some? ==> r.wakeIn.value > 0
    ensures Patient(s, Drain(s, first, r))
  {
    NotesArePatient(s, r.notes);
    var s2 := DrainNotes(s, r.notes);
    EffectsArePatient(s2, Tokened(first, r.effects));
    var s3 := DrainEffects(s2, Tokened(first, r.effects));
    BulksArePatient(s3, r.bulk);
    var s4 := DrainBulk(s3, r.bulk);
    SendsArePatient(s4, r.sends);
    if r.wakeIn.None? {} else {}
  }

  lemma PluginIsPatient(s: State, c: Call, owner: Option<nat>)
    requires Positive(s.env)
    ensures Patient(s, CallPlugin(s, c, owner))
  {
    var charged := s.(desk := Charge(s.desk, Answer(s, c), owner));
    if owner.None? {} else {}
    DrainIsPatient(charged, s.desk.nextToken, Answer(s, c));
  }

  lemma GiveUpClears(s: State, t: TransferId)
    requires Positive(s.env)
    ensures var r := GiveUp(s, t);
      Patient(s, r) && (t in r.desk.bulkWait ==> r.desk.bulkWait[t] > s.now.mono)
  {
    var out := Push(s.(desk := s.desk.(bulkWait := s.desk.bulkWait - {t})), BulkCancel(t));
    if t in out.desk.bulkOwner {
      PluginIsPatient(out, BulkOver(out.desk.bulkOwner[t], t, false, "the sender never connected"), Some(out.desk.bulkOwner[t]));
    }
  }

  /** None of these transfers is overdue. */
  predicate GivenUp(r: State, ids: seq<TransferId>) {
    forall t :: t in r.desk.bulkWait && t in ids ==> r.desk.bulkWait[t] > r.now.mono
  }

  /** Patience adds up, and what is no longer waited for stays so. */
  lemma PatientTwice(s: State, m: State, r: State, ids: seq<TransferId>)
    requires Patient(s, m) && Patient(m, r) && ids != []
    requires GivenUp(m, ids[..|ids| - 1]) && GivenUp(r, [ids[|ids| - 1]])
    ensures Patient(s, r) && GivenUp(r, ids)
  {
    forall t | t in r.desk.bulkWait && t in ids ensures r.desk.bulkWait[t] > r.now.mono {
      if t != ids[|ids| - 1] { assert t in ids[..|ids| - 1]; } else { assert t in [ids[|ids| - 1]]; }
    }
  }

  /** Transfers given up on are no longer waited for. */
  lemma {:induction false} GivingUpClears(s: State, ids: seq<TransferId>)
    requires Positive(s.env)
    ensures Patient(s, GiveUpEach(s, ids)) && GivenUp(GiveUpEach(s, ids), ids)
  {
    if ids != [] {
      var front := GiveUpEach(s, ids[..|ids| - 1]);
      GivingUpClears(s, ids[..|ids| - 1]);
      GiveUpClears(front, ids[|ids| - 1]);
      PatientTwice(s, front, GiveUp(front, ids[|ids| - 1]), ids);
    }
  }

  // ---------------------------------------------------------------------- dials

  /** No dial became overdue. */
  predicate Prompt(s: State, r: State) {
    && r.now == s.now && r.env == s.env
    && forall d :: d in r.dials.peer ==>
         r.dials.peer[d].deadline > s.now.mono
         || (d in s.dials.peer && s.dials.peer[d].deadline == r.dials.peer[d].deadline)
  }

  lemma TryNextIsPrompt(s: State, p: PeerDial, why: Why)
    requires Positive(s.env)
    ensures Prompt(s, TryNextRoute(s, p, why)) && TryNextRoute(s, p, why).desk == s.desk
  {
    if BestLink(s.links, p.peer).Some? {
    } else if p.routes == [] {
      if p.byHand {} else {}
    } else {
    }
  }

  lemma DialFirstIsPrompt(s: State, peer: DeviceId, routes: seq<Route>, byHand: bool)
    requires Positive(s.env)
    ensures Prompt(s, DialFirst(s, peer, routes, byHand))
  {
    if routes == [] {
      if byHand {} else {}
    } else {
    }
  }

  lemma ConnectIsPrompt(s: State, peer: DeviceId, byHand: bool)
    requires Positive(s.env)
    ensures Prompt(s, ConnectPeer(s, peer, byHand))
  {
    if !byHand && Dialling(s, peer) {
    } else {
      var routes := RouteList(KnownRoutes(s, peer));
      match PeerStateOf(s, peer)
      case Unreachable => DialFirstIsPrompt(s, peer, routes, byHand);
      case Connecting => if byHand {} else {}
      case Reachable =>
        if byHand {
        } else {
          var best := BestLink(s.links, peer);
          if best.Some? {
            var better := BetterThan(routes, s.links[best.value].transport);
            if better != [] { DialFirstIsPrompt(s, peer, better, byHand); }
          }
        }
    }
  }

  lemma {:induction false} ConnectingIsPrompt(s: State, ids: seq<DeviceId>)
    requires Positive(s.env)
    ensures Prompt(s, ConnectEach(s, ids))
  {
    if ids != [] {
      ConnectingIsPrompt(s, ids[..|ids| - 1]);
      ConnectIsPrompt(ConnectEach(s, ids[..|ids| - 1]), ids[|ids| - 1], false);
    }
  }

  lemma {:induction false} ClosingIsPrompt(s: State, ids: seq<LinkId>)
    requires Positive(s.env)
    requires forall l :: l in ids && l in s.links ==> !s.links[l].Up?
    ensures Prompt(s, CloseEach(s, ids)) && CloseEach(s, ids).desk == s.desk
  {
    if ids != [] {
      var (front, l) := (CloseEach(s, ids[..|ids| - 1]), ids[|ids| - 1]);
      ClosingIsPrompt(s, ids[..|ids| - 1]);
      var out := Push(front.(links := front.links - {l}), Close(l, Closed));
      if l in front.links && front.links[l].Handshaking? && front.links[l].fallback.Some? {
        TryNextIsPrompt(out, front.links[l].fallback.value, CutOff);
      }
    }
  }

  lemma PromptTwice(s: State, m: State, r: State, done: seq<DialToken>, d: DialToken)
    requires Prompt(s, m) && Prompt(m, r)
    requires forall c :: c in m.dials.peer ==> m.dials.peer[c].deadline > s.now.mono || c !in done
    requires d in r.dials.peer ==> r.dials.peer[d].deadline > s.now.mono
    ensures Prompt(s, r)
    ensures forall c :: c in r.dials.peer ==> r.dials.peer[c].deadline > s.now.mono || c !in done + [d]
  {
    forall c | c in r.dials.peer ensures r.dials.peer[c].deadline > s.now.mono || c !in done + [d] {
      if c != d && r.dials.peer[c].deadline <= s.now.mono { assert c in m.dials.peer; }
    }
  }

  lemma {:induction false} ExpiringClears(s: State, ids: seq<DialToken>)
    requires Positive(s.env)
    ensures var r := ExpireEach(s, ids);
      Prompt(s, r) && forall d :: d in r.dials.peer ==> r.dials.peer[d].deadline > s.now.mono || d !in ids
  {
    if ids != [] {
      var (done, d) := (ids[..|ids| - 1], ids[|ids| - 1]);
      var front := ExpireEach(s, done);
      ExpiringClears(s, done);
      if d in front.dials.peer {
        TryNextIsPrompt(front.(dials := front.dials.(peer := front.dials.peer - {d})), front.dials.peer[d].dial, NoAnswer);
      }
      PromptTwice(s, front, Expire(front, d), done, d);
      assert ids == done + [d];
    }
  }

  // ----------------------------------------------------------------------- tick

  predicate LinksAhead(s: State) {
    forall l :: l in s.links && !s.links[l].Up? ==> s.links[l].deadline > s.now.mono
  }

  predicate DialsAhead(s: State) {
    forall d :: d in s.dials.peer ==> s.dials.peer[d].deadline > s.now.mono
  }

  predicate WaitsAhead(s: State) {
    forall t :: t in s.desk.bulkWait ==> s.desk.bulkWait[t] > s.now.mono
  }

  predicate WindowAhead(s: State) {
    s.pairing.Some? ==> s.pairing.value.deadline > s.now.mono
  }

  predicate After(o: Option<nat>, now: nat) {
    o.Some? ==> o.value > now
  }

  /** First half of a tick: the window, the transfers and the links. */
  lemma EarlyTick(s: State)
    requires Positive(s.env)
    ensures var r := TickLinks(TickBulk(TickPairing(s)));
      r.now == s.now && r.env == s.env && WindowAhead(r) && WaitsAhead(r) && LinksAhead(r)
  {
    var s1 := TickPairing(s);
    GivingUpClears(s1, LateTransfers(s1.desk.bulkWait, s1.now.mono));
    var s2 := TickBulk(s1);
    assert WaitsAhead(s2) by {
      forall t | t in s2.desk.bulkWait ensures s2.desk.bulkWait[t] > s2.now.mono {
        assert t in LateTransfers(s1.desk.bulkWait, s1.now.mono) || t !in LateTransfers(s1.desk.bulkWait, s1.now.mono);
      }
    }
    ClosingIsPrompt(s2, StaleLinks(s2.links, s2.now.mono));
    assert LinksAhead(TickLinks(s2));
  }

  lemma DialsTick(s: State)
    requires Positive(s.env)
    ensures DialsAhead(TickDials(s)) && TickDials(s).desk == s.desk
  {
    ExpiringClears(s, LateDials(s.dials.peer, s.now.mono));
    var r := TickDials(s);
    forall d | d in r.dials.peer ensures r.dials.peer[d].deadline > r.now.mono {
      assert d in LateDials(s.dials.peer, s.now.mono) || d !in LateDials(s.dials.peer, s.now.mono);
    }
  }

  lemma PromptStaysAhead(s: State, r: State)
    requires DialsAhead(s) && Prompt(s, r)
    ensures DialsAhead(r)
  {
  }

  lemma RetryTick(s: State)
    requires Positive(s.env) && DialsAhead(s)
    ensures DialsAhead(TickReconnect(s)) && After(TickReconnect(s).reconnectAt, s.now.mono)
  {
    if RetryDue(s) {
      ConnectingIsPrompt(Rearmed(s), OutOfReach(s.peers, s.links, s.atlas.addrs));
      PromptStaysAhead(Rearmed(s), TickReconnect(s));
    }
  }

  lemma WakeTick(s: State)
    requires Positive(s.env)
    ensures Patient(s, TickWake(s)) && After(TickWake(s).desk.wake, s.now.mono)
  {
    if s.desk.wake.None? || s.now.mono < s.desk.wake.value {
    } else {
      PluginIsPatient(s.(desk := s.desk.(wake := None)), Woken, None);
    }
  }

  predicate Settled(s: State) {
    WindowAhead(s) && WaitsAhead(s) && LinksAhead(s)
  }

  lemma WalkStaysSettled(s: State, r: State)
    requires Settled(s) && Walk(s, r)
    ensures Settled(r)
  {
  }

  lemma CallStaysSettled(s: State, r: State)
    requires Settled(s) && Calm(s, r) && Patient(s, r)
    ensures Settled(r)
  {
  }

  /** Second half: the dials, the retry and the plugins' wake. */
  lemma LateTick(s: State)
    requires Positive(s.env) && Settled(s)
    ensures var r := TickWake(TickReconnect(TickDials(s)));
      r.now == s.now && Settled(r) && DialsAhead(r)
      && After(r.reconnectAt, s.now.mono) && After(r.desk.wake, s.now.mono)
  {
    DialsTick(s);
    var s4 := TickDials(s);
    WalkStaysSettled(s, s4);
    RetryTick(s4);
    var s5 := TickReconnect(s4);
    WalkStaysSettled(s4.(reconnectAt := s5.reconnectAt), s5);
    WakeTick(s5);
    CallStaysSettled(s5, TickWake(s5));
  }

  // ------------------------------------------------------------- the theorem

  lemma NothingOverdue(s: State)
    requires Settled(s) && DialsAhead(s) && After(s.reconnectAt, s.now.mono) && After(s.desk.wake, s.now.mono)
    ensures forall d :: d in Outstanding(s) ==> d > s.now.mono
  {
  }

  lemma OnTickClears(s: State)
    requires Positive(s.env)
    ensures forall d :: d in Outstanding(OnTick(s)) ==> d > s.now.mono
    ensures After(NextDeadline(OnTick(s)), s.now.mono)
  {
    EarlyTick(s);
    LateTick(TickLinks(TickBulk(TickPairing(s))));
    NothingOverdue(OnTick(s));
  }

  lemma TickIs(s: State, now: Now)
    ensures Handle(s, now, Tick) == OnTick(s.(now := now))
  {
  }

  /** After a tick nothing is overdue anywhere, and the host is asked back
      strictly later, so it can never spin. */
  lemma TickClears(s: State, now: Now)
    requires Positive(s.env)
    ensures forall d :: d in Outstanding(Handle(s, now, Tick)) ==> d > now.mono
    ensures After(NextDeadline(Handle(s, now, Tick)), now.mono)
  {
    TickIs(s, now);
    OnTickClears(s.(now := now));
  }
}

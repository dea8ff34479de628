/** Who is trusted: the table of peers, its copy on disk, the replay
    watermarks, and the pairing prompts a person answered. */
module TrustTable {
  import opened Wrappers
  import opened Orders
  import opened Vocab
  import opened History
  import opened Protocol
  import opened Runs

  /** Every record is filed under the id of its own key. */
  predicate Coherent(peers: map<DeviceId, PeerRecord>) {
    forall id :: id in peers ==> peers[id].deviceId == id && peers[id].key == Some(id)
  }

  function Awaits(p: Option<Window>): Option<Awaiting> {
    if p.None? then None else p.value.awaiting
  }

  /** The waiting record is the one on the screen: its name, its key, and a
      secret from the very handshake whose digits are shown. */
  predicate OnScreen(a: Awaiting, card: Option<UiEvent>) {
    && a.record.key.Some? && a.record.deviceId == a.record.key.value
    && a.record.greatestSeen == 0
    && a.record.psk == Some(SessionPsk(a.sas.hash))
    && card == Some(PairingSas(a.record.name, a.record.key.value, a.sas))
  }

  /** The store written so far is the table, every watermark rose, and what
      waits for a person is what the person sees. */
  ghost predicate Trusted(s: State) {
    && Coherent(s.peers)
    && Filed(Shown(s).trust.disk) == s.peers
    && Shown(s).trust.rising
    && (Awaits(s.pairing).Some? ==> OnScreen(Awaits(s.pairing).value, Shown(s).trust.card))
  }

  /** No peer was added, and no key or secret replaced. */
  predicate Kept(a: map<DeviceId, PeerRecord>, b: map<DeviceId, PeerRecord>) {
    forall id :: id in b ==> id in a && b[id].key == a[id].key && b[id].psk == a[id].psk
  }

  /** No waiting confirmation was swapped for another. */
  predicate Held(a: Option<Window>, b: Option<Window>) {
    Awaits(a).Some? ==> Awaits(b).None? || Awaits(b) == Awaits(a)
  }

  ghost predicate TrustStep(s: State, r: State) {
    && r.env == s.env
    && (Trusted(s) ==> Trusted(r))
    && Kept(s.peers, r.peers)
    && Held(s.pairing, r.pairing)
  }

  /** Nothing here changed, but a confirmation may have been dropped. */
  lemma Unmoved(s: State, r: State)
    requires r.env == s.env && r.peers == s.peers && Shown(r).trust == Shown(s).trust
    requires Awaits(r.pairing).None? || Awaits(r.pairing) == Awaits(s.pairing)
    ensures TrustStep(s, r)
  {
  }

  lemma FiledPut(disk: map<DeviceId, PeerRecord>, id: DeviceId, r: PeerRecord)
    requires r.key == Some(id)
    ensures Filed(disk[id := r]) == Filed(disk)[id := r]
  {
  }

  lemma FiledDrop(disk: map<DeviceId, PeerRecord>, id: DeviceId)
    ensures Filed(disk - {id}) == Filed(disk) - {id}
  {
  }

  lemma DropKeepsTrust(s: State, r: State, id: DeviceId)
    requires r.env == s.env && r.peers == s.peers - {id} && r.pairing == s.pairing
    requires Shown(r).trust == NotePersist(Shown(s).trust, id, None, s.now.wall)
    ensures TrustStep(s, r)
  {
    FiledDrop(Shown(s).trust.disk, id);
  }

  lemma HelloKeepsTrust(s: State, peer: DeviceId, hello: Option<Hello>)
    ensures TrustStep(s, AcceptHello(s, peer, hello).0)
    ensures Shown(AcceptHello(s, peer, hello).0).reach == Shown(s).reach
  {
    if hello.None? {
    } else if peer !in s.peers {
    } else if !CheckFreshness(hello.value.ts, s.now.wall, s.peers[peer].greatestSeen) {
    } else if Trusted(s) {
      var rec := AcceptHello(s, peer, hello).0.peers[peer];
      FiledPut(Shown(s).trust.disk, peer, rec);
    }
  }

  lemma SessionOpenerKeepsTrust(s: State, link: LinkId, attrs: LinkAttrs, body: Body)
    requires link !in s.links
    ensures TrustStep(s, OnSessionOpener(s, link, attrs, body))
  {
    if body.opener.None? || body.opener.value !in s.peers
       || s.peers[body.opener.value].psk.None? || !body.read {
    } else {
      var r := AcceptHello(s, body.opener.value, body.hello);
      HelloKeepsTrust(s, body.opener.value, body.hello);
      if !r.1 || !body.write {
        Unmoved(r.0, FailLink(r.0, link));
      } else {
        var sent := Greet(r.0, link);
        Unmoved(r.0, FinishSession(sent, link, body.hash, attrs, body.opener.value));
      }
    }
  }

  lemma PairingCompletedKeepsTrust(s: State, link: LinkId, k: Link, body: Body)
    requires k.Handshaking? && link !in s.links
    ensures TrustStep(s, PairingCompleted(s, link, k, body))
  {
    if body.key.None? {
    } else if body.hello.None? {
    } else if s.pairing.None? || s.pairing.value.awaiting.Some? {
    } else {
    }
  }

  lemma AfterReadKeepsTrust(s: State, link: LinkId, k: Link, hs: Handshake, body: Body)
    requires k.Handshaking? && link !in s.links
    ensures TrustStep(s, AfterRead(s, link, k, hs, body))
  {
    if !Complete(hs) {
    } else if IsPairing(k) {
      PairingCompletedKeepsTrust(s, link, k, body);
    } else if k.aim.None? {
    } else {
      var r := AcceptHello(s, k.aim.value, body.hello);
      HelloKeepsTrust(s, k.aim.value, body.hello);
      if !r.1 {
        Unmoved(r.0, FailLink(r.0, link));
      } else {
        Unmoved(r.0, FinishSession(r.0, link, body.hash, k.attrs, k.aim.value));
      }
    }
  }

  lemma HandshakeFrameKeepsTrust(s: State, link: LinkId, k: Link, kind: FrameKind, body: Body)
    requires k.Handshaking? && link !in s.links
    ensures TrustStep(s, OnHandshakeFrame(s, link, k, kind, body))
  {
    if kind != (if IsPairing(k) then PairHandshake else SessionHandshake) {
    } else if !body.read {
      if IsPairing(k) {} else {}
    } else {
      var hs := Advance(k.hs);
      if IsPairing(k) && MyTurn(hs) {
        if body.write {
          var sent := GreetPair(s, link);
          AfterReadKeepsTrust(sent, link, k, Advance(hs), body);
        }
      } else {
        AfterReadKeepsTrust(s, link, k, hs, body);
      }
    }
  }

  lemma RecvKeepsTrust(s: State, link: LinkId, frame: Frame)
    ensures TrustStep(s, OnLinkRecv(s, link, frame))
  {
    if frame.Malformed? || link !in s.links {
    } else {
      var out := s.(links := s.links - {link});
      match s.links[link]
      case Up(_, _, _, _, _, _, _, _) =>
      case Handshaking(_, _, _, _, _, _) =>
        HandshakeFrameKeepsTrust(out, link, s.links[link], frame.kind, frame.body);
      case Pending(attrs, deadline) =>
        match frame.kind
        case PairHandshake =>
        case SessionHandshake => SessionOpenerKeepsTrust(out, link, attrs, frame.body);
        case Transport =>
    }
  }

  lemma TickKeepsTrust(s: State)
    ensures TrustStep(s, OnTick(s))
  {
    var s1 := TickPairing(s);
    var s2 := TickBulk(s1);
    var s3 := TickLinks(s2);
    var s4 := TickDials(s3);
    var s5 := TickReconnect(s4);
    Unmoved(s, TickWake(s5));
  }

  /** Accepting is the only way a record with a new key or a new secret gets
      in, and it is the record on the screen. */
  lemma ConfirmKeepsTrust(s: State, accept: bool)
    requires Trusted(s)
    ensures OnConfirm(s, accept).env == s.env
    ensures Trusted(OnConfirm(s, accept)) && Held(s.pairing, OnConfirm(s, accept).pairing)
    ensures OnConfirm(s, accept).peers ==
      if accept && Awaits(s.pairing).Some?
      then s.peers[Awaits(s.pairing).value.record.deviceId := Awaits(s.pairing).value.record] else s.peers
  {
    if Awaits(s.pairing).None? {
    } else if !accept {
      Unmoved(s, OnConfirm(s, accept));
    } else {
      var a := Awaits(s.pairing).value;
      FiledPut(Shown(s).trust.disk, a.record.deviceId, a.record);
    }
  }

  lemma LocalKeepsTrust(s: State, cmd: Command)
    requires !cmd.ConfirmPairing?
    ensures TrustStep(s, OnLocal(s, cmd))
  {
    match cmd
    case RequestPairing(r) =>
      if WhyNotPair(s).Some? {} else {}
      Unmoved(s, OnRequestPairing(s, r));
    case ConfirmPairing(accept) =>
    case SetPeerAddress(peer, r) =>
      if peer in s.peers { Unmoved(s, LearnRoute(s, peer, r)); }
    case Connect(peer) => Unmoved(s, ConnectPeer(s, peer, true));
    case ReconsiderRoutes => Unmoved(s, ConnectEach(s, Ascending(s.peers.Keys)));
    case Disconnect(peer) => Unmoved(s, DropEach(s, UpLinks(s.links, peer), Closed));
    case Revoke(peer) => DropKeepsTrust(s, OnRevoke(s, peer), peer);
    case PluginCommand(peer, cap, ty, body) => Unmoved(s, OnPluginCommand(s, peer, cap, ty, body));
  }

  lemma DialFailedKeepsTrust(s: State, d: DialToken, reason: string)
    ensures TrustStep(s, OnDialFailed(s, d, reason))
  {
    if d in s.dials.pair {} else if d in s.dials.peer {} else {}
    Unmoved(s, OnDialFailed(s, d, reason));
  }

  lemma ReactKeepsTrust(s: State, ev: Event)
    requires ev.Local? ==> !ev.cmd.ConfirmPairing?
    ensures TrustStep(s, React(s, ev))
  {
    if ev.LinkRecv? {
      RecvKeepsTrust(s, ev.link, ev.frame);
    } else if ev.DialFailed? {
      DialFailedKeepsTrust(s, ev.dial, ev.reason);
    } else if ev.Tick? {
      TickKeepsTrust(s);
    } else if ev.Local? {
      LocalKeepsTrust(s, ev.cmd);
    } else {
      Unmoved(s, React(s, ev));
    }
  }

  // ------------------------------------------------------------- the theorems

  /** One call, on any state that is trusted: it stays trusted; the only new
      keys and secrets come in by accepting a prompt, and then the one record
      filed is the record on the screen; and no waiting confirmation turns into
      another. */
  lemma PairingLedger(s: State, now: Now, ev: Event)
    requires Trusted(s)
    ensures Trusted(Handle(s, now, ev)) && Handle(s, now, ev).env == s.env
    ensures Held(s.pairing, Handle(s, now, ev).pairing)
    ensures ev != Local(ConfirmPairing(true)) || Awaits(s.pairing).None? ==>
      Kept(s.peers, Handle(s, now, ev).peers)
    ensures ev == Local(ConfirmPairing(true)) && Awaits(s.pairing).Some? ==>
      var a := Awaits(s.pairing).value;
      OnScreen(a, Shown(s).trust.card)
      && Handle(s, now, ev).peers == s.peers[a.record.deviceId := a.record]
  {
    var s0 := s.(now := now);
    Unmoved(s, s0);
    if ev.Local? && ev.cmd.ConfirmPairing? {
      ConfirmKeepsTrust(s0, ev.cmd.accept);
    } else {
      ReactKeepsTrust(s0, ev);
    }
  }

  /** The host hands back what a core once wrote: a record that is filed under
      its own key carries its own id. */
  predicate Honest(store: map<DeviceId, PeerRecord>) {
    forall id :: id in store && store[id].key == Some(id) ==> store[id].deviceId == id
  }

  lemma {:induction false} TrustHolds(env: Env, inputs: seq<Input>)
    requires Honest(env.store)
    ensures Trusted(Run(env, inputs)) && Run(env, inputs).env == env
  {
    if inputs != [] {
      TrustHolds(env, inputs[..|inputs| - 1]);
      var s := Run(env, inputs[..|inputs| - 1]);
      match inputs[|inputs| - 1]
      case Call(now, ev) =>
        PairingLedger(s, now, ev);
      case Restart =>
        ReplayIsShown(env, s.log);
        Unmoved(s, Reborn(s));
    }
  }

  /** A restart at any moment restores exactly the table the core held, the
      watermarks included. */
  lemma RestartRebuilds(env: Env, inputs: seq<Input>)
    requires Honest(env.store)
    ensures Reborn(Run(env, inputs)).peers == Run(env, inputs).peers
    ensures Filed(Replay(env.store, Run(env, inputs).log)) == Run(env, inputs).peers
  {
    TrustHolds(env, inputs);
    ReplayIsShown(env, Run(env, inputs).log);
  }

  predicate Writes(e: Entry, id: DeviceId) {
    e.action.Persist? && e.action.who == id && e.action.value.Some?
  }

  function Mark(e: Entry): nat
    requires e.action.Persist? && e.action.value.Some?
  {
    e.action.value.value.greatestSeen
  }

  /** A re-pairing, which starts the watermark over, or a revocation. */
  predicate Resets(e: Entry, id: DeviceId) {
    e.action.Persist? && e.action.who == id && (e.action.value.None? || e.action.value.value.greatestSeen == 0)
  }

  /** Whatever was written for a peer is a floor until the next reset. */
  lemma {:induction false} MarkIsFloor(env: Env, log: seq<Entry>, id: DeviceId, i: nat)
    requires i < |log| && Writes(log[i], id)
    requires forall k :: i < k < |log| ==> !Resets(log[k], id)
    requires Observe(env, log).trust.rising
    ensures id in Observe(env, log).trust.disk
    ensures Mark(log[i]) <= Observe(env, log).trust.disk[id].greatestSeen
  {
    var n := |log| - 1;
    if i < n {
      assert log[..n][i] == log[i];
      MarkIsFloor(env, log[..n], id, i);
      assert !Resets(log[n], id);
    }
  }

  lemma {:induction false} RisingEarlier(env: Env, log: seq<Entry>, n: nat)
    requires n <= |log| && Observe(env, log).trust.rising
    ensures Observe(env, log[..n]).trust.rising
  {
    if n < |log| {
      RisingEarlier(env, log[..|log| - 1], n);
      assert log[..|log| - 1][..n] == log[..n];
    } else {
      assert log[..n] == log;
    }
  }

  /** The watermarks of a log rise between `i` and `j`. */
  predicate Risen(log: seq<Entry>, id: DeviceId, i: nat, j: nat)
    requires i < j < |log|
  {
    Writes(log[i], id) && Writes(log[j], id) && (forall k :: i < k <= j ==> !Resets(log[k], id)) ==>
      Mark(log[i]) < Mark(log[j]) <= log[j].now.wall + MAX_SKEW_MS
  }

  lemma RisingIsRisen(env: Env, log: seq<Entry>, id: DeviceId, i: nat, j: nat)
    requires i < j < |log| && Observe(env, log).trust.rising
    ensures Risen(log, id, i, j)
  {
    if Writes(log[i], id) && Writes(log[j], id) && forall k :: i < k <= j ==> !Resets(log[k], id) {
      var before := log[..j];
      var upto := log[..j + 1];
      RisingEarlier(env, log, j + 1);
      RisingEarlier(env, log, j);
      assert before[i] == log[i];
      MarkIsFloor(env, before, id, i);
      assert upto[..j] == before && upto[j] == log[j];
      assert !Resets(log[j], id);
    }
  }

  /** Between a peer's pairing and its next re-pairing or revocation, accepted
      timestamps strictly increase, restarts included, and none ran more than
      the permitted skew ahead of the wall clock that judged it. */
  lemma WatermarksRise(env: Env, inputs: seq<Input>, id: DeviceId, i: nat, j: nat)
    requires Honest(env.store)
    requires i < j < |Run(env, inputs).log|
    ensures Risen(Run(env, inputs).log, id, i, j)
  {
    TrustHolds(env, inputs);
    RisingIsRisen(env, Run(env, inputs).log, id, i, j);
  }

  /** A payload is accepted exactly when it decodes, its sender is known and it
      is fresh; accepting writes its timestamp, and the same payload is refused
      from then on. */
  lemma AcceptedOnce(s: State, peer: DeviceId, hello: Option<Hello>)
    requires Trusted(s)
    ensures var r := AcceptHello(s, peer, hello);
      && (r.1 <==> hello.Some? && peer in s.peers
                   && CheckFreshness(hello.value.ts, s.now.wall, s.peers[peer].greatestSeen))
      && (r.1 ==> r.0.log == s.log + [r.0.log[|s.log|]] && Writes(r.0.log[|s.log|], peer)
                  && Mark(r.0.log[|s.log|]) == hello.value.ts)
      && (r.1 ==> !AcceptHello(r.0, peer, hello).1)
  {
    if hello.None? {
    } else if peer !in s.peers {
    } else if !CheckFreshness(hello.value.ts, s.now.wall, s.peers[peer].greatestSeen) {
    } else {
      var r := AcceptHello(s, peer, hello).0;
      assert r.peers[peer].greatestSeen == hello.value.ts;
    }
  }

  /** What the host restored is a floor until the first reset. */
  lemma {:induction false} RestoredIsFloor(env: Env, log: seq<Entry>, id: DeviceId)
    requires id in env.store && Observe(env, log).trust.rising
    requires forall k :: 0 <= k < |log| ==> !Resets(log[k], id)
    ensures id in Observe(env, log).trust.disk
    ensures env.store[id].greatestSeen <= Observe(env, log).trust.disk[id].greatestSeen
  {
    if log != [] {
      RestoredIsFloor(env, log[..|log| - 1], id);
      assert !Resets(log[|log| - 1], id);
    }
  }

  /** Until a re-pairing or a revocation, what is accepted lies above what the
      host restored. */
  lemma LogPassesRestored(env: Env, log: seq<Entry>, id: DeviceId, j: nat)
    requires id in env.store && Observe(env, log).trust.rising
    requires j < |log| && Writes(log[j], id) && forall k :: 0 <= k <= j ==> !Resets(log[k], id)
    ensures env.store[id].greatestSeen < Mark(log[j])
  {
    var upto := log[..j + 1];
    RisingEarlier(env, log, j + 1);
    RisingEarlier(env, log, j);
    RestoredIsFloor(env, log[..j], id);
    assert upto[..j] == log[..j] && upto[j] == log[j];
    assert !Resets(log[j], id);
  }

  lemma RestoredIsPassed(env: Env, inputs: seq<Input>, id: DeviceId, j: nat)
    requires Honest(env.store) && id in env.store
    requires var log := Run(env, inputs).log;
      j < |log| && Writes(log[j], id) && forall k :: 0 <= k <= j ==> !Resets(log[k], id)
    ensures env.store[id].greatestSeen < Mark(Run(env, inputs).log[j])
  {
    TrustHolds(env, inputs);
    LogPassesRestored(env, Run(env, inputs).log, id, j);
  }

  /** The log holds a watermark no lower than `ts` that nothing has reset. */
  predicate Marked(log: seq<Entry>, id: DeviceId, ts: nat, i: nat) {
    i < |log| && Writes(log[i], id) && ts <= Mark(log[i]) && forall k :: i < k < |log| ==> !Resets(log[k], id)
  }

  /** So does the log, or the store it began with. */
  predicate Passed(store: map<DeviceId, PeerRecord>, log: seq<Entry>, id: DeviceId, ts: nat) {
    || (id in store && ts <= store[id].greatestSeen && forall k :: 0 <= k < |log| ==> !Resets(log[k], id))
    || exists i :: 0 <= i < |log| && Marked(log, id, ts, i)
  }

  /** In every reachable state, restarts included and the restored store counted:
      a payload no newer than a watermark that nothing has reset is refused,
      whatever the clocks say. So none is accepted twice between resets. */
  lemma RefusedEverAfter(env: Env, inputs: seq<Input>, now: Now, peer: DeviceId, hello: Hello)
    requires Honest(env.store) && Passed(env.store, Run(env, inputs).log, peer, hello.ts)
    ensures !AcceptHello(Run(env, inputs).(now := now), peer, Some(hello)).1
  {
    TrustHolds(env, inputs);
    var s := Run(env, inputs);
    if i :| 0 <= i < |s.log| && Marked(s.log, peer, hello.ts, i) {
      MarkIsFloor(env, s.log, peer, i);
    } else {
      RestoredIsFloor(env, s.log, peer);
    }
    if peer in s.peers { assert peer in Filed(Shown(s).trust.disk); }
  }
}

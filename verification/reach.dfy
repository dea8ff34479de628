/** Who is said to be reachable, and who is. */
module Reach {
  import opened Wrappers
  import opened Orders
  import opened Vocab
  import opened History
  import opened Protocol
  import opened Runs
  import opened TrustTable

  /** Every session is with somebody paired. */
  predicate Known(s: State) {
    forall l :: l in s.links && s.links[l].Up? ==> s.links[l].peer in s.peers
  }

  /** A link whose pairing waits for a person carries no session. */
  predicate Parked(s: State) {
    Awaits(s.pairing).Some? && Awaits(s.pairing).value.link in s.links ==>
      s.links[Awaits(s.pairing).value.link].Pending?
  }

  ghost predicate Mirrored(s: State) {
    Mirrors(s.links, Shown(s).reach)
  }

  ghost predicate SameOnline(a: map<LinkId, Link>, b: map<LinkId, Link>) {
    forall p :: Online(a, p) <==> Online(b, p)
  }

  /** No session came or went and nothing untrue was announced. */
  lemma QuietKeepsMirror(s: State, r: State)
    requires SameOnline(s.links, r.links) && Truthful(s.links, Shown(s), Shown(r))
    ensures KeepsMirror(s, r)
  {
  }

  lemma SameOnlineAfterDrop(links: map<LinkId, Link>, l: LinkId)
    requires l in links ==> !links[l].Up?
    ensures SameOnline(links, links - {l})
  {
    OnlineAfterDrop(links, l);
  }

  lemma SameOnlineAfterPut(links: map<LinkId, Link>, l: LinkId, k: Link)
    requires l in links ==> !links[l].Up?
    requires !k.Up?
    ensures SameOnline(links, links[l := k])
  {
    OnlineAfterDrop(links, l);
    OnlineAfterPut(links, l, k);
  }

  lemma SameOnlineAlike(a: map<LinkId, Link>, b: map<LinkId, Link>)
    requires Alike(a, b)
    ensures SameOnline(a, b)
  {
    forall p ensures Online(a, p) <==> Online(b, p) {
      if Online(a, p) { var l :| l in a && UpTo(a, l, p); assert UpTo(b, l, p); }
      if Online(b, p) { var l :| l in b && UpTo(b, l, p); assert UpTo(a, l, p); }
    }
  }

  lemma WalkKeepsMirror(s: State, r: State)
    requires Walk(s, r)
    ensures KeepsMirror(s, r)
    ensures Known(s) ==> Known(r)
    ensures Parked(s) ==> Parked(r)
  {
    SameOnlineAlike(s.links, r.links);
  }

  /** The opener would be accepted and become a session. */
  predicate Opens(s: State, attrs: LinkAttrs, body: Body) {
    && body.opener.Some? && body.opener.value in s.peers && s.peers[body.opener.value].psk.Some?
    && body.read && body.hello.Some? && body.write && SupportsStatefulCipher(attrs)
    && CheckFreshness(body.hello.value.ts, s.now.wall, s.peers[body.opener.value].greatestSeen)
  }

  lemma HelloFrame(s: State, peer: DeviceId, hello: Option<Hello>)
    ensures var r := AcceptHello(s, peer, hello);
      r.0 == s.(peers := r.0.peers, log := r.0.log) && r.0.peers.Keys == s.peers.Keys
      && Shown(r.0).reach == Shown(s).reach
      && (r.1 <==> hello.Some? && peer in s.peers && CheckFreshness(hello.value.ts, s.now.wall, s.peers[peer].greatestSeen))
  {
    HelloKeepsTrust(s, peer, hello);
    if hello.None? {
    } else if peer !in s.peers {
    } else if !CheckFreshness(hello.value.ts, s.now.wall, s.peers[peer].greatestSeen) {
    } else {
    }
  }

  /** What is left of the state keeps its mirror when `m` does. */
  lemma SameMirror(s: State, m: State, r: State)
    requires m.links == s.links && Shown(m).reach == Shown(s).reach && KeepsMirror(m, r)
    ensures KeepsMirror(s, r)
  {
  }

  lemma NewSessionKnown(s: State, r: State, link: LinkId, up: Link)
    requires r.links == s.links[link := up] && up.Up? && up.peer in s.peers && r.peers.Keys == s.peers.Keys
    ensures Known(s) ==> Known(r)
  {
  }

  /** Nothing about links changed between `s` and `m`, and `r` is `m` with at
      most the session on `link` added. */
  lemma FinishMirrors(s: State, m: State, link: LinkId, hash: nat, attrs: LinkAttrs, peer: DeviceId)
    requires link !in s.links && m.links == s.links && m.peers.Keys == s.peers.Keys && m.pairing == s.pairing
    requires Shown(m).reach == Shown(s).reach
    ensures var r := FinishSession(m, link, hash, attrs, peer);
      && KeepsMirror(s, r) && (Known(s) ==> Known(r)) && r.pairing == s.pairing
      && r.links - {link} == s.links
      && (link in r.links <==> SupportsStatefulCipher(attrs) && peer in s.peers)
      && (link in r.links ==> r.links[link].Up?)
  {
    FinishLinks(m, link, hash, attrs, peer);
    SameMirror(s, m, FinishSession(m, link, hash, attrs, peer));
    if Known(s) { assert Known(m); }
  }

  lemma FinishLinks(m: State, link: LinkId, hash: nat, attrs: LinkAttrs, peer: DeviceId)
    requires link !in m.links
    ensures var r := FinishSession(m, link, hash, attrs, peer);
      && r.links - {link} == m.links
      && (link in r.links <==> SupportsStatefulCipher(attrs) && peer in m.peers)
      && (link in r.links ==> r.links[link].Up?)
    ensures Known(m) ==> Known(FinishSession(m, link, hash, attrs, peer))
  {
    assert m.links - {link} == m.links;
    if !SupportsStatefulCipher(attrs) || peer !in m.peers {
    } else {
      PutThenDrop(m.links, link, SessionLink(m, hash, attrs, peer, m.peers[peer]));
      NewSessionKnown(m, FinishSession(m, link, hash, attrs, peer), link, SessionLink(m, hash, attrs, peer, m.peers[peer]));
    }
  }

  lemma PutThenDrop(links: map<LinkId, Link>, link: LinkId, k: Link)
    requires link !in links
    ensures links[link := k] - {link} == links
  {
  }

  lemma FailMirrors(s: State, m: State, link: LinkId)
    requires link !in s.links && m.links == s.links && m.peers.Keys == s.peers.Keys && m.pairing == s.pairing
    requires Shown(m).reach == Shown(s).reach
    ensures var r := FailLink(m, link);
      KeepsMirror(s, r) && (Known(s) ==> Known(r)) && r.pairing == s.pairing && r.links == s.links
  {
    assert s.links - {link} == s.links;
  }

  lemma SessionOpenerMirrors(s: State, link: LinkId, attrs: LinkAttrs, body: Body)
    requires link !in s.links
    ensures var r := OnSessionOpener(s, link, attrs, body);
      && KeepsMirror(s, r) && (Known(s) ==> Known(r)) && r.pairing == s.pairing
      && r.links - {link} == s.links
      && (link in r.links <==> Opens(s, attrs, body))
      && (link in r.links ==> r.links[link].Up?)
  {
    assert s.links - {link} == s.links;
    if body.opener.None? || body.opener.value !in s.peers
       || s.peers[body.opener.value].psk.None? || !body.read {
      FailMirrors(s, s, link);
    } else {
      var r := AcceptHello(s, body.opener.value, body.hello);
      HelloFrame(s, body.opener.value, body.hello);
      if !r.1 || !body.write {
        FailMirrors(s, r.0, link);
      } else {
        var sent := Greet(r.0, link);
        FinishMirrors(s, sent, link, body.hash, attrs, body.opener.value);
      }
    }
  }

  predicate NotParkedOn(s: State, link: LinkId) {
    Awaits(s.pairing).Some? ==> Awaits(s.pairing).value.link != link
  }

  lemma PairOpenerMirrors(s: State, link: LinkId, attrs: LinkAttrs, deadline: nat, body: Body)
    requires link !in s.links
    ensures var r := OnPairOpener(s, link, attrs, deadline, body);
      KeepsMirror(s, r) && (Known(s) ==> Known(r)) && (Parked(s) ==> Parked(r))
  {
    var r := OnPairOpener(s, link, attrs, deadline, body);
    OnlineAfterDrop(r.links, link);
    assert SameOnline(s.links, r.links);
    if WhyNotPair(s).Some? {
      assert s.links - {link} == s.links;
    } else if !body.read {
    } else if !body.write {
    } else {
    }
  }

  /** A link that starts to wait for a person. */
  lemma AskMirrors(s: State, link: LinkId, parked: Link, id: DeviceId, a: Awaiting)
    requires link !in s.links && parked.Pending? && a.link == link
    ensures var r := Ask(s.(links := s.links[link := parked]), id, a);
      KeepsMirror(s, r) && (Known(s) ==> Known(r)) && Parked(r)
  {
    assert s.links - {link} == s.links;
    SameOnlineAfterPut(s.links, link, parked);
  }

  /** A pairing that ends without a question leaves the links as they were. */
  lemma DroppedMirrors(s: State, r: State)
    requires r.links == s.links && r.peers == s.peers && Shown(r).reach == Shown(s).reach
    requires r.pairing.None? || r.pairing == s.pairing
    ensures KeepsMirror(s, r) && (Known(s) ==> Known(r)) && (Parked(s) ==> Parked(r))
  {
  }

  lemma PairingCompletedMirrors(s: State, link: LinkId, k: Link, body: Body)
    requires k.Handshaking? && link !in s.links && NotParkedOn(s, link)
    ensures var r := PairingCompleted(s, link, k, body);
      KeepsMirror(s, r) && (Known(s) ==> Known(r)) && (Parked(s) ==> Parked(r))
  {
    assert s.links - {link} == s.links;
    var parked := Pending(k.attrs, k.deadline);
    assert s.links[link := parked] - {link} == s.links;
    if body.key.None? {
      DroppedMirrors(s, FailLink(s, link));
    } else if body.hello.None? {
      DroppedMirrors(s, PairingAttemptFailed(s, link));
    } else if s.pairing.None? || s.pairing.value.awaiting.Some? {
      DroppedMirrors(s, FailLink(s.(links := s.links[link := parked]), link));
    } else {
      var record := NewRecord(body.key.value, body.hello.value, body.hash);
      AskMirrors(s, link, parked, body.key.value, Awaiting(link, record, Sas(body.hash), k.via));
    }
  }

  lemma AfterReadMirrors(s: State, link: LinkId, k: Link, hs: Handshake, body: Body)
    requires k.Handshaking? && link !in s.links && NotParkedOn(s, link)
    ensures var r := AfterRead(s, link, k, hs, body);
      KeepsMirror(s, r) && (Known(s) ==> Known(r)) && (Parked(s) ==> Parked(r))
  {
    if !Complete(hs) {
      SameOnlineAfterPut(s.links, link, k.(hs := hs));
    } else if IsPairing(k) {
      PairingCompletedMirrors(s, link, k, body);
    } else if k.aim.None? {
      FailMirrors(s, s, link);
    } else {
      var r := AcceptHello(s, k.aim.value, body.hello);
      HelloFrame(s, k.aim.value, body.hello);
      if !r.1 {
        FailMirrors(s, r.0, link);
      } else {
        FinishMirrors(s, r.0, link, body.hash, k.attrs, k.aim.value);
      }
    }
  }

  lemma HandshakeFrameMirrors(s: State, link: LinkId, k: Link, kind: FrameKind, body: Body)
    requires k.Handshaking? && link !in s.links && NotParkedOn(s, link)
    ensures var r := OnHandshakeFrame(s, link, k, kind, body);
      KeepsMirror(s, r) && (Known(s) ==> Known(r)) && (Parked(s) ==> Parked(r))
  {
    assert s.links - {link} == s.links;
    if kind != (if IsPairing(k) then PairHandshake else SessionHandshake) {
      FailMirrors(s, s, link);
    } else if !body.read {
      if IsPairing(k) {} else { FailMirrors(s, s, link); }
    } else {
      var hs := Advance(k.hs);
      if IsPairing(k) && MyTurn(hs) {
        if body.write {
          var sent := GreetPair(s, link);
          AfterReadMirrors(sent, link, k, Advance(hs), body);
        } else {
          FailMirrors(s, s, link);
        }
      } else {
        AfterReadMirrors(s, link, k, hs, body);
      }
    }
  }

  /** A frame nobody can read, on the only session with its peer. */
  predicate SilentLoss(s: State, ev: Event) {
    && ev.LinkRecv? && ev.frame.Malformed?
    && ev.link in s.links && s.links[ev.link].Up?
    && !Online(s.links - {ev.link}, s.links[ev.link].peer)
  }

  /** A session opener that is accepted on the very link whose pairing waits
      for a person. */
  predicate OpensOnParked(s: State, ev: Event) {
    && Awaits(s.pairing).Some?
    && ev.LinkRecv? && ev.link == Awaits(s.pairing).value.link && ev.link in s.links
    && s.links[ev.link].Pending?
    && ev.frame.Frame? && ev.frame.kind == SessionHandshake
    && Opens(s, s.links[ev.link].attrs, ev.frame.body)
  }

  lemma MalformedMirrors(s: State, link: LinkId)
    requires Mirrored(s)
    ensures Mirrored(FailLink(s, link)) <==> !SilentLoss(s, LinkRecv(link, Malformed))
  {
    OnlineAfterDrop(s.links, link);
    var r := FailLink(s, link);
    if SilentLoss(s, LinkRecv(link, Malformed)) {
      var p := s.links[link].peer;
      assert p in Shown(r).reach by { assert UpTo(s.links, link, p); }
      assert !Online(r.links, p);
    } else if link in s.links && s.links[link].Up? {
      forall p ensures p in Shown(r).reach <==> Online(r.links, p) {}
    } else {
      SameOnlineAfterDrop(s.links, link);
    }
  }

  lemma TransportMirrors(s: State, link: LinkId, kind: FrameKind, body: Body)
    requires link in s.links && s.links[link].Up?
    ensures var r := OnTransportFrame(s, link, kind, body);
      KeepsMirror(s, r) && (Known(s) ==> Known(r)) && (Parked(s) ==> Parked(r))
  {
    if !kind.Transport? || body.plain.None? {
    } else {
      var u := s.links[link];
      var heard := s.(links := s.links[link := u.(lastRecv := s.now.mono)]);
      OnlineAfterDrop(s.links, link);
      OnlineAfterPut(s.links, link, u.(lastRecv := s.now.mono));
      assert SameOnline(s.links, heard.links);
      QuietKeepsMirror(heard, OnPlain(heard, u.peer, u.canRecv, body.plain.value));
    }
  }

  /** The opener leaves every other link alone, so only one on the parked link
      itself can unpark it. */
  lemma OpenerParks(s: State, link: LinkId, r: State, opens: bool)
    requires Parked(s) && link in s.links && s.links[link].Pending?
    requires r.pairing == s.pairing && r.links - {link} == s.links - {link}
    requires link in r.links <==> opens
    requires link in r.links ==> r.links[link].Up?
    ensures Parked(r) <==> !(opens && Awaits(s.pairing).Some? && Awaits(s.pairing).value.link == link)
  {
    if Awaits(s.pairing).Some? && Awaits(s.pairing).value.link != link {
      var l := Awaits(s.pairing).value.link;
      assert l in r.links <==> l in r.links - {link};
      assert l in r.links - {link} ==> r.links[l] == (r.links - {link})[l];
    }
  }

  lemma PendingOpenerMirrors(s: State, link: LinkId, body: Body)
    requires Known(s) && Parked(s) && link in s.links && s.links[link].Pending?
    ensures var r := OnSessionOpener(s.(links := s.links - {link}), link, s.links[link].attrs, body);
      KeepsMirror(s, r) && Known(r)
      && (Parked(r) <==> !(Opens(s, s.links[link].attrs, body)
                           && Awaits(s.pairing).Some? && Awaits(s.pairing).value.link == link))
  {
    var out := s.(links := s.links - {link});
    SameOnlineAfterDrop(s.links, link);
    SessionOpenerMirrors(out, link, s.links[link].attrs, body);
    OpenerParks(s, link, OnSessionOpener(out, link, s.links[link].attrs, body), Opens(out, s.links[link].attrs, body));
  }

  lemma PendingRecvMirrors(s: State, link: LinkId, frame: Frame)
    requires Known(s) && Parked(s)
    requires frame.Frame? && link in s.links && s.links[link].Pending?
    ensures var r := OnLinkRecv(s, link, frame);
      KeepsMirror(s, r) && Known(r) && (Parked(r) <==> !OpensOnParked(s, LinkRecv(link, frame)))
  {
    var k := s.links[link];
    var out := s.(links := s.links - {link});
    SameOnlineAfterDrop(s.links, link);
    match frame.kind
    case PairHandshake => PairOpenerMirrors(out, link, k.attrs, k.deadline, frame.body);
    case SessionHandshake => PendingOpenerMirrors(s, link, frame.body);
    case Transport => FailMirrors(out, out, link);
  }

  lemma RecvMirrors(s: State, link: LinkId, frame: Frame)
    requires Known(s) && Parked(s)
    ensures var r := OnLinkRecv(s, link, frame);
      Known(r) && (Parked(r) <==> !OpensOnParked(s, LinkRecv(link, frame)))
      && (Mirrored(s) ==> (Mirrored(r) <==> !SilentLoss(s, LinkRecv(link, frame))))
  {
    if frame.Malformed? {
      if Mirrored(s) { MalformedMirrors(s, link); }
    } else if link !in s.links {
      assert s.links - {link} == s.links;
    } else if s.links[link].Up? {
      TransportMirrors(s, link, frame.kind, frame.body);
    } else if s.links[link].Handshaking? {
      var out := s.(links := s.links - {link});
      SameOnlineAfterDrop(s.links, link);
      HandshakeFrameMirrors(out, link, s.links[link], frame.kind, frame.body);
    } else {
      PendingRecvMirrors(s, link, frame);
    }
  }

  /** Taking out the parked link loses no session. */
  lemma UnparkMirrors(s: State)
    requires Parked(s) && Awaits(s.pairing).Some?
    ensures SameOnline(s.links, s.links - {Awaits(s.pairing).value.link})
  {
    SameOnlineAfterDrop(s.links, Awaits(s.pairing).value.link);
  }

  lemma ConfirmMirrors(s: State, accept: bool)
    requires Known(s) && Parked(s)
    ensures var r := OnConfirm(s, accept); KeepsMirror(s, r) && Known(r) && Parked(r)
  {
    if Awaits(s.pairing).None? {
    } else {
      UnparkMirrors(s);
      if !accept {
      } else if Awaits(s.pairing).value.record.key.None? {
      } else {
      }
    }
  }

  lemma TickMirrors(s: State)
    requires Known(s) && Parked(s)
    ensures var r := OnTick(s); KeepsMirror(s, r) && Known(r) && Parked(r)
  {
    var s1 := TickPairing(s);
    if Lapses(s) && Awaits(s.pairing).Some? { UnparkMirrors(s); }
    assert KeepsMirror(s, s1);
    var s2 := TickBulk(s1);
    QuietKeepsMirror(s1, s2);
    var s3 := TickLinks(s2);
    assert KeepsMirror(s2, s3);
    var s4 := TickDials(s3);
    WalkKeepsMirror(s3, s4);
    var s5 := TickReconnect(s4);
    WalkKeepsMirror(s4.(reconnectAt := s5.reconnectAt), s5);
    QuietKeepsMirror(s5, TickWake(s5));
  }

  lemma LocalMirrors(s: State, cmd: Command)
    requires Known(s) && Parked(s)
    ensures var r := OnLocal(s, cmd); KeepsMirror(s, r) && Known(r) && Parked(r)
  {
    match cmd
    case RequestPairing(r) => if WhyNotPair(s).Some? {} else {}
    case ConfirmPairing(accept) => ConfirmMirrors(s, accept);
    case SetPeerAddress(peer, r) => if peer in s.peers {} else {}
    case Connect(peer) => WalkKeepsMirror(s, ConnectPeer(s, peer, true));
    case ReconsiderRoutes => WalkKeepsMirror(s, ConnectEach(s, Ascending(s.peers.Keys)));
    case Disconnect(peer) =>
    case Revoke(peer) =>
    case PluginCommand(peer, cap, ty, body) => QuietKeepsMirror(s, OnPluginCommand(s, peer, cap, ty, body));
  }

  /** The host never reuses the id of a link that is in use, or of the one a
      person is asked about. */
  predicate Fresh(s: State, ev: Event) {
    ev.LinkUp? ==> ev.link !in s.links && NotParkedOn(s, ev.link)
  }

  lemma LinkUpMirrors(s: State, link: LinkId, attrs: LinkAttrs, answers: Option<DialToken>, speaks: bool)
    requires Known(s) && Parked(s) && link !in s.links && NotParkedOn(s, link)
    ensures var r := OnLinkUp(s, link, attrs, answers, speaks); KeepsMirror(s, r) && Known(r) && Parked(r)
  {
    var r := OnLinkUp(s, link, attrs, answers, speaks);
    assert s.links - {link} == s.links;
    if link in r.links { SameOnlineAfterPut(s.links, link, r.links[link]); }
  }

  lemma DialFailedMirrors(s: State, d: DialToken, reason: string)
    requires Known(s) && Parked(s)
    ensures var r := OnDialFailed(s, d, reason); KeepsMirror(s, r) && Known(r) && Parked(r)
  {
    if d in s.dials.pair {
    } else if d in s.dials.peer {
      var out := s.(dials := s.dials.(peer := s.dials.peer - {d}));
      WalkKeepsMirror(out, OnDialFailed(s, d, reason));
    } else {}
  }

  lemma CallMirrors(s: State, r: State)
    requires Known(s) && Parked(s) && Calm(s, r)
    ensures KeepsMirror(s, r) && Known(r) && Parked(r)
  {
    QuietKeepsMirror(s, r);
  }

  lemma SightMirrors(s: State, ev: Event)
    requires Known(s) && Parked(s) && (ev.Discovered? || ev.Undiscovered?)
    ensures var r := React(s, ev); KeepsMirror(s, r) && Known(r) && Parked(r)
  {
    WalkKeepsMirror(s.(atlas := React(s, ev).atlas), React(s, ev));
  }

  lemma ReactMirrors(s: State, ev: Event)
    requires Known(s) && Parked(s) && Fresh(s, ev) && !ev.LinkRecv?
    ensures var r := React(s, ev); KeepsMirror(s, r) && Known(r) && Parked(r)
  {
    if ev.LinkUp? {
      LinkUpMirrors(s, ev.link, ev.attrs, ev.answers, ev.speaks);
    } else if ev.LinkDown? {
    } else if ev.DialFailed? {
      DialFailedMirrors(s, ev.dial, ev.reason);
    } else if ev.Discovered? || ev.Undiscovered? {
      SightMirrors(s, ev);
    } else if ev.Tick? {
      TickMirrors(s);
    } else if ev.Local? {
      LocalMirrors(s, ev.cmd);
    } else if ev.BulkStarted? {
    } else {
      CallMirrors(s, React(s, ev));
    }
  }

  // ------------------------------------------------------------- the theorems

  /** One call: every session stays with somebody paired; the announced set
      stays exact if and only if no unreadable frame takes down the only
      session with a peer; and the parked link stays parked if and only if no
      session opener is accepted on it. */
  lemma MirrorStep(s: State, now: Now, ev: Event)
    requires Known(s) && Parked(s) && Mirrored(s) && Fresh(s, ev)
    ensures Known(Handle(s, now, ev))
    ensures Mirrored(Handle(s, now, ev)) <==> !SilentLoss(s, ev)
    ensures Parked(Handle(s, now, ev)) <==> !OpensOnParked(s.(now := now), ev)
  {
    var s0 := s.(now := now);
    assert Mirrored(s0);
    if ev.LinkRecv? { RecvMirrors(s0, ev.link, ev.frame); } else { ReactMirrors(s0, ev); }
  }

  /** The first exception is real: when the only session with a peer gets a frame
      that does not split, the session is gone and the peer still announced. */
  lemma SilentLossHappens(s: State, now: Now, link: LinkId, peer: DeviceId)
    requires Mirrored(s) && UpTo(s.links, link, peer)
    requires forall l :: l in s.links && UpTo(s.links, l, peer) ==> l == link
    ensures var r := Handle(s, now, LinkRecv(link, Malformed));
      peer in Shown(r).reach && !Online(r.links, peer)
  {
    OnlineAfterDrop(s.links, link);
  }

  /** So is the second: a person still asked about a link that carries a session. */
  lemma ParkedOpensHappens(s: State, now: Now, ev: Event)
    requires Known(s) && Parked(s) && OpensOnParked(s.(now := now), ev)
    ensures var r := Handle(s, now, ev);
      Awaits(r.pairing) == Awaits(s.pairing) && UpTo(r.links, ev.link, ev.frame.body.opener.value)
  {
    var s0 := s.(now := now);
    var out := s0.(links := s0.links - {ev.link});
    var k := s0.links[ev.link];
    SessionOpenerMirrors(out, ev.link, k.attrs, ev.frame.body);
    OpenedFor(out, ev.link, k.attrs, ev.frame.body);
  }

  lemma FinishOpens(m: State, link: LinkId, hash: nat, attrs: LinkAttrs, peer: DeviceId)
    requires link !in m.links && SupportsStatefulCipher(attrs) && peer in m.peers
    ensures UpTo(FinishSession(m, link, hash, attrs, peer).links, link, peer)
  {
  }

  lemma OpenerFinishes(s: State, link: LinkId, attrs: LinkAttrs, body: Body)
    requires link !in s.links && Opens(s, attrs, body)
    requires AcceptHello(s, body.opener.value, body.hello).1
    ensures OnSessionOpener(s, link, attrs, body)
      == FinishSession(Greet(AcceptHello(s, body.opener.value, body.hello).0, link), link, body.hash, attrs, body.opener.value)
  {
  }

  /** An accepted opener opens a session with the one who sent it. */
  lemma OpenedFor(s: State, link: LinkId, attrs: LinkAttrs, body: Body)
    requires link !in s.links && Opens(s, attrs, body)
    ensures UpTo(OnSessionOpener(s, link, attrs, body).links, link, body.opener.value)
  {
    HelloFrame(s, body.opener.value, body.hello);
    OpenerFinishes(s, link, attrs, body);
    FinishOpens(Greet(AcceptHello(s, body.opener.value, body.hello).0, link), link, body.hash, attrs, body.opener.value);
  }

  /** Every call of a run meets the host's promise and neither exception. */
  predicate Spared(env: Env, inputs: seq<Input>) {
    if inputs == [] then true else
      var front := inputs[..|inputs| - 1];
      var s := Run(env, front);
      Spared(env, front) &&
      match inputs[|inputs| - 1]
      case Call(now, ev) => Fresh(s, ev) && !SilentLoss(s, ev) && !OpensOnParked(s.(now := now), ev)
      case Restart => false
  }

  /** In every reachable state: whoever has a session is paired, and the
      announcements so far name exactly the peers with a session. */
  lemma {:induction false} MirrorHolds(env: Env, inputs: seq<Input>)
    requires Spared(env, inputs)
    ensures var s := Run(env, inputs); Known(s) && Parked(s) && Mirrored(s)
  {
    if inputs != [] {
      var front := inputs[..|inputs| - 1];
      MirrorHolds(env, front);
      var s := Run(env, front);
      match inputs[|inputs| - 1]
      case Call(now, ev) => MirrorStep(s, now, ev);
      case Restart =>
    }
  }
}

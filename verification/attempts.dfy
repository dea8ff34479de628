/** One attempt a person asked for, from its first dial to what they are told. */
module Attempts {
  import opened Wrappers
  import opened Orders
  import opened Vocab
  import opened History
  import opened Protocol
  import opened Runs
  import opened RouteWalk

  /** The routes dialled, in order. */
  function Dialled(log: seq<Entry>): seq<Route> {
    if log == [] then [] else
      var front := Dialled(log[..|log| - 1]);
      if log[|log| - 1].action.Dial? then front + [log[|log| - 1].action.route] else front
  }

  lemma DialledPush(s: State, a: Action)
    ensures Dialled(Push(s, a).log) == if a.Dial? then Dialled(s.log) + [a.route] else Dialled(s.log)
  {
    assert Push(s, a).log[..|s.log|] == s.log;
  }

  /** How one dial comes to nothing: the host cannot make it, or makes a link
      that dies before the peer answers. */
  datatype Setback = Refused(reason: string) | Dropped(link: LinkId, attrs: LinkAttrs)

  function Suffer(s: State, how: Setback): State {
    match how
    case Refused(reason) => Handle(s, s.now, DialFailed(s.dials.last, reason))
    case Dropped(link, attrs) =>
      Handle(Handle(s, s.now, LinkUp(link, attrs, Some(s.dials.last), true)), s.now, LinkDown(link))
  }

  function SufferEach(s: State, hows: seq<Setback>): State {
    if hows == [] then s else Suffer(SufferEach(s, hows[..|hows| - 1]), hows[|hows| - 1])
  }

  /** `peer`, who can take a session, is being dialled, with `left` to go. */
  predicate Trying(s: State, peer: DeviceId, left: seq<Route>, byHand: bool) {
    && !Online(s.links, peer)
    && peer in s.peers && s.peers[peer].key.Some? && s.peers[peer].psk.Some?
    && s.dials.last !in s.dials.pair && s.dials.last in s.dials.peer
    && s.dials.peer[s.dials.last].dial == PeerDial(peer, left, byHand, s.dials.last)
  }

  /** What a setback leads to: the next route, or the end. */
  predicate Onward(s: State, r: State, peer: DeviceId, left: seq<Route>, byHand: bool) {
    && r.links == s.links && r.peers == s.peers
    && r.dials.pair == s.dials.pair && r.dials.last >= s.dials.last
    && if left != [] then
         Trying(r, peer, left[1..], byHand) && Dialled(r.log) == Dialled(s.log) + [left[0]]
       else
         && r.dials.peer == s.dials.peer - {s.dials.last}
         && Dialled(r.log) == Dialled(s.log) && peer in r.atlas.trouble
         && (byHand ==> r.log != [] && r.log[|r.log| - 1].action == Ui(PeerUnreachable(peer)))
  }

  lemma NextOrEnd(s: State, out: State, peer: DeviceId, left: seq<Route>, byHand: bool, why: Why)
    requires Trying(s, peer, left, byHand)
    requires out == s.(dials := out.dials, log := out.log)
    requires out.dials == s.dials.(peer := s.dials.peer - {s.dials.last})
    requires s.dials.last + 1 !in s.dials.pair
    requires Dialled(out.log) == Dialled(s.log)
    ensures Onward(s, TryNextRoute(out, PeerDial(peer, left, byHand, s.dials.last), why), peer, left, byHand)
  {
    if left == [] {
      var end := Blame(out, peer, why);
      if byHand { DialledPush(end, Ui(PeerUnreachable(peer))); }
    } else {
      var d := out.dials.last + 1;
      var timed := TimedDial(out.now.mono + out.env.config.dialTimeout, PeerDial(peer, left[1..], byHand, d));
      DialledPush(out.(dials := out.dials.(last := d, peer := out.dials.peer[d := timed])), Dial(left[0], d, Some(s.dials.last)));
    }
  }

  lemma SameMoment(s: State, ev: Event)
    ensures Handle(s, s.now, ev) == React(s, ev)
  {
    assert s.(now := s.now) == s;
  }

  lemma DialRefused(s: State, d: DialToken, reason: string)
    requires d in s.dials.peer && d !in s.dials.pair
    ensures React(s, DialFailed(d, reason))
      == TryNextRoute(s.(dials := s.dials.(peer := s.dials.peer - {d})), s.dials.peer[d].dial, HostSays(reason))
  {
    assert React(s, DialFailed(d, reason)) == OnDialFailed(s, d, reason);
  }

  lemma RefusalGoesOn(s: State, peer: DeviceId, left: seq<Route>, byHand: bool, reason: string)
    requires Trying(s, peer, left, byHand) && s.dials.last + 1 !in s.dials.pair
    ensures Onward(s, Suffer(s, Refused(reason)), peer, left, byHand)
  {
    var out := s.(dials := s.dials.(peer := s.dials.peer - {s.dials.last}));
    SameMoment(s, DialFailed(s.dials.last, reason));
    DialRefused(s, s.dials.last, reason);
    NextOrEnd(s, out, peer, left, byHand, HostSays(reason));
  }

  /** The opener goes out, and the attempt waits on the link. */
  lemma OpenerSent(s: State, peer: DeviceId, left: seq<Route>, byHand: bool, link: LinkId, attrs: LinkAttrs)
    requires Trying(s, peer, left, byHand) && link !in s.links
    ensures var d := s.dials.last;
      var out := s.(dials := s.dials.(peer := s.dials.peer - {d}));
      var k := Handshaking(Handshake(Session, true, 1), attrs, s.now.mono + s.env.config.handshakeTimeout,
                           Some(peer), None, Some(s.dials.peer[d].dial));
      var sent := Greet(out, link);
      Handle(s, s.now, LinkUp(link, attrs, Some(d), true)) == sent.(links := s.links[link := k])
      && Dialled(sent.log) == Dialled(s.log)
  {
    var out := s.(dials := s.dials.(peer := s.dials.peer - {s.dials.last}));
    DialledPush(out, LinkSend(link, SessionMessage(OurHello(out))));
  }

  /** A dialled link that dies hands its attempt on. */
  lemma HandshakeDropped(s: State, link: LinkId)
    requires link in s.links && s.links[link].Handshaking? && s.links[link].hs.mode == Session
    requires s.links[link].fallback.Some?
    ensures Handle(s, s.now, LinkDown(link))
      == TryNextRoute(s.(links := s.links - {link}), s.links[link].fallback.value, ClosedEarly)
  {
    assert s.(now := s.now) == s;
  }

  lemma DropGoesOn(s: State, peer: DeviceId, left: seq<Route>, byHand: bool, link: LinkId, attrs: LinkAttrs)
    requires Trying(s, peer, left, byHand) && s.dials.last + 1 !in s.dials.pair && link !in s.links
    ensures Onward(s, Suffer(s, Dropped(link, attrs)), peer, left, byHand)
  {
    OpenerSent(s, peer, left, byHand, link, attrs);
    var up := Handle(s, s.now, LinkUp(link, attrs, Some(s.dials.last), true));
    var gone := up.(links := up.links - {link});
    assert gone.links == s.links;
    NextOrEnd(s, gone, peer, left, byHand, ClosedEarly);
    HandshakeDropped(up, link);
  }

  /** Links the host makes do not reuse an id. */
  predicate FreshLinks(s: State, hows: seq<Setback>) {
    forall i :: 0 <= i < |hows| && hows[i].Dropped? ==> hows[i].link !in s.links
  }

  /** What a person sees of a whole attempt: after `n` setbacks. */
  predicate Tried(s: State, r: State, peer: DeviceId, routes: seq<Route>, n: nat)
    requires n <= |routes|
  {
    && r.links == s.links && r.peers == s.peers
    && r.dials.pair == s.dials.pair && r.dials.last >= s.dials.last
    && if n < |routes| then
         Trying(r, peer, routes[n + 1..], true) && Dialled(r.log) == Dialled(s.log) + routes[..n + 1]
       else
         && Dialled(r.log) == Dialled(s.log) + routes && peer in r.atlas.trouble
         && r.log != [] && r.log[|r.log| - 1].action == Ui(PeerUnreachable(peer))
  }

  lemma OneMore(s: State, m: State, r: State, peer: DeviceId, routes: seq<Route>, n: nat)
    requires n < |routes| && Tried(s, m, peer, routes, n) && Onward(m, r, peer, routes[n + 1..], true)
    ensures Tried(s, r, peer, routes, n + 1)
  {
    assert routes == routes[..n + 1] + routes[n + 1..];
    if n + 1 < |routes| {
      assert routes[n + 1..][1..] == routes[n + 2..];
      assert routes[..n + 2] == routes[..n + 1] + [routes[n + 1]];
    }
  }

  lemma ConnectDials(s: State, peer: DeviceId, routes: seq<Route>)
    requires routes == RouteList(KnownRoutes(s, peer)) && routes != [] && PeerStateOf(s, peer).Unreachable?
    ensures Handle(s, s.now, Local(Connect(peer))) == StartDial(s, routes[0], PeerDial(peer, routes[1..], true, 0), None)
  {
    assert s.(now := s.now) == s;
  }

  lemma FirstTry(s: State, peer: DeviceId, routes: seq<Route>)
    requires Numbered(Shown(s).march, s.dials) && routes == RouteList(KnownRoutes(s, peer)) && routes != []
    requires PeerStateOf(s, peer).Unreachable?
    requires peer in s.peers && s.peers[peer].key.Some? && s.peers[peer].psk.Some?
    ensures Tried(s, Handle(s, s.now, Local(Connect(peer))), peer, routes, 0)
  {
    ConnectDials(s, peer, routes);
    var d := s.dials.last + 1;
    var timed := TimedDial(s.now.mono + s.env.config.dialTimeout, PeerDial(peer, routes[1..], true, d));
    DialledPush(s.(dials := s.dials.(last := d, peer := s.dials.peer[d := timed])), Dial(routes[0], d, None));
    assert routes[..1] == [routes[0]];
  }

  lemma NextTry(s: State, m: State, peer: DeviceId, routes: seq<Route>, n: nat, how: Setback)
    requires Numbered(Shown(s).march, s.dials) && n < |routes| && Tried(s, m, peer, routes, n)
    requires how.Dropped? ==> how.link !in s.links
    ensures Tried(s, Suffer(m, how), peer, routes, n + 1)
  {
    if how.Refused? {
      RefusalGoesOn(m, peer, routes[n + 1..], true, how.reason);
    } else {
      DropGoesOn(m, peer, routes[n + 1..], true, how.link, how.attrs);
    }
    OneMore(s, m, Suffer(m, how), peer, routes, n);
  }

  /** A person asks for a peer out of reach, and every way in comes to nothing:
      each known route is dialled exactly once, in ascending order of transport,
      and then the person is told. */
  lemma {:induction false} WholeAttempt(s: State, peer: DeviceId, routes: seq<Route>, hows: seq<Setback>)
    requires Numbered(Shown(s).march, s.dials) && FreshLinks(s, hows)
    requires routes == RouteList(KnownRoutes(s, peer)) && 1 <= |routes| && |hows| <= |routes|
    requires PeerStateOf(s, peer).Unreachable?
    requires peer in s.peers && s.peers[peer].key.Some? && s.peers[peer].psk.Some?
    ensures Ascends(routes)
    ensures Tried(s, SufferEach(Handle(s, s.now, Local(Connect(peer))), hows), peer, routes, |hows|)
  {
    RouteListAscends(KnownRoutes(s, peer));
    var first := Handle(s, s.now, Local(Connect(peer)));
    if hows == [] {
      FirstTry(s, peer, routes);
    } else {
      var (front, how) := (hows[..|hows| - 1], hows[|hows| - 1]);
      WholeAttempt(s, peer, routes, front);
      NextTry(s, SufferEach(first, front), peer, routes, |front|, how);
    }
  }
}

/** Walking the routes to a peer: in order, each at most once, and not for ever. */
module RouteWalk {
  import opened Wrappers
  import opened Orders
  import opened Vocab
  import opened History
  import opened Protocol
  import opened Runs

  // ------------------------------------------------------------------ the measure

  function Total(m: map<nat, nat>): nat {
    if m == map[] then 0 else
      var k := Least(m.Keys);
      m[k] + Total(m - {k})
  }

  lemma {:induction false} TotalDrop(m: map<nat, nat>, k: nat)
    requires k in m
    ensures Total(m) == m[k] + Total(m - {k})
  {
    var first := Least(m.Keys);
    if first != k {
      TotalDrop(m - {first}, k);
      TotalDrop(m - {k}, first) by { assert first in m - {k}; }
      assert m - {first} - {k} == m - {k} - {first};
    }
  }

  lemma TotalPut(m: map<nat, nat>, k: nat, v: nat)
    ensures Total(m[k := v]) == v + Total(m - {k})
  {
    TotalDrop(m[k := v], k);
    assert m[k := v] - {k} == m - {k};
  }

  /** An attempt that waits for a dial: each route left may cost a dial and a
      handshake, and so may the dial in flight. */
  function DialCost(p: TimedDial): nat {
    2 * |p.dial.routes| + 2
  }

  /** An attempt that waits for a handshake. */
  function LinkCost(k: Link): nat {
    if k.Handshaking? && k.fallback.Some? then 2 * |k.fallback.value.routes| + 1 else 0
  }

  function DialCosts(m: map<DialToken, TimedDial>): map<nat, nat> {
    map d | d in m :: DialCost(m[d])
  }

  function LinkCosts(links: map<LinkId, Link>): map<nat, nat> {
    map l | l in links :: LinkCost(links[l])
  }

  /** How much all attempts under way may still try. */
  function Weight(s: State): nat {
    Total(DialCosts(s.dials.peer)) + Total(LinkCosts(s.links))
  }

  lemma DialDropped(m: map<DialToken, TimedDial>, d: DialToken)
    requires d in m
    ensures Total(DialCosts(m)) == DialCost(m[d]) + Total(DialCosts(m - {d}))
  {
    TotalDrop(DialCosts(m), d);
    assert DialCosts(m) - {d} == DialCosts(m - {d});
  }

  lemma DialPut(m: map<DialToken, TimedDial>, d: DialToken, p: TimedDial)
    ensures Total(DialCosts(m[d := p])) <= DialCost(p) + Total(DialCosts(m))
  {
    TotalPut(DialCosts(m), d, DialCost(p));
    assert DialCosts(m[d := p]) == DialCosts(m)[d := DialCost(p)];
    if d in m { TotalDrop(DialCosts(m), d); } else { assert DialCosts(m) - {d} == DialCosts(m); }
  }

  function CostAt(links: map<LinkId, Link>, l: LinkId): nat {
    if l in links then LinkCost(links[l]) else 0
  }

  /** The rest of the table is the same. */
  predicate OnlyAt(a: map<LinkId, Link>, b: map<LinkId, Link>, l: LinkId) {
    a - {l} == b - {l}
  }

  lemma OneLink(a: map<LinkId, Link>, b: map<LinkId, Link>, l: LinkId)
    requires OnlyAt(a, b, l)
    ensures Total(LinkCosts(a)) - CostAt(a, l) == Total(LinkCosts(b)) - CostAt(b, l)
  {
    OffOne(a, l);
    OffOne(b, l);
  }

  lemma OffOne(a: map<LinkId, Link>, l: LinkId)
    ensures Total(LinkCosts(a)) == CostAt(a, l) + Total(LinkCosts(a - {l}))
  {
    if l in a {
      TotalDrop(LinkCosts(a), l);
      assert LinkCosts(a) - {l} == LinkCosts(a - {l});
    } else {
      assert a - {l} == a;
    }
  }

  // ---------------------------------------------------------------- the invariant

  predicate Ascends(routes: seq<Route>) {
    forall i, j :: 0 <= i < j < |routes| ==> routes[i].transport < routes[j].transport
  }

  /** Tokens were given out in order, dials carried on in order, and no two
      tables hold the same token. */
  predicate Numbered(m: March, dials: Dials) {
    && m.numbered && m.ordered && m.last == dials.last
    && (forall t :: t in m.dialled ==> t <= m.last) && (forall t :: t in m.continued ==> t <= m.last)
    && (forall d :: d in dials.pair ==> d <= dials.last && d !in dials.peer)
    && (forall d :: d in dials.peer ==> d <= dials.last)
  }

  /** The attempt's last dial is not carried on yet, and every route left is on a
      later transport than it. */
  predicate OnTrack(m: March, p: PeerDial) {
    && p.latest in m.dialled && p.latest !in m.continued && Ascends(p.routes)
    && forall i :: 0 <= i < |p.routes| ==> m.dialled[p.latest] < p.routes[i].transport
  }

  /** The link belongs to an attempt. */
  predicate Waits(k: Link) {
    k.Handshaking? && k.fallback.Some?
  }

  /** It waits for the answer to our one opener. */
  predicate Lined(k: Link) {
    Waits(k) ==> k.hs == Handshake(Session, true, 1)
  }

  /** No attempt waits for this dial or for a link it made. */
  predicate Detached(dials: Dials, links: map<LinkId, Link>, d: DialToken) {
    d !in dials.peer && forall l :: l in links && Waits(links[l]) ==> links[l].fallback.value.latest != d
  }

  predicate DialsOnTrack(m: March, dials: Dials) {
    forall d :: d in dials.peer ==> dials.peer[d].dial.latest == d && OnTrack(m, dials.peer[d].dial)
  }

  predicate LinksOnTrack(m: March, dials: Dials, links: map<LinkId, Link>) {
    forall l :: l in links && Waits(links[l]) ==>
      && Lined(links[l]) && OnTrack(m, links[l].fallback.value)
      && links[l].fallback.value.latest !in dials.peer
      && Detached(dials, links - {l}, links[l].fallback.value.latest)
  }

  /** Every attempt under way is on track, and no two carry on the same dial. */
  predicate InMarch(m: March, dials: Dials, links: map<LinkId, Link>) {
    Numbered(m, dials) && DialsOnTrack(m, dials) && LinksOnTrack(m, dials, links)
  }

  ghost predicate Marching(s: State) {
    InMarch(Shown(s).march, s.dials, s.links)
  }

  /** A token that is no longer awaited never is again. */
  ghost predicate Spent(a: Dials, b: Dials) {
    && a.last <= b.last
    && forall d :: d <= a.last && d !in a.pair && d !in a.peer ==> d !in b.pair && d !in b.peer
  }

  /** What every step keeps. */
  ghost predicate Marches(s: State, r: State) {
    Marching(s) ==> Marching(r) && Spent(s.dials, r.dials)
  }

  /** No attempt came to a link. */
  predicate FewerWait(a: map<LinkId, Link>, b: map<LinkId, Link>) {
    forall l :: l in b && Waits(b[l]) ==> l in a && b[l] == a[l]
  }

  lemma FewerInMarch(m: March, dials: Dials, a: map<LinkId, Link>, b: map<LinkId, Link>)
    requires InMarch(m, dials, a) && FewerWait(a, b)
    ensures InMarch(m, dials, b)
  {
    forall l | l in b && Waits(b[l])
      ensures Lined(b[l]) && OnTrack(m, b[l].fallback.value) && Detached(dials, b - {l}, b[l].fallback.value.latest) {
      assert forall k :: k in b - {l} && Waits(b[k]) ==> k in a - {l};
    }
  }

  lemma SameDialsMarch(s: State, r: State)
    requires SameDials(s, r) && FewerWait(s.links, r.links)
    ensures Marches(s, r)
  {
    if Marching(s) { FewerInMarch(Shown(s).march, s.dials, s.links, r.links); }
  }

  // -------------------------------------------------------------------- dialling

  lemma RouteListAscends(r: Routes)
    ensures Ascends(RouteList(r))
  {
    AscendingIncreases(r.Keys);
  }

  /** A list names exactly what is known, one route a transport. */
  lemma RouteListHas(m: Routes, q: Route)
    ensures q in RouteList(m) <==> q.transport in m && m[q.transport] == q.addr
  {
    var ts := Ascending(m.Keys);
    if q.transport in m && m[q.transport] == q.addr {
      assert q.transport in ts;
      var i :| 0 <= i < |ts| && ts[i] == q.transport;
      assert RouteList(m)[i] == q;
    }
    if q in RouteList(m) {
      var i :| 0 <= i < |ts| && RouteList(m)[i] == q;
      assert ts[i] in ts;
    }
  }

  /** An address that was learnt is among the routes tried next, takes the place of
      the one on its transport, and leaves those on the others. */
  lemma LearntIsListed(s: State, peer: DeviceId, r: Route, q: Route)
    ensures var known := if peer in s.atlas.addrs then s.atlas.addrs[peer] else map[];
      q in RouteList(KnownRoutes(LearnRoute(s, peer, r), peer)) <==> q == r || (q in RouteList(known) && q.transport != r.transport)
  {
    var known := if peer in s.atlas.addrs then s.atlas.addrs[peer] else map[];
    RouteListHas(known, q);
    RouteListHas(known[r.transport := r.addr], q);
  }

  lemma PutSize(m: map<DeviceId, Sighting>, k: DeviceId, v: Sighting)
    ensures |m[k := v]| == if k in m then |m| else |m| + 1
  {
    assert |m| == |m.Keys| && |m[k := v]| == |m[k := v].Keys|;
    if k in m {
      assert m[k := v].Keys == m.Keys;
    } else {
      assert m[k := v].Keys == m.Keys + {k};
    }
  }

  /** What was in sight before a sighting is put with it: nothing, at the cap. */
  function InSight(s: State, who: DeviceId): map<DeviceId, Sighting> {
    if |s.atlas.seen| >= MAX_SEEN && who !in s.atlas.seen then map[] else s.atlas.seen
  }

  lemma SightedPuts(s: State, t: TransportId, who: DeviceId, name: string, addr: string, busy: bool)
    ensures var seen := Sighted(s, t, who, name, addr, busy).atlas.seen;
      && who in seen && seen == InSight(s, who)[who := seen[who]]
      && t in seen[who].routes && seen[who].routes[t] == addr && seen[who].name == name && seen[who].busy == busy
  {
  }

  /** A sighting is in sight, by the address it was seen at; what was in sight stays
      so unless the cap is reached, and the cap is never passed. */
  lemma SightedIsBounded(s: State, t: TransportId, who: DeviceId, name: string, addr: string, busy: bool)
    ensures var seen := Sighted(s, t, who, name, addr, busy).atlas.seen;
      && (|s.atlas.seen| <= MAX_SEEN ==> |seen| <= MAX_SEEN)
      && seen - {who} == InSight(s, who) - {who}
      && who in seen && Route(t, addr) in RouteList(seen[who].routes) && seen[who].name == name && seen[who].busy == busy
  {
    SightedPuts(s, t, who, name, addr, busy);
    var seen := Sighted(s, t, who, name, addr, busy).atlas.seen;
    PutSize(InSight(s, who), who, seen[who]);
    RouteListHas(seen[who].routes, Route(t, addr));
    SightedRest(InSight(s, who), who, seen[who]);
  }

  lemma SightedRest(m: map<DeviceId, Sighting>, k: DeviceId, v: Sighting)
    ensures m[k := v] - {k} == m - {k}
  {
  }

  lemma {:induction false} BetterAreKnown(routes: seq<Route>, t: TransportId)
    ensures forall r :: r in BetterThan(routes, t) ==> r in routes && r.transport < t
  {
    if routes != [] { BetterAreKnown(routes[1..], t); }
  }

  lemma AscendsFrom(r: Route, rest: seq<Route>)
    requires Ascends(rest) && forall q :: q in rest ==> r.transport < q.transport
    ensures Ascends([r] + rest)
  {
  }

  lemma {:induction false} BetterAscends(routes: seq<Route>, t: TransportId)
    requires Ascends(routes)
    ensures Ascends(BetterThan(routes, t))
    ensures forall r :: r in BetterThan(routes, t) ==> r in routes && r.transport < t
  {
    BetterAreKnown(routes, t);
    if routes != [] {
      BetterAscends(routes[1..], t);
      if routes[0].transport < t { AscendsFrom(routes[0], BetterThan(routes[1..], t)); }
    }
  }

  function Enlisted(dials: Dials, at: nat, p: PeerDial): Dials {
    var d := dials.last + 1;
    dials.(last := d, peer := dials.peer[d := TimedDial(at, p.(latest := d))])
  }

  /** The next dial of an attempt that nothing else waits for. */
  lemma EnlistedInMarch(m: March, dials: Dials, links: map<LinkId, Link>, r: Route, p: PeerDial, after: Option<DialToken>, at: nat)
    requires InMarch(m, dials, links) && Follows(m, r.transport, after)
    requires after.Some? ==> Detached(dials, links, after.value) && after.value <= m.last
    requires Ascends(p.routes) && forall i :: 0 <= i < |p.routes| ==> r.transport < p.routes[i].transport
    ensures InMarch(NoteDial(m, r.transport, dials.last + 1, after), Enlisted(dials, at, p), links)
  {
    var d := dials.last + 1;
    var (n, more) := (NoteDial(m, r.transport, d, after), Enlisted(dials, at, p));
    forall c | c in more.peer ensures more.peer[c].dial.latest == c && OnTrack(n, more.peer[c].dial) {
      if c != d { StaysOnTrack(m, n, dials.peer[c].dial, d, after); }
    }
    forall l | l in links && Waits(links[l])
      ensures OnTrack(n, links[l].fallback.value) && links[l].fallback.value.latest !in more.peer
      ensures Detached(more, links - {l}, links[l].fallback.value.latest) {
      StaysOnTrack(m, n, links[l].fallback.value, d, after);
    }
  }

  lemma StaysOnTrack(m: March, n: March, p: PeerDial, d: DialToken, after: Option<DialToken>)
    requires OnTrack(m, p) && p.latest < d && (after.Some? ==> p.latest != after.value)
    requires d in n.dialled && n.dialled == m.dialled[d := n.dialled[d]]
    requires n.continued == m.continued + (if after.None? then {} else {after.value})
    ensures OnTrack(n, p)
  {
  }

  lemma StartWeighs(s: State, r: Route, rest: PeerDial, after: Option<DialToken>)
    ensures Weight(StartDial(s, r, rest, after)) <= Weight(s) + 2 * |rest.routes| + 2
  {
    var d := s.dials.last + 1;
    DialPut(s.dials.peer, d, TimedDial(s.now.mono + s.env.config.dialTimeout, rest.(latest := d)));
  }

  lemma EnlistedSpends(dials: Dials, at: nat, p: PeerDial)
    ensures Spent(dials, Enlisted(dials, at, p))
  {
  }

  lemma StartShows(s: State, r: Route, rest: PeerDial, after: Option<DialToken>)
    ensures var done := StartDial(s, r, rest, after);
      && Shown(done).march == NoteDial(Shown(s).march, r.transport, s.dials.last + 1, after)
      && done.dials == Enlisted(s.dials, s.now.mono + s.env.config.dialTimeout, rest) && done.links == s.links
  {
  }

  lemma NextMarches(s: State, done: State, at: nat, r: Route, rest: PeerDial, after: Option<DialToken>)
    requires Marching(s) ==> Follows(Shown(s).march, r.transport, after)
    requires Marching(s) && after.Some? ==> Detached(s.dials, s.links, after.value) && after.value <= Shown(s).march.last
    requires Ascends(rest.routes) && forall i :: 0 <= i < |rest.routes| ==> r.transport < rest.routes[i].transport
    requires Shown(done).march == NoteDial(Shown(s).march, r.transport, s.dials.last + 1, after)
    requires done.dials == Enlisted(s.dials, at, rest) && done.links == s.links
    ensures Marches(s, done)
  {
    EnlistedSpends(s.dials, at, rest);
    if Marching(s) { EnlistedInMarch(Shown(s).march, s.dials, s.links, r, rest, after, at); }
  }

  lemma StartMarches(s: State, r: Route, rest: PeerDial, after: Option<DialToken>)
    requires Marching(s) ==> Follows(Shown(s).march, r.transport, after)
    requires Marching(s) && after.Some? ==> Detached(s.dials, s.links, after.value) && after.value <= Shown(s).march.last
    requires Ascends(rest.routes) && forall i :: 0 <= i < |rest.routes| ==> r.transport < rest.routes[i].transport
    ensures Marches(s, StartDial(s, r, rest, after))
  {
    StartShows(s, r, rest, after);
    NextMarches(s, StartDial(s, r, rest, after), s.now.mono + s.env.config.dialTimeout, r, rest, after);
  }

  lemma TryNextWeighs(s: State, p: PeerDial, why: Why)
    ensures Weight(TryNextRoute(s, p, why)) <= Weight(s) + 2 * |p.routes|
  {
    if BestLink(s.links, p.peer).Some? {
    } else if p.routes == [] {
      if p.byHand {} else {}
    } else {
      StartWeighs(s, p.routes[0], p.(routes := p.routes[1..]), Some(p.latest));
    }
  }

  /** An attempt that nothing waits for any more is carried on. */
  lemma TryNextMarches(s: State, p: PeerDial, why: Why)
    requires Marching(s) && OnTrack(Shown(s).march, p) && Detached(s.dials, s.links, p.latest)
    ensures Marches(s, TryNextRoute(s, p, why))
  {
    if BestLink(s.links, p.peer).Some? {
    } else if p.routes == [] {
      if p.byHand {} else {}
    } else {
      StartMarches(s, p.routes[0], p.(routes := p.routes[1..]), Some(p.latest));
    }
  }

  lemma DialFirstMarches(s: State, peer: DeviceId, routes: seq<Route>, byHand: bool)
    requires Ascends(routes)
    ensures Marches(s, DialFirst(s, peer, routes, byHand))
    ensures Weight(DialFirst(s, peer, routes, byHand)) <= Weight(s) + 2 * |routes|
  {
    if routes == [] {
      if byHand {} else {}
    } else {
      StartMarches(s, routes[0], PeerDial(peer, routes[1..], byHand, 0), None);
      StartWeighs(s, routes[0], PeerDial(peer, routes[1..], byHand, 0), None);
    }
  }

  /** Being asked for by hand changes neither where an attempt is nor its cost. */
  lemma AdoptedInMarch(m: March, dials: Dials, links: map<LinkId, Link>, peer: DeviceId)
    requires InMarch(m, dials, links)
    ensures InMarch(m, dials.(peer := map d | d in dials.peer :: AdoptedDial(dials.peer[d], peer)),
                    map l | l in links :: AdoptedLink(links[l], peer))
  {
    var more := dials.(peer := map d | d in dials.peer :: AdoptedDial(dials.peer[d], peer));
    var ls := map l | l in links :: AdoptedLink(links[l], peer);
    forall l | l in ls && Waits(ls[l])
      ensures Lined(ls[l]) && OnTrack(m, ls[l].fallback.value) && Detached(more, ls - {l}, ls[l].fallback.value.latest) {
      assert Waits(links[l]) && ls[l].fallback.value.latest == links[l].fallback.value.latest;
      assert forall k :: k in ls - {l} && Waits(ls[k]) ==> k in links - {l} && Waits(links[k]);
    }
  }

  lemma AdoptMarches(s: State, peer: DeviceId)
    ensures Marches(s, AdoptAttempt(s, peer)) && Weight(AdoptAttempt(s, peer)) == Weight(s)
  {
    var r := AdoptAttempt(s, peer);
    if Marching(s) { AdoptedInMarch(Shown(s).march, s.dials, s.links, peer); }
    assert DialCosts(r.dials.peer) == DialCosts(s.dials.peer);
    assert LinkCosts(r.links) == LinkCosts(s.links);
  }

  lemma {:induction false} BetterAreFewer(routes: seq<Route>, t: TransportId)
    ensures |BetterThan(routes, t)| <= |routes|
  {
    if routes != [] { BetterAreFewer(routes[1..], t); }
  }

  /** Dialling a better transport than the one a session is on. */
  lemma ImproveMarches(s: State, peer: DeviceId, routes: seq<Route>, than: TransportId)
    requires Ascends(routes) && BetterThan(routes, than) != []
    ensures Marches(s, DialFirst(s, peer, BetterThan(routes, than), false))
    ensures Weight(DialFirst(s, peer, BetterThan(routes, than), false)) <= Weight(s) + 2 * |routes|
  {
    BetterAscends(routes, than);
    BetterAreFewer(routes, than);
    DialFirstMarches(s, peer, BetterThan(routes, than), false);
  }

  /** What connecting to a peer may start. */
  function ConnectCost(s: State, peer: DeviceId): nat {
    2 * |RouteList(KnownRoutes(s, peer))|
  }

  function ConnectCosts(s: State, ids: seq<DeviceId>): nat {
    if ids == [] then 0 else ConnectCosts(s, ids[..|ids| - 1]) + ConnectCost(s, ids[|ids| - 1])
  }

  /** With a session up, only a person's request or a better way in counts. */
  lemma ReachableMarches(s: State, peer: DeviceId, byHand: bool)
    requires PeerStateOf(s, peer).Reachable?
    ensures Marches(s, ConnectPeer(s, peer, byHand))
    ensures Weight(ConnectPeer(s, peer, byHand)) <= Weight(s) + ConnectCost(s, peer)
  {
    if !byHand && Dialling(s, peer) {
    } else if byHand {
    } else if BestLink(s.links, peer).None? {
    } else {
      var than := s.links[BestLink(s.links, peer).value].transport;
      if BetterThan(RouteList(KnownRoutes(s, peer)), than) == [] {
      } else {
        RouteListAscends(KnownRoutes(s, peer));
        ImproveMarches(s, peer, RouteList(KnownRoutes(s, peer)), than);
      }
    }
  }

  lemma ConnectMarches(s: State, peer: DeviceId, byHand: bool)
    ensures Marches(s, ConnectPeer(s, peer, byHand))
    ensures Weight(ConnectPeer(s, peer, byHand)) <= Weight(s) + ConnectCost(s, peer)
  {
    if !byHand && Dialling(s, peer) {
    } else if PeerStateOf(s, peer).Unreachable? {
      RouteListAscends(KnownRoutes(s, peer));
      DialFirstMarches(s, peer, RouteList(KnownRoutes(s, peer)), byHand);
    } else if PeerStateOf(s, peer).Connecting? {
      if byHand { AdoptMarches(s, peer); }
    } else {
      ReachableMarches(s, peer, byHand);
    }
  }

  /** Dialling changes nothing about which routes are known. */
  lemma SameRoutes(s: State, r: State, peer: DeviceId)
    requires Walk(s, r)
    ensures ConnectCost(r, peer) == ConnectCost(s, peer)
  {
  }

  lemma {:induction false} ConnectingMarches(s: State, ids: seq<DeviceId>)
    ensures Marches(s, ConnectEach(s, ids))
    ensures Weight(ConnectEach(s, ids)) <= Weight(s) + ConnectCosts(s, ids)
  {
    if ids != [] {
      var front := ConnectEach(s, ids[..|ids| - 1]);
      ConnectingMarches(s, ids[..|ids| - 1]);
      ConnectMarches(front, ids[|ids| - 1], false);
      SameRoutes(s, front, ids[|ids| - 1]);
      MarchTwice(s, front, ConnectEach(s, ids));
    }
  }

  lemma WalkOnMarches(s: State, fallback: Option<PeerDial>, why: Why)
    requires Marching(s)
    requires fallback.Some? ==>
      OnTrack(Shown(s).march, fallback.value) && Detached(s.dials, s.links, fallback.value.latest)
    ensures Marches(s, WalkOn(s, fallback, why))
    ensures Weight(WalkOn(s, fallback, why)) <= Weight(s) + if fallback.Some? then 2 * |fallback.value.routes| else 0
  {
    if fallback.Some? {
      TryNextMarches(s, fallback.value, why);
      TryNextWeighs(s, fallback.value, why);
    }
  }

  // ----------------------------------------------------------- answers to attempts

  /** Taking an attempt's link out, and walking on, costs at least one. */
  lemma LinkGone(s: State, out: State, link: LinkId, why: Why)
    requires Marching(s) && link in s.links && s.links[link].Handshaking?
    requires out.links == s.links - {link} && SameDials(s, out)
    ensures var r := WalkOn(out, s.links[link].fallback, why);
      Marches(s, r) && Weight(r) + (if LinkCost(s.links[link]) > 0 then 1 else 0) <= Weight(s)
  {
    SameDialsMarch(s, out);
    WalkOnMarches(out, s.links[link].fallback, why);
    OneLink(s.links, out.links, link);
    MarchTwice(s, out, WalkOn(out, s.links[link].fallback, why));
  }

  lemma LinkDownMarches(s: State, link: LinkId)
    requires Marching(s)
    ensures var r := OnLinkDown(s, link);
      Marches(s, r) && Weight(r) + (if CostAt(s.links, link) > 0 then 1 else 0) <= Weight(s)
  {
    var out := s.(links := s.links - {link});
    if link !in s.links || s.links[link].Pending? || s.links[link].Up? {
      var r := OnLinkDown(s, link);
      OneLink(s.links, r.links, link);
      SameDialsMarch(s, r);
    } else if IsPairing(s.links[link]) {
      LinkGone(s, out.(pairing := None), link, ClosedEarly);
    } else {
      LinkGone(s, out, link, ClosedEarly);
    }
  }

  lemma MarchTwice(s: State, m: State, r: State)
    requires Marches(s, m) && Marches(m, r)
    ensures Marches(s, r)
  {
  }

  /** An attempt whose dial has left the table is on track, and nothing else waits
      for that dial. */
  lemma DroppedInMarch(m: March, dials: Dials, links: map<LinkId, Link>, d: DialToken)
    requires InMarch(m, dials, links) && d in dials.peer
    ensures var out := dials.(peer := dials.peer - {d});
      InMarch(m, out, links) && Detached(out, links, d) && OnTrack(m, dials.peer[d].dial) && dials.peer[d].dial.latest == d
  {
    var out := dials.(peer := dials.peer - {d});
    forall l | l in links && Waits(links[l])
      ensures Detached(out, links - {l}, links[l].fallback.value.latest) && links[l].fallback.value.latest != d {
      assert Detached(dials, links - {l}, links[l].fallback.value.latest);
    }
  }

  lemma DropDial(s: State, d: DialToken)
    requires Marching(s) && d in s.dials.peer
    ensures var out := s.(dials := s.dials.(peer := s.dials.peer - {d}));
      && Marches(s, out) && Weight(s) == DialCost(s.dials.peer[d]) + Weight(out)
      && OnTrack(Shown(out).march, s.dials.peer[d].dial) && Detached(out.dials, out.links, d)
      && s.dials.peer[d].dial.latest == d
  {
    DialDropped(s.dials.peer, d);
    DroppedInMarch(Shown(s).march, s.dials, s.links, d);
  }

  /** A dial that did not work out. */
  lemma DialGone(s: State, d: DialToken, why: Why)
    requires Marching(s) && d in s.dials.peer
    ensures var r := TryNextRoute(s.(dials := s.dials.(peer := s.dials.peer - {d})), s.dials.peer[d].dial, why);
      Marches(s, r) && Weight(r) < Weight(s)
  {
    var out := s.(dials := s.dials.(peer := s.dials.peer - {d}));
    DropDial(s, d);
    TryNextMarches(out, s.dials.peer[d].dial, why);
    TryNextWeighs(out, s.dials.peer[d].dial, why);
    MarchTwice(s, out, TryNextRoute(out, s.dials.peer[d].dial, why));
  }

  lemma DialFailedMarches(s: State, d: DialToken, reason: string)
    requires Marching(s)
    ensures var r := OnDialFailed(s, d, reason);
      Marches(s, r) && Weight(r) + (if d in s.dials.peer then 1 else 0) <= Weight(s)
  {
    if d in s.dials.pair {
    } else if d in s.dials.peer {
      DialGone(s, d, HostSays(reason));
    }
  }

  /** An attempt whose dial came up waits on the link it made. */
  lemma LinkedInMarch(m: March, dials: Dials, links: map<LinkId, Link>, l: LinkId, k: Link)
    requires InMarch(m, dials, links) && Waits(k) && Lined(k)
    requires OnTrack(m, k.fallback.value) && Detached(dials, links, k.fallback.value.latest)
    ensures InMarch(m, dials, links[l := k])
  {
    var more := links[l := k];
    forall i | i in more && Waits(more[i])
      ensures Lined(more[i]) && OnTrack(m, more[i].fallback.value) && more[i].fallback.value.latest !in dials.peer
      ensures Detached(dials, more - {i}, more[i].fallback.value.latest) {
      if i == l {
        assert forall j :: j in more - {l} ==> j in links && more[j] == links[j];
      } else {
        assert Detached(dials, links - {i}, links[i].fallback.value.latest);
        forall j | j in more - {i} && Waits(more[j]) ensures more[j].fallback.value.latest != more[i].fallback.value.latest {
          if j != l { assert j in links - {i}; }
        }
      }
    }
  }

  lemma DialAnswered(s: State, link: LinkId, attrs: LinkAttrs, d: DialToken, speaks: bool)
    requires Marching(s) && d in s.dials.peer
    ensures var out := s.(dials := s.dials.(peer := s.dials.peer - {d}));
      var r := StartSession(out, link, attrs, s.dials.peer[d].dial, speaks);
      Marches(s, r) && Weight(r) < Weight(s)
  {
    var out := s.(dials := s.dials.(peer := s.dials.peer - {d}));
    DropDial(s, d);
    var p := s.dials.peer[d].dial;
    var r := StartSession(out, link, attrs, p, speaks);
    PutOnlyAt(s.links, r.links, link);
    OneLink(s.links, r.links, link);
    if r.links == s.links - {link} {
      SameDialsMarch(out, r);
    } else {
      LinkedInMarch(Shown(out).march, out.dials, out.links, link, r.links[link]);
    }
    MarchTwice(s, out, r);
  }

  lemma LinkUpMarches(s: State, link: LinkId, attrs: LinkAttrs, answers: Option<DialToken>, speaks: bool)
    requires Marching(s)
    ensures var r := OnLinkUp(s, link, attrs, answers, speaks);
      Marches(s, r)
      && Weight(r) + (if answers.Some? && answers.value in s.dials.peer then 1 else 0) <= Weight(s)
  {
    var r := OnLinkUp(s, link, attrs, answers, speaks);
    PutOnlyAt(s.links, r.links, link);
    OneLink(s.links, r.links, link);
    if answers.Some? && answers.value in s.dials.pair {
      PairAnswered(s, link, attrs, answers.value, speaks);
    } else if answers.Some? && answers.value in s.dials.peer {
      DialAnswered(s, link, attrs, answers.value, speaks);
    } else {
      SameDialsMarch(s, r);
    }
  }

  lemma PairAnswered(s: State, link: LinkId, attrs: LinkAttrs, d: DialToken, speaks: bool)
    requires Marching(s) && d in s.dials.pair
    ensures Marches(s, StartPairing(s, link, attrs, d, speaks))
  {
    var r := StartPairing(s, link, attrs, d, speaks);
    FewerInMarch(Shown(s).march, s.dials, s.links, r.links);
  }

  // -------------------------------------------------------------- received frames

  /** What a received frame does to the attempts: it settles the one on its
      link, and touches no other. */
  ghost predicate SettlesAt(s: State, r: State, link: LinkId) {
    && SameDials(s, r) && OnlyAt(s.links, r.links, link)
    && (link in r.links ==> !Waits(r.links[link]))
  }

  lemma HelloSettles(s: State, peer: DeviceId, hello: Option<Hello>)
    ensures var r := AcceptHello(s, peer, hello).0; SameDials(s, r) && r.links == s.links
  {
    if hello.None? {
    } else if peer !in s.peers {
    } else if !CheckFreshness(hello.value.ts, s.now.wall, s.peers[peer].greatestSeen) {
    } else {
    }
  }

  lemma PutOnlyAt(a: map<LinkId, Link>, b: map<LinkId, Link>, l: LinkId)
    requires b == a || b == a - {l} || (l in b && b == a[l := b[l]])
    ensures OnlyAt(a, b, l)
  {
  }

  /** The attempts are as in `s`, and `link` is out of the table or new. */
  lemma FailSettles(s: State, m: State, link: LinkId)
    requires SameDials(s, m) && m.links == s.links && link !in s.links
    ensures SettlesAt(s, FailLink(m, link), link)
  {
    PutOnlyAt(s.links, FailLink(m, link).links, link);
  }

  lemma FinishSettles(s: State, m: State, link: LinkId, hash: nat, attrs: LinkAttrs, peer: DeviceId)
    requires SameDials(s, m) && m.links == s.links && link !in s.links
    ensures SettlesAt(s, FinishSession(m, link, hash, attrs, peer), link)
  {
    PutOnlyAt(s.links, FinishSession(m, link, hash, attrs, peer).links, link);
  }

  lemma SessionOpenerSettles(s: State, link: LinkId, attrs: LinkAttrs, body: Body)
    requires link !in s.links
    ensures SettlesAt(s, OnSessionOpener(s, link, attrs, body), link)
  {
    if body.opener.None? || body.opener.value !in s.peers
       || s.peers[body.opener.value].psk.None? || !body.read {
      FailSettles(s, s, link);
    } else {
      HelloSettles(s, body.opener.value, body.hello);
      var r := AcceptHello(s, body.opener.value, body.hello);
      if !r.1 || !body.write {
        FailSettles(s, r.0, link);
      } else {
        var sent := Greet(r.0, link);
        FinishSettles(s, sent, link, body.hash, attrs, body.opener.value);
      }
    }
  }

  lemma PairingCompletedSettles(s: State, link: LinkId, k: Link, body: Body)
    requires k.Handshaking? && link !in s.links
    ensures SettlesAt(s, PairingCompleted(s, link, k, body), link)
  {
    PutOnlyAt(s.links, PairingCompleted(s, link, k, body).links, link);
    if body.key.None? {
    } else if body.hello.None? {
    } else if s.pairing.None? || s.pairing.value.awaiting.Some? {
    } else {
    }
  }

  /** A frame for an attempt, or for a pairing, which carries none. */
  lemma AfterReadSettles(s: State, link: LinkId, k: Link, hs: Handshake, body: Body)
    requires k.Handshaking? && link !in s.links && Lined(k)
    requires k.fallback.Some? ==> Complete(hs)
    ensures SettlesAt(s, AfterRead(s, link, k, hs, body), link)
  {
    if !Complete(hs) {
      PutOnlyAt(s.links, s.links[link := k.(hs := hs)], link);
    } else if IsPairing(k) {
      PairingCompletedSettles(s, link, k, body);
    } else if k.aim.None? {
      FailSettles(s, s, link);
    } else {
      HelloSettles(s, k.aim.value, body.hello);
      var r := AcceptHello(s, k.aim.value, body.hello);
      if !r.1 {
        FailSettles(s, r.0, link);
      } else {
        FinishSettles(s, r.0, link, body.hash, k.attrs, k.aim.value);
      }
    }
  }

  lemma HandshakeFrameSettles(s: State, link: LinkId, k: Link, kind: FrameKind, body: Body)
    requires k.Handshaking? && link !in s.links && Lined(k)
    ensures SettlesAt(s, OnHandshakeFrame(s, link, k, kind, body), link)
  {
    if kind != (if IsPairing(k) then PairHandshake else SessionHandshake) {
    } else if !body.read {
      if IsPairing(k) {} else {}
    } else {
      var hs := Advance(k.hs);
      if IsPairing(k) && MyTurn(hs) {
        if body.write {
          var sent := GreetPair(s, link);
          AfterReadSettles(sent, link, k, Advance(hs), body);
        }
      } else {
        AfterReadSettles(s, link, k, hs, body);
      }
    }
  }

  lemma PairOpenerSettles(s: State, link: LinkId, attrs: LinkAttrs, deadline: nat, body: Body)
    requires link !in s.links
    ensures SettlesAt(s, OnPairOpener(s, link, attrs, deadline, body), link)
  {
    if WhyNotPair(s).Some? {
    } else if !body.read {
    } else if !body.write {
    } else {
    }
  }

  lemma PlainSettles(s: State, heard: State, r: State, link: LinkId)
    requires link in s.links && s.links[link].Up? && SameDials(s, heard) && Talk(heard, r)
    requires heard.links == s.links[link := s.links[link].(lastRecv := s.now.mono)]
    ensures SettlesAt(s, r, link)
  {
    PutOnlyAt(s.links, heard.links, link);
  }

  lemma TransportFrameSettles(s: State, link: LinkId, kind: FrameKind, body: Body)
    requires link in s.links && s.links[link].Up?
    ensures SettlesAt(s, OnTransportFrame(s, link, kind, body), link)
  {
    if !kind.Transport? || body.plain.None? {
      PutOnlyAt(s.links, s.links - {link}, link);
    } else {
      var heard := s.(links := s.links[link := s.links[link].(lastRecv := s.now.mono)]);
      PlainSettles(s, heard, OnTransportFrame(s, link, kind, body), link);
    }
  }

  lemma FirstFrameSettles(s: State, link: LinkId, k: Link, kind: FrameKind, body: Body)
    requires k.Pending? && link !in s.links
    ensures SettlesAt(s, OnLinkRecv(s.(links := s.links[link := k]), link, Frame(kind, body)), link)
  {
    assert s.links[link := k] - {link} == s.links;
    assert s.(links := s.links[link := k]).(links := s.links) == s;
    match kind
    case PairHandshake => PairOpenerSettles(s, link, k.attrs, k.deadline, body);
    case SessionHandshake => SessionOpenerSettles(s, link, k.attrs, body);
    case Transport => FailSettles(s, s, link);
  }

  /** Taken out or put back, the link is the same one. */
  lemma SettlesThere(s: State, out: State, r: State, link: LinkId)
    requires SettlesAt(out, r, link) && SameDials(s, out) && out.links == s.links - {link}
    ensures SettlesAt(s, r, link)
  {
  }

  lemma RecvSettles(s: State, link: LinkId, frame: Frame)
    requires Marching(s)
    ensures SettlesAt(s, OnLinkRecv(s, link, frame), link)
  {
    var out := s.(links := s.links - {link});
    if frame.Malformed? || link !in s.links {
      PutOnlyAt(s.links, OnLinkRecv(s, link, frame).links, link);
    } else if s.links[link].Up? {
      TransportFrameSettles(s, link, frame.kind, frame.body);
    } else if s.links[link].Handshaking? {
      HandshakeFrameSettles(out, link, s.links[link], frame.kind, frame.body);
      SettlesThere(s, out, OnLinkRecv(s, link, frame), link);
    } else {
      assert out.links[link := s.links[link]] == s.links;
      assert out.(links := s.links) == s;
      FirstFrameSettles(out, link, s.links[link], frame.kind, frame.body);
      SettlesThere(s, out, OnLinkRecv(s, link, frame), link);
    }
  }

  lemma RecvMarches(s: State, link: LinkId, frame: Frame)
    requires Marching(s)
    ensures var r := OnLinkRecv(s, link, frame);
      Marches(s, r) && Weight(r) + CostAt(s.links, link) == Weight(s)
  {
    var r := OnLinkRecv(s, link, frame);
    RecvSettles(s, link, frame);
    OneLink(s.links, r.links, link);
    forall l | l in r.links && Waits(r.links[l]) ensures l in s.links && r.links[l] == s.links[l] {
      assert l in r.links - {link} && r.links[l] == (r.links - {link})[l];
    }
    SameDialsMarch(s, r);
  }

  // ----------------------------------------------------------------------- tick

  lemma IdleLinkGone(s: State, out: State, l: LinkId)
    requires Marching(s) && SameDials(s, out) && out.links == s.links - {l}
    ensures Marches(s, out) && Weight(out) + CostAt(s.links, l) == Weight(s)
  {
    SameDialsMarch(s, out);
    OneLink(s.links, out.links, l);
  }

  lemma CloseStaleIs(s: State, l: LinkId)
    ensures CloseStale(s, l) == WalkOn(Push(s.(links := s.links - {l}), Close(l, Closed)),
                                       if l in s.links && s.links[l].Handshaking? then s.links[l].fallback else None, CutOff)
  {
  }

  /** One stale link closed. */
  lemma CloseStaleMarches(s: State, l: LinkId)
    requires Marching(s)
    ensures Marches(s, CloseStale(s, l))
    ensures Weight(CloseStale(s, l)) + (if CostAt(s.links, l) > 0 then 1 else 0) <= Weight(s)
  {
    CloseStaleIs(s, l);
    var out := Push(s.(links := s.links - {l}), Close(l, Closed));
    if l in s.links && s.links[l].Handshaking? {
      LinkGone(s, out, l, CutOff);
    } else {
      IdleLinkGone(s, out, l);
    }
  }

  lemma {:induction false} ClosingIdle(s: State, ids: seq<LinkId>)
    requires forall l :: l in ids && l in s.links ==> !s.links[l].Up?
    requires forall l :: l in ids ==> CostAt(s.links, l) == 0
    ensures CloseEach(s, ids).dials == s.dials
  {
    if ids != [] {
      var front := CloseEach(s, ids[..|ids| - 1]);
      ClosingIdle(s, ids[..|ids| - 1]);
      if ids[|ids| - 1] in front.links && front.links[ids[|ids| - 1]].Handshaking? {
        assert CostAt(s.links, ids[|ids| - 1]) == 0;
      }
    }
  }

  /** Some attempt waits on one of these links. */
  predicate Costly(links: map<LinkId, Link>, ids: seq<LinkId>) {
    exists l :: l in ids && CostAt(links, l) > 0
  }

  lemma CostlyLast(links: map<LinkId, Link>, ids: seq<LinkId>)
    requires ids != [] && Costly(links, ids)
    ensures Costly(links, ids[..|ids| - 1]) || CostAt(links, ids[|ids| - 1]) > 0
  {
    var l :| l in ids && CostAt(links, l) > 0;
    if l != ids[|ids| - 1] { assert l in ids[..|ids| - 1]; }
  }

  lemma CostKept(s: State, done: seq<LinkId>, l: LinkId)
    requires forall k :: k in done && k in s.links ==> !s.links[k].Up?
    requires l !in done
    ensures CostAt(CloseEach(s, done).links, l) == CostAt(s.links, l)
  {
  }

  lemma {:induction false} ClosingMarches(s: State, ids: seq<LinkId>)
    requires Marching(s)
    requires forall l :: l in ids && l in s.links ==> !s.links[l].Up?
    ensures Marches(s, CloseEach(s, ids))
    ensures Weight(CloseEach(s, ids)) + (if Costly(s.links, ids) then 1 else 0) <= Weight(s)
  {
    if ids != [] {
      var (done, l) := (ids[..|ids| - 1], ids[|ids| - 1]);
      var front := CloseEach(s, done);
      ClosingMarches(s, done);
      CloseStaleMarches(front, l);
      MarchTwice(s, front, CloseStale(front, l));
      if Costly(s.links, ids) && !Costly(s.links, done) {
        CostlyLast(s.links, ids);
        CostKept(s, done, l);
      }
    }
  }

  lemma ExpireMarches(s: State, d: DialToken)
    requires Marching(s)
    ensures var r := Expire(s, d);
      Marches(s, r) && Weight(r) + (if d in s.dials.peer then 1 else 0) <= Weight(s)
  {
    if d in s.dials.peer { DialGone(s, d, NoAnswer); }
  }

  lemma {:induction false} ExpiringMarches(s: State, ids: seq<DialToken>)
    requires Marching(s)
    ensures var r := ExpireEach(s, ids);
      Marches(s, r) && Weight(r) <= Weight(s) && (ids != [] && ids[0] in s.dials.peer ==> Weight(r) < Weight(s))
  {
    if ids != [] {
      var (done, d) := (ids[..|ids| - 1], ids[|ids| - 1]);
      var front := ExpireEach(s, done);
      ExpiringMarches(s, done);
      ExpireMarches(front, d);
      MarchTwice(s, front, ExpireEach(s, ids));
    }
  }

  lemma CallMarches(s: State, r: State)
    requires Calm(s, r)
    ensures Marches(s, r) && Weight(r) == Weight(s)
  {
  }

  predicate LateLink(s: State) {
    exists l :: l in s.links && CostAt(s.links, l) > 0 && Stale(s.links[l], s.now.mono)
  }

  predicate LateDial(s: State) {
    exists d :: d in s.dials.peer && s.now.mono >= s.dials.peer[d].deadline
  }

  /** An attempt ran out of time. */
  predicate Overdue(s: State) {
    LateLink(s) || LateDial(s)
  }

  lemma StillOverdueWithout(s: State, r: State, l: LinkId)
    requires r.links == s.links - {l} && r.dials == s.dials && r.now == s.now
    ensures Overdue(s) ==> Overdue(r) || CostAt(s.links, l) > 0
  {
    if m :| m in s.links && CostAt(s.links, m) > 0 && Stale(s.links[m], s.now.mono) && m != l {
      assert m in r.links && r.links[m] == s.links[m];
    }
  }

  lemma TickPairingMarches(s: State)
    requires Marching(s)
    ensures var r := TickPairing(s); Marches(s, r) && Weight(r) <= Weight(s)
    ensures var r := TickPairing(s); Overdue(s) ==> Overdue(r) || Weight(r) < Weight(s)
  {
    var r := TickPairing(s);
    SameDialsMarch(s, r);
    if Lapses(s) && s.pairing.value.awaiting.Some? {
      OneLink(s.links, r.links, s.pairing.value.awaiting.value.link);
      StillOverdueWithout(s, r, s.pairing.value.awaiting.value.link);
    }
  }

  /** No attempt waits on a stale link. */
  lemma StaleIdle(s: State)
    requires !Costly(s.links, StaleLinks(s.links, s.now.mono))
    ensures TickLinks(s).dials == s.dials
  {
    var ids := StaleLinks(s.links, s.now.mono);
    forall l | l in ids ensures CostAt(s.links, l) == 0 { assert !(CostAt(s.links, l) > 0); }
    ClosingIdle(s, ids);
  }

  lemma LateLinkCostly(s: State)
    requires LateLink(s)
    ensures Costly(s.links, StaleLinks(s.links, s.now.mono))
  {
    var l :| l in s.links && CostAt(s.links, l) > 0 && Stale(s.links[l], s.now.mono);
    assert l in StaleLinks(s.links, s.now.mono);
  }

  lemma TickLinksMarches(s: State)
    requires Marching(s)
    ensures Marches(s, TickLinks(s)) && Weight(TickLinks(s)) <= Weight(s)
    ensures Overdue(s) ==> Weight(TickLinks(s)) < Weight(s) || LateDial(TickLinks(s))
  {
    ClosingMarches(s, StaleLinks(s.links, s.now.mono));
    if LateLink(s) { LateLinkCostly(s); }
    if !Costly(s.links, StaleLinks(s.links, s.now.mono)) { StaleIdle(s); }
  }

  lemma TickDialsMarches(s: State)
    requires Marching(s)
    ensures var r := TickDials(s); Marches(s, r) && Weight(r) <= Weight(s)
    ensures LateDial(s) ==> Weight(TickDials(s)) < Weight(s)
  {
    ExpiringMarches(s, LateDials(s.dials.peer, s.now.mono));
    if LateDials(s.dials.peer, s.now.mono) != [] { assert LateDials(s.dials.peer, s.now.mono)[0] in LateDials(s.dials.peer, s.now.mono); }
    if d :| d in s.dials.peer && s.now.mono >= s.dials.peer[d].deadline { assert d in LateDials(s.dials.peer, s.now.mono); }
  }

  /** What the retry of every peer in sight may start. */
  function RetryCost(s: State): nat {
    if RetryDue(s) then ConnectCosts(Rearmed(s), OutOfReach(s.peers, s.links, s.atlas.addrs)) else 0
  }

  lemma TickReconnectMarches(s: State)
    requires Marching(s)
    ensures Marches(s, TickReconnect(s)) && Weight(TickReconnect(s)) <= Weight(s) + RetryCost(s)
  {
    if RetryDue(s) {
      SameDialsMarch(s, Rearmed(s));
      ConnectingMarches(Rearmed(s), OutOfReach(s.peers, s.links, s.atlas.addrs));
      MarchTwice(s, Rearmed(s), TickReconnect(s));
    }
  }

  lemma EarlyTickMarches(s: State)
    requires Marching(s)
    ensures var r := TickLinks(TickBulk(TickPairing(s)));
      && Marches(s, r) && Weight(r) <= Weight(s) && r.reconnectAt == s.reconnectAt && r.now == s.now
      && (Overdue(s) ==> Weight(r) < Weight(s) || LateDial(r))
  {
    TickPairingMarches(s);
    LinksTickMarches(TickPairing(s));
    MarchTwice(s, TickPairing(s), TickLinks(TickBulk(TickPairing(s))));
  }

  lemma StillOverdue(s: State, r: State)
    requires Calm(s, r)
    ensures Overdue(s) ==> Overdue(r)
  {
  }

  lemma LinksTickMarches(s: State)
    requires Marching(s)
    ensures var r := TickLinks(TickBulk(s)); Marches(s, r) && Weight(r) <= Weight(s)
    ensures var r := TickLinks(TickBulk(s));
      Overdue(s) ==> Weight(r) < Weight(s) || LateDial(r)
  {
    var m := TickBulk(s);
    CallMarches(s, m);
    TickLinksMarches(m);
    StillOverdue(s, m);
    MarchTwice(s, m, TickLinks(m));
  }

  /** A tick up to its retry. */
  function BeforeRetry(s: State): State {
    TickDials(TickLinks(TickBulk(TickPairing(s))))
  }

  lemma BeforeRetryMarches(s: State)
    requires Marching(s)
    ensures Marches(s, BeforeRetry(s)) && Weight(BeforeRetry(s)) + (if Overdue(s) then 1 else 0) <= Weight(s)
  {
    EarlyTickMarches(s);
    var m := TickLinks(TickBulk(TickPairing(s)));
    TickDialsMarches(m);
    MarchTwice(s, m, TickDials(m));
  }

  lemma TickMarches(s: State)
    requires Marching(s)
    ensures Marches(s, OnTick(s))
    ensures Weight(OnTick(s)) + (if Overdue(s) then 1 else 0) <= Weight(s) + RetryCost(BeforeRetry(s))
  {
    BeforeRetryMarches(s);
    var m := BeforeRetry(s);
    TickReconnectMarches(m);
    CallMarches(TickReconnect(m), OnTick(s));
    MarchTwice(s, m, TickReconnect(m));
    MarchTwice(s, TickReconnect(m), OnTick(s));
  }

  // ------------------------------------------------------------- every other event

  /** A sighting of a paired machine, its address learnt. */
  function Spotted(s: State, t: TransportId, who: DeviceId, name: string, addr: string, busy: bool): State {
    LearnRoute(Sighted(s, t, who, name, addr, busy), who, Route(t, addr))
  }

  function CommandCost(s: State, cmd: Command): nat {
    if cmd.Connect? then ConnectCost(s, cmd.peer)
    else if cmd.ReconsiderRoutes? then ConnectCosts(s, Ascending(s.peers.Keys))
    else 0
  }

  /** How much a call may add to the weight: nothing, but where it may start an
      attempt, and there what that attempt may cost. */
  function MayAdd(s: State, ev: Event): nat {
    if ev.Local? then CommandCost(s, ev.cmd)
    else if ev.Tick? then RetryCost(BeforeRetry(s))
    else if ev.Discovered? && ev.who.Some? && Paired(s, ev.who.value) then
      ConnectCost(Spotted(s, ev.transport, ev.who.value, ev.name, ev.addr, ev.busy), ev.who.value)
    else 0
  }

  /** The calls that answer one, or find it out of time. */
  predicate Answers(s: State, ev: Event) {
    match ev
    case LinkUp(_, _, answers, _) => answers.Some? && answers.value in s.dials.peer
    case LinkRecv(link, _) => CostAt(s.links, link) > 0
    case LinkDown(link) => CostAt(s.links, link) > 0
    case DialFailed(d, _) => d in s.dials.peer
    case Tick => Overdue(s)
    case _ => false
  }

  lemma RequestMarches(s: State, route: Route)
    requires Marching(s)
    ensures Marches(s, OnRequestPairing(s, route)) && Weight(OnRequestPairing(s, route)) == Weight(s)
  {
    if WhyNotPair(s).Some? {} else {}
  }

  lemma LocalMarches(s: State, cmd: Command)
    requires Marching(s)
    ensures Marches(s, OnLocal(s, cmd)) && Weight(OnLocal(s, cmd)) <= Weight(s) + CommandCost(s, cmd)
  {
    if cmd.RequestPairing? {
      RequestMarches(s, cmd.route);
    } else if cmd.ConfirmPairing? {
      ConfirmMarches(s, cmd.accept);
    } else if cmd.Connect? {
      ConnectMarches(s, cmd.peer, true);
    } else if cmd.ReconsiderRoutes? {
      ConnectingMarches(s, Ascending(s.peers.Keys));
    } else {
      QuietMarches(s, cmd);
    }
  }

  /** Commands that dial nobody. */
  lemma QuietMarches(s: State, cmd: Command)
    requires cmd.SetPeerAddress? || cmd.Disconnect? || cmd.Revoke? || cmd.PluginCommand?
    ensures Marches(s, OnLocal(s, cmd)) && Weight(OnLocal(s, cmd)) <= Weight(s)
  {
    if cmd.SetPeerAddress? {
      if cmd.peer in s.peers {} else {}
    } else if cmd.PluginCommand? {
      CallMarches(s, OnLocal(s, cmd));
    } else {
      FewerMarch(s, OnLocal(s, cmd));
    }
  }

  lemma ConfirmMarches(s: State, accept: bool)
    requires Marching(s)
    ensures Marches(s, OnConfirm(s, accept)) && Weight(OnConfirm(s, accept)) <= Weight(s)
  {
    if s.pairing.None? || s.pairing.value.awaiting.None? {
    } else {
      var a := s.pairing.value.awaiting.value;
      if !accept {
        FewerMarch(s, Deny(s, a));
      } else if a.record.key.None? {
      } else {
        FewerMarch(s, Admit(s, a, a.record.key.value));
      }
    }
  }

  lemma {:induction false} FewerWeigh(a: map<LinkId, Link>, b: map<LinkId, Link>)
    requires forall l :: l in b ==> l in a && b[l] == a[l]
    ensures Total(LinkCosts(b)) <= Total(LinkCosts(a))
    decreases |a|
  {
    if a.Keys == b.Keys {
      assert a == b;
    } else {
      var l :| l in a && l !in b;
      OffOne(a, l);
      FewerWeigh(a - {l}, b);
    }
  }

  lemma FewerMarch(s: State, r: State)
    requires SameDials(s, r) && forall l :: l in r.links ==> l in s.links && r.links[l] == s.links[l]
    ensures Marches(s, r) && Weight(r) <= Weight(s)
  {
    SameDialsMarch(s, r);
    FewerWeigh(s.links, r.links);
  }

  lemma DiscoveredMarches(s: State, t: TransportId, who: DeviceId, name: string, addr: string, busy: bool)
    requires Marching(s)
    ensures var r := OnDiscovered(s, t, Some(who), name, addr, busy);
      Marches(s, r)
      && Weight(r) <= Weight(s) + if Paired(s, who) then ConnectCost(Spotted(s, t, who, name, addr, busy), who) else 0
  {
    var seen := Sighted(s, t, who, name, addr, busy);
    if Paired(s, who) {
      var learnt := Spotted(s, t, who, name, addr, busy);
      SameDialsMarch(s, learnt);
      ConnectMarches(learnt, who, false);
      MarchTwice(s, learnt, ConnectPeer(learnt, who, false));
    } else {
      SameDialsMarch(s, OnDiscovered(s, t, Some(who), name, addr, busy));
    }
  }

  /** The events of links, dials and the clock. */
  predicate Wired(ev: Event) {
    ev.LinkUp? || ev.LinkRecv? || ev.LinkDown? || ev.DialFailed? || ev.Tick?
  }

  lemma WiredMarches(s: State, ev: Event)
    requires Marching(s) && Wired(ev)
    ensures Marches(s, React(s, ev))
    ensures Weight(React(s, ev)) + (if Answers(s, ev) then 1 else 0) <= Weight(s) + MayAdd(s, ev)
  {
    if ev.LinkUp? {
      LinkUpMarches(s, ev.link, ev.attrs, ev.answers, ev.speaks);
    } else if ev.LinkRecv? {
      RecvMarches(s, ev.link, ev.frame);
    } else if ev.LinkDown? {
      LinkDownMarches(s, ev.link);
    } else if ev.DialFailed? {
      DialFailedMarches(s, ev.dial, ev.reason);
    } else {
      TickMarches(s);
    }
  }

  lemma ReactMarches(s: State, ev: Event)
    requires Marching(s)
    ensures Marches(s, React(s, ev))
    ensures Weight(React(s, ev)) + (if Answers(s, ev) then 1 else 0) <= Weight(s) + MayAdd(s, ev)
  {
    if Wired(ev) {
      WiredMarches(s, ev);
    } else if ev.Discovered? {
      if ev.who.Some? { DiscoveredMarches(s, ev.transport, ev.who.value, ev.name, ev.addr, ev.busy); }
    } else if ev.Undiscovered? {
      FewerMarch(s, React(s, ev));
    } else if ev.Local? {
      LocalMarches(s, ev.cmd);
    } else if ev.BulkStarted? {
    } else {
      CallMarches(s, React(s, ev));
    }
  }

  // ------------------------------------------------------------- the theorems

  /** One call: attempts stay on track and tokens unique, a token once used up is
      never awaited again; and the weight falls by one with every call that
      answers an attempt, and rises by no more than what the call may start. */
  lemma RouteStep(s: State, now: Now, ev: Event)
    requires Marching(s)
    ensures Marching(Handle(s, now, ev)) && Spent(s.dials, Handle(s, now, ev).dials)
    ensures var s0 := s.(now := now);
      Weight(Handle(s, now, ev)) + (if Answers(s0, ev) then 1 else 0) <= Weight(s) + MayAdd(s0, ev)
  {
    var s0 := s.(now := now);
    assert Marching(s0);
    ReactMarches(s0, ev);
  }

  /** How many of the calls answered an attempt. */
  function Answered(s: State, calls: seq<Timed>): nat {
    if calls == [] then 0 else
      var (front, c) := (calls[..|calls| - 1], calls[|calls| - 1]);
      Answered(s, front) + if Answers(Live(s, front).(now := c.now), c.ev) then 1 else 0
  }

  /** What the calls may have started, in all. */
  function Added(s: State, calls: seq<Timed>): nat {
    if calls == [] then 0 else
      var (front, c) := (calls[..|calls| - 1], calls[|calls| - 1]);
      Added(s, front) + MayAdd(Live(s, front).(now := c.now), c.ev)
  }

  /** However the world answers, every attempt comes to an end: the answers taken
      are bounded by the weight there was and what was started since. */
  lemma {:induction false} WalkingEnds(s: State, calls: seq<Timed>)
    requires Marching(s)
    ensures Marching(Live(s, calls))
    ensures Answered(s, calls) + Weight(Live(s, calls)) <= Weight(s) + Added(s, calls)
  {
    if calls != [] {
      var (front, c) := (calls[..|calls| - 1], calls[|calls| - 1]);
      WalkingEnds(s, front);
      RouteStep(Live(s, front), c.now, c.ev);
    }
  }

  /** In every state of a core's life every attempt is on track, and no token is
      awaited twice. */
  lemma {:induction false} RoutesHold(env: Env, calls: seq<Timed>)
    ensures Marching(Live(Build(env), calls))
  {
    if calls != [] {
      var (front, c) := (calls[..|calls| - 1], calls[|calls| - 1]);
      RoutesHold(env, front);
      RouteStep(Live(Build(env), front), c.now, c.ev);
    }
  }

  // --------------------------------------------------------- dials read off a log

  predicate IsDial(e: Entry, d: DialToken) {
    e.action.Dial? && e.action.dial == d
  }

  /** A dial that carries on `d`. */
  predicate CarriesOn(e: Entry, d: DialToken) {
    e.action.Dial? && e.action.after == Some(d)
  }

  lemma {:induction false} MarchedEarlier(env: Env, log: seq<Entry>, n: nat)
    requires n <= |log|
    ensures Observe(env, log).march.numbered ==> Observe(env, log[..n]).march.numbered
    ensures Observe(env, log).march.ordered ==> Observe(env, log[..n]).march.ordered
  {
    if n < |log| {
      MarchedEarlier(env, log[..|log| - 1], n);
      assert log[..|log| - 1][..n] == log[..n];
    } else {
      assert log[..n] == log;
    }
  }

  lemma {:induction false} TokenRemembered(env: Env, log: seq<Entry>, i: nat)
    requires i < |log| && log[i].action.Dial? && Observe(env, log).march.numbered
    ensures log[i].action.dial <= Observe(env, log).march.last
  {
    var n := |log| - 1;
    if i < n {
      assert log[..n][i] == log[i];
      TokenRemembered(env, log[..n], i);
    }
  }

  /** The step from the first `n` entries to one more. */
  lemma MarchedNext(env: Env, log: seq<Entry>, n: nat)
    requires n < |log|
    ensures Observe(env, log[..n + 1]) == Note(env, Observe(env, log[..n]), log[n])
  {
    assert log[..n + 1][..n] == log[..n];
  }

  /** Later dials carry greater tokens, so an answer names one dial only. */
  lemma LogTokensRise(env: Env, log: seq<Entry>, i: nat, j: nat)
    requires i < j < |log| && log[i].action.Dial? && log[j].action.Dial? && Observe(env, log).march.numbered
    ensures log[i].action.dial < log[j].action.dial
  {
    MarchedEarlier(env, log, j + 1);
    MarchedEarlier(env, log, j);
    MarchedNext(env, log, j);
    assert log[..j][i] == log[i];
    TokenRemembered(env, log[..j], i);
  }

  lemma TokensRise(env: Env, calls: seq<Timed>, i: nat, j: nat)
    requires var log := Live(Build(env), calls).log;
      i < j < |log| && log[i].action.Dial? && log[j].action.Dial?
    ensures var log := Live(Build(env), calls).log; log[i].action.dial < log[j].action.dial
  {
    RoutesHold(env, calls);
    LogTokensRise(Live(Build(env), calls).env, Live(Build(env), calls).log, i, j);
  }

  lemma {:induction false} DialledWas(env: Env, log: seq<Entry>, d: DialToken) returns (i: nat)
    requires d in Observe(env, log).march.dialled
    ensures i < |log| && IsDial(log[i], d) && log[i].action.route.transport == Observe(env, log).march.dialled[d]
  {
    var n := |log| - 1;
    if IsDial(log[n], d) {
      i := n;
    } else {
      i := DialledWas(env, log[..n], d);
      assert log[..n][i] == log[i];
    }
  }

  lemma {:induction false} ContinuedIs(env: Env, log: seq<Entry>, d: DialToken, i: nat)
    requires i < |log| && CarriesOn(log[i], d)
    ensures d in Observe(env, log).march.continued
  {
    var n := |log| - 1;
    if i < n {
      assert log[..n][i] == log[i];
      ContinuedIs(env, log[..n], d, i);
    }
  }

  /** The dial at `j` carries on an earlier one, on a transport before its own, and
      is the only dial of the log that does. */
  predicate InOrder(log: seq<Entry>, j: nat)
    requires j < |log| && log[j].action.Dial? && log[j].action.after.Some?
  {
    var d := log[j].action.after.value;
    && (exists i :: 0 <= i < j && IsDial(log[i], d) && log[i].action.route.transport < log[j].action.route.transport)
    && forall k :: 0 <= k < |log| && CarriesOn(log[k], d) ==> k == j
  }

  /** Of two dials that carry on the same, the second would have broken the order. */
  lemma CarriedOnce(env: Env, log: seq<Entry>, d: DialToken, i: nat, j: nat)
    requires i < j < |log| && CarriesOn(log[i], d) && CarriesOn(log[j], d)
    ensures !Observe(env, log).march.ordered
  {
    MarchedEarlier(env, log, j + 1);
    MarchedNext(env, log, j);
    assert log[..j][i] == log[i];
    ContinuedIs(env, log[..j], d, i);
  }

  lemma LogInOrder(env: Env, log: seq<Entry>, j: nat)
    requires Observe(env, log).march.ordered
    requires j < |log| && log[j].action.Dial? && log[j].action.after.Some?
    ensures InOrder(log, j)
  {
    var d := log[j].action.after.value;
    MarchedEarlier(env, log, j + 1);
    MarchedNext(env, log, j);
    var i := DialledWas(env, log[..j], d);
    assert log[i] == log[..j][i];
    forall k | 0 <= k < |log| && CarriesOn(log[k], d) ensures k == j {
      if k < j { CarriedOnce(env, log, d, k, j); } else if k > j { CarriedOnce(env, log, d, j, k); }
    }
  }

  /** Over a core's whole life, whatever happens in between: a dial that carries an
      attempt on comes after the dial it carries on, on a strictly later
      transport, and no other dial carries on the same one. */
  lemma DialsInOrder(env: Env, calls: seq<Timed>, j: nat)
    requires var log := Live(Build(env), calls).log;
      j < |log| && log[j].action.Dial? && log[j].action.after.Some?
    ensures InOrder(Live(Build(env), calls).log, j)
  {
    RoutesHold(env, calls);
    LogInOrder(Live(Build(env), calls).env, Live(Build(env), calls).log, j);
  }

  /** One attempt: dials each of which carries on the one before it. */
  predicate Attempt(log: seq<Entry>, ks: seq<nat>) {
    && (forall i :: 0 <= i < |ks| ==> ks[i] < |log| && log[ks[i]].action.Dial?)
    && forall i :: 0 < i < |ks| ==> CarriesOn(log[ks[i]], log[ks[i - 1]].action.dial)
  }

  /** Two entries for one token are one entry. */
  lemma OneDial(env: Env, log: seq<Entry>, i: nat, j: nat, d: DialToken)
    requires Observe(env, log).march.numbered && i < |log| && j < |log| && IsDial(log[i], d) && IsDial(log[j], d)
    ensures i == j
  {
    if i < j { LogTokensRise(env, log, i, j); } else if j < i { LogTokensRise(env, log, j, i); }
  }

  lemma {:induction false} LogAttemptAscends(env: Env, log: seq<Entry>, ks: seq<nat>, i: nat, j: nat)
    requires Observe(env, log).march.ordered && Observe(env, log).march.numbered
    requires Attempt(log, ks) && i < j < |ks|
    ensures log[ks[i]].action.route.transport < log[ks[j]].action.route.transport && ks[i] < ks[j]
    decreases j
  {
    var d := log[ks[j - 1]].action.dial;
    assert CarriesOn(log[ks[j]], d);
    LogInOrder(env, log, ks[j]);
    var k :| 0 <= k < ks[j] && IsDial(log[k], d) && log[k].action.route.transport < log[ks[j]].action.route.transport;
    OneDial(env, log, k, ks[j - 1], d);
    if i < j - 1 { LogAttemptAscends(env, log, ks, i, j - 1); }
  }

  /** One attempt dials its transports in strictly ascending order, so each at most
      once, whatever refusals, lost links, time-outs and other calls lie between. */
  lemma AttemptAscends(env: Env, calls: seq<Timed>, ks: seq<nat>, i: nat, j: nat)
    requires Attempt(Live(Build(env), calls).log, ks) && i < j < |ks|
    ensures var log := Live(Build(env), calls).log;
      log[ks[i]].action.route.transport < log[ks[j]].action.route.transport && ks[i] < ks[j]
  {
    RoutesHold(env, calls);
    LogAttemptAscends(Live(Build(env), calls).env, Live(Build(env), calls).log, ks, i, j);
  }
}

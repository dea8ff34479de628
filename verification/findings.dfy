/** Short runs from a fresh core that reach each exception the theorems name. */
module Findings {
  import opened Wrappers
  import opened Orders
  import opened Vocab
  import opened History
  import opened Protocol
  import opened Runs
  import opened TrustTable
  import opened Reach
  import opened PromptRate
  import opened Cooldowns

  const RULES: Config := Config("us", "linux", 10, true, 100, 1000, 15, 10, 10)
  const FRIEND: PeerRecord := PeerRecord(7, Some(7), "friend", "ios", Some(SessionPsk(1)), 0, {}, {})
  const STREAM: LinkAttrs := LinkAttrs(0, 1000, true, true, NoBulk)
  const GREETING: Hello := Hello(1000, "friend", "ios", {}, {})

  /** A pairing opener, a last pairing message, a bad one, and a session opener. */
  const FIRST: Body := Body(None, true, None, true, None, 0, None)
  const THIRD: Body := Body(None, true, Some(GREETING), true, Some(9), 2, None)
  const BAD: Body := Body(None, false, None, true, None, 0, None)
  const OPENER: Body := Body(Some(7), true, Some(GREETING), true, None, 3, None)

  /** A core with nobody paired, or with one friend. */
  const LONELY: Env := Env(RULES, map[], 1, {}, {}, map[], map[], map[])
  const FRIENDLY: Env := Env(RULES, map[7 := FRIEND], 1, {}, {}, map[], map[], map[])

  function At(ms: nat): Now {
    Now(ms, 1000)
  }

  // -------------------------------------------------------------- what calls do

  /** Somebody connects, and sends a pairing opener and the last message. */
  function Knock(s: State, now: Now, link: LinkId): State {
    var up := Handle(s, now, LinkUp(link, STREAM, None, true));
    var begun := Handle(up, now, LinkRecv(link, Frame(PairHandshake, FIRST)));
    Handle(begun, now, LinkRecv(link, Frame(PairHandshake, THIRD)))
  }

  function Card(link: LinkId): Awaiting {
    Awaiting(link, NewRecord(9, GREETING, 2), Sas(2), None)
  }

  lemma KnockOpens(s: State, now: Now, link: LinkId)
    requires link !in s.links && WhyNotPair(s.(now := now)).None?
    ensures var up := Handle(s, now, LinkUp(link, STREAM, None, true));
      var deadline := now.mono + s.env.config.handshakeTimeout;
      Handle(up, now, LinkRecv(link, Frame(PairHandshake, FIRST))) == Engage(s.(now := now), link, STREAM, deadline)
  {
    var deadline := now.mono + s.env.config.handshakeTimeout;
    var up := Handle(s, now, LinkUp(link, STREAM, None, true));
    assert up == s.(now := now, links := s.links[link := Pending(STREAM, deadline)]);
    assert s.links[link := Pending(STREAM, deadline)] - {link} == s.links;
    assert up.(links := s.links) == s.(now := now);
  }

  /** The last message of a handshake that read an opener and answered it. */
  lemma ThirdAsks(s: State, link: LinkId, deadline: nat)
    requires link in s.links && s.pairing.Some? && s.pairing.value.awaiting.None?
    requires s.links[link] == Handshaking(Handshake(Pair, false, 2), STREAM, deadline, None, None, None)
    ensures Handle(s, s.now, LinkRecv(link, Frame(PairHandshake, THIRD)))
      == Ask(s.(links := (s.links - {link})[link := Pending(STREAM, deadline)]), 9, Card(link))
  {
    var out := s.(links := s.links - {link});
    assert s.(now := s.now) == s;
    assert OnHandshakeFrame(out, link, s.links[link], PairHandshake, THIRD) == PairingCompleted(out, link, s.links[link], THIRD);
  }

  function Greeted(s: State, now: Now, link: LinkId): State {
    Engage(s.(now := now), link, STREAM, now.mono + s.env.config.handshakeTimeout)
  }

  lemma GreetedIs(s: State, now: Now, link: LinkId)
    requires link !in s.links
    ensures var r := Greeted(s, now, link);
      && r.now == now && r.links - {link} == s.links
      && r.pairing == Some(Window(now.mono + s.env.config.pairingWindow, None))
      && link in r.links
      && r.links[link] == Handshaking(Handshake(Pair, false, 2), STREAM, now.mono + s.env.config.handshakeTimeout, None, None, None)
  {
  }

  /** It ends in a prompt, and the slot is held for it. */
  lemma KnockAsks(s: State, now: Now, link: LinkId)
    requires link !in s.links && WhyNotPair(s.(now := now)).None?
    ensures var deadline := now.mono + s.env.config.handshakeTimeout;
      Knock(s, now, link) == Ask(Greeted(s, now, link).(links := s.links[link := Pending(STREAM, deadline)]), 9, Card(link))
  {
    KnockOpens(s, now, link);
    GreetedIs(s, now, link);
    ThirdAsks(Greeted(s, now, link), link, now.mono + s.env.config.handshakeTimeout);
  }

  /** A tick with nothing but the slot to look after. */
  lemma BareTick(s: State)
    requires s.links == map[] && s.dials.peer == map[] && s.peers == map[]
    requires s.desk.bulkWait == map[] && s.desk.wake.None? && RetryDue(s)
    ensures TickRest(s) == Rearmed(s)
  {
    assert LateTransfers(s.desk.bulkWait, s.now.mono) == [];
    assert StaleLinks(s.links, s.now.mono) == [];
    assert LateDials(s.dials.peer, s.now.mono) == [];
    assert OutOfReach(s.peers, s.links, s.atlas.addrs) == [];
  }

  // ------------------------------------------------------ a denial cooldown cut short

  const SOMEWHERE: Route := Route(0, "there")

  /** A core that has nothing but pairing on its hands. */
  predicate Bare(s: State) {
    && s.env == LONELY && s.peers == map[] && s.dials.peer == map[]
    && s.desk.bulkWait == map[] && s.desk.wake.None?
  }

  /** Some run of the core ends here. */
  ghost predicate Reached(env: Env, s: State) {
    exists inputs :: Run(env, inputs) == s
  }

  lemma ReachedNext(env: Env, s: State, now: Now, ev: Event)
    requires Reached(env, s)
    ensures Reached(env, Handle(s, now, ev))
  {
    var inputs :| Run(env, inputs) == s;
    OneMore(env, inputs, Call(now, ev));
  }

  lemma ReachedKnock(env: Env, s: State, now: Now, link: LinkId)
    requires Reached(env, s)
    ensures Reached(env, Knock(s, now, link))
  {
    var up := Handle(s, now, LinkUp(link, STREAM, None, true));
    var begun := Handle(up, now, LinkRecv(link, Frame(PairHandshake, FIRST)));
    ReachedNext(env, s, now, LinkUp(link, STREAM, None, true));
    ReachedNext(env, up, now, LinkRecv(link, Frame(PairHandshake, FIRST)));
    ReachedNext(env, begun, now, LinkRecv(link, Frame(PairHandshake, THIRD)));
  }

  lemma ReachedFirst(env: Env) returns (s: State)
    ensures s == Build(env) && Reached(env, s)
  {
    s := Build(env);
    assert Run(env, []) == s;
  }

  /** The dial of the first request is still out. */
  predicate Owing(s: State) {
    s.dials.pair == map[1 := SOMEWHERE]
  }

  lemma BareRequest(s: State)
    requires s == Build(LONELY)
    ensures var r := Handle(s, At(0), Local(RequestPairing(SOMEWHERE)));
      Bare(r) && Owing(r) && r.links == map[] && r.pairing == Some(Window(10, None)) && r.reconnectAt.None?
  {
  }

  lemma Requested() returns (s: State)
    ensures Reached(LONELY, s) && Bare(s) && Owing(s) && s.links == map[]
    ensures s.pairing == Some(Window(10, None)) && s.reconnectAt.None?
  {
    var start := ReachedFirst(LONELY);
    ReachedNext(LONELY, start, At(0), Local(RequestPairing(SOMEWHERE)));
    BareRequest(start);
    s := Handle(start, At(0), Local(RequestPairing(SOMEWHERE)));
  }

  /** A person asks, and the window runs out unanswered. */
  lemma Stranded() returns (s: State)
    ensures Reached(LONELY, s) && Bare(s) && Owing(s) && s.links == map[] && s.pairing == None && s.quietUntil == 110
  {
    var asked := Requested();
    ReachedNext(LONELY, asked, At(10), Tick);
    BareLapse(asked, At(10));
    s := Handle(asked, At(10), Tick);
  }

  /** The window of a request nobody answered runs out. */
  lemma BareLapse(s: State, now: Now)
    requires Bare(s) && s.links == map[] && s.reconnectAt.None?
    requires s.pairing == Some(Window(now.mono, None))
    ensures var r := Handle(s, now, Tick);
      && Bare(r) && r.links == map[] && r.dials == s.dials && r.pairing == None
      && r.quietUntil == now.mono + s.env.config.pairCooldown
  {
    BareTick(TickPairing(s.(now := now)));
  }

  lemma GreetedLogs(s: State, now: Now, link: LinkId)
    ensures var r := Greeted(s, now, link);
      && r.log == s.log + [Entry(now, LinkSend(link, PairMessage(OurHello(s.(now := now)))))]
      && r == s.(now := now, links := r.links, pairing := r.pairing, log := r.log)
  {
  }

  lemma KnockLogs(s: State, now: Now, link: LinkId)
    requires link !in s.links && WhyNotPair(s.(now := now)).None?
    ensures var r := Knock(s, now, link);
      && r.log == s.log + [Entry(now, LinkSend(link, PairMessage(OurHello(s.(now := now)))))]
                        + [Entry(now, Ui(PairingSas("friend", 9, Sas(2))))]
      && r.env == s.env && r.peers == s.peers && r.dials == s.dials && r.desk == s.desk
      && r.links.Keys == s.links.Keys + {link} && Awaits(r.pairing) == Some(Card(link))
  {
    KnockAsks(s, now, link);
    GreetedLogs(s, now, link);
  }

  /** The digits differ, and the link a person was asked about was the only one. */
  lemma BareDenial(s: State, now: Now, link: LinkId)
    requires Bare(s) && s.links.Keys == {link} && Awaits(s.pairing) == Some(Card(link))
    ensures var r := Handle(s, now, Local(ConfirmPairing(false)));
      && Bare(r) && r.dials == s.dials && r.links == map[] && r.pairing == None
      && r.quietUntil == now.mono + s.env.config.pairDeniedCooldown
      && r.log == s.log + [Entry(now, Close(link, Protocol(NotAllowed))), Entry(now, Ui(PairingFailed(CodesDiffer)))]
  {
    var s0 := s.(now := now);
    assert Handle(s, now, Local(ConfirmPairing(false))) == Deny(s0, Card(link));
    assert s.links - {link} == map[];
  }

  predicate EndsIn(log: seq<Entry>, e: Entry) {
    log != [] && log[|log| - 1] == e
  }

  /** A stranger's pairing is shown and denied. */
  lemma Denied(s: State) returns (r: State)
    requires Reached(LONELY, s) && Bare(s) && Owing(s) && s.links == map[] && s.pairing == None && s.quietUntil == 110
    ensures Reached(LONELY, r) && Bare(r) && Owing(r) && r.links == map[] && r.pairing == None && r.quietUntil == 1111
    ensures EndsIn(r.log, Entry(At(111), Ui(PairingFailed(CodesDiffer))))
  {
    ReachedKnock(LONELY, s, At(110), 5);
    KnockLogs(s, At(110), 5);
    var asked := Knock(s, At(110), 5);
    ReachedNext(LONELY, asked, At(111), Local(ConfirmPairing(false)));
    BareDenial(asked, At(111), 5);
    r := Handle(asked, At(111), Local(ConfirmPairing(false)));
  }

  /** The stranded dial is answered after all. */
  lemma BareAnswer(s: State, now: Now, link: LinkId)
    requires Bare(s) && Owing(s) && s.links == map[]
    ensures var r := Handle(s, now, LinkUp(link, STREAM, Some(1), true));
      && Bare(r) && r.pairing == s.pairing && r.quietUntil == s.quietUntil && s.log <= r.log
      && r.links == map[link := Handshaking(Handshake(Pair, true, 1), STREAM, now.mono + s.env.config.handshakeTimeout,
                                            None, Some(SOMEWHERE), None)]
  {
  }

  /** A pairing that fails on a frame nobody can read. */
  lemma BareFailure(s: State, now: Now, link: LinkId, k: Link)
    requires Bare(s) && s.links == map[link := k] && IsPairing(k) && s.pairing == None
    ensures var r := Handle(s, now, LinkRecv(link, Frame(PairHandshake, BAD)));
      && Bare(r) && r.links == map[] && r.pairing == None && s.log <= r.log
      && r.quietUntil == now.mono + s.env.config.pairCooldown
  {
    var out := s.(now := now, links := map[]);
    assert s.links - {link} == map[] && out.links - {link} == map[];
    assert Handle(s, now, LinkRecv(link, Frame(PairHandshake, BAD))) == PairingAttemptFailed(out, link);
  }

  /** It fails, and the ordinary cooldown takes the place of the longer one. */
  lemma Hushed(s: State) returns (r: State)
    requires Reached(LONELY, s) && Bare(s) && Owing(s) && s.links == map[] && s.pairing == None
    ensures Reached(LONELY, r) && Bare(r) && r.links == map[] && r.pairing == None && r.quietUntil == 213
    ensures s.log <= r.log
  {
    ReachedNext(LONELY, s, At(112), LinkUp(6, STREAM, Some(1), true));
    BareAnswer(s, At(112), 6);
    var up := Handle(s, At(112), LinkUp(6, STREAM, Some(1), true));
    ReachedNext(LONELY, up, At(113), LinkRecv(6, Frame(PairHandshake, BAD)));
    BareFailure(up, At(113), 6, up.links[6]);
    r := Handle(up, At(113), LinkRecv(6, Frame(PairHandshake, BAD)));
  }

  lemma AskedAgain(s: State) returns (r: State)
    requires Reached(LONELY, s) && Bare(s) && s.links == map[] && s.pairing == None && s.quietUntil == 213
    ensures Reached(LONELY, r) && s.log < r.log
    ensures EndsIn(r.log, Entry(At(213), Ui(PairingSas("friend", 9, Sas(2)))))
  {
    ReachedKnock(LONELY, s, At(213), 7);
    KnockLogs(s, At(213), 7);
    r := Knock(s, At(213), 7);
  }

  /** A prompt this long after a denial that asked for a thousand. */
  predicate CutShort(log: seq<Entry>, i: int, j: int, ms: nat) {
    && 0 <= i < j < |log| && IsDenial(log[i]) && IsPrompt(log[j])
    && log[j].now.mono == log[i].now.mono + ms && ms < RULES.pairDeniedCooldown == 1000
  }

  lemma CutIsEarly(log: seq<Entry>, i: int, j: int, ms: nat)
    requires CutShort(log, i, j, ms)
    ensures !Apart(RULES, log, i, j)
  {
  }

  /** A log that ends in a denial, and a longer one that ends in a prompt. */
  lemma CutShows(a: seq<Entry>, b: seq<Entry>, denial: Entry, prompt: Entry)
    requires EndsIn(a, denial) && EndsIn(b, prompt) && a < b && IsDenial(denial) && IsPrompt(prompt)
    requires denial.now.mono <= prompt.now.mono < denial.now.mono + RULES.pairDeniedCooldown
    ensures CutShort(b, |a| - 1, |b| - 1, prompt.now.mono - denial.now.mono)
  {
    assert b[|a| - 1] == a[|a| - 1];
  }

  lemma CutAfter(denied: State) returns (s: State)
    requires Reached(LONELY, denied) && Bare(denied) && Owing(denied) && denied.links == map[] && denied.pairing == None
    ensures Reached(LONELY, s) && denied.log < s.log
    ensures EndsIn(s.log, Entry(At(213), Ui(PairingSas("friend", 9, Sas(2)))))
  {
    var hushed := Hushed(denied);
    s := AskedAgain(hushed);
  }

  lemma CutRun() returns (a: seq<Entry>, s: State)
    ensures Reached(LONELY, s) && a < s.log
    ensures EndsIn(a, Entry(At(111), Ui(PairingFailed(CodesDiffer))))
    ensures EndsIn(s.log, Entry(At(213), Ui(PairingSas("friend", 9, Sas(2)))))
  {
    var stranded := Stranded();
    var denied := Denied(stranded);
    a := denied.log;
    s := CutAfter(denied);
  }

  lemma CutLogs(a: seq<Entry>, b: seq<Entry>)
    requires a < b
    requires EndsIn(a, Entry(At(111), Ui(PairingFailed(CodesDiffer))))
    requires EndsIn(b, Entry(At(213), Ui(PairingSas("friend", 9, Sas(2)))))
    ensures CutShort(b, |a| - 1, |b| - 1, 102) && !Apart(RULES, b, |a| - 1, |b| - 1)
  {
    CutShows(a, b, Entry(At(111), Ui(PairingFailed(CodesDiffer))), Entry(At(213), Ui(PairingSas("friend", 9, Sas(2)))));
    CutIsEarly(b, |a| - 1, |b| - 1, 102);
  }

  /** A request is stranded; a stranger's pairing is denied, which asks for 1000
      ms of quiet; the stranded dial is answered and its handshake fails, which
      leaves 100; and the next prompt comes 102 ms after the denial. */
  lemma CooldownIsCut() returns (before: seq<Entry>, s: State)
    ensures Reached(LONELY, s) && before < s.log
    ensures CutShort(s.log, |before| - 1, |s.log| - 1, 102) && !Apart(RULES, s.log, |before| - 1, |s.log| - 1)
  {
    before, s := CutRun();
    CutLogs(before, s.log);
  }

  // ------------------------------------------------------- the mirror's exceptions

  /** One friend, and nobody connected. */
  predicate Friendly(s: State) {
    s.env == FRIENDLY && s.peers == map[7 := FRIEND] && s.pairing == None && s.quietUntil == 0
  }

  lemma FriendlyStart() returns (s: State)
    ensures Reached(FRIENDLY, s) && Friendly(s) && s.links == map[] && Known(s) && Parked(s) && Mirrored(s)
  {
    s := ReachedFirst(FRIENDLY);
    assert s.peers == map[7 := FRIEND];
  }

  lemma FriendOpens(s: State, link: LinkId)
    requires Friendly(s) && s.links == map[] && Known(s) && Parked(s) && Mirrored(s)
    ensures var r := Handle(s, At(0), LinkUp(link, STREAM, None, true));
      Friendly(r) && r.links == map[link := Pending(STREAM, 10)] && Known(r) && Parked(r) && Mirrored(r)
  {
    MirrorStep(s, At(0), LinkUp(link, STREAM, None, true));
  }

  lemma FriendGreets(s: State, link: LinkId)
    requires Friendly(s) && s.links == map[link := Pending(STREAM, 10)] && Known(s) && Parked(s) && Mirrored(s)
    ensures var r := Handle(s, At(0), LinkRecv(link, Frame(SessionHandshake, OPENER)));
      UpTo(r.links, link, 7) && r.links.Keys == {link} && Known(r) && Mirrored(r)
  {
    MirrorStep(s, At(0), LinkRecv(link, Frame(SessionHandshake, OPENER)));
    var out := s.(now := At(0), links := map[]);
    assert s.links - {link} == map[];
    OpenedFor(out, link, STREAM, OPENER);
    SessionOpenerMirrors(out, link, STREAM, OPENER);
    var r := OnSessionOpener(out, link, STREAM, OPENER);
    assert r.links.Keys - {link} == (r.links - {link}).Keys;
  }

  /** A friend's one session. */
  lemma Met() returns (s: State)
    ensures Reached(FRIENDLY, s) && UpTo(s.links, 3, 7) && s.links.Keys == {3} && Mirrored(s)
  {
    var start := FriendlyStart();
    ReachedNext(FRIENDLY, start, At(0), LinkUp(3, STREAM, None, true));
    FriendOpens(start, 3);
    var up := Handle(start, At(0), LinkUp(3, STREAM, None, true));
    ReachedNext(FRIENDLY, up, At(0), LinkRecv(3, Frame(SessionHandshake, OPENER)));
    FriendGreets(up, 3);
    s := Handle(up, At(0), LinkRecv(3, Frame(SessionHandshake, OPENER)));
  }

  /** Three calls, and a peer is announced that nobody can reach. */
  lemma SilentLossIsReached() returns (s: State)
    ensures Reached(FRIENDLY, s) && 7 in Shown(s).reach && !Online(s.links, 7)
  {
    var met := Met();
    ReachedNext(FRIENDLY, met, At(1), LinkRecv(3, Malformed));
    SilentLossHappens(met, At(1), 3, 7);
    s := Handle(met, At(1), LinkRecv(3, Malformed));
  }

  lemma ParkedOpens(s: State)
    requires Friendly(s) && s.links == map[] && Known(s)
    ensures var asked := Knock(s, At(0), 5);
      var r := Handle(asked, At(1), LinkRecv(5, Frame(SessionHandshake, OPENER)));
      Awaits(r.pairing) == Some(Card(5)) && UpTo(r.links, 5, 7)
  {
    KnockAsks(s, At(0), 5);
    var asked := Knock(s, At(0), 5);
    assert asked.links == map[5 := Pending(STREAM, 10)];
    ParkedOpensHappens(asked, At(1), LinkRecv(5, Frame(SessionHandshake, OPENER)));
  }

  /** Four calls, and a person is asked about a link that carries a session. */
  lemma ParkedOpenIsReached() returns (s: State)
    ensures Reached(FRIENDLY, s) && Awaits(s.pairing) == Some(Card(5)) && UpTo(s.links, 5, 7)
  {
    var start := FriendlyStart();
    ReachedKnock(FRIENDLY, start, At(0), 5);
    ReachedNext(FRIENDLY, Knock(start, At(0), 5), At(1), LinkRecv(5, Frame(SessionHandshake, OPENER)));
    ParkedOpens(start);
    s := Handle(Knock(start, At(0), 5), At(1), LinkRecv(5, Frame(SessionHandshake, OPENER)));
  }
}

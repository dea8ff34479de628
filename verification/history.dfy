/** What a run has shown the outside world so far, read off its actions. */
module History {
  import opened Wrappers
  import opened Vocab

  /** What was written and promised about peers.
      `disk`: the store after carrying out every `Persist`;
      `card`: the last pairing prompt;
      `rising`: every persisted watermark rose, and ran at most the permitted
      skew ahead of the wall clock. */
  datatype Trust = Trust(disk: map<DeviceId, PeerRecord>, card: Option<UiEvent>, rising: bool)

  /** When a person was last bothered.
      `last`: when digits were last shown, unless a pairing was accepted since;
      `recent`: the same, unless a person said since that the digits differ;
      `denial`: when a person last said so;
      `spaced`: no prompt came too soon after an earlier one or after a denial. */
  datatype Prompts = Prompts(last: Option<nat>, recent: Option<nat>, denial: Option<nat>, spaced: bool)

  /** What was dialled.
      `last`: the last token, and `numbered` says that tokens only grew;
      `dialled`: the transport each token was for;
      `continued`: the dials another carried on;
      `ordered`: no dial was carried on twice, or by one on a transport no later. */
  datatype March = March(
    last: nat, numbered: bool, dialled: map<DialToken, TransportId>, continued: set<DialToken>, ordered: bool)

  /** What was said on sessions.
      `errs`: how many errors the core sent;
      `said`: the capabilities used on each link;
      `candid`: every session greeting named the capabilities this core has. */
  datatype Speech = Speech(errs: nat, said: set<Saying>, candid: bool)

  datatype Saying = Saying(link: LinkId, cap: Cap)

  /** A digest of a log; `reach` are the peers last announced reachable. */
  datatype Digest = Digest(trust: Trust, prompts: Prompts, reach: set<DeviceId>, march: March, speech: Speech)

  /** Errors are all the core ever says on a session by itself. */
  predicate IsError(m: Wire) {
    m.Sealed? && m.ours
  }

  /** The least time between any two prompts. One that is denied is followed by
      the denial cooldown, which a configuration may set shorter. */
  function Gap(c: Config): nat {
    if c.pairCooldown <= c.pairDeniedCooldown then c.pairCooldown else c.pairDeniedCooldown
  }

  predicate LongAfter(last: Option<nat>, gap: nat, now: nat) {
    last.None? || last.value + gap <= now
  }

  predicate Rises(disk: map<DeviceId, PeerRecord>, id: DeviceId, r: PeerRecord, wall: nat) {
    r.greatestSeen == 0
    || (id in disk && disk[id].greatestSeen < r.greatestSeen <= wall + MAX_SKEW_MS)
  }

  function Later(a: Option<nat>, b: nat): Option<nat> {
    if a.Some? && a.value > b then a else Some(b)
  }

  function NotePrompt(c: Config, p: Prompts, now: nat): Prompts {
    Prompts(Later(p.last, now), Later(p.recent, now), p.denial,
            p.spaced && LongAfter(p.last, Gap(c), now) && LongAfter(p.recent, c.pairCooldown, now)
            && LongAfter(p.denial, c.pairDeniedCooldown, now))
  }

  function NoteDenial(p: Prompts, now: nat): Prompts {
    p.(recent := None, denial := Later(p.denial, now))
  }

  function NoteUi(c: Config, d: Digest, now: Now, e: UiEvent): Digest {
    match e
    case PeerReachable(p, _) => d.(reach := d.reach + {p})
    case PeerUnreachable(p) => d.(reach := d.reach - {p})
    case PairingSas(_, _, _) =>
      d.(prompts := NotePrompt(c, d.prompts, now.mono), trust := d.trust.(card := Some(e)))
    case PairingComplete(_, _) => d.(prompts := d.prompts.(last := None, recent := None))
    case PairingFailed(end) => if end.CodesDiffer? then d.(prompts := NoteDenial(d.prompts, now.mono)) else d
    case _ => d
  }

  function NotePersist(t: Trust, id: DeviceId, v: Option<PeerRecord>, wall: nat): Trust {
    if v.None? then t.(disk := t.disk - {id})
    else Trust(t.disk[id := v.value], t.card, t.rising && Rises(t.disk, id, v.value, wall))
  }

  /** A dial that carries on another is later than it, and the only one to. */
  predicate Follows(m: March, t: TransportId, after: Option<DialToken>) {
    after.Some? ==> after.value in m.dialled && m.dialled[after.value] < t && after.value !in m.continued
  }

  function NoteDial(m: March, t: TransportId, d: DialToken, after: Option<DialToken>): March {
    March(d, m.numbered && m.last < d, m.dialled[d := t],
          m.continued + (if after.None? then {} else {after.value}), m.ordered && Follows(m, t, after))
  }

  function NoteSend(env: Env, p: Speech, l: LinkId, m: Wire): Speech {
    match m
    case SessionMessage(h) => p.(candid := p.candid && h.capsOut == env.capsOut && h.capsIn == env.capsIn)
    case Sealed(e, ours) => p.(said := p.said + {Saying(l, e.cap)}, errs := p.errs + if ours then 1 else 0)
    case _ => p
  }

  function Note(env: Env, d: Digest, e: Entry): Digest {
    match e.action
    case Persist(id, v) => d.(trust := NotePersist(d.trust, id, v, e.now.wall))
    case Dial(r, t, after) => d.(march := NoteDial(d.march, r.transport, t, after))
    case LinkSend(l, m) => d.(speech := NoteSend(env, d.speech, l, m))
    case Ui(u) => NoteUi(env.config, d, e.now, u)
    case _ => d
  }

  /** What a core of `env` has shown once it has done all of `log`. */
  function Observe(env: Env, log: seq<Entry>): Digest {
    if log == [] then
      Digest(Trust(env.store, None, true), Prompts(None, None, None, true), {},
             March(0, true, map[], {}, true), Speech(0, {}, true))
    else Note(env, Observe(env, log[..|log| - 1]), log[|log| - 1])
  }
}

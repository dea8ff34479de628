# Acrylius, verified

A model in Dafny of Acrylius: the protocol core that decides whom to trust, whom to
dial and what to say; the codecs that carry its bytes; and the touchpad and config
code beside it. The properties proved are about whole runs and all inputs.
`dafny verify dfyconfig.toml` checks everything.

## The core

`crates/acrylius-core/src/core.rs` is one object with one entry point: `handle`
takes the clocks and an event, changes a large state, and returns actions and the
next deadline. It is modelled twice.

- `core.dfy` is the object itself: class `Core`, the source's fields, one method
  per routine, loops where the source loops. Every routine is proved to end in
  the state the function of the same name in `protocol.dfy` gives. `Handle` says
  what its caller wants of a call: the actions, trust and attempts kept, the
  announcements exact but for the exception named, and the deadline.
- `protocol.dfy` is the same state machine as functions of a `State`, with the
  footprint of each routine in its contract. Properties of runs are proved about
  these functions. `InPlace.Serve` carries them over to the class: a host that calls
  a core, carries out what it persists and now and then starts it over from the
  store (`InPlace.Core.Revive`) holds exactly the state of that run.

`State.log` is every action of the run, with the clocks of the call that pushed
it. `history.dfy` folds a log into a digest: the store after every `Persist`, the
last prompts and denial, whether watermarks rose, who was last announced reachable,
which transport each dial was on and which dial carried on which, and what was said
on which link under which capability. Invariants tie the state to that digest;
closing lemmas turn the digest back into plain statements about positions in the
log. Two notes on actions are for the proofs and not the source's: a `Dial` names
the dial it carries on (`after`, kept in the attempt as `latest`), and a `Sealed`
message says whether the core asked for it itself (`ours`).

What is proved about runs:

- **Trust** (`trust.dfy`). Carrying out every `Persist` over the initial store gives
  exactly the table in memory, watermarks included, so a restart rebuilds it. A new
  key or secret enters only by accepting a prompt, and it is the record whose name,
  key and digits the last prompt carried; no waiting confirmation becomes another.
  Between a pairing and the next pairing or revocation accepted timestamps strictly
  increase, above what was restored and through restarts, and never run more than
  the permitted skew ahead of the wall clock; so a payload accepted once is refused
  until then.
- **Reachability** (`reach.dfy`). Whoever has a session is paired, and the
  announcements so far name exactly the peers with a session. There are two
  exceptions, and the step theorem says exactly when each strikes: an unreadable
  frame on the only session with a peer goes through `fail_link`, which announces
  nothing; and a session opener accepted on the link that waits for a person turns
  that link into a session. `findings.dfy` has a short run from a fresh core to each.
- **Prompts** (`prompts.dfy`, `windows.dfy`, `cooldowns.dfy`). At most one pairing is
  under way, and only while the slot is held with nobody waiting. The one exception
  is a window that lapses while a dial a person asked for is unanswered, or its
  handshake has time left: `StrandHappens` shows it is real. Hosts that never send
  `RequestPairing`, with a handshake timeout no longer than the window, never meet
  it. Two prompts with no accepted pairing and no denial between them are a cooldown
  apart, and none follows a denial within the denial cooldown. A pairing left
  beside the slot can break that, and `QuietStep` says exactly when: its handshake
  fails (one frame that cannot be read is enough), and the ordinary cooldown takes
  the place of a longer one after a denial; or its link or dial goes away while
  somebody else's prompt is up, and gives back the slot that prompt holds.
  `CooldownIsCut` is such a run: a prompt 102 ms after a denial that asks for 1000.
- **Timers** (`timers.dfy`). The deadline returned is the least of everything
  outstanding; after a tick nothing is overdue anywhere and the deadline returned is
  strictly later, so a host cannot spin.
- **Routes** (`routes.dfy`, `attempts.dfy`). The dials of one attempt are on strictly
  ascending transports, each carried on at most once, whatever refusals, time-outs,
  lost links and other calls lie between; tokens only grow, sit in one table only,
  and a spent one never returns. With 2n+2 for a pending dial with n routes left and
  2n+1 for a handshake with n fallback routes, every answer lowers the total by at
  least one and no call raises it by more than the attempts it may start are worth,
  so walking ends. An attempt whose every way in fails dials each known route
  exactly once and then tells the person who asked.
- **Errors** (`errors.dfy`, `duo.dfy`). Two cores, with links between them that may
  lose, repeat and reorder what is sent: for as long as a session lasts, what one end
  may send is what the other may receive, and everything said on it is within that.
  So an error that arrives is shown and answered with nothing, and the errors both
  sent never outnumber the messages delivered that were no errors: they never answer
  each other's errors.

## Beside the core

- `fragments.dfy`, `bleslot.dfy`: Bluetooth fragments and the single link slot.
- `base64.dfy`: strict base64url and the ids spelt in it.
- `bulk.dfy`: the file channel, sender and both receivers.
- `touchpad.dfy`, `effector.dfy`: slots checked against an interpreter of the kernel's
  type B protocol, and operations that arrive in any order.
- `usb.dfy`: the playout of touches over USB.
- `reconcile.dfy`: the config merge.

`wrappers.dfy`, `orders.dfy` and `vocab.dfy` hold shared types, walks over finite
sets in ascending order, and the core's vocabulary. `runs.dfy` says what a run is.

## How the world is modelled

- **Cryptography.** `Body` answers, for one frame, each question the core puts to
  Noise: which key an opener names, whether a message is accepted, what payload or
  plaintext comes out, whether a reply can be written, the final key and hash.
  Handshakes count messages: XX has three and IKpsk2 two (sections 7.5 and 9.4 of
  the Noise Protocol Framework, revision 34). A key, its fingerprint and its device
  id are one number, and so are a handshake hash and what is derived from it: the
  hashes are taken as injective. The bulk channel's cipher is ideal: a frame opens
  only as what was sealed with that number (section 2.8 of RFC 8439 is what it
  idealises).
- **Plugins.** `Env.plugin` says what the n-th call since the first start asks for, so
  a plugin may keep any state, through restarts too; what it may ask for is effects,
  transfers, messages, a wake and two kinds of screen event. `Env.sealed` gives, for
  each message, its encrypted length or that it does not encrypt; one it does not name
  does not encode and is dropped.
- **Host.** Clocks are natural numbers. Each theorem names what it needs of the
  host: clocks that do not go back, link ids that are not reused, a store that holds
  what a core once wrote.
- **Texts** for people are dropped or kept as a constructor; capability lists are sets.

Where comments and code differ the code is followed. The comment on `fail_up_link`
(core.rs 1927) has an established link announced like any other death; a frame that
does not split goes through `fail_link`, which announces nothing. The comment at
core.rs 422 has a sighted peer that is already reachable skipped; the code dials it
when a strictly better route is known. The comment at core.rs 1861 has a link still
handshaking never hold up a waiting confirmation; one left over from a lapsed window
clears the slot whoever holds it, which is why `PromptStep` and `QuietStep` name the
calls they do. The comment at core.rs 1504 has a transfer with no session reported as
finished and failed; the code shows an error, reports nothing to the plugin and keeps
the owner of the transfer.

## Model

| member | source | states |
|---|---|---|
| TrustTable.PairingLedger | crates/acrylius-core/src/core.rs:988-1057 | one call on any trusted state: it stays trusted; unless the call accepts a waiting prompt no key or secret is new; when it does, the one record filed is the one whose name, key and digits the last `PairingSas` carried; no waiting confirmation becomes another |
| TrustTable.TrustHolds | crates/acrylius-core/src/core.rs:839-875 | in every reachable state, restarts included, the store after all `Persist`s is the table in memory, every record is under its own key, every persisted watermark rose, and what waits is what was shown |
| TrustTable.RestartRebuilds | crates/acrylius-core/src/core.rs:2057-2061 | a restart at any moment restores exactly the table the core held, watermarks included |
| TrustTable.WatermarksRise | crates/acrylius-proto/src/handshake.rs:53-70 | any two writes for a peer with no re-pairing or revocation after the first carry strictly increasing timestamps, the later at most `MAX_SKEW_MS` ahead of the wall clock that judged it |
| TrustTable.AcceptedOnce | crates/acrylius-core/src/core.rs:839-875 | a payload is accepted if and only if it decodes, its sender is known and it is fresh; once accepted, the same payload is refused |
| TrustTable.RestoredIsPassed | crates/acrylius-proto/src/handshake.rs:53-70 | until a re-pairing or a revocation every timestamp accepted lies above the watermark the host restored |
| TrustTable.RefusedEverAfter | crates/acrylius-core/src/core.rs:839-875 | in every reachable state, restarts included: a payload no newer than any watermark written or restored, and not reset since, is refused whatever the clocks say |
| TrustTable.ConfirmKeepsTrust | crates/acrylius-core/src/core.rs:1013-1057 | accepting files exactly the waiting record under its own id and nothing else; denying files nothing |
| TrustTable.LocalKeepsTrust | crates/acrylius-core/src/core.rs:1557-1684 | no local command but a confirmation adds a peer, changes a key or secret, or swaps a waiting confirmation; revoking drops the record in memory and on disk alike |
| TrustTable.RecvKeepsTrust | crates/acrylius-core/src/core.rs:653-941 | no received frame adds a peer or changes a key or secret; watermarks are written as they move |
| Runs.ReplayIsShown | crates/acrylius-core/src/core.rs:1082-1087 | the store the digest keeps is the store after carrying out every `Persist` of the log |
| Runs.RunIsLive | crates/acrylius-core/src/core.rs:373-487 | a life of calls from a fresh core is a run with no restart |
| Reach.MirrorStep | crates/acrylius-core/src/core.rs:1853-1979 | one call: sessions stay with paired peers; the announced set stays exact if and only if no unreadable frame takes down the only session with a peer; the parked link stays parked if and only if no session opener is accepted on it |
| Reach.MirrorHolds | crates/acrylius-core/src/core.rs:877-941 | in every reachable state of a run that meets neither exception, announcements name exactly the peers with a session, and every session is with a paired peer |
| Reach.SilentLossHappens | crates/acrylius-core/src/core.rs:653-657 | on any such state the session is gone after the frame and its peer still announced |
| Reach.ParkedOpensHappens | crates/acrylius-core/src/core.rs:723-763 | after such an opener the link a person is still asked about carries a session |
| Findings.SilentLossIsReached | crates/acrylius-core/src/core.rs:653-657 | three calls on a fresh core with one friend end in a peer announced that nobody can reach |
| Findings.ParkedOpenIsReached | crates/acrylius-core/src/core.rs:723-763 | four calls on a fresh core end in a session on the link a person is being asked about |
| Reach.MalformedMirrors | crates/acrylius-core/src/core.rs:653-657 | an unreadable frame breaks the mirror exactly when it lands on the only session with its peer |
| Reach.SessionOpenerMirrors | crates/acrylius-core/src/core.rs:723-763 | an opener leaves an established link if and only if it would be accepted, and then its peer is announced |
| Reach.TransportMirrors | crates/acrylius-core/src/core.rs:1093-1175 | a failed decrypt or misplaced frame takes a session down and keeps the mirror |
| PromptRate.PromptStep | crates/acrylius-core/src/core.rs:324-341 | one call, where at most one pairing is under way: cooldowns are kept; and again at most one is under way, only while the slot is held with nobody waiting, if and only if the call is not a tick that strands one |
| PromptRate.PromptsHold | crates/acrylius-core/src/core.rs:324-341 | the same in every reachable state of a run that strands none |
| Cooldowns.QuietStep | crates/acrylius-core/src/core.rs:1074-1080 | one call, however many pairings are under way: every cooldown still holds if and only if the call is neither the failure of a handshake whose ordinary cooldown ends sooner than a running denial cooldown, nor the end of a pairing link or dial while somebody else is being asked and was too recently for a free slot |
| Cooldowns.QuietHolds | crates/acrylius-core/src/core.rs:324-341 | cooldowns hold in every reachable state of a run with no such call |
| Cooldowns.PromptsAreApart | crates/acrylius-core/src/core.rs:1074-1080 | in such a run two prompts with no accepted pairing and no denial between them are the cooldown apart, no prompt follows a denial before the denial cooldown is over, and any two prompts with no accepted pairing between them are the shorter of the two apart |
| Cooldowns.AdmittedIsRested | crates/acrylius-core/src/core.rs:258-275 | whoever is let in to pair finds the slot empty, and every cooldown since the last prompt and the last denial over |
| Cooldowns.SingleIsPeaceful | crates/acrylius-core/src/core.rs:1853-1874 | a pairing that holds the slot never cuts a cooldown short |
| Cooldowns.OrderlyIsPeaceful | crates/acrylius-core/src/core.rs:1738-1755 | a run whose ticks strand no pairing never cuts a cooldown short |
| Findings.CooldownIsCut | crates/acrylius-core/src/core.rs:787-793 | seven moments of a fresh core: a request is stranded, a stranger is denied, the stranded dial is answered and fails, and the next prompt comes 102 ms after a denial that asks for 1000 |
| PromptRate.TickSpaces | crates/acrylius-core/src/core.rs:1738-1755 | a tick leaves a second pairing possible exactly when the window lapses while the one under way has a dial out or handshake time left |
| PromptRate.StrandHappens | crates/acrylius-core/src/core.rs:1738-1755 | whenever a granted request is still unanswered at the end of its window, its dial is left beside an empty slot |
| PromptRate.OpenerTakesFreeSlot | crates/acrylius-core/src/core.rs:680-716 | an inbound opener that is let in takes the free slot for one whole window and waits on its link; one that cannot be read starts the cooldown and nothing else; any other changes no pairing state; a busy slot or a running cooldown keeps everybody out |
| PairingWindow.PassiveIsOrderly | crates/acrylius-core/src/core.rs:258-275 | with no `RequestPairing` and a handshake timeout within the window: in every reachable state at most one pairing link handshakes, only while the slot is held with nothing awaiting, and prompts are spaced |
| PairingWindow.PassiveStep | crates/acrylius-core/src/core.rs:531-593 | each such call keeps every pairing link inside its window, so no tick can strand one |
| Timers.NextDeadline | crates/acrylius-core/src/core.rs:489-512 | the deadline is outstanding, no other is sooner, and there is none only when nothing is outstanding |
| Timers.TickClears | crates/acrylius-core/src/core.rs:1735-1851 | after a tick, with positive timeouts and wakes, nothing overdue is left anywhere and the next deadline is strictly later |
| Timers.GivingUpClears | crates/acrylius-core/src/core.rs:1757-1776 | a transfer given up on is no longer waited for, and no wait or wake became overdue meanwhile |
| Timers.ExpiringClears | crates/acrylius-core/src/core.rs:1803-1817 | an expired dial is gone, and the dials that follow it are due later |
| RouteWalk.RouteStep | crates/acrylius-core/src/core.rs:373-487 | one call: every attempt stays on track (its routes left ascend and lie on later transports than its last dial, which no other carries on), tokens are unique across both tables, a spent one never returns; the weight falls by one with every answer and rises by no more than what the call may start, ticks with a retry due included |
| RouteWalk.RoutesHold | crates/acrylius-core/src/core.rs:1300-1330 | in every state of a life every attempt is on track and no token is awaited twice |
| RouteWalk.WalkingEnds | crates/acrylius-core/src/core.rs:1300-1330 | over any calls, the answers taken are bounded by the weight there was and what the calls may have started |
| RouteWalk.TokensRise | crates/acrylius-core/src/core.rs:1316-1329 | later dials in the log carry greater tokens |
| RouteWalk.DialsInOrder | crates/acrylius-core/src/core.rs:1300-1330 | over a life, whatever happens in between: a dial that carries an attempt on comes after the one it carries on, on a strictly later transport, and no other dial carries on the same |
| RouteWalk.AttemptAscends | crates/acrylius-core/src/core.rs:1300-1330 | the dials of one attempt are on strictly ascending transports, so on each at most once, whatever refusals, time-outs, lost links and other calls lie between |
| Attempts.WholeAttempt | crates/acrylius-core/src/core.rs:1350-1430 | a person asks and every way in is refused or dies: each known route is dialled exactly once, ascending, then `PeerUnreachable` is said |
| RouteWalk.TryNextMarches | crates/acrylius-core/src/core.rs:1300-1330 | trying the next route costs no more than twice the routes left |
| RouteWalk.LinkDownMarches | crates/acrylius-core/src/core.rs:1853-1874 | a dialled link that dies costs its attempt at least one |
| RouteWalk.LinkUpMarches | crates/acrylius-core/src/core.rs:531-593 | a link that answers a dial costs its attempt at least one |
| RouteWalk.DialFailedMarches | crates/acrylius-core/src/core.rs:384-395 | a failed dial costs its attempt at least one |
| RouteWalk.RecvMarches | crates/acrylius-core/src/core.rs:653-836 | a frame on a dialled link settles its attempt and no other |
| RouteWalk.TickMarches | crates/acrylius-core/src/core.rs:1778-1817 | a tick lowers the weight whenever an attempt ran out of time, but for what a retry that is due may start |
| RouteWalk.BetterAscends | crates/acrylius-core/src/core.rs:1390-1396 | the routes kept are known ones on a strictly better transport, in order |
| RouteWalk.RouteListAscends | crates/acrylius-core/src/link.rs:74-76 | routes are listed in strictly ascending order of transport |
| RouteWalk.LearntIsListed | crates/acrylius-core/src/link.rs:52-54 | the routes tried next are those known before on the other transports, and the one just learnt |
| RouteWalk.SightedIsBounded | crates/acrylius-core/src/core.rs:401-412 | a sighting is kept with its address; what is in sight never outgrows the cap; everything else stays in sight unless the cap was reached |
| ErrorReplies.EndsAgree | crates/acrylius-proto/src/handshake.rs:75-85 | when both ends finish a handshake in which each read what the other says of itself, what one may send is what the other may receive, both ways |
| ErrorReplies.RepliesAreWelcome | crates/acrylius-core/src/core.rs:1128-1197 | whatever is sent in answer to a message leaves on an established link whose negotiated set has its capability |
| ErrorReplies.ErrorIsFinal | crates/acrylius-core/src/core.rs:1143-1152 | a received `err` under an acceptable capability is shown and changes and sends nothing else |
| ErrorReplies.ErrorStep | crates/acrylius-core/src/core.rs:1128-1197 | one call sends at most one error of the core's own, and only on a message that is not itself an acceptable error |
| ErrorReplies.ErrorsAreProvoked | crates/acrylius-core/src/core.rs:1137-1197 | over one core's life the errors it sent never outnumber such messages |
| TwoCores.FairStep | crates/acrylius-core/src/core.rs:839-941 | one call of one end, links losing, repeating and reordering as they like: every session it holds with the other core may carry exactly what the two have in common, and nothing else was ever said on one |
| TwoCores.JoinedHolds | crates/acrylius-core/src/core.rs:877-941 | the same of both ends in every state two cores reach together, for as long as a session lasts |
| TwoCores.EndsStayAgreed | crates/acrylius-proto/src/handshake.rs:75-85 | what one end of a session may send is what the other may receive, for as long as both have it |
| TwoCores.ErrorIsHarmless | crates/acrylius-core/src/core.rs:1143-1152 | an error that opens on a session with the other core is one the session may carry: it is shown, nothing is sent and nothing else changes in the log |
| TwoCores.NoChainsBetween | crates/acrylius-core/src/core.rs:1137-1197 | the errors two cores sent together never outnumber the messages delivered that were no errors, so they never answer each other's errors |
| ErrorReplies.SendIsWelcome | crates/acrylius-core/src/core.rs:1200-1256 | one send goes out only under a capability its link may carry |
| Protocol.BestLink | crates/acrylius-core/src/core.rs:1452-1462 | there is a best link exactly when the peer has a session, and it is one |
| Protocol.PeerStateOf | crates/acrylius-core/src/core.rs:351-370 | reachable only with a session, unreachable only without |
| Protocol.BestExists | crates/acrylius-core/src/core.rs:1452-1462 | a peer with a session has a session at least as good as every other |
| InPlace.Core.constructor | crates/acrylius-core/src/core.rs:2027-2080 | a new core holds the restored records filed under their own keys, and nothing else |
| InPlace.Core.Revive | crates/acrylius-core/src/core.rs:2027-2080 | a core started over from the store is the one the run theorems restart with |
| InPlace.Core.Handle | crates/acrylius-core/src/core.rs:373-487 | the state moves as `Protocol.Handle`, the actions returned are exactly those added to the log, and the deadline is the least outstanding; trust and attempts under way are kept, announcements stay exact if and only if the call is no silent loss, and after a tick the deadline is strictly later |
| InPlace.Core.NextDeadline | crates/acrylius-core/src/core.rs:489-512 | walking every table finds the least outstanding deadline |
| InPlace.Core.RememberOwner | crates/acrylius-core/src/core.rs:1260-1269 | every effect and every transfer but a cancelled one is noted to its plugin |
| InPlace.Core.AdoptAttempt | crates/acrylius-core/src/core.rs:1334-1348 | every attempt to reach the peer, dialled or handshaking, counts as asked for by hand, and no other changes |
| InPlace.Serve | crates/acrylius-core/src/core.rs:373-487 | a host that calls a core any number of times, carries out what it persists and now and then starts it over from the store holds the state of that run: its table is the store, trust holds, and with no restart every attempt is on track |
| InPlace.Store | crates/acrylius-core/src/core.rs:1082-1087 | the loop carries out every `Persist` of one call, in order |
| Fragments.Fragment | crates/acrylius-proto/src/ble.rs:47-67 | the loop cuts a message into the fragments `Cut` names |
| Fragments.Reassembler.Push | crates/acrylius-proto/src/ble.rs:92-117 | one fragment in place: state and outcome as `Feed`; the buffer never exceeds the limit and is empty when closed |
| Fragments.RoundTrip | crates/acrylius-proto/src/ble.rs:47-117 | any messages within the limit, cut at any size and fed to a closed reassembler, come back as that list, with no error on the way |
| Fragments.Resync | crates/acrylius-proto/src/ble.rs:87-122 | after any garbage, from any state: the second of two whole messages arrives, and the first unless it ran into an unfinished one, and nothing else |
| Fragments.FragmentsFit | crates/acrylius-proto/src/ble.rs:42-48 | no fragment exceeds the size asked for, with 1 treated as 2 |
| Fragments.FeedKeepsTail | crates/acrylius-proto/src/ble.rs:92-117 | what is kept and what is delivered are the payloads of the latest fragments, no others |
| Fragments.CutCollides | crates/acrylius-proto/src/ble.rs:101-105 | a message begun while another is open costs both and leaves the reassembler closed |
| BleSlot.Slot.Write | crates/acrylius-linux/src/ble.rs:500-577 | a write from another device than the holder changes nothing; any other begins a link if there is none and ends, with what the reassembler makes of it, in nothing, one message or the link going down |
| BleSlot.Slot.Take | crates/acrylius-linux/src/ble.rs:562-576 | a fragment leads to nothing, one message, or the link going down |
| BleSlot.Slot.DropFor | crates/acrylius-linux/src/ble.rs:251-262 | the link goes down, and is said to, exactly when that device holds it |
| BleSlot.Slot.Close | crates/acrylius-linux/src/ble.rs:900-932 | the link goes down, and is said to, exactly when it is the one named |
| BleSlot.TraceIsProper | crates/acrylius-linux/src/ble.rs:500-577 | what the core is sent is `LinkUp LinkRecv* LinkDown` over and over, only the last perhaps open |
| BleSlot.MessagesAreFromOneDevice | crates/acrylius-linux/src/ble.rs:557-576 | each message is put together from fragments one device wrote while that very link was up |
| BleSlot.LinksAreFresh | crates/acrylius-linux/src/ble.rs:119-121 | no link id comes up twice until the counter wraps |
| BleSlot.LinkIdsDiffer | crates/acrylius-core/src/link.rs:31-43 | an id gives its transport back, and two ids are equal exactly when transport and counter are |
| BleSlot.Play | crates/acrylius-linux/src/ble.rs:500-627 | all of these under any interleaving of the callbacks |
| Base64.Bijection | crates/acrylius-proto/src/b64.rs:32-78 | decoding undoes encoding, and a string decodes to some bytes if and only if it is their encoding |
| Base64.WhichError | crates/acrylius-proto/src/b64.rs:46-77 | an impossible length first, then the first character outside the alphabet, and only then bits to spare |
| Base64.Encode | crates/acrylius-proto/src/b64.rs:32-45 | the loops produce `Encoded` |
| Base64.Decode | crates/acrylius-proto/src/b64.rs:46-78 | the loops produce `Decoded`, errors included |
| Base64.ParseAcceptsSpellings | crates/acrylius-proto/src/ids.rs:36-45 | `parse` accepts exactly the spellings of values of the right size and keeps the text |
| Base64.Parse | crates/acrylius-proto/src/ids.rs:36-45 | the same, by decoding first |
| Base64.DecodeExact | crates/acrylius-proto/src/b64.rs:80-86 | bytes of the size asked for come back exactly when the text is their encoding, and a wrong size is told apart from text that does not decode |
| Base64.IdLengths | crates/acrylius-proto/src/ids.rs:56-71 | a fingerprint has 43 characters and a device id 22 |
| Base64.SymbolsAreValues | crates/acrylius-proto/src/b64.rs:7-18 | the reverse table undoes the alphabet, and nothing else is in it |
| BulkChannel.AllOrNothing | crates/acrylius-rt/src/bulk.rs:79-116 | when the size offered is the file's, any stream of bytes is received if and only if it is the honest one (but for at most three bytes after it), and then as exactly the file |
| BulkChannel.NothingButTheFile | crates/acrylius-rt/src/bulk.rs:79-116 | whatever size was offered and whatever the stream: what is received has exactly that size and is the first chunks of the file, in order |
| BulkChannel.Disk.Receive | crates/acrylius-rt/src/bulk.rs:79-116 | the async receiver: success leaves the file at the destination, failure leaves the destination as it was, and no temporary stays |
| BulkChannel.Disk.ReceiveBlocking | crates/acrylius-ffi/src/bulk.rs:165-221 | the blocking receiver has the same outcome on every stream |
| BulkChannel.Stream.NextFrame | crates/acrylius-rt/src/bulk.rs:21-35 | one frame, an end (a cut length counts as one), or an error |
| BulkChannel.Send | crates/acrylius-rt/src/bulk.rs:119-141 | the stream is the greeting and each sealed chunk with its length, and the count is the file's size |
| BulkChannel.Transfer | crates/acrylius-ffi/src/bulk.rs:27-51 | a file sent is the file received, by either receiver |
| BulkChannel.HelloRoundTrip | crates/acrylius-proto/src/bulk.rs:40-61 | a greeting is read as a transfer if and only if it is that transfer's |
| Touchpad.Slots.Frame | crates/acrylius-linux/src/touchpad.rs:72-161 | in place over the slots: new slots and events as `Framed` and `FrameEvents` |
| Touchpad.Slots.ReleaseAll | crates/acrylius-linux/src/touchpad.rs:165-167 | lifting everything is a frame of no fingers |
| Touchpad.FrameShows | crates/acrylius-linux/src/touchpad.rs:72-161 | at the one report of a frame of at most ten distinct fingers the kernel has exactly one contact per finger at its coordinates, keys and axes match, and a finger still down keeps slot and tracking id |
| Touchpad.RunShows | crates/acrylius-linux/src/touchpad.rs:72-161 | the same at every report of any run of such frames |
| Touchpad.IdsCountUp | crates/acrylius-linux/src/touchpad.rs:113-123 | whatever the frames, contacts get ids 1, 2, 3 and so on, cycling after 2^31 - 1 |
| Touchpad.IdsAreFresh | crates/acrylius-linux/src/touchpad.rs:119-122 | no two of any 2^31 - 1 contacts in a row share an id |
| Touchpad.RoomFor | crates/acrylius-linux/src/touchpad.rs:95-107 | a frame that fits always finds a slot for every finger |
| TouchEffects.OnlyRecordsCount | crates/acrylius-linux/src/touchpad.rs:293-343 | whatever order operations arrive in, exactly those higher than all before are applied, in that order, and the highest delivered is the last applied |
| TouchEffects.RepeatsAreIgnored | crates/acrylius-linux/src/touchpad.rs:293-316 | delivering an operation again changes nothing |
| TouchEffects.Effector.Run | crates/acrylius-linux/src/touchpad.rs:311-343 | one operation in place, as `Deliver` |
| Playout.Pacer.Due | crates/acrylius-linux/src/usb.rs:64-77 | a sample leaves between its arrival and a playout later, whatever its stamp |
| Playout.SpacingIsKept | crates/acrylius-linux/src/usb.rs:64-77 | two on-time samples under one anchor leave exactly as far apart as they were taken, across the wrap of the clock |
| Playout.FreshAnchor | crates/acrylius-linux/src/usb.rs:67-74 | a sample that sets the anchor leaves a playout after it arrived and is on time for it |
| Playout.Session.Wake | crates/acrylius-linux/src/usb.rs:171-177 | exactly the leading messages that are due are applied, in order, and nothing waits that arrived a playout ago |
| Playout.Session.Arrive | crates/acrylius-linux/src/usb.rs:182-206 | a message goes to the back of the queue, due as its stamp, the anchor and a new gesture make it |
| Playout.Session.Stalled | crates/acrylius-linux/src/usb.rs:209-214 | silence with fingers down and an empty queue lifts them, once |
| Playout.Play | crates/acrylius-linux/src/usb.rs:171-216 | however reading, waking and stalling follow one another, what was applied is a first part of what arrived, in order |
| Reconcile.EveryPath | crates/acryliusd/src/reconcile.rs:46-70 | at every path: a value the file had is kept; a setting it lacked is the reference's unless the user's own table or a non-table is in the way; nothing else appears |
| Reconcile.ReportedIffChanged | crates/acryliusd/src/reconcile.rs:33-44 | nothing is reported exactly when nothing changed |
| Reconcile.Idempotent | crates/acryliusd/src/reconcile.rs:46-70 | merging again adds nothing |
| Reconcile.UnknownUnchanged | crates/acryliusd/src/reconcile.rs:188-219 | the keys unknown to the schema are the same before and after |
| Reconcile.OrderKept | crates/acryliusd/src/reconcile.rs:46-70 | the file keeps the order it was written in, and what is new comes after |
| Reconcile.MergeTable | crates/acryliusd/src/reconcile.rs:46-70 | the loop and its recursion produce `Merge`, added paths in order |
| Reconcile.CollectUnknown | crates/acryliusd/src/reconcile.rs:200-219 | the loop and its recursion produce `Unknown` |

## Left out

- Reach.MirrorHolds: one life of a core only, since a new process has announced nothing; and runs that meet neither exception of `Reach.MirrorStep`.
- Cooldowns.PromptsAreApart: one life of a core with no call that `Cooldowns.QuietStep` names; across a denial the distance is the denial cooldown, which a configuration may set shorter than the other.
- TrustTable.TrustHolds: the restored records are ones a core once wrote, so a record filed under its own key carries its own id.
- RouteWalk.RouteStep: one life of a core, since tokens start over with a new one; what a call may start is an upper bound (a connect that finds a session starts nothing).
- RouteWalk.AttemptAscends: one life of a core; which dial carries on which is noted on the action and in the attempt, and the source keeps no such note.
- Attempts.WholeAttempt: setbacks are refused dials and links that die before an answer, with no other call between; `RouteWalk.AttemptAscends` is the order under any calls.
- TwoCores.NoChainsBetween: two cores in one life each; an `err` a plugin chooses to send counts as the plugin's message, and the session cipher and the handshake are ideal (what opens on a link was sent on it).
- Timers.TickClears: assumes timeouts and the wakes plugins ask for are at least a millisecond; `wake_in` would take zero.
- InPlace.Core.Handle: plugins, transports and the cryptography are parameters, so what a plugin does with a call is not modelled beyond what it asks the core for.
- Plugins show only `Plugin` and `Error` events; the source's `Cx::ui` (crates/acrylius-core/src/plugin.rs) takes any. A plugin that announced peers, prompts or pairings itself would break what the trust, reachability and cooldown theorems say of the core's own announcements.
- BleSlot.Slot.Write: whether a holder is still connected is asked of the system; a holder found gone is a `DropFor` before the write, with the lock let go between.
- BulkChannel.AllOrNothing: the cipher is ideal, the key has its 32 bytes, and the file system takes what it is given; a connection that breaks with another error than an end is a failure in the source and is not modelled.
- Reconcile.MergeTable: tables are values rebuilt along the path instead of changed in place, because nested mutable tables would need ownership the laws do not depend on; comments and layout are not modelled.
- Touchpad.FrameShows: a frame of more than ten fingers, or one that names a finger twice, still runs as `Framed` says but has no picture to match.
- Unbounded clocks and counters: 64-bit overflow is not modelled; the 32-bit message id, tracking id and sample clock are.
- Key derivation, hashing, CBOR, `safe_name`, sockets, mDNS, D-Bus, uinput ioctls, the control socket and the apps' screens.
- The contents of `nearby()`, the manifest bookkeeping of the builder, and sorting of capability lists: they would add only easy members.

/** Touches over USB: when each sample is played, and in what order. Times are
    microseconds. */
module Playout {
  import opened Wrappers

  const PLAYOUT: nat := 10_000
  const STALL: nat := 300_000
  const CLOCK: int := 0x1_0000_0000

  type Stamp = x: int | 0 <= x < CLOCK

  /** `wrapping_sub` on 32 bits. */
  function Since(t: Stamp, t0: Stamp): nat {
    (t - t0) % CLOCK
  }

  datatype Anchor = Anchor(at: nat, t0: Stamp)

  /** When a sample was taken, by the anchor's clock. */
  function Predicted(a: Option<Anchor>, t: Stamp): Option<nat> {
    if a.None? then None else Some(a.value.at + Since(t, a.value.t0))
  }

  /** A prediction that lies ahead of the arrival is wrong: anchor afresh. */
  function Reanchored(a: Option<Anchor>, t: Stamp, arrived: nat): Option<Anchor> {
    var p := Predicted(a, t);
    if p.Some? && p.value <= arrived then a else Some(Anchor(arrived, t))
  }

  function DueAt(a: Option<Anchor>, t: Stamp, arrived: nat): nat {
    var p := Predicted(a, t);
    var base := if p.Some? && p.value <= arrived then p.value else arrived;
    if base + PLAYOUT >= arrived then base + PLAYOUT else arrived
  }

  class Pacer {
    var anchor: Option<Anchor>

    constructor ()
      ensures anchor == None
    {
      anchor := None;
    }

    method Due(t: Stamp, arrived: nat) returns (due: nat)
      modifies this
      ensures anchor == Reanchored(old(anchor), t, arrived)
      ensures due == DueAt(old(anchor), t, arrived)
      ensures arrived <= due <= arrived + PLAYOUT
    {
      var predicted := arrived;
      if anchor.Some? && anchor.value.at + Since(t, anchor.value.t0) <= arrived {
        predicted := anchor.value.at + Since(t, anchor.value.t0);
      } else {
        anchor := Some(Anchor(arrived, t));
      }
      due := predicted + PLAYOUT;
      if due < arrived { due := arrived; }
    }
  }

  /** The anchor predicts a time by which the sample has arrived, and it arrived
      no more than the playout after. */
  predicate OnTime(a: Anchor, t: Stamp, arrived: nat) {
    a.at + Since(t, a.t0) <= arrived <= a.at + Since(t, a.t0) + PLAYOUT
  }

  /** On-time samples leave the anchor alone, and two of them leave exactly as
      far apart as they were taken, across the wrap of the clock. */
  lemma SpacingIsKept(a: Anchor, t: Stamp, arrivedT: nat, u: Stamp, arrivedU: nat)
    requires OnTime(a, t, arrivedT) && OnTime(a, u, arrivedU) && Since(t, a.t0) <= Since(u, a.t0)
    ensures Reanchored(Some(a), t, arrivedT) == Some(a) == Reanchored(Some(a), u, arrivedU)
    ensures DueAt(Some(a), u, arrivedU) - DueAt(Some(a), t, arrivedT) == Since(u, t)
  {
    SinceAdds(t, u, a.t0);
  }

  /** The first stamped sample after an anchor is dropped leaves a playout after
      it arrived, and times those that follow. */
  lemma FreshAnchor(t: Stamp, arrived: nat)
    ensures DueAt(None, t, arrived) == arrived + PLAYOUT
    ensures Reanchored(None, t, arrived) == Some(Anchor(arrived, t)) && OnTime(Anchor(arrived, t), t, arrived)
  {
  }

  lemma SinceAdds(t: Stamp, u: Stamp, t0: Stamp)
    requires Since(t, t0) <= Since(u, t0)
    ensures Since(u, t0) - Since(t, t0) == Since(u, t)
  {
    assert Since(t, t0) == if t >= t0 then t - t0 else t - t0 + CLOCK;
    assert Since(u, t0) == if u >= t0 then u - t0 else u - t0 + CLOCK;
    assert Since(u, t) == if u >= t then u - t else u - t + CLOCK;
  }

  // ----------------------------------------------------------------- the session

  datatype Msg = Begin(w: nat, h: nat) | Frame(points: seq<(nat, nat, nat)>, stamp: Option<Stamp>) | End

  datatype Queued = Queued(due: nat, msg: Msg)

  /** What the device is told. */
  datatype Did = Apply(msg: Msg) | Release

  function Applied(done: seq<Did>): seq<Msg> {
    if done == [] then [] else
      Applied(done[..|done| - 1]) + if done[|done| - 1].Apply? then [done[|done| - 1].msg] else []
  }

  function Waiting(queue: seq<Queued>): seq<Msg> {
    seq(|queue|, i requires 0 <= i < |queue| => queue[i].msg)
  }

  /** What an arrival does to the pacing: its due time, the anchor, and whether a
      gesture is under way. A new gesture starts from a fresh anchor. */
  function Paced(gesture: bool, anchor: Option<Anchor>, msg: Msg, at: nat): (nat, Option<Anchor>, bool) {
    match msg
    case Frame(points, stamp) =>
      var a := if gesture then anchor else None;
      if stamp.None? then (at, a, points != [])
      else (DueAt(a, stamp.value, at), Reanchored(a, stamp.value, at), points != [])
    case Begin(_, _) => (at, anchor, gesture)
    case End => (at, anchor, false)
  }

  function Told(queue: seq<Queued>): seq<Did> {
    seq(|queue|, i requires 0 <= i < |queue| => Apply(queue[i].msg))
  }

  lemma ToldMore(done: seq<Did>, queue: seq<Queued>, n: nat)
    requires n < |queue|
    ensures done + Told(queue[..n + 1]) == done + Told(queue[..n]) + [Apply(queue[n].msg)]
    ensures queue[n..][0] == queue[n] && queue[n..][1..] == queue[n + 1..]
  {
  }

  /** Each message is eligible within the playout of its arrival, whatever its
      stamp, and they arrived in this order. */
  ghost predicate InTime(queue: seq<Queued>, arrived: seq<nat>, clock: nat) {
    && |arrived| == |queue|
    && (forall i :: 0 <= i < |queue| ==> arrived[i] <= queue[i].due <= arrived[i] + PLAYOUT && arrived[i] <= clock)
    && forall i, j :: 0 <= i < j < |queue| ==> arrived[i] <= arrived[j]
  }

  /** Fingers are down after the last thing told. */
  function FingersDown(done: seq<Did>): bool {
    if done == [] then false else
      match done[|done| - 1]
      case Apply(Frame(points, _)) => points != []
      case Apply(Begin(_, _)) => FingersDown(done[..|done| - 1])
      case Apply(End) => false
      case Release => false
  }

  class Session {
    var queue: seq<Queued>
    var pacer: Pacer
    var queuedDown: bool
    var down: bool
    var lastHeard: nat
    var done: seq<Did>
    ghost var arrivals: seq<Msg>
    ghost var arrived: seq<nat>
    ghost var clock: nat

    /** Every message that arrived was applied or waits, in order of arrival. */
    ghost predicate Valid()
      reads this
    {
      && Applied(done) + Waiting(queue) == arrivals
      && InTime(queue, arrived, clock)
      && down == FingersDown(done)
    }

    constructor (now: nat)
      ensures Valid() && fresh(pacer) && done == [] && queue == [] && arrivals == [] && clock == now
    {
      queue, queuedDown, down, lastHeard, done := [], false, false, now, [];
      arrivals, arrived, clock := [], [], now;
      pacer := new Pacer();
    }

    method Take(msg: Msg)
      modifies this`done, this`down
      requires down == FingersDown(done)
      ensures done == old(done) + [Apply(msg)] && Applied(done) == Applied(old(done)) + [msg]
      ensures down == FingersDown(done)
    {
      match msg {
        case Frame(points, _) => down := points != [];
        case End => down := false;
        case Begin(_, _) =>
      }
      done := done + [Apply(msg)];
      assert done[..|done| - 1] == old(done);
    }

    /** The first in the queue is applied. */
    method PopFront()
      requires Valid() && queue != []
      modifies this`queue, this`done, this`down, this`arrived
      ensures Valid() && queue == old(queue)[1..]
      ensures done == old(done) + [Apply(old(queue)[0].msg)]
    {
      ghost var (before, waiting) := (Applied(done), Waiting(queue));
      Take(queue[0].msg);
      queue, arrived := queue[1..], arrived[1..];
      assert waiting == [waiting[0]] + Waiting(queue);
      assert before + waiting == before + [waiting[0]] + Waiting(queue);
    }

    /** Apply everything that is due. Afterwards nothing waits that arrived a
        whole playout ago. */
    method Wake(now: nat)
      requires Valid() && clock <= now
      modifies this`queue, this`done, this`down, this`clock, this`arrived
      ensures Valid() && arrivals == old(arrivals) && clock == now
      ensures forall i :: 0 <= i < |queue| ==> now < arrived[i] + PLAYOUT
      ensures queue == [] || queue[0].due > now
      ensures |queue| <= |old(queue)|
      ensures var n := |old(queue)| - |queue|;
        && queue == old(queue)[n..] && done == old(done) + Told(old(queue)[..n])
        && forall i :: 0 <= i < n ==> old(queue)[i].due <= now
    {
      clock := now;
      ghost var (waiting, before, n) := (queue, done, 0);
      while queue != [] && queue[0].due <= now
        invariant Valid() && clock == now && arrivals == old(arrivals)
        invariant 0 <= n <= |waiting| && queue == waiting[n..] && done == before + Told(waiting[..n])
        invariant forall i :: 0 <= i < n ==> waiting[i].due <= now
        decreases |queue|
      {
        ToldMore(before, waiting, n);
        PopFront();
        n := n + 1;
      }
    }

    method Enqueue(due: nat, msg: Msg, at: nat)
      requires Valid() && clock == at && at <= due <= at + PLAYOUT
      modifies this`queue, this`arrivals, this`arrived
      ensures Valid() && arrivals == old(arrivals) + [msg]
      ensures queue == old(queue) + [Queued(due, msg)] && arrived == old(arrived) + [at]
    {
      ghost var (applied, waiting) := (Applied(done), Waiting(queue));
      queue := queue + [Queued(due, msg)];
      arrivals, arrived := arrivals + [msg], arrived + [at];
      assert Waiting(queue) == waiting + [msg];
      assert applied + (waiting + [msg]) == applied + waiting + [msg];
    }

    /** A message was read. */
    method Arrive(msg: Msg, at: nat)
      requires Valid() && clock <= at
      modifies this, pacer
      ensures Valid() && (pacer == old(pacer) || fresh(pacer))
      ensures arrivals == old(arrivals) + [msg] && done == old(done) && clock == at && lastHeard == at
      ensures arrived == old(arrived) + [at]
      ensures queue != [] && queue[..|queue| - 1] == old(queue) && queue[|queue| - 1].msg == msg
      ensures (queue[|queue| - 1].due, pacer.anchor, queuedDown) == Paced(old(queuedDown), old(pacer.anchor), msg, at)
    {
      clock, lastHeard := at, at;
      var due := at;
      match msg {
        case Frame(points, stamp) =>
          if !queuedDown { pacer := new Pacer(); }
          queuedDown := points != [];
          if stamp.Some? { due := pacer.Due(stamp.value, at); }
        case Begin(_, _) =>
        case End => queuedDown := false;
      }
      Enqueue(due, msg, at);
    }

    /** Silence with fingers down: lift them. */
    method Stalled(now: nat)
      requires Valid() && clock <= now
      modifies this`down, this`done, this`clock
      ensures Valid() && arrivals == old(arrivals) && queue == old(queue) && clock == now
      ensures done == if old(down) && queue == [] && lastHeard + STALL <= now then old(done) + [Release] else old(done)
    {
      clock := now;
      if down && queue == [] && lastHeard + STALL <= now {
        down := false;
        done := done + [Release];
        assert done[..|done| - 1] == old(done);
      }
    }
  }

  datatype Turn = Reads(msg: Msg, at: nat) | Wakes(at: nat) | Stalls(at: nat)

  predicate TimeGoesOn(start: nat, turns: seq<Turn>) {
    && (forall i :: 0 <= i < |turns| ==> start <= turns[i].at)
    && (forall i, j :: 0 <= i < j < |turns| ==> turns[i].at <= turns[j].at)
  }

  function Read(turns: seq<Turn>): seq<Msg> {
    if turns == [] then [] else
      Read(turns[..|turns| - 1]) + if turns[|turns| - 1].Reads? then [turns[|turns| - 1].msg] else []
  }

  /** However reading, waking and stalling follow one another: what was applied
      is a first part of what arrived, in the order it arrived, and a last wake
      leaves out only what arrived less than a playout before it. */
  method Play(start: nat, turns: seq<Turn>, last: nat) returns (done: seq<Did>, left: seq<Msg>, ghost arrived: seq<nat>)
    requires TimeGoesOn(start, turns) && start <= last
    requires turns != [] ==> turns[|turns| - 1].at <= last
    ensures Applied(done) + left == Read(turns)
    ensures |arrived| == |left| && forall i :: 0 <= i < |left| ==> last < arrived[i] + PLAYOUT
  {
    var s := new Session(start);
    for n := 0 to |turns|
      invariant fresh(s) && fresh(s.pacer) && s.Valid() && s.arrivals == Read(turns[..n])
      invariant s.clock <= if n == 0 then start else turns[n - 1].at
    {
      assert turns[..n + 1][..n] == turns[..n];
      match turns[n]
      case Reads(msg, at) => s.Arrive(msg, at);
      case Wakes(at) => s.Wake(at);
      case Stalls(at) => s.Stalled(at);
    }
    assert turns[..|turns|] == turns;
    s.Wake(last);
    done, left, arrived := s.done, Waiting(s.queue), s.arrived;
  }
}

/** Fingers into evdev slots, checked against what the kernel makes of the
    events: the type B protocol, one contact per slot. */
module Touchpad {
  import opened Wrappers

  const SLOTS: nat := 10
  const TOOLS: nat := 5
  const MAX_ID: int := 0x7FFF_FFFF

  type FingerId = nat

  datatype Point = Point(id: FingerId, x: nat, y: nat)

  datatype Ev =
    | MtSlot(slot: nat)
    | MtTracking(id: int)
    | MtX(x: int)
    | MtY(y: int)
    | AbsX(x: int)
    | AbsY(y: int)
    | Touch(down: bool)
    | Tool(nth: nat, on: bool)
    | Syn

  // ---------------------------------------------------------------- the allocator

  /** Which finger each slot holds, and the next tracking id. */
  datatype Pad = Pad(held: seq<Option<FingerId>>, next: int)

  predicate Shaped(p: Pad) {
    |p.held| == SLOTS && 1 <= p.next <= MAX_ID
  }

  /** `wrapping_add(1).max(1)` on 32 bits. */
  function Succ(n: int): int {
    if n == MAX_ID then 1 else if n + 1 > 1 then n + 1 else 1
  }

  predicate Down(points: seq<Point>, id: FingerId) {
    exists j :: 0 <= j < |points| && points[j].id == id
  }

  /** The lowest slot that holds `x`. */
  function Find(held: seq<Option<FingerId>>, x: Option<FingerId>): (r: Option<nat>)
    ensures r.None? <==> x !in held
    ensures r.Some? ==> r.value < |held| && held[r.value] == x && x !in held[..r.value]
  {
    if held == [] then None
    else if held[0] == x then Some(0)
    else
      var r := Find(held[1..], x);
      assert held == [held[0]] + held[1..];
      if r.None? then None else
        assert held[..r.value + 1] == [held[0]] + held[1..][..r.value];
        Some(r.value + 1)
  }

  predicate Lifts(held: seq<Option<FingerId>>, points: seq<Point>, slot: nat)
    requires slot < |held|
  {
    held[slot].Some? && !Down(points, held[slot].value)
  }

  /** The slots after lifting, the first `n` of them gone through. */
  function Lifted(held: seq<Option<FingerId>>, points: seq<Point>, n: nat): (r: seq<Option<FingerId>>)
    requires n <= |held|
    ensures |r| == |held|
    ensures forall i :: 0 <= i < |held| ==> r[i] == if i < n && Lifts(held, points, i) then None else held[i]
  {
    seq(|held|, i requires 0 <= i < |held| => if i < n && Lifts(held, points, i) then None else held[i])
  }

  function LiftEvents(held: seq<Option<FingerId>>, points: seq<Point>, n: nat): (evs: seq<Ev>)
    requires n <= |held|
    ensures Syn !in evs
  {
    if n == 0 then []
    else LiftEvents(held, points, n - 1) + if Lifts(held, points, n - 1) then [MtSlot(n - 1), MtTracking(-1)] else []
  }

  /** Where a point goes: the slot of its finger, else the lowest free one. */
  function SlotFor(p: Pad, id: FingerId): Option<nat> {
    if Find(p.held, Some(id)).Some? then Find(p.held, Some(id)) else Find(p.held, None)
  }

  function Place(p: Pad, pt: Point): (r: Pad)
    requires Shaped(p)
    ensures Shaped(r)
  {
    var s := SlotFor(p, pt.id);
    if s.None? || p.held[s.value].Some? then p else Pad(p.held[s.value := Some(pt.id)], Succ(p.next))
  }

  function PlaceEvents(p: Pad, pt: Point): (evs: seq<Ev>)
    requires Shaped(p)
    ensures Syn !in evs
  {
    var s := SlotFor(p, pt.id);
    if s.None? then []
    else [MtSlot(s.value)] + (if p.held[s.value].None? then [MtTracking(p.next)] else []) + [MtX(pt.x), MtY(pt.y)]
  }

  function PlaceAll(p: Pad, points: seq<Point>): (r: Pad)
    requires Shaped(p)
    ensures Shaped(r)
  {
    if points == [] then p else Place(PlaceAll(p, points[..|points| - 1]), points[|points| - 1])
  }

  function PlaceAllEvents(p: Pad, points: seq<Point>): (evs: seq<Ev>)
    requires Shaped(p)
    ensures Syn !in evs
  {
    if points == [] then [] else
      var front := points[..|points| - 1];
      PlaceAllEvents(p, front) + PlaceEvents(PlaceAll(p, front), points[|points| - 1])
  }

  function Count(held: seq<Option<FingerId>>): nat {
    if held == [] then 0 else Count(held[..|held| - 1]) + if held[|held| - 1].Some? then 1 else 0
  }

  function FirstHeld(held: seq<Option<FingerId>>): (r: Option<nat>)
    ensures r.None? <==> forall i :: 0 <= i < |held| ==> held[i].None?
    ensures r.Some? ==> r.value < |held| && held[r.value].Some? && forall i :: 0 <= i < r.value ==> held[i].None?
  {
    if held == [] then None
    else if held[0].Some? then Some(0)
    else
      var r := FirstHeld(held[1..]);
      if r.None? then None else
        assert forall i :: 0 < i < |held| ==> held[i] == held[1..][i - 1];
        Some(r.value + 1)
  }

  function PointOf(points: seq<Point>, id: FingerId): (r: Option<Point>)
    ensures r.Some? <==> Down(points, id)
    ensures r.Some? ==> r.value in points && r.value.id == id
  {
    if points == [] then None
    else if points[0].id == id then Some(points[0])
    else
      assert forall j :: 0 < j < |points| ==> points[j] == points[1..][j - 1];
      PointOf(points[1..], id)
  }

  function Axes(held: seq<Option<FingerId>>, points: seq<Point>): seq<Ev> {
    var first := FirstHeld(held);
    if first.None? then [] else
      var p := PointOf(points, held[first.value].value);
      if p.None? then [] else [AbsX(p.value.x), AbsY(p.value.y)]
  }

  function ToolEvents(capped: nat, n: nat): seq<Ev> {
    if n == 0 then [] else ToolEvents(capped, n - 1) + [Tool(n, capped == n)]
  }

  function Capped(down: nat): nat {
    if down < TOOLS then down else TOOLS
  }

  /** What one frame does to the slots. */
  function Framed(p: Pad, points: seq<Point>): (r: Pad)
    requires Shaped(p)
    ensures Shaped(r)
  {
    PlaceAll(Pad(Lifted(p.held, points, SLOTS), p.next), points)
  }

  /** The events of one frame. */
  function FrameEvents(p: Pad, points: seq<Point>): seq<Ev>
    requires Shaped(p)
  {
    var after := Framed(p, points);
    ContactEvents(p, points)
    + (Axes(after.held, points) + [Touch(Count(after.held) > 0)] + ToolEvents(Capped(Count(after.held)), TOOLS) + [Syn])
  }

  function ContactEvents(p: Pad, points: seq<Point>): seq<Ev>
    requires Shaped(p)
  {
    LiftEvents(p.held, points, SLOTS) + PlaceAllEvents(Pad(Lifted(p.held, points, SLOTS), p.next), points)
  }

  // ------------------------------------------------------------------ in place

  class Slots {
    var held: array<Option<FingerId>>
    var nextTracking: int

    ghost predicate Valid()
      reads this, held
    {
      held.Length == SLOTS && 1 <= nextTracking <= MAX_ID
    }

    ghost function State(): Pad
      reads this, held
    {
      Pad(held[..], nextTracking)
    }

    constructor ()
      ensures Valid() && fresh(held) && State() == Pad(seq(SLOTS, i => None), 1)
    {
      held := new Option<FingerId>[SLOTS](i => None);
      nextTracking := 1;
    }

    /** The lowest slot that holds `x`. */
    method Position(x: Option<FingerId>) returns (r: Option<nat>)
      requires Valid()
      ensures r == Find(held[..], x)
    {
      for i := 0 to held.Length
        invariant x !in held[..i]
      {
        if held[i] == x { return Some(i); }
      }
      return None;
    }

    method Lift(points: seq<Point>) returns (out: seq<Ev>)
      requires Valid()
      modifies held
      ensures Valid() && nextTracking == old(nextTracking)
      ensures held[..] == Lifted(old(held[..]), points, SLOTS)
      ensures out == LiftEvents(old(held[..]), points, SLOTS)
    {
      out := [];
      for slot := 0 to SLOTS
        invariant held[..] == Lifted(old(held[..]), points, slot)
        invariant out == LiftEvents(old(held[..]), points, slot)
      {
        assert held[slot] == held[..][slot] == old(held[..])[slot];
        if held[slot].Some? && !Down(points, held[slot].value) {
          out := out + [MtSlot(slot), MtTracking(-1)];
          held[slot] := None;
        }
      }
    }

    method Put(p: Point) returns (out: seq<Ev>)
      requires Valid()
      modifies this`nextTracking, held
      ensures Valid()
      ensures State() == Place(old(State()), p) && out == PlaceEvents(old(State()), p)
    {
      out := [];
      var slot := Position(Some(p.id));
      var fresh_ := slot.None?;
      if fresh_ {
        slot := Position(None);
        if slot.None? { return; }
        held[slot.value] := Some(p.id);
      }
      out := [MtSlot(slot.value)];
      if fresh_ {
        out := out + [MtTracking(nextTracking)];
        nextTracking := Succ(nextTracking);
      }
      out := out + [MtX(p.x), MtY(p.y)];
    }

    method PutAll(points: seq<Point>) returns (out: seq<Ev>)
      requires Valid()
      modifies this`nextTracking, held
      ensures Valid()
      ensures State() == PlaceAll(old(State()), points) && out == PlaceAllEvents(old(State()), points)
    {
      out := [];
      for i := 0 to |points|
        invariant Valid()
        invariant State() == PlaceAll(old(State()), points[..i])
        invariant out == PlaceAllEvents(old(State()), points[..i])
      {
        assert points[..i + 1][..i] == points[..i];
        var more := Put(points[i]);
        out := out + more;
      }
      assert points[..|points|] == points;
    }

    method CountDown() returns (down: nat)
      requires Valid()
      ensures down == Count(held[..])
    {
      down := 0;
      for i := 0 to held.Length
        invariant down == Count(held[..i])
      {
        assert held[..i + 1][..i] == held[..i];
        if held[i].Some? { down := down + 1; }
      }
      assert held[..held.Length] == held[..];
    }

    /** Reconcile against the complete set of fingers now down. */
    method Frame(points: seq<Point>) returns (out: seq<Ev>)
      requires Valid()
      modifies this`nextTracking, held
      ensures Valid()
      ensures State() == Framed(old(State()), points)
      ensures out == FrameEvents(old(State()), points)
    {
      var lifts := Lift(points);
      var places := PutAll(points);
      var down := CountDown();
      var capped := Capped(down);
      var tools: seq<Ev> := [];
      for n := 0 to TOOLS
        invariant tools == ToolEvents(capped, n)
      {
        tools := tools + [Tool(n + 1, capped == n + 1)];
      }
      out := lifts + places + (Axes(held[..], points) + [Touch(down > 0)] + tools + [Syn]);
    }

    method ReleaseAll() returns (out: seq<Ev>)
      requires Valid()
      modifies this`nextTracking, held
      ensures Valid()
      ensures State() == Framed(old(State()), []) && out == FrameEvents(old(State()), [])
    {
      out := Frame([]);
    }
  }

  // ------------------------------------------------------------------ the kernel

  /** A contact, if the tracking id is not -1. */
  datatype Contact = Contact(id: int, x: int, y: int)

  datatype Kernel = Kernel(cur: nat, contacts: seq<Contact>, x: int, y: int, touch: bool, tools: seq<bool>, reports: nat)

  predicate Wired(k: Kernel) {
    |k.contacts| == SLOTS && k.cur < SLOTS && |k.tools| == TOOLS
  }

  function Step(k: Kernel, e: Ev): (r: Kernel)
    requires Wired(k)
    ensures Wired(r)
  {
    match e
    case MtSlot(s) => if s < SLOTS then k.(cur := s) else k
    case MtTracking(id) => k.(contacts := k.contacts[k.cur := k.contacts[k.cur].(id := id)])
    case MtX(x) => k.(contacts := k.contacts[k.cur := k.contacts[k.cur].(x := x)])
    case MtY(y) => k.(contacts := k.contacts[k.cur := k.contacts[k.cur].(y := y)])
    case AbsX(x) => k.(x := x)
    case AbsY(y) => k.(y := y)
    case Touch(d) => k.(touch := d)
    case Tool(n, on) => if 1 <= n <= TOOLS then k.(tools := k.tools[n - 1 := on]) else k
    case Syn => k.(reports := k.reports + 1)
  }

  function Play(k: Kernel, evs: seq<Ev>): (r: Kernel)
    requires Wired(k)
    ensures Wired(r)
  {
    if evs == [] then k else Step(Play(k, evs[..|evs| - 1]), evs[|evs| - 1])
  }

  lemma {:induction false} PlayConcat(k: Kernel, a: seq<Ev>, b: seq<Ev>)
    requires Wired(k)
    ensures Play(k, a + b) == Play(Play(k, a), b)
  {
    if b == [] {
      assert a + b == a;
    } else {
      assert (a + b)[..|a + b| - 1] == a + b[..|b| - 1];
      PlayConcat(k, a, b[..|b| - 1]);
    }
  }

  lemma PlayOne(k: Kernel, e: Ev)
    requires Wired(k)
    ensures Play(k, [e]) == Step(k, e)
  {
    assert [e][..0] == [];
    assert Play(k, [e][..0]) == k;
  }

  lemma PlayTwo(k: Kernel, e: Ev, f: Ev)
    requires Wired(k)
    ensures Play(k, [e, f]) == Step(Step(k, e), f)
  {
    PlayOne(k, e);
    assert [e, f][..1] == [e];
  }

  // ------------------------------------------------------------- the two together

  predicate Distinct(points: seq<Point>) {
    forall i, j :: 0 <= i < j < |points| ==> points[i].id != points[j].id
  }

  /** No finger has two slots. */
  predicate Single(held: seq<Option<FingerId>>) {
    forall i, j :: 0 <= i < j < |held| && held[i].Some? ==> held[i] != held[j]
  }

  /** A slot has a contact exactly when it holds a finger. */
  predicate Agrees(k: Kernel, p: Pad) {
    && Wired(k) && Shaped(p) && Single(p.held)
    && forall i :: 0 <= i < SLOTS ==> (k.contacts[i].id == -1 <==> p.held[i].None?)
  }

  lemma {:induction false} LiftShows(k: Kernel, p: Pad, points: seq<Point>, n: nat)
    requires Agrees(k, p) && n <= SLOTS
    ensures var r := Play(k, LiftEvents(p.held, points, n));
      && Agrees(r, Pad(Lifted(p.held, points, n), p.next))
      && forall i :: 0 <= i < SLOTS && !(i < n && Lifts(p.held, points, i)) ==> r.contacts[i] == k.contacts[i]
  {
    if n > 0 {
      LiftShows(k, p, points, n - 1);
      var before := Play(k, LiftEvents(p.held, points, n - 1));
      if Lifts(p.held, points, n - 1) {
        PlayConcat(k, LiftEvents(p.held, points, n - 1), [MtSlot(n - 1), MtTracking(-1)]);
        PlayTwo(before, MtSlot(n - 1), MtTracking(-1));
      } else {
        assert LiftEvents(p.held, points, n) == LiftEvents(p.held, points, n - 1);
      }
    }
  }

  /** A slot is chosen, an id given if it is new, and coordinates set. */
  lemma PlacePlays(k: Kernel, p: Pad, pt: Point)
    requires Agrees(k, p) && SlotFor(p, pt.id).Some?
    ensures var s := SlotFor(p, pt.id).value;
      Play(k, PlaceEvents(p, pt)).contacts ==
        k.contacts[s := Contact(if p.held[s].None? then p.next else k.contacts[s].id, pt.x, pt.y)]
  {
    var s := SlotFor(p, pt.id).value;
    var named := if p.held[s].None? then [MtTracking(p.next)] else [];
    PlayOne(k, MtSlot(s));
    PlayConcat(k, [MtSlot(s)], named);
    var mid := Play(k, [MtSlot(s)] + named);
    assert mid.cur == s && mid.contacts == k.contacts[s := k.contacts[s].(id := if p.held[s].None? then p.next else k.contacts[s].id)] by {
      if p.held[s].None? { PlayOne(k.(cur := s), MtTracking(p.next)); }
    }
    PlayConcat(k, [MtSlot(s)] + named, [MtX(pt.x), MtY(pt.y)]);
    PlayTwo(mid, MtX(pt.x), MtY(pt.y));
  }

  predicate Holds(held: seq<Option<FingerId>>, i: nat, id: FingerId) {
    i < |held| && held[i] == Some(id)
  }

  /** The point has a slot, with its coordinates. */
  predicate Seen(k: Kernel, p: Pad, pt: Point)
    requires Wired(k) && Shaped(p)
  {
    exists i :: 0 <= i < SLOTS && Holds(p.held, i, pt.id) && k.contacts[i].x == pt.x && k.contacts[i].y == pt.y
  }

  predicate NoReport(evs: seq<Ev>) {
    Syn !in evs
  }

  lemma {:induction false} ContactsKeepReports(k: Kernel, evs: seq<Ev>)
    requires Wired(k) && NoReport(evs)
    ensures Play(k, evs).reports == k.reports
  {
    if evs != [] { ContactsKeepReports(k, evs[..|evs| - 1]); }
  }

  /** What one placed point changes. */
  predicate Placed(k: Kernel, p: Pad, pt: Point, r: Kernel, q: Pad) {
    && Agrees(k, p) && Agrees(r, q)
    && Seen(r, q, pt)
    && (forall i :: 0 <= i < SLOTS && p.held[i].Some? ==> q.held[i] == p.held[i] && r.contacts[i].id == k.contacts[i].id)
    && (forall i :: 0 <= i < SLOTS && p.held[i] != Some(pt.id) && p.held[i].Some? ==> r.contacts[i] == k.contacts[i])
    && (forall i :: 0 <= i < SLOTS && p.held[i].None? && q.held[i].Some? ==> q.held[i] == Some(pt.id))
  }

  lemma PlaceShows(k: Kernel, p: Pad, pt: Point)
    requires Agrees(k, p) && SlotFor(p, pt.id).Some?
    ensures Placed(k, p, pt, Play(k, PlaceEvents(p, pt)), Place(p, pt))
  {
    PlacePlays(k, p, pt);
    var s := SlotFor(p, pt.id).value;
    assert Holds(Place(p, pt).held, s, pt.id);
  }

  function Ids(points: seq<Point>): set<FingerId> {
    set j | 0 <= j < |points| :: points[j].id
  }

  function HeldIds(held: seq<Option<FingerId>>): set<FingerId> {
    set i | 0 <= i < |held| && held[i].Some? :: held[i].value
  }

  lemma {:induction false} FullIsMany(held: seq<Option<FingerId>>)
    requires Single(held) && None !in held
    ensures |HeldIds(held)| == |held|
  {
    if held != [] {
      var front := held[..|held| - 1];
      assert None !in front by { assert forall x :: x in front ==> x in held; }
      FullIsMany(front);
      assert HeldIds(held) == HeldIds(front) + {held[|held| - 1].value};
    }
  }

  lemma {:induction false} FewIds(points: seq<Point>)
    ensures |Ids(points)| <= |points|
  {
    if points != [] {
      FewIds(points[..|points| - 1]);
      assert Ids(points) == Ids(points[..|points| - 1]) + {points[|points| - 1].id};
    }
  }

  /** There is room for every finger of a frame that fits. */
  lemma RoomFor(p: Pad, points: seq<Point>, pt: Point)
    requires Shaped(p) && Single(p.held) && |points| <= SLOTS && pt in points
    requires HeldIds(p.held) <= Ids(points)
    ensures SlotFor(p, pt.id).Some?
  {
    if Some(pt.id) !in p.held && None !in p.held {
      FullIsMany(p.held);
      FewIds(points);
      assert pt.id !in HeldIds(p.held);
      assert pt.id in Ids(points);
      assert HeldIds(p.held) < Ids(points);
      StrictlyFewer(HeldIds(p.held), Ids(points), pt.id);
    }
  }

  lemma StrictlyFewer(a: set<FingerId>, b: set<FingerId>, x: FingerId)
    requires a <= b && x in b && x !in a
    ensures |a| < |b|
  {
    assert a <= b - {x};
    SubsetIsFewer(a, b - {x});
  }

  lemma {:induction false} SubsetIsFewer(a: set<FingerId>, b: set<FingerId>)
    requires a <= b
    ensures |a| <= |b|
    decreases a
  {
    if x :| x in a { SubsetIsFewer(a - {x}, b - {x}); }
  }

  /** What the first `n` points of a frame lead to, from the lifted slots. */
  predicate Shows(k: Kernel, p: Pad, points: seq<Point>, n: nat, r: Kernel, q: Pad)
    requires n <= |points|
  {
    && Agrees(k, p) && Agrees(r, q)
    && (forall j :: 0 <= j < n ==> Seen(r, q, points[j]))
    && HeldIds(q.held) <= Ids(points)
    && forall i :: 0 <= i < SLOTS && p.held[i].Some? ==> q.held[i] == p.held[i] && r.contacts[i].id == k.contacts[i].id
  }

  lemma ShowsNext(k: Kernel, p: Pad, points: seq<Point>, n: nat, m: Kernel, mid: Pad, r: Kernel, q: Pad)
    requires n < |points| && Distinct(points) && Shows(k, p, points, n, m, mid)
    requires Placed(m, mid, points[n], r, q)
    ensures Shows(k, p, points, n + 1, r, q)
  {
    forall j | 0 <= j < n + 1 ensures Seen(r, q, points[j]) {
      if j < n {
        var i :| 0 <= i < SLOTS && Holds(mid.held, i, points[j].id)
          && m.contacts[i].x == points[j].x && m.contacts[i].y == points[j].y;
        assert Holds(q.held, i, points[j].id);
      }
    }
    forall id | id in HeldIds(q.held) ensures id in Ids(points) {
      var i :| 0 <= i < SLOTS && q.held[i] == Some(id);
      if mid.held[i].Some? { assert id in HeldIds(mid.held); } else { assert id == points[n].id; }
    }
  }

  lemma {:induction false} PlacingShows(k: Kernel, p: Pad, points: seq<Point>, n: nat)
    requires Agrees(k, p) && Distinct(points) && n <= |points| <= SLOTS && HeldIds(p.held) <= Ids(points)
    ensures Shows(k, p, points, n, Play(k, PlaceAllEvents(p, points[..n])), PlaceAll(p, points[..n]))
  {
    if n > 0 {
      PlacingShows(k, p, points, n - 1);
      assert points[..n][..n - 1] == points[..n - 1];
      var (m, mid) := (Play(k, PlaceAllEvents(p, points[..n - 1])), PlaceAll(p, points[..n - 1]));
      RoomFor(mid, points, points[n - 1]);
      PlaceShows(m, mid, points[n - 1]);
      PlayConcat(k, PlaceAllEvents(p, points[..n - 1]), PlaceEvents(mid, points[n - 1]));
      ShowsNext(k, p, points, n - 1, m, mid, Play(m, PlaceEvents(mid, points[n - 1])), Place(mid, points[n - 1]));
    }
  }

  /** A lifted pad holds only fingers that are still down. */
  lemma LiftedIsDown(p: Pad, points: seq<Point>)
    requires Shaped(p)
    ensures HeldIds(Lifted(p.held, points, SLOTS)) <= Ids(points)
  {
    var held := Lifted(p.held, points, SLOTS);
    forall id | id in HeldIds(held) ensures id in Ids(points) {
      var i :| 0 <= i < SLOTS && held[i] == Some(id);
      var j :| 0 <= j < |points| && points[j].id == id;
    }
  }

  /** After the slot events of a frame the kernel has exactly one contact per
      finger, at its coordinates; and a finger that was down before keeps its
      slot and its tracking id. */
  lemma ContactsShow(k: Kernel, p: Pad, points: seq<Point>)
    requires Agrees(k, p) && Distinct(points) && |points| <= SLOTS
    ensures var (r, q) := (Play(k, ContactEvents(p, points)), Framed(p, points));
      && Agrees(r, q)
      && (forall j :: 0 <= j < |points| ==> Seen(r, q, points[j]))
      && HeldIds(q.held) <= Ids(points)
      && forall i :: 0 <= i < SLOTS && p.held[i].Some? && Down(points, p.held[i].value) ==>
           q.held[i] == p.held[i] && r.contacts[i].id == k.contacts[i].id
  {
    var lifted := Pad(Lifted(p.held, points, SLOTS), p.next);
    LiftShows(k, p, points, SLOTS);
    LiftedIsDown(p, points);
    var m := Play(k, LiftEvents(p.held, points, SLOTS));
    PlacingShows(m, lifted, points, |points|);
    assert points[..|points|] == points;
    PlayConcat(k, LiftEvents(p.held, points, SLOTS), PlaceAllEvents(lifted, points));
    forall i | 0 <= i < SLOTS && p.held[i].Some? && Down(points, p.held[i].value)
      ensures !Lifts(p.held, points, i) && lifted.held[i] == p.held[i] && m.contacts[i] == k.contacts[i] {}
  }

  // -------------------------------------------------------- keys, axes, one report

  lemma {:induction false} ToolsPlay(k: Kernel, capped: nat, n: nat)
    requires Wired(k) && n <= TOOLS
    ensures var r := Play(k, ToolEvents(capped, n));
      && r == k.(tools := r.tools)
      && forall i :: 0 <= i < TOOLS ==> r.tools[i] == if i < n then capped == i + 1 else k.tools[i]
  {
    if n > 0 {
      ToolsPlay(k, capped, n - 1);
      PlayConcat(k, ToolEvents(capped, n - 1), [Tool(n, capped == n)]);
      PlayOne(Play(k, ToolEvents(capped, n - 1)), Tool(n, capped == n));
    }
  }

  lemma AxesPlay(k: Kernel, held: seq<Option<FingerId>>, points: seq<Point>)
    requires Wired(k)
    ensures var r := Play(k, Axes(held, points));
      && r == k.(x := r.x, y := r.y)
      && var first := FirstHeld(held);
         first.Some? && Down(points, held[first.value].value) ==>
           var p := PointOf(points, held[first.value].value).value; r.x == p.x && r.y == p.y
  {
    var first := FirstHeld(held);
    if first.Some? && Down(points, held[first.value].value) {
      var p := PointOf(points, held[first.value].value).value;
      PlayTwo(k, AbsX(p.x), AbsY(p.y));
    }
  }

  /** The rest of a frame leaves the contacts, says how many there are, and
      reports once. */
  lemma FooterPlays(k: Kernel, held: seq<Option<FingerId>>, points: seq<Point>)
    requires Wired(k)
    ensures var footer := Axes(held, points) + [Touch(Count(held) > 0)] + ToolEvents(Capped(Count(held)), TOOLS) + [Syn];
      var r := Play(k, footer);
      && r.contacts == k.contacts && r.reports == k.reports + 1
      && (r.touch <==> Count(held) > 0)
      && (forall i :: 0 <= i < TOOLS ==> r.tools[i] == (Capped(Count(held)) == i + 1))
      && (r.x, r.y) == (Play(k, Axes(held, points)).x, Play(k, Axes(held, points)).y)
  {
    var (axes, touch, tools) := (Axes(held, points), [Touch(Count(held) > 0)], ToolEvents(Capped(Count(held)), TOOLS));
    var k1 := Play(k, axes);
    AxesPlay(k, held, points);
    PlayConcat(k, axes, touch);
    PlayOne(k1, Touch(Count(held) > 0));
    var k2 := Play(k, axes + touch);
    PlayConcat(k, axes + touch, tools);
    ToolsPlay(k2, Capped(Count(held)), TOOLS);
    var k3 := Play(k, axes + touch + tools);
    PlayConcat(k, axes + touch + tools, [Syn]);
    PlayOne(k3, Syn);
  }

  lemma {:induction false} CountIsHeld(held: seq<Option<FingerId>>)
    requires Single(held)
    ensures Count(held) == |HeldIds(held)|
  {
    if held != [] {
      var (front, last) := (held[..|held| - 1], held[|held| - 1]);
      CountIsHeld(front);
      if last.Some? {
        assert HeldIds(held) == HeldIds(front) + {last.value};
        assert last.value !in HeldIds(front);
      } else {
        assert HeldIds(held) == HeldIds(front);
      }
    }
  }

  lemma {:induction false} DistinctIds(points: seq<Point>)
    requires Distinct(points)
    ensures |Ids(points)| == |points|
  {
    if points != [] {
      DistinctIds(points[..|points| - 1]);
      assert Ids(points) == Ids(points[..|points| - 1]) + {points[|points| - 1].id};
      assert points[|points| - 1].id !in Ids(points[..|points| - 1]);
    }
  }

  /** The kernel's picture is the fingers. */
  predicate Pictures(k: Kernel, p: Pad, points: seq<Point>) {
    && Agrees(k, p)
    && HeldIds(p.held) == Ids(points)
    && (forall j :: 0 <= j < |points| ==> Seen(k, p, points[j]))
    && (k.touch <==> points != [])
    && (forall i :: 0 <= i < TOOLS ==> k.tools[i] == (Capped(|points|) == i + 1))
    && var first := FirstHeld(p.held);
       first.Some? ==> k.x == k.contacts[first.value].x && k.y == k.contacts[first.value].y
  }

  lemma HeldAre(k: Kernel, p: Pad, points: seq<Point>)
    requires Wired(k) && Shaped(p) && HeldIds(p.held) <= Ids(points)
    requires forall j :: 0 <= j < |points| ==> Seen(k, p, points[j])
    ensures HeldIds(p.held) == Ids(points)
  {
    forall id | id in Ids(points) ensures id in HeldIds(p.held) {
      var j :| 0 <= j < |points| && points[j].id == id;
      var i :| 0 <= i < SLOTS && Holds(p.held, i, points[j].id);
    }
  }

  lemma SlotIsSeen(k: Kernel, p: Pad, i: nat, pt: Point)
    requires Agrees(k, p) && i < SLOTS && p.held[i] == Some(pt.id) && Seen(k, p, pt)
    ensures k.contacts[i].x == pt.x && k.contacts[i].y == pt.y
  {
    var s :| 0 <= s < SLOTS && Holds(p.held, s, pt.id) && k.contacts[s].x == pt.x && k.contacts[s].y == pt.y;
    assert s == i;
  }

  /** The single-touch axes show the lowest occupied slot. */
  lemma AxesAreFirst(m: Kernel, q: Pad, points: seq<Point>, first: nat)
    requires Agrees(m, q) && HeldIds(q.held) == Ids(points) && FirstHeld(q.held) == Some(first)
    requires forall j :: 0 <= j < |points| ==> Seen(m, q, points[j])
    ensures Play(m, Axes(q.held, points)).x == m.contacts[first].x
    ensures Play(m, Axes(q.held, points)).y == m.contacts[first].y
  {
    var id := q.held[first].value;
    assert id in HeldIds(q.held);
    var j :| 0 <= j < |points| && points[j].id == id;
    AxesPlay(m, q.held, points);
    SlotIsSeen(m, q, first, PointOf(points, id).value);
  }

  lemma FooterPictures(m: Kernel, q: Pad, points: seq<Point>, r: Kernel)
    requires Agrees(m, q) && Distinct(points) && HeldIds(q.held) <= Ids(points)
    requires forall j :: 0 <= j < |points| ==> Seen(m, q, points[j])
    requires Wired(r) && r.contacts == m.contacts && (r.touch <==> Count(q.held) > 0)
    requires forall i :: 0 <= i < TOOLS ==> r.tools[i] == (Capped(Count(q.held)) == i + 1)
    requires r.x == Play(m, Axes(q.held, points)).x && r.y == Play(m, Axes(q.held, points)).y
    ensures Pictures(r, q, points)
  {
    HeldAre(m, q, points);
    CountIsHeld(q.held);
    DistinctIds(points);
    forall j | 0 <= j < |points| ensures Seen(r, q, points[j]) {
      var i :| 0 <= i < SLOTS && Holds(q.held, i, points[j].id)
        && m.contacts[i].x == points[j].x && m.contacts[i].y == points[j].y;
    }
    if FirstHeld(q.held).Some? { AxesAreFirst(m, q, points, FirstHeld(q.held).value); }
  }

  // ------------------------------------------------------------- the theorems

  /** One frame of at most ten distinct fingers: at its one report the kernel has
      exactly one contact per finger at its coordinates, `BTN_TOUCH` and the tool
      keys match the count, the single-touch axes follow the lowest occupied
      slot; and a finger still down keeps its slot and tracking id. */
  lemma FrameShows(k: Kernel, p: Pad, points: seq<Point>)
    requires Agrees(k, p) && Distinct(points) && |points| <= SLOTS
    ensures var (r, q) := (Play(k, FrameEvents(p, points)), Framed(p, points));
      && Pictures(r, q, points) && r.reports == k.reports + 1
      && forall i :: 0 <= i < SLOTS && p.held[i].Some? && Down(points, p.held[i].value) ==>
           q.held[i] == p.held[i] && r.contacts[i].id == k.contacts[i].id
  {
    ContactsShow(k, p, points);
    var (m, q) := (Play(k, ContactEvents(p, points)), Framed(p, points));
    PlayConcat(k, ContactEvents(p, points),
      Axes(q.held, points) + [Touch(Count(q.held) > 0)] + ToolEvents(Capped(Count(q.held)), TOOLS) + [Syn]);
    FooterPlays(m, q.held, points);
    ContactsKeepReports(k, ContactEvents(p, points));
    FooterPictures(m, q, points, Play(k, FrameEvents(p, points)));
  }

  function StartPad(): Pad {
    Pad(seq(SLOTS, i => None), 1)
  }

  function FramedAll(frames: seq<seq<Point>>): (p: Pad)
    ensures Shaped(p)
  {
    if frames == [] then StartPad() else Framed(FramedAll(frames[..|frames| - 1]), frames[|frames| - 1])
  }

  function AllEvents(frames: seq<seq<Point>>): seq<Ev> {
    if frames == [] then [] else
      var front := frames[..|frames| - 1];
      AllEvents(front) + FrameEvents(FramedAll(front), frames[|frames| - 1])
  }

  predicate Fits(points: seq<Point>) {
    Distinct(points) && |points| <= SLOTS
  }

  /** Over any run of such frames, at every report. */
  lemma {:induction false} RunShows(k: Kernel, frames: seq<seq<Point>>)
    requires Agrees(k, StartPad()) && frames != []
    requires forall n :: 0 <= n < |frames| ==> Fits(frames[n])
    ensures Pictures(Play(k, AllEvents(frames)), FramedAll(frames), frames[|frames| - 1])
    ensures Play(k, AllEvents(frames)).reports == k.reports + |frames|
  {
    var front := frames[..|frames| - 1];
    PlayConcat(k, AllEvents(front), FrameEvents(FramedAll(front), frames[|frames| - 1]));
    if front == [] {
      assert AllEvents(front) == [];
      FrameShows(k, StartPad(), frames[0]);
    } else {
      RunShows(k, front);
      FrameShows(Play(k, AllEvents(front)), FramedAll(front), frames[|frames| - 1]);
    }
  }

  // --------------------------------------------------------------- tracking ids

  /** The tracking ids given to new contacts, in order. */
  function Minted(evs: seq<Ev>): seq<int> {
    if evs == [] then [] else
      var e := evs[|evs| - 1];
      Minted(evs[..|evs| - 1]) + if e.MtTracking? && e.id != -1 then [e.id] else []
  }

  /** The id of the `n`-th contact of a device's life. */
  function NthId(n: nat): int {
    n % MAX_ID + 1
  }

  lemma SuccIsNext(n: nat)
    ensures Succ(NthId(n)) == NthId(n + 1)
  {
    var q := n / MAX_ID;
    assert n == q * MAX_ID + n % MAX_ID;
    if n % MAX_ID == MAX_ID - 1 {
      assert n + 1 == (q + 1) * MAX_ID;
    } else {
      assert n + 1 == q * MAX_ID + (n % MAX_ID + 1);
    }
  }

  lemma {:induction false} MintedConcat(a: seq<Ev>, b: seq<Ev>)
    ensures Minted(a + b) == Minted(a) + Minted(b)
  {
    if b == [] {
      assert a + b == a;
    } else {
      assert (a + b)[..|a + b| - 1] == a + b[..|b| - 1];
      MintedConcat(a, b[..|b| - 1]);
    }
  }

  lemma OneLiftMintsNothing(slot: nat)
    ensures Minted([MtSlot(slot), MtTracking(-1)]) == []
  {
    var lift := [MtSlot(slot), MtTracking(-1)];
    assert lift[..1] == [MtSlot(slot)];
    PlainMintsNothing(lift[..1]);
  }

  lemma {:induction false} LiftMintsNothing(held: seq<Option<FingerId>>, points: seq<Point>, n: nat)
    requires n <= |held|
    ensures Minted(LiftEvents(held, points, n)) == []
  {
    if n > 0 {
      LiftMintsNothing(held, points, n - 1);
      if Lifts(held, points, n - 1) {
        MintedConcat(LiftEvents(held, points, n - 1), [MtSlot(n - 1), MtTracking(-1)]);
        OneLiftMintsNothing(n - 1);
      } else {
        assert LiftEvents(held, points, n) == LiftEvents(held, points, n - 1);
      }
    }
  }

  predicate Plain(evs: seq<Ev>) {
    forall e :: e in evs ==> !e.MtTracking?
  }

  lemma {:induction false} PlainMintsNothing(evs: seq<Ev>)
    requires Plain(evs)
    ensures Minted(evs) == []
  {
    if evs != [] { PlainMintsNothing(evs[..|evs| - 1]); }
  }

  lemma {:induction false} ToolsArePlain(capped: nat, n: nat)
    ensures Plain(ToolEvents(capped, n))
  {
    if n > 0 { ToolsArePlain(capped, n - 1); }
  }

  /** `ids` continue the count from `n`, and `next` follows them. */
  predicate Continues(ids: seq<int>, n: nat, next: int) {
    ids == seq(|ids|, j requires 0 <= j => NthId(n + j)) && next == NthId(n + |ids|)
  }

  lemma ContinuesOn(a: seq<int>, n: nat, mid: int, b: seq<int>, next: int)
    requires Continues(a, n, mid) && Continues(b, n + |a|, next)
    ensures Continues(a + b, n, next)
  {
    forall j | 0 <= j < |a + b| ensures (a + b)[j] == NthId(n + j) {
      if j >= |a| { assert b[j - |a|] == NthId(n + |a| + (j - |a|)); }
    }
  }

  lemma PlaceMints(p: Pad, pt: Point, n: nat)
    requires Shaped(p) && p.next == NthId(n)
    ensures Continues(Minted(PlaceEvents(p, pt)), n, Place(p, pt).next)
  {
    var s := SlotFor(p, pt.id);
    if s.Some? {
      var named := if p.held[s.value].None? then [MtTracking(p.next)] else [];
      MintedConcat([MtSlot(s.value)], named);
      MintedConcat([MtSlot(s.value)] + named, [MtX(pt.x), MtY(pt.y)]);
      PlainMintsNothing([MtSlot(s.value)]);
      PlainMintsNothing([MtX(pt.x), MtY(pt.y)]);
      if p.held[s.value].None? {
        assert [MtTracking(p.next)][..0] == [];
        assert Minted(named) == [p.next];
        SuccIsNext(n);
      }
    }
  }

  lemma {:induction false} PlacingMints(p: Pad, points: seq<Point>, n: nat)
    requires Shaped(p) && p.next == NthId(n)
    ensures Continues(Minted(PlaceAllEvents(p, points)), n, PlaceAll(p, points).next)
  {
    if points != [] {
      var front := points[..|points| - 1];
      PlacingMints(p, front, n);
      var before := Minted(PlaceAllEvents(p, front));
      PlaceMints(PlaceAll(p, front), points[|points| - 1], n + |before|);
      MintedConcat(PlaceAllEvents(p, front), PlaceEvents(PlaceAll(p, front), points[|points| - 1]));
      ContinuesOn(before, n, PlaceAll(p, front).next,
                  Minted(PlaceEvents(PlaceAll(p, front), points[|points| - 1])), PlaceAll(p, points).next);
    }
  }

  lemma FrameMints(p: Pad, points: seq<Point>, n: nat)
    requires Shaped(p) && p.next == NthId(n)
    ensures Continues(Minted(FrameEvents(p, points)), n, Framed(p, points).next)
  {
    var lifted := Pad(Lifted(p.held, points, SLOTS), p.next);
    var after := Framed(p, points);
    var footer := Axes(after.held, points) + [Touch(Count(after.held) > 0)] + ToolEvents(Capped(Count(after.held)), TOOLS) + [Syn];
    LiftMintsNothing(p.held, points, SLOTS);
    PlacingMints(lifted, points, n);
    MintedConcat(LiftEvents(p.held, points, SLOTS), PlaceAllEvents(lifted, points));
    ToolsArePlain(Capped(Count(after.held)), TOOLS);
    PlainMintsNothing(footer);
    MintedConcat(ContactEvents(p, points), footer);
    assert [] + Minted(PlaceAllEvents(lifted, points)) + [] == Minted(PlaceAllEvents(lifted, points));
  }

  lemma FrameContinues(evs: seq<Ev>, p: Pad, points: seq<Point>)
    requires Shaped(p) && Continues(Minted(evs), 0, p.next)
    ensures Continues(Minted(evs + FrameEvents(p, points)), 0, Framed(p, points).next)
  {
    FrameMints(p, points, |Minted(evs)|);
    MintedConcat(evs, FrameEvents(p, points));
    ContinuesOn(Minted(evs), 0, p.next, Minted(FrameEvents(p, points)), Framed(p, points).next);
  }

  /** Over a device's life the contacts get 1, 2, 3 and so on, whatever the
      frames; so no id comes back among any 2^31 - 1 contacts in a row. */
  lemma {:induction false} IdsCountUp(frames: seq<seq<Point>>)
    ensures Continues(Minted(AllEvents(frames)), 0, FramedAll(frames).next)
  {
    if frames != [] {
      var front := frames[..|frames| - 1];
      IdsCountUp(front);
      FrameContinues(AllEvents(front), FramedAll(front), frames[|frames| - 1]);
    }
  }

  lemma NthIdsDiffer(i: nat, j: nat)
    requires i < j && j - i < MAX_ID
    ensures NthId(i) != NthId(j)
  {
  }

  lemma IdsAreFresh(frames: seq<seq<Point>>, i: nat, j: nat)
    requires i < j < |Minted(AllEvents(frames))| && j - i < MAX_ID
    ensures Minted(AllEvents(frames))[i] != Minted(AllEvents(frames))[j]
  {
    IdsCountUp(frames);
    NthIdsDiffer(i, j);
  }
}

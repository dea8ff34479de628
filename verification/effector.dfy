/** Touch operations that arrive in any order, or twice, or not at all. */
module TouchEffects {
  import opened Wrappers
  import opened T = Touchpad

  datatype Op = Begin(w: nat, h: nat) | Frame(points: seq<Point>) | End

  /** One delivery. `works` says whether a device can be created for it. */
  datatype Delivery = Delivery(order: nat, op: Op, works: bool)

  /** The device that is open, by its size and slots, and the highest order
      applied. */
  datatype Panel = Panel(size: Option<(nat, nat)>, pad: Pad, last: nat)

  predicate ShouldApply(lastApplied: nat, order: nat) {
    order > lastApplied
  }

  function Act(p: Panel, op: Op, works: bool): (r: Panel)
    requires Shaped(p.pad)
    ensures Shaped(r.pad) && r.last == p.last
  {
    match op
    case Begin(w, h) =>
      if p.size == Some((w, h)) || !works then p else p.(size := Some((w, h)), pad := StartPad())
    case Frame(points) => if p.size.None? then p else p.(pad := Framed(p.pad, points))
    case End => p.(size := None)
  }

  function Deliver(p: Panel, d: Delivery): (r: Panel)
    requires Shaped(p.pad)
    ensures Shaped(r.pad)
  {
    if ShouldApply(p.last, d.order) then Act(p.(last := d.order), d.op, d.works) else p
  }

  class Effector {
    var size: Option<(nat, nat)>
    var slots: Slots
    var lastApplied: nat

    ghost predicate Valid()
      reads this, slots, slots.held
    {
      slots.Valid()
    }

    ghost function State(): Panel
      reads this, slots, slots.held
    {
      Panel(size, slots.State(), lastApplied)
    }

    constructor ()
      ensures Valid() && fresh(slots) && fresh(slots.held) && State() == Panel(None, StartPad(), 0)
    {
      size, lastApplied := None, 0;
      slots := new Slots();
    }

    /** Carry out one operation, unless a later one was carried out before. */
    method Run(d: Delivery)
      requires Valid()
      modifies this, slots, slots.held
      ensures Valid()
      ensures State() == Deliver(old(State()), d)
      ensures (slots == old(slots) || fresh(slots)) && (slots.held == old(slots.held) || fresh(slots.held))
    {
      if !ShouldApply(lastApplied, d.order) { return; }
      lastApplied := d.order;
      match d.op
      case Begin(w, h) =>
        if size != Some((w, h)) && d.works {
          slots := new Slots();
          size := Some((w, h));
        }
      case Frame(points) =>
        if size.Some? { var events := slots.Frame(points); }
      case End =>
        size := None;
    }
  }

  function DeliverAll(p: Panel, ds: seq<Delivery>): (r: Panel)
    requires Shaped(p.pad)
    ensures Shaped(r.pad)
  {
    if ds == [] then p else Deliver(DeliverAll(p, ds[..|ds| - 1]), ds[|ds| - 1])
  }

  function ActAll(p: Panel, ds: seq<Delivery>): (r: Panel)
    requires Shaped(p.pad)
    ensures Shaped(r.pad)
  {
    if ds == [] then p else Act(ActAll(p, ds[..|ds| - 1]), ds[|ds| - 1].op, ds[|ds| - 1].works)
  }

  /** Higher than everything delivered before it. */
  predicate IsRecord(ds: seq<Delivery>, i: nat)
    requires i < |ds|
  {
    ds[i].order > 0 && forall j :: 0 <= j < i ==> ds[j].order < ds[i].order
  }

  /** The left-to-right maxima. */
  function Records(ds: seq<Delivery>): seq<Delivery> {
    if ds == [] then [] else
      Records(ds[..|ds| - 1]) + if IsRecord(ds, |ds| - 1) then [ds[|ds| - 1]] else []
  }

  predicate IsHighest(ds: seq<Delivery>, last: nat) {
    && (forall j :: 0 <= j < |ds| ==> ds[j].order <= last)
    && (last > 0 ==> exists j :: 0 <= j < |ds| && ds[j].order == last)
  }

  /** What is applied is exactly the left-to-right maxima, in that order, and
      the highest order delivered is the last one applied. */
  lemma {:induction false} OnlyRecordsCount(p: Panel, ds: seq<Delivery>)
    requires Shaped(p.pad) && p.last == 0
    ensures var r := DeliverAll(p, ds);
      && r == ActAll(p, Records(ds)).(last := r.last)
      && IsHighest(ds, r.last)
      && (Records(ds) == [] <==> r.last == 0)
      && (Records(ds) != [] ==> Records(ds)[|Records(ds)| - 1].order == r.last)
  {
    if ds != [] {
      var (front, d) := (ds[..|ds| - 1], ds[|ds| - 1]);
      OnlyRecordsCount(p, front);
      var before := DeliverAll(p, front);
      assert forall j :: 0 <= j < |front| ==> front[j] == ds[j];
      assert ShouldApply(before.last, d.order) <==> IsRecord(ds, |ds| - 1);
      if IsRecord(ds, |ds| - 1) {
        assert Records(ds)[..|Records(ds)| - 1] == Records(front);
        ActForgetsLast(before, d, ActAll(p, Records(front)));
        assert ds[|ds| - 1].order == d.order;
      } else {
        assert Records(ds) == Records(front);
      }
    }
  }

  /** What an operation does never looks at its order. */
  lemma ActForgetsLast(a: Panel, d: Delivery, b: Panel)
    requires Shaped(a.pad) && Shaped(b.pad) && a == b.(last := a.last)
    ensures Act(a.(last := d.order), d.op, d.works) == Act(b, d.op, d.works).(last := d.order)
  {
    match d.op
    case Begin(w, h) =>
    case Frame(points) =>
    case End =>
  }

  /** Delivering again what has been delivered changes nothing. */
  lemma {:induction false} RepeatsAreIgnored(p: Panel, ds: seq<Delivery>, i: nat)
    requires Shaped(p.pad) && p.last == 0 && i < |ds|
    ensures DeliverAll(p, ds + [ds[i]]) == DeliverAll(p, ds)
  {
    OnlyRecordsCount(p, ds);
    assert (ds + [ds[i]])[..|ds|] == ds;
  }
}

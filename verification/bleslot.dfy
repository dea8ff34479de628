/** The one Bluetooth link a machine can hold, as its callbacks change it. Every
    method here is one stretch under the lock; any interleaving of callbacks is
    some sequence of them. */
module BleSlot {
  import opened Wrappers
  import opened Fragments

  type LinkId = nat
  type Device = string

  const COUNTERS: nat := 0x1_0000_0000_0000
  const FALLBACK_MTU: nat := 23
  const MAX_MESSAGE: nat := 16 * 1024

  /** The transport in the high bits, its own counter in the low 48. */
  function NewLink(transport: nat, counter: nat): LinkId {
    transport * COUNTERS + counter % COUNTERS
  }

  function TransportOf(link: LinkId): nat {
    link / COUNTERS % 0x1_0000
  }

  /** An id names its transport, and two ids are equal only when transport and
      counter are. */
  lemma LinkIdsDiffer(t: nat, m: nat, u: nat, n: nat)
    requires t < 0x1_0000 && u < 0x1_0000
    ensures TransportOf(NewLink(t, m)) == t
    ensures NewLink(t, m) == NewLink(u, n) <==> t == u && m % COUNTERS == n % COUNTERS
  {
    assert NewLink(t, m) / COUNTERS == t;
    assert NewLink(u, n) / COUNTERS == u;
  }

  datatype LinkEvent = LinkUp(link: LinkId) | LinkRecv(link: LinkId, msg: Bytes) | LinkDown(link: LinkId)

  /** What happened, fragments included. */
  datatype Note =
    | Up(link: LinkId, device: Device)
    | Wrote(device: Device, frag: Bytes)
    | Got(link: LinkId, msg: Bytes)
    | Down(link: LinkId)

  function EventsOf(n: Note): seq<LinkEvent> {
    match n
    case Up(l, _) => [LinkUp(l)]
    case Wrote(_, _) => []
    case Got(l, m) => [LinkRecv(l, m)]
    case Down(l) => [LinkDown(l)]
  }

  /** What the core was sent. */
  function Events(h: seq<Note>): seq<LinkEvent> {
    if h == [] then [] else Events(h[..|h| - 1]) + EventsOf(h[|h| - 1])
  }

  /** Where a history has got to; `Bad` if it could not have happened. */
  datatype Phase = Idle | Held(link: LinkId, device: Device, frags: seq<Bytes>) | Bad

  ghost function Move(p: Phase, n: Note): Phase {
    match n
    case Up(l, d) => if p.Idle? then Held(l, d, []) else Bad
    case Wrote(d, f) => if p.Held? && p.device == d then p.(frags := p.frags + [f]) else Bad
    case Got(l, m) => if p.Held? && p.link == l && TailOf(p.frags, m) then p else Bad
    case Down(l) => if p.Held? && p.link == l then Idle else Bad
  }

  ghost function After(h: seq<Note>): Phase {
    if h == [] then Idle else Move(After(h[..|h| - 1]), h[|h| - 1])
  }

  /** The links that came up, in order. */
  function Ups(h: seq<Note>): seq<LinkId> {
    if h == [] then [] else
      var n := h[|h| - 1];
      Ups(h[..|h| - 1]) + if n.Up? then [n.link] else []
  }

  lemma OneMore(h: seq<Note>, n: Note)
    ensures After(h + [n]) == Move(After(h), n)
    ensures Events(h + [n]) == Events(h) + EventsOf(n)
    ensures Ups(h + [n]) == Ups(h) + if n.Up? then [n.link] else []
  {
    assert (h + [n])[..|h|] == h;
  }

  /** What a fragment's outcome adds to a history. */
  function Ending(link: LinkId, got: Outcome): seq<Note> {
    match got
    case Failed(_) => [Down(link)]
    case Waiting => []
    case Whole(msg) => [Got(link, msg)]
  }

  datatype Holder = Holder(link: LinkId, device: Device, mtu: nat, parts: Reassembler)

  class Slot {
    const transport: nat
    var counter: nat
    var holder: Option<Holder>
    var sink: seq<LinkEvent>
    ghost var history: seq<Note>

    ghost function Footprint(): set<object>
      reads this
    {
      {this} + if holder.Some? then {holder.value.parts} else {}
    }

    /** Nothing that could not have happened did, and the slot is where the
        history says. */
    ghost predicate Valid()
      reads this, Footprint()
    {
      && sink == Events(history)
      && counter >= 1
      && Ups(history) == seq(counter - 1, i requires 0 <= i => NewLink(transport, i + 1))
      && match holder
         case None => After(history) == Idle
         case Some(h) =>
           && h.parts.Valid() && h.parts.max == MAX_MESSAGE
           && After(history).Held? && After(history).link == h.link && After(history).device == h.device
           && TailOf(After(history).frags, h.parts.buf)
    }

    constructor (transport: nat)
      ensures Valid() && fresh(Footprint()) && this.transport == transport && counter == 1 && history == []
    {
      this.transport, counter, holder, sink, history := transport, 1, None, [], [];
    }

    /** Take down whatever is held. */
    method Retire()
      requires Valid() && holder.Some?
      modifies this
      ensures Valid() && holder == None && counter == old(counter)
      ensures history == old(history) + [Down(old(holder.value.link))]
    {
      var l := holder.value.link;
      OneMore(history, Down(l));
      holder := None;
      sink := sink + [LinkDown(l)];
      history := history + [Down(l)];
    }

    /** A device has gone, or a phone subscribed afresh while it held the link. */
    method DropFor(device: Device)
      requires Valid()
      modifies this
      ensures Valid() && counter == old(counter)
      ensures var held := old(holder);
        if held.Some? && held.value.device == device
        then holder == None && history == old(history) + [Down(held.value.link)]
        else holder == held && history == old(history)
    {
      if holder.None? || holder.value.device != device { return; }
      Retire();
    }

    /** The core closes a link, or a notification on it failed. */
    method Close(link: LinkId)
      requires Valid()
      modifies this
      ensures Valid() && counter == old(counter)
      ensures var held := old(holder);
        if held.Some? && held.value.link == link
        then holder == None && history == old(history) + [Down(link)]
        else holder == held && history == old(history)
    {
      if holder.None? || holder.value.link != link { return; }
      Retire();
    }

    method BringUp(device: Device, mtu: nat)
      requires Valid() && holder.None?
      modifies this
      ensures Valid() && fresh(Footprint() - {this})
      ensures counter == old(counter) + 1
      ensures holder.Some? && holder.value.device == device && holder.value.mtu == mtu
      ensures holder.value.link == NewLink(transport, old(counter)) && holder.value.parts.State() == NOTHING
      ensures history == old(history) + [Up(holder.value.link, device)]
    {
      var link := NewLink(transport, counter);
      var parts := new Reassembler(MAX_MESSAGE);
      OneMore(history, Up(link, device));
      assert TailOf([], []) by { assert Bodies([][0..]) == []; }
      counter := counter + 1;
      holder := Some(Holder(link, device, mtu, parts));
      sink := sink + [LinkUp(link)];
      history := history + [Up(link, device)];
    }

    /** Put a fragment to what the holder sent before. */
    method Gather(frag: Bytes) returns (got: Outcome)
      requires Valid() && holder.Some?
      modifies this`history, holder.value.parts
      ensures Valid() && history == old(history) + [Wrote(holder.value.device, frag)]
      ensures (holder.value.parts.State(), got) == Feed(old(holder.value.parts.State()), frag, MAX_MESSAGE)
      ensures got.Whole? ==> TailOf(After(history).frags, got.msg)
    {
      var h := holder.value;
      OneMore(history, Wrote(h.device, frag));
      FeedKeepsTail(h.parts.State(), After(history).frags, frag, MAX_MESSAGE);
      got := h.parts.Push(frag);
      history := history + [Wrote(h.device, frag)];
    }

    /** A whole message goes to the core. */
    method Deliver(msg: Bytes)
      requires Valid() && holder.Some? && TailOf(After(history).frags, msg)
      modifies this`history, this`sink
      ensures Valid() && history == old(history) + [Got(holder.value.link, msg)]
    {
      OneMore(history, Got(holder.value.link, msg));
      sink := sink + [LinkRecv(holder.value.link, msg)];
      history := history + [Got(holder.value.link, msg)];
    }

    /** A fragment for the link that is up. */
    method Take(frag: Bytes)
      requires Valid() && holder.Some?
      modifies Footprint()
      ensures Valid() && counter == old(counter)
      ensures var h := old(holder.value);
        var (kept, got) := Feed(old(holder.value.parts.State()), frag, MAX_MESSAGE);
        && history == old(history) + [Wrote(h.device, frag)] + Ending(h.link, got)
        && (if got.Failed? then holder == None else holder == old(holder) && h.parts.State() == kept)
    {
      var got := Gather(frag);
      match got
      case Failed(_) => Retire();
      case Waiting =>
      case Whole(msg) => Deliver(msg);
    }

    /** Whoever writes first gets the link; its packet size is kept up to date. */
    method Greet(device: Device, mtu: Option<nat>)
      requires Valid() && (holder.Some? ==> holder.value.device == device)
      modifies this
      ensures Valid() && fresh(Footprint() - old(Footprint()))
      ensures holder.Some? && holder.value.device == device && (mtu.Some? ==> holder.value.mtu == mtu.value)
      ensures if old(holder).Some?
        then holder.value.link == old(holder.value.link) && holder.value.parts == old(holder.value.parts)
        else holder.value.link == NewLink(transport, old(counter)) && holder.value.parts.State() == NOTHING
      ensures counter == old(counter) + if old(holder).Some? then 0 else 1
      ensures history == old(history) + if old(holder).Some? then [] else [Up(NewLink(transport, old(counter)), device)]
    {
      if holder.None? {
        BringUp(device, if mtu.Some? then mtu.value else FALLBACK_MTU);
      } else if mtu.Some? {
        holder := Some(holder.value.(mtu := mtu.value));
      }
    }

    /** A write from `device`: refused while another holds the link. */
    method Write(device: Device, mtu: Option<nat>, frag: Bytes)
      requires Valid()
      modifies Footprint()
      ensures Valid() && fresh(Footprint() - old(Footprint())) && counter <= old(counter) + 1
      ensures var held := old(holder);
        if held.Some? && held.value.device != device then holder == held && history == old(history)
        else
          var link := if held.Some? then held.value.link else NewLink(transport, old(counter));
          var (kept, got) := Feed(if held.Some? then old(holder.value.parts.State()) else NOTHING, frag, MAX_MESSAGE);
          && history == old(history) + (if held.Some? then [] else [Up(link, device)]) + [Wrote(device, frag)] + Ending(link, got)
          && (if got.Failed? then holder == None
              else holder.Some? && holder.value.link == link && holder.value.device == device
                   && holder.value.parts.State() == kept && (mtu.Some? ==> holder.value.mtu == mtu.value))
    {
      if holder.Some? && holder.value.device != device { return; }
      Greet(device, mtu);
      Take(frag);
    }
  }

  // ------------------------------------------------------------- the theorems

  /** The link open after a trace, or nothing if the trace is not a sequence of
      `LinkUp LinkRecv* LinkDown` with at most the last still open. */
  function OpenLink(t: seq<LinkEvent>): Option<Option<LinkId>> {
    if t == [] then Some(None) else
      var (before, e) := (OpenLink(t[..|t| - 1]), t[|t| - 1]);
      if before.None? then None else
        match e
        case LinkUp(l) => if before.value.None? then Some(Some(l)) else None
        case LinkRecv(l, _) => if before.value == Some(l) then before else None
        case LinkDown(l) => if before.value == Some(l) then Some(None) else None
  }

  lemma TraceGrows(t: seq<LinkEvent>, e: LinkEvent)
    requires OpenLink(t).Some?
    ensures OpenLink(t + [e]) == var open := OpenLink(t).value;
      match e
      case LinkUp(l) => if open.None? then Some(Some(l)) else None
      case LinkRecv(l, _) => if open == Some(l) then Some(open) else None
      case LinkDown(l) => if open == Some(l) then Some(None) else None
  {
    assert (t + [e])[..|t|] == t;
  }

  lemma {:induction false} TraceIsProper(h: seq<Note>)
    requires !After(h).Bad?
    ensures OpenLink(Events(h)) == Some(if After(h).Idle? then None else Some(After(h).link))
  {
    if h != [] {
      var (front, n) := (h[..|h| - 1], h[|h| - 1]);
      TraceIsProper(front);
      if n.Wrote? {
        assert Events(h) == Events(front);
      } else {
        TraceGrows(Events(front), EventsOf(n)[0]);
      }
    }
  }

  /** `frags` are what `device` wrote since its link came up, and in between
      nothing else happened but messages being put together. */
  ghost predicate WroteSince(h: seq<Note>, link: LinkId, device: Device, frags: seq<Bytes>) {
    exists j :: 0 <= j < |h| && h[j] == Up(link, device) && OnlyFrom(h, j + 1, link, device) && frags == FragsIn(h[j + 1..])
  }

  predicate OnlyFrom(h: seq<Note>, from: nat, link: LinkId, device: Device) {
    forall k :: from <= k < |h| ==> (h[k].Wrote? && h[k].device == device) || (h[k].Got? && h[k].link == link)
  }

  function FragsIn(h: seq<Note>): seq<Bytes> {
    if h == [] then [] else FragsIn(h[..|h| - 1]) + if h[|h| - 1].Wrote? then [h[|h| - 1].frag] else []
  }

  lemma SinceUp(h: seq<Note>, link: LinkId, device: Device)
    ensures WroteSince(h + [Up(link, device)], link, device, [])
  {
    var all := h + [Up(link, device)];
    assert all[|h|] == Up(link, device) && all[|h| + 1..] == [];
  }

  lemma SinceGrows(h: seq<Note>, n: Note, link: LinkId, device: Device, frags: seq<Bytes>)
    requires WroteSince(h, link, device, frags)
    requires (n.Wrote? && n.device == device) || (n.Got? && n.link == link)
    ensures WroteSince(h + [n], link, device, frags + if n.Wrote? then [n.frag] else [])
  {
    var all := h + [n];
    var j :| 0 <= j < |h| && h[j] == Up(link, device) && OnlyFrom(h, j + 1, link, device) && frags == FragsIn(h[j + 1..]);
    assert all[j + 1..] == h[j + 1..] + [n];
    assert all[j + 1..][..|h| - j - 1] == h[j + 1..];
    assert OnlyFrom(all, j + 1, link, device);
    assert all[j] == Up(link, device);
  }

  lemma {:induction false} HeldSince(h: seq<Note>)
    requires After(h).Held?
    ensures WroteSince(h, After(h).link, After(h).device, After(h).frags)
  {
    var (front, n) := (h[..|h| - 1], h[|h| - 1]);
    assert h == front + [n];
    if n.Up? {
      SinceUp(front, n.link, n.device);
    } else {
      HeldSince(front);
      SinceGrows(front, n, After(front).link, After(front).device, After(front).frags);
    }
  }

  lemma {:induction false} ProperBefore(h: seq<Note>, n: nat)
    requires !After(h).Bad? && n <= |h|
    ensures !After(h[..n]).Bad?
  {
    if n < |h| {
      ProperBefore(h[..|h| - 1], n);
      assert h[..|h| - 1][..n] == h[..n];
    } else {
      assert h[..n] == h;
    }
  }

  /** Every message is put together from fragments that one device wrote while
      that very link was up. */
  lemma MessagesAreFromOneDevice(h: seq<Note>, i: nat) returns (device: Device, frags: seq<Bytes>)
    requires !After(h).Bad? && i < |h| && h[i].Got?
    ensures WroteSince(h[..i], h[i].link, device, frags) && TailOf(frags, h[i].msg)
  {
    ProperBefore(h, i + 1);
    assert h[..i + 1][..i] == h[..i];
    HeldSince(h[..i]);
    device, frags := After(h[..i]).device, After(h[..i]).frags;
  }

  /** Until the counter wraps, no link id comes up twice. */
  lemma LinksAreFresh(transport: nat, ups: seq<LinkId>, i: nat, j: nat)
    requires transport < 0x1_0000 && |ups| < COUNTERS && i < j < |ups|
    requires ups == seq(|ups|, k requires 0 <= k => NewLink(transport, k + 1))
    ensures ups[i] != ups[j]
  {
    LinkIdsDiffer(transport, i + 1, transport, j + 1);
  }

  datatype Step = Writes(device: Device, mtu: Option<nat>, frag: Bytes) | Departs(device: Device) | Closes(link: LinkId)

  /** Any interleaving of the callbacks. */
  method Play(transport: nat, steps: seq<Step>) returns (slot: Slot)
    requires transport < 0x1_0000
    ensures slot.Valid()
    ensures OpenLink(slot.sink).Some?
    ensures |steps| < COUNTERS ==> forall i, j :: 0 <= i < j < |Ups(slot.history)| ==> Ups(slot.history)[i] != Ups(slot.history)[j]
    ensures forall i :: 0 <= i < |slot.history| && slot.history[i].Got? ==>
      exists device, frags :: WroteSince(slot.history[..i], slot.history[i].link, device, frags) && TailOf(frags, slot.history[i].msg)
  {
    slot := new Slot(transport);
    for n := 0 to |steps|
      invariant slot.Valid() && fresh(slot.Footprint()) && slot.transport == transport
      invariant slot.counter <= n + 1
    {
      match steps[n]
      case Writes(device, mtu, frag) => slot.Write(device, mtu, frag);
      case Departs(device) => slot.DropFor(device);
      case Closes(link) => slot.Close(link);
    }
    TraceIsProper(slot.history);
    forall i, j | 0 <= i < j < |Ups(slot.history)| && |steps| < COUNTERS
      ensures Ups(slot.history)[i] != Ups(slot.history)[j] {
      LinksAreFresh(transport, Ups(slot.history), i, j);
    }
    forall i | 0 <= i < |slot.history| && slot.history[i].Got?
      ensures exists device, frags :: WroteSince(slot.history[..i], slot.history[i].link, device, frags) && TailOf(frags, slot.history[i].msg) {
      var device, frags := MessagesAreFromOneDevice(slot.history, i);
    }
  }
}

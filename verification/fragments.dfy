/** Cutting messages into fragments and putting them back together. */
module Fragments {
  import opened Wrappers

  type Byte = bv8
  type Bytes = seq<Byte>

  const MORE: Byte := 1
  const START: Byte := 2
  const RESERVED: Byte := 0xFC
  const HEADER: nat := 1

  datatype BleError = Empty | Reserved | Desync | TooLarge

  /** What a reassembler holds between fragments. */
  datatype Part = Part(buf: Bytes, open: bool)

  const NOTHING: Part := Part([], false)

  /** What one fragment leads to: an error, nothing yet, or a whole message. */
  datatype Outcome = Failed(error: BleError) | Waiting | Whole(msg: Bytes)

  function Header(first: bool, last: bool): Byte {
    if first then (if last then START else START | MORE)
    else if last then 0 else MORE
  }

  function Payload(fragment: nat): nat {
    if fragment > HEADER then fragment - HEADER else 1
  }

  /** The fragments of `rest`, `n` payload bytes each; `first` if none went
      before. */
  function CutFrom(rest: Bytes, n: nat, first: bool): (frags: seq<Bytes>)
    requires n > 0
    ensures frags != []
    decreases |rest|
  {
    if |rest| <= n then [[Header(first, true)] + rest]
    else [[Header(first, false)] + rest[..n]] + CutFrom(rest[n..], n, false)
  }

  function Cut(msg: Bytes, fragment: nat): seq<Bytes> {
    CutFrom(msg, Payload(fragment), true)
  }

  method Fragment(msg: Bytes, fragment: nat) returns (out: seq<Bytes>)
    ensures out == Cut(msg, fragment)
  {
    var payload := Payload(fragment);
    var rest, first := msg, true;
    out := [];
    while true
      invariant first ==> out == []
      invariant out + CutFrom(rest, payload, first) == Cut(msg, fragment)
      decreases |rest|
    {
      ghost var (done, left) := (out, rest);
      var take := if |rest| < payload then |rest| else payload;
      var now := rest[..take];
      rest := rest[take..];
      var last := rest == [];
      var header := (if first then START else 0) | (if last then 0 else MORE);
      assert header == Header(first, last);
      assert CutFrom(left, payload, first) ==
        [[header] + now] + if last then [] else CutFrom(rest, payload, false) by {
        if last { assert now == left; } else { assert now == left[..payload] && rest == left[payload..]; }
      }
      out := out + [[header] + now];
      assert out + (if last then [] else CutFrom(rest, payload, false)) == done + CutFrom(left, payload, first);
      first := false;
      if last { break; }
    }
  }

  /** One fragment into a reassembler of capacity `max`. */
  function Feed(p: Part, frag: Bytes, max: nat): (r: (Part, Outcome))
    ensures |r.0.buf| <= max || r.0.buf == []
    ensures r.1.Whole? ==> |r.1.msg| <= max
    ensures !r.0.open ==> r.0.buf == []
    ensures r.1.Failed? ==> r.0 == NOTHING
  {
    if frag == [] then (NOTHING, Failed(Empty))
    else
      var (header, body) := (frag[0], frag[1..]);
      if header & RESERVED != 0 then (NOTHING, Failed(Reserved))
      else if (header & START != 0) == p.open then (NOTHING, Failed(Desync))
      else if |p.buf| + |body| > max then (NOTHING, Failed(TooLarge))
      else if header & MORE != 0 then (Part(p.buf + body, true), Waiting)
      else (NOTHING, Whole(p.buf + body))
  }

  /** Puts fragments back together. */
  class Reassembler {
    var buf: Bytes
    const max: nat
    var open: bool

    /** The buffer never outgrows a message, and holds nothing between two. */
    ghost predicate Valid()
      reads this
    {
      |buf| <= max && (!open ==> buf == [])
    }

    function State(): Part
      reads this
    {
      Part(buf, open)
    }

    constructor (max: nat)
      ensures Valid() && this.max == max && State() == NOTHING
    {
      buf, this.max, open := [], max, false;
    }

    method Fail()
      modifies this
      ensures Valid() && State() == NOTHING
    {
      buf, open := [], false;
    }

    method Push(frag: Bytes) returns (r: Outcome)
      requires Valid()
      modifies this
      ensures Valid()
      ensures (State(), r) == Feed(old(State()), frag, max)
    {
      if frag == [] {
        Fail();
        return Failed(Empty);
      }
      var header, body := frag[0], frag[1..];
      if header & RESERVED != 0 {
        Fail();
        return Failed(Reserved);
      }
      var starts := header & START != 0;
      if starts == open {
        Fail();
        return Failed(Desync);
      }
      if |buf| + |body| > max {
        Fail();
        return Failed(TooLarge);
      }
      buf := buf + body;
      if header & MORE != 0 {
        open := true;
        return Waiting;
      }
      open := false;
      r := Whole(buf);
      buf := [];
    }
  }

  // ---------------------------------------------------------------- long streams

  /** What a stream of fragments leaves behind, and the messages it delivers. */
  function FeedAll(p: Part, frags: seq<Bytes>, max: nat): (Part, seq<Bytes>)
    decreases |frags|
  {
    if frags == [] then (p, []) else
      var (next, got) := Feed(p, frags[0], max);
      var rest := FeedAll(next, frags[1..], max);
      (rest.0, (if got.Whole? then [got.msg] else []) + rest.1)
  }

  /** No fragment of the stream fails. */
  predicate Smooth(p: Part, frags: seq<Bytes>, max: nat)
    decreases |frags|
  {
    frags == [] || (!Feed(p, frags[0], max).1.Failed? && Smooth(Feed(p, frags[0], max).0, frags[1..], max))
  }

  lemma {:induction false} FeedConcat(p: Part, a: seq<Bytes>, b: seq<Bytes>, max: nat)
    ensures FeedAll(p, a + b, max).0 == FeedAll(FeedAll(p, a, max).0, b, max).0
    ensures FeedAll(p, a + b, max).1 == FeedAll(p, a, max).1 + FeedAll(FeedAll(p, a, max).0, b, max).1
    ensures Smooth(p, a, max) && Smooth(FeedAll(p, a, max).0, b, max) ==> Smooth(p, a + b, max)
    decreases |a|
  {
    if a == [] {
      assert a + b == b;
    } else {
      assert (a + b)[1..] == a[1..] + b;
      FeedConcat(Feed(p, a[0], max).0, a[1..], b, max);
    }
  }

  lemma HeaderBits(first: bool, last: bool)
    ensures Header(first, last) & RESERVED == 0
    ensures (Header(first, last) & START != 0) == first
    ensures (Header(first, last) & MORE != 0) == !last
  {
  }

  /** The first fragment, then the rest. */
  lemma FeedFirst(p: Part, f: Bytes, rest: seq<Bytes>, max: nat)
    ensures var (next, got) := Feed(p, f, max);
      && FeedAll(p, [f] + rest, max).0 == FeedAll(next, rest, max).0
      && FeedAll(p, [f] + rest, max).1 == (if got.Whole? then [got.msg] else []) + FeedAll(next, rest, max).1
      && (Smooth(p, [f] + rest, max) <==> !got.Failed? && Smooth(next, rest, max))
  {
    assert ([f] + rest)[1..] == rest;
  }

  /** The rest of a message arrives whole at a reassembler that holds its start. */
  lemma {:induction false} CutArrives(p: Part, rest: Bytes, n: nat, first: bool, max: nat)
    requires n > 0 && p.open == !first && |p.buf| + |rest| <= max
    ensures FeedAll(p, CutFrom(rest, n, first), max).0 == NOTHING
    ensures FeedAll(p, CutFrom(rest, n, first), max).1 == [p.buf + rest]
    ensures Smooth(p, CutFrom(rest, n, first), max)
    decreases |rest|
  {
    HeaderBits(first, |rest| <= n);
    var body := if |rest| <= n then rest else rest[..n];
    var f := [Header(first, |rest| <= n)] + body;
    assert f[1..] == body;
    if |rest| <= n {
      FeedFirst(p, f, [], max);
      assert [f] + [] == CutFrom(rest, n, first);
    } else {
      FeedFirst(p, f, CutFrom(rest[n..], n, false), max);
      CutArrives(Part(p.buf + body, true), rest[n..], n, false, max);
      assert p.buf + body + rest[n..] == p.buf + rest;
    }
  }

  lemma CutWhole(msg: Bytes, fragment: nat, max: nat)
    requires |msg| <= max
    ensures FeedAll(NOTHING, Cut(msg, fragment), max).0 == NOTHING
    ensures FeedAll(NOTHING, Cut(msg, fragment), max).1 == [msg]
    ensures Smooth(NOTHING, Cut(msg, fragment), max)
  {
    CutArrives(NOTHING, msg, Payload(fragment), true, max);
    assert NOTHING.buf + msg == msg;
  }

  /** The rest of a message means nothing to a reassembler that is closed. */
  lemma {:induction false} CutIsLost(rest: Bytes, n: nat, max: nat)
    requires n > 0
    ensures FeedAll(NOTHING, CutFrom(rest, n, false), max).0 == NOTHING
    ensures FeedAll(NOTHING, CutFrom(rest, n, false), max).1 == []
    decreases |rest|
  {
    HeaderBits(false, |rest| <= n);
    if |rest| > n {
      CutIsLost(rest[n..], n, max);
      assert CutFrom(rest, n, false)[1..] == CutFrom(rest[n..], n, false);
    }
  }

  /** A message that arrives while another is unfinished costs both. */
  lemma CutCollides(p: Part, msg: Bytes, n: nat, max: nat)
    requires n > 0 && p.open
    ensures FeedAll(p, CutFrom(msg, n, true), max).0 == NOTHING
    ensures FeedAll(p, CutFrom(msg, n, true), max).1 == []
  {
    HeaderBits(true, |msg| <= n);
    if |msg| > n {
      CutIsLost(msg[n..], n, max);
      assert CutFrom(msg, n, true)[1..] == CutFrom(msg[n..], n, false);
    }
  }

  function CutAll(msgs: seq<Bytes>, fragment: nat): seq<Bytes> {
    if msgs == [] then [] else Cut(msgs[0], fragment) + CutAll(msgs[1..], fragment)
  }

  // ------------------------------------------------------------- the theorems

  /** Whatever messages fit the link, cut at whatever size, come back as they
      were, with no error on the way. */
  lemma {:induction false} RoundTrip(msgs: seq<Bytes>, fragment: nat, max: nat)
    requires forall m :: m in msgs ==> |m| <= max
    ensures FeedAll(NOTHING, CutAll(msgs, fragment), max).0 == NOTHING
    ensures FeedAll(NOTHING, CutAll(msgs, fragment), max).1 == msgs
    ensures Smooth(NOTHING, CutAll(msgs, fragment), max)
  {
    if msgs != [] {
      CutWhole(msgs[0], fragment, max);
      RoundTrip(msgs[1..], fragment, max);
      FeedConcat(NOTHING, Cut(msgs[0], fragment), CutAll(msgs[1..], fragment), max);
      assert [msgs[0]] + msgs[1..] == msgs;
    }
  }

  /** No fragment is longer than the link takes. */
  lemma {:induction false} FragmentsFit(rest: Bytes, fragment: nat, first: bool)
    ensures forall f :: f in CutFrom(rest, Payload(fragment), first) ==>
      1 <= |f| <= if fragment > 2 then fragment else 2
    decreases |rest|
  {
    if |rest| > Payload(fragment) { FragmentsFit(rest[Payload(fragment)..], fragment, false); }
  }

  lemma {:induction false} ClosedIsNothing(p: Part, frags: seq<Bytes>, max: nat)
    requires !p.open ==> p == NOTHING
    ensures !FeedAll(p, frags, max).0.open ==> FeedAll(p, frags, max).0 == NOTHING
    decreases |frags|
  {
    if frags != [] { ClosedIsNothing(Feed(p, frags[0], max).0, frags[1..], max); }
  }

  /** After any garbage whatever, at most one message is lost: the second of two
      whole messages always arrives, and the first does unless it ran into an
      unfinished one. */
  lemma Resync(p: Part, garbage: seq<Bytes>, m1: Bytes, m2: Bytes, fragment: nat, max: nat)
    requires !p.open ==> p == NOTHING
    requires |m1| <= max && |m2| <= max
    ensures var before := FeedAll(p, garbage, max);
      var after := FeedAll(p, garbage + (Cut(m1, fragment) + Cut(m2, fragment)), max);
      after.0 == NOTHING && after.1 == before.1 + (if before.0.open then [] else [m1]) + [m2]
  {
    var before := FeedAll(p, garbage, max);
    ClosedIsNothing(p, garbage, max);
    FeedConcat(p, garbage, Cut(m1, fragment) + Cut(m2, fragment), max);
    FeedConcat(before.0, Cut(m1, fragment), Cut(m2, fragment), max);
    CutWhole(m2, fragment, max);
    if before.0.open {
      CutCollides(before.0, m1, Payload(fragment), max);
    } else {
      CutWhole(m1, fragment, max);
    }
  }

  /** The payloads of a run of fragments, one after another. */
  function Bodies(frags: seq<Bytes>): Bytes {
    if frags == [] then [] else
      var f := frags[|frags| - 1];
      Bodies(frags[..|frags| - 1]) + if f == [] then [] else f[1..]
  }

  /** `b` is the payloads of the last fragments, from some point on. */
  ghost predicate TailOf(frags: seq<Bytes>, b: Bytes) {
    exists i :: 0 <= i <= |frags| && b == Bodies(frags[i..])
  }

  /** Nothing is made up: what is kept, and every message delivered, is the
      payloads of the latest fragments and no others. */
  lemma FeedKeepsTail(p: Part, seen: seq<Bytes>, frag: Bytes, max: nat)
    requires TailOf(seen, p.buf)
    ensures TailOf(seen + [frag], Feed(p, frag, max).0.buf)
    ensures Feed(p, frag, max).1.Whole? ==> TailOf(seen + [frag], Feed(p, frag, max).1.msg)
  {
    var all := seen + [frag];
    assert Bodies(all[|all|..]) == [];
    var i :| 0 <= i <= |seen| && p.buf == Bodies(seen[i..]);
    if frag != [] {
      assert all[i..] == seen[i..] + [frag];
      assert all[i..][..|all[i..]| - 1] == seen[i..];
      assert Bodies(all[i..]) == p.buf + frag[1..];
    }
  }
}

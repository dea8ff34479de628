/** Strict base64url without padding: one spelling for every value. */
module Base64 {
  import opened Wrappers

  type Byte = x: int | 0 <= x < 256
  type Sextet = x: int | 0 <= x < 64
  type Bytes = seq<Byte>

  datatype B64Error =
    | BadLength(length: nat)
    | BadByte(index: nat)
    | NonCanonical
    | WrongSize(expected: nat, actual: nat)

  // ------------------------------------------------------------------ the alphabet

  /** `A`-`Z`, `a`-`z`, `0`-`9`, `-`, `_`, as bytes of text. */
  function Symbol(v: Sextet): Byte {
    if v < 26 then 65 + v
    else if v < 52 then 97 + (v - 26)
    else if v < 62 then 48 + (v - 52)
    else if v == 62 then 45
    else 95
  }

  function Value(c: Byte): Option<Sextet> {
    if 65 <= c <= 90 then Some(c - 65)
    else if 97 <= c <= 122 then Some(c - 97 + 26)
    else if 48 <= c <= 57 then Some(c - 48 + 52)
    else if c == 45 then Some(62)
    else if c == 95 then Some(63)
    else None
  }

  lemma SymbolsAreValues(v: Sextet, c: Byte)
    ensures Value(Symbol(v)) == Some(v)
    ensures Value(c) == Some(v) <==> c == Symbol(v)
  {
  }

  // -------------------------------------------------------------------- one chunk

  function Digit(chunk: Bytes, i: nat): int {
    if i < |chunk| then chunk[i] else 0
  }

  /** Up to three bytes as one number of 24 bits, missing bytes zero. */
  function Number(chunk: Bytes): (n: int)
    requires |chunk| <= 3
    ensures 0 <= n < 0x100_0000
  {
    Digit(chunk, 0) * 0x1_0000 + Digit(chunk, 1) * 0x100 + Digit(chunk, 2)
  }

  /** What a shift of `18 - 6 * i` divides by. */
  function SextetWeight(i: int): int
    requires 0 <= i < 4
  {
    if i == 0 then 0x4_0000 else if i == 1 then 0x1000 else if i == 2 then 0x40 else 1
  }

  /** What a shift of `16 - 8 * i` divides by. */
  function ByteWeight(i: int): int
    requires 0 <= i < 3
  {
    if i == 0 then 0x1_0000 else if i == 1 then 0x100 else 1
  }

  function SextetAt(n: int, i: int): Sextet
    requires 0 <= i < 4
  {
    n / SextetWeight(i) % 64
  }

  function ByteAt(n: int, i: int): Byte
    requires 0 <= i < 3
  {
    n / ByteWeight(i) % 256
  }

  /** Three bytes make four characters, two make three, one makes two. */
  function Spell(chunk: Bytes): (s: Bytes)
    requires 1 <= |chunk| <= 3
    ensures |s| == |chunk| + 1
  {
    seq(|chunk| + 1, i requires 0 <= i < |chunk| + 1 => Symbol(SextetAt(Number(chunk), i)))
  }

  predicate AllValues(s: Bytes) {
    forall i :: 0 <= i < |s| ==> Value(s[i]).Some?
  }

  /** The number that characters stand for. */
  function Sum(s: Bytes): int
    requires |s| <= 4 && AllValues(s)
  {
    if s == [] then 0 else Sum(s[..|s| - 1]) + Value(s[|s| - 1]).value * SextetWeight(|s| - 1)
  }

  /** The bits behind the last whole byte. */
  function Leftover(n: int, chars: nat): int
    requires 2 <= chars <= 4
  {
    if chars == 2 then n % 0x1_0000 else if chars == 3 then n % 0x100 else 0
  }

  function Read(s: Bytes): (b: Bytes)
    requires 2 <= |s| <= 4 && AllValues(s)
    ensures |b| == |s| - 1
  {
    seq(|s| - 1, i requires 0 <= i < |s| - 1 => ByteAt(Sum(s), i))
  }

  /** The value of a character, or zero bits where there is none. */
  function Bits(s: Bytes, i: nat): (v: Sextet)
    requires AllValues(s)
  {
    if i < |s| then Value(s[i]).value else 0
  }

  lemma SumIs(s: Bytes)
    requires 2 <= |s| <= 4 && AllValues(s)
    ensures Sum(s) == Bits(s, 0) * 0x4_0000 + Bits(s, 1) * 0x1000 + Bits(s, 2) * 0x40 + Bits(s, 3)
  {
    assert Sum(s[..0]) == 0;
    assert s[..1][..0] == s[..0] && s[..2][..1] == s[..1];
    assert Sum(s[..1]) == Value(s[0]).value * 0x4_0000;
    assert Sum(s[..2]) == Sum(s[..1]) + Value(s[1]).value * 0x1000;
    if |s| == 2 {
      assert s[..2] == s;
    } else {
      assert s[..3][..2] == s[..2];
      assert Sum(s[..3]) == Sum(s[..2]) + Value(s[2]).value * 0x40;
      if |s| == 3 { assert s[..3] == s; }
    }
  }

  lemma SextetsOf(a: Sextet, b: Sextet, c: Sextet, d: Sextet)
    ensures var n := a * 0x4_0000 + b * 0x1000 + c * 0x40 + d;
      SextetAt(n, 0) == a && SextetAt(n, 1) == b && SextetAt(n, 2) == c && SextetAt(n, 3) == d
  {
    var n := a * 0x4_0000 + b * 0x1000 + c * 0x40 + d;
    assert n / 0x4_0000 == a;
    assert n / 0x1000 == a * 0x40 + b;
    assert n / 0x40 == a * 0x1000 + b * 0x40 + c;
  }

  lemma BytesOf(a: Byte, b: Byte, c: Byte)
    ensures var n := a * 0x1_0000 + b * 0x100 + c;
      ByteAt(n, 0) == a && ByteAt(n, 1) == b && ByteAt(n, 2) == c
  {
    var n := a * 0x1_0000 + b * 0x100 + c;
    assert n / 0x1_0000 == a;
    assert n / 0x100 == a * 0x100 + b;
  }

  /** A number of 24 bits is its sextets, and it is its bytes. */
  lemma InSextets(n: int)
    requires 0 <= n < 0x100_0000
    ensures n == SextetAt(n, 0) * 0x4_0000 + SextetAt(n, 1) * 0x1000 + SextetAt(n, 2) * 0x40 + SextetAt(n, 3)
  {
    var (n6, n12, n18) := (n / 0x40, n / 0x1000, n / 0x4_0000);
    assert n6 / 0x40 == n12 && n12 / 0x40 == n18 && n18 < 0x40;
  }

  lemma InBytes(n: int)
    requires 0 <= n < 0x100_0000
    ensures n == ByteAt(n, 0) * 0x1_0000 + ByteAt(n, 1) * 0x100 + ByteAt(n, 2)
  {
    var (n8, n16) := (n / 0x100, n / 0x1_0000);
    assert n8 / 0x100 == n16 && n16 < 0x100;
  }

  lemma NoSextets(n: int)
    requires 0 <= n < 0x100_0000
    ensures n % 0x40 == 0 ==> SextetAt(n, 3) == 0
    ensures n % 0x1000 == 0 ==> SextetAt(n, 2) == 0 && SextetAt(n, 3) == 0
  {
  }

  /** One byte leaves twelve bits unused, two leave six. */
  lemma ShortNumber(chunk: Bytes)
    requires 1 <= |chunk| <= 2
    ensures |chunk| == 1 ==> Number(chunk) % 0x1000 == 0
    ensures Number(chunk) % 0x40 == 0
  {
    var (a, b) := (Digit(chunk, 0), Digit(chunk, 1));
    if |chunk| == 1 {
      assert Number(chunk) == 0x1000 * (16 * a);
    } else {
      assert Number(chunk) == 0x40 * (0x400 * a + 4 * b);
    }
  }

  lemma NoLastByte(n: int)
    requires 0 <= n < 0x100_0000
    ensures n % 0x100 == 0 <==> ByteAt(n, 2) == 0
  {
  }

  lemma NoTwoBytes(n: int)
    requires 0 <= n < 0x100_0000
    ensures n % 0x1_0000 == 0 <==> ByteAt(n, 1) == 0 && ByteAt(n, 2) == 0
  {
    var (low, high) := (n % 0x1_0000, n / 0x1_0000);
    assert n == high * 0x1_0000 + low;
    assert n / 0x100 == high * 0x100 + low / 0x100;
  }

  /** A chunk's spelling is in the alphabet and stands for the chunk. */
  lemma SpellSums(chunk: Bytes)
    requires 1 <= |chunk| <= 3
    ensures AllValues(Spell(chunk)) && Sum(Spell(chunk)) == Number(chunk)
  {
    var (s, n) := (Spell(chunk), Number(chunk));
    forall i | 0 <= i < |s| ensures Value(s[i]) == Some(SextetAt(n, i)) { SymbolsAreValues(SextetAt(n, i), s[i]); }
    SumIs(s);
    InSextets(n);
    NoSextets(n);
    if |chunk| < 3 { ShortNumber(chunk); }
  }

  /** It has no bits to spare, and reads back. */
  lemma SpellReads(chunk: Bytes)
    requires 1 <= |chunk| <= 3
    ensures AllValues(Spell(chunk))
    ensures Leftover(Sum(Spell(chunk)), |chunk| + 1) == 0 && Read(Spell(chunk)) == chunk
  {
    SpellSums(chunk);
    var n := Number(chunk);
    BytesOf(Digit(chunk, 0), Digit(chunk, 1), Digit(chunk, 2));
    NoLastByte(n);
    NoTwoBytes(n);
    forall i | 0 <= i < |chunk| ensures Read(Spell(chunk))[i] == chunk[i] { assert ByteAt(n, i) == Digit(chunk, i); }
  }

  lemma ReadSums(s: Bytes)
    requires 2 <= |s| <= 4 && AllValues(s) && Leftover(Sum(s), |s|) == 0
    ensures Number(Read(s)) == Sum(s) < 0x100_0000
  {
    SumIs(s);
    InBytes(Sum(s));
    NoLastByte(Sum(s));
    NoTwoBytes(Sum(s));
  }

  /** Characters with no bits to spare are the spelling of what they read as. */
  lemma ReadSpells(s: Bytes)
    requires 2 <= |s| <= 4 && AllValues(s) && Leftover(Sum(s), |s|) == 0
    ensures Spell(Read(s)) == s
  {
    SumIs(s);
    ReadSums(s);
    var n := Sum(s);
    SextetsOf(Bits(s, 0), Bits(s, 1), Bits(s, 2), Bits(s, 3));
    forall i | 0 <= i < |s| ensures Spell(Read(s))[i] == s[i] {
      assert SextetAt(n, i) == Bits(s, i);
      SymbolsAreValues(SextetAt(n, i), s[i]);
    }
  }

  // --------------------------------------------------------------- whole strings

  function Encoded(b: Bytes): Bytes {
    if b == [] then [] else if |b| <= 3 then Spell(b) else Spell(b[..3]) + Encoded(b[3..])
  }

  /** The first character outside the alphabet. */
  function FirstBad(s: Bytes): (i: nat)
    ensures i <= |s|
    ensures AllValues(s[..i])
    ensures i < |s| ==> Value(s[i]).None?
  {
    if s == [] || Value(s[0]).None? then 0 else
      var i := FirstBad(s[1..]);
      assert s[..1 + i] == [s[0]] + s[1..][..i];
      1 + i
  }

  /** Decode what follows the first `at` characters; the length has been seen. */
  function DecodeFrom(s: Bytes, at: nat): (r: Result<Bytes, B64Error>)
    requires |s| % 4 != 1
  {
    if s == [] then Ok([])
    else
      var take := if |s| <= 4 then |s| else 4;
      var bad := FirstBad(s[..take]);
      if bad < take then Err(BadByte(at + bad))
      else
        assert s[..take][..bad] == s[..take];
        if take < 4 && Leftover(Sum(s[..take]), take) != 0 then Err(NonCanonical)
        else if |s| <= 4 then Ok(Read(s[..take]))
        else
          var rest := DecodeFrom(s[4..], at + 4);
          if rest.Err? then rest else Ok(Read(s[..4]) + rest.value)
  }

  function Decoded(s: Bytes): Result<Bytes, B64Error> {
    if |s| % 4 == 1 then Err(BadLength(|s|)) else DecodeFrom(s, 0)
  }

  /** An id is the text itself, once it spells the right number of bytes. */
  function Parsed(s: Bytes, size: nat): Result<Bytes, B64Error> {
    var d := Decoded(s);
    if d.Err? then d
    else if |d.value| != size then Err(WrongSize(size, |d.value|))
    else Ok(s)
  }

  lemma AllValuesHasNoBad(s: Bytes)
    requires AllValues(s)
    ensures FirstBad(s) == |s|
  {
  }

  lemma {:induction false} EncodedLength(b: Bytes)
    ensures |Encoded(b)| == |b| / 3 * 4 + (if |b| % 3 == 0 then 0 else |b| % 3 + 1)
  {
    if |b| > 3 { EncodedLength(b[3..]); }
  }

  lemma DecodeChunk(s: Bytes, at: nat)
    requires 2 <= |s| <= 4 && AllValues(s) && Leftover(Sum(s), |s|) == 0
    ensures DecodeFrom(s, at) == Ok(Read(s))
  {
    AllValuesHasNoBad(s);
    assert s[..|s|] == s;
  }

  lemma DecodeMore(s: Bytes, rest: Bytes, at: nat)
    requires |s| == 4 && AllValues(s) && rest != [] && |rest| % 4 != 1
    ensures DecodeFrom(s + rest, at) == Prefixed(Read(s), DecodeFrom(rest, at + 4))
  {
    AllValuesHasNoBad(s);
    assert (s + rest)[..4] == s && (s + rest)[4..] == rest;
  }

  lemma {:induction false} EncodedLengthOk(b: Bytes)
    ensures |Encoded(b)| % 4 != 1 && (b != [] ==> Encoded(b) != [])
  {
    if |b| > 3 { EncodedLengthOk(b[3..]); }
  }

  lemma {:induction false} EncodedReads(b: Bytes, at: nat)
    ensures |Encoded(b)| % 4 != 1 && DecodeFrom(Encoded(b), at) == Ok(b)
  {
    EncodedLengthOk(b);
    if b == [] {
    } else if |b| <= 3 {
      SpellReads(b);
      DecodeChunk(Spell(b), at);
    } else {
      SpellReads(b[..3]);
      EncodedLengthOk(b[3..]);
      EncodedReads(b[3..], at + 4);
      DecodeMore(Spell(b[..3]), Encoded(b[3..]), at);
      assert b == b[..3] + b[3..];
    }
  }

  /** What a decoded string begins with. */
  lemma DecodedStarts(s: Bytes, at: nat)
    requires |s| % 4 != 1 && s != [] && DecodeFrom(s, at).Ok?
    ensures var take := if |s| <= 4 then |s| else 4;
      && AllValues(s[..take]) && Leftover(Sum(s[..take]), take) == 0
      && (|s| > 4 ==> DecodeFrom(s[4..], at + 4).Ok?)
      && DecodeFrom(s, at).value ==
        if |s| <= 4 then Read(s[..take]) else Read(s[..4]) + DecodeFrom(s[4..], at + 4).value
  {
    var take := if |s| <= 4 then |s| else 4;
    assert s[..take][..FirstBad(s[..take])] == s[..take];
  }

  lemma {:induction false} DecodedSpells(s: Bytes, at: nat)
    requires |s| % 4 != 1 && DecodeFrom(s, at).Ok?
    ensures Encoded(DecodeFrom(s, at).value) == s
  {
    if s == [] {
    } else {
      DecodedStarts(s, at);
      if |s| <= 4 {
        assert s[..|s|] == s;
        ReadSpells(s);
      } else {
        var (head, tail) := (Read(s[..4]), DecodeFrom(s[4..], at + 4).value);
        ReadSpells(s[..4]);
        DecodedSpells(s[4..], at + 4);
        EncodedMore(head, tail);
        assert s == s[..4] + s[4..];
      }
    }
  }

  lemma EncodedMore(head: Bytes, tail: Bytes)
    requires |head| == 3
    ensures Encoded(head + tail) == Spell(head) + Encoded(tail)
  {
    if tail == [] {
      assert head + tail == head;
    } else {
      assert (head + tail)[..3] == head && (head + tail)[3..] == tail;
    }
  }

  // ------------------------------------------------------------- the theorems

  /** Decoding undoes encoding, and accepts nothing but what encoding produces. */
  lemma Bijection(b: Bytes, s: Bytes)
    ensures Decoded(Encoded(b)) == Ok(b)
    ensures Decoded(s) == Ok(b) <==> s == Encoded(b)
  {
    EncodedReads(b, 0);
    if Decoded(s).Ok? { DecodedSpells(s, 0); }
  }

  /** `parse` accepts exactly the spellings of values of the right size, and
      keeps the text. */
  lemma ParseAcceptsSpellings(s: Bytes, size: nat)
    ensures Parsed(s, size).Ok? <==> exists b: Bytes :: |b| == size && Encoded(b) == s
    ensures Parsed(s, size).Ok? ==> Parsed(s, size).value == s
  {
    if Parsed(s, size).Ok? {
      Bijection(Decoded(s).value, s);
    }
    if b: Bytes :| |b| == size && Encoded(b) == s {
      Bijection(b, s);
    }
  }

  const FINGERPRINT_BYTES: nat := 32
  const FINGERPRINT_CHARS: nat := 43
  const DEVICE_ID_BYTES: nat := 16
  const DEVICE_ID_CHARS: nat := 22

  /** Ids have the lengths their constants claim, and no id is both kinds. */
  lemma IdLengths(s: Bytes)
    ensures Parsed(s, FINGERPRINT_BYTES).Ok? ==> |s| == FINGERPRINT_CHARS
    ensures Parsed(s, DEVICE_ID_BYTES).Ok? ==> |s| == DEVICE_ID_CHARS
  {
    if Decoded(s).Ok? {
      Bijection(Decoded(s).value, s);
      EncodedLength(Decoded(s).value);
    }
  }

  lemma {:induction false} FirstBadOfPrefix(s: Bytes, n: nat)
    requires n <= |s|
    ensures FirstBad(s[..n]) == if FirstBad(s) < n then FirstBad(s) else n
  {
    if n > 0 && Value(s[0]).Some? {
      assert s[1..][..n - 1] == s[..n][1..];
      FirstBadOfPrefix(s[1..], n - 1);
    }
  }

  lemma {:induction false} FirstBadBeyond(s: Bytes, n: nat)
    requires n <= |s| && AllValues(s[..n])
    ensures FirstBad(s) == n + FirstBad(s[n..])
  {
    if n > 0 {
      assert Value(s[..n][0]).Some?;
      assert s[1..][..n - 1] == s[..n][1..] && s[1..][n - 1..] == s[n..];
      FirstBadBeyond(s[1..], n - 1);
    } else {
      assert s[n..] == s;
    }
  }

  lemma {:induction false} BadByteIsFirst(s: Bytes, at: nat)
    requires |s| % 4 != 1
    ensures FirstBad(s) < |s| ==> DecodeFrom(s, at) == Err(BadByte(at + FirstBad(s)))
    ensures FirstBad(s) == |s| ==> DecodeFrom(s, at).Ok? || DecodeFrom(s, at) == Err(NonCanonical)
  {
    if s != [] {
      var take := if |s| <= 4 then |s| else 4;
      FirstBadOfPrefix(s, take);
      if FirstBad(s) >= take {
        assert s[..take][..take] == s[..take];
        FirstBadBeyond(s, take);
        if |s| > 4 { BadByteIsFirst(s[4..], at + 4); } else { assert s[take..] == []; }
      }
    }
  }

  /** Which error: an impossible length first, then the first character outside
      the alphabet, and only then bits to spare. */
  lemma WhichError(s: Bytes)
    ensures |s| % 4 == 1 ==> Decoded(s) == Err(BadLength(|s|))
    ensures |s| % 4 != 1 && FirstBad(s) < |s| ==> Decoded(s) == Err(BadByte(FirstBad(s)))
    ensures |s| % 4 != 1 && AllValues(s) ==>
      if exists b: Bytes :: Encoded(b) == s then Decoded(s).Ok? else Decoded(s) == Err(NonCanonical)
  {
    if |s| % 4 != 1 {
      BadByteIsFirst(s, 0);
      if AllValues(s) {
        AllValuesHasNoBad(s);
        if b: Bytes :| Encoded(b) == s {
          Bijection(b, s);
        } else if Decoded(s).Ok? {
          Bijection(Decoded(s).value, s);
        }
      }
    }
  }

  // ------------------------------------------------------------------- the loops

  method SpellChunk(chunk: Bytes) returns (out: Bytes)
    requires 1 <= |chunk| <= 3
    ensures out == Spell(chunk)
  {
    var n := Number(chunk);
    out := [];
    for i := 0 to |chunk| + 1
      invariant out == Spell(chunk)[..i]
    {
      out := out + [Symbol(SextetAt(n, i))];
    }
  }

  method Encode(input: Bytes) returns (out: Bytes)
    ensures out == Encoded(input)
  {
    out := [];
    var rest := input;
    while rest != []
      invariant out + Encoded(rest) == Encoded(input)
      decreases |rest|
    {
      var take := if |rest| <= 3 then |rest| else 3;
      var chars := SpellChunk(rest[..take]);
      assert Encoded(rest) == chars + Encoded(rest[take..]) by {
        if |rest| <= 3 { assert rest[..take] == rest && rest[take..] == []; }
      }
      out := out + chars;
      rest := rest[take..];
    }
  }

  /** Add up one chunk's characters; `bad` is the first outside the alphabet. */
  method SumChunk(chunk: Bytes) returns (n: int, bad: nat)
    requires |chunk| <= 4
    ensures bad == FirstBad(chunk)
    ensures bad == |chunk| ==> AllValues(chunk) && n == Sum(chunk)
  {
    n, bad := 0, 0;
    while bad < |chunk| && Value(chunk[bad]).Some?
      invariant bad <= |chunk| && AllValues(chunk[..bad])
      invariant n == Sum(chunk[..bad])
    {
      assert chunk[..bad + 1][..bad] == chunk[..bad];
      n := n + Value(chunk[bad]).value * SextetWeight(bad);
      bad := bad + 1;
    }
    FirstBadBeyond(chunk, bad);
    assert chunk[..|chunk|] == chunk;
  }

  method ReadChunk(n: int, whole: nat) returns (out: Bytes)
    requires whole <= 3
    ensures out == seq(whole, i requires 0 <= i < whole => ByteAt(n, i))
  {
    out := [];
    for i := 0 to whole
      invariant out == seq(i, k requires 0 <= k < i => ByteAt(n, k))
    {
      out := out + [ByteAt(n, i)];
    }
  }

  function Prefixed(done: Bytes, r: Result<Bytes, B64Error>): Result<Bytes, B64Error> {
    if r.Err? then r else Ok(done + r.value)
  }

  lemma PrefixedTwice(a: Bytes, b: Bytes, r: Result<Bytes, B64Error>)
    ensures Prefixed(a, Prefixed(b, r)) == Prefixed(a + b, r)
  {
    if r.Ok? { assert a + (b + r.value) == a + b + r.value; }
  }

  method Decode(input: Bytes) returns (r: Result<Bytes, B64Error>)
    ensures r == Decoded(input)
  {
    if |input| % 4 == 1 { return Err(BadLength(|input|)); }
    var out: Bytes := [];
    var rest, at := input, 0;
    assert Prefixed([], DecodeFrom(rest, 0)) == Decoded(input) by {
      if Decoded(input).Ok? { assert [] + Decoded(input).value == Decoded(input).value; }
    }
    while rest != []
      invariant |rest| % 4 != 1
      invariant Decoded(input) == Prefixed(out, DecodeFrom(rest, at))
      decreases |rest|
    {
      var take := if |rest| <= 4 then |rest| else 4;
      var n, bad := SumChunk(rest[..take]);
      if bad < take { return Err(BadByte(at + bad)); }
      var bytes := ReadChunk(n, take - 1);
      if take < 4 && Leftover(n, take) != 0 { return Err(NonCanonical); }
      assert DecodeFrom(rest, at) == Prefixed(bytes, DecodeFrom(rest[take..], at + take)) by {
        assert bytes == Read(rest[..take]);
        if |rest| <= 4 { assert rest[take..] == [] && bytes + [] == bytes; }
      }
      PrefixedTwice(out, bytes, DecodeFrom(rest[take..], at + take));
      out, rest, at := out + bytes, rest[take..], at + take;
    }
    assert out + [] == out;
    return Ok(out);
  }

  method Parse(s: Bytes, size: nat) returns (r: Result<Bytes, B64Error>)
    ensures r == Parsed(s, size)
  {
    var d := Decode(s);
    if d.Err? { return d; }
    if |d.value| != size { return Err(WrongSize(size, |d.value|)); }
    return Ok(s);
  }

  /** The bytes themselves, where a fixed number of them is wanted: what does
      not decode is refused as it is, and a wrong size for being one. */
  method DecodeExact(s: Bytes, size: nat) returns (r: Result<Bytes, B64Error>)
    ensures r.Ok? <==> exists b: Bytes :: |b| == size && Encoded(b) == s
    ensures r.Ok? ==> |r.value| == size && Encoded(r.value) == s
    ensures r.Err? ==> r.error == if Decoded(s).Err? then Decoded(s).error else WrongSize(size, |Decoded(s).value|)
  {
    ParseAcceptsSpellings(s, size);
    var d := Decode(s);
    if d.Err? { return d; }
    Bijection(d.value, s);
    if |d.value| != size { return Err(WrongSize(size, |d.value|)); }
    return d;
  }
}

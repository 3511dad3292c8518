/** The XOR metric every ordering in the client engine rests on: identifiers are
    32 bytes, the distance of a peer to a target is the bytewise exclusive or,
    and distances compare as byte strings, most significant byte first. */
module XorMetric {
  import opened Lexicographic

  const ID_BYTES: nat := 32

  type Id = s: seq<bv8> | |s| == ID_BYTES witness seq(ID_BYTES, _ => 0)

  /** A byte read as a number. */
  function Digit(b: bv8): (r: nat)
    ensures r < 256
  {
    b as nat
  }

  function XorDigit(a: bv8, b: bv8): (r: nat)
    ensures r < 256
  {
    Digit(a ^ b)
  }

  /** The bytewise exclusive or of two byte strings, each byte read as a number. */
  function XorDigits(a: seq<bv8>, b: seq<bv8>): (r: seq<nat>)
    requires |a| == |b|
    ensures |r| == |a|
    ensures forall i :: 0 <= i < |r| ==> r[i] == XorDigit(a[i], b[i])
  {
    seq(|a|, i requires 0 <= i < |a| => XorDigit(a[i], b[i]))
  }

  predicate AreBytes(s: seq<nat>) {
    forall i :: 0 <= i < |s| ==> s[i] < 256
  }

  function Pow256(n: nat): (r: nat)
    ensures r >= 1
  {
    if n == 0 then 1 else 256 * Pow256(n - 1)
  }

  lemma DigitBound(x: nat, p: nat, low: nat)
    requires x < 256 && low < p
    ensures x * p + low < 256 * p
  {
    assert x * p + low < (x + 1) * p <= 256 * p;
  }

  /** A byte string read as a big-endian number. */
  function BigEndian(s: seq<nat>): (r: nat)
    requires AreBytes(s)
    ensures r < Pow256(|s|)
  {
    if s == [] then 0
    else
      var low := BigEndian(s[1..]);
      DigitBound(s[0], Pow256(|s| - 1), low);
      s[0] * Pow256(|s| - 1) + low
  }

  /** The distance from `peer` to `target`, as a number. `Nearer` ties its order
      to the source's byte comparison and `DistanceInjective` makes it a key. */
  function Distance(peer: Id, target: Id): (r: nat) {
    BigEndian(XorDigits(peer, target))
  }

  lemma ByteXorCancels(a: bv8, b: bv8, t: bv8)
    requires a ^ t == b ^ t
    ensures a == b
  {
    assert (a ^ t) ^ t == a;
    assert (b ^ t) ^ t == b;
  }

  lemma DigitInjective(a: bv8, b: bv8)
    requires Digit(a) == Digit(b)
    ensures a == b
  {
    assert a == Digit(a) as bv8;
    assert b == Digit(b) as bv8;
  }

  lemma XorDigitInjective(a: bv8, b: bv8, t: bv8)
    requires XorDigit(a, t) == XorDigit(b, t)
    ensures a == b
  {
    DigitInjective(a ^ t, b ^ t);
    ByteXorCancels(a, b, t);
  }

  lemma XorInjective(a: seq<bv8>, b: seq<bv8>, t: seq<bv8>)
    requires |a| == |b| == |t|
    requires XorDigits(a, t) == XorDigits(b, t)
    ensures a == b
  {
    forall i | 0 <= i < |a|
      ensures a[i] == b[i]
    {
      assert XorDigits(a, t)[i] == XorDigits(b, t)[i];
      XorDigitInjective(a[i], b[i], t[i]);
    }
  }

  lemma LeadingDigitDecides(x: nat, y: nat, p: nat, low: nat, high: nat)
    requires low < p && high < p && x < y
    ensures x * p + low < y * p + high
  {
    assert x * p + low < (x + 1) * p <= y * p;
  }

  /** Numeric order of the big-endian values is byte-string order. */
  lemma {:induction false} BigEndianOrder(a: seq<nat>, b: seq<nat>)
    requires |a| == |b| && AreBytes(a) && AreBytes(b)
    ensures BigEndian(a) < BigEndian(b) <==> LexLess(a, b)
    ensures BigEndian(a) == BigEndian(b) <==> a == b
  {
    if a != [] {
      var p := Pow256(|a| - 1);
      BigEndianOrder(a[1..], b[1..]);
      assert a == [a[0]] + a[1..] && b == [b[0]] + b[1..];
      if a[0] < b[0] {
        LeadingDigitDecides(a[0], b[0], p, BigEndian(a[1..]), BigEndian(b[1..]));
      } else if b[0] < a[0] {
        LeadingDigitDecides(b[0], a[0], p, BigEndian(b[1..]), BigEndian(a[1..]));
      }
    }
  }

  /** Two peers at the same distance from a target are the same peer. Every
      sort-then-deduplicate step and every order-independence claim needs it. */
  lemma DistanceInjective(a: Id, b: Id, target: Id)
    requires Distance(a, target) == Distance(b, target)
    ensures a == b
  {
    BigEndianOrder(XorDigits(a, target), XorDigits(b, target));
    XorInjective(a, b, target);
  }

  /** Comparing distances is comparing the distance bytes, as the source does. */
  lemma Nearer(a: Id, b: Id, target: Id)
    ensures Distance(a, target) < Distance(b, target)
            <==> LexLess(XorDigits(a, target), XorDigits(b, target))
  {
    BigEndianOrder(XorDigits(a, target), XorDigits(b, target));
  }
}

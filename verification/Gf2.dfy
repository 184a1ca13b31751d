/**
  Polynomials over GF(2), as the sets of their exponents, and division with remainder.

  A quotient is the list of its coefficients, highest first, and division goes one coefficient at
  a time. `RemainderIsUnique` makes the remainder a notion of its own: two divisions of the same
  polynomial by one of degree d, both with a remainder of lower degree, have the same remainder.
  The last part places bytes, first byte highest, and builds the polynomial that a register with
  some start value divides when it is fed those bytes.
 */
module Gf2 {
  /** Coefficients are added modulo two. */
  function Add(a: set<nat>, b: set<nat>): set<nat> {
    (a - b) + (b - a)
  }

  /** Times x to the n. */
  function Shift(a: set<nat>, n: nat): set<nat> {
    set e | e in a :: e + n
  }

  lemma ShiftIn(a: set<nat>, n: nat, x: nat)
    ensures x in Shift(a, n) <==> x >= n && x - n in a
  {
    if x >= n && x - n in a { assert (x - n) + n == x; }
  }

  predicate Below(a: set<nat>, n: nat) {
    forall e :: e in a ==> e < n
  }

  /** The coefficient of x to the e in the product of p and q, q by its coefficients from the highest down. */
  predicate InProduct(p: set<nat>, q: seq<bool>, e: nat) {
    q != [] && (e >= 1 && InProduct(p, q[..|q| - 1], e - 1)) != (q[|q| - 1] && e in p)
  }

  lemma ProductLast(p: set<nat>, q: seq<bool>, b: bool, e: nat)
    ensures InProduct(p, q + [b], e) <==> (e >= 1 && InProduct(p, q, e - 1)) != (b && e in p)
  {
    assert (q + [b])[..|q|] == q;
    if q == [] { assert !InProduct(p, q, if e >= 1 then e - 1 else 0); }
  }

  ghost predicate DividedAt(all: set<nat>, p: set<nat>, q: seq<bool>, r: set<nat>, e: nat) {
    e in all <==> InProduct(p, q, e) != (e in r)
  }

  /** `all` is p times q plus r. */
  ghost predicate Divided(all: set<nat>, p: set<nat>, q: seq<bool>, r: set<nat>) {
    forall e: nat :: DividedAt(all, p, q, r, e)
  }

  /** One step of long division: the remainder times x, less p if that has p's highest power. */
  lemma DivideStep(all: set<nat>, p: set<nat>, q: seq<bool>, r: set<nat>, b: bool, r': set<nat>)
    requires Divided(all, p, q, r)
    requires forall e: nat :: e in r' <==> (e in Shift(r, 1)) != (b && e in p)
    ensures Divided(Shift(all, 1), p, q + [b], r')
  {
    forall e: nat ensures DividedAt(Shift(all, 1), p, q + [b], r', e) {
      ShiftIn(all, 1, e);
      ShiftIn(r, 1, e);
      ProductLast(p, q, b, e);
      if e >= 1 { assert DividedAt(all, p, q, r, e - 1); }
    }
  }

  lemma DividedPlus(all: set<nat>, p: set<nat>, q: seq<bool>, r: set<nat>, more: set<nat>)
    requires Divided(all, p, q, r)
    ensures Divided(Add(all, more), p, q, Add(r, more))
  {
    forall e: nat ensures DividedAt(Add(all, more), p, q, Add(r, more), e) { assert DividedAt(all, p, q, r, e); }
  }

  lemma ShiftTwice(a: set<nat>, m: nat, n: nat)
    ensures Shift(Shift(a, m), n) == Shift(a, m + n)
  {
    forall x: nat ensures x in Shift(Shift(a, m), n) <==> x in Shift(a, m + n) {
      ShiftIn(Shift(a, m), n, x);
      if x >= n { ShiftIn(a, m, x - n); }
      ShiftIn(a, m + n, x);
    }
  }

  lemma ShiftNone(a: set<nat>)
    ensures Shift(a, 0) == a
  {
    forall x: nat ensures x in Shift(a, 0) <==> x in a { ShiftIn(a, 0, x); }
  }

  // ---------- there is only one remainder ----------

  /** A product has the degree of its factors. */
  lemma {:induction false} TopTerm(p: set<nat>, d: nat, q: seq<bool>)
    requires d in p && q != [] && q[0] && Below(p, d + 1)
    ensures InProduct(p, q, d + |q| - 1)
    decreases |q|
  {
    var n := |q| - 1;
    if n > 0 { TopTerm(p, d, q[..n]); }
  }

  lemma {:induction false} ZerosAt(p: set<nat>, q: seq<bool>, e: nat)
    requires q != [] && !q[0]
    ensures InProduct(p, q, e) <==> InProduct(p, q[1..], e)
    decreases |q|
  {
    var n := |q| - 1;
    if n > 0 {
      assert q[1..][..n - 1] == q[..n][1..];
      if e >= 1 { ZerosAt(p, q[..n], e - 1); }
    }
  }

  function Sum(a: seq<bool>, b: seq<bool>): (r: seq<bool>)
    requires |a| == |b|
    ensures |r| == |a|
  {
    seq(|a|, i requires 0 <= i < |a| == |b| => a[i] != b[i])
  }

  lemma {:induction false} SumAt(p: set<nat>, a: seq<bool>, b: seq<bool>, e: nat)
    requires |a| == |b|
    ensures InProduct(p, Sum(a, b), e) <==> InProduct(p, a, e) != InProduct(p, b, e)
    decreases |a|
  {
    if a != [] {
      var n := |a| - 1;
      assert Sum(a, b)[..n] == Sum(a[..n], b[..n]);
      if e >= 1 { SumAt(p, a[..n], b[..n], e - 1); }
    }
  }

  /** A multiple of p that has no power as high as p's highest is nothing. */
  lemma {:induction false} SmallMultiple(p: set<nat>, d: nat, q: seq<bool>, e: nat)
    requires d in p && Below(p, d + 1) && forall x: nat :: x >= d ==> !InProduct(p, q, x)
    ensures !InProduct(p, q, e)
    decreases |q|
  {
    if q != [] {
      if q[0] { TopTerm(p, d, q); }
      assert !q[0];
      forall x: nat | x >= d ensures !InProduct(p, q[1..], x) { ZerosAt(p, q, x); }
      SmallMultiple(p, d, q[1..], e);
      ZerosAt(p, q, e);
    }
  }

  function Zeros(k: nat): (r: seq<bool>)
    ensures |r| == k
  {
    seq(k, _ => false)
  }

  lemma {:induction false} LeadingZeros(p: set<nat>, k: nat, q: seq<bool>, e: nat)
    ensures InProduct(p, Zeros(k) + q, e) <==> InProduct(p, q, e)
    decreases k
  {
    if k == 0 {
      assert Zeros(0) + q == q;
    } else {
      var all := Zeros(k) + q;
      assert all[1..] == Zeros(k - 1) + q;
      ZerosAt(p, all, e);
      LeadingZeros(p, k - 1, q, e);
    }
  }

  /** The remainder of a division by p is the only one without p's highest power. */
  lemma RemainderIsUnique(all: set<nat>, p: set<nat>, d: nat, q: seq<bool>, r: set<nat>, q': seq<bool>, r': set<nat>)
    requires d in p && Below(p, d + 1) && Below(r, d) && Below(r', d)
    requires Divided(all, p, q, r) && Divided(all, p, q', r')
    ensures r == r'
  {
    var n := if |q| > |q'| then |q| else |q'|;
    var a, b := Zeros(n - |q|) + q, Zeros(n - |q'|) + q';
    forall e: nat ensures InProduct(p, Sum(a, b), e) <==> (e in r) != (e in r') {
      SumAt(p, a, b, e);
      LeadingZeros(p, n - |q|, q, e);
      LeadingZeros(p, n - |q'|, q', e);
      assert DividedAt(all, p, q, r, e) && DividedAt(all, p, q', r', e);
    }
    forall e: nat ensures e in r <==> e in r' { SmallMultiple(p, d, Sum(a, b), e); }
  }

  // ---------- a message in parts of eight coefficients ----------

  /** A part is written with its exponents moved up by 24. */
  predicate IsByte(part: set<nat>) {
    forall e :: e in part ==> 24 <= e < 32
  }

  /** The first part is the highest. */
  function Placed(parts: seq<set<nat>>): set<nat> {
    set e: nat | e < 8 * |parts| && 24 + e % 8 in parts[|parts| - 1 - e / 8]
  }

  lemma PlacedFront(parts: seq<set<nat>>, last: set<nat>, e: nat)
    requires e >= 8
    ensures e in Placed(parts + [last]) <==> e - 8 in Placed(parts)
  {
    assert (e - 8) / 8 == e / 8 - 1 && (e - 8) % 8 == e % 8;
  }

  lemma PlacedLast(parts: seq<set<nat>>, last: set<nat>, e: nat)
    requires e < 8
    ensures e in Placed(parts + [last]) <==> e + 24 in last
  {
    assert e / 8 == 0 && e % 8 == e;
  }

  lemma PlacedAt(parts: seq<set<nat>>, last: set<nat>, x: nat)
    requires IsByte(last)
    ensures (x >= 32 && x - 32 in Placed(parts + [last])) <==>
              (x >= 40 && x - 40 in Placed(parts)) != (x >= 8 && x - 8 in last)
  {
    if x >= 40 { PlacedFront(parts, last, x - 32); }
    else if x >= 32 { PlacedLast(parts, last, x - 32); }
  }

  /** A start, and part by part: add it and go on by eight powers. */
  function Augmented(start: set<nat>, parts: seq<set<nat>>): set<nat> {
    if parts == [] then start
    else Shift(Add(Augmented(start, parts[..|parts| - 1]), parts[|parts| - 1]), 8)
  }

  /** The start over the message, and the message times x to the 32. */
  function Dividend(start: set<nat>, parts: seq<set<nat>>): set<nat> {
    Add(Shift(start, 8 * |parts|), Shift(Placed(parts), 32))
  }

  lemma AugmentedStep(all: set<nat>, last: set<nat>, x: nat)
    ensures x in Shift(Add(all, last), 8) <==> (x >= 8 && x - 8 in all) != (x >= 8 && x - 8 in last)
  {
    ShiftIn(Add(all, last), 8, x);
  }

  lemma {:induction false} AugmentedAt(start: set<nat>, parts: seq<set<nat>>, x: nat)
    requires forall i :: 0 <= i < |parts| ==> IsByte(parts[i])
    ensures x in Augmented(start, parts) <==>
              (x >= 8 * |parts| && x - 8 * |parts| in start) != (x >= 32 && x - 32 in Placed(parts))
    decreases |parts|
  {
    if parts != [] {
      var n := |parts| - 1;
      AugmentedStep(Augmented(start, parts[..n]), parts[n], x);
      if x >= 8 { AugmentedAt(start, parts[..n], x - 8); }
      assert parts == parts[..n] + [parts[n]];
      PlacedAt(parts[..n], parts[n], x);
    }
  }

  lemma AugmentedIs(start: set<nat>, parts: seq<set<nat>>)
    requires forall i :: 0 <= i < |parts| ==> IsByte(parts[i])
    ensures Augmented(start, parts) == Dividend(start, parts)
  {
    forall x: nat ensures x in Augmented(start, parts) <==> x in Dividend(start, parts) {
      AugmentedAt(start, parts, x);
      ShiftIn(start, 8 * |parts|, x);
      ShiftIn(Placed(parts), 32, x);
    }
  }
}

/**
 * Day 14 (14/14.py): the docking program's memory decoder. A 36-character mask
 * forces bits to 1 ('1'), keeps them from the address ('0') or lets them float
 * ('X'); a write goes to every address the floating bits can make.
 */
module Docking {
  import opened Base
  import Py
  import Arith
  import opened Bits

  // ---------------------------------------------------------------- the mask

  /** `Mask`: never changed after construction, so a value. */
  datatype Mask = Mask(ones: nat, zeroes: nat, floating: seq<nat>)

  /** `mask_str[::-1]`. */
  function Reverse(s: string): (r: string)
    ensures |r| == |s| && forall i :: 0 <= i < |s| ==> r[i] == s[|s| - 1 - i]
  {
    seq(|s|, i requires 0 <= i < |s| => s[|s| - 1 - i])
  }

  /** `sum(1 << i for i, bit in enumerate(rev) if (bit == c) == want)`, written in Horner form. */
  function BitsWhere(rev: string, c: char, want: bool): nat {
    if rev == [] then 0
    else (if (rev[0] == c) == want then 1 else 0) + 2 * BitsWhere(rev[1..], c, want)
  }

  /** `[i for i, bit in enumerate(rev) if bit == 'X']`, for the characters from index `start` on. */
  function FloatingFrom(rev: string, start: nat): (r: seq<nat>)
    ensures forall k :: 0 <= k < |r| ==> start <= r[k] < start + |rev|
  {
    if rev == [] then []
    else (if rev[0] == 'X' then [start] else []) + FloatingFrom(rev[1..], start + 1)
  }

  /** `Mask(mask_str)`. */
  function MaskOf(maskStr: string): Mask {
    var rev := Reverse(maskStr);
    Mask(BitsWhere(rev, '1', true), BitsWhere(rev, 'X', false), FloatingFrom(rev, 0))
  }

  /** Bit i of the sum is set exactly when character i is selected. */
  lemma {:induction false} BitsWhereBits(rev: string, c: char, want: bool, i: nat)
    ensures Bit(BitsWhere(rev, c, want), i) == (i < |rev| && (rev[i] == c) == want)
    decreases rev
  {
    if rev == [] {
      ZeroBits(i);
    } else {
      LowBit(if (rev[0] == c) == want then 1 else 0, BitsWhere(rev[1..], c, want), i);
      if i > 0 {
        BitsWhereBits(rev[1..], c, want, i - 1);
      }
    }
  }

  predicate Increasing(s: seq<nat>) {
    forall i, j :: 0 <= i < j < |s| ==> s[i] < s[j]
  }

  /** The positions are ascending and are exactly the 'X' positions. */
  lemma {:induction false} FloatingFromShape(rev: string, start: nat)
    ensures Increasing(FloatingFrom(rev, start))
    ensures forall i: nat :: i in FloatingFrom(rev, start) <==> start <= i < start + |rev| && rev[i - start] == 'X'
    decreases rev
  {
    if rev != [] {
      FloatingFromShape(rev[1..], start + 1);
      var tail := FloatingFrom(rev[1..], start + 1);
      forall i: nat ensures i in tail <==> start + 1 <= i < start + |rev| && rev[i - start] == 'X' {
        if start + 1 <= i < start + |rev| {
          assert rev[1..][i - (start + 1)] == rev[i - start];
        }
      }
    }
  }

  /** The three fields of the mask, bit by bit, counting from the string's last character. */
  lemma MaskBits(maskStr: string)
    ensures var m, rev := MaskOf(maskStr), Reverse(maskStr);
            && (forall i: nat :: Bit(m.ones, i) <==> i < |rev| && rev[i] == '1')
            && (forall i: nat :: Bit(m.zeroes, i) <==> i < |rev| && rev[i] != 'X')
            && Increasing(m.floating)
            && (forall i: nat :: i in m.floating <==> i < |rev| && rev[i] == 'X')
  {
    var rev := Reverse(maskStr);
    forall i: nat ensures Bit(BitsWhere(rev, '1', true), i) <==> i < |rev| && rev[i] == '1' {
      BitsWhereBits(rev, '1', true, i);
    }
    forall i: nat ensures Bit(BitsWhere(rev, 'X', false), i) <==> i < |rev| && rev[i] != 'X' {
      BitsWhereBits(rev, 'X', false, i);
    }
    FloatingFromShape(rev, 0);
  }

  // ---------------------------------------------------------------- subsets of the floating bits

  /** `itertools.combinations(xs, r)`, in its order. */
  function Combinations(xs: seq<nat>, r: nat): seq<seq<nat>>
    decreases |xs|
  {
    if r == 0 then [[]]
    else if xs == [] then []
    else
      Prefixed(xs[0], Combinations(xs[1..], r - 1)) + Combinations(xs[1..], r)
  }

  /** Each list with `x` put in front. */
  function Prefixed(x: nat, cs: seq<seq<nat>>): seq<seq<nat>> {
    if cs == [] then [] else [[x] + cs[0]] + Prefixed(x, cs[1..])
  }

  lemma {:induction false} PrefixedShape(x: nat, cs: seq<seq<nat>>)
    ensures |Prefixed(x, cs)| == |cs| && forall k :: 0 <= k < |cs| ==> Prefixed(x, cs)[k] == [x] + cs[k]
  {
    if cs != [] {
      PrefixedShape(x, cs[1..]);
    }
  }

  /** The combinations of sizes r, r + 1, ..., |xs| one after the other. */
  function SubsetsFrom(xs: seq<nat>, r: nat): seq<seq<nat>>
    decreases |xs| + 1 - r
  {
    if r > |xs| then [] else Combinations(xs, r) + SubsetsFrom(xs, r + 1)
  }

  /** `floating_bit_subsets`. */
  function Subsets(xs: seq<nat>): seq<seq<nat>> {
    SubsetsFrom(xs, 0)
  }

  predicate Distinct<T(==)>(s: seq<T>) {
    forall i, j :: 0 <= i < j < |s| ==> s[i] != s[j]
  }

  predicate Within(c: seq<nat>, xs: seq<nat>) {
    forall k :: 0 <= k < |c| ==> c[k] in xs
  }

  /** The combinations of size r of an ascending list are its ascending sub-lists of length r. */
  lemma CombinationsMembers(xs: seq<nat>, r: nat, c: seq<nat>)
    requires Increasing(xs)
    ensures c in Combinations(xs, r) <==> |c| == r && Increasing(c) && Within(c, xs)
  {
    if c in Combinations(xs, r) {
      CombinationsSound(xs, r, c);
    }
    if |c| == r && Increasing(c) && Within(c, xs) {
      CombinationsComplete(xs, r, c);
    }
  }

  lemma {:induction false} CombinationsSound(xs: seq<nat>, r: nat, c: seq<nat>)
    requires Increasing(xs) && c in Combinations(xs, r)
    ensures |c| == r && Increasing(c) && Within(c, xs)
    decreases |xs|, 1
  {
    if r != 0 && xs != [] {
      var rest := xs[1..];
      assert Combinations(xs, r) == Prefixed(xs[0], Combinations(rest, r - 1)) + Combinations(rest, r);
      if c in Combinations(rest, r) {
        SoundLater(xs, r, c);
      } else {
        var t := PrefixedMember(xs[0], Combinations(rest, r - 1), c);
        SoundPrefixed(xs, r, c, t);
      }
    }
  }

  /** A combination that leaves out the first element. */
  lemma {:induction false} SoundLater(xs: seq<nat>, r: nat, c: seq<nat>)
    requires Increasing(xs) && xs != [] && c in Combinations(xs[1..], r)
    ensures |c| == r && Increasing(c) && Within(c, xs)
    decreases |xs|, 0
  {
    IncreasingTail(xs);
    CombinationsSound(xs[1..], r, c);
    WithinRest(xs, c);
  }

  /** A combination that starts with the first element. */
  lemma {:induction false} SoundPrefixed(xs: seq<nat>, r: nat, c: seq<nat>, t: seq<nat>)
    requires Increasing(xs) && xs != [] && r != 0 && t in Combinations(xs[1..], r - 1) && c == [xs[0]] + t
    ensures |c| == r && Increasing(c) && Within(c, xs)
    decreases |xs|, 0
  {
    IncreasingTail(xs);
    CombinationsSound(xs[1..], r - 1, t);
    assert |c| == |t| + 1;
    PrefixSound(xs, t, c);
  }

  /** A member of `Prefixed(x, cs)` is `x` in front of a member of `cs`. */
  lemma PrefixedMember(x: nat, cs: seq<seq<nat>>, c: seq<nat>) returns (t: seq<nat>)
    requires c in Prefixed(x, cs)
    ensures t in cs && c == [x] + t
  {
    PrefixedShape(x, cs);
    var k :| 0 <= k < |cs| && Prefixed(x, cs)[k] == c;
    t := cs[k];
  }

  lemma IncreasingTail(xs: seq<nat>)
    requires Increasing(xs) && xs != []
    ensures Increasing(xs[1..])
  {
  }

  /** The first element before an ascending list of later elements keeps it ascending. */
  lemma PrefixSound(xs: seq<nat>, t: seq<nat>, c: seq<nat>)
    requires Increasing(xs) && xs != [] && Increasing(t) && Within(t, xs[1..]) && c == [xs[0]] + t
    ensures Increasing(c) && Within(c, xs)
  {
    forall k | 0 <= k < |t| ensures t[k] > xs[0] && t[k] in xs {
      var i :| 0 <= i < |xs[1..]| && xs[1..][i] == t[k];
      assert xs[i + 1] == t[k];
    }
    assert forall k :: 1 <= k < |c| ==> c[k] == t[k - 1];
  }

  /** Elements of the tail are elements of the list. */
  lemma WithinRest(xs: seq<nat>, c: seq<nat>)
    requires xs != [] && Within(c, xs[1..])
    ensures Within(c, xs)
  {
    forall k | 0 <= k < |c| ensures c[k] in xs {
      var i :| 0 <= i < |xs[1..]| && xs[1..][i] == c[k];
      assert xs[i + 1] == c[k];
    }
  }

  lemma {:induction false} CombinationsComplete(xs: seq<nat>, r: nat, c: seq<nat>)
    requires Increasing(xs) && |c| == r && Increasing(c) && Within(c, xs)
    ensures c in Combinations(xs, r)
    decreases |xs|
  {
    if r != 0 {
      assert c[0] in xs;
      var rest := xs[1..];
      var withFirst := Combinations(rest, r - 1);
      var prefixed := Prefixed(xs[0], withFirst);
      PrefixedShape(xs[0], withFirst);
      assert Combinations(xs, r) == prefixed + Combinations(rest, r);
      assert Increasing(rest);
      if c[0] == xs[0] {
        var tail := c[1..];
        forall k | 0 <= k < |tail| ensures tail[k] in rest {
          assert tail[k] == c[k + 1] && c[k + 1] > c[0];
          NotFirst(xs, c[k + 1]);
        }
        CombinationsComplete(rest, r - 1, tail);
        var k :| 0 <= k < |withFirst| && withFirst[k] == tail;
        assert prefixed[k] == c;
      } else {
        forall k | 0 <= k < |c| ensures c[k] in rest {
          assert c[k] >= c[0];
          NotFirst(xs, c[0]);
          NotFirst(xs, c[k]);
        }
        CombinationsComplete(rest, r, c);
      }
    }
  }

  /** In an ascending list, an entry other than the first is in the tail. */
  lemma NotFirst(xs: seq<nat>, e: nat)
    requires Increasing(xs) && xs != [] && e in xs && e != xs[0]
    ensures e in xs[1..] && e > xs[0]
  {
    var i :| 0 <= i < |xs| && xs[i] == e;
    assert xs[1..][i - 1] == e;
  }

  /** No combination is listed twice. */
  lemma {:induction false} CombinationsDistinct(xs: seq<nat>, r: nat)
    requires Increasing(xs)
    ensures Distinct(Combinations(xs, r))
    decreases |xs|
  {
    if r != 0 && xs != [] {
      var rest := xs[1..];
      assert Increasing(rest);
      var withFirst := Combinations(rest, r - 1);
      var prefixed := Prefixed(xs[0], withFirst);
      PrefixedShape(xs[0], withFirst);
      var without := Combinations(rest, r);
      CombinationsDistinct(rest, r - 1);
      CombinationsDistinct(rest, r);
      forall i, j | 0 <= i < j < |prefixed| ensures prefixed[i] != prefixed[j] {
        assert prefixed[i][1..] == withFirst[i] && prefixed[j][1..] == withFirst[j];
      }
      forall i, j | 0 <= i < |prefixed| && 0 <= j < |without| ensures prefixed[i] != without[j] {
        CombinationsMembers(rest, r, without[j]);
        assert without[j][0] in rest;
        assert xs[0] !in rest;
        assert prefixed[i][0] == xs[0];
      }
      DistinctAppend(prefixed, without);
    }
  }

  lemma DistinctAppend<T>(a: seq<T>, b: seq<T>)
    requires Distinct(a) && Distinct(b) && forall i, j :: 0 <= i < |a| && 0 <= j < |b| ==> a[i] != b[j]
    ensures Distinct(a + b)
  {
    forall i, j | 0 <= i < j < |a + b| ensures (a + b)[i] != (a + b)[j] {
      if j < |a| {
        assert (a + b)[i] == a[i] && (a + b)[j] == a[j];
      } else if i >= |a| {
        assert (a + b)[i] == b[i - |a|] && (a + b)[j] == b[j - |a|];
      } else {
        assert (a + b)[i] == a[i] && (a + b)[j] == b[j - |a|];
      }
    }
  }

  /** There are C(|xs|, r) combinations of size r. */
  lemma {:induction false} CombinationsCount(xs: seq<nat>, r: nat)
    ensures |Combinations(xs, r)| == Arith.Choose(|xs|, r)
    decreases |xs|
  {
    if r != 0 && xs != [] {
      PrefixedShape(xs[0], Combinations(xs[1..], r - 1));
      CombinationsCount(xs[1..], r - 1);
      CombinationsCount(xs[1..], r);
    }
  }

  /** The subsets are the ascending sub-lists of any length. */
  lemma {:induction false} SubsetsFromMembers(xs: seq<nat>, r: nat, c: seq<nat>)
    requires Increasing(xs)
    ensures c in SubsetsFrom(xs, r) <==> r <= |c| && Increasing(c) && Within(c, xs)
    decreases |xs| + 1 - r
  {
    if r <= |xs| {
      CombinationsMembers(xs, r, c);
      SubsetsFromMembers(xs, r + 1, c);
    } else if r <= |c| && Increasing(c) && Within(c, xs) {
      IncreasingWithinLength(c, xs);
    }
  }

  /** An ascending sub-list is no longer than the list. */
  lemma IncreasingWithinLength(c: seq<nat>, xs: seq<nat>)
    requires Increasing(c) && Within(c, xs)
    ensures |c| <= |xs|
  {
    var elems := set k | 0 <= k < |c| :: c[k];
    var all := set k | 0 <= k < |xs| :: xs[k];
    assert elems <= all;
    CardOfIndexSet(c);
    CardOfIndexSetAtMost(xs);
    SubsetCard(elems, all);
  }

  lemma {:induction false} CardOfIndexSet(c: seq<nat>)
    requires Increasing(c)
    ensures |set k | 0 <= k < |c| :: c[k]| == |c|
  {
    if c != [] {
      var init := c[..|c| - 1];
      assert Increasing(init);
      CardOfIndexSet(init);
      var s := set k | 0 <= k < |init| :: init[k];
      var whole := set k | 0 <= k < |c| :: c[k];
      assert whole == s + {c[|c| - 1]} by {
        forall e | e in whole ensures e in s + {c[|c| - 1]} {
          var k :| 0 <= k < |c| && c[k] == e;
          if k < |init| {
            assert init[k] == e;
          }
        }
      }
      assert c[|c| - 1] !in s;
    }
  }

  lemma {:induction false} CardOfIndexSetAtMost(xs: seq<nat>)
    ensures |set k | 0 <= k < |xs| :: xs[k]| <= |xs|
  {
    if xs != [] {
      var init := xs[..|xs| - 1];
      CardOfIndexSetAtMost(init);
      var s := set k | 0 <= k < |init| :: init[k];
      var whole := set k | 0 <= k < |xs| :: xs[k];
      assert whole <= s + {xs[|xs| - 1]} by {
        forall e | e in whole ensures e in s + {xs[|xs| - 1]} {
          var k :| 0 <= k < |xs| && xs[k] == e;
          if k < |init| {
            assert init[k] == e;
          }
        }
      }
      SubsetCard(whole, s + {xs[|xs| - 1]});
    }
  }

  lemma {:induction false} SubsetCard<T>(a: set<T>, b: set<T>)
    requires a <= b
    ensures |a| <= |b|
    decreases |b|
  {
    if a != {} {
      var x :| x in a;
      SubsetCard(a - {x}, b - {x});
    }
  }

  lemma {:induction false} SubsetsFromDistinct(xs: seq<nat>, r: nat)
    requires Increasing(xs)
    ensures Distinct(SubsetsFrom(xs, r))
    ensures forall k :: 0 <= k < |SubsetsFrom(xs, r)| ==> |SubsetsFrom(xs, r)[k]| >= r
    decreases |xs| + 1 - r
  {
    if r <= |xs| {
      var here, later := Combinations(xs, r), SubsetsFrom(xs, r + 1);
      CombinationsDistinct(xs, r);
      SubsetsFromDistinct(xs, r + 1);
      forall k | 0 <= k < |here| ensures |here[k]| == r {
        CombinationsMembers(xs, r, here[k]);
      }
      DistinctAppend(here, later);
      assert forall k :: 0 <= k < |here + later| ==> (here + later)[k] in here || (here + later)[k] in later;
    }
  }

  /** The sizes from r on account for the binomial coefficients C(|xs|, r), ..., C(|xs|, |xs|). */
  lemma {:induction false} SubsetsFromCount(xs: seq<nat>, r: nat)
    requires r <= |xs| + 1
    ensures |SubsetsFrom(xs, r)| + Arith.Expansion(|xs|, 1, r) == Arith.Expansion(|xs|, 1, |xs| + 1)
    decreases |xs| + 1 - r
  {
    if r <= |xs| {
      SubsetsFromCount(xs, r + 1);
      CombinationsCount(xs, r);
      PowOne(r);
      var c := Arith.Choose(|xs|, r);
      assert Arith.Expansion(|xs|, 1, r + 1) == Arith.Expansion(|xs|, 1, r) + c * Arith.Pow(1, r);
      assert c * Arith.Pow(1, r) == c;
      assert |SubsetsFrom(xs, r)| == c + |SubsetsFrom(xs, r + 1)|;
    }
  }

  lemma {:induction false} PowOne(e: nat)
    ensures Arith.Pow(1, e) == 1
  {
    if e > 0 {
      PowOne(e - 1);
    }
  }

  lemma {:induction false} PowTwo(e: nat)
    ensures Arith.Pow(2, e) == Py.Pow2(e)
  {
    if e > 0 {
      PowTwo(e - 1);
    }
  }

  /** `floating_bit_subsets` yields every subset of an ascending list exactly once, as an ascending
   * list, 2^k of them in all. */
  lemma SubsetsExactlyOnce(xs: seq<nat>)
    requires Increasing(xs)
    ensures forall c :: c in Subsets(xs) <==> Increasing(c) && Within(c, xs)
    ensures Distinct(Subsets(xs))
    ensures |Subsets(xs)| == Py.Pow2(|xs|)
  {
    forall c ensures c in Subsets(xs) <==> Increasing(c) && Within(c, xs) {
      SubsetsFromMembers(xs, 0, c);
    }
    SubsetsFromDistinct(xs, 0);
    SubsetsFromCount(xs, 0);
    Arith.Binomial(|xs|, 1);
    PowTwo(|xs|);
  }

  // ---------------------------------------------------------------- addresses

  /** `sum(1 << bit for bit in subset)`. */
  function SubsetBits(subset: seq<nat>): nat {
    if subset == [] then 0 else Py.Pow2(subset[0]) + SubsetBits(subset[1..])
  }

  /** The bits of an ascending subset's sum are its members. */
  lemma {:induction false} SubsetBitsBits(subset: seq<nat>, i: nat)
    requires Increasing(subset)
    ensures Bit(SubsetBits(subset), i) == (i in subset)
    decreases |subset|
  {
    if subset == [] {
      ZeroBits(i);
    } else {
      var first, rest := subset[0], subset[1..];
      assert Increasing(rest);
      var y := SubsetBits(rest);
      SubsetBitsBits(rest, i);
      SubsetBitsBits(rest, first);
      assert first !in rest;
      AddClearBit(y, first);
      OrBits(y, Py.Pow2(first), i);
      PowerBits(first, i);
      assert subset == [first] + rest;
    }
  }

  /** `(addr | ones_mask) & zeroes_mask`. */
  function Masked(m: Mask, addr: nat): nat {
    And(Or(addr, m.ones), m.zeroes)
  }

  /** The address `apply` writes for one subset. */
  function Address(m: Mask, addr: nat, subset: seq<nat>): nat {
    Or(Masked(m, addr), SubsetBits(subset))
  }

  /** Every address `apply` writes, in its order. */
  function Addresses(m: Mask, addr: nat): (r: seq<nat>)
    ensures |r| == |Subsets(m.floating)|
  {
    var subsets := Subsets(m.floating);
    seq(|subsets|, k requires 0 <= k < |subsets| => Address(m, addr, subsets[k]))
  }

  /** What the decoder promises of a written address: bit i is 1 where the mask has '1', the address's
   * bit where the mask has any other character but 'X', anything under an 'X', and 0 past the mask. */
  ghost predicate Fits(maskStr: string, addr: nat, a: nat) {
    var rev := Reverse(maskStr);
    forall i: nat :: (i < |rev| && rev[i] == 'X') || Bit(a, i) == (i < |rev| && (rev[i] == '1' || Bit(addr, i)))
  }

  /** The bits of the address written for a subset. */
  lemma AddressBits(maskStr: string, addr: nat, subset: seq<nat>, i: nat)
    requires Increasing(subset) && Within(subset, MaskOf(maskStr).floating)
    ensures var rev := Reverse(maskStr);
            Bit(Address(MaskOf(maskStr), addr, subset), i)
            == if i < |rev| && rev[i] == 'X' then i in subset else i < |rev| && (rev[i] == '1' || Bit(addr, i))
  {
    var m := MaskOf(maskStr);
    MaskBits(maskStr);
    OrBits(Masked(m, addr), SubsetBits(subset), i);
    AndBits(Or(addr, m.ones), m.zeroes, i);
    OrBits(addr, m.ones, i);
    SubsetBitsBits(subset, i);
    if i in subset {
      var k :| 0 <= k < |subset| && subset[k] == i;
      assert i in m.floating;
    }
  }

  /** The floating bits set in `a`, in ascending order. */
  function SetAmong(xs: seq<nat>, a: nat): (r: seq<nat>)
    ensures forall k :: 0 <= k < |r| ==> r[k] in xs && Bit(a, r[k])
    ensures forall e :: e in xs && Bit(a, e) ==> e in r
  {
    if xs == [] then []
    else (if Bit(a, xs[0]) then [xs[0]] else []) + SetAmong(xs[1..], a)
  }

  lemma {:induction false} SetAmongIncreasing(xs: seq<nat>, a: nat)
    requires Increasing(xs)
    ensures Increasing(SetAmong(xs, a))
  {
    if xs != [] {
      SetAmongIncreasing(xs[1..], a);
      var rest := SetAmong(xs[1..], a);
      forall k | 0 <= k < |rest| ensures rest[k] > xs[0] {
        var j :| 0 <= j < |xs[1..]| && xs[1..][j] == rest[k];
        assert xs[j + 1] == rest[k];
      }
    }
  }

  /** The written addresses are exactly the addresses that fit the mask. */
  lemma AddressesExactly(maskStr: string, addr: nat, a: nat)
    ensures a in Addresses(MaskOf(maskStr), addr) <==> Fits(maskStr, addr, a)
  {
    var m, rev := MaskOf(maskStr), Reverse(maskStr);
    var addrs, subsets := Addresses(m, addr), Subsets(m.floating);
    MaskBits(maskStr);
    SubsetsExactlyOnce(m.floating);
    if a in addrs {
      var k :| 0 <= k < |addrs| && addrs[k] == a;
      assert subsets[k] in subsets;
      forall i: nat ensures (i < |rev| && rev[i] == 'X') || Bit(a, i) == (i < |rev| && (rev[i] == '1' || Bit(addr, i))) {
        AddressBits(maskStr, addr, subsets[k], i);
      }
    }
    if Fits(maskStr, addr, a) {
      var subset := SetAmong(m.floating, a);
      SetAmongIncreasing(m.floating, a);
      assert subset in subsets;
      var k :| 0 <= k < |subsets| && subsets[k] == subset;
      forall i: nat ensures Bit(Address(m, addr, subset), i) == Bit(a, i) {
        AddressBits(maskStr, addr, subset, i);
      }
      BitsEqual(Address(m, addr, subset), a);
      assert addrs[k] == a;
    }
  }

  /** An ascending list is determined by its members. */
  lemma {:induction false} IncreasingSameMembers(a: seq<nat>, b: seq<nat>)
    requires Increasing(a) && Increasing(b) && forall e :: e in a <==> e in b
    ensures a == b
    decreases |a|
  {
    if a != [] {
      assert a[0] in b;
    }
    if b != [] {
      assert b[0] in a;
    }
    if a != [] && b != [] {
      assert a[0] == b[0];
      forall e ensures e in a[1..] <==> e in b[1..] {
        if e in a[1..] {
          var i :| 0 <= i < |a[1..]| && a[1..][i] == e;
          assert a[i + 1] == e && e > a[0];
        }
        if e in b[1..] {
          var i :| 0 <= i < |b[1..]| && b[1..][i] == e;
          assert b[i + 1] == e && e > b[0];
        }
        assert e in a <==> e == a[0] || e in a[1..];
        assert e in b <==> e == b[0] || e in b[1..];
      }
      IncreasingSameMembers(a[1..], b[1..]);
      assert a == [a[0]] + a[1..] && b == [b[0]] + b[1..];
    }
  }

  /** Two subsets write the same address only if they are the same subset. */
  lemma AddressInjective(maskStr: string, addr: nat, s: seq<nat>, t: seq<nat>)
    requires var fl := MaskOf(maskStr).floating; Increasing(s) && Within(s, fl) && Increasing(t) && Within(t, fl)
    requires Address(MaskOf(maskStr), addr, s) == Address(MaskOf(maskStr), addr, t)
    ensures s == t
  {
    var m := MaskOf(maskStr);
    MaskBits(maskStr);
    forall e ensures e in s <==> e in t {
      if e in s {
        assert e in m.floating;
        AddressBits(maskStr, addr, s, e);
        AddressBits(maskStr, addr, t, e);
      }
      if e in t {
        assert e in m.floating;
        AddressBits(maskStr, addr, s, e);
        AddressBits(maskStr, addr, t, e);
      }
    }
    IncreasingSameMembers(s, t);
  }

  /** `apply` writes 2^k distinct addresses for k floating bits. */
  lemma AddressesDistinct(maskStr: string, addr: nat)
    ensures var m := MaskOf(maskStr);
            Distinct(Addresses(m, addr)) && |Addresses(m, addr)| == Py.Pow2(|m.floating|)
  {
    var m := MaskOf(maskStr);
    var addrs, subsets := Addresses(m, addr), Subsets(m.floating);
    MaskBits(maskStr);
    SubsetsExactlyOnce(m.floating);
    forall i, j | 0 <= i < j < |addrs| ensures addrs[i] != addrs[j] {
      assert subsets[i] in subsets && subsets[j] in subsets;
      if addrs[i] == addrs[j] {
        AddressInjective(maskStr, addr, subsets[i], subsets[j]);
      }
    }
  }

  /** The entries `apply` sets: every written address maps to `n`. */
  function Writes(addrs: seq<nat>, n: int): map<nat, int> {
    map a | a in addrs :: n
  }

  /** One more write in order. */
  lemma WritesStep(mem: map<nat, int>, addrs: seq<nat>, i: nat, n: int)
    requires i < |addrs|
    ensures mem + Writes(addrs[..i + 1], n) == (mem + Writes(addrs[..i], n))[addrs[i] := n]
  {
    assert addrs[..i + 1] == addrs[..i] + [addrs[i]];
    var before, after := Writes(addrs[..i], n), Writes(addrs[..i + 1], n);
    assert after == before[addrs[i] := n];
  }

  // ---------------------------------------------------------------- the program

  /** `s.rsplit(' ', 1)[-1]`: the text after the last space, or all of it when it has none. */
  function AfterLastSpace(s: string): (r: string)
    ensures |r| <= |s| && s[|s| - |r|..] == r && ' ' !in r
    ensures |r| < |s| ==> s[|s| - |r| - 1] == ' '
  {
    if s == [] then []
    else if s[|s| - 1] == ' ' then []
    else
      var init := s[..|s| - 1];
      var r := AfterLastSpace(init) + [s[|s| - 1]];
      assert s[|s| - |r|..] == init[|init| - |r| + 1..] + [s[|s| - 1]];
      r
  }

  /** The text after a space is all the text after the last space. */
  lemma {:induction false} AfterLastSpaceOf(a: string, b: string)
    requires ' ' !in b
    ensures AfterLastSpace(a + " " + b) == b
    decreases |b|
  {
    if b == [] {
      assert a + " " + b == a + " ";
    } else {
      var init := b[..|b| - 1];
      assert (a + " " + b)[..|a + " " + b| - 1] == a + " " + init;
      AfterLastSpaceOf(a, init);
      assert init + [b[|b| - 1]] == b;
    }
  }

  /** `re.fullmatch(r'mem\[([0-9]+)\] = ([0-9]+)\n', line)` and `int` of its two groups. The first
   * "] = " after "mem[" is where the address digits end, since a digit is never ']'. */
  function ParseWrite(line: string): Option<(nat, nat)> {
    if |line| < 5 || line[..4] != "mem[" || line[|line| - 1] != '\n' then None
    else
      var inner := line[4..|line| - 1];
      match Py.Find(inner, "] = ")
      case None => None
      case Some(j) =>
        var a, v := inner[..j], inner[j + 4..];
        if a != [] && Py.AllDigits(a) && v != [] && Py.AllDigits(v) then Some((Py.DigitsValue(a), Py.DigitsValue(v)))
        else None
  }

  /** A write line as the input holds it. */
  function WriteLine(addr: nat, n: nat): string {
    "mem[" + Py.NatToString(addr) + "] = " + Py.NatToString(n) + "\n"
  }

  /** Parsing a write line gives its address and value back. */
  lemma ParseWriteLine(addr: nat, n: nat)
    ensures ParseWrite(WriteLine(addr, n)) == Some((addr, n))
  {
    var sa, sn := Py.NatToString(addr), Py.NatToString(n);
    var line := WriteLine(addr, n);
    var inner := sa + "] = " + sn;
    assert line[..4] == "mem[" && line[4..|line| - 1] == inner;
    assert Py.OccursAt(inner, "] = ", |sa|) by {
      assert inner[|sa|..|sa| + 4] == "] = ";
    }
    forall j | 0 <= j < |sa| ensures !Py.OccursAt(inner, "] = ", j) {
      assert inner[j] == sa[j] && Py.IsDigit(sa[j]);
      Py.NotOccursAt(inner, "] = ", j);
    }
    assert inner[..|sa|] == sa && inner[|sa| + 4..] == sn;
  }

  /** The state of `Program`: its memory, and its mask once a mask line has been run. */
  datatype ProgramState = ProgramState(mem: map<nat, int>, mask: Option<Mask>)

  /** `run_line`: a mask line replaces the mask; any other line must be a write, which `apply`s the
   * current mask. Without a mask, or with a line that is not a write, Python raises AttributeError. */
  function Step(st: ProgramState, line: string): Result<ProgramState> {
    if Py.StartsWith(line, "mask = ") then Ok(st.(mask := Some(MaskOf(AfterLastSpace(Py.RStrip(line))))))
    else if st.mask.None? then Err("AttributeError")
    else match ParseWrite(line)
      case None => Err("AttributeError")
      case Some((addr, n)) => Ok(st.(mem := st.mem + Writes(Addresses(st.mask.value, addr), n)))
  }

  /** `run`: the lines in order, stopping at the first error. */
  function RunAll(st: ProgramState, lines: seq<string>): Result<ProgramState>
    decreases |lines|
  {
    if lines == [] then Ok(st)
    else match Step(st, lines[0])
      case Err(e) => Err(e)
      case Ok(next) => RunAll(next, lines[1..])
  }

  /** A write leaves every other address as it was, and sets exactly the fitting addresses to n. */
  lemma StepWrite(st: ProgramState, line: string, maskStr: string)
    requires !Py.StartsWith(line, "mask = ") && st.mask == Some(MaskOf(maskStr)) && ParseWrite(line).Some?
    ensures var (addr, n) := ParseWrite(line).value;
            && Step(st, line).Ok?
            && var mem := Step(st, line).value.mem;
            && (forall a :: a in mem <==> a in st.mem || Fits(maskStr, addr, a))
            && (forall a :: a in mem ==> mem[a] == if Fits(maskStr, addr, a) then n else st.mem[a])
            && Step(st, line).value.mask == st.mask
  {
    var (addr, n) := ParseWrite(line).value;
    forall a ensures a in Addresses(MaskOf(maskStr), addr) <==> Fits(maskStr, addr, a) {
      AddressesExactly(maskStr, addr, a);
    }
  }

  /** A mask line keeps the memory and installs the mask written after its last space. */
  lemma StepMask(st: ProgramState, maskStr: string)
    requires maskStr != [] && ' ' !in maskStr && !Py.IsSpaceChar(maskStr[|maskStr| - 1])
    ensures Step(st, "mask = " + maskStr + "\n") == Ok(ProgramState(st.mem, Some(MaskOf(maskStr))))
  {
    var line := "mask = " + maskStr + "\n";
    assert Py.StartsWith(line, "mask = ") by { assert line[..7] == "mask = "; }
    assert "mask = " + maskStr == "mask =" + " " + maskStr;
    Py.RStripNewline("mask = " + maskStr);
    AfterLastSpaceOf("mask =", maskStr);
  }

  /** A mask line sets the mask it spells and keeps the memory. */
  lemma StepMaskLine(st: ProgramState, line: string, m: Mask)
    requires Py.StartsWith(line, "mask = ") && m == MaskOf(AfterLastSpace(Py.RStrip(line)))
    ensures Step(st, line) == Ok(ProgramState(st.mem, Some(m)))
  {
  }

  /** `Program`: the memory, the current mask and the input it runs. */
  class Program {
    var mem: map<nat, int>
    var mask: Option<Mask>
    var input: seq<string>

    constructor(lines: seq<string>)
      ensures mem == map[] && mask == None && input == lines
    {
      mem := map[];
      mask := None;
      input := lines;
    }

    function State(): ProgramState
      reads this
    {
      ProgramState(mem, mask)
    }

    /** `Mask.apply(self.mem, addr, n)`: one write per subset of the floating bits, in order. */
    method Apply(m: Mask, addr: nat, n: int)
      modifies this
      ensures mem == old(mem) + Writes(Addresses(m, addr), n)
      ensures mask == old(mask) && input == old(input)
    {
      var addrs := Addresses(m, addr);
      var i := 0;
      while i < |addrs|
        invariant 0 <= i <= |addrs|
        invariant mem == old(mem) + Writes(addrs[..i], n)
        invariant mask == old(mask) && input == old(input)
      {
        WritesStep(old(mem), addrs, i, n);
        mem := mem[addrs[i] := n];
        i := i + 1;
      }
      assert addrs[..i] == addrs;
    }

    method RunLine(line: string) returns (r: Result<()>)
      modifies this
      ensures input == old(input)
      ensures Step(old(State()), line).Ok? ==> r.Ok? && State() == Step(old(State()), line).value
      ensures Step(old(State()), line).Err? ==> r == Err(Step(old(State()), line).msg) && State() == old(State())
    {
      if Py.StartsWith(line, "mask = ") {
        var m := MaskOf(AfterLastSpace(Py.RStrip(line)));
        StepMaskLine(State(), line, m);
        SetMask(m);
        return Ok(());
      }
      if mask.None? {
        return Err("AttributeError");
      }
      var parsed := ParseWrite(line);
      if parsed.None? {
        return Err("AttributeError");
      }
      WriteLine(line, parsed.value.0, parsed.value.1);
      return Ok(());
    }

    /** A mask line replaces the mask. */
    method SetMask(m: Mask)
      modifies this
      ensures mask == Some(m) && mem == old(mem) && input == old(input)
    {
      mask := Some(m);
    }

    /** A write line applies the current mask. */
    method WriteLine(line: string, addr: nat, n: int)
      requires !Py.StartsWith(line, "mask = ") && mask.Some? && ParseWrite(line) == Some((addr, n))
      modifies this
      ensures input == old(input) && Step(old(State()), line) == Ok(State())
    {
      ghost var before := State();
      assert Step(before, line) == Ok(before.(mem := before.mem + Writes(Addresses(mask.value, addr), n)));
      Apply(mask.value, addr, n);
    }

    /** `run`: every input line in turn; an error stops the run where it was raised. */
    method Run() returns (r: Result<()>)
      modifies this
      ensures match RunAll(old(State()), old(input))
              case Ok(final) => r.Ok? && State() == final
              case Err(e) => r == Err(e)
    {
      var i := 0;
      while i < |input|
        invariant 0 <= i <= |input| && input == old(input)
        invariant RunAll(old(State()), input) == RunAll(State(), input[i..])
      {
        assert input[i..][1..] == input[i + 1..];
        var step := RunLine(input[i]);
        if step.Err? {
          return step;
        }
        i := i + 1;
      }
      return Ok(());
    }

    /** `sum`: the total of the memory's values. */
    method Sum() returns (total: int)
      ensures total == SumValues(mem)
    {
      total := 0;
      var rest := mem;
      while rest != map[]
        invariant total + SumValues(rest) == SumValues(mem)
        decreases |rest|
      {
        var k :| k in rest.Keys;
        SumValuesRemove(rest, k);
        total := total + rest[k];
        rest := rest - {k};
      }
    }
  }

  // ---------------------------------------------------------------- summing the memory

  ghost function Pick(m: map<nat, int>): (k: nat)
    requires m != map[]
    ensures k in m
  {
    assert m.Keys != {};
    var k :| k in m.Keys; k
  }

  /** `sum(mem.values())`. */
  ghost function SumValues(m: map<nat, int>): int
    decreases |m|
  {
    if m == map[] then 0 else m[Pick(m)] + SumValues(m - {Pick(m)})
  }

  /** Any entry can be added first. */
  lemma {:induction false} SumValuesRemove(m: map<nat, int>, k: nat)
    requires k in m
    ensures SumValues(m) == m[k] + SumValues(m - {k})
    decreases |m|
  {
    var j := Pick(m);
    if j != k {
      SumValuesRemove(m - {j}, k);
      SumValuesRemove(m - {k}, j);
      assert m - {j} - {k} == m - {k} - {j};
    }
  }

  // ---------------------------------------------------------------- the tests of 14/14.py:45-66

  function Zeros(k: nat): (r: string)
    ensures |r| == k && forall i :: 0 <= i < k ==> r[i] == '0'
  {
    seq(k, _ => '0')
  }

  lemma {:induction false} BitsWhereAppend(r: string, z: string, c: char, want: bool)
    ensures BitsWhere(r + z, c, want) == BitsWhere(r, c, want) + Py.Pow2(|r|) * BitsWhere(z, c, want)
    decreases |r|
  {
    if r == [] {
      assert r + z == z;
    } else {
      assert (r + z)[1..] == r[1..] + z;
      BitsWhereAppend(r[1..], z, c, want);
      var b := if (r[0] == c) == want then 1 else 0;
      assert BitsWhere(r + z, c, want) == b + 2 * BitsWhere(r[1..] + z, c, want);
      Horner(b, BitsWhere(r[1..], c, want), Py.Pow2(|r| - 1), BitsWhere(z, c, want));
    }
  }

  lemma Horner(b: int, x: int, p: int, w: int)
    ensures b + 2 * (x + p * w) == (b + 2 * x) + (2 * p) * w
  {
  }

  lemma {:induction false} ZerosBits(k: nat)
    ensures BitsWhere(Zeros(k), '1', true) == 0
    ensures BitsWhere(Zeros(k), 'X', false) == Py.Pow2(k) - 1
  {
    if k > 0 {
      assert Zeros(k)[1..] == Zeros(k - 1);
      ZerosBits(k - 1);
    }
  }

  lemma {:induction false} FloatingFromZeros(r: string, k: nat, start: nat)
    ensures FloatingFrom(r + Zeros(k), start) == FloatingFrom(r, start)
    decreases |r| + k
  {
    if r == [] {
      assert r + Zeros(k) == Zeros(k);
      if k > 0 {
        assert Zeros(k)[1..] == Zeros(k - 1);
        FloatingFromZeros([], k - 1, start + 1);
        assert [] + Zeros(k - 1) == Zeros(k - 1);
      }
    } else {
      assert (r + Zeros(k))[1..] == r[1..] + Zeros(k);
      FloatingFromZeros(r[1..], k, start + 1);
    }
  }

  lemma ReversePadded(core: string, k: nat)
    ensures Reverse(Zeros(k) + core) == Reverse(core) + Zeros(k)
  {
    var a, b := Reverse(Zeros(k) + core), Reverse(core) + Zeros(k);
    forall i | 0 <= i < |a| ensures a[i] == b[i] {
      if i < |core| {
        assert a[i] == core[|core| - 1 - i];
      } else {
        assert a[i] == Zeros(k)[k + |core| - 1 - i];
      }
    }
  }

  /** Leading zeros in the mask string only widen `zeroes_mask`. */
  lemma PaddedMask(core: string, k: nat)
    ensures var m := MaskOf(core);
            MaskOf(Zeros(k) + core) == Mask(m.ones, m.zeroes + Py.Pow2(|core|) * (Py.Pow2(k) - 1), m.floating)
  {
    var rev := Reverse(core);
    ReversePadded(core, k);
    BitsWhereAppend(rev, Zeros(k), '1', true);
    BitsWhereAppend(rev, Zeros(k), 'X', false);
    ZerosBits(k);
    FloatingFromZeros(rev, k, 0);
  }

  lemma Pow2Of36()
    ensures Py.Pow2(6) == 64 && Py.Pow2(4) == 16
    ensures Py.Pow2(30) == 1073741824 && Py.Pow2(32) == 4294967296 && Py.Pow2(36) == 68719476736
  {
    assert Py.Pow2(4) == 16;
    assert Py.Pow2(6) == 64;
    assert Py.Pow2(10) == 1024;
    assert Py.Pow2(20) == 1048576 by { Pow2Add(10, 10); }
    assert Py.Pow2(30) == 1073741824 by { Pow2Add(20, 10); }
    assert Py.Pow2(32) == 4294967296 by { Pow2Add(30, 2); }
    assert Py.Pow2(36) == 68719476736 by { Pow2Add(32, 4); }
  }

  lemma {:induction false} Pow2Add(a: nat, b: nat)
    ensures Py.Pow2(a + b) == Py.Pow2(a) * Py.Pow2(b)
  {
    if b > 0 {
      Pow2Add(a, b - 1);
    }
  }

  /** The first mask of the test: ones 18, zeroes 2^36 - 1 - 33, floating bits [0, 5]. */
  lemma FirstMask()
    ensures MaskOf("000000000000000000000000000000X1001X") == Mask(18, 68719476736 - 1 - 33, [0, 5])
  {
    var core := "X1001X";
    PaddedText("000000000000000000000000000000X1001X", 30, core);
    FirstCore();
    PaddedMask(core, 30);
    Pow2Of36();
  }

  lemma FirstCore()
    ensures MaskOf("X1001X") == Mask(18, 30, [0, 5])
  {
    var rev := Reverse("X1001X");
    assert rev[0] == 'X' && rev[1] == '1' && rev[2] == '0' && rev[3] == '0' && rev[4] == '1' && rev[5] == 'X';
    assert rev == "X1001X";
    assert BitsWhere(rev, '1', true) == 18;
    assert BitsWhere(rev, 'X', false) == 30;
    assert FloatingFrom(rev, 0) == [0, 5];
  }

  /** The second mask of the test: ones 0, zeroes 2^36 - 1 - 11, floating bits [0, 1, 3]. */
  lemma SecondMask()
    ensures MaskOf("00000000000000000000000000000000X0XX") == Mask(0, 68719476736 - 1 - 11, [0, 1, 3])
  {
    var core := "X0XX";
    PaddedText("00000000000000000000000000000000X0XX", 32, core);
    SecondCore();
    PaddedMask(core, 32);
    Pow2Of36();
  }

  lemma SecondCore()
    ensures MaskOf("X0XX") == Mask(0, 4, [0, 1, 3])
  {
    var rev := Reverse("X0XX");
    assert rev[0] == 'X' && rev[1] == 'X' && rev[2] == '0' && rev[3] == 'X';
    assert rev == "XX0X";
    assert BitsWhere(rev, '1', true) == 0;
    assert BitsWhere(rev, 'X', false) == 4;
    assert FloatingFrom(rev, 0) == [0, 1, 3];
  }

  /** A 36-character mask text: k zeroes, then its last characters. */
  lemma PaddedText(s: string, k: nat, core: string)
    requires |s| == k + |core| && s[k..] == core && forall i :: 0 <= i < k ==> s[i] == '0'
    ensures s == Zeros(k) + core
  {
    assert s[..k] == Zeros(k);
    assert s == s[..k] + s[k..];
  }

  /** Combinations of a list with one more entry in front, as its definition builds them. */
  lemma CombinationsCons(x: nat, rest: seq<nat>, r: nat)
    requires r > 0
    ensures Combinations([x] + rest, r) == Prefixed(x, Combinations(rest, r - 1)) + Combinations(rest, r)
  {
    assert ([x] + rest)[1..] == rest;
  }

  lemma PrefixedOne(x: nat, c: seq<nat>)
    ensures Prefixed(x, [c]) == [[x] + c]
  {
    assert [c][1..] == [];
  }

  lemma OneBitCombinations(x: nat)
    ensures Combinations([x], 0) == [[]] && Combinations([x], 1) == [[x]]
    ensures Combinations([x], 2) == [] && Combinations([x], 3) == []
  {
    var e: seq<nat> := [];
    assert [x] + e == [x];
    assert Combinations(e, 1) == [] && Combinations(e, 2) == [];
    CombinationsCons(x, e, 1);
    CombinationsCons(x, e, 2);
    CombinationsCons(x, e, 3);
    PrefixedOne(x, e);
  }

  lemma TwoBitCombinations(x: nat, y: nat)
    ensures Combinations([x, y], 1) == [[x], [y]]
    ensures Combinations([x, y], 2) == [[x, y]]
    ensures Combinations([x, y], 3) == []
  {
    assert [x] + [y] == [x, y];
    OneBitCombinations(y);
    CombinationsCons(x, [y], 1);
    CombinationsCons(x, [y], 2);
    CombinationsCons(x, [y], 3);
    PrefixedOne(x, []);
    PrefixedOne(x, [y]);
    assert [x] + [] == [x];
  }

  /** The subsets of two bits, in `itertools` order. */
  lemma TwoBitSubsets()
    ensures Subsets([0, 5]) == [[], [0], [5], [0, 5]]
  {
    TwoBitCombinations(0, 5);
    assert Subsets([0, 5]) == [[]] + ([[0], [5]] + ([[0, 5]] + []));
  }

  lemma ThreeBitCombinations(x: nat, y: nat, z: nat)
    ensures Combinations([x, y, z], 1) == [[x], [y], [z]]
    ensures Combinations([x, y, z], 2) == [[x, y], [x, z], [y, z]]
    ensures Combinations([x, y, z], 3) == [[x, y, z]]
  {
    TwoBitCombinations(y, z);
    assert [x] + [y, z] == [x, y, z];
    ThreeBitPrefixed(x, y, z);
    CombinationsCons(x, [y, z], 1);
    CombinationsCons(x, [y, z], 2);
    CombinationsCons(x, [y, z], 3);
  }

  lemma ThreeBitPrefixed(x: nat, y: nat, z: nat)
    ensures Prefixed(x, [[]]) == [[x]]
    ensures Prefixed(x, [[y], [z]]) == [[x, y], [x, z]]
    ensures Prefixed(x, [[y, z]]) == [[x, y, z]]
  {
    PrefixedOne(x, []);
    PrefixedOne(x, [y, z]);
    assert [x] + [] == [x] && [x] + [y, z] == [x, y, z];
    var cs: seq<seq<nat>> := [[y], [z]];
    assert cs[1..] == [[z]];
    PrefixedOne(x, [z]);
    assert Prefixed(x, cs) == [[x] + [y]] + Prefixed(x, [[z]]);
    assert [x] + [y] == [x, y] && [x] + [z] == [x, z];
  }

  /** The subsets of three bits, in `itertools` order. */
  lemma ThreeBitSubsets()
    ensures Subsets([0, 1, 3]) == [[], [0], [1], [3], [0, 1], [0, 3], [1, 3], [0, 1, 3]]
  {
    ThreeBitCombinations(0, 1, 3);
    assert Subsets([0, 1, 3]) == [[]] + ([[0], [1], [3]] + ([[0, 1], [0, 3], [1, 3]] + ([[0, 1, 3]] + [])));
  }

  /** The first write of the test: address 42 under the first mask becomes 26, 27, 58 and 59. */
  lemma FirstApply()
    ensures Addresses(MaskOf("000000000000000000000000000000X1001X"), 42) == [26, 27, 58, 59]
  {
    FirstMask();
    FirstMasked();
    FirstAddresses(Mask(18, 68719476736 - 1 - 33, [0, 5]));
  }

  lemma FirstAddresses(m: Mask)
    requires m.floating == [0, 5] && Masked(m, 42) == 26
    ensures Addresses(m, 42) == [26, 27, 58, 59]
  {
    TwoBitSubsets();
    var subsets: seq<seq<nat>> := [[], [0], [5], [0, 5]];
    FirstAddressValues(m);
    AddressesAre(m, 42, subsets, [26, 27, 58, 59]);
  }

  lemma FirstAddressValues(m: Mask)
    requires Masked(m, 42) == 26
    ensures Address(m, 42, []) == 26 && Address(m, 42, [0]) == 27
    ensures Address(m, 42, [5]) == 58 && Address(m, 42, [0, 5]) == 59
  {
    assert SubsetBits([0]) == 1 && SubsetBits([5]) == 32 && SubsetBits([0, 5]) == 33;
    OrSmall();
  }

  lemma FirstMasked()
    ensures Masked(Mask(18, 68719476736 - 1 - 33, [0, 5]), 42) == 26
  {
    FirstOnes();
    FirstZeroes();
  }

  lemma FirstOnes()
    ensures Or(42, 18) == 58
  {
  }

  lemma FirstZeroes()
    ensures And(58, 68719476702) == 26
  {
    assert And(1, 2147483646) == 0;
    assert And(3, 4294967293) == 1;
    assert And(7, 8589934587) == 3;
    assert And(14, 17179869175) == 6;
    assert And(29, 34359738351) == 13;
    assert And(58, 68719476702) == 26;
  }

  lemma OrSmall()
    ensures Or(26, 0) == 26 && Or(26, 1) == 27 && Or(26, 32) == 58 && Or(26, 33) == 59
  {
  }

  /** The second write of the test: address 26 under the second mask becomes eight addresses. */
  lemma SecondApply()
    ensures Addresses(MaskOf("00000000000000000000000000000000X0XX"), 26) == [16, 17, 18, 24, 19, 25, 26, 27]
  {
    SecondMask();
    SecondMasked();
    SecondAddresses(Mask(0, 68719476736 - 1 - 11, [0, 1, 3]));
  }

  lemma SecondAddresses(m: Mask)
    requires m.floating == [0, 1, 3] && Masked(m, 26) == 16
    ensures Addresses(m, 26) == [16, 17, 18, 24, 19, 25, 26, 27]
  {
    SecondAddressValues(m);
    AddressesOfThree(m, 26, 16, 17, 18, 24, 19, 25, 26, 27);
  }

  /** The addresses for a known list of subsets, one value per subset. */
  lemma AddressesAre(m: Mask, addr: nat, subsets: seq<seq<nat>>, values: seq<nat>)
    requires Subsets(m.floating) == subsets && |values| == |subsets|
    requires forall k :: 0 <= k < |subsets| ==> Address(m, addr, subsets[k]) == values[k]
    ensures Addresses(m, addr) == values
  {
  }

  /** The eight addresses of a mask floating bits 0, 1 and 3, in the order of their subsets. */
  lemma AddressesOfThree(m: Mask, addr: nat, v0: nat, v1: nat, v2: nat, v3: nat, v4: nat, v5: nat, v6: nat, v7: nat)
    requires m.floating == [0, 1, 3]
    requires Address(m, addr, []) == v0 && Address(m, addr, [0]) == v1 && Address(m, addr, [1]) == v2
    requires Address(m, addr, [3]) == v3 && Address(m, addr, [0, 1]) == v4 && Address(m, addr, [0, 3]) == v5
    requires Address(m, addr, [1, 3]) == v6 && Address(m, addr, [0, 1, 3]) == v7
    ensures Addresses(m, addr) == [v0, v1, v2, v3, v4, v5, v6, v7]
  {
    ThreeBitSubsets();
    AddressesAre(m, addr, [[], [0], [1], [3], [0, 1], [0, 3], [1, 3], [0, 1, 3]], [v0, v1, v2, v3, v4, v5, v6, v7]);
  }

  lemma SecondAddressValues(m: Mask)
    requires Masked(m, 26) == 16
    ensures Address(m, 26, []) == 16 && Address(m, 26, [0]) == 17 && Address(m, 26, [1]) == 18
    ensures Address(m, 26, [3]) == 24 && Address(m, 26, [0, 1]) == 19 && Address(m, 26, [0, 3]) == 25
    ensures Address(m, 26, [1, 3]) == 26 && Address(m, 26, [0, 1, 3]) == 27
  {
    ThreeBitSums();
    OrSixteen();
  }

  lemma SecondMasked()
    ensures Masked(Mask(0, 68719476736 - 1 - 11, [0, 1, 3]), 26) == 16
  {
    assert Or(26, 0) == 26;
    SecondZeroes();
  }

  lemma SecondZeroes()
    ensures And(26, 68719476724) == 16
  {
    assert And(1, 4294967295) == 1;
    assert And(3, 8589934590) == 2;
    assert And(6, 17179869181) == 4;
    assert And(13, 34359738362) == 8;
    assert And(26, 68719476724) == 16;
  }

  lemma ThreeBitSums()
    ensures SubsetBits([]) == 0 && SubsetBits([0]) == 1 && SubsetBits([1]) == 2 && SubsetBits([3]) == 8
    ensures SubsetBits([0, 1]) == 3 && SubsetBits([0, 3]) == 9 && SubsetBits([1, 3]) == 10 && SubsetBits([0, 1, 3]) == 11
  {
    assert SubsetBits([3]) == 8;
    assert [0, 1, 3][1..] == [1, 3] && [1, 3][1..] == [3] && [0, 3][1..] == [3] && [0, 1][1..] == [1];
  }

  lemma OrSixteen()
    ensures Or(16, 0) == 16 && Or(16, 1) == 17 && Or(16, 2) == 18 && Or(16, 8) == 24
    ensures Or(16, 3) == 19 && Or(16, 9) == 25 && Or(16, 10) == 26 && Or(16, 11) == 27
  {
  }

  /** The memory the test expects after both writes. */
  function TestMemory(): map<nat, int> {
    map[16 := 1, 17 := 1, 18 := 1, 19 := 1, 24 := 1, 25 := 1, 26 := 1, 27 := 1, 58 := 100, 59 := 100]
  }

  function FirstMemory(): map<nat, int> {
    map[26 := 100, 27 := 100, 58 := 100, 59 := 100]
  }

  lemma FirstWrites(addrs: seq<nat>)
    requires addrs == [26, 27, 58, 59]
    ensures map[] + Writes(addrs, 100) == FirstMemory()
  {
    var w := map[] + Writes(addrs, 100);
    assert w.Keys == FirstMemory().Keys;
  }

  lemma SecondWrites(addrs: seq<nat>)
    requires addrs == [16, 17, 18, 24, 19, 25, 26, 27]
    ensures FirstMemory() + Writes(addrs, 1) == TestMemory()
  {
    var w := FirstMemory() + Writes(addrs, 1);
    SecondWritesKeys(addrs, w);
    SecondWritesValues(addrs, w);
  }

  lemma SecondWritesKeys(addrs: seq<nat>, w: map<nat, int>)
    requires addrs == [16, 17, 18, 24, 19, 25, 26, 27] && w == FirstMemory() + Writes(addrs, 1)
    ensures w.Keys == TestMemory().Keys
  {
    assert Writes(addrs, 1).Keys == {16, 17, 18, 24, 19, 25, 26, 27};
  }

  lemma SecondWritesValues(addrs: seq<nat>, w: map<nat, int>)
    requires addrs == [16, 17, 18, 24, 19, 25, 26, 27] && w == FirstMemory() + Writes(addrs, 1)
    ensures forall k :: k in w ==> k in TestMemory() && w[k] == TestMemory()[k]
  {
    forall k | k in w ensures k in TestMemory() && w[k] == TestMemory()[k] {
      if k in addrs {
        assert w[k] == 1;
      } else {
        assert k in FirstMemory() && w[k] == FirstMemory()[k];
      }
    }
  }

  /** The memory of 14/14.py:51-60: the first write fills four entries; the second overwrites two of them
   * and adds six. */
  lemma TestWrites()
    ensures map[] + Writes(Addresses(MaskOf("000000000000000000000000000000X1001X"), 42), 100) == FirstMemory()
    ensures FirstMemory() + Writes(Addresses(MaskOf("00000000000000000000000000000000X0XX"), 26), 1) == TestMemory()
  {
    FirstApply();
    SecondApply();
    FirstWrites(Addresses(MaskOf("000000000000000000000000000000X1001X"), 42));
    SecondWrites(Addresses(MaskOf("00000000000000000000000000000000X0XX"), 26));
  }

  /** The test program: the two masks and writes of 14/14.py:45-60, one per line. */
  function TestProgram(): seq<string> {
    ["mask = " + "000000000000000000000000000000X1001X" + "\n", WriteLine(42, 100), "mask = " + "00000000000000000000000000000000X0XX" + "\n", WriteLine(26, 1)]
  }

  lemma WriteLinesAreNotMasks()
    ensures !Py.StartsWith(WriteLine(42, 100), "mask = ") && !Py.StartsWith(WriteLine(26, 1), "mask = ")
  {
    assert WriteLine(42, 100)[1] == 'e' && WriteLine(26, 1)[1] == 'e';
  }

  /** Running it from an empty memory ends with the test's memory and the second mask. */
  lemma RunTestProgram()
    ensures RunAll(ProgramState(map[], None), TestProgram()) == Ok(ProgramState(TestMemory(), Some(MaskOf("00000000000000000000000000000000X0XX"))))
  {
    TestWrites();
    RunTestWith(TestProgram(), "000000000000000000000000000000X1001X", "00000000000000000000000000000000X0XX");
  }

  lemma RunTestWith(lines: seq<string>, s1: string, s2: string)
    requires s1 == "000000000000000000000000000000X1001X" && s2 == "00000000000000000000000000000000X0XX"
    requires lines == ["mask = " + s1 + "\n", WriteLine(42, 100), "mask = " + s2 + "\n", WriteLine(26, 1)]
    requires map[] + Writes(Addresses(MaskOf(s1), 42), 100) == FirstMemory()
    requires FirstMemory() + Writes(Addresses(MaskOf(s2), 26), 1) == TestMemory()
    ensures RunAll(ProgramState(map[], None), lines) == Ok(ProgramState(TestMemory(), Some(MaskOf(s2))))
  {
    var m1, m2 := MaskOf(s1), MaskOf(s2);
    var st0 := ProgramState(map[], None);
    var st1 := ProgramState(map[], Some(m1));
    var st2 := ProgramState(FirstMemory(), Some(m1));
    var st3 := ProgramState(FirstMemory(), Some(m2));
    var st4 := ProgramState(TestMemory(), Some(m2));
    WriteStep(st1, 42, 100, FirstMemory());
    WriteStep(st3, 26, 1, TestMemory());
    MaskStep(st0, s1);
    MaskStep(st2, s2);
    RunFourSteps(lines, st0, st1, st2, st3, st4);
  }

  lemma MaskStep(st: ProgramState, maskStr: string)
    requires maskStr == "000000000000000000000000000000X1001X" || maskStr == "00000000000000000000000000000000X0XX"
    ensures Step(st, "mask = " + maskStr + "\n") == Ok(ProgramState(st.mem, Some(MaskOf(maskStr))))
  {
    StepMask(st, maskStr);
  }

  lemma WriteStep(st: ProgramState, addr: nat, n: nat, mem: map<nat, int>)
    requires st.mask.Some? && st.mem + Writes(Addresses(st.mask.value, addr), n) == mem
    ensures Step(st, WriteLine(addr, n)) == Ok(ProgramState(mem, st.mask))
  {
    var line := WriteLine(addr, n);
    assert line[1] == 'e';
    Py.NotStartsWith(line, "mask = ", 1);
    ParseWriteLine(addr, n);
    WriteStepParsed(st, line, addr, n, mem);
  }

  /** The steps of `run_line` on a parsed write line. */
  lemma WriteStepParsed(st: ProgramState, line: string, addr: nat, n: nat, mem: map<nat, int>)
    requires !Py.StartsWith(line, "mask = ") && ParseWrite(line) == Some((addr, n))
    requires st.mask.Some? && st.mem + Writes(Addresses(st.mask.value, addr), n) == mem
    ensures Step(st, line) == Ok(ProgramState(mem, st.mask))
  {
  }

  lemma RunFourSteps(lines: seq<string>, st0: ProgramState, st1: ProgramState, st2: ProgramState, st3: ProgramState, st4: ProgramState)
    requires |lines| == 4
    requires Step(st0, lines[0]) == Ok(st1) && Step(st1, lines[1]) == Ok(st2)
    requires Step(st2, lines[2]) == Ok(st3) && Step(st3, lines[3]) == Ok(st4)
    ensures RunAll(st0, lines) == Ok(st4)
  {
    var l1, l2, l3 := lines[1..], lines[2..], lines[3..];
    assert l1[1..] == l2 && l2[1..] == l3 && l3[1..] == [];
    assert RunAll(st4, []) == Ok(st4);
    assert RunAll(st3, l3) == Ok(st4);
    assert RunAll(st2, l2) == Ok(st4);
    assert RunAll(st1, l1) == Ok(st4);
  }

  /** `sum` of that memory is 208: eight ones and two hundreds (the total the file-backed test at
   * 14/14.py:62-66 expects). */
  lemma TestMemorySum()
    ensures SumValues(TestMemory()) == 208
  {
    var m := TestMemory();
    SumValuesRemove(m, 58);
    var m1 := m - {58};
    SumValuesRemove(m1, 59);
    var ones := m1 - {59};
    EightOnes(ones);
  }

  lemma EightOnes(ones: map<nat, int>)
    requires ones == TestMemory() - {58} - {59}
    ensures SumValues(ones) == 8
  {
    EightKeys(ones);
    SumOfOnes(ones);
    EightCount({16, 17, 18, 19, 24, 25, 26, 27});
  }

  lemma EightKeys(ones: map<nat, int>)
    requires ones == TestMemory() - {58} - {59}
    ensures ones.Keys == {16, 17, 18, 19, 24, 25, 26, 27}
    ensures forall k :: k in ones ==> ones[k] == 1
  {
    assert ones.Keys == {16, 17, 18, 19, 24, 25, 26, 27};
  }

  lemma EightCount(keys: set<nat>)
    requires keys == {16, 17, 18, 19, 24, 25, 26, 27}
    ensures |keys| == 8
  {
    var k4: set<nat> := {16, 17, 18, 19};
    assert |k4| == 4;
    assert keys == k4 + {24, 25, 26, 27};
    assert |{24, 25, 26, 27}| == 4;
    assert k4 !! {24, 25, 26, 27};
  }

  lemma {:induction false} SumOfOnes(m: map<nat, int>)
    requires forall k :: k in m ==> m[k] == 1
    ensures SumValues(m) == |m.Keys|
    decreases |m|
  {
    if m != map[] {
      var k := Pick(m);
      SumOfOnes(m - {k});
      assert (m - {k}).Keys == m.Keys - {k};
    }
  }
}


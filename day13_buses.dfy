/**
 * Day 13 (13/13.py): the shuttle timetable. `get_next_bus` finds the first
 * bus to leave after a given time; `get_bus_serendipity` finds the first time
 * at which every listed bus leaves at its offset in the list, by the Chinese
 * remainder theorem with inverses computed by Fermat's little theorem.
 */
module Buses {
  import opened Base
  import Py
  import opened Arith

  /** An entry of the bus list: a bus id, or 'x' for no constraint. */
  datatype Bus = X | Id(id: int)

  // ---------------------------------------------------------------- parsing

  function ParseBus(token: string): Result<Bus> {
    if token == "x" then Ok(X)
    else match Py.IntOfLine(token)
      case None => Err("ValueError")
      case Some(n) => Ok(Id(n))
  }

  /** `parse_input`: the earliest time on the first line, the comma-separated buses on the second;
   * a missing line makes `next(f)` raise StopIteration. */
  function ParseInput(lines: seq<string>): Result<(int, seq<Bus>)> {
    if |lines| < 1 then Err("StopIteration")
    else match Py.IntOfLine(Py.RStrip(lines[0]))
      case None => Err("ValueError")
      case Some(earliest) =>
        if |lines| < 2 then Err("StopIteration")
        else match MapResult(ParseBus, Py.Split(Py.RStrip(lines[1]), ","))
          case Err(m) => Err(m)
          case Ok(buses) => Ok((earliest, buses))
  }

  function BusText(b: Bus): string
    requires b.X? || b.id >= 0
  {
    if b.X? then "x" else Py.NatToString(b.id)
  }

  lemma BusTextParses(b: Bus)
    requires b.X? || b.id >= 0
    ensures ParseBus(BusText(b)) == Ok(b) && ',' !in BusText(b) && BusText(b) != []
    ensures !Py.IsSpaceChar(BusText(b)[|BusText(b)| - 1])
  {
    if b.Id? {
      var s := Py.NatToString(b.id);
      assert Py.IsDigit(s[0]) && Py.IsDigit(s[|s| - 1]);
      assert s != "x";
      assert ',' !in s by {
        forall i | 0 <= i < |s| ensures s[i] != ',' {
          assert Py.IsDigit(s[i]);
        }
      }
      Py.StripUnchanged(s);
      Py.ParseNatToString(b.id);
    }
  }

  /** The input as a file holds it: the time, a newline, the buses joined by commas, a newline. */
  function Render(earliest: nat, buses: seq<Bus>): seq<string>
    requires forall i :: 0 <= i < |buses| ==> buses[i].X? || buses[i].id >= 0
  {
    [Py.NatToString(earliest) + "\n", Py.Join(seq(|buses|, i requires 0 <= i < |buses| => BusText(buses[i])), ",") + "\n"]
  }

  /** Parsing the rendered input gives the time and the bus list back (as the parse test expects of its file). */
  lemma ParseRender(earliest: nat, buses: seq<Bus>)
    requires buses != [] && forall i :: 0 <= i < |buses| ==> buses[i].X? || buses[i].id >= 0
    ensures ParseInput(Render(earliest, buses)) == Ok((earliest, buses))
  {
    var texts := seq(|buses|, i requires 0 <= i < |buses| => BusText(buses[i]));
    forall i | 0 <= i < |buses|
      ensures ParseBus(texts[i]) == Ok(buses[i]) && ',' !in texts[i] && texts[i] != [] && !Py.IsSpaceChar(texts[i][|texts[i]| - 1])
    {
      BusTextParses(buses[i]);
    }
    var first := Py.NatToString(earliest);
    assert Py.IsDigit(first[0]) && Py.IsDigit(first[|first| - 1]);
    Py.RStripNewline(first);
    Py.StripUnchanged(first);
    Py.ParseNatToString(earliest);
    var line := Py.Join(texts, ",");
    JoinEnd(texts);
    Py.RStripNewline(line);
    Py.SplitJoin(texts, ',');
    var r := MapResult(ParseBus, texts);
    assert r.value == buses;
  }

  /** A join of bus texts ends as its last text does. */
  lemma {:induction false} JoinEnd(texts: seq<string>)
    requires texts != [] && forall i :: 0 <= i < |texts| ==> texts[i] != [] && !Py.IsSpaceChar(texts[i][|texts[i]| - 1])
    ensures var s := Py.Join(texts, ","); s != [] && !Py.IsSpaceChar(s[|s| - 1])
  {
    if |texts| > 1 {
      JoinEnd(texts[1..]);
      var rest := Py.Join(texts[1..], ",");
      assert Py.Join(texts, ",") == texts[0] + "," + rest;
    }
  }

  // ---------------------------------------------------------------- the next bus

  /** `get_next_multiple`: `num + factor - num % factor`, with Python's `%`; a zero factor raises. */
  function NextMultiple(num: int, factor: int): Result<int> {
    if factor == 0 then Err("ZeroDivisionError") else Ok(num + factor - Py.Mod(num, factor))
  }

  /** For a positive factor the result is the least multiple of `factor` strictly above `num`. */
  lemma NextMultipleLeast(num: int, factor: int)
    requires factor > 0
    ensures var r := NextMultiple(num, factor).value;
            && r > num && r % factor == 0
            && forall k :: num < k && k % factor == 0 ==> r <= k
  {
    var r := num + factor - num % factor;
    assert r == factor * (num / factor + 1) by {
      assert num == factor * (num / factor) + num % factor;
    }
    DividesIff(r, factor, num / factor + 1);
    forall k | num < k && k % factor == 0 ensures r <= k {
      assert k == factor * (k / factor);
      assert factor * (k / factor) > factor * (num / factor);
      MulCancel(factor, k / factor, num / factor);
      MulMonotone(factor, num / factor + 1, k / factor);
    }
  }

  lemma MulCancel(f: int, a: int, b: int)
    requires f > 0 && f * a > f * b
    ensures a > b
  {
    if a <= b {
      MulMonotone(f, a, b);
    }
  }

  /** The cases of 13/13.py:46-50. */
  lemma NextMultipleTests()
    ensures NextMultiple(7, 3) == Ok(9)
    ensures NextMultiple(7, 10) == Ok(10)
    ensures NextMultiple(78, 10) == Ok(80)
    ensures NextMultiple(939, 59) == Ok(944)
  {
  }

  /** The bus ids in list order, 'x' skipped. */
  function RealBuses(buses: seq<Bus>): (r: seq<int>)
    ensures |r| <= |buses|
  {
    if buses == [] then []
    else (if buses[0].Id? then [buses[0].id] else []) + RealBuses(buses[1..])
  }

  /** The ids are exactly the listed buses. */
  lemma {:induction false} RealBusesMembers(buses: seq<Bus>)
    ensures forall m :: m in RealBuses(buses) <==> Id(m) in buses
  {
    if buses != [] {
      RealBusesMembers(buses[1..]);
      assert forall b :: b in buses <==> b == buses[0] || b in buses[1..];
    }
  }

  /** The departure of `m` after `time`, for a nonzero id. */
  function Departure(time: int, m: int): int
    requires m != 0
  {
    NextMultiple(time, m).value
  }

  /** `min(items, key=departure)` over `ids`: the first id whose departure is least. */
  function FirstEarliest(time: int, ids: seq<int>): (r: (int, int))
    requires ids != [] && 0 !in ids
    ensures r.0 in ids
    ensures r.1 == Departure(time, r.0)
    ensures forall j :: 0 <= j < |ids| ==> r.1 <= Departure(time, ids[j])
    ensures exists k :: 0 <= k < |ids| && ids[k] == r.0 && forall j :: 0 <= j < k ==> Departure(time, ids[j]) > r.1
  {
    if |ids| == 1 then (ids[0], Departure(time, ids[0]))
    else
      var best := FirstEarliest(time, ids[1..]);
      assert forall j :: 1 <= j < |ids| ==> ids[j] == ids[1..][j - 1];
      if Departure(time, ids[0]) <= best.1 then (ids[0], Departure(time, ids[0]))
      else
        var k :| 0 <= k < |ids[1..]| && ids[1..][k] == best.0 && forall j :: 0 <= j < k ==> Departure(time, ids[1..][j]) > best.1;
        assert ids[k + 1] == best.0;
        best
  }

  /** `get_next_bus`: the dictionary keeps each id once, at its first position, so `min` picks the first
   * least departure in list order; a zero id raises in `get_next_multiple`, no ids at all makes `min` raise. */
  function NextBus(time: int, buses: seq<Bus>): Result<(int, int)> {
    var ids := RealBuses(buses);
    if 0 in ids then Err("ZeroDivisionError")
    else if ids == [] then Err("ValueError")
    else Ok(FirstEarliest(time, ids))
  }

  /** Bus `m` leaves at time `t`. */
  predicate Leaves(m: int, t: int)
    requires m != 0
  {
    t % m == 0
  }

  /** With positive ids, the chosen bus is one of them and leaves at the first moment after `time` at which
   * any listed bus leaves. */
  lemma NextBusEarliest(time: int, buses: seq<Bus>)
    requires RealBuses(buses) != [] && forall m :: m in RealBuses(buses) ==> m > 0
    ensures NextBus(time, buses).Ok?
    ensures var (bus, dep) := NextBus(time, buses).value;
            && Id(bus) in buses && dep > time && dep % bus == 0
            && forall t, m :: time < t < dep && m in RealBuses(buses) ==> !Leaves(m, t)
  {
    RealBusesMembers(buses);
    var ids := RealBuses(buses);
    var (bus, dep) := FirstEarliest(time, ids);
    assert bus in ids;
    NextMultipleLeast(time, bus);
    forall t, m | time < t < dep && m in RealBuses(buses) ensures !Leaves(m, t) {
      assert m in ids;
      var j :| 0 <= j < |ids| && ids[j] == m;
      NextMultipleLeast(time, m);
    }
  }

  function SampleBuses(): seq<Bus> {
    [Id(7), Id(13), X, X, Id(59), X, Id(31), Id(19)]
  }

  lemma SampleIds(buses: seq<Bus>)
    requires buses == SampleBuses()
    ensures RealBuses(buses) == [7, 13, 59, 31, 19]
  {
    assert buses[1..][1..][1..][1..][1..][1..][1..][1..] == [];
  }

  /** The test at 13/13.py:52-53: bus 59 at 944. */
  lemma SampleNextBus(buses: seq<Bus>)
    requires buses == SampleBuses()
    ensures NextBus(939, buses) == Ok((59, 944))
  {
    SampleIds(buses);
    var ids := RealBuses(buses);
    assert Departure(939, 7) == 945 && Departure(939, 13) == 949 && Departure(939, 59) == 944;
    assert Departure(939, 31) == 961 && Departure(939, 19) == 950;
    var r := FirstEarliest(939, ids);
    assert r.1 <= Departure(939, ids[2]);
  }

  // ---------------------------------------------------------------- serendipity

  /** `[(bus - i, bus) for i, bus in enumerate(buses) if bus != 'x']`, for the entries from index `start` on. */
  function ModsFrom(buses: seq<Bus>, start: int): (r: seq<(int, int)>)
    decreases |buses|
  {
    if buses == [] then []
    else (if buses[0].Id? then [(buses[0].id - start, buses[0].id)] else []) + ModsFrom(buses[1..], start + 1)
  }

  /** The moduli of the pairs. */
  function Moduli(mods: seq<(int, int)>): (r: seq<int>)
    ensures |r| == |mods| && forall k :: 0 <= k < |mods| ==> r[k] == mods[k].1
  {
    seq(|mods|, k requires 0 <= k < |mods| => mods[k].1)
  }

  /** The moduli of the pairs are the ids, in order. */
  lemma {:induction false} ModsModuli(buses: seq<Bus>, start: int)
    ensures Moduli(ModsFrom(buses, start)) == RealBuses(buses)
    decreases |buses|
  {
    if buses != [] {
      ModsModuli(buses[1..], start + 1);
      var head := if buses[0].Id? then [(buses[0].id - start, buses[0].id)] else [];
      var tail := ModsFrom(buses[1..], start + 1);
      assert Moduli(head + tail) == Moduli(head) + Moduli(tail);
    }
  }

  /** Every listed bus has its pair: its id minus its index, and its id. */
  lemma {:induction false} ModsComplete(buses: seq<Bus>, start: int, i: nat)
    requires i < |buses| && buses[i].Id?
    ensures (buses[i].id - (start + i), buses[i].id) in ModsFrom(buses, start)
    decreases i
  {
    if i > 0 {
      assert buses[1..][i - 1] == buses[i];
      ModsComplete(buses[1..], start + 1, i - 1);
    }
  }

  /** Every pair comes from a listed bus. */
  lemma {:induction false} ModsSound(buses: seq<Bus>, start: int, k: nat)
    requires k < |ModsFrom(buses, start)|
    ensures exists i :: 0 <= i < |buses| && buses[i].Id? && ModsFrom(buses, start)[k] == (buses[i].id - (start + i), buses[i].id)
    decreases |buses|
  {
    var rest := buses[1..];
    var head := if buses[0].Id? then [(buses[0].id - start, buses[0].id)] else [];
    var tail := ModsFrom(rest, start + 1);
    assert ModsFrom(buses, start) == head + tail;
    if k >= |head| {
      ModsSound(rest, start + 1, k - |head|);
      var i :| 0 <= i < |rest| && rest[i].Id? && tail[k - |head|] == (rest[i].id - (start + 1 + i), rest[i].id);
      assert buses[i + 1] == rest[i];
    } else {
      assert ModsFrom(buses, start)[k] == (buses[0].id - (start + 0), buses[0].id);
    }
  }

  /** `get_term(a, m)`: `b = M // m`, `b_inv = b**(m-2) % m`, and the term `a * b * b_inv`. */
  function Term(prod: int, a: int, m: int): int
    requires m >= 2
  {
    var b := prod / m;
    a * b * (Pow(b, m - 2) % m)
  }

  function Terms(prod: int, mods: seq<(int, int)>): (r: seq<int>)
    requires forall k :: 0 <= k < |mods| ==> mods[k].1 >= 2
    ensures |r| == |mods|
  {
    seq(|mods|, k requires 0 <= k < |mods| => Term(prod, mods[k].0, mods[k].1))
  }

  /** `get_bus_serendipity`. Every id must be at least 2: a smaller one divides by zero or makes
   * `b**(m-2)` a float. With no bus at all `reduce` raises TypeError. */
  function Serendipity(buses: seq<Bus>): Result<int>
    requires forall m :: m in RealBuses(buses) ==> m >= 2
  {
    var ids := RealBuses(buses);
    if ids == [] then Err("TypeError")
    else
      var mods := ModsFrom(buses, 0);
      ModsModuli(buses, 0);
      assert forall k :: 0 <= k < |mods| ==> mods[k].1 == ids[k] && ids[k] in ids;
      assert forall k :: 0 <= k < |ids| ==> ids[k] > 0;
      ProductPositive(ids);
      var prod := Product(ids);
      Ok(Py.Sum(Terms(prod, mods)) % prod)
  }

  /** A sum whose entries are all multiples of d but the j-th has the j-th's remainder. */
  lemma {:induction false} SumOneTerm(xs: seq<int>, j: nat, d: int)
    requires d > 0 && j < |xs| && forall k :: 0 <= k < |xs| && k != j ==> xs[k] % d == 0
    ensures Py.Sum(xs) % d == xs[j] % d
  {
    var rest := xs[1..];
    if j == 0 {
      SumAllMultiples(rest, d);
    } else {
      assert forall k :: 0 <= k < |rest| && k != j - 1 ==> rest[k] == xs[k + 1];
      SumOneTerm(rest, j - 1, d);
      assert xs[0] % d == 0;
      assert rest[j - 1] == xs[j];
    }
    ModAdd(xs[0], Py.Sum(rest), d);
    ModMod(xs[j], d);
  }

  lemma {:induction false} SumAllMultiples(xs: seq<int>, d: int)
    requires d > 0 && forall k :: 0 <= k < |xs| ==> xs[k] % d == 0
    ensures Py.Sum(xs) % d == 0
  {
    if xs == [] {
      DivModUnique(0, d, 0, 0);
    } else {
      assert forall k :: 0 <= k < |xs[1..]| ==> xs[1..][k] == xs[k + 1];
      SumAllMultiples(xs[1..], d);
      ModAdd(xs[0], Py.Sum(xs[1..]), d);
      DivModUnique(0, d, 0, 0);
    }
  }

  /** The k-th term is a multiple of every other modulus and has the remainder of its own `a` modulo its own. */
  lemma TermRemainders(mods: seq<(int, int)>, k: nat, j: nat)
    requires DistinctPrimes(Moduli(mods)) && k < |mods| && j < |mods|
    ensures var ms := Moduli(mods);
            Term(Product(ms), mods[k].0, mods[k].1) % ms[j] == if k == j then mods[j].0 % ms[j] else 0
  {
    var ms := Moduli(mods);
    var m, a := ms[k], mods[k].0;
    assert IsPrime(m) && IsPrime(ms[j]);
    ProductSplit(ms, k);
    var b := ProductExcept(ms, k);
    assert Product(ms) / m == b by {
      DivModUnique(Product(ms), m, b, 0);
    }
    var inv := Pow(b, m - 2) % m;
    assert Term(Product(ms), a, m) == a * b * inv;
    if k != j {
      TermOtherModulus(ms, k, j, a, b, inv);
    } else {
      TermOwnModulus(ms, k, a, b, inv);
    }
  }

  lemma TermOtherModulus(ms: seq<int>, k: nat, j: nat, a: int, b: int, inv: int)
    requires DistinctPrimes(ms) && k < |ms| && j < |ms| && k != j && b == ProductExcept(ms, k)
    ensures (a * b * inv) % ms[j] == 0
  {
    assert IsPrime(ms[j]);
    ProductExceptDivisible(ms, k, j);
    MulOfMultiple(b, a * inv, ms[j]);
    assert a * b * inv == b * (a * inv);
  }

  lemma TermOwnModulus(ms: seq<int>, k: nat, a: int, b: int, inv: int)
    requires DistinctPrimes(ms) && k < |ms| && b == ProductExcept(ms, k) && inv == Pow(b, ms[k] - 2) % ms[k]
    ensures (a * b * inv) % ms[k] == a % ms[k]
  {
    var m := ms[k];
    assert IsPrime(m);
    ProductExceptNotDivisible(ms, k);
    InverseByFermat(m, b);
    ModMul(a, b * inv, m);
    assert a * b * inv == a * (b * inv);
    DivModUnique(1, m, 0, 1);
    ModMod(a, m);
  }

  /** `b * (b**(m-2) % m)` is 1 modulo a prime m that does not divide b: the "magic" inverse. */
  lemma InverseByFermat(m: int, b: int)
    requires IsPrime(m) && b % m != 0
    ensures (b * (Pow(b, m - 2) % m)) % m == 1
  {
    var r: nat := b % m;
    var e: nat := m - 2;
    var pb := Pow(b, e);
    assert Pow(b, e + 1) == b * pb;
    PowMod(b, e + 1, m);
    DivModUnique(r, m, 0, r);
    Fermat(m, r);
    assert (b * pb) % m == 1;
    ModMul(b, pb, m);
    ModMul(b, pb % m, m);
    ModMod(pb, m);
  }

  /** Powers respect remainders. */
  lemma {:induction false} PowMod(b: int, e: nat, m: int)
    requires m > 0
    ensures Pow(b, e) % m == Pow(b % m, e) % m
  {
    if e > 0 {
      PowMod(b, e - 1, m);
      ModMul(b, Pow(b, e - 1), m);
      ModMul(b % m, Pow(b % m, e - 1), m);
      ModMod(b, m);
    }
  }

  /** The list of ids is a list of distinct primes. */
  predicate PrimeIds(buses: seq<Bus>) {
    DistinctPrimes(RealBuses(buses))
  }

  /** Bus `m` at index `i` leaves `i` minutes after time `t`. */
  predicate AllInStep(buses: seq<Bus>, t: int) {
    forall i :: 0 <= i < |buses| && buses[i].Id? && buses[i].id > 0 ==> (t + i) % buses[i].id == 0
  }

  lemma IdsAtLeastTwo(buses: seq<Bus>)
    requires PrimeIds(buses)
    ensures forall m :: m in RealBuses(buses) ==> m >= 2
  {
    var ids := RealBuses(buses);
    forall m | m in ids ensures m >= 2 {
      var k :| 0 <= k < |ids| && ids[k] == m;
      assert IsPrime(ids[k]);
    }
  }

  /** The sum of the terms has, modulo the j-th modulus, the j-th residue. */
  lemma SumResidue(mods: seq<(int, int)>, j: nat)
    requires DistinctPrimes(Moduli(mods)) && j < |mods|
    ensures forall k :: 0 <= k < |mods| ==> mods[k].1 >= 2
    ensures Py.Sum(Terms(Product(Moduli(mods)), mods)) % mods[j].1 == mods[j].0 % mods[j].1
  {
    var ms := Moduli(mods);
    assert forall k :: 0 <= k < |mods| ==> IsPrime(ms[k]);
    var terms := Terms(Product(ms), mods);
    forall k | 0 <= k < |terms| && k != j ensures terms[k] % ms[j] == 0 {
      TermRemainders(mods, k, j);
    }
    TermRemainders(mods, j, j);
    SumOneTerm(terms, j, ms[j]);
  }

  /** Reducing modulo a multiple of m keeps the remainder modulo m, so t + i is a multiple of m. */
  lemma CongruenceStep(t: int, sum: int, prod: int, m: int, c: int, i: int)
    requires m > 0 && prod > 0 && prod == m * c && t == sum % prod && sum % m == (m - i) % m
    ensures (t + i) % m == 0
  {
    var q := sum / prod;
    assert sum == t + m * (c * q) by {
      assert sum == prod * q + t;
      assert prod * q == m * (c * q);
    }
    ModAddMultiple(t, m, c * q);
    ModAdd(t, i, m);
    ModAdd(m - i, i, m);
    ModSelf(m);
  }

  /** For distinct prime ids, the result lies in [0, M) for M the product of the ids, and every bus
   * leaves its index in the list many minutes after it. */
  lemma SerendipityCorrect(buses: seq<Bus>)
    requires RealBuses(buses) != [] && PrimeIds(buses)
    ensures forall m :: m in RealBuses(buses) ==> m >= 2
    ensures Serendipity(buses).Ok?
    ensures var t := Serendipity(buses).value; 0 <= t < Product(RealBuses(buses)) && AllInStep(buses, t)
  {
    IdsAtLeastTwo(buses);
    var ids := RealBuses(buses);
    var mods := ModsFrom(buses, 0);
    ModsModuli(buses, 0);
    ProductDivides(ids, 0);
    var prod := Product(ids);
    var sum := Py.Sum(Terms(prod, mods));
    var t := sum % prod;
    assert Serendipity(buses) == Ok(t);
    forall i | 0 <= i < |buses| && buses[i].Id? && buses[i].id > 0 ensures (t + i) % buses[i].id == 0 {
      BusInStep(buses, mods, prod, sum, t, i);
    }
  }

  /** The bus at index i leaves i minutes after the combined time. */
  lemma BusInStep(buses: seq<Bus>, mods: seq<(int, int)>, prod: int, sum: int, t: int, i: nat)
    requires PrimeIds(buses) && mods == ModsFrom(buses, 0) && Moduli(mods) == RealBuses(buses)
    requires prod == Product(RealBuses(buses)) && prod > 0 && sum == Py.Sum(Terms(prod, mods)) && t == sum % prod
    requires i < |buses| && buses[i].Id? && buses[i].id > 0
    ensures (t + i) % buses[i].id == 0
  {
    var m := buses[i].id;
    var j := BusPair(buses, mods, i, m);
    ResidueStep(RealBuses(buses), mods, prod, sum, t, m, i, j);
  }

  /** The pair of the bus at index i. */
  lemma BusPair(buses: seq<Bus>, mods: seq<(int, int)>, i: nat, m: int) returns (j: nat)
    requires mods == ModsFrom(buses, 0) && i < |buses| && buses[i] == Id(m)
    ensures j < |mods| && mods[j] == (m - i, m)
  {
    ModsComplete(buses, 0, i);
    var pair := (m - i, m);
    assert pair in mods;
    j :| 0 <= j < |mods| && mods[j] == pair;
  }

  /** The j-th pair (m - i, m) makes t + i a multiple of m. */
  lemma ResidueStep(ids: seq<int>, mods: seq<(int, int)>, prod: int, sum: int, t: int, m: int, i: int, j: nat)
    requires DistinctPrimes(ids) && Moduli(mods) == ids && prod == Product(ids) && prod > 0
    requires sum == Py.Sum(Terms(prod, mods)) && t == sum % prod
    requires j < |mods| && mods[j] == (m - i, m) && m > 0
    ensures (t + i) % m == 0
  {
    SumResidue(mods, j);
    ProductSplit(ids, j);
    assert ids[j] == m;
    CongruenceStep(t, sum, prod, m, ProductExcept(ids, j), i);
  }

  /** Two times with the same remainders modulo every id differ by a multiple of each id. */
  lemma SameResidues(buses: seq<Bus>, t: int, t0: int, k: nat)
    requires PrimeIds(buses) && AllInStep(buses, t) && AllInStep(buses, t0) && k < |RealBuses(buses)|
    ensures (t - t0) % RealBuses(buses)[k] == 0
  {
    var ids := RealBuses(buses);
    var m := ids[k];
    assert IsPrime(m);
    RealBusesMembers(buses);
    assert Id(m) in buses by { assert m in ids; }
    var i :| 0 <= i < |buses| && buses[i] == Id(m);
    assert (t + i) % m == 0 && (t0 + i) % m == 0;
    DiffOfMultiples(t + i, t0 + i, m);
  }

  lemma DiffOfMultiples(a: int, b: int, m: int)
    requires m > 0 && a % m == 0 && b % m == 0
    ensures (a - b) % m == 0
  {
    var qa, qb := a / m, b / m;
    assert a - b == m * (qa - qb);
    DividesIff(a - b, m, qa - qb);
  }

  /** For distinct prime ids there is only one such time in [0, M), so it is the result. */
  lemma SerendipityUnique(buses: seq<Bus>, t: int)
    requires RealBuses(buses) != [] && PrimeIds(buses)
    requires 0 <= t < Product(RealBuses(buses)) && AllInStep(buses, t)
    ensures forall m :: m in RealBuses(buses) ==> m >= 2
    ensures Serendipity(buses) == Ok(t)
  {
    SerendipityCorrect(buses);
    var ids := RealBuses(buses);
    var t0 := Serendipity(buses).value;
    forall k | 0 <= k < |ids| ensures (t - t0) % ids[k] == 0 {
      SameResidues(buses, t, t0, k);
    }
    ProductDivides(ids, t - t0);
    WithinOnePeriod(t, t0, Product(ids));
  }

  /** Two values in [0, M) that differ by a multiple of M are equal. */
  lemma WithinOnePeriod(t: int, t0: int, prod: int)
    requires prod > 0 && 0 <= t < prod && 0 <= t0 < prod && (t - t0) % prod == 0
    ensures t == t0
  {
    var q := (t - t0) / prod;
    assert t - t0 == prod * q;
    if q >= 1 {
      MulAtLeast(prod, q);
    } else if q <= -1 {
      MulAtLeast(prod, -q);
    }
  }

  // ---------------------------------------------------------------- the tests of 13/13.py:57-63

  lemma SmallPrimes()
    ensures IsPrime(5) && IsPrime(7) && IsPrime(13) && IsPrime(17) && IsPrime(19) && IsPrime(31)
    ensures IsPrime(37) && IsPrime(47) && IsPrime(59) && IsPrime(61) && IsPrime(67)
  {
    PrimeByTrial(5, 3);
    PrimeByTrial(7, 3);
    PrimeByTrial(13, 4);
    PrimeByTrial(17, 5);
    PrimeByTrial(19, 5);
    PrimeByTrial(31, 6);
    PrimeByTrial(37, 7);
    PrimeByTrial(47, 7);
    PrimeByTrial(59, 8);
    PrimeByTrial(61, 8);
    PrimeByTrial(67, 9);
  }

  lemma LargePrimes()
    ensures IsPrime(1789) && IsPrime(1889)
  {
    NoDivisorJoin(1789, 2, 12, 22);
    NoDivisorJoin(1789, 2, 22, 32);
    NoDivisorJoin(1789, 2, 32, 43);
    PrimeByTrial(1789, 43);
    NoDivisorJoin(1889, 2, 12, 22);
    NoDivisorJoin(1889, 2, 22, 32);
    NoDivisorJoin(1889, 2, 32, 44);
    PrimeByTrial(1889, 44);
  }

  /** The test at 13/13.py:57. */
  lemma SampleFiveSeven(buses: seq<Bus>)
    requires buses == [Id(5), Id(7)]
    ensures forall m :: m in RealBuses(buses) ==> m >= 2
    ensures Serendipity(buses) == Ok(20)
  {
    SmallPrimes();
    assert RealBuses(buses) == [5, 7] by {
      assert buses[2..] == [];
      assert RealBuses(buses[1..]) == [7];
      assert RealBuses(buses[0..]) == [5, 7];
      assert buses[0..] == buses;
    }
    assert Product([5, 7]) == 35;
    assert AllInStep(buses, 20) by {
      forall i | 0 <= i < |buses| && buses[i].Id? && buses[i].id > 0 ensures (20 + i) % buses[i].id == 0 {
        if i == 0 {
          assert (20 + 0) % 5 == 0;
        } else if i == 1 {
          assert (20 + 1) % 7 == 0;
        }
      }
    }
    SerendipityUnique(buses, 20);
  }

  /** The test at 13/13.py:58. */
  lemma SampleFiveXSeven(buses: seq<Bus>)
    requires buses == [Id(5), X, Id(7)]
    ensures forall m :: m in RealBuses(buses) ==> m >= 2
    ensures Serendipity(buses) == Ok(5)
  {
    SmallPrimes();
    assert RealBuses(buses) == [5, 7] by {
      assert buses[3..] == [];
      assert RealBuses(buses[2..]) == [7];
      assert RealBuses(buses[1..]) == [7];
      assert RealBuses(buses[0..]) == [5, 7];
      assert buses[0..] == buses;
    }
    assert Product([5, 7]) == 35;
    assert AllInStep(buses, 5) by {
      forall i | 0 <= i < |buses| && buses[i].Id? && buses[i].id > 0 ensures (5 + i) % buses[i].id == 0 {
        if i == 0 {
          assert (5 + 0) % 5 == 0;
        } else if i == 2 {
          assert (5 + 2) % 7 == 0;
        }
      }
    }
    SerendipityUnique(buses, 5);
  }

  /** The test at 13/13.py:59. */
  lemma SampleSeventeen(buses: seq<Bus>)
    requires buses == [Id(17), X, Id(13), Id(19)]
    ensures forall m :: m in RealBuses(buses) ==> m >= 2
    ensures Serendipity(buses) == Ok(3417)
  {
    SmallPrimes();
    assert RealBuses(buses) == [17, 13, 19] by {
      assert buses[4..] == [];
      assert RealBuses(buses[3..]) == [19];
      assert RealBuses(buses[2..]) == [13, 19];
      assert RealBuses(buses[1..]) == [13, 19];
      assert RealBuses(buses[0..]) == [17, 13, 19];
      assert buses[0..] == buses;
    }
    assert Product([17, 13, 19]) == 4199;
    assert AllInStep(buses, 3417) by {
      forall i | 0 <= i < |buses| && buses[i].Id? && buses[i].id > 0 ensures (3417 + i) % buses[i].id == 0 {
        if i == 0 {
          assert (3417 + 0) % 17 == 0;
        } else if i == 2 {
          assert (3417 + 2) % 13 == 0;
        } else if i == 3 {
          assert (3417 + 3) % 19 == 0;
        }
      }
    }
    SerendipityUnique(buses, 3417);
  }

  /** The test at 13/13.py:60. */
  lemma SampleSixtySeven(buses: seq<Bus>)
    requires buses == [Id(67), Id(7), Id(59), Id(61)]
    ensures forall m :: m in RealBuses(buses) ==> m >= 2
    ensures Serendipity(buses) == Ok(754018)
  {
    SmallPrimes();
    assert RealBuses(buses) == [67, 7, 59, 61] by {
      assert buses[4..] == [];
      assert RealBuses(buses[3..]) == [61];
      assert RealBuses(buses[2..]) == [59, 61];
      assert RealBuses(buses[1..]) == [7, 59, 61];
      assert RealBuses(buses[0..]) == [67, 7, 59, 61];
      assert buses[0..] == buses;
    }
    assert Product([67, 7, 59, 61]) == 1687931;
    assert AllInStep(buses, 754018) by {
      forall i | 0 <= i < |buses| && buses[i].Id? && buses[i].id > 0 ensures (754018 + i) % buses[i].id == 0 {
        if i == 0 {
          assert (754018 + 0) % 67 == 0;
        } else if i == 1 {
          assert (754018 + 1) % 7 == 0;
        } else if i == 2 {
          assert (754018 + 2) % 59 == 0;
        } else if i == 3 {
          assert (754018 + 3) % 61 == 0;
        }
      }
    }
    SerendipityUnique(buses, 754018);
  }

  /** The test at 13/13.py:61. */
  lemma SampleSixtySevenX(buses: seq<Bus>)
    requires buses == [Id(67), X, Id(7), Id(59), Id(61)]
    ensures forall m :: m in RealBuses(buses) ==> m >= 2
    ensures Serendipity(buses) == Ok(779210)
  {
    SmallPrimes();
    assert RealBuses(buses) == [67, 7, 59, 61] by {
      assert buses[5..] == [];
      assert RealBuses(buses[4..]) == [61];
      assert RealBuses(buses[3..]) == [59, 61];
      assert RealBuses(buses[2..]) == [7, 59, 61];
      assert RealBuses(buses[1..]) == [7, 59, 61];
      assert RealBuses(buses[0..]) == [67, 7, 59, 61];
      assert buses[0..] == buses;
    }
    assert Product([67, 7, 59, 61]) == 1687931;
    assert AllInStep(buses, 779210) by {
      forall i | 0 <= i < |buses| && buses[i].Id? && buses[i].id > 0 ensures (779210 + i) % buses[i].id == 0 {
        if i == 0 {
          assert (779210 + 0) % 67 == 0;
        } else if i == 2 {
          assert (779210 + 2) % 7 == 0;
        } else if i == 3 {
          assert (779210 + 3) % 59 == 0;
        } else if i == 4 {
          assert (779210 + 4) % 61 == 0;
        }
      }
    }
    SerendipityUnique(buses, 779210);
  }

  /** The test at 13/13.py:62. */
  lemma SampleSixtySevenSevenX(buses: seq<Bus>)
    requires buses == [Id(67), Id(7), X, Id(59), Id(61)]
    ensures forall m :: m in RealBuses(buses) ==> m >= 2
    ensures Serendipity(buses) == Ok(1261476)
  {
    SmallPrimes();
    assert RealBuses(buses) == [67, 7, 59, 61] by {
      assert buses[5..] == [];
      assert RealBuses(buses[4..]) == [61];
      assert RealBuses(buses[3..]) == [59, 61];
      assert RealBuses(buses[2..]) == [59, 61];
      assert RealBuses(buses[1..]) == [7, 59, 61];
      assert RealBuses(buses[0..]) == [67, 7, 59, 61];
      assert buses[0..] == buses;
    }
    assert Product([67, 7, 59, 61]) == 1687931;
    assert AllInStep(buses, 1261476) by {
      forall i | 0 <= i < |buses| && buses[i].Id? && buses[i].id > 0 ensures (1261476 + i) % buses[i].id == 0 {
        if i == 0 {
          assert (1261476 + 0) % 67 == 0;
        } else if i == 1 {
          assert (1261476 + 1) % 7 == 0;
        } else if i == 3 {
          assert (1261476 + 3) % 59 == 0;
        } else if i == 4 {
          assert (1261476 + 4) % 61 == 0;
        }
      }
    }
    SerendipityUnique(buses, 1261476);
  }

  /** The test at 13/13.py:63. */
  lemma SampleLarge(buses: seq<Bus>)
    requires buses == [Id(1789), Id(37), Id(47), Id(1889)]
    ensures forall m :: m in RealBuses(buses) ==> m >= 2
    ensures Serendipity(buses) == Ok(1202161486)
  {
    SmallPrimes();
    LargePrimes();
    assert RealBuses(buses) == [1789, 37, 47, 1889] by {
      assert buses[4..] == [];
      assert RealBuses(buses[3..]) == [1889];
      assert RealBuses(buses[2..]) == [47, 1889];
      assert RealBuses(buses[1..]) == [37, 47, 1889];
      assert RealBuses(buses[0..]) == [1789, 37, 47, 1889];
      assert buses[0..] == buses;
    }
    assert Product([1789, 37, 47, 1889]) == 5876813119;
    assert AllInStep(buses, 1202161486) by {
      forall i | 0 <= i < |buses| && buses[i].Id? && buses[i].id > 0 ensures (1202161486 + i) % buses[i].id == 0 {
        if i == 0 {
          assert (1202161486 + 0) % 1789 == 0;
        } else if i == 1 {
          assert (1202161486 + 1) % 37 == 0;
        } else if i == 2 {
          assert (1202161486 + 2) % 47 == 0;
        } else if i == 3 {
          assert (1202161486 + 3) % 1889 == 0;
        }
      }
    }
    SerendipityUnique(buses, 1202161486);
  }

  /** The test left commented out at 13/13.py:56 holds as well. */
  lemma SampleCommented(buses: seq<Bus>)
    requires buses == [Id(7), Id(13), X, X, Id(59), X, Id(31), Id(19)]
    ensures forall m :: m in RealBuses(buses) ==> m >= 2
    ensures Serendipity(buses) == Ok(1068781)
  {
    SampleCommentedPremises(buses);
    SerendipityUnique(buses, 1068781);
  }

  lemma SampleCommentedPremises(buses: seq<Bus>)
    requires buses == [Id(7), Id(13), X, X, Id(59), X, Id(31), Id(19)]
    ensures RealBuses(buses) != [] && PrimeIds(buses)
    ensures 0 <= 1068781 < Product(RealBuses(buses)) && AllInStep(buses, 1068781)
  {
    SmallPrimes();
    SampleIds(buses);
    assert Product([7, 13, 59, 31, 19]) == 3162341;
    SampleCommentedInStep(buses);
  }

  lemma SampleCommentedInStep(buses: seq<Bus>)
    requires buses == [Id(7), Id(13), X, X, Id(59), X, Id(31), Id(19)]
    ensures AllInStep(buses, 1068781)
  {
    forall i | 0 <= i < |buses| && buses[i].Id? && buses[i].id > 0 ensures (1068781 + i) % buses[i].id == 0 {
      if i == 0 {
        assert (1068781 + 0) % 7 == 0;
      } else if i == 1 {
        assert (1068781 + 1) % 13 == 0;
      } else if i == 4 {
        assert (1068781 + 4) % 59 == 0;
      } else if i == 6 {
        assert (1068781 + 6) % 31 == 0;
      } else if i == 7 {
        assert (1068781 + 7) % 19 == 0;
      }
    }
  }
}

/**
 * Day 25, Combo Breaker: the card and the door each transform the subject
 * number 7 by a secret loop size to get their public keys; either key
 * transformed by the other device's loop size is the shared encryption key.
 * Transforming multiplies by the subject number modulo 20201227, once per
 * loop.
 *
 * `find_loop_size` counts up without a bound and never returns for a key
 * that no loop size reaches; the model searches loop sizes up to `fuel`,
 * and `None` is the outcome of running out.
 */
module Handshake {
  import opened Base
  import Arith

  const Modulus := 20201227
  const InitialSubject := 7

  /** `get_next_transform`: one more loop. */
  function NextTransform(subject: int, value: int): (r: int)
    ensures 0 <= r < Modulus
  {
    value * subject % Modulus
  }

  /** `transform_subject_number`: the value after `loopSize` loops from 1. */
  function Transform(subject: int, loopSize: nat): int {
    if loopSize == 0 then 1 else NextTransform(subject, Transform(subject, loopSize - 1))
  }

  method TransformSubjectNumber(subject: int, loopSize: nat) returns (value: int)
    ensures value == Transform(subject, loopSize)
  {
    value := 1;
    for i := 0 to loopSize
      invariant value == Transform(subject, i)
    {
      value := value * subject % Modulus;
    }
  }

  /** Transforming is raising the subject number to the loop size, modulo 20201227. */
  lemma {:induction false} TransformPow(subject: int, loopSize: nat)
    ensures Transform(subject, loopSize) == Arith.Pow(subject, loopSize) % Modulus
  {
    if loopSize > 0 {
      var a := Arith.Pow(subject, loopSize - 1);
      TransformPow(subject, loopSize - 1);
      MulMod(a, subject);
      assert a * subject == Arith.Pow(subject, loopSize);
    }
  }

  /** Reducing a factor first does not change the remainder of a product. */
  lemma MulMod(a: int, b: int)
    ensures (a % Modulus) * b % Modulus == a * b % Modulus
  {
    Arith.ModMul(a, b, Modulus);
    Arith.ModMul(a % Modulus, b, Modulus);
    Arith.ModMod(a, Modulus);
  }

  lemma {:induction false} PowMod(x: int, e: nat)
    ensures Arith.Pow(x % Modulus, e) % Modulus == Arith.Pow(x, e) % Modulus
  {
    if e > 0 {
      PowMod(x, e - 1);
      var a, b := Arith.Pow(x % Modulus, e - 1), Arith.Pow(x, e - 1);
      Arith.ModMul(x % Modulus, a, Modulus);
      Arith.ModMul(x, b, Modulus);
      Arith.ModMod(x, Modulus);
    }
  }

  lemma {:induction false} PowPow(x: int, a: nat, b: nat)
    ensures Arith.Pow(Arith.Pow(x, a), b) == Arith.Pow(x, a * b)
  {
    if b > 0 {
      PowPow(x, a, b - 1);
      Arith.PowAdd(x, a, a * (b - 1));
      assert a + a * (b - 1) == a * b;
    }
  }

  /**
   * Either public key transformed by the other device's loop size gives the
   * same encryption key, which is why the assertion in `crack_handshake`
   * always holds.
   */
  lemma KeysAgree(cardLoop: nat, doorLoop: nat)
    ensures Transform(Transform(InitialSubject, cardLoop), doorLoop) == Transform(Transform(InitialSubject, doorLoop), cardLoop)
  {
    var card, door := Transform(InitialSubject, cardLoop), Transform(InitialSubject, doorLoop);
    TransformPow(InitialSubject, cardLoop);
    TransformPow(InitialSubject, doorLoop);
    TransformPow(card, doorLoop);
    TransformPow(door, cardLoop);
    PowMod(Arith.Pow(InitialSubject, cardLoop), doorLoop);
    PowMod(Arith.Pow(InitialSubject, doorLoop), cardLoop);
    PowPow(InitialSubject, cardLoop, doorLoop);
    PowPow(InitialSubject, doorLoop, cardLoop);
    assert cardLoop * doorLoop == doorLoop * cardLoop;
  }

  /** `get_public_key`. */
  function PublicKey(loopSize: nat): int {
    Transform(InitialSubject, loopSize)
  }

  /** `get_encryption_key`. */
  function EncryptionKey(publicKey: int, loopSize: nat): int {
    Transform(publicKey, loopSize)
  }

  /** `n` is the loop size `find_loop_size` reports for a key: the first one, from 1 up, that gives it. */
  predicate IsLoopSize(publicKey: int, n: nat) {
    n >= 1 && PublicKey(n) == publicKey && forall j :: 1 <= j < n ==> PublicKey(j) != publicKey
  }

  /** The search of `find_loop_size` from loop size `i` on, giving up after `fuel`. */
  function LoopSizeFrom(publicKey: int, i: nat, fuel: nat): Option<nat>
    decreases fuel + 1 - i
  {
    if i > fuel then None
    else if PublicKey(i) == publicKey then Some(i)
    else LoopSizeFrom(publicKey, i + 1, fuel)
  }

  function LoopSize(publicKey: int, fuel: nat): Option<nat> {
    LoopSizeFrom(publicKey, 1, fuel)
  }

  /** The search finds the first loop size that gives the key, and fails exactly when none up to `fuel` does. */
  lemma {:induction false} LoopSizeFromFirst(publicKey: int, i: nat, fuel: nat)
    requires i >= 1 && forall j :: 1 <= j < i ==> PublicKey(j) != publicKey
    ensures LoopSizeFrom(publicKey, i, fuel).Some? ==>
      var n := LoopSizeFrom(publicKey, i, fuel).value; n <= fuel && IsLoopSize(publicKey, n)
    ensures LoopSizeFrom(publicKey, i, fuel).None? <==> forall j :: 1 <= j <= fuel ==> PublicKey(j) != publicKey
    decreases fuel + 1 - i
  {
    if i <= fuel && PublicKey(i) != publicKey {
      LoopSizeFromFirst(publicKey, i + 1, fuel);
    }
  }

  lemma LoopSizeFirst(publicKey: int, fuel: nat)
    ensures LoopSize(publicKey, fuel).Some? ==>
      var n := LoopSize(publicKey, fuel).value; n <= fuel && IsLoopSize(publicKey, n)
    ensures LoopSize(publicKey, fuel).None? <==> forall j :: 1 <= j <= fuel ==> PublicKey(j) != publicKey
  {
    LoopSizeFromFirst(publicKey, 1, fuel);
  }

  /** A key has at most one loop size in this sense. */
  lemma LoopSizeUnique(publicKey: int, m: nat, n: nat)
    requires IsLoopSize(publicKey, m) && IsLoopSize(publicKey, n)
    ensures m == n
  {
  }

  /** No loop size gives a key outside 0 .. 20201226, so the search for one never ends. */
  lemma LoopSizeOutOfRange(publicKey: int, fuel: nat)
    requires publicKey < 0 || publicKey >= Modulus
    ensures LoopSize(publicKey, fuel).None?
  {
    forall j | 1 <= j <= fuel ensures PublicKey(j) != publicKey {
      assert PublicKey(j) == NextTransform(InitialSubject, Transform(InitialSubject, j - 1));
    }
    LoopSizeFirst(publicKey, fuel);
  }

  /** `find_loop_size`: the running value is transformed once per loop size tried. */
  method FindLoopSize(publicKey: int, fuel: nat) returns (r: Option<nat>)
    ensures r == LoopSize(publicKey, fuel)
  {
    var value := 1;
    var i := 1;
    while i <= fuel
      invariant 1 <= i <= fuel + 1
      invariant value == PublicKey(i - 1)
      invariant LoopSize(publicKey, fuel) == LoopSizeFrom(publicKey, i, fuel)
      decreases fuel + 1 - i
    {
      value := value * InitialSubject % Modulus;
      if value == publicKey {
        return Some(i);
      }
      i := i + 1;
    }
    return None;
  }

  /** `crack_handshake`: both loop sizes found, then the key computed from each side. */
  function Crack(cardKey: int, doorKey: int, fuel: nat): Option<int> {
    match LoopSize(cardKey, fuel)
    case None => None
    case Some(cardLoop) =>
      match LoopSize(doorKey, fuel)
      case None => None
      case Some(doorLoop) => Some(EncryptionKey(cardKey, doorLoop))
  }

  /** The handshake's key is what either device computes, from its own loop size and the other's public key. */
  lemma CrackAgrees(cardKey: int, doorKey: int, fuel: nat, cardLoop: nat, doorLoop: nat)
    requires IsLoopSize(cardKey, cardLoop) && IsLoopSize(doorKey, doorLoop) && cardLoop <= fuel && doorLoop <= fuel
    ensures Crack(cardKey, doorKey, fuel) == Some(EncryptionKey(cardKey, doorLoop))
    ensures Crack(cardKey, doorKey, fuel) == Some(EncryptionKey(doorKey, cardLoop))
  {
    LoopSizeFirst(cardKey, fuel);
    LoopSizeFirst(doorKey, fuel);
    KeysAgree(cardLoop, doorLoop);
  }

  method CrackHandshake(cardKey: int, doorKey: int, fuel: nat) returns (r: Option<int>)
    ensures r == Crack(cardKey, doorKey, fuel)
  {
    var cardLoop := FindLoopSize(cardKey, fuel);
    if cardLoop.None? {
      return None;
    }
    var doorLoop := FindLoopSize(doorKey, fuel);
    if doorLoop.None? {
      return None;
    }
    var key := TransformSubjectNumber(cardKey, doorLoop.value);
    var key2 := TransformSubjectNumber(doorKey, cardLoop.value);
    LoopSizeFirst(cardKey, fuel);
    LoopSizeFirst(doorKey, fuel);
    KeysAgree(cardLoop.value, doorLoop.value);
    assert key == key2;
    return Some(key);
  }

  // ---------------------------------------------------------------- the tests

  /** The public keys for loop sizes 1 to 11, the test's 8 and 11 among them. */
  lemma SamplePublicKeys()
    ensures PublicKey(1) == 7 && PublicKey(2) == 49 && PublicKey(3) == 343 && PublicKey(4) == 2401
    ensures PublicKey(5) == 16807 && PublicKey(6) == 117649 && PublicKey(7) == 823543
    ensures PublicKey(8) == 5764801 && PublicKey(9) == 20152380 && PublicKey(10) == 19859298
    ensures PublicKey(11) == 17807724
  {
  }

  lemma SampleLoopSizes()
    ensures IsLoopSize(5764801, 8) && IsLoopSize(17807724, 11)
  {
    SamplePublicKeys();
  }

  lemma SampleDoorKey()
    ensures EncryptionKey(17807724, 8) == 14897079
  {
    assert Transform(17807724, 1) == 17807724;
    assert Transform(17807724, 2) == 10847306;
    assert Transform(17807724, 3) == 1914476;
    assert Transform(17807724, 4) == 874663;
    assert Transform(17807724, 5) == 5243202;
    assert Transform(17807724, 6) == 8733831;
    assert Transform(17807724, 7) == 1213104;
  }

  lemma SampleCardKey()
    ensures EncryptionKey(5764801, 11) == 14897079
  {
    assert Transform(5764801, 1) == 5764801;
    assert Transform(5764801, 2) == 13239263;
    assert Transform(5764801, 3) == 6286092;
    assert Transform(5764801, 4) == 17588834;
    assert Transform(5764801, 5) == 8144799;
    assert Transform(5764801, 6) == 19339482;
    assert Transform(5764801, 7) == 16501187;
    assert Transform(5764801, 8) == 16669039;
    assert Transform(5764801, 9) == 11273191;
    assert Transform(5764801, 10) == 12070132;
  }

  lemma SampleHandshake(fuel: nat)
    requires fuel >= 11
    ensures Crack(5764801, 17807724, fuel) == Some(14897079)
  {
    SampleLoopSizes();
    SampleDoorKey();
    SampleCardKey();
    CrackAgrees(5764801, 17807724, fuel, 8, 11);
  }
}

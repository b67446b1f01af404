/** Which live peer caches a chunk: the one with the largest combined hash (RhrwPickPeer, waprox/peer.c). */
module Rendezvous {
  import opened Word64
  import opened Peer

  const UINT32: nat := 0x1_0000_0000
  const INT31: nat := 0x8000_0000
  const MULTIPLIER: nat := 1103515245
  const INCREMENT: nat := 12345

  // ---------------------------------------------------------------- the combined hash

  /** Exclusive or of the lowest n bits. */
  function XorBits(a: nat, b: nat, n: nat): nat {
    if n == 0 then 0 else (if a % 2 == b % 2 then 0 else 1) + 2 * XorBits(a / 2, b / 2, n - 1)
  }

  /** One step of the linear congruential generator on unsigned words. */
  function Lcg(x: nat): nat {
    (MULTIPLIER * x + INCREMENT) % UINT32
  }

  function WrandHash(urlHash: nat, svrHash: nat): nat {
    Lcg(XorBits(Lcg(svrHash % INT31), urlHash % INT31, 32)) % INT31
  }

  /** The lowest n bits agree. */
  ghost predicate SameBits(a: nat, b: nat, n: nat) {
    n == 0 || (a % 2 == b % 2 && SameBits(a / 2, b / 2, n - 1))
  }

  /** Exclusive or with the same number keeps apart what differs in low bits, and only that. */
  lemma {:induction false} XorSame(a: nat, b: nat, u: nat, m: nat, n: nat)
    requires n <= m
    ensures SameBits(XorBits(a, u, m), XorBits(b, u, m), n) <==> SameBits(a, b, n)
    decreases n
  {
    if n > 0 {
      XorSame(a / 2, b / 2, u / 2, m - 1, n - 1);
      assert XorBits(a, u, m) / 2 == XorBits(a / 2, u / 2, m - 1);
      assert XorBits(b, u, m) / 2 == XorBits(b / 2, u / 2, m - 1);
    }
  }

  lemma {:induction false} MultipleSame(a: nat, b: nat, k: int, n: nat)
    requires a - b == k * Pow2(n)
    ensures SameBits(a, b, n)
    decreases n
  {
    if n > 0 {
      var z := k * Pow2(n - 1);
      assert k * Pow2(n) == 2 * z;
      MultipleSame(a / 2, b / 2, k, n - 1);
    }
  }

  lemma {:induction false} SameMultiple(a: nat, b: nat, n: nat) returns (k: int)
    requires SameBits(a, b, n)
    ensures a - b == k * Pow2(n)
    decreases n
  {
    if n == 0 {
      k := a - b;
    } else {
      k := SameMultiple(a / 2, b / 2, n - 1);
      assert k * Pow2(n) == 2 * (k * Pow2(n - 1));
    }
  }

  lemma Pow31()
    ensures Pow2(31) == INT31
  {
    assert Pow2(8) == 256;
    assert Pow2(16) == 65536;
    assert Pow2(24) == 16777216;
  }

  /** Agreement in 31 bits is congruence. */
  lemma Same31(a: nat, b: nat)
    ensures SameBits(a, b, 31) <==> a % INT31 == b % INT31
  {
    hide SameBits;
    Pow31();
    if SameBits(a, b, 31) {
      var k := SameMultiple(a, b, 31);
      Congruent31(a, b, k);
    }
    if a % INT31 == b % INT31 {
      MultipleSame(a, b, a / INT31 - b / INT31, 31);
    }
  }

  /** The generator is one-to-one on 31-bit words: its multiplier has an inverse. */
  lemma LcgOneToOne(a: nat, b: nat)
    ensures Lcg(a) % INT31 == Lcg(b) % INT31 <==> a % INT31 == b % INT31
  {
    hide Lcg;
    LcgLow(a);
    LcgLow(b);
    var x, y := MULTIPLIER * a + INCREMENT, MULTIPLIER * b + INCREMENT;
    if x % INT31 == y % INT31 {
      Uncombined(a, b, x / INT31 - y / INT31);
    }
    if a % INT31 == b % INT31 {
      Congruent31(x, y, MULTIPLIER * (a / INT31 - b / INT31));
    }
  }

  lemma Congruent31(x: int, y: int, k: int)
    requires x - y == INT31 * k
    ensures x % INT31 == y % INT31
  {
    Remainder31(x, y / INT31 + k, y % INT31);
  }

  /** 1857678181 is the inverse of the multiplier. */
  lemma Uncombined(a: int, b: int, q: int)
    requires MULTIPLIER * (a - b) == INT31 * q
    ensures a % INT31 == b % INT31
  {
    assert 1857678181 * MULTIPLIER == 1 + 954594553 * INT31;
    Congruent31(a, b, 1857678181 * q - 954594553 * (a - b));
  }

  lemma LcgLow(a: nat)
    ensures Lcg(a) % INT31 == (MULTIPLIER * a + INCREMENT) % INT31
  {
    LowOfWord(MULTIPLIER * a + INCREMENT);
  }

  lemma Remainder31(x: int, k: int, s: int)
    requires x == INT31 * k + s && 0 <= s < INT31
    ensures x % INT31 == s
  {
    var d := x / INT31;
    assert x == INT31 * d + x % INT31;
    assert INT31 * (d - k) == s - x % INT31;
  }

  lemma LowOfWord(x: nat)
    ensures x % UINT32 % INT31 == x % INT31
  {
    var q, r := x / UINT32, x % UINT32;
    var e, s := r / INT31, r % INT31;
    Remainder31(x, 2 * q + e, s);
  }

  /** Peers weigh the same for a chunk exactly when their address hashes agree in 31 bits. */
  lemma WeightsDistinct(url: nat, s: nat, t: nat)
    ensures WrandHash(url, s) == WrandHash(url, t) <==> s % INT31 == t % INT31
  {
    hide XorBits, Lcg, SameBits;
    var u := url % INT31;
    var a, b := Lcg(s % INT31), Lcg(t % INT31);
    LcgOneToOne(XorBits(a, u, 32), XorBits(b, u, 32));
    Same31(XorBits(a, u, 32), XorBits(b, u, 32));
    XorSame(a, b, u, 32, 31);
    Same31(a, b);
    LcgOneToOne(s % INT31, t % INT31);
  }

  lemma {:induction false} XorCommutes(a: nat, b: nat, n: nat)
    ensures XorBits(a, b, n) == XorBits(b, a, n)
  {
    if n > 0 {
      XorCommutes(a / 2, b / 2, n - 1);
    }
  }

  /** A peer weighs the same for two chunks exactly when their hashes agree in 31 bits. */
  lemma ChunksSpread(url: nat, other: nat, s: nat)
    ensures WrandHash(url, s) == WrandHash(other, s) <==> url % INT31 == other % INT31
  {
    hide XorBits, Lcg, SameBits;
    var a, u, v := Lcg(s % INT31), url % INT31, other % INT31;
    LcgOneToOne(XorBits(a, u, 32), XorBits(a, v, 32));
    Same31(XorBits(a, u, 32), XorBits(a, v, 32));
    XorCommutes(a, u, 32);
    XorCommutes(a, v, 32);
    XorSame(u, v, a, 32, 31);
    Same31(u, v);
  }

  // ---------------------------------------------------------------- the choice

  datatype PeerInfo = PeerInfo(addrHash: nat, isAlive: bool)

  /** Peer i may be chosen. */
  predicate Eligible(peers: seq<PeerInfo>, local: nat, i: int) {
    0 <= i < |peers| && i != local && peers[i].isAlive
  }

  /** Peer i is eligible and no eligible peer weighs more. */
  ghost predicate IsPick(peers: seq<PeerInfo>, local: nat, chunkHash: nat, i: int) {
    && Eligible(peers, local, i)
    && forall k :: Eligible(peers, local, k) ==>
         WrandHash(chunkHash, peers[k].addrHash) <= WrandHash(chunkHash, peers[i].addrHash)
  }

  /** The entries are the eligible peers before n with their weights. */
  ghost predicate Weighed(peers: seq<PeerInfo>, local: nat, chunkHash: nat, s: seq<ServerWeight>, n: nat) {
    && n <= |peers|
    && (forall x :: 0 <= x < |s| ==>
          && s[x].index < n && Eligible(peers, local, s[x].index)
          && s[x].weight == WrandHash(chunkHash, peers[s[x].index].addrHash))
    && (forall k :: 0 <= k < n && Eligible(peers, local, k) ==>
          ServerWeight(k, WrandHash(chunkHash, peers[k].addrHash)) in s)
  }

  /** The first of the entries, largest first, is the choice. */
  lemma FirstPicks(peers: seq<PeerInfo>, local: nat, chunkHash: nat, s: seq<ServerWeight>, t: seq<ServerWeight>)
    requires Weighed(peers, local, chunkHash, s, |peers|) && s != [] && Rearranged(s, t, 0, |s|)
    requires Descending(t, 0, |s|)
    ensures IsPick(peers, local, chunkHash, t[0].index)
  {
    hide WrandHash;
    assert s[0..|s|] == s && t[0..|s|] == t;
    var m := RearrangedFrom(s, t, 0, |s|, 0);
    forall k | Eligible(peers, local, k) ensures WrandHash(chunkHash, peers[k].addrHash) <= t[0].weight {
      var e := ServerWeight(k, WrandHash(chunkHash, peers[k].addrHash));
      assert e in s;
      assert e in multiset(t);
      assert e in t;
      var x :| 0 <= x < |t| && t[x] == e;
    }
  }

  /** The eligible peer of largest weight, or -1 if there is none. */
  method RhrwPickPeer(peers: seq<PeerInfo>, local: nat, chunkHash: nat) returns (r: int)
    ensures r == -1 <==> forall k :: !Eligible(peers, local, k)
    ensures r != -1 ==> IsPick(peers, local, chunkHash, r)
  {
    hide WrandHash, IsPick, Rearranged, Descending, Guarded;
    var weights: seq<ServerWeight> := [];
    for i := 0 to |peers|
      invariant Weighed(peers, local, chunkHash, weights, i)
    {
      if i != local && peers[i].isAlive {
        weights := weights + [ServerWeight(i, WrandHash(chunkHash, peers[i].addrHash))];
      }
    }
    if |weights| == 0 {
      return -1;
    }
    var a := new ServerWeight[|weights|](x requires 0 <= x < |weights| => weights[x]);
    assert a[..] == weights;
    if |weights| > 1 {
      WholeGuarded(a[..]);
      QuickSort(a, 0, |weights| - 1);
    } else {
      SortTrivial(a[..], 0, 1);
    }
    FirstPicks(peers, local, chunkHash, weights, a[..]);
    r := a[0].index;
    PickEligible(peers, local, chunkHash, r);
  }

  lemma WholeGuarded(s: seq<ServerWeight>)
    ensures Guarded(s, 0, |s|)
  {
  }

  lemma PickEligible(peers: seq<PeerInfo>, local: nat, chunkHash: nat, i: int)
    requires IsPick(peers, local, chunkHash, i)
    ensures Eligible(peers, local, i)
  {
  }

  // ---------------------------------------------------------------- stability

  /** Different peers have address hashes that differ in 31 bits. */
  ghost predicate DistinctAddresses(peers: seq<PeerInfo>) {
    forall i, j :: 0 <= i < |peers| && 0 <= j < |peers| && peers[i].addrHash % INT31 == peers[j].addrHash % INT31 ==>
      i == j
  }

  /** The two lists of peers differ at most in whether peer j is alive. */
  ghost predicate OnlyPeer(p: seq<PeerInfo>, q: seq<PeerInfo>, j: nat) {
    |p| == |q| && forall k :: 0 <= k < |p| ==> p[k].addrHash == q[k].addrHash && (k != j ==> p[k] == q[k])
  }

  /** With distinct addresses there is one choice. */
  lemma PickUnique(peers: seq<PeerInfo>, local: nat, chunkHash: nat, i: int, k: int)
    requires DistinctAddresses(peers) && IsPick(peers, local, chunkHash, i) && IsPick(peers, local, chunkHash, k)
    ensures i == k
  {
    hide WrandHash;
    WeightsDistinct(chunkHash, peers[i].addrHash, peers[k].addrHash);
  }

  /** Losing a peer other than the chosen one leaves the choice; losing or gaining peer j moves it only from or to j. */
  lemma PickStable(p: seq<PeerInfo>, q: seq<PeerInfo>, j: nat, local: nat, chunkHash: nat, i: int, k: int)
    requires DistinctAddresses(p) && OnlyPeer(p, q, j) && IsPick(p, local, chunkHash, i)
    requires IsPick(q, local, chunkHash, k)
    ensures i == k || i == j || k == j
    ensures (j < |q| && !q[j].isAlive) && i != j ==> k == i
    ensures (j < |p| && !p[j].isAlive) && k != i ==> k == j
  {
    hide WrandHash;
    if k != j && i != j {
      assert Eligible(p, local, k) && Eligible(q, local, i);
      WeightsDistinct(chunkHash, p[i].addrHash, p[k].addrHash);
    }
  }
}

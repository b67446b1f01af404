/** The chained hash table (waprox/hashtable.c). */
module HashTable {
  import opened Wrappers

  datatype Entry<K, V> = Entry(k: K, v: V, h: nat)

  const PRIMES: seq<nat> := [
    53, 97, 193, 389, 769, 1543, 3079, 6151, 12289, 24593, 49157, 98317, 196613, 393241, 786433, 1572869, 3145739,
    6291469, 12582917, 25165843, 50331653, 100663319, 201326611, 402653189, 805306457, 1610612741]

  /** The smallest integer that is no less than 0.65 of the size. */
  function LoadLimit(size: nat): nat {
    (65 * size + 99) / 100
  }

  function IndexFor(length: nat, h: nat): nat
    requires length > 0
  {
    h % length
  }

  // ---------------------------------------------------------------- chains

  /** The values stored for a key, in the order of the chain; the table allows duplicate keys. */
  ghost function Values<K, V>(s: seq<Entry<K, V>>, k: K): seq<V> {
    if s == [] then [] else (if s[0].k == k then [s[0].v] else []) + Values(s[1..], k)
  }

  /** Taking entry p out of a chain. */
  function Without<T>(s: seq<T>, p: nat): seq<T>
    requires p < |s|
  {
    s[..p] + s[p + 1..]
  }

  /** Taking out the first entry for a key takes the first value off that key and leaves the others. */
  lemma {:induction false} ValuesWithout<K, V>(s: seq<Entry<K, V>>, p: nat, k: K)
    requires p < |s| && forall a :: 0 <= a < p ==> s[a].k != s[p].k
    ensures Values(s, s[p].k) != [] && Values(s, s[p].k)[0] == s[p].v
    ensures Values(Without(s, p), k) == if k == s[p].k then Values(s, k)[1..] else Values(s, k)
    decreases p
  {
    hide Values, Without;
    var t := s[1..];
    assert s == [s[0]] + t;
    ValuesFront(t, s[0], k);
    ValuesFront(t, s[0], s[p].k);
    WithoutFront(s, p);
    if p > 0 {
      ValuesWithout(t, p - 1, k);
      ValuesFront(Without(t, p - 1), s[0], k);
    }
  }

  lemma WithoutFront<T>(s: seq<T>, p: nat)
    requires p < |s|
    ensures Without(s, p) == if p == 0 then s[1..] else [s[0]] + Without(s[1..], p - 1)
  {
  }

  lemma ValuesFront<K, V>(s: seq<Entry<K, V>>, e: Entry<K, V>, k: K)
    ensures Values([e] + s, k) == if k == e.k then [e.v] + Values(s, k) else Values(s, k)
  {
    assert ([e] + s)[1..] == s;
    assert [] + Values(s, k) == Values(s, k);
  }

  lemma {:induction false} ValuesAbsent<K, V>(s: seq<Entry<K, V>>, k: K)
    requires forall a :: 0 <= a < |s| ==> s[a].k != k
    ensures Values(s, k) == []
  {
    if s != [] {
      ValuesAbsent(s[1..], k);
    }
  }

  lemma {:induction false} ValuesHas<K, V>(s: seq<Entry<K, V>>, a: nat)
    requires a < |s|
    ensures s[a].v in Values(s, s[a].k)
  {
    if a > 0 {
      ValuesHas(s[1..], a - 1);
    }
  }

  // ---------------------------------------------------------------- contents

  function Reverse<V>(s: seq<V>): (r: seq<V>)
    ensures |r| == |s| && forall i :: 0 <= i < |s| ==> r[i] == s[|s| - 1 - i]
  {
    if s == [] then [] else Reverse(s[1..]) + [s[0]]
  }

  ghost function Stored<K, V>(m: map<K, seq<V>>, k: K): seq<V> {
    if k in m then m[k] else []
  }

  /** One more value for a key, in front of the others. */
  ghost function Added<K, V>(m: map<K, seq<V>>, k: K, v: V): map<K, seq<V>> {
    m[k := [v] + Stored(m, k)]
  }

  /** The first value of a key gone, and the key with its last value. */
  ghost function Dropped<K, V>(m: map<K, seq<V>>, k: K): map<K, seq<V>> {
    if |Stored(m, k)| <= 1 then m - {k} else m[k := m[k][1..]]
  }

  /** The values of every key in the opposite order. */
  ghost function Reversed<K, V>(m: map<K, seq<V>>): map<K, seq<V>> {
    map k | k in m :: Reverse(m[k])
  }

  ghost function AnyKey<K, V>(m: map<K, V>): K
    requires m != map[]
    ensures AnyKey(m) in m
  {
    var k :| k in m;
    k
  }

  /** How many values are stored in all. */
  ghost function Size<K, V>(m: map<K, seq<V>>): nat
    decreases |m|
  {
    if m == map[] then 0
    else
      var k := AnyKey(m);
      assert |m - {k}| < |m| by {
        SmallerMap(m, k);
      }
      |m[k]| + Size(m - {k})
  }

  lemma SmallerMap<K, V>(m: map<K, V>, k: K)
    requires k in m
    ensures |m - {k}| == |m| - 1
  {
    assert (m - {k}).Keys == m.Keys - {k};
  }

  lemma {:induction false} SizeWithout<K, V>(m: map<K, seq<V>>, k: K)
    ensures Size(m) == |Stored(m, k)| + Size(m - {k})
    decreases |m|
  {
    hide Size;
    if k !in m {
      assert m - {k} == m;
    } else {
      var p := AnyKey(m);
      SizeStep(m);
      if p != k {
        SmallerMap(m, p);
        SmallerMap(m, k);
        SizeWithout(m - {p}, k);
        SizeWithout(m - {k}, p);
        assert m - {p} - {k} == m - {k} - {p};
      }
    }
  }

  lemma SizeStep<K, V>(m: map<K, seq<V>>)
    requires m != map[]
    ensures Size(m) == |m[AnyKey(m)]| + Size(m - {AnyKey(m)})
  {
  }

  lemma SizeAdded<K, V>(m: map<K, seq<V>>, k: K, v: V)
    ensures Size(Added(m, k, v)) == Size(m) + 1
  {
    SizeWithout(m, k);
    SizeWithout(Added(m, k, v), k);
    assert Added(m, k, v) - {k} == m - {k};
  }

  lemma SizeDropped<K, V>(m: map<K, seq<V>>, k: K)
    requires Stored(m, k) != []
    ensures Size(Dropped(m, k)) == Size(m) - 1
  {
    SizeWithout(m, k);
    SizeWithout(Dropped(m, k), k);
    assert Dropped(m, k) - {k} == m - {k};
  }

  lemma {:induction false} SizeReversed<K, V>(m: map<K, seq<V>>)
    ensures Size(Reversed(m)) == Size(m)
    decreases |m|
  {
    if m == map[] {
      assert Reversed(m) == map[];
    } else {
      var k := AnyKey(m);
      SmallerMap(m, k);
      SizeReversed(m - {k});
      SizeWithout(Reversed(m), k);
      assert Reversed(m) - {k} == Reversed(m - {k});
    }
  }

  ghost predicate Distinct<K, V>(m: map<K, seq<V>>) {
    forall k :: k in m ==> |m[k]| == 1
  }

  /**
   Without duplicate keys the table is a finite map: a new key is added, a key is removed, growing
   changes nothing, and the count is the number of keys.
   */
  lemma DistinctIsMap<K, V>(m: map<K, seq<V>>, k: K, v: V)
    requires Distinct(m)
    ensures Reversed(m) == m && Size(m) == |m| && Dropped(m, k) == m - {k}
    ensures k !in m ==> Added(m, k, v) == m[k := [v]] && Distinct(m[k := [v]])
  {
    hide Size, Reversed, Reverse;
    DistinctReversed(m);
    SizeDistinct(m);
    assert k !in m ==> m - {k} == m;
    assert [v] + [] == [v];
  }

  lemma DistinctReversed<K, V>(m: map<K, seq<V>>)
    requires Distinct(m)
    ensures Reversed(m) == m
  {
    forall x | x in m ensures Reverse(m[x]) == m[x] {
    }
  }

  lemma {:induction false} SizeDistinct<K, V>(m: map<K, seq<V>>)
    requires Distinct(m)
    ensures Size(m) == |m|
    decreases |m|
  {
    if m != map[] {
      var k := AnyKey(m);
      SmallerMap(m, k);
      SizeDistinct(m - {k});
    }
  }

  /** What the operations do to the values of each key, whether or not it has several. */
  lemma ValuesByKey<K, V>(m: map<K, seq<V>>, k: K, v: V, x: K)
    ensures Stored(Added(m, k, v), x) == if x == k then [v] + Stored(m, k) else Stored(m, x)
    ensures Stored(Dropped(m, k), x) == if x == k && Stored(m, k) != [] then Stored(m, k)[1..] else Stored(m, x)
    ensures |Stored(Reversed(m), x)| == |Stored(m, x)| && forall i :: 0 <= i < |Stored(m, x)| ==>
              Stored(Reversed(m), x)[i] == Stored(m, x)[|Stored(m, x)| - 1 - i]
  {
    hide Reverse;
    assert x in m ==> Stored(Reversed(m), x) == Reverse(m[x]);
  }

  /** What a search finds: the first value of the key. */
  ghost function Answer<K, V>(m: map<K, seq<V>>, k: K): Option<V> {
    if Stored(m, k) == [] then None else Some(Stored(m, k)[0])
  }

  /** Growing leaves the answer for a key as it is exactly when it has no value, or its first and last are equal. */
  lemma GrowthAnswer<K, V>(m: map<K, seq<V>>, k: K)
    ensures Answer(Reversed(m), k) == Answer(m, k)
            <==> Stored(m, k) == [] || Stored(m, k)[0] == Stored(m, k)[|Stored(m, k)| - 1]
  {
    hide Reverse;
    assert k in m ==> Stored(Reversed(m), k) == Reverse(m[k]);
  }

  /** An inserted value is the answer for its key; growing leaves it so exactly when the oldest value is equal. */
  lemma GrowingReorders<K, V>(m: map<K, seq<V>>, k: K, v: V)
    ensures Answer(Added(m, k, v), k) == Some(v)
    ensures Answer(Reversed(Added(m, k, v)), k) == Some(v)
            <==> Stored(m, k) == [] || Stored(m, k)[|Stored(m, k)| - 1] == v
  {
    hide Reverse, Reversed;
    var a := Added(m, k, v);
    assert a[k] == [v] + Stored(m, k);
    GrowthAnswer(a, k);
  }

  /** A search, growth, and the same search again. */
  method SearchAcrossGrowth<K(==, !new), V>(t: Table<K, V>, k: K) returns (before: Option<V>, after: Option<V>)
    requires t.Valid() && t.primeindex + 1 < |PRIMES|
    modifies t, t.table
    ensures t.Valid() && t.contents == Reversed(old(t.contents))
    ensures before == Answer(old(t.contents), k)
    ensures before == after
            <==> Stored(old(t.contents), k) == []
                 || Stored(old(t.contents), k)[0] == Stored(old(t.contents), k)[|Stored(old(t.contents), k)| - 1]
  {
    hide Represents, Size, Reversed, Stored;
    before := t.Search(k);
    ghost var m := t.contents;
    SizeReversed(m);
    var ok := t.Expand();
    GrowthAnswer(m, k);
    after := t.Search(k);
  }

  // ---------------------------------------------------------------- tables

  /** Every entry is in the bucket of its hash. */
  ghost predicate InPlace<K, V>(hash: K -> nat, t: seq<seq<Entry<K, V>>>) {
    && |t| > 0
    && forall i, a :: 0 <= i < |t| && 0 <= a < |t[i]| ==>
         t[i][a].h == hash(t[i][a].k) && IndexFor(|t|, t[i][a].h) == i
  }

  ghost function Lookup<K, V>(hash: K -> nat, t: seq<seq<Entry<K, V>>>, k: K): seq<V>
    requires |t| > 0
  {
    Values(t[IndexFor(|t|, hash(k))], k)
  }

  /** The table stores for every key the values of the map, in its order. */
  ghost predicate Represents<K(!new), V>(hash: K -> nat, t: seq<seq<Entry<K, V>>>, m: map<K, seq<V>>) {
    InPlace(hash, t) && (forall k: K :: Lookup(hash, t, k) == Stored(m, k)) && forall k :: k in m ==> m[k] != []
  }

  /** Entries and contents agree one by one: nothing is lost in a chain. */
  lemma EntriesAreMap<K(!new), V>(hash: K -> nat, t: seq<seq<Entry<K, V>>>, m: map<K, seq<V>>, i: nat, a: nat)
    requires Represents(hash, t, m) && i < |t| && a < |t[i]|
    ensures t[i][a].v in Stored(m, t[i][a].k)
  {
    ValuesHas(t[i], a);
    assert Lookup(hash, t, t[i][a].k) == Stored(m, t[i][a].k);
  }

  /** Putting an entry in front of its chain. */
  lemma InsertRepresents<K(!new), V>(hash: K -> nat, t: seq<seq<Entry<K, V>>>, m: map<K, seq<V>>, k: K, v: V)
    requires Represents(hash, t, m)
    ensures var i := IndexFor(|t|, hash(k)); Represents(hash, t[i := [Entry(k, v, hash(k))] + t[i]], Added(m, k, v))
  {
    hide InPlace;
    RepresentsSize(hash, t, m);
    var e := Entry(k, v, hash(k));
    var i := IndexFor(|t|, hash(k));
    FrontInPlace(hash, t, e);
    var u := t[i := [e] + t[i]];
    forall x: K ensures Lookup(hash, u, x) == Stored(Added(m, k, v), x) {
      assert Lookup(hash, t, x) == Stored(m, x);
      ValuesFront(t[i], e, x);
    }
  }

  /** Taking the first entry of a key out of its chain. */
  lemma RemoveRepresents<K(!new), V>(hash: K -> nat, t: seq<seq<Entry<K, V>>>, m: map<K, seq<V>>, i: nat, p: nat)
    requires Represents(hash, t, m) && i < |t| && p < |t[i]| && forall a :: 0 <= a < p ==> t[i][a].k != t[i][p].k
    ensures Represents(hash, t[i := Without(t[i], p)], Dropped(m, t[i][p].k))
    ensures Stored(m, t[i][p].k) != [] && Stored(m, t[i][p].k)[0] == t[i][p].v
  {
    hide InPlace, Without;
    var k := t[i][p].k;
    InPlaceAt(hash, t, i, p);
    WithoutInPlace(hash, t, i, p);
    var u := t[i := Without(t[i], p)];
    assert Lookup(hash, t, k) == Stored(m, k);
    ValuesWithout(t[i], p, k);
    forall x: K ensures Lookup(hash, u, x) == Stored(Dropped(m, k), x) {
      assert Lookup(hash, t, x) == Stored(m, x);
      ValuesWithout(t[i], p, x);
    }
  }

  lemma WithoutInPlace<K, V>(hash: K -> nat, t: seq<seq<Entry<K, V>>>, i: nat, p: nat)
    requires InPlace(hash, t) && i < |t| && p < |t[i]|
    ensures InPlace(hash, t[i := Without(t[i], p)])
  {
    var s := Without(t[i], p);
    forall a | 0 <= a < |s| ensures s[a] == t[i][if a < p then a else a + 1] {
    }
  }

  // ---------------------------------------------------------------- expansion

  /** Entries move from table t to table u: for every key those still in t, last first, precede those in u. */
  ghost predicate Moving<K(!new), V>(hash: K -> nat, t: seq<seq<Entry<K, V>>>, u: seq<seq<Entry<K, V>>>,
                                     m: map<K, seq<V>>) {
    && InPlace(hash, t) && InPlace(hash, u)
    && (forall k: K :: Split(Lookup(hash, t, k), Lookup(hash, u, k), Stored(m, k)))
    && (forall k :: k in m ==> m[k] != [])
  }

  ghost predicate Split<V>(left: seq<V>, moved: seq<V>, all: seq<V>) {
    Reverse(left) + moved == Reverse(all)
  }

  lemma MovingStart<K(!new), V>(hash: K -> nat, t: seq<seq<Entry<K, V>>>, u: seq<seq<Entry<K, V>>>, m: map<K, seq<V>>)
    requires Represents(hash, t, m) && |u| > 0 && forall i :: 0 <= i < |u| ==> u[i] == []
    ensures Moving(hash, t, u, m)
  {
    forall k: K ensures Split(Lookup(hash, t, k), Lookup(hash, u, k), Stored(m, k)) {
      assert Lookup(hash, t, k) == Stored(m, k) && Lookup(hash, u, k) == [];
    }
  }

  lemma MovingEnd<K(!new), V>(hash: K -> nat, t: seq<seq<Entry<K, V>>>, u: seq<seq<Entry<K, V>>>, m: map<K, seq<V>>)
    requires Moving(hash, t, u, m) && forall i :: 0 <= i < |t| ==> t[i] == []
    ensures Represents(hash, u, Reversed(m))
  {
    forall k: K ensures Lookup(hash, u, k) == Stored(Reversed(m), k) {
      assert Split(Lookup(hash, t, k), Lookup(hash, u, k), Stored(m, k));
      assert Lookup(hash, t, k) == [];
    }
    forall k | k in m ensures Reversed(m)[k] != [] {
    }
  }

  /** The tables after the head of chain i of t has moved in front of its chain in u. */
  lemma MoveHead<K(!new), V>(hash: K -> nat, t: seq<seq<Entry<K, V>>>, u: seq<seq<Entry<K, V>>>, m: map<K, seq<V>>,
                             i: nat)
    requires Moving(hash, t, u, m) && i < |t| && t[i] != []
    ensures var e := t[i][0]; var j := IndexFor(|u|, e.h); Moving(hash, t[i := t[i][1..]], u[j := [e] + u[j]], m)
  {
    hide InPlace, Split, Lookup;
    var e := t[i][0];
    InPlaceAt(hash, t, i, 0);
    TailInPlace(hash, t, i);
    FrontInPlace(hash, u, e);
    var t', u' := t[i := t[i][1..]], u[IndexFor(|u|, e.h) := [e] + u[IndexFor(|u|, e.h)]];
    forall k: K ensures Split(Lookup(hash, t', k), Lookup(hash, u', k), Stored(m, k)) {
      assert Split(Lookup(hash, t, k), Lookup(hash, u, k), Stored(m, k));
      MoveSplit(hash, t, u, Stored(m, k), i, k);
    }
  }

  /** What moving the head means for one key. */
  lemma MoveSplit<K, V>(hash: K -> nat, t: seq<seq<Entry<K, V>>>, u: seq<seq<Entry<K, V>>>, all: seq<V>, i: nat, k: K)
    requires InPlace(hash, t) && |u| > 0 && i < |t| && t[i] != []
    requires Split(Lookup(hash, t, k), Lookup(hash, u, k), all)
    ensures var e := t[i][0]; var j := IndexFor(|u|, e.h);
            Split(Lookup(hash, t[i := t[i][1..]], k), Lookup(hash, u[j := [e] + u[j]], k), all)
  {
    hide InPlace, Split, Values;
    var e := t[i][0];
    InPlaceAt(hash, t, i, 0);
    assert t[i] == [e] + t[i][1..];
    ValuesFront(t[i][1..], e, k);
    ValuesFront(u[IndexFor(|u|, e.h)], e, k);
    if k == e.k {
      SplitMoves(e.v, Values(t[i][1..], k), Lookup(hash, u, k), all);
    }
  }

  lemma SplitMoves<V>(v: V, rest: seq<V>, moved: seq<V>, all: seq<V>)
    requires Split([v] + rest, moved, all)
    ensures Split(rest, [v] + moved, all)
  {
    assert ([v] + rest)[1..] == rest;
    assert Reverse(rest) + [v] + moved == Reverse(rest) + ([v] + moved);
  }

  lemma InPlaceAt<K, V>(hash: K -> nat, t: seq<seq<Entry<K, V>>>, i: nat, a: nat)
    requires InPlace(hash, t) && i < |t| && a < |t[i]|
    ensures t[i][a].h == hash(t[i][a].k) && IndexFor(|t|, t[i][a].h) == i
  {
  }

  lemma TailInPlace<K, V>(hash: K -> nat, t: seq<seq<Entry<K, V>>>, i: nat)
    requires InPlace(hash, t) && i < |t| && t[i] != []
    ensures InPlace(hash, t[i := t[i][1..]])
  {
    var t' := t[i := t[i][1..]];
    forall a | 0 <= a < |t'[i]| ensures t'[i][a] == t[i][a + 1] {
    }
  }

  lemma FrontInPlace<K, V>(hash: K -> nat, u: seq<seq<Entry<K, V>>>, e: Entry<K, V>)
    requires InPlace(hash, u) && e.h == hash(e.k)
    ensures |u| > 0
    ensures var j := IndexFor(|u|, e.h); InPlace(hash, u[j := [e] + u[j]])
  {
    var j := IndexFor(|u|, e.h);
    forall a | 0 <= a < |([e] + u[j])| ensures ([e] + u[j])[a] == if a == 0 then e else u[j][a - 1] {
    }
  }

  // ---------------------------------------------------------------- the program

  class Table<K(==, !new), V> {
    const hash: K -> nat
    var table: array<seq<Entry<K, V>>>
    var entrycount: nat
    var loadlimit: nat
    var primeindex: nat
    /** What the table stands for: the values of every key, the one found first in front. */
    ghost var contents: map<K, seq<V>>

    ghost predicate Valid()
      reads this, table
    {
      && Represents(hash, table[..], contents) && entrycount == Size(contents)
      && primeindex < |PRIMES| && table.Length == PRIMES[primeindex] && loadlimit == LoadLimit(table.Length)
    }

    constructor (hash: K -> nat, pindex: nat)
      requires pindex < |PRIMES|
      ensures Valid() && fresh(table) && contents == map[] && this.hash == hash && primeindex == pindex
    {
      this.hash := hash;
      var size := PRIMES[pindex];
      table := new seq<Entry<K, V>>[size](_ => []);
      entrycount, loadlimit, primeindex, contents := 0, LoadLimit(size), pindex, map[];
      new;
      EmptyRepresents(hash, table[..]);
    }

    /** Move the entries of one chain to a new table, each to the front of its new chain. */
    method MoveChain(t: array<seq<Entry<K, V>>>, newtable: array<seq<Entry<K, V>>>, i: nat, ghost m: map<K, seq<V>>)
      requires t != newtable && i < t.Length && newtable.Length > 0 && Moving(hash, t[..], newtable[..], m)
      modifies t, newtable
      ensures Moving(hash, t[..], newtable[..], m) && t[i] == []
      ensures forall k :: 0 <= k < t.Length && k != i ==> t[k] == old(t[k])
    {
      hide Moving;
      while t[i] != []
        invariant Moving(hash, t[..], newtable[..], m)
        invariant forall k :: 0 <= k < t.Length && k != i ==> t[k] == old(t[k])
        decreases |t[i]|
      {
        ghost var s, n := t[..], newtable[..];
        MoveHead(hash, s, n, m, i);
        var e := t[i][0];
        t[i] := t[i][1..];
        var index := IndexFor(newtable.Length, e.h);
        newtable[index] := [e] + newtable[index];
        assert t[..] == s[i := s[i][1..]] && newtable[..] == n[index := [e] + n[index]];
      }
    }

    /** Move every entry to a table of the next size, reversing chains; at the largest size nothing happens. */
    method Expand() returns (ok: bool)
      requires Represents(hash, table[..], contents) && primeindex < |PRIMES| && table.Length == PRIMES[primeindex]
      modifies this`table, this`loadlimit, this`primeindex, this`contents, table
      ensures ok == (old(primeindex) + 1 < |PRIMES|)
      ensures primeindex == (if ok then old(primeindex) + 1 else old(primeindex))
      ensures contents == if ok then Reversed(old(contents)) else old(contents)
      ensures Represents(hash, table[..], contents) && primeindex < |PRIMES| && table.Length == PRIMES[primeindex]
      ensures if ok then fresh(table) && loadlimit == LoadLimit(table.Length)
              else table == old(table) && table[..] == old(table[..]) && loadlimit == old(loadlimit)
    {
      hide Represents, Moving, LoadLimit, Reversed;
      if primeindex == |PRIMES| - 1 {
        return false;
      }
      primeindex := primeindex + 1;
      var newsize := PRIMES[primeindex];
      var newtable := new seq<Entry<K, V>>[newsize](_ => []);
      var t := table;
      ghost var m := contents;
      MovingStart(hash, t[..], newtable[..], m);
      for i := 0 to t.Length
        invariant Moving(hash, t[..], newtable[..], m) && forall k :: 0 <= k < i ==> t[k] == []
        invariant table == t && primeindex == old(primeindex) + 1
      {
        MoveChain(t, newtable, i, m);
      }
      MovingEnd(hash, t[..], newtable[..], m);
      table := newtable;
      contents := Reversed(m);
      loadlimit := LoadLimit(newsize);
      ok := true;
    }

    /** Add an entry; a key that is there already gets a second one, found first until the table grows. */
    method Insert(k: K, v: V)
      requires Valid()
      modifies this, table
      ensures Valid() && (table == old(table) || fresh(table))
      ensures var grows := old(entrycount) + 1 > old(loadlimit) && old(primeindex) + 1 < |PRIMES|;
              contents == Added(if grows then Reversed(old(contents)) else old(contents), k, v)
    {
      hide Represents, LoadLimit, Added, Reversed, Size;
      entrycount := entrycount + 1;
      SizeReversed(contents);
      if entrycount > loadlimit {
        var ok := Expand();
      }
      RepresentsSize(hash, table[..], contents);
      SizeAdded(contents, k, v);
      InsertRepresents(hash, table[..], contents, k, v);
      var h := hash(k);
      var index := IndexFor(table.Length, h);
      ghost var s := table[..];
      table[index] := [Entry(k, v, h)] + table[index];
      assert table[..] == s[index := [Entry(k, v, h)] + s[index]];
      contents := Added(contents, k, v);
    }

    /** The first value of a key, if it has one. */
    method Search(k: K) returns (r: Option<V>)
      requires Valid()
      ensures r == Answer(contents, k)
    {
      hide Represents, Size;
      RepresentsAt(hash, table[..], contents, k);
      var h := hash(k);
      ghost var index := IndexFor(table.Length, h);
      var chain := table[IndexFor(table.Length, h)];
      for p := 0 to |chain|
        invariant Values(chain, k) == Values(chain[p..], k)
      {
        InPlaceAt(hash, table[..], index, p);
        if h == chain[p].h && k == chain[p].k {
          return Some(chain[p].v);
        }
        assert chain[p..][1..] == chain[p + 1..];
      }
      r := None;
    }

    /** Take the first entry of a key out and return its value, if there is one. */
    method Remove(k: K) returns (r: Option<V>)
      requires Valid()
      modifies this`entrycount, this`contents, table
      ensures Valid() && r == Answer(old(contents), k)
      ensures contents == if r == None then old(contents) else Dropped(old(contents), k)
    {
      hide Represents, InPlace, Without, LoadLimit, Size, Dropped;
      RepresentsAt(hash, table[..], contents, k);
      var h := hash(k);
      var index := IndexFor(table.Length, h);
      var chain := table[index];
      ghost var s := table[..];
      for p := 0 to |chain|
        invariant forall a :: 0 <= a < p ==> chain[a].k != k
        invariant contents == old(contents) && entrycount == old(entrycount) && table[..] == s
      {
        InPlaceAt(hash, s, index, p);
        if h == chain[p].h && k == chain[p].k {
          RemoveRepresents(hash, s, contents, index, p);
          SizeDropped(contents, k);
          table[index] := Without(chain, p);
          assert table[..] == s[index := Without(s[index], p)];
          entrycount := entrycount - 1;
          contents := Dropped(contents, k);
          return Some(chain[p].v);
        }
      }
      ValuesAbsent(chain, k);
      r := None;
    }
  }

  lemma RepresentsAt<K(!new), V>(hash: K -> nat, t: seq<seq<Entry<K, V>>>, m: map<K, seq<V>>, k: K)
    requires Represents(hash, t, m)
    ensures InPlace(hash, t) && |t| > 0 && Values(t[IndexFor(|t|, hash(k))], k) == Stored(m, k)
  {
    assert Lookup(hash, t, k) == Stored(m, k);
  }

  lemma RepresentsSize<K(!new), V>(hash: K -> nat, t: seq<seq<Entry<K, V>>>, m: map<K, seq<V>>)
    requires Represents(hash, t, m)
    ensures |t| > 0
  {
  }

  lemma EmptyRepresents<K(!new), V>(hash: K -> nat, t: seq<seq<Entry<K, V>>>)
    requires |t| > 0 && forall i :: 0 <= i < |t| ==> t[i] == []
    ensures Represents(hash, t, map[])
  {
  }

  /** The size for a requested minimum: none when it is too large, else the first prime above it. */
  method PickPrime(minsize: nat) returns (r: Option<nat>)
    ensures r == None <==> minsize > 0x4000_0000
    ensures r.Some? ==>
              r.value < |PRIMES| && PRIMES[r.value] > minsize && forall i :: 0 <= i < r.value ==> PRIMES[i] <= minsize
  {
    if minsize > 0x4000_0000 {
      return None;
    }
    assert PRIMES[25] > minsize;
    for pindex := 0 to |PRIMES|
      invariant forall i :: 0 <= i < pindex ==> PRIMES[i] <= minsize
    {
      if PRIMES[pindex] > minsize {
        return Some(pindex);
      }
    }
  }
}

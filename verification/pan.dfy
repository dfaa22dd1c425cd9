/** The contents of the weighing pan: an ordered list of elements with membership
    test, removal of the first occurrence and conditional append, plus the summed mass. */
module Pan {
  import opened Catalogue

  /** No element occurs twice. */
  predicate NoDup<T(==)>(s: seq<T>) {
    forall i, j :: 0 <= i < j < |s| ==> s[i] != s[j]
  }

  /** Index of the first occurrence of `x`, or -1 when there is none. */
  function IndexOf<T(==)>(s: seq<T>, x: T): (i: int)
    ensures -1 <= i < |s|
    ensures i == -1 <==> x !in s
    ensures 0 <= i ==> s[i] == x && x !in s[..i]
  {
    if |s| == 0 then -1
    else if s[0] == x then 0
    else
      var j := IndexOf(s[1..], x);
      assert s[1..][..if j < 0 then 0 else j] == s[1..if j < 0 then 1 else j + 1];
      if j == -1 then -1 else j + 1
  }

  /** Drops the element at index `i`, keeping the order of the rest. */
  function RemoveAt<T>(s: seq<T>, i: nat): (r: seq<T>)
    requires i < |s|
    ensures |r| == |s| - 1
    ensures forall k :: 0 <= k < i ==> r[k] == s[k]
    ensures forall k :: i <= k < |r| ==> r[k] == s[k + 1]
    ensures multiset(r) == multiset(s) - multiset{s[i]}
  {
    assert s == s[..i] + [s[i]] + s[i + 1..];
    s[..i] + s[i + 1..]
  }

  /** Removing one slot leaves every other value present exactly when it was present. */
  lemma RemoveAtMembers(s: seq<Item>, i: nat)
    requires i < |s|
    ensures forall y :: y != s[i] ==> (y in RemoveAt(s, i) <==> y in s)
  {
    var r := RemoveAt(s, i);
    forall y | y != s[i] ensures y in r <==> y in s {
      assert y in r <==> y in multiset(r);
      assert y in s <==> y in multiset(s);
    }
  }

  /** Removing a slot from a duplicate-free list keeps it duplicate-free and removes its value. */
  lemma RemoveAtNoDup(s: seq<Item>, i: nat)
    requires i < |s|
    requires NoDup(s)
    ensures NoDup(RemoveAt(s, i))
    ensures s[i] !in RemoveAt(s, i)
  {
    var r := RemoveAt(s, i);
    forall a, b | 0 <= a < b < |r| ensures r[a] != r[b] {
      var a' := if a < i then a else a + 1;
      var b' := if b < i then b else b + 1;
      assert r[a] == s[a'] && r[b] == s[b'];
    }
    forall k | 0 <= k < |r| ensures r[k] != s[i] {
      var k' := if k < i then k else k + 1;
      assert r[k] == s[k'];
    }
  }

  /** Removal on picking an element up: the first occurrence of `x`, if any, is taken out. */
  function Withdraw(s: seq<Item>, x: Item): (r: seq<Item>)
    ensures x !in s ==> r == s
    ensures x in s ==> multiset(r) == multiset(s) - multiset{x}
    ensures forall y :: y != x ==> (y in r <==> y in s)
    ensures NoDup(s) ==> NoDup(r) && x !in r
  {
    var i := IndexOf(s, x);
    if i > -1 then
      RemoveAtMembers(s, i);
      if NoDup(s) then RemoveAtNoDup(s, i); RemoveAt(s, i) else RemoveAt(s, i)
    else
      s
  }

  /** Addition on dropping an element: `x` is appended only when the drop `hit`
      the pan and `x` is not already on it. */
  function Deposit(s: seq<Item>, x: Item, hit: bool): (r: seq<Item>)
    ensures x in r <==> x in s || hit
    ensures forall y :: y != x ==> (y in r <==> y in s)
    ensures NoDup(s) ==> NoDup(r)
    ensures multiset(r)[x] == if hit && x !in s then 1 else multiset(s)[x]
  {
    if hit && x !in s then s + [x] else s
  }

  /** Total nominal mass of the pan, summed from the left starting at zero. */
  function PanMass(s: seq<Item>): (m: real)
    ensures m >= 0.0
  {
    if |s| == 0 then 0.0 else PanMass(s[..|s| - 1]) + MassOf(s[|s| - 1].kind)
  }

  /** True when some element satisfies `p`, testing them from the left. */
  function Any(s: seq<Item>, p: Item -> bool): (b: bool)
    ensures b <==> exists i :: 0 <= i < |s| && p(s[i])
  {
    if |s| == 0 then false
    else if p(s[0]) then true
    else
      var b := Any(s[1..], p);
      assert forall i :: 0 < i < |s| ==> s[i] == s[1..][i - 1];
      b
  }

  /** The mass of a concatenation is the sum of the masses of its parts. */
  lemma {:induction false} PanMassAppend(a: seq<Item>, b: seq<Item>)
    ensures PanMass(a + b) == PanMass(a) + PanMass(b)
    decreases |b|
  {
    if |b| == 0 {
      assert a + b == a;
    } else {
      var b' := b[..|b| - 1];
      assert (a + b)[..|a + b| - 1] == a + b';
      PanMassAppend(a, b');
    }
  }

  /** Taking an element off the pan lowers the mass by exactly that element's mass. */
  lemma PanMassWithdraw(s: seq<Item>, x: Item)
    requires x in s
    ensures PanMass(Withdraw(s, x)) == PanMass(s) - MassOf(x.kind)
  {
    var i := IndexOf(s, x);
    assert Withdraw(s, x) == s[..i] + s[i + 1..];
    PanMassSplice(s, i);
  }

  /** Cutting one slot out lowers the mass by exactly the mass of the element in it. */
  lemma PanMassSplice(s: seq<Item>, i: nat)
    requires i < |s|
    ensures PanMass(s[..i] + s[i + 1..]) == PanMass(s) - MassOf(s[i].kind)
  {
    PanMassSplit(s, i + 1);
    PanMassPrefix(s, i);
    PanMassAppend(s[..i], s[i + 1..]);
  }

  /** The mass of a list is the mass of a prefix plus the mass of the rest. */
  lemma PanMassSplit(s: seq<Item>, k: nat)
    requires k <= |s|
    ensures PanMass(s) == PanMass(s[..k]) + PanMass(s[k..])
  {
    SplitJoin(s, k);
    PanMassAppend(s[..k], s[k..]);
  }

  /** A list is its prefix followed by the rest. */
  lemma SplitJoin<T>(s: seq<T>, k: nat)
    requires k <= |s|
    ensures s[..k] + s[k..] == s
  {
  }

  /** Extending a prefix by one slot adds the mass of the element in it. */
  lemma PanMassPrefix(s: seq<Item>, i: nat)
    requires i < |s|
    ensures PanMass(s[..i + 1]) == PanMass(s[..i]) + MassOf(s[i].kind)
  {
    assert s[..i + 1][..i] == s[..i];
  }

  /** A pan holding one element weighs that element's mass. */
  lemma PanMassSingleton(x: Item)
    ensures PanMass([x]) == MassOf(x.kind)
  {
    assert [x][..0] == [];
  }

  /** The mass does not depend on the order of the pan: any rearrangement weighs the same. */
  lemma {:induction false} PanMassPermutation(a: seq<Item>, b: seq<Item>)
    requires multiset(a) == multiset(b)
    ensures PanMass(a) == PanMass(b)
    decreases |a|
  {
    if |a| == 0 {
      assert |b| == |multiset(b)| == 0;
    } else {
      var x := a[|a| - 1];
      var a' := a[..|a| - 1];
      assert a == a' + [x];
      assert x in multiset(b);
      assert x in b;
      var b' := Withdraw(b, x);
      assert multiset(a') == multiset(b') by {
        assert multiset(a) == multiset(a') + multiset{x};
      }
      PanMassPermutation(a', b');
      PanMassWithdraw(b, x);
    }
  }
}

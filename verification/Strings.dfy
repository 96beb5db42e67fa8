/** Byte-wise string order, the sorted key lists that `slices.Sort` produces,
    and decimal rendering as `%d` writes it. */
module Strings {
  predicate Leq(a: string, b: string) {
    if a == [] then true
    else if b == [] then false
    else if a[0] == b[0] then Leq(a[1..], b[1..])
    else a[0] < b[0]
  }

  /** Byte order: a prefix comes first, otherwise the first difference decides. */
  lemma {:induction false} LeqMeans(a: string, b: string)
    ensures Leq(a, b) <==> a <= b || exists k :: 0 <= k < |a| && k < |b| && a[..k] == b[..k] && a[k] < b[k]
    decreases |a|
  {
    if a != [] && b != [] {
      LeqMeans(a[1..], b[1..]);
      if a[0] == b[0] {
        assert a <= b <==> a[1..] <= b[1..] by { assert a == [a[0]] + a[1..] && b == [b[0]] + b[1..]; }
        if k :| 0 <= k < |a| && k < |b| && a[..k] == b[..k] && a[k] < b[k] {
          assert k > 0 && a[1..][..k - 1] == a[..k][1..] == b[..k][1..] == b[1..][..k - 1] && a[1..][k - 1] < b[1..][k - 1];
        }
        if k :| 0 <= k < |a| - 1 && k < |b| - 1 && a[1..][..k] == b[1..][..k] && a[1..][k] < b[1..][k] {
          assert a[..k + 1] == [a[0]] + a[1..][..k] && b[..k + 1] == [b[0]] + b[1..][..k] && a[k + 1] < b[k + 1];
        }
      } else if a[0] < b[0] {
        assert a[..0] == b[..0];
      }
    }
  }

  lemma {:induction false} LeqTotal(a: string, b: string)
    ensures Leq(a, b) || Leq(b, a)
  {
    if a != [] && b != [] && a[0] == b[0] {
      LeqTotal(a[1..], b[1..]);
    }
  }

  lemma {:induction false} LeqAntisymmetric(a: string, b: string)
    requires Leq(a, b) && Leq(b, a)
    ensures a == b
  {
    if a != [] && b != [] {
      LeqAntisymmetric(a[1..], b[1..]);
      assert a == [a[0]] + a[1..] && b == [b[0]] + b[1..];
    }
  }

  lemma {:induction false} LeqTransitive(a: string, b: string, c: string)
    requires Leq(a, b) && Leq(b, c)
    ensures Leq(a, c)
  {
    if a != [] && b != [] && c != [] && a[0] == b[0] && b[0] == c[0] {
      LeqTransitive(a[1..], b[1..], c[1..]);
    }
  }

  ghost predicate IsLeast(x: string, keys: set<string>) {
    x in keys && forall y | y in keys :: Leq(x, y)
  }

  lemma {:induction false} LeastExists(keys: set<string>)
    requires keys != {}
    ensures exists x :: IsLeast(x, keys)
    decreases |keys|
  {
    var x :| x in keys;
    LeqTotal(x, x);
    if keys == {x} {
      assert IsLeast(x, keys);
    } else {
      LeastExists(keys - {x});
      var y :| IsLeast(y, keys - {x});
      LeqTotal(x, y);
      var z := if Leq(x, y) then x else y;
      forall k | k in keys ensures Leq(z, k) {
        if k != x && z == x { LeqTransitive(x, y, k); }
        LeqTotal(k, k);
      }
      assert IsLeast(z, keys);
    }
  }

  ghost function Least(keys: set<string>): (x: string)
    requires keys != {}
    ensures IsLeast(x, keys)
  {
    LeastExists(keys);
    var x :| IsLeast(x, keys);
    x
  }

  lemma LeastUnique(x: string, keys: set<string>)
    requires IsLeast(x, keys)
    ensures x == Least(keys)
  {
    LeqAntisymmetric(x, Least(keys));
  }

  // The keys in ascending order.
  ghost function Sorted(keys: set<string>): seq<string>
    decreases |keys|
  {
    if keys == {} then [] else [Least(keys)] + Sorted(keys - {Least(keys)})
  }

  ghost predicate Enumerates(order: seq<string>, keys: set<string>) {
    && (forall x :: x in order <==> x in keys)
    && forall i, j | 0 <= i < j < |order| :: order[i] != order[j]
  }

  lemma {:induction false} SortedEnumerates(keys: set<string>)
    ensures Enumerates(Sorted(keys), keys)
    decreases |keys|
  {
    if keys != {} {
      var x := Least(keys);
      var rest := Sorted(keys - {x});
      SortedEnumerates(keys - {x});
      assert Sorted(keys) == [x] + rest;
      assert forall i | 0 <= i < |rest| :: rest[i] in rest;
    }
  }

  lemma {:induction false} SortedAscends(keys: set<string>, i: nat, j: nat)
    requires i <= j < |Sorted(keys)|
    ensures Leq(Sorted(keys)[i], Sorted(keys)[j])
    decreases |keys|
  {
    var x := Least(keys);
    var rest := Sorted(keys - {x});
    assert Sorted(keys) == [x] + rest;
    SortedEnumerates(keys);
    assert Sorted(keys)[j] in Sorted(keys);
    if i > 0 { SortedAscends(keys - {x}, i - 1, j - 1); }
  }

  // The first sorted key that satisfies a test is the least one that does.
  lemma SortedFirst(keys: set<string>, chosen: set<string>, i: nat)
    requires chosen <= keys && i < |Sorted(keys)| && Sorted(keys)[i] in chosen
    requires forall j | 0 <= j < i :: Sorted(keys)[j] !in chosen
    ensures IsLeast(Sorted(keys)[i], chosen)
  {
    SortedEnumerates(keys);
    forall y | y in chosen ensures Leq(Sorted(keys)[i], y) {
      assert y in Sorted(keys);
      var j: nat :| j < |Sorted(keys)| && Sorted(keys)[j] == y;
      SortedAscends(keys, i, j);
    }
  }

  // Any order at all, as ranging over a map yields it.
  method AnyOrder(keys: set<string>) returns (order: seq<string>)
    ensures Enumerates(order, keys)
  {
    order := [];
    var rest := keys;
    while rest != {}
      invariant rest <= keys && Enumerates(order, keys - rest)
      decreases |rest|
    {
      var x :| x in rest;
      order := order + [x];
      rest := rest - {x};
    }
    assert keys - rest == keys;
  }

  // slices.Sort on the keys of a map.
  method SortKeys(keys: set<string>) returns (order: seq<string>)
    ensures order == Sorted(keys)
  {
    order := [];
    var rest := keys;
    while rest != {}
      invariant rest <= keys
      invariant order + Sorted(rest) == Sorted(keys)
      decreases |rest|
    {
      var x := FindLeast(rest);
      LeastUnique(x, rest);
      assert order + ([x] + Sorted(rest - {x})) == (order + [x]) + Sorted(rest - {x});
      order := order + [x];
      rest := rest - {x};
    }
  }

  method FindLeast(keys: set<string>) returns (x: string)
    requires keys != {}
    ensures IsLeast(x, keys)
  {
    x :| x in keys;
    var rest := keys - {x};
    LeqTotal(x, x);
    while rest != {}
      invariant rest <= keys
      invariant IsLeast(x, keys - rest)
      decreases |rest|
    {
      var y :| y in rest;
      LeqTotal(x, y);
      LeqTotal(y, y);
      if !Leq(x, y) {
        forall k | k in keys - rest ensures Leq(y, k) { LeqTransitive(y, x, k); }
        x := y;
      }
      rest := rest - {y};
    }
    assert keys - rest == keys;
  }

  function Digit(d: nat): char
    requires d < 10
  {
    ['0', '1', '2', '3', '4', '5', '6', '7', '8', '9'][d]
  }

  function Decimal(n: nat): string {
    if n < 10 then [Digit(n)] else Decimal(n / 10) + [Digit(n % 10)]
  }

  function DigitValue(c: char): nat {
    if '0' <= c <= '9' then (c as int - '0' as int) as nat else 0
  }

  function Parse(s: string): nat {
    if s == [] then 0 else 10 * Parse(s[..|s| - 1]) + DigitValue(s[|s| - 1])
  }

  lemma {:induction false} ParseDecimal(n: nat)
    ensures Parse(Decimal(n)) == n
    ensures ':' !in Decimal(n)
  {
    if n >= 10 {
      ParseDecimal(n / 10);
      var s := Decimal(n);
      assert s[..|s| - 1] == Decimal(n / 10);
    } else {
      assert Decimal(n)[..0] == [];
    }
  }
}

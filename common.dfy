/** Shared vocabulary: optional values, identities, calendar days, the string
    operations the screens use, and the folds behind every `reduce`, `filter`
    and dictionary tally in the system. */
module Common {

  datatype Option<T> = None | Some(value: T) {
    function GetOr(default: T): T {
      if Some? then value else default
    }
  }

  /** Entity identity: drawn from a fresh counter instead of the wall clock. */
  type Id = nat

  /** A calendar day, counted from 1970-01-01 (day 0). */
  type Date = int

  predicate Distinct<T(==)>(s: seq<T>) {
    forall i, j :: 0 <= i < j < |s| ==> s[i] != s[j]
  }

  /** `s.find(x => key(x) === id)`: the first element carrying the key. */
  function FindBy<T, K(==)>(s: seq<T>, key: T -> K, id: K): (r: Option<T>)
    ensures r.Some? ==> r.value in s && key(r.value) == id
    ensures r.None? <==> forall k :: 0 <= k < |s| ==> key(s[k]) != id
    decreases |s|
  {
    if s == [] then None else if key(s[0]) == id then Some(s[0]) else FindBy(s[1..], key, id)
  }

  /** No two elements share a key. */
  predicate UniqueKeys<T, K(==)>(s: seq<T>, key: T -> K) {
    forall i, j :: 0 <= i < j < |s| ==> key(s[i]) != key(s[j])
  }

  /** With unique keys, the search finds the one element carrying the key. */
  lemma {:induction false} FindByAt<T, K>(s: seq<T>, key: T -> K, k: int)
    requires UniqueKeys(s, key) && 0 <= k < |s|
    ensures FindBy(s, key, key(s[k])) == Some(s[k])
    decreases |s|
  {
    if k > 0 {
      assert key(s[0]) != key(s[k]);
      FindByAt(s[1..], key, k - 1);
    }
  }

  // ---------------------------------------------------------------- strings

  predicate StartsWith(s: string, prefix: string) {
    |prefix| <= |s| && s[..|prefix|] == prefix
  }

  /** `s.includes(sub)`: some suffix of `s` starts with `sub`. */
  predicate Contains(s: string, sub: string)
    decreases |s|
  {
    StartsWith(s, sub) || (|s| > 0 && Contains(s[1..], sub))
  }

  lemma {:induction false} ContainsEmpty(s: string)
    ensures Contains(s, "")
  {
  }

  /** `toLowerCase` on the ASCII letters. */
  function LowerChar(c: char): char {
    if 'A' <= c <= 'Z' then (c as int + 32) as char else c
  }

  function Lower(s: string): (r: string)
    ensures |r| == |s|
  {
    seq(|s|, i requires 0 <= i < |s| => LowerChar(s[i]))
  }

  function Digit(d: nat): char
    requires d < 10
  {
    "0123456789"[d]
  }

  /** Decimal rendering of a natural number, without leading zeros. */
  function NatToString(n: nat): (r: string)
    ensures |r| >= 1
    decreases n
  {
    if n < 10 then [Digit(n)] else NatToString(n / 10) + [Digit(n % 10)]
  }

  /** `${i}` for an integer: a minus sign before the digits of a negative number. */
  function IntToString(i: int): string {
    if i < 0 then "-" + NatToString(-i) else NatToString(i)
  }

  /** `s.padStart(width, '0')`: never truncates. */
  function PadZeros(s: string, width: nat): (r: string)
    ensures |r| == if |s| >= width then |s| else width
    ensures r[|r| - |s|..] == s
  {
    if |s| >= width then s else seq(width - |s|, _ => '0') + s
  }

  /** The value of a string of decimal digits (leading zeros allowed). */
  function DigitsValue(s: string): int
    decreases |s|
  {
    if s == [] then 0 else DigitsValue(s[..|s| - 1]) * 10 + ((s[|s| - 1] as int) - ('0' as int))
  }

  lemma {:induction false} NatToStringValue(n: nat)
    ensures DigitsValue(NatToString(n)) == n
    decreases n
  {
    if n >= 10 {
      NatToStringValue(n / 10);
      var s := NatToString(n);
      assert s[..|s| - 1] == NatToString(n / 10);
    }
  }

  lemma {:induction false} ZerosValue(z: nat)
    ensures DigitsValue(seq(z, _ => '0')) == 0
  {
    if z > 0 {
      var zs := seq(z, _ => '0');
      assert zs[..z - 1] == seq(z - 1, _ => '0');
      ZerosValue(z - 1);
    }
  }

  lemma {:induction false} LeadingZerosValue(z: nat, s: string)
    ensures DigitsValue(seq(z, _ => '0') + s) == DigitsValue(s)
    decreases |s|
  {
    var zs := seq(z, _ => '0');
    if s == [] {
      assert zs + s == zs;
      ZerosValue(z);
    } else {
      var t := zs + s;
      assert t[..|t| - 1] == zs + s[..|s| - 1];
      LeadingZerosValue(z, s[..|s| - 1]);
    }
  }

  function Pow10(k: nat): nat {
    if k == 0 then 1 else 10 * Pow10(k - 1)
  }

  /** A number below 10^k takes at most k digits. */
  lemma {:induction false} NatToStringLength(n: nat, k: nat)
    requires 1 <= k && n < Pow10(k)
    ensures |NatToString(n)| <= k
    decreases k
  {
    if n >= 10 {
      assert k >= 2;
      NatToStringLength(n / 10, k - 1);
    }
  }

  /** Padding a rendered number with zeros does not change the number it reads as. */
  lemma PaddedValue(n: nat, width: nat)
    ensures DigitsValue(PadZeros(NatToString(n), width)) == n
  {
    var s := NatToString(n);
    NatToStringValue(n);
    if |s| < width {
      LeadingZerosValue(width - |s|, s);
    }
  }

  /** Concatenation is associative. */
  lemma ConcatAssoc<T>(a: seq<T>, b: seq<T>, c: seq<T>)
    ensures (a + b) + c == a + (b + c)
  {
  }

  /** A prefix one longer is the prefix plus the next element. */
  lemma PrefixSnoc<T>(s: seq<T>, i: int)
    requires 0 <= i < |s|
    ensures s[..i + 1] == s[..i] + [s[i]]
  {
  }

  // ------------------------------------------------------------------ folds

  /** `s.reduce((sum, x) => sum + f(x), 0)`: a left fold, so it peels the last element. */
  function Sum<T>(s: seq<T>, f: T -> real): real
    decreases |s|
  {
    if s == [] then 0.0 else Sum(s[..|s| - 1], f) + f(s[|s| - 1])
  }

  lemma {:induction false} SumAppend<T>(a: seq<T>, b: seq<T>, f: T -> real)
    ensures Sum(a + b, f) == Sum(a, f) + Sum(b, f)
    decreases |b|
  {
    if b == [] {
      assert a + b == a;
    } else {
      assert (a + b)[..|a + b| - 1] == a + b[..|b| - 1];
      SumAppend(a, b[..|b| - 1], f);
    }
  }

  /** A fold of a sum is the sum of the folds. */
  lemma {:induction false} SumSplit<T>(s: seq<T>, f: T -> real, g: T -> real, h: T -> real)
    requires forall x :: f(x) == g(x) + h(x)
    ensures Sum(s, f) == Sum(s, g) + Sum(s, h)
    decreases |s|
  {
    if s != [] {
      SumSplit(s[..|s| - 1], f, g, h);
    }
  }

  /** A constant factor comes out of the fold. */
  lemma {:induction false} SumScale<T>(s: seq<T>, f: T -> real, g: T -> real, c: real)
    requires forall x :: g(x) == c * f(x)
    ensures Sum(s, g) == c * Sum(s, f)
    decreases |s|
  {
    if s != [] {
      SumScale(s[..|s| - 1], f, g, c);
    }
  }

  /** Replacing one element changes the fold by the difference of the terms. */
  lemma {:induction false} SumUpdate<T>(s: seq<T>, k: int, x: T, f: T -> real)
    requires 0 <= k < |s|
    ensures Sum(s[k := x], f) == Sum(s, f) - f(s[k]) + f(x)
    decreases |s|
  {
    var t := s[k := x];
    var n := |s| - 1;
    if k == n {
      assert t[..n] == s[..n];
    } else {
      assert t[..n] == s[..n][k := x];
      SumUpdate(s[..n], k, x, f);
    }
  }

  lemma {:induction false} SumNonNegative<T>(s: seq<T>, f: T -> real)
    requires forall x :: f(x) >= 0.0
    ensures Sum(s, f) >= 0.0
    decreases |s|
  {
    if s != [] {
      SumNonNegative(s[..|s| - 1], f);
    }
  }

  /** `s.filter(p)`, keeping order. */
  function Filter<T>(s: seq<T>, p: T -> bool): (r: seq<T>)
    ensures |r| <= |s|
    ensures forall i :: 0 <= i < |r| ==> r[i] in s && p(r[i])
    ensures forall i :: 0 <= i < |s| && p(s[i]) ==> s[i] in r
    decreases |s|
  {
    if s == [] then [] else (if p(s[0]) then [s[0]] else []) + Filter(s[1..], p)
  }

  /** `r` is `s` with some elements dropped and the rest kept in order. */
  predicate IsSubsequence<T(==)>(r: seq<T>, s: seq<T>)
    decreases |s|
  {
    r == [] || (s != [] && ((r[0] == s[0] && IsSubsequence(r[1..], s[1..])) || IsSubsequence(r, s[1..])))
  }

  lemma {:induction false} FilterIsSubsequence<T>(s: seq<T>, p: T -> bool)
    ensures IsSubsequence(Filter(s, p), s)
    decreases |s|
  {
    if s != [] {
      FilterIsSubsequence(s[1..], p);
      if p(s[0]) {
        assert Filter(s, p)[1..] == Filter(s[1..], p);
      } else {
        assert Filter(s, p) == Filter(s[1..], p);
      }
    }
  }

  /** Filtering by a predicate that holds everywhere keeps the whole list. */
  lemma {:induction false} FilterAll<T>(s: seq<T>, p: T -> bool)
    requires forall x :: x in s ==> p(x)
    ensures Filter(s, p) == s
    decreases |s|
  {
    if s != [] {
      assert p(s[0]) by {
        assert s[0] in s;
      }
      forall x | x in s[1..]
        ensures p(x)
      {
        assert x in s;
      }
      FilterAll(s[1..], p);
      assert s == [s[0]] + s[1..];
    }
  }

  /** Two filters in a row are one filter by the conjunction. */
  lemma {:induction false} FilterFilter<T>(s: seq<T>, p: T -> bool, q: T -> bool, pq: T -> bool)
    requires forall x :: pq(x) == (p(x) && q(x))
    ensures Filter(Filter(s, p), q) == Filter(s, pq)
    decreases |s|
  {
    if s != [] {
      FilterFilter(s[1..], p, q, pq);
      var head := if p(s[0]) then [s[0]] else [];
      assert Filter(s, p) == head + Filter(s[1..], p);
      FilterAppend(head, Filter(s[1..], p), q);
    }
  }

  lemma {:induction false} FilterAppend<T>(a: seq<T>, b: seq<T>, p: T -> bool)
    ensures Filter(a + b, p) == Filter(a, p) + Filter(b, p)
    decreases |a|
  {
    if a != [] {
      assert (a + b)[1..] == a[1..] + b;
      FilterAppend(a[1..], b, p);
    } else {
      assert a + b == b;
    }
  }

  /** Filtering a list whose keys are distinct leaves distinct keys. */
  lemma {:induction false} FilterKeepsDistinctKeys<T, K>(s: seq<T>, p: T -> bool, key: T -> K)
    requires forall i, j :: 0 <= i < j < |s| ==> key(s[i]) != key(s[j])
    ensures forall i, j :: 0 <= i < j < |Filter(s, p)| ==> key(Filter(s, p)[i]) != key(Filter(s, p)[j])
    decreases |s|
  {
    if s != [] {
      FilterKeepsDistinctKeys(s[1..], p, key);
      var rest := Filter(s[1..], p);
      forall k | 0 <= k < |rest|
        ensures key(rest[k]) != key(s[0])
      {
        assert rest[k] in s[1..];
        var j :| 0 <= j < |s[1..]| && s[1..][j] == rest[k];
        assert s[1 + j] == rest[k];
      }
    }
  }

  /** Filters by predicates that agree on the list's elements agree. */
  lemma {:induction false} FilterCongruent<T>(s: seq<T>, p: T -> bool, q: T -> bool)
    requires forall x :: x in s ==> p(x) == q(x)
    ensures Filter(s, p) == Filter(s, q)
    decreases |s|
  {
    if s != [] {
      assert s[0] in s;
      assert forall x :: x in s[1..] ==> x in s;
      FilterCongruent(s[1..], p, q);
    }
  }

  /** A filter no element passes is empty. */
  lemma {:induction false} FilterNone<T>(s: seq<T>, p: T -> bool)
    requires forall x :: x in s ==> !p(x)
    ensures Filter(s, p) == []
    decreases |s|
  {
    if s != [] {
      assert s[0] in s;
      assert forall x :: x in s[1..] ==> x in s;
      FilterNone(s[1..], p);
    }
  }

  /** A filter and the filter by the opposite predicate split the list between them. */
  lemma {:induction false} FilterComplement<T>(s: seq<T>, p: T -> bool, q: T -> bool)
    requires forall x :: q(x) == !p(x)
    ensures |Filter(s, p)| + |Filter(s, q)| == |s|
    decreases |s|
  {
    if s != [] {
      FilterComplement(s[1..], p, q);
    }
  }

  /** The number of elements satisfying `p`: `s.filter(p).length`. */
  function Count<T>(s: seq<T>, p: T -> bool): nat {
    |Filter(s, p)|
  }

  // --------------------------------------------------- keyed tallies

  /** Σ val(x) over the x in s whose key is k: the value a `{[key]: number}`
      dictionary filled by `d[key(x)] = (d[key(x)] || 0) + val(x)` holds at k. */
  function GroupSum<T, K(==)>(s: seq<T>, key: T -> K, val: T -> real, k: K): real
    decreases |s|
  {
    if s == [] then 0.0
    else GroupSum(s[..|s| - 1], key, val, k) + (if key(s[|s| - 1]) == k then val(s[|s| - 1]) else 0.0)
  }

  /** The keys such a dictionary holds, in insertion order. */
  function Keys<T, K(==)>(s: seq<T>, key: T -> K): seq<K>
    decreases |s|
  {
    if s == [] then []
    else
      var ks := Keys(s[..|s| - 1], key);
      if key(s[|s| - 1]) in ks then ks else ks + [key(s[|s| - 1])]
  }

  lemma {:induction false} KeysSpec<T, K>(s: seq<T>, key: T -> K)
    ensures Distinct(Keys(s, key))
    ensures forall k :: k in Keys(s, key) <==> exists x :: x in s && key(x) == k
    decreases |s|
  {
    if s != [] {
      var init := s[..|s| - 1];
      KeysSpec(init, key);
      forall k
        ensures k in Keys(s, key) <==> exists x :: x in s && key(x) == k
      {
        if k in Keys(s, key) && k != key(s[|s| - 1]) {
          var x :| x in init && key(x) == k;
          assert x in s;
        }
        if exists x :: x in s && key(x) == k {
          var x :| x in s && key(x) == k;
          if x != s[|s| - 1] {
            assert s == init + [s[|s| - 1]];
            assert x in init;
          }
        }
      }
    }
  }

  lemma {:induction false} KeysMember<T, K>(s: seq<T>, key: T -> K, x: T)
    requires x in s
    ensures key(x) in Keys(s, key)
    decreases |s|
  {
    if x != s[|s| - 1] {
      assert s == s[..|s| - 1] + [s[|s| - 1]];
      KeysMember(s[..|s| - 1], key, x);
    }
  }

  /** A key never seen contributes nothing. */
  lemma {:induction false} GroupSumAbsent<T, K>(s: seq<T>, key: T -> K, val: T -> real, k: K)
    requires forall x :: x in s ==> key(x) != k
    ensures GroupSum(s, key, val, k) == 0.0
    decreases |s|
  {
    if s != [] {
      assert forall x :: x in s[..|s| - 1] ==> x in s;
      GroupSumAbsent(s[..|s| - 1], key, val, k);
      assert s[|s| - 1] in s;
    }
  }

  /** Σ over the keys ks of the per-key sums. */
  function KeyedTotal<T, K(==)>(ks: seq<K>, s: seq<T>, key: T -> K, val: T -> real): real
    decreases |ks|
  {
    if ks == [] then 0.0 else KeyedTotal(ks[..|ks| - 1], s, key, val) + GroupSum(s, key, val, ks[|ks| - 1])
  }

  /** One more element adds its value to the total over the keys ks exactly
      when its key is among them. */
  lemma {:induction false} KeyedTotalStep<T, K>(ks: seq<K>, s: seq<T>, key: T -> K, val: T -> real)
    requires Distinct(ks) && s != []
    ensures KeyedTotal(ks, s, key, val)
         == KeyedTotal(ks, s[..|s| - 1], key, val) + (if key(s[|s| - 1]) in ks then val(s[|s| - 1]) else 0.0)
    decreases |ks|
  {
    if ks != [] {
      var init := ks[..|ks| - 1];
      assert Distinct(init);
      KeyedTotalStep(init, s, key, val);
      assert ks == init + [ks[|ks| - 1]];
      if key(s[|s| - 1]) == ks[|ks| - 1] {
        assert key(s[|s| - 1]) !in init;
      }
    }
  }

  /** A key seen for the first time at the last element: its group holds
      just that element's value. */
  lemma NewKeyGroup<T, K>(s: seq<T>, key: T -> K, val: T -> real)
    requires s != [] && key(s[|s| - 1]) !in Keys(s[..|s| - 1], key)
    ensures GroupSum(s, key, val, key(s[|s| - 1])) == val(s[|s| - 1])
  {
    var init := s[..|s| - 1];
    var k := key(s[|s| - 1]);
    forall y | y in init
      ensures key(y) != k
    {
      KeysMember(init, key, y);
    }
    GroupSumAbsent(init, key, val, k);
  }

  /** The dictionary's values add up to the plain total: no element is lost
      or counted twice by the grouping. */
  lemma {:induction false} GroupSumsCoverSum<T, K>(s: seq<T>, key: T -> K, val: T -> real)
    ensures KeyedTotal(Keys(s, key), s, key, val) == Sum(s, val)
    decreases |s|
  {
    if s != [] {
      var init := s[..|s| - 1];
      var kx := key(s[|s| - 1]);
      var ks := Keys(init, key);
      GroupSumsCoverSum(init, key, val);
      KeysSpec(init, key);
      KeyedTotalStep(ks, s, key, val);
      if kx !in ks {
        NewKeyGroup(s, key, val);
        assert (ks + [kx])[..|ks + [kx]| - 1] == ks;
      }
    }
  }
}

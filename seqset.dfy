/**
 * JavaScript `Set` and the key order of a `Map` iterate in insertion order and hold each
 * member once. This module models such a collection as a duplicate-free sequence, and
 * provides the counting and filtering vocabulary the other modules use.
 */
module SeqSet {

  /** No value occurs twice. */
  predicate Distinct<T(==,!new)>(s: seq<T>) {
    forall i, j :: 0 <= i < j < |s| ==> s[i] != s[j]
  }

  /** `Set.prototype.add`: appends `x` unless it is already present. */
  function Add<T(==,!new)>(s: seq<T>, x: T): (r: seq<T>)
    ensures forall y :: y in r <==> y in s || y == x
    ensures |s| <= |r| && r[..|s|] == s
    ensures |r| == if x in s then |s| else |s| + 1
    ensures Distinct(s) ==> Distinct(r)
  {
    if x in s then s else s + [x]
  }

  /** `Set.prototype.delete`: drops `x`, keeping the order of the other members. */
  function Remove<T(==,!new)>(s: seq<T>, x: T): (r: seq<T>)
    ensures forall y :: y in r <==> y in s && y != x
    ensures |r| <= |s|
    ensures x !in s ==> r == s
    ensures Distinct(s) ==> Distinct(r)
  {
    if s == [] then []
    else if s[0] == x then DistinctTail(s); Remove(s[1..], x)
    else DistinctTail(s); [s[0]] + Remove(s[1..], x)
  }

  /** The tail of a duplicate-free sequence is duplicate-free and lacks the head. */
  lemma DistinctTail<T(!new)>(s: seq<T>)
    requires s != []
    ensures Distinct(s) ==> Distinct(s[1..]) && s[0] !in s[1..]
  {
    if Distinct(s) {
      forall k | 0 <= k < |s| - 1 ensures s[1..][k] != s[0] {
        assert s[1..][k] == s[k + 1];
      }
    }
  }

  /** Removing what was just added to a set that lacked it gives the set back. */
  lemma {:induction false} RemoveUndoesAdd<T(!new)>(s: seq<T>, x: T)
    requires x !in s
    ensures Remove(Add(s, x), x) == s
  {
    var a := Add(s, x);
    assert a == s + [x];
    if s == [] {
      assert a[1..] == [];
    } else {
      assert a[0] == s[0] != x && a[1..] == Add(s[1..], x);
      RemoveUndoesAdd(s[1..], x);
      assert Remove(a, x) == [s[0]] + s[1..];
    }
  }

  /** Removing twice is removing once. */
  lemma {:induction false} RemoveIdempotent<T(!new)>(s: seq<T>, x: T)
    ensures Remove(Remove(s, x), x) == Remove(s, x)
  {
    // the first removal leaves no `x` behind, and removing an absent value changes nothing
  }

  /** Removal keeps the relative order of the survivors: removing one value and then
      another is the same as the other way round. */
  lemma {:induction false} RemoveCommutes<T(!new)>(s: seq<T>, x: T, y: T)
    ensures Remove(Remove(s, x), y) == Remove(Remove(s, y), x)
  {
    if s != [] {
      RemoveCommutes(s[1..], x, y);
    }
  }

  /** How many times `x` occurs in `s`. */
  function Occurrences<T(==,!new)>(s: seq<T>, x: T): (n: nat)
    ensures n <= |s|
  {
    if s == [] then 0 else (if s[0] == x then 1 else 0) + Occurrences(s[1..], x)
  }

  /** `x` is counted at all exactly when it is a member. */
  lemma {:induction false} OccurrencesZero<T(!new)>(s: seq<T>, x: T)
    ensures Occurrences(s, x) == 0 <==> x !in s
  {
    if s != [] {
      OccurrencesZero(s[1..], x);
      assert s == [s[0]] + s[1..];
    }
  }

  lemma {:induction false} OccurrencesAppend<T(!new)>(a: seq<T>, b: seq<T>, x: T)
    ensures Occurrences(a + b, x) == Occurrences(a, x) + Occurrences(b, x)
  {
    if a == [] {
      assert a + b == b;
    } else {
      assert (a + b)[1..] == a[1..] + b;
      OccurrencesAppend(a[1..], b, x);
    }
  }

  lemma OccurrencesSnoc<T(!new)>(s: seq<T>, x: T, y: T)
    ensures Occurrences(s + [x], y) == Occurrences(s, y) + (if x == y then 1 else 0)
  {
    OccurrencesAppend(s, [x], y);
    assert [x][1..] == [];
  }

  /** One more element of `ls` looked at: `x` is counted once more exactly when it is met. */
  lemma OccurrencesStep<T(!new)>(ls: seq<T>, i: nat, x: T)
    requires i < |ls|
    ensures Occurrences(ls[..i + 1], x) == Occurrences(ls[..i], x) + (if ls[i] == x then 1 else 0)
  {
    assert ls[..i + 1] == ls[..i] + [ls[i]];
    OccurrencesSnoc(ls[..i], ls[i], x);
  }

  /** A member of a duplicate-free sequence occurs exactly once. */
  lemma {:induction false} OccurrencesDistinct<T(!new)>(s: seq<T>, x: T)
    requires Distinct(s) && x in s
    ensures Occurrences(s, x) == 1
  {
    DistinctTail(s);
    if s[0] != x {
      OccurrencesDistinct(s[1..], x);
    } else {
      OccurrencesZero(s[1..], x);
    }
  }

  /** `s` once per copy, `n` copies in a row: what `n` listeners that each run the same
      handler list produce. */
  function Fanout<T(!new)>(s: seq<T>, n: nat): (r: seq<T>)
    ensures |r| == n * |s|
    ensures forall y :: y in r <==> n > 0 && y in s
  {
    if n == 0 then [] else s + Fanout(s, n - 1)
  }

  /** Each member of `s` is met exactly `n` times as often in `Fanout(s, n)` as in `s`. */
  lemma {:induction false} FanoutOccurrences<T(!new)>(s: seq<T>, n: nat, x: T)
    ensures Occurrences(Fanout(s, n), x) == n * Occurrences(s, x)
  {
    if n > 0 {
      OccurrencesAppend(s, Fanout(s, n - 1), x);
      FanoutOccurrences(s, n - 1, x);
      var k := Occurrences(s, x);
      assert n * k == k + (n - 1) * k;
    }
  }

  /** `Fanout` grows at either end: one more copy appended at the back. */
  lemma {:induction false} FanoutSnoc<T(!new)>(s: seq<T>, n: nat)
    ensures Fanout(s, n + 1) == Fanout(s, n) + s
  {
    if n == 0 {
      assert Fanout(s, 1) == s + [];
    } else {
      FanoutSnoc(s, n - 1);
      assert Fanout(s, n + 1) == s + (Fanout(s, n - 1) + s);
    }
  }

  /** One more element of `ls` looked at: `s` is run once more exactly when it equals `x`. */
  lemma FanoutStep<T(!new), U(!new)>(ls: seq<T>, i: nat, x: T, s: seq<U>)
    requires i < |ls|
    ensures Fanout(s, Occurrences(ls[..i + 1], x))
         == Fanout(s, Occurrences(ls[..i], x)) + (if ls[i] == x then s else [])
  {
    assert ls[..i + 1] == ls[..i] + [ls[i]];
    OccurrencesSnoc(ls[..i], ls[i], x);
    FanoutSnoc(s, Occurrences(ls[..i], x));
    if ls[i] != x {
      assert Fanout(s, Occurrences(ls[..i], x)) + [] == Fanout(s, Occurrences(ls[..i], x));
    }
  }

  /** The members of `s` that lie in `xs`, in the order of `s`. */
  function Within<T(==,!new)>(s: seq<T>, xs: set<T>): (r: seq<T>)
    ensures |r| <= |s|
    ensures forall y :: y in r <==> y in s && y in xs
  {
    if s == [] then [] else (if s[0] in xs then [s[0]] else []) + Within(s[1..], xs)
  }

  lemma {:induction false} WithinAppend<T(!new)>(a: seq<T>, b: seq<T>, xs: set<T>)
    ensures Within(a + b, xs) == Within(a, xs) + Within(b, xs)
  {
    if a == [] {
      assert a + b == b;
    } else {
      assert (a + b)[1..] == a[1..] + b;
      WithinAppend(a[1..], b, xs);
    }
  }

  /** `Array.prototype.filter` with a pure predicate. */
  function Filter<T(!new)>(s: seq<T>, p: T -> bool): (r: seq<T>)
    ensures |r| <= |s|
    ensures forall y :: y in r <==> y in s && p(y)
  {
    if s == [] then [] else (if p(s[0]) then [s[0]] else []) + Filter(s[1..], p)
  }

  /** Filtering distributes over concatenation; with the singleton case this pins the
      result down to "the kept elements, in their original order". */
  lemma {:induction false} FilterAppend<T(!new)>(a: seq<T>, b: seq<T>, p: T -> bool)
    ensures Filter(a + b, p) == Filter(a, p) + Filter(b, p)
  {
    if a == [] {
      assert a + b == b;
    } else {
      assert (a + b)[1..] == a[1..] + b;
      FilterAppend(a[1..], b, p);
    }
  }

  function Reverse<T>(s: seq<T>): (r: seq<T>)
    ensures |r| == |s|
    ensures forall i :: 0 <= i < |s| ==> r[i] == s[|s| - 1 - i]
  {
    if s == [] then [] else Reverse(s[1..]) + [s[0]]
  }

  lemma ReverseCons<T>(x: T, s: seq<T>)
    ensures Reverse([x] + s) == Reverse(s) + [x]
  {
    assert ([x] + s)[1..] == s;
  }
}

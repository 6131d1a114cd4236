/** Sums over table rows: the meaning of the SQL aggregates `SUM` and `COUNT`. */
module Sums {

  function Min(a: int, b: int): int { if a <= b then a else b }

  function Sum<T>(s: seq<T>, f: T -> int): int {
    if |s| == 0 then 0 else Sum(s[..|s| - 1], f) + f(s[|s| - 1])
  }

  lemma SumAppend<T>(s: seq<T>, x: T, f: T -> int)
    ensures Sum(s + [x], f) == Sum(s, f) + f(x)
  {
    assert (s + [x])[..|s|] == s;
  }

  lemma {:induction false} SumConcat<T>(s: seq<T>, t: seq<T>, f: T -> int)
    ensures Sum(s + t, f) == Sum(s, f) + Sum(t, f)
  {
    if |t| == 0 {
      assert s + t == s;
    } else {
      var t' := t[..|t| - 1];
      assert (s + t)[..|s + t| - 1] == s + t';
      SumConcat(s, t', f);
    }
  }

  lemma SumPair<T>(s: seq<T>, x: T, y: T, f: T -> int)
    ensures Sum(s + [x, y], f) == Sum(s, f) + f(x) + f(y)
  {
    assert s + [x, y] == (s + [x]) + [y];
    SumAppend(s, x, f);
    SumAppend(s + [x], y, f);
  }

  lemma {:induction false} SumEqual<T>(s: seq<T>, f: T -> int, g: T -> int)
    requires forall i :: 0 <= i < |s| ==> f(s[i]) == g(s[i])
    ensures Sum(s, f) == Sum(s, g)
  {
    if |s| > 0 {
      SumEqual(s[..|s| - 1], f, g);
    }
  }

  lemma {:induction false} SumZero<T>(s: seq<T>, f: T -> int)
    requires forall i :: 0 <= i < |s| ==> f(s[i]) == 0
    ensures Sum(s, f) == 0
  {
    if |s| > 0 {
      SumZero(s[..|s| - 1], f);
    }
  }

  lemma {:induction false} SumOnes<T>(s: seq<T>, f: T -> int)
    requires forall i :: 0 <= i < |s| ==> f(s[i]) == 1
    ensures Sum(s, f) == |s|
  {
    if |s| > 0 {
      SumOnes(s[..|s| - 1], f);
    }
  }

  lemma {:induction false} SumNonNegative<T>(s: seq<T>, f: T -> int)
    requires forall i :: 0 <= i < |s| ==> 0 <= f(s[i])
    ensures 0 <= Sum(s, f)
  {
    if |s| > 0 {
      SumNonNegative(s[..|s| - 1], f);
    }
  }

  lemma {:induction false} SumZeroIff<T>(s: seq<T>, f: T -> int)
    requires forall i :: 0 <= i < |s| ==> 0 <= f(s[i])
    ensures Sum(s, f) == 0 <==> forall i :: 0 <= i < |s| ==> f(s[i]) == 0
  {
    if |s| > 0 {
      SumNonNegative(s[..|s| - 1], f);
      SumZeroIff(s[..|s| - 1], f);
    }
  }

  /** The sums of two columns that differ in one row only. */
  lemma {:induction false} SumChangedAt<T>(s: seq<T>, f: T -> int, g: T -> int, k: nat)
    requires k < |s|
    requires forall i :: 0 <= i < |s| && i != k ==> f(s[i]) == g(s[i])
    ensures Sum(s, g) == Sum(s, f) + g(s[k]) - f(s[k])
  {
    var s' := s[..|s| - 1];
    if k == |s| - 1 {
      SumEqual(s', f, g);
    } else {
      SumChangedAt(s', f, g, k);
    }
  }

  /** A sum to which one row only contributes: a join that finds exactly one partner. */
  lemma {:induction false} SumSingle<T>(s: seq<T>, f: T -> int, k: nat)
    requires k < |s|
    requires forall i :: 0 <= i < |s| && i != k ==> f(s[i]) == 0
    ensures Sum(s, f) == f(s[k])
  {
    var s' := s[..|s| - 1];
    if k == |s| - 1 {
      SumZero(s', f);
    } else {
      SumSingle(s', f, k);
    }
  }

  /** Sum of a column that is the sum of two others. */
  lemma {:induction false} SumSplit<T>(s: seq<T>, f: T -> int, g: T -> int, h: T -> int)
    requires forall i :: 0 <= i < |s| ==> h(s[i]) == f(s[i]) + g(s[i])
    ensures Sum(s, h) == Sum(s, f) + Sum(s, g)
  {
    if |s| > 0 {
      SumSplit(s[..|s| - 1], f, g, h);
    }
  }

  lemma SumSuffix<T>(s: seq<T>, t: seq<T>, f: T -> int)
    requires s <= t
    ensures Sum(t, f) == Sum(s, f) + Sum(t[|s|..], f)
  {
    assert t == s + t[|s|..];
    SumConcat(s, t[|s|..], f);
  }

  /** Rows added at the end that contribute nothing. */
  lemma SumUnmoved<T>(s: seq<T>, t: seq<T>, f: T -> int)
    requires s <= t
    requires forall i :: |s| <= i < |t| ==> f(t[i]) == 0
    ensures Sum(t, f) == Sum(s, f)
  {
    var added := t[|s|..];
    assert t == s + added;
    SumConcat(s, added, f);
    SumZero(added, f);
  }

  /** One row taken out. */
  lemma {:induction false} SumWithout<T>(s: seq<T>, i: nat, f: T -> int)
    requires i < |s|
    ensures Sum(s[..i] + s[i + 1..], f) == Sum(s, f) - f(s[i])
  {
    var n := |s| - 1;
    var init := s[..n];
    if i == n {
      assert s[..i] + s[i + 1..] == init;
    } else {
      SumWithout(init, i, f);
      assert s[..i] + s[i + 1..] == (init[..i] + init[i + 1..]) + [s[n]];
      SumAppend(init[..i] + init[i + 1..], s[n], f);
    }
  }

  /** One row replaced by another. */
  lemma {:induction false} SumReplaced<T>(s: seq<T>, k: nat, x: T, f: T -> int)
    requires k < |s|
    ensures Sum(s[k := x], f) == Sum(s, f) + f(x) - f(s[k])
  {
    var n := |s| - 1;
    var changed := s[k := x];
    if k == n {
      assert changed[..n] == s[..n];
    } else {
      assert changed[..n] == s[..n][k := x];
      SumReplaced(s[..n], k, x, f);
    }
  }
}

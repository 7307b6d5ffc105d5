/** Option and Result, the failure-carrying wrappers used throughout the model. */
module Results {
  datatype Option<+T> = None | Some(value: T)

  datatype Result<+T, +E> = Success(value: T) | Failure(error: E)
}

/**
 * The three string operations of Go's standard library that the operator
 * relies on: `sort.Strings`, `strings.Join` and `strings.Replace`.
 */
module Text {

  /** Go's `<=` on strings: lexicographic by code point (byte-wise on UTF-8). */
  predicate Le(a: string, b: string)
    decreases |a|
  {
    if a == [] then true
    else if b == [] then false
    else if a[0] != b[0] then a[0] < b[0]
    else Le(a[1..], b[1..])
  }

  lemma {:induction false} LeReflexive(a: string)
    ensures Le(a, a)
    decreases |a|
  {
    if a != [] { LeReflexive(a[1..]); }
  }

  lemma {:induction false} LeTotal(a: string, b: string)
    ensures Le(a, b) || Le(b, a)
    decreases |a|
  {
    if a != [] && b != [] && a[0] == b[0] {
      LeTotal(a[1..], b[1..]);
    }
  }

  lemma {:induction false} LeAntisymmetric(a: string, b: string)
    requires Le(a, b) && Le(b, a)
    ensures a == b
    decreases |a|
  {
    if a != [] && b != [] {
      LeAntisymmetric(a[1..], b[1..]);
      assert a == [a[0]] + a[1..] && b == [b[0]] + b[1..];
    }
  }

  lemma {:induction false} LeTransitive(a: string, b: string, c: string)
    requires Le(a, b) && Le(b, c)
    ensures Le(a, c)
    decreases |a|
  {
    if a != [] && b != [] && c != [] && a[0] == b[0] == c[0] {
      LeTransitive(a[1..], b[1..], c[1..]);
    }
  }

  predicate Sorted(s: seq<string>) {
    forall i, j :: 0 <= i < j < |s| ==> Le(s[i], s[j])
  }

  /** Every element of `s` is at least `x`. */
  predicate Below(x: string, s: seq<string>) {
    forall i :: 0 <= i < |s| ==> Le(x, s[i])
  }

  lemma {:induction false} BelowByMultiset(x: string, s: seq<string>, t: seq<string>)
    requires Below(x, s) && multiset(t) <= multiset(s)
    ensures Below(x, t)
  {
    forall i | 0 <= i < |t| ensures Le(x, t[i]) {
      assert t[i] in multiset(t);
      assert t[i] in multiset(s);
      var j :| 0 <= j < |s| && s[j] == t[i];
    }
  }

  function Insert(x: string, s: seq<string>): (r: seq<string>)
    requires Sorted(s)
    ensures Sorted(r) && multiset(r) == multiset(s) + multiset{x}
    decreases |s|
  {
    if s == [] then [x]
    else if Le(x, s[0]) then
      assert Below(x, s) by {
        forall i | 0 <= i < |s| ensures Le(x, s[i]) {
          if i > 0 { LeTransitive(x, s[0], s[i]); }
        }
      }
      [x] + s
    else
      var rest := Insert(x, s[1..]);
      LeTotal(x, s[0]);
      assert s == [s[0]] + s[1..];
      assert Below(s[0], s[1..] + [x]);
      BelowByMultiset(s[0], s[1..] + [x], rest);
      [s[0]] + rest
  }

  /** `sort.Strings`: the sorted permutation of `s`. */
  function SortStrings(s: seq<string>): (r: seq<string>)
    ensures Sorted(r) && multiset(r) == multiset(s)
    decreases |s|
  {
    if s == [] then []
    else
      assert s == [s[0]] + s[1..];
      Insert(s[0], SortStrings(s[1..]))
  }

  /** The head of a sorted sequence is at most each of its elements. */
  lemma {:induction false} HeadIsLeast(s: seq<string>, x: string)
    requires Sorted(s) && x in multiset(s)
    ensures Le(s[0], x)
  {
    var i :| 0 <= i < |s| && s[i] == x;
    if i == 0 { LeReflexive(x); }
  }

  lemma {:induction false} TailMultiset(s: seq<string>)
    requires s != []
    ensures multiset(s[1..]) == multiset(s) - multiset{s[0]}
  {
    assert s == [s[0]] + s[1..];
  }

  lemma {:induction false} SortedTail(s: seq<string>)
    requires Sorted(s) && s != []
    ensures Sorted(s[1..])
  {
    forall i, j | 0 <= i < j < |s| - 1 ensures Le(s[1..][i], s[1..][j]) {
      assert s[1..][i] == s[i + 1] && s[1..][j] == s[j + 1];
    }
  }

  /** Two sorted sequences with the same elements start alike. */
  lemma {:induction false} SameHead(a: seq<string>, b: seq<string>)
    requires Sorted(a) && Sorted(b) && multiset(a) == multiset(b) && a != []
    ensures b != [] && a[0] == b[0]
  {
    assert a[0] in multiset(a);
    assert b != [];
    assert b[0] in multiset(b);
    HeadIsLeast(b, a[0]);
    HeadIsLeast(a, b[0]);
    LeAntisymmetric(a[0], b[0]);
  }

  /** A sorted sequence is determined by its multiset of elements. */
  lemma {:induction false} SortedUnique(a: seq<string>, b: seq<string>)
    requires Sorted(a) && Sorted(b) && multiset(a) == multiset(b)
    ensures a == b
    decreases |a|
  {
    if a == [] {
      assert |b| == |multiset(b)| == 0;
    } else {
      SameHead(a, b);
      TailMultiset(a);
      TailMultiset(b);
      SortedTail(a);
      SortedTail(b);
      SortedUnique(a[1..], b[1..]);
      assert a == [a[0]] + a[1..] && b == [b[0]] + b[1..];
    }
  }

  /** Sorting forgets the order of its input: two permutations sort alike. */
  lemma {:induction false} SortIgnoresOrder(a: seq<string>, b: seq<string>)
    requires multiset(a) == multiset(b)
    ensures SortStrings(a) == SortStrings(b)
  {
    SortedUnique(SortStrings(a), SortStrings(b));
  }

  /** `strings.Join`: the parts with `sep` between neighbours, none trailing. */
  function Join(parts: seq<string>, sep: string): (r: string)
    ensures parts == [] ==> r == ""
    ensures parts != [] ==> |parts[0]| <= |r| && r[..|parts[0]|] == parts[0]
    decreases |parts|
  {
    if |parts| == 0 then ""
    else if |parts| == 1 then parts[0]
    else parts[0] + sep + Join(parts[1..], sep)
  }

  lemma {:induction false} JoinSnoc(parts: seq<string>, x: string, sep: string)
    requires parts != []
    ensures Join(parts + [x], sep) == Join(parts, sep) + sep + x
    decreases |parts|
  {
    if |parts| == 1 {
      assert parts + [x] == [parts[0], x];
      assert ([parts[0], x])[1..] == [x];
    } else {
      assert (parts + [x])[1..] == parts[1..] + [x];
      JoinSnoc(parts[1..], x, sep);
    }
  }

  /**
   * `strings.Replace(s, pat, rep, n)` for a non-empty `pat`: the leftmost
   * non-overlapping occurrences of `pat` are replaced by `rep`, the first `n`
   * of them, or all of them when `n < 0`.
   */
  function Replace(s: string, pat: string, rep: string, n: int): (r: string)
    requires pat != []
    ensures n == 0 ==> r == s
    ensures rep == pat ==> r == s
    decreases |s|
  {
    if n == 0 || |s| < |pat| then s
    else if s[..|pat|] == pat then rep + Replace(s[|pat|..], pat, rep, if n < 0 then n else n - 1)
    else [s[0]] + Replace(s[1..], pat, rep, n)
  }

  /** A prefix that cannot start an occurrence is copied unchanged. */
  lemma {:induction false} ReplaceSkips(a: string, t: string, pat: string, rep: string, n: int)
    requires pat != [] && pat[0] !in a
    ensures Replace(a + t, pat, rep, n) == a + Replace(t, pat, rep, n)
    decreases |a|
  {
    if a != [] && n != 0 && |a + t| >= |pat| {
      assert (a + t)[0] == a[0] != pat[0];
      assert (a + t)[1..] == a[1..] + t;
      ReplaceSkips(a[1..], t, pat, rep, n);
      assert a == [a[0]] + a[1..];
    } else if a != [] && n != 0 {
      assert |t| < |pat|;
      assert Replace(a + t, pat, rep, n) == a + t;
      assert Replace(t, pat, rep, n) == t;
    } else if a == [] {
      assert a + t == t;
    }
  }

  /** A string in which no occurrence can start is left unchanged. */
  lemma {:induction false} ReplaceAbsent(s: string, pat: string, rep: string, n: int)
    requires pat != [] && pat[0] !in s
    ensures Replace(s, pat, rep, n) == s
  {
    ReplaceSkips(s, [], pat, rep, n);
    assert s + [] == s;
  }

  /** An occurrence at the front is replaced and a positive budget drops by one. */
  lemma {:induction false} ReplaceHit(pat: string, t: string, rep: string, n: int)
    requires pat != [] && n != 0
    ensures Replace(pat + t, pat, rep, n) == rep + Replace(t, pat, rep, if n < 0 then n else n - 1)
  {
    assert (pat + t)[..|pat|] == pat;
    assert (pat + t)[|pat|..] == t;
  }
}

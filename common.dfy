/** Small shared vocabulary: optional values, results, Python's string order
    and the concatenation of a sequence of sequences. */
module Common {

  datatype Option<T> = None | Some(value: T)

  /** A value or the exception the Python code would raise instead. */
  datatype Result<T, E> = Ok(value: T) | Err(error: E)

  /** Python's `a < b` on `str`: lexicographic by code point, a proper prefix first. */
  predicate StrLt(a: string, b: string)
  {
    if |a| == 0 then |b| > 0
    else if |b| == 0 then false
    else if a[0] != b[0] then a[0] < b[0]
    else StrLt(a[1..], b[1..])
  }

  lemma {:induction false} StrLtIrreflexive(a: string)
    ensures !StrLt(a, a)
  {
    if |a| > 0 {
      StrLtIrreflexive(a[1..]);
    }
  }

  lemma {:induction false} StrLtTotal(a: string, b: string)
    requires a != b
    ensures StrLt(a, b) || StrLt(b, a)
  {
    if |a| > 0 && |b| > 0 && a[0] == b[0] {
      assert a == [a[0]] + a[1..] && b == [b[0]] + b[1..];
      StrLtTotal(a[1..], b[1..]);
    }
  }

  lemma {:induction false} StrLtTransitive(a: string, b: string, c: string)
    requires StrLt(a, b) && StrLt(b, c)
    ensures StrLt(a, c)
  {
    if |a| > 0 && a[0] == b[0] && b[0] == c[0] {
      StrLtTransitive(a[1..], b[1..], c[1..]);
    }
  }

  /** Strictly ascending, hence without duplicates. */
  predicate StrictlySorted(s: seq<string>)
  {
    forall i, j :: 0 <= i < j < |s| ==> StrLt(s[i], s[j])
  }

  /** Inserts `x` at its place in an ascending sequence that does not hold it yet. */
  function InsertSorted(s: seq<string>, x: string): (r: seq<string>)
    requires StrictlySorted(s) && x !in s
    ensures StrictlySorted(r)
    ensures |r| == |s| + 1
    ensures forall y :: y in r <==> y in s || y == x
  {
    if |s| == 0 then [x]
    else if StrLt(x, s[0]) then
      StrLtLeadsSorted(x, s);
      [x] + s
    else
      StrLtTotal(x, s[0]);
      var rest := InsertSorted(s[1..], x);
      assert rest[0] in rest;
      assert rest[0] == x || rest[0] in s[1..];
      StrLtLeadsSorted(s[0], rest);
      [s[0]] + rest
  }

  /** A head smaller than the first element of an ascending sequence keeps it ascending. */
  lemma StrLtLeadsSorted(x: string, s: seq<string>)
    requires StrictlySorted(s)
    requires |s| > 0 ==> StrLt(x, s[0])
    ensures StrictlySorted([x] + s)
  {
    var r := [x] + s;
    forall i, j | 0 <= i < j < |r|
      ensures StrLt(r[i], r[j])
    {
      if i == 0 && j > 1 {
        StrLtTransitive(x, s[0], s[j - 1]);
      }
    }
  }

  /** The head of an ascending sequence is below every other element. */
  lemma HeadIsLeast(s: seq<string>, y: string)
    requires StrictlySorted(s) && y in s
    ensures y == s[0] || StrLt(s[0], y)
  {
  }

  /** Two ascending sequences with the same elements are the same sequence:
      the sorted listing of a set is unique. */
  lemma {:induction false} SortedUnique(s: seq<string>, t: seq<string>)
    requires StrictlySorted(s) && StrictlySorted(t)
    requires forall y :: y in s <==> y in t
    ensures s == t
  {
    if s != [] {
      assert s[0] in s;
    }
    if t != [] {
      assert t[0] in t;
    }
    if s != [] && t != [] {
      HeadIsLeast(t, s[0]);
      HeadIsLeast(s, t[0]);
      if s[0] != t[0] {
        // each head would lie strictly below the other
        StrLtTransitive(s[0], t[0], s[0]);
        StrLtIrreflexive(s[0]);
        assert false;
      }
      forall y
        ensures y in s[1..] <==> y in t[1..]
      {
        StrLtIrreflexive(y);
        if y in s[1..] {
          var k :| 1 <= k < |s| && s[k] == y;
          assert y in s && y in t;
          var m :| 0 <= m < |t| && t[m] == y;
          assert m != 0;
          assert t[1..][m - 1] == y;
        }
        if y in t[1..] {
          var k :| 1 <= k < |t| && t[k] == y;
          assert y in t && y in s;
          var m :| 0 <= m < |s| && s[m] == y;
          assert m != 0;
          assert s[1..][m - 1] == y;
        }
      }
      SortedUnique(s[1..], t[1..]);
      assert s == [s[0]] + s[1..] && t == [t[0]] + t[1..];
    }
  }

  /** Concatenation of a sequence of sequences, in order
      (a nested `for` loop visits exactly these elements). */
  function Flatten<T>(ss: seq<seq<T>>): seq<T>
  {
    if |ss| == 0 then [] else Flatten(ss[..|ss| - 1]) + ss[|ss| - 1]
  }

  lemma {:induction false} FlattenAppend<T>(a: seq<seq<T>>, b: seq<seq<T>>)
    ensures Flatten(a + b) == Flatten(a) + Flatten(b)
  {
    if |b| == 0 {
      assert a + b == a;
    } else {
      assert (a + b)[..|a + b| - 1] == a + b[..|b| - 1];
      FlattenAppend(a, b[..|b| - 1]);
    }
  }
}

/** Set-like comparison of string lists by sorting copies (internal/controller/compare.go). */
module StringSets {

  /** Bytewise order of strings, the order used by slices.Sort. */
  predicate Le(a: string, b: string) {
    a == [] || (b != [] && (a[0] < b[0] || (a[0] == b[0] && Le(a[1..], b[1..]))))
  }

  predicate Sorted(s: seq<string>) {
    forall i, j :: 0 <= i < j < |s| ==> Le(s[i], s[j])
  }

  lemma LeTotal(a: string, b: string)
    ensures Le(a, b) || Le(b, a)
  {
  }

  lemma {:induction false} LeAntisymmetric(a: string, b: string)
    requires Le(a, b) && Le(b, a)
    ensures a == b
  {
    if a != [] {
      LeAntisymmetric(a[1..], b[1..]);
      assert a == [a[0]] + a[1..] && b == [b[0]] + b[1..];
    }
  }

  lemma {:induction false} LeTransitive(a: string, b: string, c: string)
    requires Le(a, b) && Le(b, c)
    ensures Le(a, c)
  {
    if a != [] && a[0] == b[0] == c[0] {
      LeTransitive(a[1..], b[1..], c[1..]);
    }
  }

  /** A multiset of strings has exactly one sorted listing. */
  lemma {:induction false} SortedListingIsUnique(s: seq<string>, t: seq<string>)
    requires Sorted(s) && Sorted(t) && multiset(s) == multiset(t)
    ensures s == t
  {
    assert |s| == |multiset(s)| == |multiset(t)| == |t|;
    if s != [] {
      HeadIsLeast(s, t);
      HeadIsLeast(t, s);
      LeAntisymmetric(s[0], t[0]);
      WithoutHead(s);
      WithoutHead(t);
      SortedListingIsUnique(s[1..], t[1..]);
    }
  }

  lemma WithoutHead(s: seq<string>)
    requires s != []
    ensures s == [s[0]] + s[1..] && multiset(s[1..]) == multiset(s) - multiset{s[0]}
  {
    assert s == [s[0]] + s[1..];
  }

  lemma HeadIsLeast(s: seq<string>, t: seq<string>)
    requires Sorted(s) && s != [] && t != [] && multiset(s) == multiset(t)
    ensures Le(s[0], t[0])
  {
    assert t[0] in multiset(t);
    var k :| 0 <= k < |s| && s[k] == t[0];
    LeTotal(s[0], s[0]);
  }

  /** Moves a[n] down into the sorted prefix a[..n]. */
  method Insert(a: array<string>, n: nat)
    requires n < a.Length && Sorted(a[..n])
    modifies a
    ensures Sorted(a[..n + 1])
    ensures multiset(a[..]) == multiset(old(a[..]))
  {
    var k := n;
    assert forall i, j :: 0 <= i < j < n ==> a[..n][i] == a[i] && a[..n][j] == a[j];
    while k > 0 && !Le(a[k - 1], a[k])
      invariant k <= n
      invariant forall i, j :: 0 <= i < j <= n && j != k ==> Le(a[i], a[j])
      invariant multiset(a[..]) == multiset(old(a[..]))
    {
      LeTotal(a[k - 1], a[k]);
      a[k - 1], a[k] := a[k], a[k - 1];
      k := k - 1;
    }
    forall i | 0 <= i < k ensures Le(a[i], a[k]) {
      if i < k - 1 {
        LeTransitive(a[i], a[k - 1], a[k]);
      }
    }
  }

  method SortStrings(a: array<string>)
    modifies a
    ensures Sorted(a[..])
    ensures multiset(a[..]) == multiset(old(a[..]))
  {
    var n := 0;
    while n < a.Length
      invariant n <= a.Length
      invariant Sorted(a[..n])
      invariant multiset(a[..]) == multiset(old(a[..]))
    {
      Insert(a, n);
      n := n + 1;
    }
    assert a[..n] == a[..];
  }

  /** A Go slice: a nil slice and an empty one list the same nothing. */
  ghost function Listed(a: array?<string>): seq<string>
    reads a
  {
    if a == null then [] else a[..]
  }

  method CopyOf(a: array?<string>) returns (copy: array<string>)
    ensures fresh(copy) && copy[..] == Listed(a)
  {
    if a == null {
      copy := new string[0];
    } else {
      copy := new string[a.Length](i requires 0 <= i < a.Length reads a => a[i]);
    }
  }

  /** Equal as collections: order and nil-versus-empty are ignored, multiplicity is not. */
  predicate SameElements(a: seq<string>, b: seq<string>) {
    multiset(a) == multiset(b)
  }

  /** Sorting happens on copies: with no `modifies` clause, neither argument can change. */
  method EqualStringSets(a: array?<string>, b: array?<string>) returns (equal: bool)
    ensures equal <==> SameElements(Listed(a), Listed(b))
    ensures equal <==> (if a == null then multiset{} else multiset(a[..])) ==
                       (if b == null then multiset{} else multiset(b[..]))
  {
    var lenA := if a == null then 0 else a.Length;
    var lenB := if b == null then 0 else b.Length;
    assert lenA == |multiset(Listed(a))| && lenB == |multiset(Listed(b))|;
    if lenA != lenB {
      return false;
    }
    if lenA == 0 {
      return true;
    }
    var ca := CopyOf(a);
    var cb := CopyOf(b);
    SortStrings(ca);
    SortStrings(cb);
    var i := 0;
    while i < ca.Length
      invariant i <= ca.Length
      invariant ca[..i] == cb[..i]
    {
      if ca[i] != cb[i] {
        assert ca[..][i] != cb[..][i];
        if SameElements(Listed(a), Listed(b)) {
          SortedListingIsUnique(ca[..], cb[..]);
        }
        return false;
      }
      i := i + 1;
    }
    assert ca[..] == ca[..i] == cb[..i] == cb[..];
    return true;
  }
}

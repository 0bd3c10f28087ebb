/** Palette extraction: the distinct colours of a palette texture, in the order they first appear. */
module Palette {
  import opened Unity

  predicate NoDuplicates(s: seq<Color>) {
    forall i, j :: 0 <= i < j < |s| ==> s[i] != s[j]
  }

  /** The list the `foreach` builds: a colour is appended the first time it is met. */
  function Unique(s: seq<Color>): (u: seq<Color>)
    ensures forall c :: c in u <==> c in s
    ensures NoDuplicates(u)
  {
    if |s| == 0 then []
    else
      var u := Unique(s[..|s| - 1]);
      if s[|s| - 1] in u then u else u + [s[|s| - 1]]
  }

  /** Where `c` first occurs in `s`. */
  function FirstIndex(s: seq<Color>, c: Color): (i: nat)
    requires c in s
    ensures i < |s| && s[i] == c && c !in s[..i]
  {
    if s[0] == c then 0 else assert s == [s[0]] + s[1..]; 1 + FirstIndex(s[1..], c)
  }

  /** A colour met before position `n` first occurs at the same place in the prefix. */
  lemma FirstIndexInPrefix(s: seq<Color>, n: nat, c: Color)
    requires n <= |s| && c in s[..n]
    ensures FirstIndex(s, c) == FirstIndex(s[..n], c) < n
  {
    var i, j := FirstIndex(s, c), FirstIndex(s[..n], c);
    assert s[..n][..j] == s[..j];
  }

  /** The unique colours are listed by increasing position of first occurrence. */
  lemma {:induction false} UniqueInFirstOccurrenceOrder(s: seq<Color>, i: nat, j: nat)
    requires i < j < |Unique(s)|
    ensures Unique(s)[i] in s && Unique(s)[j] in s
    ensures FirstIndex(s, Unique(s)[i]) < FirstIndex(s, Unique(s)[j])
  {
    var n := |s| - 1;
    var p := s[..n];
    var u := Unique(p);
    var ci, cj := Unique(s)[i], Unique(s)[j];
    assert Unique(s) == if s[n] in u then u else u + [s[n]];
    assert ci in p by { assert ci == Unique(s)[i]; if i < |u| { assert ci == u[i]; } }
    FirstIndexInPrefix(s, n, ci);
    if j < |u| {
      assert ci == u[i] && cj == u[j];
      UniqueInFirstOccurrenceOrder(p, i, j);
      FirstIndexInPrefix(s, n, cj);
    } else {
      // cj is the colour appended last: it does not occur before position n
      assert cj == s[n] && s[n] !in p;
      assert s[..n] == p;
      assert FirstIndex(s, cj) == n;
    }
  }

  /** Extracting the unique colours of an already unique list changes nothing. */
  lemma {:induction false} UniqueIdempotent(s: seq<Color>)
    ensures Unique(Unique(s)) == Unique(s)
  {
    UniqueOfNoDuplicates(Unique(s));
  }

  lemma {:induction false} UniqueOfNoDuplicates(s: seq<Color>)
    requires NoDuplicates(s)
    ensures Unique(s) == s
  {
    if |s| > 0 {
      var n := |s| - 1;
      assert NoDuplicates(s[..n]);
      UniqueOfNoDuplicates(s[..n]);
      assert s[n] !in s[..n];
      assert s[..n] + [s[n]] == s;
    }
  }
}

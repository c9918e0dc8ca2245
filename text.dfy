/** Case folding and substring search on strings, as the search box uses
    them. Case folding is restricted to ASCII letters. */
module Text {

  predicate IsUpperAscii(c: char) {
    'A' <= c <= 'Z'
  }

  /** Lower-cases one character; everything but `A`..`Z` is left alone. */
  function LowerChar(c: char): (r: char)
    ensures !IsUpperAscii(r)
    ensures IsUpperAscii(c) ==> 'a' <= r <= 'z' && r as int - c as int == 32
    ensures !IsUpperAscii(c) ==> r == c
  {
    if IsUpperAscii(c) then (c as int + 32) as char else c
  }

  /** Lower-cases a string character by character. */
  function Lower(s: string): (r: string)
    ensures |r| == |s|
    ensures forall i :: 0 <= i < |r| ==> !IsUpperAscii(r[i])
  {
    if s == [] then [] else [LowerChar(s[0])] + Lower(s[1..])
  }

  lemma {:induction false} LowerAt(s: string, i: nat)
    requires i < |s|
    ensures Lower(s)[i] == LowerChar(s[i])
  {
    if i > 0 {
      LowerAt(s[1..], i - 1);
    }
  }

  lemma LowerSliceAt(s: string, i: nat, j: nat, k: nat)
    requires i <= j <= |s| && k < j - i
    ensures Lower(s[i..j])[k] == Lower(s)[i + k]
  {
    assert s[i..j][k] == s[i + k];
    LowerAt(s[i..j], k);
    LowerAt(s, i + k);
  }

  /** Lower-casing commutes with taking a slice. */
  lemma LowerSlice(s: string, i: nat, j: nat)
    requires i <= j <= |s|
    ensures Lower(s[i..j]) == Lower(s)[i..j]
  {
    forall k | 0 <= k < j - i
      ensures Lower(s[i..j])[k] == Lower(s)[i..j][k]
    {
      LowerSliceAt(s, i, j, k);
    }
  }

  /** Lower-casing twice is lower-casing once. */
  lemma {:induction false} LowerIdempotent(s: string)
    ensures Lower(Lower(s)) == Lower(s)
  {
    forall k | 0 <= k < |s|
      ensures Lower(Lower(s))[k] == Lower(s)[k]
    {
      LowerAt(Lower(s), k);
      LowerAt(s, k);
    }
  }

  /** Reference definition: `needle` occurs in `hay` starting at index `i`. */
  ghost predicate OccursAt(hay: string, needle: string, i: nat) {
    i + |needle| <= |hay| && hay[i..i + |needle|] == needle
  }

  ghost predicate Occurs(hay: string, needle: string) {
    exists i: nat :: OccursAt(hay, needle, i)
  }

  /** An occurrence is either at the front of `hay` or somewhere in its tail. */
  lemma OccursStep(hay: string, needle: string)
    ensures Occurs(hay, needle) <==> needle <= hay || (hay != [] && Occurs(hay[1..], needle))
  {
    if needle <= hay {
      assert OccursAt(hay, needle, 0);
    } else if hay != [] && Occurs(hay[1..], needle) {
      var i: nat :| OccursAt(hay[1..], needle, i);
      assert hay[1..][i..i + |needle|] == hay[i + 1..i + 1 + |needle|];
      assert OccursAt(hay, needle, i + 1);
    }
    if Occurs(hay, needle) && !(needle <= hay) {
      var i: nat :| OccursAt(hay, needle, i);
      assert i != 0;
      assert hay[1..][i - 1..i - 1 + |needle|] == hay[i..i + |needle|];
      assert OccursAt(hay[1..], needle, i - 1);
    }
  }

  /** Substring search (the behaviour of `includes`): true exactly when
      `needle` occurs at some index of `hay`; the empty needle occurs in
      every string. */
  predicate Contains(hay: string, needle: string)
    ensures Contains(hay, needle) <==> Occurs(hay, needle)
    decreases |hay|
  {
    OccursStep(hay, needle);
    needle <= hay || (hay != [] && Contains(hay[1..], needle))
  }

  /** Every string contains the empty string. */
  lemma ContainsEmpty(hay: string)
    ensures Contains(hay, "")
  {
  }

  /** Containment is transitive: a substring of a substring is a substring. */
  lemma {:induction false} ContainsTransitive(h: string, g: string, f: string)
    requires Contains(h, g) && Contains(g, f)
    ensures Contains(h, f)
  {
    var i: nat :| OccursAt(h, g, i);
    var j: nat :| OccursAt(g, f, j);
    forall k | 0 <= k < |f|
      ensures h[i + j + k] == f[k]
    {
      assert f[k] == g[j + k] == h[i + j + k];
    }
    assert OccursAt(h, f, i + j);
  }

  /** Lower-casing both sides keeps an occurrence at the same index. */
  lemma OccursAtLower(g: string, f: string, i: nat)
    requires OccursAt(g, f, i)
    ensures OccursAt(Lower(g), Lower(f), i)
  {
    assert g[i..i + |f|] == f;
    LowerSlice(g, i, i + |f|);
  }

  /** Lower-casing both sides keeps a substring a substring. */
  lemma ContainsLower(g: string, f: string)
    requires Contains(g, f)
    ensures Contains(Lower(g), Lower(f))
  {
    var i: nat :| OccursAt(g, f, i);
    OccursAtLower(g, f, i);
  }
}

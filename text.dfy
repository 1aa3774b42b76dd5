/** The string operations the station lookups depend on: Python's
    `str.upper`, `str.casefold`, `str.isupper` and the substring test `in`.
    Case mapping is the ASCII subset of Python's Unicode tables: letters
    `a`..`z` and `A`..`Z` are the only cased characters, every other
    character maps to itself. */
module Text {

  predicate IsLowerChar(c: char) { 'a' <= c <= 'z' }

  predicate IsUpperChar(c: char) { 'A' <= c <= 'Z' }

  /** A cased character has an upper- and a lower-case form. */
  predicate IsCased(c: char) { IsLowerChar(c) || IsUpperChar(c) }

  function UpperChar(c: char): (u: char)
    ensures !IsLowerChar(u)
    ensures IsLowerChar(c) ==> IsUpperChar(u)
    ensures !IsLowerChar(c) ==> u == c
  {
    if IsLowerChar(c) then (c as int - 32) as char else c
  }

  function FoldChar(c: char): (f: char)
    ensures !IsUpperChar(f)
    ensures IsUpperChar(c) ==> IsLowerChar(f)
    ensures !IsUpperChar(c) ==> f == c
  {
    if IsUpperChar(c) then (c as int + 32) as char else c
  }

  /** `s.upper()` */
  function Upper(s: string): (r: string)
    ensures |r| == |s|
    ensures forall i :: 0 <= i < |s| ==> r[i] == UpperChar(s[i])
  {
    seq(|s|, i requires 0 <= i < |s| => UpperChar(s[i]))
  }

  /** `s.casefold()` */
  function Casefold(s: string): (r: string)
    ensures |r| == |s|
    ensures forall i :: 0 <= i < |s| ==> r[i] == FoldChar(s[i])
  {
    seq(|s|, i requires 0 <= i < |s| => FoldChar(s[i]))
  }

  /** `s.isupper()`: at least one cased character, and every cased
      character is upper-case. */
  function IsUpper(s: string): (b: bool)
    ensures b ==> |s| > 0 && forall i :: 0 <= i < |s| ==> !IsLowerChar(s[i])
    ensures |s| > 0 && (forall i :: 0 <= i < |s| ==> IsUpperChar(s[i])) ==> b
    ensures b <==> (exists i :: 0 <= i < |s| && IsUpperChar(s[i])) &&
                   forall i :: 0 <= i < |s| ==> !IsLowerChar(s[i])
  {
    assert |s| > 0 && IsUpperChar(s[0]) ==> IsCased(s[0]);
    assert (exists i :: 0 <= i < |s| && IsUpperChar(s[i])) ==> exists i :: 0 <= i < |s| && IsCased(s[i]);
    (exists i :: 0 <= i < |s| && IsCased(s[i])) &&
    (forall i :: 0 <= i < |s| && IsCased(s[i]) ==> IsUpperChar(s[i]))
  }

  /** `needle in hay`, by scanning the start positions of `hay`. */
  function Contains(hay: string, needle: string): (b: bool)
    ensures b ==> |needle| <= |hay|
    ensures |needle| <= |hay| && hay[..|needle|] == needle ==> b
    decreases |hay|
  {
    (|needle| <= |hay| && hay[..|needle|] == needle) ||
    (|hay| > 0 && Contains(hay[1..], needle))
  }

  /** The positional definition of "`needle` occurs in `hay`". */
  ghost predicate OccursAt(hay: string, needle: string, i: int) {
    0 <= i && i + |needle| <= |hay| && hay[i..i + |needle|] == needle
  }

  /** An occurrence at position `i` is found by the scan. */
  lemma {:induction false} OccursThenContains(hay: string, needle: string, i: int)
    requires OccursAt(hay, needle, i)
    ensures Contains(hay, needle)
    decreases i
  {
    if i > 0 {
      assert hay[1..][i - 1..i - 1 + |needle|] == hay[i..i + |needle|];
      OccursThenContains(hay[1..], needle, i - 1);
    }
  }

  /** The scan succeeds only at some occurrence. */
  lemma {:induction false} ContainsThenOccurs(hay: string, needle: string) returns (i: int)
    requires Contains(hay, needle)
    ensures OccursAt(hay, needle, i)
    decreases |hay|
  {
    if |needle| <= |hay| && hay[..|needle|] == needle {
      i := 0;
    } else {
      var j := ContainsThenOccurs(hay[1..], needle);
      assert hay[j + 1..j + 1 + |needle|] == hay[1..][j..j + |needle|];
      i := j + 1;
    }
  }

  lemma ContainsIffOccurs(hay: string, needle: string)
    ensures Contains(hay, needle) <==> exists i :: OccursAt(hay, needle, i)
  {
    if Contains(hay, needle) {
      var i := ContainsThenOccurs(hay, needle);
    }
    forall i | OccursAt(hay, needle, i) ensures Contains(hay, needle) {
      OccursThenContains(hay, needle, i);
    }
  }

  /** The empty string occurs in every string. */
  lemma EmptyContained(hay: string)
    ensures Contains(hay, "")
  {
    assert hay[..0] == "";
  }

  /** Upper-casing a string that `isupper` accepts changes nothing. */
  lemma {:induction false} UpperOfIsUpper(s: string)
    requires IsUpper(s)
    ensures Upper(s) == s
  {
    forall i | 0 <= i < |s| ensures Upper(s)[i] == s[i] {
      if IsLowerChar(s[i]) {
        assert IsCased(s[i]);
      }
    }
  }

  /** Case-folding erases the upper/lower distinction: a query and its
      upper-cased form fold to the same string. */
  lemma {:induction false} CasefoldUpper(s: string)
    ensures Casefold(Upper(s)) == Casefold(s)
  {
    forall i | 0 <= i < |s| ensures Casefold(Upper(s))[i] == Casefold(s)[i] {
      var c := s[i];
      if IsLowerChar(c) {
        assert (((c as int - 32) as char) as int + 32) as char == c;
      }
    }
  }

  /** Upper-casing twice is upper-casing once. */
  lemma {:induction false} UpperIdempotent(s: string)
    ensures Upper(Upper(s)) == Upper(s)
  {
    forall i | 0 <= i < |s| ensures Upper(Upper(s))[i] == Upper(s)[i] {
      assert !IsLowerChar(Upper(s)[i]);
    }
  }
}

/**
  The slug transform of the post form: the string normaliser that turns a
  post title (or a slug typed by hand) into a URL-safe identifier.

  The transform is a chain of four string steps: trim the surrounding
  whitespace, lower-case, replace every maximal run of characters outside
  `[a-zA-Z0-9\s]` by one hyphen, then replace every single whitespace
  character by a hyphen. Characters are classified as ASCII; any other
  character counts as one of the "other" characters of the third step.
 */
module Slug {

  /** The value a handler passes to the transform: a JavaScript value that
      may be missing or may not be a string. */
  datatype JsValue = Undefined | Null | Str(s: string) | NonString

  // ---------------------------------------------------------------------
  // Character classes (ASCII)
  // ---------------------------------------------------------------------

  /** JavaScript's `\s` on ASCII: space, tab, line feed, vertical tab,
      form feed and carriage return (code points 9 to 13). */
  predicate IsSpace(c: char) { c == ' ' || '\t' <= c <= '\r' }

  predicate IsUpper(c: char) { 'A' <= c <= 'Z' }

  predicate IsLower(c: char) { 'a' <= c <= 'z' }

  predicate IsDigit(c: char) { '0' <= c <= '9' }

  predicate IsAlnum(c: char) { IsUpper(c) || IsLower(c) || IsDigit(c) }

  /** The characters of the class `[a-zA-Z\d\s]`, which the third step keeps. */
  predicate IsKept(c: char) { IsAlnum(c) || IsSpace(c) }

  /** The characters a slug is made of. */
  predicate IsSlugChar(c: char) { IsLower(c) || IsDigit(c) || c == '-' }

  function ToLower(c: char): (d: char)
    ensures !IsUpper(d)
    ensures IsUpper(c) ==> IsLower(d)
    ensures !IsUpper(c) ==> d == c
    ensures IsAlnum(d) == IsAlnum(c) && IsSpace(d) == IsSpace(c)
  {
    if IsUpper(c) then (c as int + 32) as char else c
  }

  // ---------------------------------------------------------------------
  // Properties of whole strings
  // ---------------------------------------------------------------------

  predicate NoSpace(s: string) { forall i :: 0 <= i < |s| ==> !IsSpace(s[i]) }

  predicate NoUpper(s: string) { forall i :: 0 <= i < |s| ==> !IsUpper(s[i]) }

  predicate OnlySlugChars(s: string) { forall i :: 0 <= i < |s| ==> IsSlugChar(s[i]) }

  predicate NoDoubleHyphen(s: string)
  {
    forall i :: 0 < i < |s| ==> !(s[i - 1] == '-' && s[i] == '-')
  }

  /** A string the transform leaves as it is: lower-case letters, digits and
      hyphens, never two hyphens in a row. */
  predicate IsCanonical(s: string) { OnlySlugChars(s) && NoDoubleHyphen(s) }

  /** The letters and digits of `s`, in order. */
  function Alnums(s: string): (r: string)
    ensures |r| <= |s|
  {
    if s == [] then []
    else (if IsAlnum(s[0]) then [s[0]] else []) + Alnums(s[1..])
  }

  // ---------------------------------------------------------------------
  // The four steps
  // ---------------------------------------------------------------------

  /** The first position from `i` on that does not hold whitespace, or the
      length of `s`. */
  function Lead(s: string, i: nat): (j: nat)
    requires i <= |s|
    ensures i <= j <= |s|
    ensures j == |s| || !IsSpace(s[j])
    ensures forall k :: i <= k < j ==> IsSpace(s[k])
    decreases |s| - i
  {
    if i < |s| && IsSpace(s[i]) then Lead(s, i + 1) else i
  }

  /** The position just after the last character before `j` that is not
      whitespace, looking no further back than `lo`. */
  function Tail(s: string, lo: nat, j: nat): (k: nat)
    requires lo <= j <= |s|
    ensures lo <= k <= j
    ensures k == lo || !IsSpace(s[k - 1])
    ensures forall m :: k <= m < j ==> IsSpace(s[m])
    decreases j
  {
    if lo < j && IsSpace(s[j - 1]) then Tail(s, lo, j - 1) else j
  }

  /** Step 1: `String.prototype.trim`, which drops the whitespace at both
      ends and keeps everything between. */
  function Trim(s: string): (r: string)
    ensures |r| <= |s|
    ensures r == [] || (!IsSpace(r[0]) && !IsSpace(r[|r| - 1]))
    ensures NoSpace(s) ==> r == s
    ensures exists a, b ::
      (0 <= a <= b <= |s| && r == s[a..b] &&
       (forall k :: 0 <= k < a ==> IsSpace(s[k])) && (forall k :: b <= k < |s| ==> IsSpace(s[k])))
  {
    var a := Lead(s, 0);
    var b := Tail(s, a, |s|);
    s[a..b]
  }

  /** Step 2: `String.prototype.toLowerCase`, character by character. */
  function Lower(s: string): (r: string)
    ensures |r| == |s| && NoUpper(r)
    ensures forall i :: 0 <= i < |s| && IsUpper(s[i]) ==> IsLower(r[i])
    ensures forall i :: 0 <= i < |s| && !IsUpper(s[i]) ==> r[i] == s[i]
  {
    seq(|s|, i requires 0 <= i < |s| => ToLower(s[i]))
  }

  /** The end of the run of characters outside `[a-zA-Z\d\s]` that starts
      at position `i`: the first position from `i` on that holds a character
      of the class, or the length of `s`. */
  function RunEnd(s: string, i: nat): (j: nat)
    requires i <= |s|
    ensures i <= j <= |s|
    ensures j == |s| || IsKept(s[j])
    ensures forall k :: i <= k < j ==> !IsKept(s[k])
    decreases |s| - i
  {
    if i < |s| && !IsKept(s[i]) then RunEnd(s, i + 1) else i
  }

  /** Step 3 on the part of `s` from position `i` on. */
  function RunsFrom(s: string, i: nat): (r: string)
    requires i <= |s|
    ensures |r| <= |s| - i
    decreases |s| - i
  {
    if i == |s| then []
    else if IsKept(s[i]) then [s[i]] + RunsFrom(s, i + 1)
    else "-" + RunsFrom(s, RunEnd(s, i + 1))
  }

  /** Step 3: `replace(/[^a-zA-Z\d\s]+/g, "-")`, one hyphen per maximal run. */
  function ReplaceOtherRuns(s: string): (r: string)
    ensures |r| <= |s|
    ensures forall c :: c in r ==> c == '-' || (IsKept(c) && c in s)
    ensures Alnums(r) == Alnums(s)
    ensures NoDoubleHyphen(r)
  {
    RunsFromChars(s, 0);
    AlnumsRunsFrom(s, 0);
    assert s[0..] == s;
    RunsFromNoDoubleHyphen(s, 0);
    RunsFrom(s, 0)
  }

  /** Step 3 outputs hyphens and characters of the class taken from its input. */
  lemma {:induction false} RunsFromChars(s: string, i: nat)
    requires i <= |s|
    ensures forall c :: c in RunsFrom(s, i) ==> c == '-' || (IsKept(c) && c in s)
    decreases |s| - i
  {
    if i < |s| {
      if IsKept(s[i]) {
        RunsFromChars(s, i + 1);
      } else {
        RunsFromChars(s, RunEnd(s, i + 1));
      }
    }
  }

  /** Step 3 copies a stretch of characters of the class unchanged. */
  lemma {:induction false} RunsFromKept(s: string, i: nat, j: nat)
    requires i <= j <= |s|
    requires forall k :: i <= k < j ==> IsKept(s[k])
    ensures RunsFrom(s, i) == s[i..j] + RunsFrom(s, j)
    decreases j - i
  {
    if i < j {
      var head, middle, rest := [s[i]], s[i + 1..j], RunsFrom(s, j);
      RunsFromKept(s, i + 1, j);
      assert RunsFrom(s, i) == head + (middle + rest);
      assert s[i..j] == head + middle;
      assert head + (middle + rest) == (head + middle) + rest;
    }
  }

  /** Step 3 introduces no upper-case letter and no whitespace. */
  lemma ReplaceOtherRunsChars(s: string)
    ensures forall k :: 0 <= k < |ReplaceOtherRuns(s)| ==>
      IsKept(ReplaceOtherRuns(s)[k]) || ReplaceOtherRuns(s)[k] == '-'
    ensures NoUpper(s) ==> NoUpper(ReplaceOtherRuns(s))
    ensures NoSpace(s) ==> NoSpace(ReplaceOtherRuns(s))
  {
    var r := ReplaceOtherRuns(s);
    RunsFromChars(s, 0);
    assert forall k :: 0 <= k < |r| ==> r[k] in r;
  }

  /** Step 4: `replace(/\s/g, "-")`, one hyphen per whitespace character. */
  function ReplaceSpaces(s: string): (r: string)
    ensures |r| == |s| && NoSpace(r)
    ensures forall i :: 0 <= i < |s| && IsSpace(s[i]) ==> r[i] == '-'
    ensures forall i :: 0 <= i < |s| && !IsSpace(s[i]) ==> r[i] == s[i]
  {
    seq(|s|, i requires 0 <= i < |s| => if IsSpace(s[i]) then '-' else s[i])
  }

  /** The slug of a string: the four steps in order. Its result is made of
      lower-case letters, digits and hyphens only, and is never longer than
      the trimmed input. */
  function Slugify(s: string): (r: string)
    ensures OnlySlugChars(r)
    ensures |r| <= |Trim(s)|
  {
    var lowered := Lower(Trim(s));
    var runs := ReplaceOtherRuns(lowered);
    ReplaceOtherRunsChars(lowered);
    var r := ReplaceSpaces(runs);
    assert forall i :: 0 <= i < |r| ==> IsSlugChar(r[i]) by {
      forall i | 0 <= i < |r| ensures IsSlugChar(r[i]) {
        assert !IsUpper(runs[i]);
      }
    }
    r
  }

  /** `slugTransform`: a non-empty string is slugified; an empty string, a
      missing value or a value of another type gives the empty string. */
  function SlugTransform(v: JsValue): (r: string)
    ensures v.Str? ==> r == Slugify(v.s)
    ensures !v.Str? ==> r == []
    ensures OnlySlugChars(r)
  {
    if v.Str? && v.s != [] then Slugify(v.s) else []
  }

  // ---------------------------------------------------------------------
  // Letters and digits survive, lower-cased and in order
  // ---------------------------------------------------------------------

  lemma {:induction false} AlnumsConcat(a: string, b: string)
    ensures Alnums(a + b) == Alnums(a) + Alnums(b)
  {
    if a == [] {
      assert a + b == b;
    } else {
      var head := if IsAlnum(a[0]) then [a[0]] else [];
      assert (a + b)[0] == a[0] && (a + b)[1..] == a[1..] + b;
      AlnumsConcat(a[1..], b);
      calc {
        Alnums(a + b);
        head + Alnums(a[1..] + b);
        head + (Alnums(a[1..]) + Alnums(b));
        (head + Alnums(a[1..])) + Alnums(b);
      }
    }
  }

  lemma {:induction false} AlnumsLower(s: string)
    ensures Alnums(Lower(s)) == Lower(Alnums(s))
  {
    if s != [] {
      var c, tail := s[0], s[1..];
      var head := if IsAlnum(c) then [c] else [];
      assert Lower(s) == [ToLower(c)] + Lower(tail);
      AlnumsConcat([ToLower(c)], Lower(tail));
      assert Alnums([ToLower(c)]) == Lower(head);
      AlnumsLower(tail);
      assert Alnums(s) == head + Alnums(tail);
      LowerConcat(head, Alnums(tail));
    }
  }

  lemma LowerConcat(a: string, b: string)
    ensures Lower(a + b) == Lower(a) + Lower(b)
  {
    var l, r := Lower(a + b), Lower(a) + Lower(b);
    assert |l| == |r|;
    forall i | 0 <= i < |l| ensures l[i] == r[i] {
      if i < |a| {
        assert (a + b)[i] == a[i];
      } else {
        assert (a + b)[i] == b[i - |a|];
      }
    }
  }

  /** A run of characters outside the class holds no letter or digit. */
  lemma {:induction false} AlnumsRunEnd(s: string, i: nat)
    requires i <= |s|
    ensures Alnums(s[i..]) == Alnums(s[RunEnd(s, i)..])
    decreases |s| - i
  {
    if i < |s| && !IsKept(s[i]) {
      assert s[i..][1..] == s[i + 1..];
      AlnumsRunEnd(s, i + 1);
    }
  }

  lemma {:induction false} AlnumsRunsFrom(s: string, i: nat)
    requires i <= |s|
    ensures Alnums(RunsFrom(s, i)) == Alnums(s[i..])
    decreases |s| - i
  {
    if i < |s| {
      assert s[i..][0] == s[i] && s[i..][1..] == s[i + 1..];
      if IsKept(s[i]) {
        AlnumsConcat([s[i]], RunsFrom(s, i + 1));
        AlnumsRunsFrom(s, i + 1);
      } else {
        var j := RunEnd(s, i + 1);
        AlnumsConcat("-", RunsFrom(s, j));
        AlnumsRunsFrom(s, j);
        AlnumsRunEnd(s, i + 1);
      }
    }
  }

  lemma {:induction false} AlnumsReplaceSpaces(s: string)
    ensures Alnums(ReplaceSpaces(s)) == Alnums(s)
  {
    if s != [] {
      var c := if IsSpace(s[0]) then '-' else s[0];
      assert ReplaceSpaces(s) == [c] + ReplaceSpaces(s[1..]);
      AlnumsConcat([c], ReplaceSpaces(s[1..]));
      AlnumsReplaceSpaces(s[1..]);
    }
  }

  /** Whitespace holds no letter or digit. */
  lemma {:induction false} AlnumsSpaces(s: string)
    requires forall k :: 0 <= k < |s| ==> IsSpace(s[k])
    ensures Alnums(s) == []
  {
    if s != [] {
      AlnumsSpaces(s[1..]);
    }
  }

  /** Trimming drops only whitespace, so it keeps every letter and digit. */
  lemma AlnumsTrim(s: string)
    ensures Alnums(Trim(s)) == Alnums(s)
  {
    var a := Lead(s, 0);
    var b := Tail(s, a, |s|);
    assert Trim(s) == s[a..b];
    AlnumsBetweenSpaces(s, a, b);
  }

  /** Cutting whitespace off both ends keeps every letter and digit. */
  lemma AlnumsBetweenSpaces(s: string, a: nat, b: nat)
    requires a <= b <= |s|
    requires forall k :: 0 <= k < a ==> IsSpace(s[k])
    requires forall k :: b <= k < |s| ==> IsSpace(s[k])
    ensures Alnums(s[a..b]) == Alnums(s)
  {
    AlnumsDropBack(s, a, b);
    AlnumsDropFront(s, a);
  }

  /** Leading whitespace holds no letter or digit. */
  lemma {:induction false} AlnumsDropFront(s: string, a: nat)
    requires a <= |s|
    requires forall k :: 0 <= k < a ==> IsSpace(s[k])
    ensures Alnums(s[a..]) == Alnums(s)
    decreases a
  {
    if a == 0 {
      assert s[a..] == s;
    } else {
      AlnumsDropFront(s, a - 1);
      assert s[a - 1..][0] == s[a - 1] && s[a - 1..][1..] == s[a..];
    }
  }

  /** Trailing whitespace holds no letter or digit. */
  lemma {:induction false} AlnumsDropBack(s: string, a: nat, b: nat)
    requires a <= b <= |s|
    requires forall k :: b <= k < |s| ==> IsSpace(s[k])
    ensures Alnums(s[a..b]) == Alnums(s[a..])
    decreases b - a
  {
    if a == b {
      assert s[a..b] == [];
      assert forall k :: 0 <= k < |s[a..]| ==> s[a..][k] == s[a + k];
      AlnumsSpaces(s[a..]);
    } else {
      AlnumsDropBack(s, a + 1, b);
      assert s[a..b][0] == s[a] && s[a..b][1..] == s[a + 1..b];
      assert s[a..][0] == s[a] && s[a..][1..] == s[a + 1..];
    }
  }

  /** The letters and digits of the trimmed input reach the slug lower-cased
      and in the same order; every other character of the slug is a hyphen. */
  lemma SlugifyKeepsAlnums(s: string)
    ensures Alnums(Slugify(s)) == Lower(Alnums(Trim(s))) == Lower(Alnums(s))
    ensures forall i :: 0 <= i < |Slugify(s)| && !IsAlnum(Slugify(s)[i]) ==> Slugify(s)[i] == '-'
  {
    AlnumsTrim(s);
    var lowered := Lower(Trim(s));
    AlnumsReplaceSpaces(ReplaceOtherRuns(lowered));
    AlnumsRunsFrom(lowered, 0);
    assert lowered[0..] == lowered;
    AlnumsLower(Trim(s));
  }

  // ---------------------------------------------------------------------
  // Fixpoints
  // ---------------------------------------------------------------------

  lemma NoDoubleHyphenCons(c: char, s: string)
    requires NoDoubleHyphen(s)
    requires c != '-' || s == [] || s[0] != '-'
    ensures NoDoubleHyphen([c] + s)
  {
    var t := [c] + s;
    forall i | 0 < i < |t| ensures !(t[i - 1] == '-' && t[i] == '-') {
      if i > 1 {
        assert t[i - 1] == s[i - 2] && t[i] == s[i - 1];
      }
    }
  }

  /** Step 3 never puts two hyphens side by side: a run becomes one hyphen,
      and what follows a run is a class character. */
  lemma {:induction false} RunsFromNoDoubleHyphen(s: string, i: nat)
    requires i <= |s|
    ensures NoDoubleHyphen(RunsFrom(s, i))
    decreases |s| - i
  {
    if i < |s| {
      if IsKept(s[i]) {
        RunsFromNoDoubleHyphen(s, i + 1);
        NoDoubleHyphenCons(s[i], RunsFrom(s, i + 1));
      } else {
        var j := RunEnd(s, i + 1);
        RunsFromNoDoubleHyphen(s, j);
        NoDoubleHyphenCons('-', RunsFrom(s, j));
      }
    }
  }

  /** Step 3 leaves a canonical string as it is. */
  lemma {:induction false} RunsFromCanonical(s: string, i: nat)
    requires i <= |s| && IsCanonical(s)
    ensures RunsFrom(s, i) == s[i..]
    decreases |s| - i
  {
    if i < |s| {
      var rest := RunsFrom(s, i + 1);
      if IsKept(s[i]) {
        assert RunsFrom(s, i) == [s[i]] + rest;
      } else {
        assert s[i] == '-';
        assert RunEnd(s, i + 1) == i + 1 by {
          if i + 1 < |s| {
            assert s[i + 1] != '-' && IsSlugChar(s[i + 1]);
          }
        }
        assert RunsFrom(s, i) == [s[i]] + rest;
      }
      RunsFromCanonical(s, i + 1);
      assert s[i..] == [s[i]] + s[i + 1..];
    }
  }

  /** A title without whitespace gives a canonical slug. */
  lemma SlugifySpaceFree(s: string)
    requires NoSpace(s)
    ensures IsCanonical(Slugify(s))
  {
    var lowered := Lower(s);
    assert NoSpace(lowered);
    RunsFromNoDoubleHyphen(lowered, 0);
    ReplaceOtherRunsChars(lowered);
    var runs := ReplaceOtherRuns(lowered);
    assert ReplaceSpaces(runs) == runs;
  }

  /** A canonical string is its own slug. */
  lemma SlugifyCanonical(s: string)
    requires IsCanonical(s)
    ensures Slugify(s) == s
  {
    assert NoSpace(s);
    assert Lower(s) == s;
    RunsFromCanonical(s, 0);
    assert s[0..] == s;
    assert ReplaceSpaces(s) == s;
  }

  /** The fixpoints of the transform are exactly the canonical strings. */
  lemma SlugifyFixpoint(s: string)
    ensures Slugify(s) == s <==> IsCanonical(s)
  {
    if IsCanonical(s) {
      SlugifyCanonical(s);
    } else if Slugify(s) == s {
      FixpointIsCanonical(s);
    }
  }

  lemma FixpointIsCanonical(s: string)
    requires Slugify(s) == s
    ensures IsCanonical(s)
  {
    var r := Slugify(s);
    assert OnlySlugChars(r);
    assert NoSpace(r);
    SlugifySpaceFree(r);
  }

  /** Applying the transform again changes nothing when the first slug has no
      two hyphens in a row. */
  lemma SlugifyIdempotentWhen(s: string)
    requires NoDoubleHyphen(Slugify(s))
    ensures Slugify(Slugify(s)) == Slugify(s)
  {
    SlugifyCanonical(Slugify(s));
  }

  /** A second application can change the slug, but a third never does. */
  lemma SlugifyStableAfterTwo(s: string)
    ensures Slugify(Slugify(Slugify(s))) == Slugify(Slugify(s))
  {
    assert NoSpace(Slugify(s));
    SlugifySpaceFree(Slugify(s));
    SlugifyCanonical(Slugify(Slugify(s)));
  }

  // ---------------------------------------------------------------------
  // Examples
  // ---------------------------------------------------------------------

  /** Empty strings and values that are not strings give the empty slug. */
  lemma SlugTransformEmpty()
    ensures SlugTransform(Str("")) == ""
    ensures SlugTransform(Undefined) == "" && SlugTransform(Null) == ""
    ensures SlugTransform(NonString) == ""
  {
  }
}

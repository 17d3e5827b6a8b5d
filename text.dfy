/** The Python `str` operations the core relies on, over `seq<char>`. */
module Text {
  import opened Wrappers

  /** `str.isspace()` for one character; this is also what `\s` matches in a `str` regex. */
  predicate IsSpace(c: char) {
    var n := c as int;
    (9 <= n <= 13) || (0x1c <= n <= 0x20) || n == 0x85 || n == 0xa0 || n == 0x1680
    || (0x2000 <= n <= 0x200a) || n == 0x2028 || n == 0x2029 || n == 0x202f
    || n == 0x205f || n == 0x3000
  }

  predicate IsAsciiUpper(c: char) { 'A' <= c <= 'Z' }

  predicate IsAsciiLower(c: char) { 'a' <= c <= 'z' }

  /** The cased characters of the model: the ASCII letters. */
  predicate IsAsciiLetter(c: char) { IsAsciiUpper(c) || IsAsciiLower(c) }

  /** `\w` over ASCII: letters, digits and the underscore. */
  predicate IsWordChar(c: char) { IsAsciiLetter(c) || ('0' <= c <= '9') || c == '_' }

  function LowerChar(c: char): char {
    if IsAsciiUpper(c) then (c as int + 32) as char else c
  }

  function UpperChar(c: char): char {
    if IsAsciiLower(c) then (c as int - 32) as char else c
  }

  /** `s.lower()` over ASCII. */
  function Lower(s: string): (r: string)
    ensures |r| == |s|
    ensures forall i :: 0 <= i < |s| ==> r[i] == LowerChar(s[i])
  {
    seq(|s|, i requires 0 <= i < |s| => LowerChar(s[i]))
  }

  lemma LowerIdempotent(s: string)
    ensures Lower(Lower(s)) == Lower(s)
  {
    assert forall i :: 0 <= i < |s| ==> LowerChar(LowerChar(s[i])) == LowerChar(s[i]);
  }

  /** `s.replace(a, b)` for single characters. */
  function ReplaceChar(s: string, a: char, b: char): (r: string)
    ensures |r| == |s|
    ensures forall i :: 0 <= i < |s| ==> r[i] == (if s[i] == a then b else s[i])
  {
    seq(|s|, i requires 0 <= i < |s| => if s[i] == a then b else s[i])
  }

  /** `s.find(c)`: the index of the first `c` in `s`. */
  function FindChar(s: string, c: char): (r: Option<nat>)
    ensures r.Some? ==> r.value < |s| && s[r.value] == c
    ensures r.Some? ==> forall k :: 0 <= k < r.value ==> s[k] != c
    ensures r.None? ==> forall k :: 0 <= k < |s| ==> s[k] != c
    decreases |s|
  {
    if s == [] then None
    else if s[0] == c then Some(0)
    else match FindChar(s[1..], c)
      case None => None
      case Some(k) => Some(k + 1)
  }

  /** `s.rfind(c)`: the index of the last `c` in `s`. */
  function RFind(s: string, c: char): (r: Option<nat>)
    ensures r.Some? ==> r.value < |s| && s[r.value] == c
    ensures r.Some? ==> forall k :: r.value < k < |s| ==> s[k] != c
    ensures r.None? ==> forall k :: 0 <= k < |s| ==> s[k] != c
    decreases |s|
  {
    if s == [] then None
    else if s[|s| - 1] == c then Some(|s| - 1)
    else RFind(s[..|s| - 1], c)
  }

  /** `pat` occurs in `s` starting at index `i`. */
  predicate OccursAt(s: string, pat: string, i: int) {
    0 <= i && i + |pat| <= |s| && s[i..i + |pat|] == pat
  }

  /** `s.find(pat, start)`: the first occurrence of `pat` at or after `start`. */
  function FindFrom(s: string, pat: string, start: nat): (r: Option<nat>)
    ensures r.Some? ==> start <= r.value && OccursAt(s, pat, r.value)
    ensures forall i :: start <= i && (r.None? || i < r.value) ==> !OccursAt(s, pat, i)
    decreases |s| - start
  {
    if start + |pat| > |s| then None
    else if s[start..start + |pat|] == pat then Some(start)
    else FindFrom(s, pat, start + 1)
  }

  /** An occurrence with none before it, from `start` on, is what `find` returns. */
  lemma {:induction false} FindFromFirst(s: string, pat: string, start: nat, k: nat)
    requires start <= k && OccursAt(s, pat, k)
    requires forall p :: start <= p < k ==> !OccursAt(s, pat, p)
    ensures FindFrom(s, pat, start) == Some(k)
    decreases k - start
  {
    if start < k {
      assert !OccursAt(s, pat, start);
      FindFromFirst(s, pat, start + 1, k);
    }
  }

  /** Python's `pat in s`. */
  predicate Contains(s: string, pat: string) {
    FindFrom(s, pat, 0).Some?
  }

  lemma ContainsIff(s: string, pat: string)
    ensures Contains(s, pat) <==> exists i :: OccursAt(s, pat, i)
  {
  }

  /** `s.replace(pat, rep)`: every occurrence, left to right and without overlap. */
  function Replace(s: string, pat: string, rep: string): (r: string)
    requires pat != []
    ensures !Contains(s, pat) ==> r == s
    ensures |rep| <= |pat| ==> |r| <= |s|
    ensures |rep| == |pat| ==> |r| == |s|
    ensures Contains(s, pat) && |rep| < |pat| ==> |r| < |s|
    decreases |s|
  {
    match FindFrom(s, pat, 0)
    case None => s
    case Some(i) => s[..i] + rep + Replace(s[i + |pat|..], pat, rep)
  }

  /** Replacing starts at the first occurrence: the text before it is kept. */
  lemma {:induction false} ReplaceFirst(s: string, pat: string, rep: string, i: nat)
    requires pat != [] && FindFrom(s, pat, 0) == Some(i)
    ensures Replace(s, pat, rep) == s[..i] + rep + Replace(s[i + |pat|..], pat, rep)
  {
  }

  /** `s.lstrip()`. */
  function TrimStart(s: string): (r: string)
    ensures |r| <= |s| && r == s[|s| - |r|..]
    ensures forall i :: 0 <= i < |s| - |r| ==> IsSpace(s[i])
    ensures r == [] || !IsSpace(r[0])
  {
    if s != [] && IsSpace(s[0]) then TrimStart(s[1..]) else s
  }

  /** `s.rstrip()`. */
  function TrimEnd(s: string): (r: string)
    ensures |r| <= |s| && r == s[..|r|]
    ensures forall i :: |r| <= i < |s| ==> IsSpace(s[i])
    ensures r == [] || !IsSpace(r[|r| - 1])
  {
    if s != [] && IsSpace(s[|s| - 1]) then TrimEnd(s[..|s| - 1]) else s
  }

  /** `s.strip()`. */
  function Strip(s: string): (r: string) {
    TrimEnd(TrimStart(s))
  }

  /** Stripping leaves no outer whitespace and removes nothing but whitespace. */
  lemma StripSpec(s: string)
    ensures var r := Strip(s); var i := |s| - |TrimStart(s)|;
      && (r == [] || (!IsSpace(r[0]) && !IsSpace(r[|r| - 1])))
      && i + |r| <= |s| && s[i..i + |r|] == r
      && (forall k :: 0 <= k < i ==> IsSpace(s[k]))
      && (forall k :: i + |r| <= k < |s| ==> IsSpace(s[k]))
  {
    StripEnds(s);
    StripKeeps(s);
    StripTrailing(s);
  }

  lemma StripEnds(s: string)
    ensures var r := Strip(s); r == [] || (!IsSpace(r[0]) && !IsSpace(r[|r| - 1]))
  {
    var t := TrimStart(s);
    var r := TrimEnd(t);
    if r != [] {
      assert r[0] == t[0];
    }
  }

  lemma StripKeeps(s: string)
    ensures var r := Strip(s); var i := |s| - |TrimStart(s)|;
      i + |r| <= |s| && s[i..i + |r|] == r
  {
    var t := TrimStart(s);
    var r := TrimEnd(t);
    var i := |s| - |t|;
    assert t == s[i..];
    assert r == t[..|r|];
    SliceOfSuffix(s, i, |r|);
  }

  lemma SliceOfSuffix(s: string, i: nat, n: nat)
    requires i + n <= |s|
    ensures s[i..][..n] == s[i..i + n]
  {
  }

  lemma StripTrailing(s: string)
    ensures var r := Strip(s); var i := |s| - |TrimStart(s)|;
      forall k :: i + |r| <= k < |s| ==> IsSpace(s[k])
  {
    var t := TrimStart(s);
    var r := TrimEnd(t);
    var i := |s| - |t|;
    forall k | i + |r| <= k < |s| ensures IsSpace(s[k]) {
      assert s[k] == t[k - i];
    }
  }

  /** A string without whitespace is its own strip. */
  lemma StripNoSpace(s: string)
    requires forall i :: 0 <= i < |s| ==> !IsSpace(s[i])
    ensures Strip(s) == s
  {
  }

  /**
   * `s.title()` with ASCII letters as the cased characters: a letter is upper-cased when the
   * character before it is not cased (`prevCased` for the first one) and lower-cased otherwise;
   * every other character is kept.
   */
  function TitleAfter(s: string, prevCased: bool): (r: string)
    ensures |r| == |s|
    decreases |s|
  {
    if s == [] then []
    else
      var c := s[0];
      [if IsAsciiLetter(c) then (if prevCased then LowerChar(c) else UpperChar(c)) else c]
      + TitleAfter(s[1..], IsAsciiLetter(c))
  }

  function Title(s: string): (r: string) {
    TitleAfter(s, false)
  }

  /** What title-casing does to one character, stated without the recursion. */
  ghost function TitledAt(s: string, i: nat, prevCased: bool): char
    requires i < |s|
  {
    var before := if i == 0 then prevCased else IsAsciiLetter(s[i - 1]);
    if IsAsciiLetter(s[i]) then (if before then LowerChar(s[i]) else UpperChar(s[i])) else s[i]
  }

  lemma {:induction false} TitleAfterAt(s: string, prevCased: bool, i: nat)
    requires i < |s|
    ensures TitleAfter(s, prevCased)[i] == TitledAt(s, i, prevCased)
    decreases i
  {
    if i > 0 {
      TitleAfterAt(s[1..], IsAsciiLetter(s[0]), i - 1);
    }
  }

  /** `s.title()` upper-cases exactly the letters that start a run of letters. */
  lemma TitleAt(s: string, i: nat)
    requires i < |s|
    ensures Title(s)[i] == TitledAt(s, i, false)
  {
    TitleAfterAt(s, false, i);
  }

  /** Title-casing an already title-cased string changes nothing. */
  lemma {:induction false} TitleAfterIdempotent(s: string, prevCased: bool)
    ensures TitleAfter(TitleAfter(s, prevCased), prevCased) == TitleAfter(s, prevCased)
    decreases |s|
  {
    if s != [] {
      var c := s[0];
      var t := TitleAfter(s, prevCased);
      assert t[1..] == TitleAfter(s[1..], IsAsciiLetter(c));
      assert IsAsciiLetter(t[0]) == IsAsciiLetter(c);
      TitleAfterIdempotent(s[1..], IsAsciiLetter(c));
    }
  }

  lemma TitleIdempotent(s: string)
    ensures Title(Title(s)) == Title(s)
  {
    TitleAfterIdempotent(s, false);
  }
}

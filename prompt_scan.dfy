/**
 * Hand-written scanners for the two patterns the data-science agent searches a prompt with:
 * `(/[^\s'"]+\.(?:csv|xlsx|xls))` for a full path and
 * `['"]?([\w\s\-\.]+\.(?:csv|xlsx|xls))['"]?` for a bare file name. Each follows Python's
 * `re.search`: the leftmost start wins, and at that start the greedy `+` gives characters back
 * one at a time until an extension matches, so the longest match from that start is taken.
 */
module PromptScan {
  import opened Wrappers
  import opened Text

  datatype Pattern = FullPath | FileName

  /** `[^\s'"]`: a character of a full path. */
  predicate PathChar(c: char) { !IsSpace(c) && c != '\'' && c != '"' }

  /** `[\w\s\-\.]`: a character of a bare file name. */
  predicate NameChar(c: char) { IsWordChar(c) || IsSpace(c) || c == '-' || c == '.' }

  /**
   * `\.(?:csv|xlsx|xls)` tried with its dot at index `k`, the alternatives in the pattern's
   * order: the index just past the extension when it matches.
   */
  function ExtensionEnd(s: string, k: nat): (r: Option<nat>)
    ensures r.Some? ==> k < r.value <= |s| && s[k] == '.'
  {
    if k < |s| && s[k] == '.' then
      if OccursAt(s, "csv", k + 1) then Some(k + 4)
      else if OccursAt(s, "xlsx", k + 1) then Some(k + 5)
      else if OccursAt(s, "xls", k + 1) then Some(k + 4)
      else None
    else None
  }

  /**
   * An extension matches exactly when a dot is followed by `csv` or `xls`; it is `.xlsx` when
   * that follows the dot and `.csv` or `.xls` otherwise.
   */
  lemma ExtensionEndSpec(s: string, k: nat)
    ensures var r := ExtensionEnd(s, k);
      && (r.Some? <==> k < |s| && s[k] == '.' && (OccursAt(s, "csv", k + 1) || OccursAt(s, "xls", k + 1)))
      && (r.Some? ==> (OccursAt(s, "xlsx", k + 1) <==> r.value == k + 5))
      && (r.Some? && OccursAt(s, "csv", k + 1) ==> s[k..r.value] == ".csv")
      && (r.Some? && OccursAt(s, "xlsx", k + 1) ==> s[k..r.value] == ".xlsx")
      && (r.Some? && !OccursAt(s, "csv", k + 1) && !OccursAt(s, "xlsx", k + 1) ==> s[k..r.value] == ".xls")
  {
    if k < |s| && s[k] == '.' {
      if OccursAt(s, "xlsx", k + 1) {
        assert s[k + 1..k + 4] == s[k + 1..k + 5][..3];
        assert OccursAt(s, "xls", k + 1);
        assert !OccursAt(s, "csv", k + 1) by { assert s[k + 1] == 'x'; }
        assert s[k..k + 5] == [s[k]] + s[k + 1..k + 5];
      } else if OccursAt(s, "csv", k + 1) {
        assert s[k..k + 4] == [s[k]] + s[k + 1..k + 4];
      } else if OccursAt(s, "xls", k + 1) {
        assert s[k..k + 4] == [s[k]] + s[k + 1..k + 4];
      }
    }
  }

  /** `t` ends with one of the supported extensions. */
  predicate EndsWithExtension(t: string) {
    (|t| >= 4 && t[|t| - 4..] == ".csv")
    || (|t| >= 5 && t[|t| - 5..] == ".xlsx")
    || (|t| >= 4 && t[|t| - 4..] == ".xls")
  }

  /** The end of the longest run of `inClass` characters that starts at `i`. */
  function RunEnd(s: string, i: nat, inClass: char -> bool): (j: nat)
    requires i <= |s|
    ensures i <= j <= |s|
    ensures forall k :: i <= k < j ==> inClass(s[k])
    ensures j < |s| ==> !inClass(s[j])
    decreases |s| - i
  {
    if i < |s| && inClass(s[i]) then RunEnd(s, i + 1, inClass) else i
  }

  /** Backtracking of the greedy `+`: the largest dot index in `[lo, hi]` where an extension matches. */
  function LastExtension(s: string, lo: nat, hi: nat): (r: Option<nat>)
    ensures r.Some? ==> lo <= r.value <= hi && ExtensionEnd(s, r.value).Some?
    ensures forall k :: lo <= k <= hi && (r.None? || r.value < k) ==> ExtensionEnd(s, k).None?
    decreases hi
  {
    if hi < lo then None
    else if ExtensionEnd(s, hi).Some? then Some(hi)
    else if hi == 0 then None
    else LastExtension(s, lo, hi - 1)
  }

  /**
   * The pattern admits a match that starts at `i` and has its extension's dot at `k`. This is
   * the shape the pattern describes, with no search order in it.
   */
  ghost predicate Shape(s: string, pat: Pattern, i: nat, k: nat) {
    match pat
    case FullPath =>
      && ExtensionEnd(s, k).Some? && i + 2 <= k && s[i] == '/'
      && (forall m :: i + 1 <= m < k ==> PathChar(s[m]))
    case FileName =>
      && ExtensionEnd(s, k).Some? && i + 1 <= k
      && (forall m :: i <= m < k ==> NameChar(s[m]))
  }

  /** The pattern tried at start `i`: the dot of the longest match from there. */
  function DotAt(s: string, pat: Pattern, i: nat): (r: Option<nat>)
    requires i < |s|
    ensures r.Some? ==> Shape(s, pat, i, r.value)
  {
    match pat
    case FullPath =>
      if s[i] != '/' then None else LastExtension(s, i + 2, RunEnd(s, i + 1, PathChar))
    case FileName =>
      LastExtension(s, i + 1, RunEnd(s, i, NameChar))
  }

  /** From start `i` the dot found is the last one of any match, and none is missed. */
  lemma DotAtSpec(s: string, pat: Pattern, i: nat)
    requires i < |s|
    ensures DotAt(s, pat, i).Some? ==> forall k: nat :: Shape(s, pat, i, k) ==> k <= DotAt(s, pat, i).value
    ensures DotAt(s, pat, i).None? ==> forall k: nat :: !Shape(s, pat, i, k)
  {
  }

  /** The leftmost start at or after `i` where the pattern matches, with the dot of its match. */
  function Leftmost(s: string, pat: Pattern, i: nat): (r: Option<(nat, nat)>)
    requires i <= |s|
    ensures r.Some? ==> i <= r.value.0 && Shape(s, pat, r.value.0, r.value.1)
    decreases |s| - i
  {
    if i == |s| then None
    else
      match DotAt(s, pat, i)
      case Some(k) => Some((i, k))
      case None => Leftmost(s, pat, i + 1)
  }

  /** No match starts before the one found, and from its start no later dot matches. */
  lemma LeftmostSpec(s: string, pat: Pattern, i: nat)
    requires i <= |s|
    ensures var r := Leftmost(s, pat, i);
      && (r.Some? ==> forall k: nat :: Shape(s, pat, r.value.0, k) ==> k <= r.value.1)
      && (forall j: nat, k: nat :: i <= j && (r.None? || j < r.value.0) ==> !Shape(s, pat, j, k))
  {
    LeftmostLast(s, pat, i);
    LeftmostFirst(s, pat, i);
  }

  lemma {:induction false} LeftmostLast(s: string, pat: Pattern, i: nat)
    requires i <= |s|
    ensures var r := Leftmost(s, pat, i);
      r.Some? ==> forall k: nat :: Shape(s, pat, r.value.0, k) ==> k <= r.value.1
    decreases |s| - i
  {
    if i < |s| {
      DotAtSpec(s, pat, i);
      if DotAt(s, pat, i).None? {
        LeftmostLast(s, pat, i + 1);
      }
    }
  }

  lemma {:induction false} LeftmostFirst(s: string, pat: Pattern, i: nat)
    requires i <= |s|
    ensures var r := Leftmost(s, pat, i);
      forall j: nat, k: nat :: i <= j && (r.None? || j < r.value.0) ==> !Shape(s, pat, j, k)
    decreases |s| - i
  {
    if i < |s| {
      DotAtSpec(s, pat, i);
      if DotAt(s, pat, i).None? {
        LeftmostFirst(s, pat, i + 1);
        var r := Leftmost(s, pat, i);
        assert r == Leftmost(s, pat, i + 1);
        forall j: nat, k: nat | i <= j && (r.None? || j < r.value.0) ensures !Shape(s, pat, j, k) {
          if j == i {
            assert !Shape(s, pat, i, k);
          }
        }
      }
    }
  }

  /** `re.search(pattern, s).group(1)`, or `None` when the search fails. */
  function Search(s: string, pat: Pattern): (r: Option<string>) {
    match Leftmost(s, pat, 0)
    case Some((i, k)) => Some(s[i..ExtensionEnd(s, k).value])
    case None => None
  }

  /** The text the pattern captures from start `i` with the dot at `k`. */
  ghost function Captured(s: string, i: nat, k: nat): string
    requires ExtensionEnd(s, k).Some? && i <= k
  {
    s[i..ExtensionEnd(s, k).value]
  }

  /**
   * The search fails exactly when no match of the pattern's shape exists; otherwise it captures
   * the match with the leftmost start and, from that start, the last possible dot.
   */
  lemma SearchSpec(s: string, pat: Pattern)
    ensures Search(s, pat).None? <==> forall i: nat, k: nat :: !Shape(s, pat, i, k)
    ensures Search(s, pat).Some? ==> exists i: nat, k: nat ::
      && Shape(s, pat, i, k) && Search(s, pat).value == Captured(s, i, k)
      && (forall j: nat, k': nat :: j < i ==> !Shape(s, pat, j, k'))
      && (forall k': nat :: Shape(s, pat, i, k') ==> k' <= k)
  {
    LeftmostSpec(s, pat, 0);
    match Leftmost(s, pat, 0)
    case Some((i, k)) =>
      assert Shape(s, pat, i, k) && Search(s, pat).value == Captured(s, i, k);
    case None =>
  }

  /** The text of a matched extension. */
  lemma ExtensionText(s: string, k: nat)
    requires ExtensionEnd(s, k).Some?
    ensures var x := s[k..ExtensionEnd(s, k).value];
      x == ".csv" || x == ".xlsx" || x == ".xls"
  {
    var e := ExtensionEnd(s, k).value;
    assert s[k..e] == [s[k]] + s[k + 1..e];
  }

  /** A capture is the text before the dot followed by the extension's own text. */
  lemma CapturedParts(s: string, i: nat, k: nat)
    requires ExtensionEnd(s, k).Some? && i <= k
    ensures var r := Captured(s, i, k); var x := s[k..ExtensionEnd(s, k).value];
      && r == s[i..k] + x && |x| >= 4 && EndsWithExtension(r)
      && (forall m :: k - i <= m < |r| ==> r[m] == '.' || IsAsciiLetter(r[m]))
  {
    var e := ExtensionEnd(s, k).value;
    var r := s[i..e];
    var x := s[k..e];
    ExtensionText(s, k);
    assert r == s[i..k] + x;
    assert r[|r| - |x|..] == x;
    forall m | k - i <= m < |r| ensures r[m] == '.' || IsAsciiLetter(r[m]) {
      assert r[m] == x[m - (k - i)];
    }
  }

  /** A captured full path starts at `/`, holds no whitespace or quote, and ends in an extension. */
  lemma FullPathShape(s: string)
    requires Search(s, FullPath).Some?
    ensures var r := Search(s, FullPath).value;
      && |r| >= 6 && r[0] == '/' && EndsWithExtension(r)
      && forall m :: 0 <= m < |r| ==> !IsSpace(r[m]) && r[m] != '\'' && r[m] != '"'
  {
    var (i, k) := Leftmost(s, FullPath, 0).value;
    var r := Captured(s, i, k);
    assert r == Search(s, FullPath).value;
    CapturedParts(s, i, k);
    forall m | 0 <= m < |r| ensures !IsSpace(r[m]) && r[m] != '\'' && r[m] != '"' {
      if 0 < m < k - i {
        assert r[m] == s[i + m] && PathChar(s[i + m]);
      }
    }
  }

  /** A captured file name holds only word characters, whitespace, `-` and `.`, and ends in an extension. */
  lemma FileNameShape(s: string)
    requires Search(s, FileName).Some?
    ensures var r := Search(s, FileName).value;
      && |r| >= 5 && EndsWithExtension(r)
      && forall m :: 0 <= m < |r| ==> NameChar(r[m])
  {
    var (i, k) := Leftmost(s, FileName, 0).value;
    var r := Captured(s, i, k);
    assert r == Search(s, FileName).value;
    CapturedParts(s, i, k);
    forall m | 0 <= m < |r| ensures NameChar(r[m]) {
      if m < k - i {
        assert r[m] == s[i + m] && NameChar(s[i + m]);
      }
    }
  }

  /**
   * Because `\s` is in the file-name class, the words before a bare name are captured with it:
   * from the prompt `analyze sales.csv` the file name is the whole prompt.
   */
  lemma FileNameSpansWords()
    ensures Search("analyze sales.csv", FileName) == Some("analyze sales.csv")
  {
    var s := "analyze sales.csv";
    assert ExtensionEnd(s, 13) == Some(17) by {
      assert s[14..17] == "csv";
    }
    assert Shape(s, FileName, 0, 13);
    forall k: nat | Shape(s, FileName, 0, k) ensures k == 13 {
      assert s[k] == '.';
    }
    LeftmostSpec(s, FileName, 0);
    var (i, k) := Leftmost(s, FileName, 0).value;
    assert i == 0 && k == 13;
    assert s[0..17] == s;
  }
}

/**
 * The analysis pipeline of the data-science agent: reading the JSON plan out of the model's
 * reply, naming the dataset and the report, and the early exits that decide which result
 * message the pipeline returns. Loading the table, the model call, the generated code, the
 * template and the PDF writer are foreign; their outcomes are fields of `AnalysisWorld`.
 */
module DataScientist {
  import opened Wrappers
  import opened Json
  import opened Text
  import opened Paths

  // ---------------------------------------------------------------------------------------
  // JSON extraction from the model's reply (get_ai_plan)

  const FENCE_OPEN := "```json\n"
  const FENCE := "```"
  const NO_JSON_BLOCK := "AI response did not contain a valid JSON block."

  /** An opening fence at `i` and a closing fence at `j` after it: a match of the fenced pattern. */
  ghost predicate FenceShape(s: string, i: nat, j: nat) {
    OccursAt(s, FENCE_OPEN, i) && i + |FENCE_OPEN| <= j && OccursAt(s, FENCE, j)
  }

  /**
   * `re.search(r'```json\n([\s\S]*?)```', text)`: the positions of the opening and the closing
   * fence of the leftmost match, the closing one as early as possible (the group is lazy).
   */
  function FencedBlock(text: string): (r: Option<(nat, nat)>)
    ensures r.Some? ==> FenceShape(text, r.value.0, r.value.1)
  {
    match FindFrom(text, FENCE_OPEN, 0)
    case None => None
    case Some(i) =>
      match FindFrom(text, FENCE, i + |FENCE_OPEN|)
      case None => None
      case Some(j) => Some((i, j))
  }

  /** The fenced block is the leftmost match, closed as early as possible, and found whenever one exists. */
  lemma FencedBlockSpec(text: string)
    ensures var r := FencedBlock(text);
      && (r.Some? ==> forall i: nat, j: nat :: FenceShape(text, i, j) ==>
            r.value.0 <= i && (r.value.0 == i ==> r.value.1 <= j))
      && (r.None? ==> forall i: nat, j: nat :: !FenceShape(text, i, j))
  {
  }

  /**
   * `re.search(r'\{[\s\S]*\}', text)`: the leftmost `{` and, the star being greedy, the last `}`
   * after it.
   */
  function BraceSpan(text: string): (r: Option<(nat, nat)>)
    ensures r.Some? ==> (r.value.0 < r.value.1 < |text|
      && text[r.value.0] == '{' && text[r.value.1] == '}')
  {
    match (FindChar(text, '{'), RFind(text, '}'))
    case (Some(i), Some(j)) => if i < j then Some((i, j)) else None
    case _ => None
  }

  /** The span runs from the first `{` to the last `}`, and exists whenever some `{` precedes some `}`. */
  lemma BraceSpanSpec(text: string)
    ensures var r := BraceSpan(text);
      && (r.Some? ==> forall i, j :: 0 <= i < j < |text| && text[i] == '{' && text[j] == '}' ==>
            r.value.0 <= i && (r.value.0 == i ==> j <= r.value.1))
      && (r.None? ==> forall i, j :: 0 <= i < j < |text| ==> !(text[i] == '{' && text[j] == '}'))
  {
  }

  /**
   * The JSON text `get_ai_plan` hands to `json.loads`: the fenced match if there is one, the
   * brace span otherwise, with every opening fence and then every fence removed.
   */
  function ExtractJsonText(text: string): (r: Result<string, string>)
    ensures r.Err? <==> FencedBlock(text).None? && BraceSpan(text).None?
    ensures r.Err? ==> r.error == NO_JSON_BLOCK
  {
    var matched :=
      match FencedBlock(text)
      case Some((i, j)) => Some(text[i..j + |FENCE|])
      case None =>
        match BraceSpan(text)
        case Some((i, j)) => Some(text[i..j + 1])
        case None => None;
    match matched
    case None => Err(NO_JSON_BLOCK)
    case Some(m) => Ok(Replace(Replace(m, FENCE_OPEN, ""), FENCE, ""))
  }

  /** A fence, character by character. */
  lemma FenceAt(s: string, p: int)
    ensures OccursAt(s, FENCE, p) <==>
      0 <= p && p + 3 <= |s| && s[p] == '`' && s[p + 1] == '`' && s[p + 2] == '`'
  {
    if 0 <= p && p + 3 <= |s| && s[p] == '`' && s[p + 1] == '`' && s[p + 2] == '`' {
      assert s[p..p + 3] == FENCE;
    }
  }

  /** The first three characters of an occurrence. */
  lemma OccursAtStart(s: string, pat: string, p: int)
    ensures OccursAt(s, pat, p) && |pat| >= 3 ==>
      s[p] == pat[0] && s[p + 1] == pat[1] && s[p + 2] == pat[2]
  {
    if OccursAt(s, pat, p) && |pat| >= 3 {
      assert s[p..p + |pat|][0] == pat[0];
      assert s[p..p + |pat|][1] == pat[1];
      assert s[p..p + |pat|][2] == pat[2];
    }
  }

  /** A string in which no fence occurs: the negation of `Contains`, spelled out. */
  lemma NoFence(body: string, p: int)
    requires !Contains(body, FENCE)
    ensures !(0 <= p && p + 3 <= |body| && body[p] == '`' && body[p + 1] == '`' && body[p + 2] == '`')
  {
    FenceAt(body, p);
  }

  /** Removing the opening fences of `FENCE_OPEN + body + FENCE` leaves `body + FENCE`. */
  lemma DropOpeningFence(body: string)
    requires !Contains(body, FENCE)
    ensures Replace(FENCE_OPEN + body + FENCE, FENCE_OPEN, "") == body + FENCE
  {
    var m := FENCE_OPEN + body + FENCE;
    assert m[..|FENCE_OPEN|] == FENCE_OPEN;
    var rest := body + FENCE;
    assert m[|FENCE_OPEN|..] == rest;
    forall p: nat | p + |FENCE_OPEN| <= |rest|
      ensures !OccursAt(rest, FENCE_OPEN, p)
    {
      NoFence(body, p);
      assert rest[p] == body[p] && rest[p + 1] == body[p + 1] && rest[p + 2] == body[p + 2];
      OccursAtStart(rest, FENCE_OPEN, p);
    }
  }

  /** The number of backticks `body` ends with, when it holds no fence. */
  function TrailingTicks(body: string): (t: nat)
    ensures t <= 2 && t <= |body|
  {
    var n := |body|;
    if n >= 2 && body[n - 2] == '`' && body[n - 1] == '`' then 2
    else if n >= 1 && body[n - 1] == '`' then 1 else 0
  }

  /** In `body + FENCE` the first fence starts where the trailing backticks of `body` do. */
  lemma FirstClosingFence(body: string)
    requires !Contains(body, FENCE)
    ensures FindFrom(body + FENCE, FENCE, 0) == Some(|body| - TrailingTicks(body))
  {
    var s := body + FENCE;
    var k := |body| - TrailingTicks(body);
    ClosingFenceAt(body);
    forall p: nat | p < k ensures !OccursAt(s, FENCE, p) {
      NoEarlierFence(body, p);
    }
    FindFromFirst(s, FENCE, 0, k);
  }

  lemma ClosingFenceAt(body: string)
    ensures OccursAt(body + FENCE, FENCE, |body| - TrailingTicks(body))
  {
    var s := body + FENCE;
    var n := |body|;
    var k := n - TrailingTicks(body);
    assert s[n] == '`' && s[n + 1] == '`' && s[n + 2] == '`';
    FenceAt(s, k);
  }

  lemma NoEarlierFence(body: string, p: nat)
    requires !Contains(body, FENCE) && p < |body| - TrailingTicks(body)
    ensures !OccursAt(body + FENCE, FENCE, p)
  {
    var s := body + FENCE;
    var n := |body|;
    FenceAt(s, p);
    NoFence(body, p);
    if p + 3 <= n {
      assert s[p] == body[p] && s[p + 1] == body[p + 1] && s[p + 2] == body[p + 2];
    } else {
      assert s[n - 1] == body[n - 1];
      if p == n - 2 {
        assert s[n - 2] == body[n - 2];
      }
    }
  }

  /** Removing the fences of `body + FENCE`, where `body` has none, gives back `body`. */
  lemma DropClosingFence(body: string)
    requires !Contains(body, FENCE)
    ensures Replace(body + FENCE, FENCE, "") == body
  {
    var s := body + FENCE;
    var k := |body| - TrailingTicks(body);
    FirstClosingFence(body);
    var tail := s[k + 3..];
    assert Replace(s, FENCE, "") == s[..k] + Replace(tail, FENCE, "");
    assert Replace(tail, FENCE, "") == tail;
    AroundClosingFence(body);
  }

  /** Cutting the first fence out of `body + FENCE` leaves `body`: the trailing backticks reappear after it. */
  lemma AroundClosingFence(body: string)
    ensures var s := body + FENCE; var k := |body| - TrailingTicks(body);
      s[..k] + s[k + 3..] == body
  {
    var s := body + FENCE;
    var n := |body|;
    var k := n - TrailingTicks(body);
    var t := s[..k] + s[k + 3..];
    forall i | 0 <= i < n ensures t[i] == body[i] {
      if i >= k {
        assert t[i] == s[i + 3] == '`';
      }
    }
  }

  /** Both removals together undo the fences around a body without one. */
  lemma StripFences(body: string)
    requires !Contains(body, FENCE)
    ensures Replace(Replace(FENCE_OPEN + body + FENCE, FENCE_OPEN, ""), FENCE, "") == body
  {
    DropOpeningFence(body);
    DropClosingFence(body);
  }

  /** A fenced block yields exactly the text between its fences. */
  lemma ExtractFenced(text: string)
    requires FencedBlock(text).Some?
    ensures var (i, j) := FencedBlock(text).value;
      ExtractJsonText(text) == Ok(text[i + |FENCE_OPEN|..j])
  {
    var (i, j) := FencedBlock(text).value;
    var body := text[i + |FENCE_OPEN|..j];
    FencedMatch(text, i, j);
    FenceBodyClean(text, i, j);
    FencedSlice(text, i, j);
    StripFences(body);
  }

  lemma FencedMatch(text: string, i: nat, j: nat)
    requires FencedBlock(text) == Some((i, j))
    ensures j + |FENCE| <= |text|
    ensures ExtractJsonText(text) == Ok(Replace(Replace(text[i..j + |FENCE|], FENCE_OPEN, ""), FENCE, ""))
  {
  }

  lemma FencedSlice(text: string, i: nat, j: nat)
    requires OccursAt(text, FENCE_OPEN, i) && i + |FENCE_OPEN| <= j && OccursAt(text, FENCE, j)
    ensures text[i..j + |FENCE|] == FENCE_OPEN + text[i + |FENCE_OPEN|..j] + FENCE
  {
    var o := i + |FENCE_OPEN|;
    assert text[i..j + |FENCE|] == text[i..o] + text[o..j] + text[j..j + |FENCE|];
  }

  /** The text a fenced block encloses holds no fence, the closing one being the first. */
  lemma FenceBodyClean(text: string, i: nat, j: nat)
    requires FencedBlock(text) == Some((i, j))
    ensures !Contains(text[i + |FENCE_OPEN|..j], FENCE)
  {
    var body := text[i + |FENCE_OPEN|..j];
    var o := i + |FENCE_OPEN|;
    assert FindFrom(text, FENCE, o) == Some(j);
    forall p: nat | p + 3 <= |body| ensures !OccursAt(body, FENCE, p) {
      FenceAt(body, p);
      FenceAt(text, o + p);
      assert body[p] == text[o + p] && body[p + 1] == text[o + p + 1] && body[p + 2] == text[o + p + 2];
    }
  }

  /**
   * Without a fenced block the brace span is used: the text handed on holds no fence and is no
   * longer than the span, and a span without a backtick is handed on as it stands.
   */
  lemma ExtractBraces(text: string)
    requires FencedBlock(text).None? && BraceSpan(text).Some?
    ensures var (i, j) := BraceSpan(text).value; var r := ExtractJsonText(text);
      && r.Ok? && !Contains(r.value, FENCE) && |r.value| <= j + 1 - i
      && ('`' !in text[i..j + 1] ==> r.value == text[i..j + 1])
  {
    var (i, j) := BraceSpan(text).value;
    var m := text[i..j + 1];
    ExtractJsonTextClean(text);
    if '`' !in m {
      forall p: nat | p < |m| ensures !OccursAt(m, FENCE_OPEN, p) && !OccursAt(m, FENCE, p) {
        FenceAt(m, p);
        OccursAtStart(m, FENCE_OPEN, p);
      }
    }
  }

  /** Whatever was matched, the text handed to `json.loads` holds no fence. */
  lemma ExtractJsonTextClean(text: string)
    ensures ExtractJsonText(text).Ok? ==> !Contains(ExtractJsonText(text).value, FENCE)
  {
    var m :=
      match FencedBlock(text)
      case Some((i, j)) => Some(text[i..j + |FENCE|])
      case None =>
        match BraceSpan(text)
        case Some((i, j)) => Some(text[i..j + 1])
        case None => None;
    if m.Some? {
      RemoveFencesClean(Replace(m.value, FENCE_OPEN, ""));
    }
  }

  /**
   * Removing every fence leaves none: the text before the first fence cannot end in a backtick
   * (that backtick would start an earlier fence), so no new fence forms across a removal.
   */
  lemma {:induction false} RemoveFencesClean(s: string)
    ensures !Contains(Replace(s, FENCE, ""), FENCE)
    decreases |s|
  {
    var first := FindFrom(s, FENCE, 0);
    if first.Some? {
      var i := first.value;
      var tail := s[i + |FENCE|..];
      RemoveFencesClean(tail);
      ReplaceFirst(s, FENCE, "", i);
      BeforeFirstFence(s, i);
      JoinRemoved(s[..i], Replace(tail, FENCE, ""), Replace(s, FENCE, ""));
    }
  }

  lemma JoinRemoved(head: string, rest: string, r: string)
    requires !Contains(head, FENCE) && (head == [] || head[|head| - 1] != '`')
    requires !Contains(rest, FENCE) && r == head + "" + rest
    ensures !Contains(r, FENCE)
  {
    assert r == head + rest;
    JoinNoFence(head, rest);
  }

  /** The text before the first fence holds none and does not end in a backtick. */
  lemma BeforeFirstFence(s: string, i: nat)
    requires FindFrom(s, FENCE, 0) == Some(i)
    ensures !Contains(s[..i], FENCE) && (i == 0 || s[i - 1] != '`')
  {
    var head := s[..i];
    forall p: nat ensures !OccursAt(head, FENCE, p) {
      FenceAt(head, p);
      FenceAt(s, p);
      if p + 3 <= i {
        assert head[p] == s[p] && head[p + 1] == s[p + 1] && head[p + 2] == s[p + 2];
      }
    }
    if i > 0 {
      FenceAt(s, i);
      FenceAt(s, i - 1);
    }
  }

  /** Two texts without a fence, the first not ending in a backtick, join into one without a fence. */
  lemma JoinNoFence(a: string, b: string)
    requires !Contains(a, FENCE) && !Contains(b, FENCE)
    requires a == [] || a[|a| - 1] != '`'
    ensures !Contains(a + b, FENCE)
  {
    var r := a + b;
    forall p: nat ensures !OccursAt(r, FENCE, p) {
      FenceAt(r, p);
      if p + 3 <= |r| {
        if p + 3 <= |a| {
          assert r[p] == a[p] && r[p + 1] == a[p + 1] && r[p + 2] == a[p + 2];
          NoFence(a, p);
        } else if |a| <= p {
          assert r[p] == b[p - |a|] && r[p + 1] == b[p - |a| + 1] && r[p + 2] == b[p - |a| + 2];
          NoFence(b, p - |a|);
        } else {
          assert r[|a| - 1] == a[|a| - 1];
        }
      }
    }
  }

  datatype PlanError = ReplyFailed | NoJsonBlock | InvalidJson

  /**
   * `get_ai_plan`: the reply text (`None` when the call fails), the JSON extracted from it and
   * `json.loads` of that, which is foreign and given as `parse`.
   */
  function GetAiPlan(reply: Option<string>, parse: string -> Option<Value>): (r: Result<Value, PlanError>)
    ensures r.Ok? <==> (reply.Some? && ExtractJsonText(reply.value).Ok?
      && parse(ExtractJsonText(reply.value).value).Some?)
    ensures r.Ok? ==> Some(r.value) == parse(ExtractJsonText(reply.value).value)
  {
    match reply
    case None => Err(ReplyFailed)
    case Some(text) =>
      match ExtractJsonText(text)
      case Err(_) => Err(NoJsonBlock)
      case Ok(json) =>
        match parse(json)
        case None => Err(InvalidJson)
        case Some(v) => Ok(v)
  }

  // ---------------------------------------------------------------------------------------
  // Naming the dataset and the report (generate_pdf_report)

  type Year = y: int | 1000 <= y <= 9999 witness 2000
  type Month = m: int | 1 <= m <= 12 witness 1
  type Day = d: int | 1 <= d <= 31 witness 1
  type Hour = h: int | 0 <= h <= 23
  type Minute = m: int | 0 <= m <= 59
  type Second = s: int | 0 <= s <= 59

  /** The wall-clock time `datetime.now()` returns, as far as the formats read it. */
  datatype DateTime = DateTime(year: Year, month: Month, day: Day, hour: Hour, minute: Minute, second: Second)

  predicate IsDigit(c: char) { '0' <= c <= '9' }

  function Digit(d: int): (c: char)
    requires 0 <= d <= 9
    ensures IsDigit(c)
  {
    ('0' as int + d) as char
  }

  function Pad2(n: int): (r: string)
    requires 0 <= n <= 99
    ensures |r| == 2 && IsDigit(r[0]) && IsDigit(r[1])
  {
    [Digit(n / 10), Digit(n % 10)]
  }

  function Pad4(n: int): (r: string)
    requires 0 <= n <= 9999
    ensures |r| == 4 && forall i :: 0 <= i < 4 ==> IsDigit(r[i])
  {
    [Digit(n / 1000), Digit(n / 100 % 10), Digit(n / 10 % 10), Digit(n % 10)]
  }

  /** The number a string of decimal digits spells, most significant digit first. */
  function Decimal(s: string): int
    decreases |s|
  {
    if s == [] then 0 else Decimal(s[..|s| - 1]) * 10 + (s[|s| - 1] as int - '0' as int)
  }

  /** A zero-padded field reads back as the number it was made from. */
  lemma Pad2Value(n: int)
    requires 0 <= n <= 99
    ensures Decimal(Pad2(n)) == n
  {
    var r := Pad2(n);
    assert r[..1][..0] == [];
    assert Decimal(r[..1]) == n / 10;
  }

  lemma Pad4Value(n: int)
    requires 0 <= n <= 9999
    ensures Decimal(Pad4(n)) == n
  {
    var r := Pad4(n);
    assert r[..3][..2][..1][..0] == [];
    assert Decimal(r[..1]) == n / 1000 by { assert r[..1][..0] == []; }
    assert Decimal(r[..2]) == n / 100 by { assert r[..2][..1] == r[..1]; }
    assert Decimal(r[..3]) == n / 10 by { assert r[..3][..2] == r[..2]; }
    assert r[..4][..3] == r[..3];
  }

  /** `now.strftime("%Y%m%d_%H%M%S")`. */
  function Timestamp(t: DateTime): (r: string)
    ensures |r| == 15 && r[8] == '_'
    ensures forall i :: 0 <= i < 15 && i != 8 ==> IsDigit(r[i])
  {
    Pad4(t.year) + Pad2(t.month) + Pad2(t.day) + "_" + Pad2(t.hour) + Pad2(t.minute) + Pad2(t.second)
  }

  /** Each field of the time can be read back out of its timestamp. */
  lemma TimestampFields(t: DateTime)
    ensures var r := Timestamp(t);
      && Decimal(r[..4]) == t.year && Decimal(r[4..6]) == t.month && Decimal(r[6..8]) == t.day
      && Decimal(r[9..11]) == t.hour && Decimal(r[11..13]) == t.minute && Decimal(r[13..15]) == t.second
  {
    var r := Timestamp(t);
    assert r[..4] == Pad4(t.year) && r[4..6] == Pad2(t.month) && r[6..8] == Pad2(t.day);
    assert r[9..11] == Pad2(t.hour) && r[11..13] == Pad2(t.minute) && r[13..15] == Pad2(t.second);
    Pad4Value(t.year);
    Pad2Value(t.month);
    Pad2Value(t.day);
    Pad2Value(t.hour);
    Pad2Value(t.minute);
    Pad2Value(t.second);
  }

  /** Two times with the same timestamp are the same time, to the second. */
  lemma TimestampInjective(t1: DateTime, t2: DateTime)
    requires Timestamp(t1) == Timestamp(t2)
    ensures t1 == t2
  {
    TimestampFields(t1);
    TimestampFields(t2);
  }

  /** `now.strftime("%Y-%m-%d %H:%M:%S")`. */
  function GenerationDate(t: DateTime): (r: string)
    ensures |r| == 19 && r[4] == '-' && r[7] == '-' && r[10] == ' ' && r[13] == ':' && r[16] == ':'
  {
    Pad4(t.year) + "-" + Pad2(t.month) + "-" + Pad2(t.day) + " "
    + Pad2(t.hour) + ":" + Pad2(t.minute) + ":" + Pad2(t.second)
  }

  /** Each field of the time can be read back out of the generation date. */
  lemma GenerationDateFields(t: DateTime)
    ensures var r := GenerationDate(t);
      && Decimal(r[..4]) == t.year && Decimal(r[5..7]) == t.month && Decimal(r[8..10]) == t.day
      && Decimal(r[11..13]) == t.hour && Decimal(r[14..16]) == t.minute && Decimal(r[17..19]) == t.second
  {
    var r := GenerationDate(t);
    assert r[..4] == Pad4(t.year) && r[5..7] == Pad2(t.month) && r[8..10] == Pad2(t.day);
    assert r[11..13] == Pad2(t.hour) && r[14..16] == Pad2(t.minute) && r[17..19] == Pad2(t.second);
    Pad4Value(t.year);
    Pad2Value(t.month);
    Pad2Value(t.day);
    Pad2Value(t.hour);
    Pad2Value(t.minute);
    Pad2Value(t.second);
  }

  /** The dataset label: the file's stem with `_` and `-` turned into spaces, title-cased. */
  function DatasetLabel(csvPath: string): (r: string) {
    Title(ReplaceChar(ReplaceChar(Stem(csvPath), '_', ' '), '-', ' '))
  }

  /** One character of the label, against the same character of the stem. */
  lemma DatasetLabelAt(csvPath: string, i: nat)
    requires i < |Stem(csvPath)|
    ensures var stem := Stem(csvPath); var r := DatasetLabel(csvPath);
      && i < |r|
      && r[i] != '_' && r[i] != '-'
      && LowerChar(r[i]) == (if stem[i] == '_' || stem[i] == '-' then ' ' else LowerChar(stem[i]))
      && (IsAsciiLetter(stem[i]) ==> (IsAsciiUpper(r[i]) <==> i == 0 || !IsAsciiLetter(stem[i - 1])))
  {
    var stem := Stem(csvPath);
    var spaced := ReplaceChar(ReplaceChar(stem, '_', ' '), '-', ' ');
    TitleAt(spaced, i);
    if i > 0 {
      assert spaced[i - 1] == (if stem[i - 1] == '_' || stem[i - 1] == '-' then ' ' else stem[i - 1]);
    }
    assert spaced[i] == (if stem[i] == '_' || stem[i] == '-' then ' ' else stem[i]);
  }

  /**
   * The label keeps the stem's length, has no `_` or `-` left, upper-cases exactly the letters
   * that start a word, and otherwise keeps the stem's characters up to case.
   */
  lemma DatasetLabelSpec(csvPath: string)
    ensures var stem := Stem(csvPath); var r := DatasetLabel(csvPath);
      && |r| == |stem|
      && (forall i :: 0 <= i < |r| ==> r[i] != '_' && r[i] != '-')
      && (forall i :: 0 <= i < |r| ==>
            LowerChar(r[i]) == (if stem[i] == '_' || stem[i] == '-' then ' ' else LowerChar(stem[i])))
      && (forall i: nat :: i < |r| ==> CapitalAt(stem, r, i))
  {
    var stem := Stem(csvPath);
    var spaced := ReplaceChar(ReplaceChar(stem, '_', ' '), '-', ' ');
    assert |DatasetLabel(csvPath)| == |spaced| == |stem|;
    DatasetLabelChars(csvPath);
    DatasetLabelCapitals(csvPath);
  }

  lemma DatasetLabelChars(csvPath: string)
    requires |DatasetLabel(csvPath)| == |Stem(csvPath)|
    ensures var stem := Stem(csvPath); var r := DatasetLabel(csvPath);
      && (forall i :: 0 <= i < |r| ==> r[i] != '_' && r[i] != '-')
      && (forall i :: 0 <= i < |r| ==>
            LowerChar(r[i]) == (if stem[i] == '_' || stem[i] == '-' then ' ' else LowerChar(stem[i])))
  {
    var stem := Stem(csvPath);
    var r := DatasetLabel(csvPath);
    forall i | 0 <= i < |r|
      ensures r[i] != '_' && r[i] != '-'
      ensures LowerChar(r[i]) == (if stem[i] == '_' || stem[i] == '-' then ' ' else LowerChar(stem[i]))
    {
      DatasetLabelAt(csvPath, i);
    }
  }

  /** The label's character `i` is upper-case exactly when it starts a word of the stem. */
  ghost predicate CapitalAt(stem: string, title: string, i: nat)
    requires i < |stem| && i < |title|
  {
    IsAsciiLetter(stem[i]) ==> (IsAsciiUpper(title[i]) <==> i == 0 || !IsAsciiLetter(stem[i - 1]))
  }

  lemma DatasetLabelCapitals(csvPath: string)
    requires |DatasetLabel(csvPath)| == |Stem(csvPath)|
    ensures forall i: nat :: i < |Stem(csvPath)| ==> CapitalAt(Stem(csvPath), DatasetLabel(csvPath), i)
  {
    forall i: nat | i < |Stem(csvPath)|
      ensures CapitalAt(Stem(csvPath), DatasetLabel(csvPath), i)
    {
      DatasetLabelAt(csvPath, i);
    }
  }

  const REPORT_PREFIX := "Jarvix_Report_"
  const REPORT_SUFFIX := ".pdf"

  /** `f"Jarvix_Report_{dataset_slug}_{timestamp}.pdf"`. */
  function ReportFilename(csvPath: string, now: DateTime): (r: string) {
    REPORT_PREFIX + Stem(csvPath) + "_" + Timestamp(now) + REPORT_SUFFIX
  }

  /** The stem and the timestamp can be read back out of a report's file name. */
  lemma ReportFilenameParts(csvPath: string, now: DateTime)
    ensures var r := ReportFilename(csvPath, now);
      && |r| == |Stem(csvPath)| + 34
      && r[..14] == REPORT_PREFIX && r[|r| - 4..] == REPORT_SUFFIX
      && r[14..|r| - 20] == Stem(csvPath)
      && r[|r| - 20] == '_'
      && r[|r| - 19..|r| - 4] == Timestamp(now)
  {
  }

  /** Two reports share a file name only if their datasets share the stem and they were made in the same second. */
  lemma ReportFilenameInjective(p1: string, t1: DateTime, p2: string, t2: DateTime)
    requires ReportFilename(p1, t1) == ReportFilename(p2, t2)
    ensures Stem(p1) == Stem(p2) && t1 == t2
  {
    ReportFilenameParts(p1, t1);
    ReportFilenameParts(p2, t2);
    TimestampInjective(t1, t2);
  }

  const RECOMMENDATIONS_KEY := "strategic_recommendations"

  /** The values `generate_pdf_report` renders its template with. */
  datatype TemplateVars = TemplateVars(
    reportTitle: string,
    customTitle: string,
    generationDate: string,
    fileName: string,
    filePath: string,
    strategicRecommendations: Value,
    analysisSummary: map<string, Value>,
    chartPaths: seq<string>)

  /**
   * The template variables: the recommendations are popped out of the summary (an empty list
   * when absent) and passed on their own; the summary keeps every other key.
   */
  function MakeTemplateVars(csvPath: string, summary: map<string, Value>, charts: seq<string>, now: DateTime)
    : (r: TemplateVars)
    ensures RECOMMENDATIONS_KEY !in r.analysisSummary
    ensures forall k :: k != RECOMMENDATIONS_KEY ==>
      (k in r.analysisSummary <==> k in summary) && (k in summary ==> r.analysisSummary[k] == summary[k])
    ensures r.strategicRecommendations ==
      if RECOMMENDATIONS_KEY in summary then summary[RECOMMENDATIONS_KEY] else JArray([])
    ensures r.fileName == Name(csvPath) && r.filePath == csvPath && r.chartPaths == charts
    ensures r.reportTitle == "Automated Analysis of " + r.fileName
    ensures r.customTitle == "Jarvix Insights " + MIDDLE_DOT + " " + DatasetLabel(csvPath)
    ensures r.generationDate == GenerationDate(now)
  {
    TemplateVars(
      reportTitle := "Automated Analysis of " + Name(csvPath),
      customTitle := "Jarvix Insights " + MIDDLE_DOT + " " + DatasetLabel(csvPath),
      generationDate := GenerationDate(now),
      fileName := Name(csvPath),
      filePath := csvPath,
      strategicRecommendations := Get(summary, RECOMMENDATIONS_KEY, JArray([])),
      analysisSummary := summary - {RECOMMENDATIONS_KEY},
      chartPaths := charts)
  }

  /** `OUTPUT_DIR`: the Desktop folder of the user's home. */
  function OutputDir(home: string): string {
    Join(home, "Desktop")
  }

  // ---------------------------------------------------------------------------------------
  // The pipeline (run_dynamic_analysis)

  /** How running one piece of generated code ended. */
  datatype ExecOutcome = ExecOk | ExecNameError(message: string) | ExecFailed(message: string)

  /** The two entries of `local_scope` the pipeline reads back; `None` when the code deleted it. */
  datatype Scope = Scope(chartPaths: Option<seq<string>>, summary: Option<map<string, Value>>)

  /** Why the pipeline gave up with its catch-all error. */
  datatype Failure =
    | FileMissing
    | LoadFailed
    | PlanFailed(reason: PlanError)
    | PlanNotAnObject
    | TemplateMissing
    | PdfFailed

  /** The outcome of one analysis, before it is rendered as the message the agent yields. */
  datatype AnalysisResult =
    | FeatureError(nameError: bool, detail: string)
    | VisualizationError(nameError: bool, detail: string)
    | NoCharts
    | Success(reportPath: string)
    | Critical(failure: Failure)

  /** What the foreign collaborators of one analysis do. */
  datatype AnalysisWorld = AnalysisWorld(
    loaded: bool,                                // pandas reads the file
    reply: Option<string>,                       // the model's reply text, `None` if the call fails
    parse: string -> Option<Value>,              // json.loads
    exec: (Value, Scope) -> (ExecOutcome, Scope), // exec of generated code against local_scope
    templateFound: bool,
    pdfWritten: bool,
    now: DateTime,
    traceback: Failure -> string)                // the formatted traceback of a catch-all error

  function InitialScope(recommendations: Value): Scope {
    Scope(Some([]), Some(map[RECOMMENDATIONS_KEY := recommendations]))
  }

  /**
   * `generate_pdf_report`: the report's path and the template variables, unless the template
   * is missing or the PDF cannot be written.
   */
  function GeneratePdfReport(csvPath: string, summary: map<string, Value>, charts: seq<string>,
                             home: string, aw: AnalysisWorld): (r: Result<(string, TemplateVars), Failure>)
    ensures r.Err? <==> !aw.templateFound || !aw.pdfWritten
    ensures !aw.templateFound ==> r == Err(TemplateMissing)
    ensures r.Ok? ==> Name(r.value.0) == ReportFilename(csvPath, aw.now)
    ensures r.Ok? ==> r.value == (Join(OutputDir(home), ReportFilename(csvPath, aw.now)),
                                  MakeTemplateVars(csvPath, summary, charts, aw.now))
  {
    if !aw.templateFound then Err(TemplateMissing)
    else
      var vars := MakeTemplateVars(csvPath, summary, charts, aw.now);
      var name := ReportFilename(csvPath, aw.now);
      if !aw.pdfWritten then Err(PdfFailed)
      else
        ReportNameIsPlain(csvPath, aw.now);
        NameOfJoin(OutputDir(home), name);
        Ok((Join(OutputDir(home), name), vars))
  }

  lemma ReportNameIsPlain(csvPath: string, now: DateTime)
    ensures var n := ReportFilename(csvPath, now); n != [] && n != "." && '/' !in n
  {
    var n := ReportFilename(csvPath, now);
    var stem := Stem(csvPath);
    var ts := Timestamp(now);
    assert n == REPORT_PREFIX + stem + "_" + ts + REPORT_SUFFIX;
    forall i | 0 <= i < |n| ensures n[i] != '/' {
      if i < 14 {
        assert n[i] == REPORT_PREFIX[i];
      } else if i < 14 + |stem| {
        assert n[i] == stem[i - 14];
        assert stem[i - 14] in Name(csvPath);
      } else if i == 14 + |stem| {
      } else if i < 30 + |stem| {
        assert n[i] == ts[i - 15 - |stem|];
      } else {
        assert n[i] == REPORT_SUFFIX[i - 30 - |stem|];
      }
    }
  }

  /** Finding the file, loading it and obtaining a plan that is a JSON object: the plan's fields. */
  function PlanStage(files: set<string>, filePath: string, aw: AnalysisWorld)
    : (r: Result<map<string, Value>, AnalysisResult>)
    ensures r.Err? ==> r.error.Critical?
    ensures r.Ok? <==> (filePath in files && aw.loaded && GetAiPlan(aw.reply, aw.parse).Ok?
                        && GetAiPlan(aw.reply, aw.parse).value.JObject?)
    ensures r.Ok? ==> r.value == GetAiPlan(aw.reply, aw.parse).value.fields
  {
    if filePath !in files then Err(Critical(FileMissing))
    else if !aw.loaded then Err(Critical(LoadFailed))
    else
      match GetAiPlan(aw.reply, aw.parse)
      case Err(e) => Err(Critical(PlanFailed(e)))
      case Ok(plan) => if !plan.JObject? then Err(Critical(PlanNotAnObject)) else Ok(plan.fields)
  }

  /** The feature-engineering code, run against the initial scope when it is truthy. */
  function FeatureStage(fields: map<string, Value>, aw: AnalysisWorld): (r: Result<Scope, AnalysisResult>)
    ensures r.Err? ==> r.error.FeatureError? && Truthy(Get(fields, "feature_engineering_code", JString("")))
    ensures !Truthy(Get(fields, "feature_engineering_code", JString(""))) ==>
      r == Ok(InitialScope(Get(fields, RECOMMENDATIONS_KEY, JArray([]))))
  {
    var code := Get(fields, "feature_engineering_code", JString(""));
    var scope := InitialScope(Get(fields, RECOMMENDATIONS_KEY, JArray([])));
    if !Truthy(code) then Ok(scope)
    else
      match aw.exec(code, scope)
      case (ExecOk, after) => Ok(after)
      case (ExecNameError(e), _) => Err(FeatureError(true, e))
      case (ExecFailed(e), _) => Err(FeatureError(false, e))
  }

  /** The visualization code, run when it is truthy, with `chart_paths` defaulted to an empty list. */
  function VisualizationStage(fields: map<string, Value>, scope: Scope, aw: AnalysisWorld)
    : (r: Result<Scope, AnalysisResult>)
    ensures r.Err? ==> r.error.VisualizationError? && Truthy(Get(fields, "visualization_code", JString("")))
    ensures !Truthy(Get(fields, "visualization_code", JString(""))) ==> r == Ok(scope)
  {
    var code := Get(fields, "visualization_code", JString(""));
    if !Truthy(code) then Ok(scope)
    else
      match aw.exec(code, scope.(chartPaths := Some(scope.chartPaths.GetOr([]))))
      case (ExecOk, after) => Ok(after)
      case (ExecNameError(e), _) => Err(VisualizationError(true, e))
      case (ExecFailed(e), _) => Err(VisualizationError(false, e))
  }

  /**
   * Present feature code runs against the initial scope: the scope it leaves when it succeeds,
   * otherwise the feature error carrying the exception's kind and text.
   */
  lemma FeatureStageExec(fields: map<string, Value>, aw: AnalysisWorld)
    requires Truthy(Get(fields, "feature_engineering_code", JString("")))
    ensures var r := FeatureStage(fields, aw);
      var (outcome, after) := aw.exec(Get(fields, "feature_engineering_code", JString("")),
                                      InitialScope(Get(fields, RECOMMENDATIONS_KEY, JArray([]))));
      && (outcome.ExecOk? ==> r == Ok(after))
      && (!outcome.ExecOk? ==> r == Err(FeatureError(outcome.ExecNameError?, outcome.message)))
  {
  }

  /**
   * Present visualization code runs with `chart_paths` defaulted: the scope it leaves when it
   * succeeds, otherwise the visualization error carrying the exception's kind and text.
   */
  lemma VisualizationStageExec(fields: map<string, Value>, scope: Scope, aw: AnalysisWorld)
    requires Truthy(Get(fields, "visualization_code", JString("")))
    ensures var r := VisualizationStage(fields, scope, aw);
      var (outcome, after) := aw.exec(Get(fields, "visualization_code", JString("")),
                                      scope.(chartPaths := Some(scope.chartPaths.GetOr([]))));
      && (outcome.ExecOk? ==> r == Ok(after))
      && (!outcome.ExecOk? ==> r == Err(VisualizationError(outcome.ExecNameError?, outcome.message)))
  {
  }

  /** With charts drawn, the report: its path and the charts to clean up. */
  function ReportStage(filePath: string, scope: Scope, home: string, aw: AnalysisWorld)
    : (r: Result<(string, seq<string>), AnalysisResult>)
    ensures r.Err? ==> r.error.NoCharts? || r.error.Critical?
    ensures r.Ok? <==> scope.chartPaths.GetOr([]) != [] && aw.templateFound && aw.pdfWritten
    ensures r.Ok? ==> (r.value.1 == scope.chartPaths.GetOr([])
      && Name(r.value.0) == ReportFilename(filePath, aw.now))
    ensures scope.chartPaths.GetOr([]) == [] ==> r == Err(NoCharts)
    ensures scope.chartPaths.GetOr([]) != [] && r.Err? ==> r.error.Critical?
    ensures r.Ok? ==> r.value.0 == Join(OutputDir(home), ReportFilename(filePath, aw.now))
  {
    var charts := scope.chartPaths.GetOr([]);
    if charts == [] then Err(NoCharts)
    else
      match GeneratePdfReport(filePath, scope.summary.GetOr(map[]), charts, home, aw)
      case Err(f) => Err(Critical(f))
      case Ok((reportPath, _)) => Ok((reportPath, charts))
  }

  /**
   * Every step of `run_dynamic_analysis` up to the report: either the result it returns early
   * or the report's path together with the chart paths to clean up.
   */
  function AnalysisSteps(files: set<string>, filePath: string, home: string, aw: AnalysisWorld)
    : (r: Result<(string, seq<string>), AnalysisResult>)
  {
    match PlanStage(files, filePath, aw)
    case Err(early) => Err(early)
    case Ok(fields) =>
      match FeatureStage(fields, aw)
      case Err(early) => Err(early)
      case Ok(scope) =>
        match VisualizationStage(fields, scope, aw)
        case Err(early) => Err(early)
        case Ok(scope) => ReportStage(filePath, scope, home, aw)
  }

  /** The set of paths a sequence holds. */
  function Elements(s: seq<string>): set<string> {
    set x | x in s
  }

  /**
   * `run_dynamic_analysis` as a whole: its result, and the files that exist afterwards (the
   * report written, then the chart images removed).
   */
  function AnalysisOutcome(files: set<string>, filePath: string, home: string, aw: AnalysisWorld)
    : (r: (AnalysisResult, set<string>))
    ensures !r.0.Success? ==> r.1 == files
    ensures filePath !in files ==> r.0 == Critical(FileMissing)
    ensures r.0.Success? ==> Name(r.0.reportPath) == ReportFilename(filePath, aw.now)
  {
    match AnalysisSteps(files, filePath, home, aw)
    case Err(early) => (early, files)
    case Ok((reportPath, charts)) => (Success(reportPath), (files + {reportPath}) - Elements(charts))
  }

  /** The pipeline, ending with the clean-up of the chart images. */
  method RunDynamicAnalysis(files: set<string>, filePath: string, home: string, aw: AnalysisWorld)
    returns (r: AnalysisResult, after: set<string>)
    ensures (r, after) == AnalysisOutcome(files, filePath, home, aw)
  {
    match AnalysisSteps(files, filePath, home, aw) {
      case Err(early) =>
        return early, files;
      case Ok((reportPath, charts)) =>
        after := RemoveCharts(files + {reportPath}, charts);
        r := Success(reportPath);
    }
  }

  /** The clean-up loop after a written report: every chart path that exists is removed. */
  method RemoveCharts(files: set<string>, charts: seq<string>) returns (after: set<string>)
    ensures after == files - Elements(charts)
  {
    after := files;
    for i := 0 to |charts|
      invariant after == files - Elements(charts[..i])
    {
      assert Elements(charts[..i + 1]) == Elements(charts[..i]) + {charts[i]} by {
        assert charts[..i + 1] == charts[..i] + [charts[i]];
      }
      if charts[i] in after {
        after := after - {charts[i]};
      }
    }
    assert charts[..|charts|] == charts;
  }

  /** With neither piece of code present, no chart exists and no report is generated. */
  lemma NoCodeNoCharts(files: set<string>, filePath: string, home: string, aw: AnalysisWorld)
    requires filePath in files && aw.loaded
    requires GetAiPlan(aw.reply, aw.parse).Ok? && GetAiPlan(aw.reply, aw.parse).value.JObject?
    requires var fields := GetAiPlan(aw.reply, aw.parse).value.fields;
      && !Truthy(Get(fields, "feature_engineering_code", JString("")))
      && !Truthy(Get(fields, "visualization_code", JString("")))
    ensures AnalysisOutcome(files, filePath, home, aw) == (NoCharts, files)
  {
  }

  /** A failing feature-engineering step ends the pipeline before the visualization code runs. */
  lemma FeatureFailureStops(files: set<string>, filePath: string, home: string, aw: AnalysisWorld)
    requires filePath in files && aw.loaded
    requires GetAiPlan(aw.reply, aw.parse).Ok? && GetAiPlan(aw.reply, aw.parse).value.JObject?
    requires var fields := GetAiPlan(aw.reply, aw.parse).value.fields;
      var code := Get(fields, "feature_engineering_code", JString(""));
      && Truthy(code)
      && !aw.exec(code, InitialScope(Get(fields, RECOMMENDATIONS_KEY, JArray([])))).0.ExecOk?
    ensures var (r, after) := AnalysisOutcome(files, filePath, home, aw);
      r.FeatureError? && after == files
  {
  }

  /** Code that ran without drawing a chart gives the warning, and no report is generated. */
  lemma NoChartsWarns(files: set<string>, filePath: string, home: string, aw: AnalysisWorld)
    requires PlanStage(files, filePath, aw).Ok?
    requires var fields := PlanStage(files, filePath, aw).value;
      && FeatureStage(fields, aw).Ok?
      && VisualizationStage(fields, FeatureStage(fields, aw).value, aw).Ok?
      && VisualizationStage(fields, FeatureStage(fields, aw).value, aw).value.chartPaths.GetOr([]) == []
    ensures AnalysisOutcome(files, filePath, home, aw) == (NoCharts, files)
  {
  }

  /** A failing visualization step returns its error, and no report is generated. */
  lemma VisualizationFailureStops(files: set<string>, filePath: string, home: string, aw: AnalysisWorld)
    requires PlanStage(files, filePath, aw).Ok?
    requires var fields := PlanStage(files, filePath, aw).value;
      && FeatureStage(fields, aw).Ok?
      && var scope := FeatureStage(fields, aw).value;
         var code := Get(fields, "visualization_code", JString(""));
         && Truthy(code)
         && !aw.exec(code, scope.(chartPaths := Some(scope.chartPaths.GetOr([])))).0.ExecOk?
    ensures var (r, after) := AnalysisOutcome(files, filePath, home, aw);
      var fields := PlanStage(files, filePath, aw).value;
      var scope := FeatureStage(fields, aw).value;
      var outcome := aw.exec(Get(fields, "visualization_code", JString("")),
                             scope.(chartPaths := Some(scope.chartPaths.GetOr([])))).0;
      && r == VisualizationError(outcome.ExecNameError?, outcome.message)
      && after == files
  {
  }

  /**
   * The early exits, in order: each kind of result arises only once every earlier step has
   * passed, and the catch-all error is the only result for a missing file or plan.
   */
  lemma AnalysisResultCauses(files: set<string>, filePath: string, home: string, aw: AnalysisWorld)
    ensures var (r, _) := AnalysisOutcome(files, filePath, home, aw);
      && (!r.Critical? ==> filePath in files && aw.loaded && GetAiPlan(aw.reply, aw.parse).Ok?
                           && GetAiPlan(aw.reply, aw.parse).value.JObject?)
      && (r.FeatureError? ==>
            Truthy(Get(GetAiPlan(aw.reply, aw.parse).value.fields, "feature_engineering_code", JString(""))))
      && (r.VisualizationError? ==>
            Truthy(Get(GetAiPlan(aw.reply, aw.parse).value.fields, "visualization_code", JString(""))))
      && (r.Success? ==> aw.templateFound && aw.pdfWritten)
  {
  }

  /**
   * After a successful analysis the report exists in the Desktop folder (unless it is itself a
   * chart path), no chart image does, every other file is kept, and no file but the report appears.
   */
  lemma SuccessCleansUp(files: set<string>, filePath: string, home: string, aw: AnalysisWorld)
    requires AnalysisOutcome(files, filePath, home, aw).0.Success?
    ensures var (r, after) := AnalysisOutcome(files, filePath, home, aw);
      var charts := AnalysisSteps(files, filePath, home, aw).value.1;
      && charts != []
      && (forall c :: c in charts ==> c !in after)
      && (r.reportPath !in charts ==> r.reportPath in after)
      && (forall f :: f in files && f !in charts ==> f in after)
      && after <= files + {r.reportPath}
      && r.reportPath == Join(OutputDir(home), ReportFilename(filePath, aw.now))
  {
  }

  // ---------------------------------------------------------------------------------------
  // The message the agent yields for the result

  /**
   * The marks the messages open with, as the characters the module's text holds: the UTF-8
   * bytes of the emojis and of the middle dot, each byte read as a Mac Roman character.
   */
  const CROSS := "\U{201A}\U{F9}\U{E5}"                             // for U+274C
  const WARNING_SIGN := "\U{201A}\U{F6}\U{2020}\U{D4}\U{220F}\U{E8}" // for U+26A0 U+FE0F
  const THUMBS_UP := "\U{F8FF}\U{FC}\U{EB}\U{E7}"                   // for U+1F44D
  const MIDDLE_DOT := "\U{AC}\U{2211}"                                  // for U+00B7

  /** The mark of each kind of result. */
  function Mark(r: AnalysisResult): (m: string)
    ensures |m| >= 3
    ensures m[0] == (if r.Success? then '\U{F8FF}' else '\U{201A}')
    ensures !r.Success? ==> (m[1] == '\U{F6}' <==> r.NoCharts?)
  {
    match r
    case NoCharts => WARNING_SIGN
    case Success(_) => THUMBS_UP
    case _ => CROSS
  }

  /** The bold label that follows the mark. */
  function Label(r: AnalysisResult): string {
    match r
    case FeatureError(_, _) => " **Feature Engineering Error:** "
    case VisualizationError(_, _) => " **Visualization Error:** "
    case NoCharts => " **Warning:** "
    case Success(_) => " **Success:** "
    case Critical(_) => " **Data Science Agent Error:** "
  }

  /** The heading a result message opens with. */
  function Headline(r: AnalysisResult): string {
    Mark(r) + Label(r)
  }

  /** What follows the heading. */
  function Detail(r: AnalysisResult, traceback: Failure -> string): string {
    match r
    case FeatureError(true, e) =>
      "NameError in feature engineering code: " + e
      + (". The code tried to use a variable that doesn't exist."
         + "\n\nPlease ensure the code only uses variables that are already defined (df, pd, np, os).")
    case FeatureError(false, e) => "Error in feature engineering code: " + e
    case VisualizationError(true, e) =>
      "NameError in visualization code: " + e
      + (". The code tried to use a variable that doesn't exist."
         + "\n\nPlease ensure the code only uses variables that are already defined "
         + "(df, pd, np, plt, sns, os, TEMP_CHART_DIR, chart_paths).")
    case VisualizationError(false, e) => "Error in visualization code: " + e
    case NoCharts => "The AI-generated plan did not produce any valid chart files."
    case Success(path) => "AI-driven analysis is complete. Strategic report saved to: `" + path + "`"
    case Critical(f) => "A critical error occurred.\n<pre><code>" + traceback(f) + "</code></pre>"
  }

  /** The message `run_dynamic_analysis` returns for a result. */
  function ResultMessage(r: AnalysisResult, traceback: Failure -> string): (m: string) {
    Headline(r) + Detail(r, traceback)
  }

  /** Each heading opens with the characters of its mark. */
  lemma HeadlineLead(r: AnalysisResult)
    ensures |Headline(r)| >= 3
    ensures Headline(r)[0] == (if r.Success? then '\U{F8FF}' else '\U{201A}')
    ensures !r.Success? ==> (Headline(r)[1] == '\U{F6}' <==> r.NoCharts?)
  {
    ConcatLead(Mark(r), Label(r), 0);
    ConcatLead(Mark(r), Label(r), 1);
  }

  /**
   * Every result message opens with the mark of its kind: only success opens with the thumbs-up
   * mark, every failure with the first character of the cross and of the warning sign, and of
   * those only the missing-charts warning goes on with the warning sign's second character.
   */
  lemma ResultMessageLead(r: AnalysisResult, traceback: Failure -> string)
    ensures var m := ResultMessage(r, traceback);
      && |m| >= 3
      && (m[0] == '\U{F8FF}' <==> r.Success?) && (m[0] == '\U{201A}' <==> !r.Success?)
      && (!r.Success? ==> (m[1] == '\U{F6}' <==> r.NoCharts?))
  {
    HeadlineLead(r);
    ConcatLead(Headline(r), Detail(r, traceback), 0);
    ConcatLead(Headline(r), Detail(r, traceback), 1);
  }

  /** The message carries the report's path, the error's text or the traceback. */
  lemma ResultMessageCarries(r: AnalysisResult, traceback: Failure -> string)
    ensures var m := ResultMessage(r, traceback);
      && (r.Success? ==> Contains(m, r.reportPath))
      && (r.FeatureError? ==> Contains(m, r.detail))
      && (r.VisualizationError? ==> Contains(m, r.detail))
      && (r.Critical? ==> Contains(m, traceback(r.failure)))
  {
    var h := Headline(r);
    match r {
      case FeatureError(true, e) =>
        ContainsMiddle(h, "NameError in feature engineering code: ", e,
          ". The code tried to use a variable that doesn't exist."
          + "\n\nPlease ensure the code only uses variables that are already defined (df, pd, np, os).");
      case FeatureError(false, e) =>
        ContainsLast(h, "Error in feature engineering code: ", e);
      case VisualizationError(true, e) =>
        ContainsMiddle(h, "NameError in visualization code: ", e,
          ". The code tried to use a variable that doesn't exist."
          + "\n\nPlease ensure the code only uses variables that are already defined "
          + "(df, pd, np, plt, sns, os, TEMP_CHART_DIR, chart_paths).");
      case VisualizationError(false, e) =>
        ContainsLast(h, "Error in visualization code: ", e);
      case NoCharts =>
      case Success(path) =>
        ContainsMiddle(h, "AI-driven analysis is complete. Strategic report saved to: `", path, "`");
      case Critical(f) =>
        ContainsMiddle(h, "A critical error occurred.\n<pre><code>", traceback(f), "</code></pre>");
    }
  }

  lemma ContainsMiddle(h: string, a: string, b: string, c: string)
    ensures Contains(h + (a + b + c), b)
  {
    var s := h + (a + b + c);
    assert s[|h| + |a|..|h| + |a| + |b|] == b;
    assert OccursAt(s, b, |h| + |a|);
  }

  lemma ContainsLast(h: string, a: string, b: string)
    ensures Contains(h + (a + b), b)
  {
    var s := h + (a + b);
    assert s[|h| + |a|..] == b;
    assert OccursAt(s, b, |h| + |a|);
  }

  lemma ConcatLead(a: string, b: string, i: nat)
    requires i < |a|
    ensures i < |a + b| && (a + b)[i] == a[i]
  {
  }
}

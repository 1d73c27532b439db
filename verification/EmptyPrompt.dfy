/** Recognising an empty prompt on an agent's screen. An answer of true must be trusted: text
    is sent to the agent on it. */
module EmptyPrompt {
  import opened Basics
  import opened PromptStyle

  datatype Kind = Codex | Claude | OtherKind

  /** The character classes and footer patterns of the recogniser; footers are known texts. */
  datatype Rules = Rules(isSpace: char -> bool, isFooter: (Kind, string) -> bool)

  const SIZE_LIMIT := 0x20_0000

  const MARGIN: char := '│'

  predicate IsCorner(c: char) {
    c in "╭╮╰╯┌┐└┘"
  }

  predicate IsRule(c: char) {
    c == '─' || c == '━'
  }

  predicate IsBox(c: char) {
    c == MARGIN || IsRule(c) || IsCorner(c)
  }

  predicate IsMarker(kind: Kind, c: char) {
    match kind
    case Codex => c == '›' || c == '»'
    case Claude => c == '❯'
    case OtherKind => false
  }

  predicate StartsBlock(c: char) {
    c in "•◦■✗✓─"
  }

  // ---------- Parts of a line ----------

  function SkipLeft(rules: Rules, line: Line): (k: nat)
    ensures k <= |line| && forall i :: 0 <= i < k ==> rules.isSpace(line[i].c)
    ensures k < |line| ==> !rules.isSpace(line[k].c)
  {
    if line != [] && rules.isSpace(line[0].c) then 1 + SkipLeft(rules, line[1..]) else 0
  }

  function SkipRight(rules: Rules, line: Line): (k: nat)
    ensures k <= |line| && forall i :: k <= i < |line| ==> rules.isSpace(line[i].c)
    ensures k > 0 ==> !rules.isSpace(line[k - 1].c)
  {
    if line != [] && rules.isSpace(line[|line| - 1].c) then SkipRight(rules, line[..|line| - 1]) else |line|
  }

  function Trim(rules: Rules, line: Line): Line {
    var rest := line[SkipLeft(rules, line)..];
    rest[..SkipRight(rules, rest)]
  }

  function StripMargins(line: Line): Line {
    var right := if line != [] && line[0].c == MARGIN then line[1..] else line;
    if right != [] && right[|right| - 1].c == MARGIN then right[..|right| - 1] else right
  }

  function StripFrame(rules: Rules, line: Line): Line {
    Trim(rules, StripMargins(Trim(rules, line)))
  }

  function TextOf(line: Line): string {
    seq(|line|, i requires 0 <= i < |line| => line[i].c)
  }

  predicate AllMuted(rules: Rules, line: Line) {
    line != [] && forall i :: 0 <= i < |line| && !rules.isSpace(line[i].c) ==> line[i].muted
  }

  /** What is left of the marker's line without the marker, if it is one. */
  function Content(rules: Rules, kind: Kind, line: Line): Line {
    if kind == Claude then StripFrame(rules, Trim(rules, line)) else Trim(rules, line)
  }

  function Body(rules: Rules, kind: Kind, line: Line): Option<Line> {
    var content := Content(rules, kind, line);
    if content == [] || !IsMarker(kind, content[0].c) then None
    else if |content| > 1 && !rules.isSpace(content[1].c) then None
    else Some(Trim(rules, content[1..]))
  }

  predicate IsPlaceholder(kind: Kind, text: string) {
    match kind
    case Claude => text == "Ask Claude"
    case _ =>
      || text == "Use /skills to list available skills"
      || text == "Find and fix a bug in @filename"
      || text == "Explain this codebase"
  }

  predicate IsEmptyBody(rules: Rules, kind: Kind, body: Line) {
    body == [] || (AllMuted(rules, body) && IsPlaceholder(kind, TextOf(body)))
  }

  predicate IsFooter(rules: Rules, kind: Kind, line: Line) {
    AllMuted(rules, Trim(rules, line)) && rules.isFooter(kind, TextOf(Trim(rules, line)))
  }

  predicate IsQuiet(rules: Rules, kind: Kind, line: Line) {
    Trim(rules, line) == [] || IsFooter(rules, kind, line)
  }

  function RuleLength(line: Line): nat {
    if line == [] then 0 else (if IsRule(line[0].c) then 1 else 0) + RuleLength(line[1..])
  }

  predicate IsHorizontalRule(rules: Rules, line: Line) {
    var t := Trim(rules, line);
    (forall i :: 0 <= i < |t| ==> IsRule(t[i].c) || IsCorner(t[i].c)) && RuleLength(t) >= 3
  }

  function BorderTest(rules: Rules): Line -> bool {
    line => IsHorizontalRule(rules, line)
  }

  predicate StartsBlockLine(rules: Rules, line: Line) {
    Trim(rules, line) != [] && StartsBlock(Trim(rules, line)[0].c)
  }

  // ---------- Scans ----------

  /** The last line before `n` that satisfies `p`. */
  function LastBefore(lines: seq<Line>, n: nat, p: Line -> bool): (k: Option<nat>)
    requires n <= |lines|
    ensures k.Some? ==> k.value < n && p(lines[k.value]) && forall i :: k.value < i < n ==> !p(lines[i])
    ensures k.None? ==> forall i :: 0 <= i < n ==> !p(lines[i])
  {
    if n == 0 then None else if p(lines[n - 1]) then Some(n - 1) else LastBefore(lines, n - 1, p)
  }

  function FirstFrom(lines: seq<Line>, n: nat, p: Line -> bool): (k: Option<nat>)
    requires n <= |lines|
    ensures k.Some? ==> n <= k.value < |lines| && p(lines[k.value]) && forall i :: n <= i < k.value ==> !p(lines[i])
    ensures k.None? ==> forall i :: n <= i < |lines| ==> !p(lines[i])
    decreases |lines| - n
  {
    if n == |lines| then None else if p(lines[n]) then Some(n) else FirstFrom(lines, n + 1, p)
  }

  /** No other prompt between the current one and the block before it. */
  predicate NoEarlierPrompt(rules: Rules, kind: Kind, lines: seq<Line>, current: nat)
    requires current <= |lines|
  {
    current == 0 || StartsBlockLine(rules, lines[current - 1]) ||
    (Body(rules, kind, lines[current - 1]).None? && NoEarlierPrompt(rules, kind, lines, current - 1))
  }

  predicate AllQuiet(rules: Rules, kind: Kind, lines: seq<Line>, from: nat)
    requires from <= |lines|
  {
    forall i :: from <= i < |lines| ==> IsQuiet(rules, kind, lines[i])
  }

  /** Between the borders only the marker's line may show anything. */
  predicate BoxIsEmpty(rules: Rules, lines: seq<Line>, upper: nat, current: nat, lower: nat)
    requires lower <= |lines|
  {
    forall i :: upper < i < lower && i != current ==> StripFrame(rules, lines[i]) == []
  }

  predicate IsEmptyClaude(rules: Rules, lines: seq<Line>, current: nat)
    requires current < |lines|
  {
    var isRule := BorderTest(rules);
    var upper := LastBefore(lines, current, isRule);
    var lower := FirstFrom(lines, current + 1, isRule);
    if upper.Some? && lower.Some? then
      && BoxIsEmpty(rules, lines, upper.value, current, lower.value)
      && AllQuiet(rules, Claude, lines, lower.value + 1)
    else
      && MARGIN !in TextOf(lines[current]) && upper.None? && lower.None?
      && NoEarlierPrompt(rules, Claude, lines, current)
      && AllQuiet(rules, Claude, lines, current + 1)
  }

  predicate PromptIsEmpty(rules: Rules, kind: Kind, size: nat, lines: seq<Line>) {
    && kind != OtherKind && size <= SIZE_LIMIT
    && var current := LastBefore(lines, |lines|, line => Body(rules, kind, line).Some?);
      && current.Some? && IsEmptyBody(rules, kind, Body(rules, kind, lines[current.value]).value)
      && if kind == Claude then IsEmptyClaude(rules, lines, current.value)
         else NoEarlierPrompt(rules, kind, lines, current.value) && AllQuiet(rules, kind, lines, current.value + 1)
  }

  // ---------- Soundness ----------

  /** The cell leaves no doubt: it is blank, muted or part of a box. */
  predicate IsHarmless(rules: Rules, cell: Cell) {
    rules.isSpace(cell.c) || cell.muted || IsBox(cell.c)
  }

  /** Trimming cuts only blanks off: `line` is blanks, the trimmed part, and blanks. */
  lemma TrimCuts(rules: Rules, line: Line) returns (lo: nat, hi: nat)
    ensures lo <= hi <= |line| && Trim(rules, line) == line[lo..hi]
    ensures forall i :: 0 <= i < |line| && !(lo <= i < hi) ==> rules.isSpace(line[i].c)
  {
    lo := SkipLeft(rules, line);
    var rest := line[lo..];
    var n := SkipRight(rules, rest);
    hi := lo + n;
    forall i | hi <= i < |line| ensures rules.isSpace(line[i].c) {
      assert rest[i - lo] == line[i];
    }
  }

  lemma StripCuts(line: Line) returns (lo: nat, hi: nat)
    ensures lo <= hi <= |line| && StripMargins(line) == line[lo..hi]
    ensures forall i :: 0 <= i < |line| && !(lo <= i < hi) ==> line[i].c == MARGIN
  {
    lo := if line != [] && line[0].c == MARGIN then 1 else 0;
    var right := line[lo..];
    hi := if right != [] && right[|right| - 1].c == MARGIN then |line| - 1 else |line|;
    assert right == if line != [] && line[0].c == MARGIN then line[1..] else line;
    assert right != [] ==> right[|right| - 1] == line[|line| - 1];
  }

  /** Every part that the recogniser looks at is a stretch of the line with harmless cells on
      both sides. */
  ghost predicate IsStretch(rules: Rules, line: Line, part: Line, lo: nat) {
    && lo + |part| <= |line| && part == line[lo..lo + |part|]
    && forall i :: 0 <= i < |line| && !(lo <= i < lo + |part|) ==> IsHarmless(rules, line[i])
  }

  lemma StretchChains(rules: Rules, line: Line, part: Line, lo: nat, inner: Line, at: nat)
    requires IsStretch(rules, line, part, lo) && IsStretch(rules, part, inner, at)
    ensures IsStretch(rules, line, inner, lo + at)
  {
    var end := lo + at + |inner|;
    forall k | 0 <= k < |inner| ensures inner[k] == line[lo + at..end][k] {
      assert inner[k] == part[at + k] == line[lo + at + k];
    }
    assert inner == line[lo + at..end];
    forall i | 0 <= i < |line| && !(lo + at <= i < lo + at + |inner|) ensures IsHarmless(rules, line[i]) {
      if lo <= i < lo + |part| {
        assert part[i - lo] == line[i];
      }
    }
  }

  lemma TrimStretch(rules: Rules, line: Line) returns (lo: nat)
    ensures IsStretch(rules, line, Trim(rules, line), lo)
  {
    var hi;
    lo, hi := TrimCuts(rules, line);
  }

  lemma StripStretch(rules: Rules, line: Line) returns (lo: nat)
    ensures IsStretch(rules, line, StripMargins(line), lo)
  {
    var hi;
    lo, hi := StripCuts(line);
  }

  lemma FrameStretch(rules: Rules, line: Line) returns (lo: nat)
    ensures IsStretch(rules, line, StripFrame(rules, line), lo)
  {
    hide IsStretch, Trim, StripMargins;
    var inner := Trim(rules, line);
    var a := TrimStretch(rules, line);
    var b := StripStretch(rules, inner);
    StretchChains(rules, line, inner, a, StripMargins(inner), b);
    var c := TrimStretch(rules, StripMargins(inner));
    StretchChains(rules, line, StripMargins(inner), a + b, StripFrame(rules, line), c);
    lo := a + b + c;
  }

  lemma ContentStretch(rules: Rules, kind: Kind, line: Line) returns (lo: nat)
    ensures IsStretch(rules, line, Content(rules, kind, line), lo)
  {
    hide IsStretch, Trim, StripFrame;
    lo := TrimStretch(rules, line);
    if kind == Claude {
      var inner := FrameStretch(rules, Trim(rules, line));
      StretchChains(rules, line, Trim(rules, line), lo, Content(rules, kind, line), inner);
      lo := lo + inner;
    }
  }

  /** On the marker's line every cell but the marker is harmless. */
  lemma MarkerLineIsHarmless(rules: Rules, kind: Kind, line: Line) returns (m: nat)
    requires Body(rules, kind, line).Some? && IsEmptyBody(rules, kind, Body(rules, kind, line).value)
    ensures m < |line| && IsMarker(kind, line[m].c)
    ensures forall i :: 0 <= i < |line| && i != m ==> IsHarmless(rules, line[i])
  {
    var content := Content(rules, kind, line);
    m := ContentStretch(rules, kind, line);
    assert line[m] == content[0];
    var body := Trim(rules, content[1..]);
    var lo := TrimStretch(rules, content[1..]);
    forall i | 0 <= i < |line| && i != m ensures IsHarmless(rules, line[i]) {
      if m < i < m + |content| {
        assert line[i] == content[1..][i - m - 1];
        if lo <= i - m - 1 < lo + |body| {
          assert body[i - m - 1 - lo] == line[i];
        }
      }
    }
  }

  lemma QuietIsHarmless(rules: Rules, kind: Kind, line: Line)
    requires IsQuiet(rules, kind, line)
    ensures forall i :: 0 <= i < |line| ==> IsHarmless(rules, line[i])
  {
    var lo := TrimStretch(rules, line);
    var t := Trim(rules, line);
    forall i | 0 <= i < |line| ensures IsHarmless(rules, line[i]) {
      if lo <= i < lo + |t| {
        assert t[i - lo] == line[i];
      }
    }
  }

  lemma EmptyFrameIsHarmless(rules: Rules, line: Line)
    requires StripFrame(rules, line) == []
    ensures forall i :: 0 <= i < |line| ==> IsHarmless(rules, line[i])
  {
    var lo := FrameStretch(rules, line);
  }

  lemma RuleIsHarmless(rules: Rules, line: Line)
    requires IsHorizontalRule(rules, line)
    ensures forall i :: 0 <= i < |line| ==> IsHarmless(rules, line[i])
  {
    var lo := TrimStretch(rules, line);
    var t := Trim(rules, line);
    forall i | 0 <= i < |line| ensures IsHarmless(rules, line[i]) {
      if lo <= i < lo + |t| {
        assert t[i - lo] == line[i];
      }
    }
  }

  /** Where the prompt counts as empty, every visible character from the current marker to the
      end of the screen is muted or belongs to a box, except for the marker itself. */
  lemma EmptyPromptIsEmpty(rules: Rules, kind: Kind, size: nat, lines: seq<Line>) returns (current: nat, m: nat)
    requires PromptIsEmpty(rules, kind, size, lines)
    ensures current < |lines| && m < |lines[current]| && IsMarker(kind, lines[current][m].c)
    ensures forall i, j :: current <= i < |lines| && 0 <= j < |lines[i]| && (i != current || j != m) ==> IsHarmless(rules, lines[i][j])
    ensures forall i :: current < i < |lines| ==> Body(rules, kind, lines[i]).None?
  {
    hide IsHarmless, Body, IsQuiet, IsHorizontalRule, StripFrame, IsEmptyBody, NoEarlierPrompt;
    current := LastBefore(lines, |lines|, line => Body(rules, kind, line).Some?).value;
    m := MarkerLineIsHarmless(rules, kind, lines[current]);
    forall i, j | current <= i < |lines| && 0 <= j < |lines[i]| && (i != current || j != m) ensures IsHarmless(rules, lines[i][j]) {
      if i > current {
        LaterLineIsHarmless(rules, kind, lines, current, i);
      }
    }
  }

  lemma LaterLineIsHarmless(rules: Rules, kind: Kind, lines: seq<Line>, current: nat, i: nat)
    requires current < i < |lines|
    requires if kind == Claude then IsEmptyClaude(rules, lines, current) else AllQuiet(rules, kind, lines, current + 1)
    ensures forall j :: 0 <= j < |lines[i]| ==> IsHarmless(rules, lines[i][j])
  {
    hide IsHarmless, IsQuiet, IsHorizontalRule, StripFrame, NoEarlierPrompt;
    if kind != Claude {
      QuietIsHarmless(rules, kind, lines[i]);
    } else {
      var isRule := BorderTest(rules);
      var upper := LastBefore(lines, current, isRule);
      var lower := FirstFrom(lines, current + 1, isRule);
      if upper.Some? && lower.Some? {
        if i < lower.value {
          EmptyFrameIsHarmless(rules, lines[i]);
        } else if i == lower.value {
          RuleIsHarmless(rules, lines[i]);
        } else {
          QuietIsHarmless(rules, kind, lines[i]);
        }
      } else {
        QuietIsHarmless(rules, kind, lines[i]);
      }
    }
  }

  /** In a boxed composer the lines above the marker's are empty as well: no draft hides there. */
  lemma WholeBoxIsEmpty(rules: Rules, size: nat, lines: seq<Line>, upper: nat, i: nat)
    requires PromptIsEmpty(rules, Claude, size, lines)
    requires var current := LastBefore(lines, |lines|, line => Body(rules, Claude, line).Some?).value;
      && upper < i < current && IsHorizontalRule(rules, lines[upper])
      && (forall k :: upper < k < current ==> !IsHorizontalRule(rules, lines[k]))
      && (exists k :: current < k < |lines| && IsHorizontalRule(rules, lines[k]))
    ensures forall j :: 0 <= j < |lines[i]| ==> IsHarmless(rules, lines[i][j])
  {
    hide IsHarmless, Body, IsQuiet, IsHorizontalRule, StripFrame, IsEmptyBody, NoEarlierPrompt;
    EmptyFrameIsHarmless(rules, lines[i]);
  }

  /** Without a box there is no other prompt between the current one and the block before it. */
  lemma {:induction false} NoDraftBefore(rules: Rules, kind: Kind, lines: seq<Line>, current: nat, i: nat)
    requires i < current <= |lines| && NoEarlierPrompt(rules, kind, lines, current)
    requires forall k :: i <= k < current ==> !StartsBlockLine(rules, lines[k])
    ensures Body(rules, kind, lines[i]).None?
    decreases current
  {
    hide Body, StartsBlockLine;
    if i < current - 1 {
      NoDraftBefore(rules, kind, lines, current - 1, i);
    }
  }

  // ---------- The scanning loops ----------

  method ScanUp(lines: seq<Line>, n: nat, p: Line -> bool) returns (k: Option<nat>)
    requires n <= |lines|
    ensures k == LastBefore(lines, n, p)
  {
    var i := n;
    while i > 0
      invariant 0 <= i <= n && LastBefore(lines, n, p) == LastBefore(lines, i, p)
    {
      i := i - 1;
      if p(lines[i]) {
        return Some(i);
      }
    }
    return None;
  }

  method ScanDown(lines: seq<Line>, n: nat, p: Line -> bool) returns (k: Option<nat>)
    requires n <= |lines|
    ensures k == FirstFrom(lines, n, p)
  {
    var i := n;
    while i < |lines|
      invariant n <= i <= |lines| && FirstFrom(lines, n, p) == FirstFrom(lines, i, p)
    {
      if p(lines[i]) {
        return Some(i);
      }
      i := i + 1;
    }
    return None;
  }

  method NoPromptAbove(rules: Rules, kind: Kind, lines: seq<Line>, current: nat) returns (ok: bool)
    requires current <= |lines|
    ensures ok == NoEarlierPrompt(rules, kind, lines, current)
  {
    hide Body, StartsBlockLine;
    var i := current;
    while i > 0
      invariant 0 <= i <= current && NoEarlierPrompt(rules, kind, lines, current) == NoEarlierPrompt(rules, kind, lines, i)
    {
      i := i - 1;
      if StartsBlockLine(rules, lines[i]) {
        return true;
      }
      if Body(rules, kind, lines[i]).Some? {
        return false;
      }
    }
    return true;
  }

  method OnlyQuietBelow(rules: Rules, kind: Kind, lines: seq<Line>, from: nat) returns (ok: bool)
    requires from <= |lines|
    ensures ok == AllQuiet(rules, kind, lines, from)
  {
    hide IsQuiet;
    for i := from to |lines|
      invariant forall k :: from <= k < i ==> IsQuiet(rules, kind, lines[k])
    {
      if !IsQuiet(rules, kind, lines[i]) {
        return false;
      }
    }
    return true;
  }

  method EmptyClaude(rules: Rules, lines: seq<Line>, current: nat) returns (ok: bool)
    requires current < |lines|
    ensures ok == IsEmptyClaude(rules, lines, current)
  {
    hide IsHorizontalRule, StripFrame, AllQuiet, NoEarlierPrompt;
    var isRule := BorderTest(rules);
    var upper := ScanUp(lines, current, isRule);
    var lower := ScanDown(lines, current + 1, isRule);
    if upper.Some? && lower.Some? {
      for i := upper.value + 1 to lower.value
        invariant forall k :: upper.value < k < i && k != current ==> StripFrame(rules, lines[k]) == []
      {
        if i != current && StripFrame(rules, lines[i]) != [] {
          return false;
        }
      }
      ok := OnlyQuietBelow(rules, Claude, lines, lower.value + 1);
      return;
    }
    if MARGIN in TextOf(lines[current]) || upper.Some? || lower.Some? {
      return false;
    }
    ok := NoPromptAbove(rules, Claude, lines, current);
    if ok {
      ok := OnlyQuietBelow(rules, Claude, lines, current + 1);
    }
  }

  method CheckPrompt(rules: Rules, kind: Kind, size: nat, lines: seq<Line>) returns (empty: bool)
    ensures empty == PromptIsEmpty(rules, kind, size, lines)
  {
    hide Body, IsEmptyBody, IsEmptyClaude, AllQuiet, NoEarlierPrompt;
    if (kind != Codex && kind != Claude) || size > SIZE_LIMIT {
      return false;
    }
    var isPrompt := line => Body(rules, kind, line).Some?;
    var current := ScanUp(lines, |lines|, isPrompt);
    if current.None? || !IsEmptyBody(rules, kind, Body(rules, kind, lines[current.value]).value) {
      return false;
    }
    if kind == Claude {
      empty := EmptyClaude(rules, lines, current.value);
      return;
    }
    empty := NoPromptAbove(rules, kind, lines, current.value);
    if empty {
      empty := OnlyQuietBelow(rules, kind, lines, current.value + 1);
    }
  }
}

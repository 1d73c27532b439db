/** When a prompt counts as empty, stated over the lines of the screen without any scanning,
    trimming or stripping: the recogniser answers true for exactly these screens. */
module EmptyPromptMeaning {
  import opened Basics
  import opened PromptStyle
  import opened EmptyPrompt

  predicate Blank(rules: Rules, cells: Line) {
    forall i :: 0 <= i < |cells| ==> rules.isSpace(cells[i].c)
  }

  /** `core` is what stands between the blanks at both ends, from position `lo` on. */
  predicate IsCoreAt(rules: Rules, line: Line, core: Line, lo: nat) {
    && lo + |core| <= |line| && core == line[lo..lo + |core|]
    && Blank(rules, line[..lo]) && Blank(rules, line[lo + |core|..])
    && (core != [] ==> !rules.isSpace(core[0].c) && !rules.isSpace(core[|core| - 1].c))
  }

  ghost predicate IsCore(rules: Rules, line: Line, core: Line) {
    exists lo: nat :: IsCoreAt(rules, line, core, lo)
  }

  /** One margin character at each end at most is taken off. */
  predicate IsUnmargined(line: Line, inner: Line) {
    if |line| <= 1 then inner == if line != [] && line[0].c != '│' then line else []
    else
      inner == line[if line[0].c == '│' then 1 else 0..if line[|line| - 1].c == '│' then |line| - 1 else |line|]
  }

  /** `core` is what stands inside the frame. */
  ghost predicate IsFramed(rules: Rules, line: Line, core: Line) {
    exists outer: Line, inner: Line :: IsCore(rules, line, outer) && IsUnmargined(outer, inner) && IsCore(rules, inner, core)
  }

  predicate Marks(kind: Kind, c: char) {
    (kind == Codex && (c == '›' || c == '»')) || (kind == Claude && c == '❯')
  }

  /** The line is a prompt: its marker stands alone or before a blank, and `body` follows. */
  ghost predicate IsPrompt(rules: Rules, kind: Kind, line: Line, body: Line) {
    exists content: Line ::
      && (if kind == Claude then IsFramed(rules, line, content) else IsCore(rules, line, content))
      && content != [] && Marks(kind, content[0].c)
      && (|content| > 1 ==> rules.isSpace(content[1].c))
      && IsCore(rules, content[1..], body)
  }

  /** Every visible cell is muted. */
  predicate ShowsMuted(rules: Rules, cells: Line) {
    cells != [] && forall i :: 0 <= i < |cells| && !rules.isSpace(cells[i].c) ==> cells[i].muted
  }

  predicate Reads(cells: Line, text: string) {
    |cells| == |text| && forall i :: 0 <= i < |text| ==> cells[i].c == text[i]
  }

  /** Nothing is typed: no text, or a known placeholder in muted text. */
  predicate IsUntyped(rules: Rules, kind: Kind, body: Line) {
    || body == []
    || (ShowsMuted(rules, body)
        && if kind == Claude then Reads(body, "Ask Claude")
           else Reads(body, "Use /skills to list available skills") || Reads(body, "Find and fix a bug in @filename")
                || Reads(body, "Explain this codebase"))
  }

  /** A blank line, or a known footer in muted text. */
  ghost predicate IsQuietLine(rules: Rules, kind: Kind, line: Line) {
    || Blank(rules, line)
    || (exists core: Line :: IsCore(rules, line, core) && ShowsMuted(rules, core) && rules.isFooter(kind, TextOf(core)))
  }

  ghost predicate QuietFrom(rules: Rules, kind: Kind, lines: seq<Line>, from: nat) {
    forall i :: from <= i < |lines| ==> IsQuietLine(rules, kind, lines[i])
  }

  /** The line's first visible character marks a block of output. */
  ghost predicate OpensBlock(rules: Rules, line: Line) {
    exists i :: 0 <= i < |line| && line[i].c in "•◦■✗✓─" && !rules.isSpace(line[i].c) && Blank(rules, line[..i])
  }

  /** Between any earlier prompt and this one a block of output begins. */
  ghost predicate NoDraftAbove(rules: Rules, kind: Kind, lines: seq<Line>, current: nat)
    requires current <= |lines|
  {
    forall i, body: Line :: 0 <= i < current && IsPrompt(rules, kind, lines[i], body) ==>
      exists k :: i <= k < current && OpensBlock(rules, lines[k])
  }

  /** Three strokes at least, and nothing else but strokes and corners between the blanks. */
  ghost predicate IsBorder(rules: Rules, line: Line) {
    exists core: Line :: IsCore(rules, line, core) && OnlyStrokes(core) && HasStrokes(core, 3)
  }

  predicate OnlyStrokes(cells: Line) {
    forall i :: 0 <= i < |cells| ==> cells[i].c in "─━╭╮╰╯┌┐└┘"
  }

  /** At least `n` strokes. */
  ghost predicate HasStrokes(cells: Line, n: nat) {
    n == 0 || exists i :: 0 <= i < |cells| && cells[i].c in "─━" && HasStrokes(cells[i + 1..], n - 1)
  }

  /** The last prompt of the screen. */
  ghost predicate IsCurrent(rules: Rules, kind: Kind, lines: seq<Line>, current: nat, body: Line) {
    && current < |lines| && IsPrompt(rules, kind, lines[current], body)
    && forall i, b: Line :: current < i < |lines| ==> !IsPrompt(rules, kind, lines[i], b)
  }

  /** The borders next to the line, above and below. */
  ghost predicate IsBox(rules: Rules, lines: seq<Line>, current: nat, upper: nat, lower: nat) {
    && upper < current < lower < |lines| && IsBorder(rules, lines[upper]) && IsBorder(rules, lines[lower])
    && (forall i :: upper < i < current || current < i < lower ==> !IsBorder(rules, lines[i]))
  }

  /** A boxed composer with nothing in its other lines, and only quiet lines below. */
  ghost predicate IsEmptyBox(rules: Rules, lines: seq<Line>, current: nat) {
    exists upper: nat, lower: nat :: IsBox(rules, lines, current, upper, lower)
      && (forall i :: upper < i < lower && i != current ==> IsFramed(rules, lines[i], []))
      && QuietFrom(rules, Claude, lines, lower + 1)
  }

  /** No earlier draft above, and only quiet lines below. */
  ghost predicate StandsAlone(rules: Rules, kind: Kind, lines: seq<Line>, current: nat)
    requires current <= |lines|
  {
    NoDraftAbove(rules, kind, lines, current) && QuietFrom(rules, kind, lines, current + 1)
  }

  /** A composer without any part of a box. */
  ghost predicate IsBare(rules: Rules, lines: seq<Line>, current: nat)
    requires current < |lines|
  {
    && (forall i :: 0 <= i < |lines[current]| ==> lines[current][i].c != '│')
    && (forall i :: 0 <= i < |lines| && i != current ==> !IsBorder(rules, lines[i]))
  }

  ghost predicate IsEmptyScreen(rules: Rules, kind: Kind, size: nat, lines: seq<Line>) {
    && kind != OtherKind && size <= 2 * 1024 * 1024
    && exists current: nat, body: Line ::
      && IsCurrent(rules, kind, lines, current, body) && IsUntyped(rules, kind, body)
      && if kind == Codex then StandsAlone(rules, kind, lines, current)
         else
           || IsEmptyBox(rules, lines, current)
           || (IsBare(rules, lines, current) && StandsAlone(rules, kind, lines, current))
  }

  // ---------- Trimming and stripping ----------

  lemma TrimIsCore(rules: Rules, line: Line)
    ensures IsCore(rules, line, Trim(rules, line))
  {
    var lo := SkipLeft(rules, line);
    var rest := line[lo..];
    var core := Trim(rules, line);
    assert rest[..|core|] == core == line[lo..lo + |core|];
    assert line[lo + |core|..] == rest[|core|..];
    if core != [] {
      assert line[lo] == rest[0] == core[0];
    }
    assert IsCoreAt(rules, line, core, lo);
  }

  lemma BlankAround(rules: Rules, line: Line, core: Line, lo: nat)
    requires IsCoreAt(rules, line, core, lo)
    ensures forall k :: 0 <= k < |line| && !(lo <= k < lo + |core|) ==> rules.isSpace(line[k].c)
    ensures forall k :: 0 <= k < |core| ==> core[k] == line[lo + k]
  {
    var before, after := line[..lo], line[lo + |core|..];
    assert forall k :: 0 <= k < lo ==> line[k] == before[k];
    assert forall k :: lo + |core| <= k < |line| ==> line[k] == after[k - lo - |core|];
  }

  lemma CoreIsUnique(rules: Rules, line: Line, a: Line, b: Line)
    requires IsCore(rules, line, a) && IsCore(rules, line, b)
    ensures a == b
  {
    var i: nat :| IsCoreAt(rules, line, a, i);
    var j: nat :| IsCoreAt(rules, line, b, j);
    BlankAround(rules, line, a, i);
    BlankAround(rules, line, b, j);
    assert a != [] ==> a[0] == line[i] && a[|a| - 1] == line[i + |a| - 1];
    assert b != [] ==> b[0] == line[j] && b[|b| - 1] == line[j + |b| - 1];
  }

  /** Trimming finds the core. */
  lemma TrimIff(rules: Rules, line: Line, core: Line)
    ensures IsCore(rules, line, core) <==> core == Trim(rules, line)
  {
    TrimIsCore(rules, line);
    if IsCore(rules, line, core) {
      CoreIsUnique(rules, line, core, Trim(rules, line));
    }
  }

  lemma UnmarginedIff(line: Line, inner: Line)
    ensures IsUnmargined(line, inner) <==> inner == StripMargins(line)
  {
    var n := |line|;
    if n >= 2 {
      assert line[1..][n - 2] == line[n - 1];
      assert line[1..][..n - 2] == line[1..n - 1] && line[0..n] == line && line[..n - 1] == line[0..n - 1];
    }
  }

  /** Stripping the frame finds what stands inside it. */
  lemma FramedIff(rules: Rules, line: Line, core: Line)
    ensures IsFramed(rules, line, core) <==> core == StripFrame(rules, line)
  {
    hide IsCore, IsUnmargined, Trim, StripMargins;
    TrimIff(rules, line, Trim(rules, line));
    UnmarginedIff(Trim(rules, line), StripMargins(Trim(rules, line)));
    TrimIff(rules, StripMargins(Trim(rules, line)), StripFrame(rules, line));
    if IsFramed(rules, line, core) {
      var outer: Line, inner: Line :| IsCore(rules, line, outer) && IsUnmargined(outer, inner) && IsCore(rules, inner, core);
      TrimIff(rules, line, outer);
      UnmarginedIff(outer, inner);
      TrimIff(rules, inner, core);
    }
  }

  lemma TrimTwice(rules: Rules, line: Line)
    ensures Trim(rules, Trim(rules, line)) == Trim(rules, line)
  {
    TrimIsCore(rules, line);
    var core := Trim(rules, line);
    assert core[0..|core|] == core;
    assert IsCoreAt(rules, core, core, 0);
    TrimIff(rules, core, core);
  }

  // ---------- Lines ----------

  /** The recogniser takes exactly the prompts for prompts, with their bodies. */
  lemma PromptIff(rules: Rules, kind: Kind, line: Line, body: Line)
    ensures IsPrompt(rules, kind, line, body) <==> Body(rules, kind, line) == Some(body)
  {
    hide IsCore, IsFramed, Trim;
    TrimTwice(rules, line);
    var content := Content(rules, kind, line);
    TrimIff(rules, line, Trim(rules, line));
    FramedIff(rules, line, StripFrame(rules, line));
    if content != [] {
      TrimIff(rules, content[1..], Trim(rules, content[1..]));
    }
    if IsPrompt(rules, kind, line, body) {
      var c: Line :|
        && (if kind == Claude then IsFramed(rules, line, c) else IsCore(rules, line, c))
        && c != [] && Marks(kind, c[0].c) && (|c| > 1 ==> rules.isSpace(c[1].c)) && IsCore(rules, c[1..], body);
      TrimIff(rules, line, c);
      FramedIff(rules, line, c);
      TrimIff(rules, c[1..], body);
    }
  }

  lemma ReadsIff(cells: Line, text: string)
    ensures Reads(cells, text) <==> TextOf(cells) == text
  {
    if Reads(cells, text) {
      assert TextOf(cells) == text;
    }
  }

  lemma UntypedIff(rules: Rules, kind: Kind, body: Line)
    requires kind != OtherKind
    ensures IsUntyped(rules, kind, body) <==> IsEmptyBody(rules, kind, body)
  {
    ReadsIff(body, "Ask Claude");
    ReadsIff(body, "Use /skills to list available skills");
    ReadsIff(body, "Find and fix a bug in @filename");
    ReadsIff(body, "Explain this codebase");
    hide Reads, TextOf;
  }

  lemma BlankIff(rules: Rules, line: Line)
    ensures Blank(rules, line) <==> Trim(rules, line) == []
  {
    if Blank(rules, line) {
      assert line[|line|..|line|] == [] && line[..|line|] == line;
      assert IsCoreAt(rules, line, [], |line|);
      TrimIff(rules, line, []);
    }
    TrimIsCore(rules, line);
    if Trim(rules, line) == [] {
      var lo: nat :| IsCoreAt(rules, line, [], lo);
      BlankAround(rules, line, [], lo);
    }
  }

  lemma QuietIff(rules: Rules, kind: Kind, line: Line)
    ensures IsQuietLine(rules, kind, line) <==> IsQuiet(rules, kind, line)
  {
    BlankIff(rules, line);
    TrimIff(rules, line, Trim(rules, line));
    hide IsCore, Trim, Blank;
    if core: Line :| IsCore(rules, line, core) && ShowsMuted(rules, core) && rules.isFooter(kind, TextOf(core)) {
      TrimIff(rules, line, core);
    }
  }

  lemma QuietFromIff(rules: Rules, kind: Kind, lines: seq<Line>, from: nat)
    requires from <= |lines|
    ensures QuietFrom(rules, kind, lines, from) <==> AllQuiet(rules, kind, lines, from)
  {
    hide IsQuietLine, IsQuiet;
    forall i | from <= i < |lines| ensures IsQuietLine(rules, kind, lines[i]) <==> IsQuiet(rules, kind, lines[i]) {
      QuietIff(rules, kind, lines[i]);
    }
  }

  lemma OpensIff(rules: Rules, line: Line)
    ensures OpensBlock(rules, line) <==> StartsBlockLine(rules, line)
  {
    TrimIsCore(rules, line);
    var core := Trim(rules, line);
    var lo: nat :| IsCoreAt(rules, line, core, lo);
    BlankAround(rules, line, core, lo);
    assert core != [] ==> line[lo] == core[0];
    if i :| 0 <= i < |line| && line[i].c in "•◦■✗✓─" && !rules.isSpace(line[i].c) && Blank(rules, line[..i]) {
      var front := line[..i];
      assert forall k :: 0 <= k < i ==> line[k] == front[k];
    }
  }

  lemma {:induction false} StrokesIff(cells: Line, n: nat)
    ensures RuleLength(cells) >= n <==> HasStrokes(cells, n)
    decreases |cells|
  {
    if cells != [] && n > 0 {
      var rest := cells[1..];
      StrokesIff(rest, n);
      StrokesIff(rest, n - 1);
      if cells[0].c in "─━" {
        assert cells[0 + 1..] == rest;
        if RuleLength(cells) >= n {
          assert HasStrokes(cells[0 + 1..], n - 1);
        }
      }
      if HasStrokes(rest, n) {
        var i :| 0 <= i < |rest| && rest[i].c in "─━" && HasStrokes(rest[i + 1..], n - 1);
        assert cells[i + 1] == rest[i] && cells[i + 1 + 1..] == rest[i + 1..];
      }
      if HasStrokes(cells, n) {
        var i :| 0 <= i < |cells| && cells[i].c in "─━" && HasStrokes(cells[i + 1..], n - 1);
        if i > 0 {
          assert rest[i - 1] == cells[i] && rest[i - 1 + 1..] == cells[i + 1..];
        } else {
          assert cells[0 + 1..] == rest;
        }
      }
    }
  }

  lemma OnlyStrokesIff(cells: Line)
    ensures OnlyStrokes(cells) <==> forall i :: 0 <= i < |cells| ==> IsRule(cells[i].c) || IsCorner(cells[i].c)
  {
    forall c: char ensures c in "─━╭╮╰╯┌┐└┘" <==> IsRule(c) || IsCorner(c) {
    }
    hide IsRule, IsCorner;
  }

  lemma BorderIff(rules: Rules, line: Line)
    ensures IsBorder(rules, line) <==> IsHorizontalRule(rules, line)
  {
    var core := Trim(rules, line);
    TrimIff(rules, line, core);
    StrokesIff(core, 3);
    OnlyStrokesIff(core);
    hide IsCore, Trim, HasStrokes, RuleLength, OnlyStrokes, IsRule, IsCorner;
    forall other: Line ensures IsCore(rules, line, other) <==> other == core {
      TrimIff(rules, line, other);
    }
  }

  // ---------- The screen ----------

  lemma {:induction false} NoDraftIff(rules: Rules, kind: Kind, lines: seq<Line>, current: nat)
    requires current <= |lines|
    ensures NoDraftAbove(rules, kind, lines, current) <==> NoEarlierPrompt(rules, kind, lines, current)
    decreases current
  {
    hide IsPrompt, Body, OpensBlock, StartsBlockLine;
    if current > 0 {
      var last := current - 1;
      NoDraftIff(rules, kind, lines, last);
      OpensIff(rules, lines[last]);
      HasPromptIff(rules, kind, lines[last]);
      if !StartsBlockLine(rules, lines[last]) {
        assert NoDraftAbove(rules, kind, lines, current) ==> NoDraftAbove(rules, kind, lines, last) by {
          if NoDraftAbove(rules, kind, lines, current) {
            forall i, body: Line | 0 <= i < last && IsPrompt(rules, kind, lines[i], body)
              ensures exists k :: i <= k < last && OpensBlock(rules, lines[k])
            {
              var k :| i <= k < current && OpensBlock(rules, lines[k]);
              assert k < last;
            }
          }
        }
      }
    }
  }

  lemma HasPromptIff(rules: Rules, kind: Kind, line: Line)
    ensures Body(rules, kind, line).Some? <==> exists body: Line :: IsPrompt(rules, kind, line, body)
    ensures Body(rules, kind, line).Some? ==> IsPrompt(rules, kind, line, Body(rules, kind, line).value)
    ensures forall body: Line :: IsPrompt(rules, kind, line, body) ==> Body(rules, kind, line) == Some(body)
  {
    hide IsPrompt, Body;
    forall body: Line ensures IsPrompt(rules, kind, line, body) <==> Body(rules, kind, line) == Some(body) {
      PromptIff(rules, kind, line, body);
    }
    if Body(rules, kind, line).Some? {
      PromptIff(rules, kind, line, Body(rules, kind, line).value);
    }
  }

  lemma CurrentIff(rules: Rules, kind: Kind, lines: seq<Line>, current: nat, body: Line)
    ensures IsCurrent(rules, kind, lines, current, body) <==>
      && LastBefore(lines, |lines|, line => Body(rules, kind, line).Some?) == Some(current)
      && current < |lines| && Body(rules, kind, lines[current]) == Some(body)
  {
    hide IsPrompt, Body;
    forall i | 0 <= i < |lines|
      ensures Body(rules, kind, lines[i]).Some? <==> exists b: Line :: IsPrompt(rules, kind, lines[i], b)
    {
      HasPromptIff(rules, kind, lines[i]);
    }
    if current < |lines| {
      HasPromptIff(rules, kind, lines[current]);
    }
  }

  lemma StandsAloneIff(rules: Rules, kind: Kind, lines: seq<Line>, current: nat)
    requires current < |lines|
    ensures StandsAlone(rules, kind, lines, current) <==>
      NoEarlierPrompt(rules, kind, lines, current) && AllQuiet(rules, kind, lines, current + 1)
  {
    NoDraftIff(rules, kind, lines, current);
    QuietFromIff(rules, kind, lines, current + 1);
    hide NoDraftAbove, NoEarlierPrompt, AllQuiet, QuietFrom;
  }

  lemma BordersIff(rules: Rules, lines: seq<Line>)
    ensures forall i :: 0 <= i < |lines| ==> (IsBorder(rules, lines[i]) <==> IsHorizontalRule(rules, lines[i]))
  {
    hide IsBorder, IsHorizontalRule;
    forall i | 0 <= i < |lines| ensures IsBorder(rules, lines[i]) <==> IsHorizontalRule(rules, lines[i]) {
      BorderIff(rules, lines[i]);
    }
  }

  /** Only the two nearest borders can be the box. */
  lemma BoxIff(rules: Rules, lines: seq<Line>, current: nat, upper: nat, lower: nat)
    requires current < |lines|
    ensures IsBox(rules, lines, current, upper, lower) <==>
      && LastBefore(lines, current, BorderTest(rules)) == Some(upper)
      && FirstFrom(lines, current + 1, BorderTest(rules)) == Some(lower)
  {
    BordersIff(rules, lines);
    hide IsBorder, IsHorizontalRule;
  }

  lemma EmptyBoxIff(rules: Rules, lines: seq<Line>, current: nat)
    requires current < |lines|
    ensures var isRule := BorderTest(rules);
      var upper, lower := LastBefore(lines, current, isRule), FirstFrom(lines, current + 1, isRule);
      IsEmptyBox(rules, lines, current) <==>
        && upper.Some? && lower.Some?
        && BoxIsEmpty(rules, lines, upper.value, current, lower.value)
        && AllQuiet(rules, Claude, lines, lower.value + 1)
  {
    hide IsBox, QuietFrom, AllQuiet, IsFramed, StripFrame, IsHorizontalRule;
    forall i | 0 <= i < |lines| ensures IsFramed(rules, lines[i], []) <==> StripFrame(rules, lines[i]) == [] {
      FramedIff(rules, lines[i], []);
    }
    forall upper: nat, lower: nat
      ensures IsBox(rules, lines, current, upper, lower) <==>
        && LastBefore(lines, current, BorderTest(rules)) == Some(upper)
        && FirstFrom(lines, current + 1, BorderTest(rules)) == Some(lower)
    {
      BoxIff(rules, lines, current, upper, lower);
    }
    var lower := FirstFrom(lines, current + 1, BorderTest(rules));
    if lower.Some? {
      QuietFromIff(rules, Claude, lines, lower.value + 1);
    }
  }

  lemma BareIff(rules: Rules, lines: seq<Line>, current: nat)
    requires current < |lines|
    ensures var isRule := BorderTest(rules);
      IsBare(rules, lines, current) <==>
        && MARGIN !in TextOf(lines[current])
        && LastBefore(lines, current, isRule).None? && FirstFrom(lines, current + 1, isRule).None?
  {
    BordersIff(rules, lines);
    hide IsBorder, IsHorizontalRule;
    var text := TextOf(lines[current]);
    assert forall i :: 0 <= i < |text| ==> text[i] == lines[current][i].c;
  }

  lemma ClaudeIff(rules: Rules, lines: seq<Line>, current: nat)
    requires current < |lines|
    ensures IsEmptyClaude(rules, lines, current) <==>
      IsEmptyBox(rules, lines, current) || (IsBare(rules, lines, current) && StandsAlone(rules, Claude, lines, current))
  {
    hide *;
    EmptyBoxIff(rules, lines, current);
    BareIff(rules, lines, current);
    StandsAloneIff(rules, Claude, lines, current);
    ClaudeCases(rules, lines, current);
  }

  lemma ClaudeCases(rules: Rules, lines: seq<Line>, current: nat)
    requires current < |lines|
    ensures var isRule := BorderTest(rules);
      var upper, lower := LastBefore(lines, current, isRule), FirstFrom(lines, current + 1, isRule);
      IsEmptyClaude(rules, lines, current) <==>
        if upper.Some? && lower.Some? then
          BoxIsEmpty(rules, lines, upper.value, current, lower.value) && AllQuiet(rules, Claude, lines, lower.value + 1)
        else
          MARGIN !in TextOf(lines[current]) && upper.None? && lower.None?
          && NoEarlierPrompt(rules, Claude, lines, current) && AllQuiet(rules, Claude, lines, current + 1)
  {
    hide LastBefore, FirstFrom, BoxIsEmpty, AllQuiet, NoEarlierPrompt, TextOf, BorderTest, Body, IsQuiet;
  }

  /** The recogniser answers true for exactly the screens whose current prompt is empty. */
  lemma EmptyIff(rules: Rules, kind: Kind, size: nat, lines: seq<Line>)
    ensures PromptIsEmpty(rules, kind, size, lines) <==> IsEmptyScreen(rules, kind, size, lines)
  {
    hide IsCurrent, IsUntyped, IsEmptyBody, IsEmptyClaude, IsEmptyBox, IsBare, StandsAlone, Body, AllQuiet, NoEarlierPrompt;
    forall current: nat, body: Line
      ensures IsCurrent(rules, kind, lines, current, body) <==>
        && LastBefore(lines, |lines|, line => Body(rules, kind, line).Some?) == Some(current)
        && current < |lines| && Body(rules, kind, lines[current]) == Some(body)
    {
      CurrentIff(rules, kind, lines, current, body);
    }
    var found := LastBefore(lines, |lines|, line => Body(rules, kind, line).Some?);
    if kind != OtherKind && found.Some? {
      var current, body := found.value, Body(rules, kind, lines[found.value]).value;
      assert IsCurrent(rules, kind, lines, current, body);
      UntypedIff(rules, kind, body);
      ClaudeIff(rules, lines, current);
      StandsAloneIff(rules, kind, lines, current);
    }
  }
}

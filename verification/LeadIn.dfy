/** The clause that only introduced a lifted link, and goes with it
    (apps/channel-adapter/src/mirror.ts:245-389). The regular expressions are
    parameters. */
module LeadIn {
  import opened Wrappers
  import opened Text
  import opened Bytes

  const MAX_LEAD_IN: nat := 200
  const LEAD_IN_SCAN: nat := MAX_LEAD_IN + 40
  const LINE_PREFIX_SPAN: nat := 40
  const ABBREVIATIONS: set<string> := {"e.g", "i.e", "vs", "cf"}

  /** Line-start markup: how long it is, and whether it is a list marker. */
  datatype Prefix = Prefix(length: nat, list: bool)

  /** `linePrefix` matches a line's markup, `markupOnly` a line's head with nothing
      but markup, `isPointer` a segment that points at the link. */
  datatype Patterns = Patterns(linePrefix: string -> Prefix, markupOnly: string -> bool, isPointer: string -> bool)

  datatype ClauseStart = NoStart | StartAt(at: nat, atLineStart: bool)

  // ---------------------------------------------------------------- the scans

  predicate IsEmphasis(c: char) {
    c == '*' || c == '_'
  }

  function EmphasisStart(t: string, end: nat): (r: nat)
    requires end <= |t|
    ensures r <= end
    ensures forall k :: r <= k < end ==> IsEmphasis(t[k])
  {
    if end > 0 && |t| - end < 3 && IsEmphasis(t[end - 1]) then EmphasisStart(t, end - 1) else end
  }

  predicate IsLetterOrDot(c: char) {
    'A' <= c <= 'Z' || 'a' <= c <= 'z' || c == '.'
  }

  function Lower(s: string): string {
    seq(|s|, i requires 0 <= i < |s| => if 'A' <= s[i] <= 'Z' then (s[i] as int + 32) as char else s[i])
  }

  function AbbreviationStart(t: string, dot: nat, i: nat): (r: nat)
    requires i <= dot <= |t|
    ensures r <= i
  {
    if i > 0 && dot - i < 4 && IsLetterOrDot(t[i - 1]) then AbbreviationStart(t, dot, i - 1) else i
  }

  predicate EndsAbbreviation(t: string, dot: nat)
    requires dot <= |t|
  {
    Lower(t[AbbreviationStart(t, dot, dot)..dot]) in ABBREVIATIONS
  }

  /** The nearest line start at or before `i`, within the prefix span of `index`. */
  function NearLineStart(t: string, index: nat, i: int): (r: Option<nat>)
    requires -1 <= i <= index < |t|
    ensures r.Some? ==> r.value <= i && forall k :: r.value <= k < i ==> t[k] != '\n'
    decreases i + 1
  {
    if i < 0 || index - i > LINE_PREFIX_SPAN then None
    else if i == 0 || t[i - 1] == '\n' then Some(i)
    else NearLineStart(t, index, i - 1)
  }

  function PrefixAt(p: Patterns, t: string, lineStart: nat): Prefix
    requires lineStart <= |t|
  {
    p.linePrefix(t[lineStart..Min(lineStart + LINE_PREFIX_SPAN, |t|)])
  }

  predicate EndsSentence(t: string, i: nat)
    requires i + 1 < |t|
  {
    (t[i] == '.' || t[i] == '!' || t[i] == '?') && IsSpace(t[i + 1]) && !EndsAbbreviation(t, i)
  }

  /** The clause after a sentence's end, or its line when the end is a list marker's. */
  function AfterSentence(p: Patterns, t: string, i: nat): (r: ClauseStart)
    requires i + 1 < |t|
    ensures r.StartAt? && r.at <= i + 1
  {
    var line := NearLineStart(t, i, i);
    if line.Some? && line.value + PrefixAt(p, t, line.value).length > i then StartAt(line.value, true) else StartAt(i + 1, false)
  }

  /** Where a clause ending after `i` starts, as far as `floor` shows it. */
  function Scan(p: Patterns, t: string, floor: nat, i: int): (r: ClauseStart)
    requires -1 <= i && i + 1 < |t|
    ensures r.StartAt? ==> r.at <= i + 1
    decreases i + 1
  {
    if i < floor then NoStart
    else if t[i] == '\n' then StartAt(i + 1, true)
    else if EndsSentence(t, i) then AfterSentence(p, t, i)
    else Scan(p, t, floor, i - 1)
  }

  function SkipTabs(t: string, i: nat): nat
    decreases |t| - i
  {
    if i < |t| && (t[i] == ' ' || t[i] == '\t') then SkipTabs(t, i + 1) else i
  }

  function Slice(t: string, from: nat, to: nat): string
    requires to <= |t|
  {
    if from < to then t[from..to] else ""
  }

  predicate Contains(s: string, part: string) {
    |part| <= |s| && (s[..|part|] == part || Contains(s[1..], part))
  }

  /** The last colon at or before `i`, or -1. */
  function LastColon(s: string, i: int): (r: int)
    ensures -1 <= r < |s| || r == -1
    decreases i + 1
  {
    if i < 0 then -1 else if i < |s| && s[i] == ':' then i else LastColon(s, i - 1)
  }

  function StripEmphasis(s: string): string {
    if s != "" && IsEmphasis(s[0]) then StripEmphasis(s[1..]) else s
  }

  /** What follows the clause's last colon but one. */
  function LastSegment(clause: string): string {
    StripEmphasis(TrimStart(clause[LastColon(clause, Max(0, |clause| - 2)) + 1..]))
  }

  // ---------------------------------------------------------------- the lead-in

  /** Where the clause that ends in this colon starts. */
  function ClauseAt(p: Patterns, t: string, end: nat): (r: ClauseStart)
    requires 0 < end <= |t|
    ensures r.StartAt? ==> r.at < end
  {
    var floor := Max(0, end - 1 - LEAD_IN_SCAN);
    var found := Scan(p, t, floor, end - 2);
    if found.NoStart? && floor == 0 then StartAt(0, true) else found
  }

  /** The clause is a pointer at the link that may go. */
  predicate MayDrop(p: Patterns, t: string, end: nat, start: nat, atLineStart: bool)
    requires start <= |t| && end <= |t|
  {
    var prefix := PrefixAt(p, t, start);
    var clause := Slice(t, SkipTabs(t, start + if atLineStart then prefix.length else 0), end);
    var closing := t[end..];
    && !(atLineStart && prefix.list)
    && |clause| <= MAX_LEAD_IN
    && (closing == "" || Contains(clause, closing))
    && p.isPointer(LastSegment(clause))
  }

  function DropLeadIn(p: Patterns, text: string): string {
    var t := TrimEnd(text);
    var end := EmphasisStart(t, |t|);
    if end == 0 || t[end - 1] != ':' then text
    else
      var found := ClauseAt(p, t, end);
      if found.StartAt? && MayDrop(p, t, end, found.at, found.atLineStart) then TrimEnd(t[..found.at]) else text
  }

  method FindClause(p: Patterns, t: string, end: nat) returns (found: ClauseStart)
    requires 0 < end <= |t|
    ensures found == ClauseAt(p, t, end)
  {
    var floor := Max(0, end - 1 - LEAD_IN_SCAN);
    found := NoStart;
    var i: int := end - 2;
    while i >= floor
      invariant -1 <= i <= end - 2
      invariant Scan(p, t, floor, end - 2) == Scan(p, t, floor, i)
      decreases i + 1
    {
      if t[i] == '\n' {
        return StartAt(i + 1, true);
      }
      if EndsSentence(t, i) {
        found := StartAt(i + 1, false);
        var line := NearLineStart(t, i, i);
        if line.Some? && line.value + PrefixAt(p, t, line.value).length > i { found := StartAt(line.value, true); }
        return;
      }
      i := i - 1;
    }
    if floor == 0 { found := StartAt(0, true); }
  }

  method DropDanglingLeadIn(p: Patterns, text: string) returns (kept: string)
    ensures kept == DropLeadIn(p, text)
  {
    hide ClauseAt, MayDrop, TrimEnd;
    var t := TrimEnd(text);
    var end := |t|;
    while end > 0 && |t| - end < 3 && IsEmphasis(t[end - 1])
      invariant 0 <= end <= |t|
      invariant EmphasisStart(t, |t|) == EmphasisStart(t, end)
    {
      end := end - 1;
    }
    if end == 0 || t[end - 1] != ':' { return text; }
    var found := FindClause(p, t, end);
    if found.NoStart? { return text; }
    if !MayDrop(p, t, end, found.at, found.atLineStart) { return text; }
    return TrimEnd(t[..found.at]);
  }

  // ---------------------------------------------------------------- what it drops

  ghost predicate NoBreak(t: string, from: nat, to: nat) {
    forall k :: from <= k < to && k < |t| ==> t[k] != '\n'
  }

  lemma {:induction false} ScanStaysOnLine(p: Patterns, t: string, floor: nat, i: int, colon: nat)
    requires -1 <= i < colon < |t| && NoBreak(t, i + 1, colon)
    ensures var found := Scan(p, t, floor, i);
            && (found.StartAt? ==> found.at <= colon && NoBreak(t, found.at, colon))
            && (found.NoStart? ==> NoBreak(t, floor, colon))
    decreases i + 1
  {
    hide EndsAbbreviation, PrefixAt;
    if i >= floor && t[i] != '\n' && !EndsSentence(t, i) { ScanStaysOnLine(p, t, floor, i - 1, colon); }
  }

  /** The end of a line from a clause's start to its colon and closing emphasis. */
  ghost predicate ColonLine(text: string, start: nat, colon: nat, stop: nat) {
    && start <= colon < stop <= |text|
    && NoBreak(text, start, stop)
    && text[colon] == ':'
    && forall k :: colon < k < stop ==> IsEmphasis(text[k])
  }

  lemma ClauseOnLine(p: Patterns, text: string, t: string, end: nat)
    requires t <= text && 0 < end <= |t| && t[end - 1] == ':'
    requires forall k :: end <= k < |t| ==> IsEmphasis(t[k])
    ensures ClauseAt(p, t, end).StartAt? ==> ColonLine(text, ClauseAt(p, t, end).at, end - 1, |t|)
  {
    hide Scan;
    ScanStaysOnLine(p, t, Max(0, end - 1 - LEAD_IN_SCAN), end - 2, end - 1);
    assert forall k :: 0 <= k < |t| ==> text[k] == t[k];
  }

  /** The text that stays is a prefix, and what goes is, white space around it
      aside, part of one line that ends in a colon and closing emphasis. */
  lemma DropsOneLine(p: Patterns, text: string) returns (start: nat, colon: nat, stop: nat)
    ensures var kept := DropLeadIn(p, text);
            && |kept| <= |text| && kept == text[..|kept|]
            && (kept != text ==>
                  && |kept| <= start && ColonLine(text, start, colon, stop)
                  && Blank(text[|kept|..start])
                  && Blank(text[stop..]))
  {
    hide MayDrop, ClauseAt, ColonLine, EmphasisStart;
    var t := TrimEnd(text);
    TrimEndPrefix(text);
    var end := EmphasisStart(t, |t|);
    start, colon, stop := 0, 0, |t|;
    if end > 0 && t[end - 1] == ':' {
      ClauseOnLine(p, text, t, end);
      var found := ClauseAt(p, t, end);
      if found.StartAt? {
        start, colon := found.at, end - 1;
        TrimEndPrefix(t[..start]);
        ColonBefore(text, start, colon, stop);
      }
    }
  }

  lemma ColonBefore(text: string, start: nat, colon: nat, stop: nat)
    requires ColonLine(text, start, colon, stop)
    ensures start < stop
  {
  }
}

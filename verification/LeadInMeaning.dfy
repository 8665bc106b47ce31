/** Which clause is dropped, said of the text and its places instead of the scans
    that look for it. */
module LeadInMeaning {
  import opened Wrappers
  import opened Text
  import opened Bytes
  import opened LeadIn

  /** The colon the text ends in, three closing emphasis marks aside. */
  predicate ClosingColon(t: string, colon: nat) {
    && colon < |t| && t[colon] == ':' && |t| - colon - 1 <= 3
    && forall k :: colon < k < |t| ==> t[k] == '*' || t[k] == '_'
  }

  /** The character, or its capital. */
  predicate SameLetter(c: char, small: char) {
    c == small || ('A' <= c <= 'Z' && c as int + 32 == small as int)
  }

  /** A word before the dot, in any case, that only abbreviates. */
  predicate Abbreviates(t: string, dot: nat, word: string) {
    && word in {"e.g", "i.e", "vs", "cf"}
    && |word| <= dot <= |t|
    && (forall k :: 0 <= k < |word| ==> SameLetter(t[dot - |word| + k], word[k]))
    && (dot == |word| || !(var c := t[dot - |word| - 1]; c == '.' || 'a' <= c <= 'z' || 'A' <= c <= 'Z'))
  }

  ghost predicate IsAbbreviation(t: string, dot: nat) {
    exists word :: Abbreviates(t, dot, word)
  }

  ghost predicate SentenceEnd(t: string, i: nat) {
    && i + 1 < |t| && t[i] in {'.', '!', '?'} && IsSpace(t[i + 1])
    && !IsAbbreviation(t, i)
  }

  /** A line break or the end of a sentence, the last before the colon and at most
      240 characters back. */
  ghost predicate LastEnd(t: string, colon: nat, i: nat) {
    && i < colon < |t| && colon - i <= 240
    && (t[i] == '\n' || SentenceEnd(t, i))
    && forall k :: i < k < colon ==> t[k] != '\n' && !SentenceEnd(t, k)
  }

  /** The line of `i` starts at `line`, 40 characters back at most. */
  ghost predicate LineNear(t: string, i: nat, line: nat) {
    && line <= i < |t| && i - line <= 40 && (line == 0 || t[line - 1] == '\n') && NoBreak(t, line, i)
  }

  function Markup(p: Patterns, t: string, line: nat): Prefix
    requires line <= |t|
  {
    p.linePrefix(t[line..if line + 40 <= |t| then line + 40 else |t|])
  }

  /** The end at `i` is in a line's markup. */
  ghost predicate InMarkup(p: Patterns, t: string, i: nat, line: nat) {
    LineNear(t, i, line) && line + Markup(p, t, line).length > i
  }

  /** Where the clause of a colon starts: its line, or what follows a sentence. */
  ghost predicate StartsClause(p: Patterns, t: string, colon: nat, start: nat, ofLine: bool) {
    || (start == 0 && ofLine && colon <= 240 && forall k :: 0 <= k < colon && k < |t| ==> t[k] != '\n' && !SentenceEnd(t, k))
    || exists i: nat :: LastEnd(t, colon, i) && StartsAfter(p, t, i, start, ofLine)
  }

  ghost predicate StartsAfter(p: Patterns, t: string, i: nat, start: nat, ofLine: bool)
    requires i < |t|
  {
    if t[i] == '\n' then start == i + 1 && ofLine
    else if ofLine then InMarkup(p, t, i, start)
    else start == i + 1 && forall line: nat :: !InMarkup(p, t, i, line)
  }

  /** The text of the clause, markup and blanks ahead of it aside. */
  ghost predicate ClauseText(p: Patterns, t: string, colon: nat, start: nat, ofLine: bool, content: nat) {
    && start <= |t| && colon < |t|
    && var from := start + if ofLine then Markup(p, t, start).length else 0;
       && from <= content
       && (forall k :: from <= k < content && k < |t| ==> t[k] == ' ' || t[k] == '\t')
       && (content >= |t| ==> content <= Max(from, |t|))
       && (content < |t| ==> t[content] != ' ' && t[content] != '\t')
  }

  /** The last of the parts colons make of a clause, from `first`: white space ahead
      of it up to `word`, emphasis up to `text`. */
  ghost predicate LastPart(clause: string, first: nat, word: nat, text: nat) {
    && first <= word <= text <= |clause|
    && (first > 0 ==> clause[first - 1] == ':' && first - 1 <= Max(0, |clause| - 2))
    && (forall k :: first <= k <= Max(0, |clause| - 2) && k < |clause| ==> clause[k] != ':')
    && (forall k :: first <= k < word ==> IsSpace(clause[k]))
    && (word < |clause| ==> !IsSpace(clause[word]))
    && (forall k :: word <= k < text ==> clause[k] == '*' || clause[k] == '_')
    && (text < |clause| ==> clause[text] != '*' && clause[text] != '_')
  }

  ghost predicate Occurs(s: string, part: string) {
    exists i: nat :: OccursAt(s, part, i)
  }

  predicate OccursAt(s: string, part: string, i: nat) {
    i + |part| <= |s| && s[i..i + |part|] == part
  }

  /** The text from `content` up to and with the colon. */
  function Through(t: string, content: nat, colon: nat): string
    requires colon < |t|
  {
    if content <= colon then t[content..colon + 1] else ""
  }

  lemma ThroughIs(t: string, content: nat, colon: nat)
    requires colon < |t|
    ensures Slice(t, content, colon + 1) == Through(t, content, colon)
  {
  }

  /** A clause of at most 200 characters, no list item, that has what it closes in it
      and whose last part points at the link. */
  ghost predicate Points(p: Patterns, t: string, colon: nat, start: nat, ofLine: bool, content: nat) {
    && ClauseText(p, t, colon, start, ofLine, content)
    && !(ofLine && Markup(p, t, start).list)
    && var clause := Through(t, content, colon);
       && |clause| <= 200
       && Occurs(clause, t[colon + 1..])
       && exists first: nat, word: nat, text: nat :: LastPart(clause, first, word, text) && p.isPointer(clause[text..])
  }

  ghost predicate IsLeadIn(p: Patterns, t: string, colon: nat, start: nat, ofLine: bool, content: nat) {
    && ClosingColon(t, colon)
    && StartsClause(p, t, colon, start, ofLine)
    && Points(p, t, colon, start, ofLine, content)
  }

  // ---------------------------------------------------------------- the scans find these places

  lemma {:induction false} EmphasisStartFinds(t: string, end: nat)
    requires end <= |t| && |t| - end <= 3 && forall k :: end <= k < |t| ==> IsEmphasis(t[k])
    ensures var r := EmphasisStart(t, end);
            |t| - r <= 3 && forall k :: r <= k < |t| ==> IsEmphasis(t[k])
    ensures forall colon: nat :: ClosingColon(t, colon) && colon < end ==> EmphasisStart(t, end) == colon + 1
  {
    if end > 0 && |t| - end < 3 && IsEmphasis(t[end - 1]) { EmphasisStartFinds(t, end - 1); }
  }

  lemma {:induction false} AbbreviationStartIs(t: string, dot: nat, i: nat)
    requires i <= dot <= |t| && dot - i <= 4 && forall k :: i <= k < dot ==> IsLetterOrDot(t[k])
    ensures var r := AbbreviationStart(t, dot, i);
            && dot - r <= 4 && (forall k :: r <= k < dot ==> IsLetterOrDot(t[k]))
            && (dot - r < 4 && r > 0 ==> !IsLetterOrDot(t[r - 1]))
  {
    if i > 0 && dot - i < 4 && IsLetterOrDot(t[i - 1]) { AbbreviationStartIs(t, dot, i - 1); }
  }

  lemma LowerIs(s: string, word: string)
    requires |s| == |word| && forall k :: 0 <= k < |word| ==> !('A' <= word[k] <= 'Z')
    ensures Lower(s) == word <==> forall k :: 0 <= k < |word| ==> SameLetter(s[k], word[k])
  {
    forall k | 0 <= k < |word| ensures Lower(s)[k] == word[k] <==> SameLetter(s[k], word[k]) {}
  }

  /** A word of the list, at this place. */
  lemma WordIs(t: string, dot: nat, word: string)
    requires word in ABBREVIATIONS && |word| <= dot <= |t|
    ensures Lower(t[dot - |word|..dot]) == word <==> forall k :: 0 <= k < |word| ==> SameLetter(t[dot - |word| + k], word[k])
    ensures Lower(t[dot - |word|..dot]) == word ==> forall k :: dot - |word| <= k < dot ==> IsLetterOrDot(t[k])
  {
    var s := t[dot - |word|..dot];
    assert forall k :: 0 <= k < |word| ==> s[k] == t[dot - |word| + k];
    assert forall k :: 0 <= k < |word| ==> !('A' <= word[k] <= 'Z');
    LowerIs(s, word);
    if Lower(s) == word {
      forall k | dot - |word| <= k < dot ensures IsLetterOrDot(t[k]) { assert SameLetter(s[k - (dot - |word|)], word[k - (dot - |word|)]); }
    }
  }

  lemma AbbreviationIs(t: string, dot: nat)
    requires dot <= |t|
    ensures EndsAbbreviation(t, dot) <==> IsAbbreviation(t, dot)
  {
    AbbreviationStartIs(t, dot, dot);
    var r := AbbreviationStart(t, dot, dot);
    hide Lower, SameLetter;
    if EndsAbbreviation(t, dot) {
      var word := Lower(t[r..dot]);
      LowerSize(t[r..dot]);
      WordIs(t, dot, word);
      assert Abbreviates(t, dot, word);
    }
    if word :| Abbreviates(t, dot, word) {
      WordIs(t, dot, word);
      assert r == dot - |word|;
    }
  }

  lemma LowerSize(s: string)
    ensures |Lower(s)| == |s|
  {
  }

  lemma SentenceIs(t: string, i: nat)
    requires i + 1 < |t|
    ensures EndsSentence(t, i) <==> SentenceEnd(t, i)
  {
    AbbreviationIs(t, i);
    hide EndsAbbreviation, IsAbbreviation, IsSpace;
  }

  /** The scan stops at the last end above its floor. */
  lemma {:induction false} ScanFinds(p: Patterns, t: string, floor: nat, i: int, colon: nat) returns (at: int)
    requires -1 <= i < colon < |t| && floor == Max(0, colon - 240)
    requires forall k :: i < k < colon ==> t[k] != '\n' && !SentenceEnd(t, k)
    ensures at < 0 || LastEnd(t, colon, at)
    ensures at < 0 ==> Scan(p, t, floor, i) == NoStart && forall k :: floor <= k < colon ==> t[k] != '\n' && !SentenceEnd(t, k)
    ensures at >= 0 ==> Scan(p, t, floor, i) == if t[at] == '\n' then StartAt(at + 1, true) else AfterSentence(p, t, at)
    decreases i + 1
  {
    hide EndsSentence, SentenceEnd, AfterSentence;
    if i < floor { return -1; }
    SentenceIs(t, i);
    if t[i] == '\n' || EndsSentence(t, i) { return i; }
    at := ScanFinds(p, t, floor, i - 1, colon);
  }

  lemma {:induction false} NearIs(t: string, index: nat, i: int, line: nat)
    requires -1 <= i <= index < |t| && (i >= 0 ==> NoBreak(t, i, index))
    ensures NearLineStart(t, index, i) == Some(line) <==> LineNear(t, index, line) && line <= i
    decreases i + 1
  {
    if 0 < i && index - i <= LINE_PREFIX_SPAN && t[i - 1] != '\n' { NearIs(t, index, i - 1, line); }
  }

  lemma AfterIs(p: Patterns, t: string, i: nat, start: nat, ofLine: bool)
    requires i + 1 < |t| && t[i] != '\n'
    ensures AfterSentence(p, t, i) == StartAt(start, ofLine) <==> StartsAfter(p, t, i, start, ofLine)
  {
    hide NearLineStart, LineNear;
    var line := NearLineStart(t, i, i);
    forall l: nat | l <= i ensures (line == Some(l) <==> LineNear(t, i, l)) && Markup(p, t, l) == PrefixAt(p, t, l) {
      NearIs(t, i, i, l);
    }
    LineNearWithin(t, i, start);
    if line.None? || line.value + PrefixAt(p, t, line.value).length <= i {
      forall l: nat ensures !InMarkup(p, t, i, l) { LineNearWithin(t, i, l); }
    } else {
      assert InMarkup(p, t, i, line.value);
    }
  }

  lemma LineNearWithin(t: string, i: nat, line: nat)
    ensures LineNear(t, i, line) ==> line <= i
  {
  }

  lemma OneLastEnd(t: string, colon: nat, i: nat, j: nat)
    requires LastEnd(t, colon, i) && LastEnd(t, colon, j)
    ensures i == j
  {
    hide SentenceEnd;
  }

  /** Where a clause starts is the place the description gives, and the only one. */
  lemma ClauseIs(p: Patterns, t: string, colon: nat, start: nat, ofLine: bool)
    requires colon < |t|
    ensures ClauseAt(p, t, colon + 1) == StartAt(start, ofLine) <==> StartsClause(p, t, colon, start, ofLine)
  {
    hide Scan, StartsAfter, AfterSentence, SentenceEnd;
    var at := ScanFinds(p, t, Max(0, colon - 240), colon - 1, colon);
    if at >= 0 {
      if t[at] == '\n' { AtBreak(p, t, at, start, ofLine); } else { AfterIs(p, t, at, start, ofLine); }
      forall i: nat | LastEnd(t, colon, i) ensures i == at { OneLastEnd(t, colon, i, at); }
    } else {
      forall i: nat | LastEnd(t, colon, i) ensures false {}
    }
  }

  lemma AtBreak(p: Patterns, t: string, i: nat, start: nat, ofLine: bool)
    requires i < |t| && t[i] == '\n'
    ensures StartsAfter(p, t, i, start, ofLine) <==> start == i + 1 && ofLine
  {
  }

  lemma {:induction false} SkipTabsIs(t: string, from: nat)
    ensures var r := SkipTabs(t, from);
            && from <= r <= Max(from, |t|)
            && (forall k :: from <= k < r && k < |t| ==> t[k] == ' ' || t[k] == '\t')
            && (r < |t| ==> t[r] != ' ' && t[r] != '\t')
    decreases |t| - from
  {
    if from < |t| && (t[from] == ' ' || t[from] == '\t') { SkipTabsIs(t, from + 1); }
  }

  lemma ContentIs(p: Patterns, t: string, colon: nat, start: nat, ofLine: bool, content: nat)
    requires start <= |t| && colon < |t|
    ensures ClauseText(p, t, colon, start, ofLine, content)
       <==> content == SkipTabs(t, start + if ofLine then PrefixAt(p, t, start).length else 0)
  {
    hide SkipTabs;
    SkipTabsIs(t, start + if ofLine then PrefixAt(p, t, start).length else 0);
    assert Markup(p, t, start) == PrefixAt(p, t, start);
  }

  lemma OccursLater(s: string, part: string, i: nat)
    requires s != ""
    ensures OccursAt(s, part, i + 1) <==> OccursAt(s[1..], part, i)
  {
    var n := |part|;
    if i + 1 + n <= |s| { assert s[i + 1..i + 1 + n] == s[1..][i..i + n]; }
  }

  lemma {:induction false} ContainsIs(s: string, part: string)
    ensures Contains(s, part) <==> Occurs(s, part)
  {
    if |part| <= |s| {
      assert OccursAt(s, part, 0) <==> s[..|part|] == part;
      if s != "" {
        ContainsIs(s[1..], part);
        if i: nat :| OccursAt(s, part, i) { if i > 0 { OccursLater(s, part, i - 1); } }
        if i: nat :| OccursAt(s[1..], part, i) { OccursLater(s, part, i); }
      }
    }
  }

  lemma {:induction false} LastColonIs(s: string, i: int)
    requires i >= -1
    ensures var r := LastColon(s, i);
            && -1 <= r <= i && (r >= 0 ==> r < |s| && s[r] == ':')
            && forall k :: r < k <= i && k < |s| ==> s[k] != ':'
    decreases i + 1
  {
    if i >= 0 && !(i < |s| && s[i] == ':') { LastColonIs(s, i - 1); }
  }

  lemma {:induction false} TrimStartCuts(s: string, from: nat) returns (r: nat)
    requires from <= |s|
    ensures from <= r <= |s| && TrimStart(s[from..]) == s[r..]
    ensures (forall k :: from <= k < r ==> IsSpace(s[k])) && (r < |s| ==> !IsSpace(s[r]))
    decreases |s| - from
  {
    hide IsSpace;
    r := from;
    if from < |s| && IsSpace(s[from]) {
      assert s[from..][1..] == s[from + 1..];
      r := TrimStartCuts(s, from + 1);
    }
  }

  lemma {:induction false} EmphasisCuts(s: string, from: nat) returns (r: nat)
    requires from <= |s|
    ensures from <= r <= |s| && StripEmphasis(s[from..]) == s[r..]
    ensures (forall k :: from <= k < r ==> IsEmphasis(s[k])) && (r < |s| ==> !IsEmphasis(s[r]))
    decreases |s| - from
  {
    hide IsEmphasis;
    r := from;
    if from < |s| && IsEmphasis(s[from]) {
      assert s[from..][1..] == s[from + 1..];
      r := EmphasisCuts(s, from + 1);
    }
  }

  lemma LastPartIs(clause: string) returns (first: nat, word: nat, text: nat)
    ensures LastPart(clause, first, word, text) && LastSegment(clause) == clause[text..]
  {
    hide IsSpace, LastColon, TrimStart, StripEmphasis;
    LastColonIs(clause, Max(0, |clause| - 2));
    first := LastColon(clause, Max(0, |clause| - 2)) + 1;
    word := TrimStartCuts(clause, first);
    text := EmphasisCuts(clause, word);
  }

  lemma OneLastPart(clause: string, first: nat, word: nat, text: nat, first': nat, word': nat, text': nat)
    requires LastPart(clause, first, word, text) && LastPart(clause, first', word', text')
    ensures text == text'
  {
    hide IsSpace;
    assert first == first';
    assert word == word';
    assert !(text < text') && !(text' < text);
  }

  lemma PointsIs(p: Patterns, t: string, colon: nat, start: nat, ofLine: bool)
    requires start <= |t| && colon < |t|
    ensures MayDrop(p, t, colon + 1, start, ofLine) <==> exists content: nat :: Points(p, t, colon, start, ofLine, content)
  {
    hide SkipTabs, LastPart, LastSegment, Contains, Occurs, ClauseText;
    var content := SkipTabs(t, start + if ofLine then PrefixAt(p, t, start).length else 0);
    assert Markup(p, t, start) == PrefixAt(p, t, start);
    forall c: nat ensures ClauseText(p, t, colon, start, ofLine, c) <==> c == content { ContentIs(p, t, colon, start, ofLine, c); }
    var clause, closing := Through(t, content, colon), t[colon + 1..];
    ThroughIs(t, content, colon);
    ContainsIs(clause, closing);
    if closing == "" { OccursNothing(clause); }
    var first, word, text := LastPartIs(clause);
    forall f: nat, w: nat, x: nat | LastPart(clause, f, w, x) ensures x == text { OneLastPart(clause, first, word, text, f, w, x); }
    if MayDrop(p, t, colon + 1, start, ofLine) { assert Points(p, t, colon, start, ofLine, content); }
  }

  lemma OccursNothing(s: string)
    ensures Occurs(s, "")
  {
    assert OccursAt(s, "", 0);
  }

  // ---------------------------------------------------------------- what is dropped

  /** The text loses the lead-in it ends in, and the white space around it, and any
      other text is left as it is. */
  lemma DropsExactly(p: Patterns, text: string)
    ensures var t := TrimEnd(text);
            && (forall colon: nat, start: nat, ofLine: bool, content: nat :: IsLeadIn(p, t, colon, start, ofLine, content) ==>
                  start <= colon < |t| && DropLeadIn(p, text) == TrimEnd(t[..start]))
            && ((forall colon: nat, start: nat, ofLine: bool, content: nat :: !IsLeadIn(p, t, colon, start, ofLine, content)) ==>
                  DropLeadIn(p, text) == text)
  {
    hide EmphasisStart, ClauseAt, MayDrop, StartsClause, Points, TrimEnd;
    var t := TrimEnd(text);
    var end := EmphasisStart(t, |t|);
    EmphasisStartFinds(t, |t|);
    forall colon: nat, start: nat, ofLine: bool, content: nat | IsLeadIn(p, t, colon, start, ofLine, content)
      ensures start <= colon < |t| && DropLeadIn(p, text) == TrimEnd(t[..start])
    {
      ClauseIs(p, t, colon, start, ofLine);
      PointsIs(p, t, colon, start, ofLine);
    }
    if DropLeadIn(p, text) != text {
      var found := ClauseAt(p, t, end);
      ClauseIs(p, t, end - 1, found.at, found.atLineStart);
      PointsIs(p, t, end - 1, found.at, found.atLineStart);
      var content: nat :| Points(p, t, end - 1, found.at, found.atLineStart, content);
      assert IsLeadIn(p, t, end - 1, found.at, found.atLineStart, content);
    }
  }

  /** So a line that is one clause of 240 characters at most and points at the link is
      dropped whole, and the space before it. */
  lemma PointerLineGoes(p: Patterns, text: string, start: nat, colon: nat, content: nat)
    requires var t := TrimEnd(text);
             && ClosingColon(t, colon)
             && start <= colon < start + 240
             && (start == 0 || t[start - 1] == '\n')
             && (forall k :: start <= k < colon ==> t[k] != '\n' && !SentenceEnd(t, k))
             && Points(p, t, colon, start, true, content)
    ensures DropLeadIn(p, text) == TrimEnd(TrimEnd(text)[..start])
  {
    hide TrimEnd, Points, SentenceEnd, DropLeadIn;
    var t := TrimEnd(text);
    if start > 0 {
      assert LastEnd(t, colon, start - 1);
      AtBreak(p, t, start - 1, start, true);
    }
    assert IsLeadIn(p, t, colon, start, true, content);
    DropsExactly(p, text);
  }
}

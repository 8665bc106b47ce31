/** Carded links lifted out of an answer's prose (apps/channel-adapter/src/mirror.ts:151-243). */
module LinkLifting {
  import opened Wrappers
  import opened Text
  import opened Bytes
  import opened CardLinks
  import opened LeadIn

  // ---------------------------------------------------------------- one link's line

  /** A lifted line: where it begins, and where the text goes on after it. */
  datatype Lift = Lift(start: nat, resume: nat)

  /** Walk back to the line's start, or as far as markup could reach. */
  function LineStart(answer: string, cursor: nat, from: nat, start: nat): (r: nat)
    requires cursor <= start <= from <= |answer|
    ensures cursor <= r <= start
    decreases start
  {
    if start > cursor && from - start <= LINE_PREFIX_SPAN && answer[start - 1] != '\n'
    then LineStart(answer, cursor, from, start - 1) else start
  }

  predicate IsBlankChar(c: char) {
    c == ' ' || c == '\t' || c == '\r'
  }

  function SkipBlank(answer: string, end: nat): (r: nat)
    requires end <= |answer|
    ensures end <= r <= |answer|
    ensures forall k :: end <= k < r ==> IsBlankChar(answer[k])
    decreases |answer| - end
  {
    if end < |answer| && IsBlankChar(answer[end]) then SkipBlank(answer, end + 1) else end
  }

  /** `resume`, or the end of the last blank line that starts at `k` or later. */
  function Resume(answer: string, k: nat, resume: nat): (r: nat)
    requires resume <= k <= |answer|
    ensures resume <= r <= |answer|
    ensures r > resume ==> forall j :: k <= j < r ==> IsBlankChar(answer[j]) || answer[j] == '\n'
    decreases |answer| - k
  {
    if k < |answer| && (IsBlankChar(answer[k]) || answer[k] == '\n')
    then Resume(answer, k + 1, if answer[k] == '\n' then k + 1 else resume)
    else resume
  }

  function LiftedLine(p: Patterns, answer: string, cursor: nat, m: Match): (r: Option<Lift>)
    requires cursor <= |answer| && m.start <= m.end <= |answer|
    ensures r.Some? ==> cursor <= r.value.start <= Max(cursor, m.start) && m.end <= r.value.resume <= |answer|
  {
    var from := Max(cursor, m.start);
    var start := LineStart(answer, cursor, from, from);
    if start > 0 && answer[start - 1] != '\n' then None
    else if !p.markupOnly(answer[start..from]) then None
    else
      var end := SkipBlank(answer, m.end);
      if end < |answer| && answer[end] != '\n' then None else Some(Lift(start, Resume(answer, end, end)))
  }

  method WalkBack(answer: string, cursor: nat, from: nat) returns (start: nat)
    requires cursor <= from <= |answer|
    ensures start == LineStart(answer, cursor, from, from)
  {
    start := from;
    while start > cursor && from - start <= LINE_PREFIX_SPAN && answer[start - 1] != '\n'
      invariant cursor <= start <= from
      invariant LineStart(answer, cursor, from, from) == LineStart(answer, cursor, from, start)
    {
      start := start - 1;
    }
  }

  method WalkPastBlanks(answer: string, end: nat) returns (resume: nat)
    requires end <= |answer|
    ensures resume == Resume(answer, end, end)
  {
    resume := end;
    var k := end;
    while k < |answer| && (IsBlankChar(answer[k]) || answer[k] == '\n')
      invariant end <= resume <= k <= |answer|
      invariant Resume(answer, end, end) == Resume(answer, k, resume)
    {
      if answer[k] == '\n' { resume := k + 1; }
      k := k + 1;
    }
  }

  method LineOf(p: Patterns, answer: string, cursor: nat, m: Match) returns (lifted: Option<Lift>)
    requires cursor <= |answer| && m.start <= m.end <= |answer|
    ensures lifted == LiftedLine(p, answer, cursor, m)
  {
    hide LineStart, Resume;
    var from := Max(cursor, m.start);
    var start := WalkBack(answer, cursor, from);
    if start > 0 && answer[start - 1] != '\n' { return None; }
    if !p.markupOnly(answer[start..from]) { return None; }
    var end := m.end;
    while end < |answer| && IsBlankChar(answer[end])
      invariant m.end <= end <= |answer|
      invariant SkipBlank(answer, m.end) == SkipBlank(answer, end)
    {
      end := end + 1;
    }
    if end < |answer| && answer[end] != '\n' { return None; }
    var resume := WalkPastBlanks(answer, end);
    return Some(Lift(start, resume));
  }

  /** A link is lifted only from a line with nothing else on it: ahead of it, back
      to where the line begins, only markup; after it only white space. */
  lemma LiftsWholeLine(p: Patterns, answer: string, cursor: nat, m: Match)
    requires cursor <= |answer| && m.start <= m.end <= |answer|
    ensures var r := LiftedLine(p, answer, cursor, m);
            r.Some? ==>
              && (r.value.start == 0 || answer[r.value.start - 1] == '\n')
              && p.markupOnly(answer[r.value.start..Max(cursor, m.start)])
              && (forall k :: m.end <= k < r.value.resume ==> IsSpace(answer[k]))
              && (r.value.resume < |answer| ==> r.value.resume > m.end)
  {
    var end := SkipBlank(answer, m.end);
    if end < |answer| && answer[end] == '\n' { ResumePast(answer, end); }
  }

  lemma {:induction false} ResumeGrows(answer: string, k: nat, resume: nat)
    requires resume <= k <= |answer|
    ensures Resume(answer, k, resume) >= resume
  {
  }

  lemma ResumePast(answer: string, end: nat)
    requires end < |answer| && answer[end] == '\n'
    ensures Resume(answer, end, end) > end
  {
    ResumeGrows(answer, end + 1, end + 1);
  }

  lemma {:induction false} LineStartIs(answer: string, cursor: nat, from: nat, start: nat, line: nat)
    requires cursor <= line <= start <= from <= |answer| && from - line <= LINE_PREFIX_SPAN
    requires line == 0 || answer[line - 1] == '\n'
    requires NoBreak(answer, line, start)
    ensures LineStart(answer, cursor, from, start) == line
    decreases start
  {
    if start > line { LineStartIs(answer, cursor, from, start - 1, line); }
  }

  lemma {:induction false} SkipBlankIs(answer: string, from: nat, end: nat)
    requires from <= end <= |answer| && (end == |answer| || answer[end] == '\n')
    requires forall k :: from <= k < end ==> IsBlankChar(answer[k])
    ensures SkipBlank(answer, from) == end
    decreases end - from
  {
    if from < end { SkipBlankIs(answer, from + 1, end); }
  }

  /** And a link that has its line to itself is lifted with all of it. */
  lemma AloneIsLifted(p: Patterns, answer: string, cursor: nat, m: Match, line: nat, end: nat)
    requires cursor <= line <= m.start <= m.end <= end <= |answer| && m.start - line <= LINE_PREFIX_SPAN
    requires line == 0 || answer[line - 1] == '\n'
    requires NoBreak(answer, line, m.start) && p.markupOnly(answer[line..m.start])
    requires end == |answer| || answer[end] == '\n'
    requires forall k :: m.end <= k < end ==> IsBlankChar(answer[k])
    ensures var r := LiftedLine(p, answer, cursor, m);
            r.Some? && r.value.start == line && (end == |answer| || r.value.resume > end)
  {
    LineStartIs(answer, cursor, m.start, m.start, line);
    SkipBlankIs(answer, m.end, end);
    if end < |answer| { ResumePast(answer, end); }
  }

  // ---------------------------------------------------------------- splicing

  /** Where a character of the prose comes from: the answer, or a break put in. */
  datatype Source = From(at: nat) | Break

  function CharOf(answer: string, s: Source): char {
    if s.From? && s.at < |answer| then answer[s.at] else '\n'
  }

  function Render(answer: string, out: seq<Source>): string {
    seq(|out|, i requires 0 <= i < |out| => CharOf(answer, out[i]))
  }

  function Range(from: nat, to: nat): seq<Source> {
    if from < to then seq(to - from, i requires 0 <= i => From(from + i)) else []
  }

  /** The break owed where a line was lifted is counted in line breaks: 0, 1 or 2. */
  datatype Splice = Splice(out: seq<Source>, cursor: nat, owed: nat)

  const Begin := Splice([], 0, 0)

  function Breaks(n: nat): seq<Source> {
    seq(n, i => Break)
  }

  function Append(s: Splice, from: nat, to: nat): Splice {
    if from >= to then s
    else s.(out := s.out + (if s.out != [] then Breaks(s.owed) else []) + Range(from, to), owed := 0)
  }

  /** Two line breaks with nothing but blanks between. */
  predicate BreakFollows(s: string) {
    s != "" && (s[0] == '\n' || (IsBlankChar(s[0]) && BreakFollows(s[1..])))
  }

  predicate HasBlankLine(s: string) {
    s != "" && ((s[0] == '\n' && BreakFollows(s[1..])) || HasBlankLine(s[1..]))
  }

  /** What stays of the text before a lifted line. */
  function KeptBefore(p: Patterns, before: string): string {
    TrimEnd(DropLeadIn(p, before))
  }

  function Spliced(p: Patterns, answer: string, s: Splice, m: Match): Splice
    requires s.cursor <= |answer| && m.start <= m.end <= |answer|
  {
    match LiftedLine(p, answer, s.cursor, m)
    case None => Append(s, s.cursor, m.start).(cursor := Max(s.cursor, m.end))
    case Some(lift) =>
      var before := answer[s.cursor..lift.start];
      var kept := KeptBefore(p, before);
      var t := Append(s, s.cursor, s.cursor + |kept|);
      var paragraph := HasBlankLine(Slice(before, |kept|, |before|)) || HasBlankLine(answer[m.end..lift.resume]);
      t.(owed := if t.owed == 2 || paragraph then 2 else 1, cursor := Max(s.cursor, lift.resume))
  }

  ghost predicate Located(answer: string, matches: seq<Match>) {
    forall i :: 0 <= i < |matches| ==> matches[i].start <= matches[i].end <= |answer|
  }

  function After(p: Patterns, answer: string, matches: seq<Match>, carded: set<string>): (s: Splice)
    requires Located(answer, matches)
    ensures s.cursor <= |answer|
  {
    if matches == [] then Begin
    else
      var s := After(p, answer, matches[..|matches| - 1], carded);
      var m := matches[|matches| - 1];
      if m.provider in carded then Spliced(p, answer, s, m) else s
  }

  /** The whole prose, before it is trimmed. */
  function Whole(p: Patterns, answer: string, matches: seq<Match>, carded: set<string>): seq<Source>
    requires Located(answer, matches)
  {
    var s := After(p, answer, matches, carded);
    Append(s, s.cursor, |answer|).out
  }

  function Prose(p: Patterns, answer: string, matches: seq<Match>, carded: set<string>): string
    requires Located(answer, matches)
  {
    Trim(Render(answer, Whole(p, answer, matches, carded)))
  }

  // ---------------------------------------------------------------- the loop over strings

  function BreakText(n: nat): string {
    seq(n, i => '\n')
  }

  lemma RenderAppend(answer: string, s: Splice, from: nat, to: nat)
    requires from < to <= |answer|
    ensures Render(answer, Append(s, from, to).out)
            == Render(answer, s.out) + (if s.out != [] then BreakText(s.owed) else "") + answer[from..to]
  {
    var a := Render(answer, s.out + (if s.out != [] then Breaks(s.owed) else []));
    assert a == Render(answer, s.out) + (if s.out != [] then BreakText(s.owed) else "");
    assert Render(answer, Range(from, to)) == answer[from..to];
    assert Render(answer, Append(s, from, to).out) == a + Render(answer, Range(from, to));
  }

  /** `append`: a line break owed is written once more text follows. */
  method AppendText(prose: string, owed: nat, text: string, ghost answer: string, ghost s: Splice, ghost from: nat)
    returns (prose': string, owed': nat)
    requires prose == Render(answer, s.out) && owed == s.owed
    requires from + |text| <= |answer| && text == answer[from..from + |text|]
    ensures prose' == Render(answer, Append(s, from, from + |text|).out) && owed' == Append(s, from, from + |text|).owed
  {
    if text == "" { return prose, owed; }
    RenderAppend(answer, s, from, from + |text|);
    prose' := prose;
    if prose != "" && owed > 0 { prose' := prose' + BreakText(owed); }
    prose' := prose' + text;
    owed' := 0;
  }

  /** Lift one carded link out. */
  method LiftOne(p: Patterns, answer: string, prose: string, owed: nat, cursor: nat, m: Match, ghost s: Splice)
    returns (prose': string, owed': nat, cursor': nat)
    requires s.cursor == cursor <= |answer| && m.start <= m.end <= |answer|
    requires prose == Render(answer, s.out) && owed == s.owed
    ensures var t := Spliced(p, answer, s, m);
            prose' == Render(answer, t.out) && owed' == t.owed && cursor' == t.cursor
  {
    hide Append, Render, LiftedLine, DropLeadIn, TrimEnd;
    var lifted := LineOf(p, answer, cursor, m);
    if lifted.None? {
      prose', owed' := AppendText(prose, owed, Slice(answer, cursor, m.start), answer, s, cursor);
      AppendSlice(s, cursor, m.start, |Slice(answer, cursor, m.start)|);
      cursor' := Max(cursor, m.end);
      return;
    }
    var lift := lifted.value;
    var before := answer[cursor..lift.start];
    var dropped := DropDanglingLeadIn(p, before);
    var kept := TrimEnd(dropped);
    KeptIsPrefix(p, before);
    assert kept == answer[cursor..cursor + |kept|];
    prose', owed' := AppendText(prose, owed, kept, answer, s, cursor);
    assert Slice(before, |kept|, |before|) == before[|kept|..];
    var paragraph := HasBlankLine(before[|kept|..]) || HasBlankLine(answer[m.end..lift.resume]);
    owed' := if owed' == 2 || paragraph then 2 else 1;
    cursor' := Max(cursor, lift.resume);
  }

  method ProseWithoutCardedLinks(p: Patterns, answer: string, matches: seq<Match>, carded: set<string>) returns (prose: string)
    requires Located(answer, matches)
    ensures prose == Prose(p, answer, matches, carded)
  {
    hide Append, Render, Spliced, Trim;
    RenderNothing(answer);
    prose := "";
    var cursor, owed := 0, 0;
    for i := 0 to |matches|
      invariant cursor <= |answer|
      invariant var s := After(p, answer, matches[..i], carded);
                prose == Render(answer, s.out) && cursor == s.cursor && owed == s.owed
    {
      AfterNext(p, answer, matches, carded, i);
      if matches[i].provider in carded {
        prose, owed, cursor := LiftOne(p, answer, prose, owed, cursor, matches[i], After(p, answer, matches[..i], carded));
      }
    }
    assert matches[..|matches|] == matches;
    prose, owed := AppendText(prose, owed, answer[cursor..], answer, After(p, answer, matches, carded), cursor);
    prose := Trim(prose);
  }

  lemma AfterNext(p: Patterns, answer: string, matches: seq<Match>, carded: set<string>, i: nat)
    requires Located(answer, matches) && i < |matches|
    ensures After(p, answer, matches[..i + 1], carded)
            == var s := After(p, answer, matches[..i], carded);
               if matches[i].provider in carded then Spliced(p, answer, s, matches[i]) else s
  {
    hide Spliced;
    assert matches[..i + 1][..i] == matches[..i];
  }

  lemma RenderNothing(answer: string)
    ensures Render(answer, []) == ""
  {
  }

  lemma AppendSlice(s: Splice, from: nat, to: nat, length: nat)
    requires length == if from < to then to - from else 0
    ensures Append(s, from, from + length) == Append(s, from, to)
  {
  }

  lemma KeptIsPrefix(p: Patterns, before: string)
    ensures |KeptBefore(p, before)| <= |before| && KeptBefore(p, before) == before[..|KeptBefore(p, before)|]
  {
    var _, _, _ := DropsOneLine(p, before);
    TrimEndPrefix(DropLeadIn(p, before));
    hide DropLeadIn;
  }

  // ---------------------------------------------------------------- what the prose is made of

  /** In the order of the answer, each character at most once, none past `to`. */
  ghost predicate Ascending(out: seq<Source>, to: nat) {
    && (forall i, j :: 0 <= i < j < |out| && out[i].From? && out[j].From? ==> out[i].at < out[j].at)
    && (forall i :: 0 <= i < |out| && out[i].From? ==> out[i].at < to)
  }

  /** Where each match's URL sits in its span; the URLs are in order and disjoint. */
  ghost predicate UrlsAt(answer: string, matches: seq<Match>, urls: seq<nat>) {
    && Located(answer, matches)
    && |urls| == |matches|
    && (forall i :: 0 <= i < |matches| ==> matches[i].start <= urls[i] <= urls[i] + |matches[i].url| <= matches[i].end)
    && (forall i, j :: 0 <= i < j < |matches| ==> urls[i] + |matches[i].url| <= urls[j])
  }

  ghost predicate InUrl(matches: seq<Match>, urls: seq<nat>, k: nat, at: nat)
    requires k < |matches| == |urls|
  {
    urls[k] <= at < urls[k] + |matches[k].url|
  }

  ghost predicate AvoidsUrls(matches: seq<Match>, urls: seq<nat>, carded: set<string>, out: seq<Source>)
    requires |matches| == |urls|
  {
    forall i, k :: 0 <= i < |out| && out[i].From? && 0 <= k < |matches| && matches[k].provider in carded ==>
      !InUrl(matches, urls, k, out[i].at)
  }

  lemma AppendAscends(s: Splice, from: nat, to: nat)
    requires Ascending(s.out, from)
    ensures Ascending(Append(s, from, to).out, Max(from, to))
  {
  }

  /** What one append may add. */
  lemma AppendAdds(s: Splice, from: nat, to: nat)
    ensures var t := Append(s, from, to);
            && |s.out| <= |t.out| && t.out[..|s.out|] == s.out
            && forall i :: |s.out| <= i < |t.out| && t.out[i].From? ==> from <= t.out[i].at < to
  {
    if from < to {
      var t := Append(s, from, to);
      var breaks := if s.out != [] then Breaks(s.owed) else [];
      assert t.out == s.out + (breaks + Range(from, to));
      assert t.out[|s.out|..] == breaks + Range(from, to);
      forall i | |s.out| <= i < |t.out| && t.out[i].From? ensures from <= t.out[i].at < to {
        assert t.out[i] == (breaks + Range(from, to))[i - |s.out|];
      }
    }
  }

  lemma AppendNone(s: Splice, from: nat, to: nat)
    requires to <= from
    ensures Append(s, from, to) == s
  {
  }

  /** A match adds only text between the cursor and its own URL, and moves the
      cursor past its end. */
  lemma SplicedView(p: Patterns, answer: string, s: Splice, m: Match) returns (to: nat)
    requires s.cursor <= |answer| && m.start <= m.end <= |answer| && Ascending(s.out, s.cursor)
    ensures to <= Max(s.cursor, m.start)
    ensures Spliced(p, answer, s, m).out == Append(s, s.cursor, to).out
    ensures Max(s.cursor, m.end) <= Spliced(p, answer, s, m).cursor <= |answer|
    ensures Ascending(Spliced(p, answer, s, m).out, Spliced(p, answer, s, m).cursor)
  {
    hide LiftedLine, Append, DropLeadIn, Ascending, KeptBefore;
    var lifted := LiftedLine(p, answer, s.cursor, m);
    to := m.start;
    if lifted.Some? {
      KeptIsPrefix(p, answer[s.cursor..lifted.value.start]);
      to := s.cursor + |KeptBefore(p, answer[s.cursor..lifted.value.start])|;
    }
    AppendAscends(s, s.cursor, to);
    HigherBound(Append(s, s.cursor, to).out, Max(s.cursor, to), Spliced(p, answer, s, m).cursor);
  }

  lemma HigherBound(out: seq<Source>, a: nat, b: nat)
    requires Ascending(out, a) && a <= b
    ensures Ascending(out, b)
  {
  }

  lemma SkipsUrl(matches: seq<Match>, urls: seq<nat>, carded: set<string>, before: seq<Source>, out: seq<Source>, from: nat, to: nat)
    requires |matches| == |urls| && AvoidsUrls(matches, urls, carded, before)
    requires |before| <= |out| && out[..|before|] == before
    requires forall i :: |before| <= i < |out| && out[i].From? ==> from <= out[i].at < to
    requires forall k :: 0 <= k < |matches| && matches[k].provider in carded ==>
               urls[k] + |matches[k].url| <= from || to <= urls[k]
    ensures AvoidsUrls(matches, urls, carded, out)
  {
    hide UrlsAt;
    forall i, k | 0 <= i < |out| && out[i].From? && 0 <= k < |matches| && matches[k].provider in carded
      ensures !InUrl(matches, urls, k, out[i].at)
    {
      if i < |before| { assert out[i] == before[i]; }
    }
  }

  /** After the first `n` matches: ascending, past every carded URL so far, and
      clear of all of them, met or not. */
  lemma {:induction false} AfterKeeps(p: Patterns, answer: string, matches: seq<Match>, urls: seq<nat>, carded: set<string>, n: nat)
    requires UrlsAt(answer, matches, urls) && n <= |matches|
    ensures var s := After(p, answer, matches[..n], carded);
            && Ascending(s.out, s.cursor)
            && (forall k :: 0 <= k < n && matches[k].provider in carded ==> urls[k] + |matches[k].url| <= s.cursor)
            && AvoidsUrls(matches, urls, carded, s.out)
  {
    hide Spliced, Ascending, AvoidsUrls;
    if n == 0 {
      NothingYet(matches, urls, carded);
    } else {
      AfterKeeps(p, answer, matches, urls, carded, n - 1);
      AfterNext(p, answer, matches, carded, n - 1);
      var s, m := After(p, answer, matches[..n - 1], carded), matches[n - 1];
      if m.provider in carded {
        var to := SplicedView(p, answer, s, m);
        var t := Spliced(p, answer, s, m);
        if to <= s.cursor {
          AppendNone(s, s.cursor, to);
        } else {
          AppendAdds(s, s.cursor, to);
          UpToOwnUrl(answer, matches, urls, carded, n - 1, s.cursor, to);
          SkipsUrl(matches, urls, carded, s.out, t.out, s.cursor, to);
        }
      }
    }
  }

  lemma NothingYet(matches: seq<Match>, urls: seq<nat>, carded: set<string>)
    requires |matches| == |urls|
    ensures Ascending([], 0) && AvoidsUrls(matches, urls, carded, [])
  {
  }

  /** Text between the cursor and match `k` meets no carded URL. */
  lemma UpToOwnUrl(answer: string, matches: seq<Match>, urls: seq<nat>, carded: set<string>, k: nat, cursor: nat, to: nat)
    requires UrlsAt(answer, matches, urls) && k < |matches| && cursor < to <= Max(cursor, matches[k].start)
    requires forall j :: 0 <= j < k && matches[j].provider in carded ==> urls[j] + |matches[j].url| <= cursor
    ensures forall j :: 0 <= j < |matches| && matches[j].provider in carded ==>
              urls[j] + |matches[j].url| <= cursor || to <= urls[j]
  {
  }

  // The whole prose.

  lemma {:induction false} AfterAscends(p: Patterns, answer: string, matches: seq<Match>, carded: set<string>)
    requires Located(answer, matches)
    ensures Ascending(After(p, answer, matches, carded).out, After(p, answer, matches, carded).cursor)
  {
    hide Spliced, Ascending;
    if matches == [] {
      NothingYet([], [], carded);
    } else {
      var before, m := matches[..|matches| - 1], matches[|matches| - 1];
      AfterAscends(p, answer, before, carded);
      if m.provider in carded { var _ := SplicedView(p, answer, After(p, answer, before, carded), m); }
    }
  }

  lemma WholeAscends(p: Patterns, answer: string, matches: seq<Match>, carded: set<string>)
    requires Located(answer, matches)
    ensures Ascending(Whole(p, answer, matches, carded), |answer|)
  {
    hide After, Ascending, Append;
    AfterAscends(p, answer, matches, carded);
    var s := After(p, answer, matches, carded);
    AppendAscends(s, s.cursor, |answer|);
  }

  lemma WholeAvoids(p: Patterns, answer: string, matches: seq<Match>, urls: seq<nat>, carded: set<string>)
    requires UrlsAt(answer, matches, urls)
    ensures AvoidsUrls(matches, urls, carded, Whole(p, answer, matches, carded))
  {
    hide After, Ascending, AvoidsUrls, Append;
    assert matches[..|matches|] == matches;
    AfterKeeps(p, answer, matches, urls, carded, |matches|);
    var s := After(p, answer, matches, carded);
    AppendAdds(s, s.cursor, |answer|);
    SkipsUrl(matches, urls, carded, s.out, Append(s, s.cursor, |answer|).out, s.cursor, |answer|);
  }

  lemma SliceAscends(out: seq<Source>, to: nat, a: nat, b: nat)
    requires a <= b <= |out| && Ascending(out, to)
    ensures Ascending(out[a..b], to)
  {
    var part := out[a..b];
    assert forall i :: 0 <= i < |part| ==> part[i] == out[a + i];
  }

  lemma SliceAvoids(matches: seq<Match>, urls: seq<nat>, carded: set<string>, out: seq<Source>, a: nat, b: nat)
    requires |matches| == |urls| && a <= b <= |out| && AvoidsUrls(matches, urls, carded, out)
    ensures AvoidsUrls(matches, urls, carded, out[a..b])
  {
    hide InUrl;
    var part := out[a..b];
    assert forall i :: 0 <= i < |part| ==> part[i] == out[a + i];
  }

  lemma {:induction false} NoneCarded(p: Patterns, answer: string, matches: seq<Match>, carded: set<string>)
    requires Located(answer, matches) && forall i :: 0 <= i < |matches| ==> matches[i].provider !in carded
    ensures After(p, answer, matches, carded) == Begin
  {
    if matches != [] { NoneCarded(p, answer, matches[..|matches| - 1], carded); }
  }

  /** An answer with no carded link is only trimmed. */
  lemma NothingCardedTrims(p: Patterns, answer: string, matches: seq<Match>, carded: set<string>)
    requires Located(answer, matches) && forall i :: 0 <= i < |matches| ==> matches[i].provider !in carded
    ensures Prose(p, answer, matches, carded) == Trim(answer)
  {
    hide Trim;
    NoneCarded(p, answer, matches, carded);
    if answer != "" {
      RenderAppend(answer, Begin, 0, |answer|);
      assert Render(answer, Begin.out) == "" && answer[0..|answer|] == answer;
      assert Render(answer, Whole(p, answer, matches, carded)) == answer;
    } else {
      assert Render(answer, Whole(p, answer, matches, carded)) == answer;
    }
  }

  // ---------------------------------------------------------------- the breaks put in

  /** Breaks stand only between kept text, at most two together. */
  ghost predicate BreaksRight(s: Splice) {
    && s.owed <= 2
    && (s.out != [] ==> s.out[0].From? && s.out[|s.out| - 1].From?)
    && forall i :: 0 <= i < |s.out| - 2 ==> s.out[i].From? || s.out[i + 1].From? || s.out[i + 2].From?
  }

  /** Text, two breaks at most, and more text. */
  lemma JoinedBreaks(a: seq<Source>, breaks: seq<Source>, c: seq<Source>, i: nat)
    requires |breaks| <= 2 && (a != [] ==> a[|a| - 1].From?) && (a == [] ==> breaks == [])
    requires forall k :: 0 <= k < |c| ==> c[k].From?
    requires forall k :: 0 <= k < |a| - 2 ==> a[k].From? || a[k + 1].From? || a[k + 2].From?
    requires i + 2 < |a + breaks + c|
    ensures var out := a + breaks + c; out[i].From? || out[i + 1].From? || out[i + 2].From?
  {
    var out := a + breaks + c;
    if i + 2 < |a| {
      assert out[i] == a[i] && out[i + 1] == a[i + 1] && out[i + 2] == a[i + 2];
    } else if i < |a| {
      assert out[|a| - 1] == a[|a| - 1];
    } else {
      assert out[i + 2] == c[i + 2 - |a| - |breaks|];
    }
  }

  lemma AppendBreaks(s: Splice, from: nat, to: nat)
    requires BreaksRight(s)
    ensures BreaksRight(Append(s, from, to))
  {
    if from < to {
      var breaks := if s.out != [] then Breaks(s.owed) else [];
      var c := Range(from, to);
      var out := s.out + breaks + c;
      assert Append(s, from, to).out == out;
      assert c[0] == From(from) && c[|c| - 1] == From(to - 1);
      assert out[|out| - 1] == c[|c| - 1] && out[0] == if s.out != [] then s.out[0] else c[0];
      forall i | 0 <= i < |out| - 2 ensures out[i].From? || out[i + 1].From? || out[i + 2].From? {
        JoinedBreaks(s.out, breaks, c, i);
      }
    }
  }

  lemma {:induction false} AfterBreaks(p: Patterns, answer: string, matches: seq<Match>, carded: set<string>)
    requires Located(answer, matches)
    ensures BreaksRight(After(p, answer, matches, carded))
  {
    hide LiftedLine, KeptBefore, Append, BreaksRight;
    if matches == [] {
      NoBreaks();
    } else {
      var before, m := matches[..|matches| - 1], matches[|matches| - 1];
      AfterBreaks(p, answer, before, carded);
      var s := After(p, answer, before, carded);
      var lifted := LiftedLine(p, answer, s.cursor, m);
      if m.provider in carded {
        var to := if lifted.None? then m.start else s.cursor + |KeptBefore(p, answer[s.cursor..lifted.value.start])|;
        AppendBreaks(s, s.cursor, to);
        SameBreaks(Append(s, s.cursor, to), Spliced(p, answer, s, m));
      }
    }
  }

  lemma NoBreaks()
    ensures BreaksRight(Begin)
  {
  }

  lemma SameBreaks(s: Splice, t: Splice)
    requires BreaksRight(s) && t.out == s.out && (t.owed == s.owed || t.owed == 1 || t.owed == 2)
    ensures BreaksRight(t)
  {
  }

  /** Lifted lines never stack blank lines where they were, nor leave a break at
      either end of the text. */
  lemma NeverStacksBreaks(p: Patterns, answer: string, matches: seq<Match>, carded: set<string>)
    requires Located(answer, matches)
    ensures var out := Whole(p, answer, matches, carded);
            && (out != [] ==> out[0].From? && out[|out| - 1].From?)
            && forall i :: 0 <= i < |out| - 2 ==> out[i].From? || out[i + 1].From? || out[i + 2].From?
  {
    hide After, Append;
    AfterBreaks(p, answer, matches, carded);
    var s := After(p, answer, matches, carded);
    AppendBreaks(s, s.cursor, |answer|);
  }

  // ---------------------------------------------------------------- nothing else goes

  /** Why a character may be left out: it is in a carded link's span, or on the
      line that link had to itself, or in the lead-in that ends before that line. */
  ghost predicate Excused(p: Patterns, answer: string, m: Match, cursor: nat, at: nat)
    requires cursor <= |answer| && m.start <= m.end <= |answer|
  {
    || m.start <= at < m.end
    || (var lifted := LiftedLine(p, answer, cursor, m);
        lifted.Some? && at < lifted.value.resume
        && (|| lifted.value.start <= at
            || at >= cursor + |KeptBefore(p, answer[cursor..lifted.value.start])|))
  }

  /** The character is excused by a carded match, where the splice stood when it
      came to it. */
  ghost predicate MayGo(p: Patterns, answer: string, matches: seq<Match>, carded: set<string>, at: nat)
    requires Located(answer, matches)
  {
    exists k: nat :: k < |matches| && matches[k].provider in carded && GoesWith(p, answer, matches, carded, k, at)
  }

  ghost predicate GoesWith(p: Patterns, answer: string, matches: seq<Match>, carded: set<string>, k: nat, at: nat)
    requires Located(answer, matches) && k < |matches|
  {
    var s := After(p, answer, matches[..k], carded);
    s.cursor <= at && Excused(p, answer, matches[k], s.cursor, at)
  }

  lemma AppendHas(s: Splice, from: nat, to: nat, at: nat)
    ensures From(at) in s.out ==> From(at) in Append(s, from, to).out
    ensures from <= at < to ==> From(at) in Append(s, from, to).out
  {
    if from <= at < to { assert Range(from, to)[at - from] == From(at); }
  }

  lemma SplicedHas(p: Patterns, answer: string, s: Splice, m: Match, at: nat)
    requires s.cursor <= |answer| && m.start <= m.end <= |answer|
    ensures From(at) in s.out ==> From(at) in Spliced(p, answer, s, m).out
    ensures s.cursor <= at < Spliced(p, answer, s, m).cursor ==>
              From(at) in Spliced(p, answer, s, m).out || Excused(p, answer, m, s.cursor, at)
  {
    hide LiftedLine, Append, KeptBefore;
    match LiftedLine(p, answer, s.cursor, m)
    case None => AppendHas(s, s.cursor, m.start, at);
    case Some(lift) => AppendHas(s, s.cursor, s.cursor + |KeptBefore(p, answer[s.cursor..lift.start])|, at);
  }

  lemma {:induction false} AfterHas(p: Patterns, answer: string, matches: seq<Match>, carded: set<string>, n: nat, at: nat)
    requires Located(answer, matches) && n <= |matches|
    ensures at < After(p, answer, matches[..n], carded).cursor ==>
              From(at) in After(p, answer, matches[..n], carded).out || MayGo(p, answer, matches, carded, at)
  {
    hide Spliced, Excused;
    if n > 0 {
      AfterHas(p, answer, matches, carded, n - 1, at);
      AfterNext(p, answer, matches, carded, n - 1);
      var s := After(p, answer, matches[..n - 1], carded);
      SplicedHas(p, answer, s, matches[n - 1], at);
      if s.cursor <= at && matches[n - 1].provider in carded && Excused(p, answer, matches[n - 1], s.cursor, at) {
        assert GoesWith(p, answer, matches, carded, n - 1, at);
      }
    }
  }

  /** What an append may have: what was there and the text appended. */
  lemma AppendOnly(s: Splice, from: nat, to: nat, at: nat)
    requires From(at) in Append(s, from, to).out
    ensures From(at) in s.out || from <= at < to
  {
    if from < to && From(at) !in s.out {
      var t := Append(s, from, to);
      AppendAdds(s, from, to);
      var i :| 0 <= i < |t.out| && t.out[i] == From(at);
      if i < |s.out| { assert t.out[..|s.out|][i] == s.out[i]; }
    }
  }

  /** A match's own step puts in nothing it excuses, and leaves off at its end. */
  lemma SplicedOnly(p: Patterns, answer: string, s: Splice, m: Match, at: nat)
    requires s.cursor <= |answer| && m.start <= m.end <= |answer|
    ensures var t := Spliced(p, answer, s, m);
            && s.cursor <= t.cursor
            && (From(at) in t.out ==> From(at) in s.out || (s.cursor <= at < t.cursor && !Excused(p, answer, m, s.cursor, at)))
            && (s.cursor <= at && Excused(p, answer, m, s.cursor, at) ==> at < t.cursor)
  {
    hide LiftedLine, Append, KeptBefore, DropLeadIn;
    var t := Spliced(p, answer, s, m);
    match LiftedLine(p, answer, s.cursor, m)
    case None =>
      if From(at) in t.out { AppendOnly(s, s.cursor, m.start, at); }
    case Some(lift) =>
      KeptIsPrefix(p, answer[s.cursor..lift.start]);
      if From(at) in t.out { AppendOnly(s, s.cursor, s.cursor + |KeptBefore(p, answer[s.cursor..lift.start])|, at); }
  }

  lemma {:induction false} AfterOnly(p: Patterns, answer: string, matches: seq<Match>, carded: set<string>, n: nat, at: nat)
    requires Located(answer, matches) && n <= |matches|
    ensures var s := After(p, answer, matches[..n], carded);
            && (From(at) in s.out ==> at < s.cursor && forall k: nat :: k < n && matches[k].provider in carded ==> !GoesWith(p, answer, matches, carded, k, at))
            && forall k: nat :: k < n && matches[k].provider in carded && GoesWith(p, answer, matches, carded, k, at) ==> at < s.cursor
  {
    hide Spliced, Excused;
    if n > 0 {
      AfterOnly(p, answer, matches, carded, n - 1, at);
      AfterNext(p, answer, matches, carded, n - 1);
      SplicedOnly(p, answer, After(p, answer, matches[..n - 1], carded), matches[n - 1], at);
    }
  }

  lemma WholeOnly(p: Patterns, answer: string, matches: seq<Match>, carded: set<string>, at: nat)
    requires Located(answer, matches) && From(at) in Whole(p, answer, matches, carded)
    ensures at < |answer| && !MayGo(p, answer, matches, carded, at)
  {
    hide After, Append, GoesWith;
    var s := After(p, answer, matches, carded);
    assert matches[..|matches|] == matches;
    AfterOnly(p, answer, matches, carded, |matches|, at);
    AppendOnly(s, s.cursor, |answer|, at);
  }

  /** What the prose is, for any matches within the answer. Line breaks put in
      aside it is a subsequence of the answer; with the URLs in order and disjoint,
      no character of a carded link's URL is in it; and, white space at its ends aside,
      a character is left out exactly when a carded link excuses it where the splice
      came to that link. */
  lemma ProseIsTheRest(p: Patterns, answer: string, matches: seq<Match>, carded: set<string>) returns (out: seq<Source>)
    requires Located(answer, matches)
    ensures var prose := Prose(p, answer, matches, carded);
            && prose == Render(answer, out)
            && (prose != "" ==> !IsSpace(prose[0]) && !IsSpace(prose[|prose| - 1]))
    ensures Ascending(out, |answer|)
    ensures forall urls :: UrlsAt(answer, matches, urls) ==> AvoidsUrls(matches, urls, carded, out)
    ensures forall at: nat :: at < |answer| ==> From(at) in out || IsSpace(answer[at]) || MayGo(p, answer, matches, carded, at)
    ensures forall at: nat :: From(at) in out ==> !MayGo(p, answer, matches, carded, at)
  {
    hide After, Trim, Append, MayGo, Ascending, AvoidsUrls;
    var whole := Whole(p, answer, matches, carded);
    var a, b := TrimIsSlice(Render(answer, whole));
    TrimEnds(Render(answer, whole));
    assert |Render(answer, whole)| == |whole|;
    out := whole[a..b];
    assert Render(answer, out) == Render(answer, whole)[a..b];
    WholeAscends(p, answer, matches, carded);
    SliceAscends(whole, |answer|, a, b);
    forall urls | UrlsAt(answer, matches, urls) ensures AvoidsUrls(matches, urls, carded, out) {
      WholeAvoids(p, answer, matches, urls, carded);
      SliceAvoids(matches, urls, carded, whole, a, b);
    }
    forall at: nat | at < |answer| ensures From(at) in out || IsSpace(answer[at]) || MayGo(p, answer, matches, carded, at) {
      WholeHas(p, answer, matches, carded, at);
      if From(at) in whole { TrimmedIsSpace(answer, whole, a, b, at); }
    }
    forall at: nat | From(at) in out ensures !MayGo(p, answer, matches, carded, at) {
      WholeOnly(p, answer, matches, carded, at);
    }
  }

  lemma WholeHas(p: Patterns, answer: string, matches: seq<Match>, carded: set<string>, at: nat)
    requires Located(answer, matches) && at < |answer|
    ensures From(at) in Whole(p, answer, matches, carded) || MayGo(p, answer, matches, carded, at)
  {
    hide After, Append, MayGo;
    var s := After(p, answer, matches, carded);
    assert matches[..|matches|] == matches;
    AfterHas(p, answer, matches, carded, |matches|, at);
    AppendHas(s, s.cursor, |answer|, at);
  }

  lemma TrimmedIsSpace(answer: string, whole: seq<Source>, a: nat, b: nat, at: nat)
    requires a <= b <= |whole| && at < |answer| && From(at) in whole
    requires Blank(Render(answer, whole)[..a]) && Blank(Render(answer, whole)[b..])
    ensures From(at) in whole[a..b] || IsSpace(answer[at])
  {
    var text := Render(answer, whole);
    var i :| 0 <= i < |whole| && whole[i] == From(at);
    assert text[i] == answer[at];
    if i < a {
      assert text[..a][i] == text[i];
    } else if i >= b {
      assert text[b..][i - b] == text[i];
    } else {
      assert whole[a..b][i - a] == whole[i];
    }
  }
}

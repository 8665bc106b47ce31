/** What the prose keeps and where breaks stand in it, for every answer: a line is
    lifted exactly when it holds nothing but markup and the link, and the text around
    lifted lines is parted as they parted it. */
module LinkBreaks {
  import opened Wrappers
  import opened Bytes
  import opened CardLinks
  import opened LeadIn
  import opened LinkLifting

  // ---------------------------------------------------------------- which lines are lifted

  /** Text from where the look back starts to the link, with only markup in it, at
      the beginning of a line. */
  ghost predicate HeadsLine(p: Patterns, answer: string, cursor: nat, from: nat, start: nat) {
    && cursor <= start <= from <= |answer| && from - start <= 41
    && (start == 0 || answer[start - 1] == '\n')
    && NoBreak(answer, start, from)
    && p.markupOnly(answer[start..from])
  }

  predicate AllBlank(answer: string, from: nat, to: nat) {
    forall k :: from <= k < to && k < |answer| ==> answer[k] in {' ', '\t', '\r'}
  }

  predicate BlankLines(answer: string, from: nat, to: nat) {
    forall k :: from <= k < to && k < |answer| ==> answer[k] in {' ', '\t', '\r', '\n'}
  }

  /** Only blanks up to `end`, where the line ends. */
  predicate EndsLine(answer: string, from: nat, end: nat) {
    from <= end <= |answer| && AllBlank(answer, from, end) && (end == |answer| || answer[end] == '\n')
  }

  /** White space up to `resume`, the last line break in it just before. */
  predicate ResumesAt(answer: string, end: nat, resume: nat) {
    && end <= resume <= |answer| && BlankLines(answer, end, resume)
    && (resume == end || answer[resume - 1] == '\n')
  }

  ghost predicate IsLift(p: Patterns, answer: string, cursor: nat, m: Match, start: nat, resume: nat) {
    && HeadsLine(p, answer, cursor, Max(cursor, m.start), start)
    && exists end: nat ::
        && EndsLine(answer, m.end, end)
        && ResumesAt(answer, end, resume)
        && forall r: nat :: ResumesAt(answer, end, r) ==> r <= resume
  }

  lemma {:induction false} LineStartFinds(answer: string, cursor: nat, from: nat, start: nat)
    requires cursor <= start <= from <= |answer| && from - start <= 41 && NoBreak(answer, start, from)
    ensures var r := LineStart(answer, cursor, from, start);
            && from - r <= 41 && NoBreak(answer, r, from)
            && (r == cursor || from - r == 41 || answer[r - 1] == '\n')
    decreases start
  {
    if start > cursor && from - start <= LINE_PREFIX_SPAN && answer[start - 1] != '\n' {
      LineStartFinds(answer, cursor, from, start - 1);
    }
  }

  lemma {:induction false} LineStartOnly(answer: string, cursor: nat, from: nat, start: nat, line: nat)
    requires cursor <= line <= start <= from <= |answer| && from - line <= 41
    requires line == 0 || answer[line - 1] == '\n'
    requires NoBreak(answer, line, from)
    ensures LineStart(answer, cursor, from, start) == line
    decreases start
  {
    if start > line { LineStartOnly(answer, cursor, from, start - 1, line); }
  }

  lemma {:induction false} SkipBlankEnds(answer: string, end: nat)
    requires end <= |answer|
    ensures var r := SkipBlank(answer, end);
            r == |answer| || !IsBlankChar(answer[r])
    decreases |answer| - end
  {
    if end < |answer| && IsBlankChar(answer[end]) { SkipBlankEnds(answer, end + 1); }
  }

  /** The walk past blank lines ends behind the last line break it meets. */
  lemma {:induction false} ResumeIsLast(answer: string, end: nat, k: nat, resume: nat)
    requires end <= resume <= k <= |answer| && BlankLines(answer, end, k)
    requires ResumesAt(answer, end, resume) && AllBlank(answer, resume, k)
    ensures var r := Resume(answer, k, resume);
            ResumesAt(answer, end, r) && forall x: nat :: ResumesAt(answer, end, x) ==> x <= r
    decreases |answer| - k
  {
    if k < |answer| && (IsBlankChar(answer[k]) || answer[k] == '\n') {
      ResumeIsLast(answer, end, k + 1, if answer[k] == '\n' then k + 1 else resume);
    } else {
      forall x: nat ensures ResumesAt(answer, end, x) ==> x <= resume {
        if resume < x <= k { assert answer[x - 1] in {' ', '\t', '\r'}; }
      }
    }
  }

  /** A link's line is lifted exactly when nothing but markup, of 41 characters at
      most, is ahead of it and nothing but blanks behind it; the text goes on after
      all the blank lines that follow. */
  lemma LiftedExactly(p: Patterns, answer: string, cursor: nat, m: Match, start: nat, resume: nat)
    requires cursor <= |answer| && m.start <= m.end <= |answer|
    ensures LiftedLine(p, answer, cursor, m) == Some(Lift(start, resume)) <==> IsLift(p, answer, cursor, m, start, resume)
  {
    hide LineStart, SkipBlank, Resume;
    var from := Max(cursor, m.start);
    LineStartFinds(answer, cursor, from, from);
    var end := SkipBlank(answer, m.end);
    SkipBlankEnds(answer, m.end);
    ResumeIsLast(answer, end, end, end);
    if LiftedLine(p, answer, cursor, m) == Some(Lift(start, resume)) {
      assert EndsLine(answer, m.end, end);
    }
    if IsLift(p, answer, cursor, m, start, resume) {
      LineStartOnly(answer, cursor, from, from, start);
      var e: nat :| EndsLine(answer, m.end, e) && ResumesAt(answer, e, resume)
                    && forall r: nat :: ResumesAt(answer, e, r) ==> r <= resume;
      SkipBlankIs(answer, m.end, e);
    }
  }

  // ---------------------------------------------------------------- blank lines

  predicate BlankLineAt(s: string, from: nat, to: nat, i: nat, j: nat) {
    from <= i < j < to && j < |s| && s[i] == '\n' && s[j] == '\n' && AllBlank(s, i + 1, j)
  }

  /** Two line breaks with nothing but blanks between them. */
  ghost predicate BlankLineIn(s: string, from: nat, to: nat) {
    exists i: nat, j: nat :: BlankLineAt(s, from, to, i, j)
  }

  predicate BreakAt(s: string, j: nat) {
    j < |s| && s[j] == '\n' && AllBlank(s, 0, j)
  }

  lemma {:induction false} BreakFollowsIs(s: string)
    ensures BreakFollows(s) <==> exists j: nat :: BreakAt(s, j)
  {
    if s != "" && s[0] != '\n' {
      var rest := s[1..];
      BreakFollowsIs(rest);
      if IsBlankChar(s[0]) && BreakFollows(rest) {
        var j: nat :| BreakAt(rest, j);
        assert forall k :: 1 <= k < j + 1 ==> s[k] == rest[k - 1];
        assert BreakAt(s, j + 1);
      }
      if j: nat :| BreakAt(s, j) {
        assert IsBlankChar(s[0]);
        assert forall k :: 0 <= k < j - 1 ==> rest[k] == s[k + 1];
        assert BreakAt(rest, j - 1);
      }
    } else if s != "" {
      assert BreakAt(s, 0);
    }
  }

  lemma Shifted(s: string, from: nat, to: nat)
    requires from <= to <= |s|
    ensures BlankLineIn(s[from..to], 0, |s[from..to]|) <==> BlankLineIn(s, from, to)
  {
    var t := s[from..to];
    if i: nat, j: nat :| BlankLineAt(t, 0, |t|, i, j) {
      assert forall x :: from + i + 1 <= x < from + j ==> s[x] == t[x - from];
      assert BlankLineAt(s, from, to, from + i, from + j);
    }
    if i: nat, j: nat :| BlankLineAt(s, from, to, i, j) {
      assert forall k :: i - from + 1 <= k < j - from ==> t[k] == s[from + k];
      assert BlankLineAt(t, 0, |t|, i - from, j - from);
    }
  }

  lemma {:induction false} HasBlankLineIs(s: string)
    ensures HasBlankLine(s) <==> BlankLineIn(s, 0, |s|)
  {
    if s != "" {
      var rest := s[1..];
      assert rest == s[1..|s|];
      HasBlankLineIs(rest);
      BreakFollowsIs(rest);
      Shifted(s, 1, |s|);
      if s[0] == '\n' && BreakFollows(rest) {
        var j: nat :| BreakAt(rest, j);
        assert forall k :: 1 <= k < j + 1 ==> s[k] == rest[k - 1];
        assert BlankLineAt(s, 0, |s|, 0, j + 1);
      }
      if HasBlankLine(rest) {
        var i: nat, j: nat :| BlankLineAt(s, 1, |s|, i, j);
        assert BlankLineAt(s, 0, |s|, i, j);
      }
      if i: nat, j: nat :| BlankLineAt(s, 0, |s|, i, j) {
        if i == 0 {
          assert forall k :: 0 <= k < j - 1 ==> rest[k] == s[k + 1];
          assert BreakAt(rest, j - 1);
        } else {
          assert BlankLineAt(s, 1, |s|, i, j);
        }
      }
    }
  }

  lemma BlankSlice(s: string, from: nat, to: nat)
    requires from <= to <= |s|
    ensures HasBlankLine(s[from..to]) <==> BlankLineIn(s, from, to)
  {
    HasBlankLineIs(s[from..to]);
    Shifted(s, from, to);
  }

  // ---------------------------------------------------------------- where breaks stand

  /** One splicing of an answer. */
  datatype Job = Job(p: Patterns, answer: string, matches: seq<Match>, carded: set<string>)

  ghost function Upto(x: Job, n: nat): Splice
    requires Located(x.answer, x.matches) && n <= |x.matches|
  {
    After(x.p, x.answer, x.matches[..n], x.carded)
  }

  /** The line of link `k` was lifted, and the text goes on at `at` behind it. */
  ghost predicate LiftedTo(x: Job, k: nat, at: nat)
    requires Located(x.answer, x.matches)
  {
    && k < |x.matches| && x.matches[k].provider in x.carded
    && LiftedLine(x.p, x.answer, Upto(x, k).cursor, x.matches[k]).Some?
    && at == Upto(x, k + 1).cursor
  }

  /** A blank line stood in what was dropped before the lifted line or after it. */
  ghost predicate PartedParagraphs(x: Job, k: nat)
    requires Located(x.answer, x.matches) && k < |x.matches|
  {
    var cursor := Upto(x, k).cursor;
    var lifted := LiftedLine(x.p, x.answer, cursor, x.matches[k]);
    && lifted.Some?
    && (|| BlankLineIn(x.answer, cursor + |KeptBefore(x.p, x.answer[cursor..lifted.value.start])|, lifted.value.start)
        || BlankLineIn(x.answer, x.matches[k].end, lifted.value.resume))
  }

  /** One of the first `n` links' lines was lifted between these characters. */
  ghost predicate LiftsBetween(x: Job, n: nat, a: nat, b: nat)
    requires Located(x.answer, x.matches)
  {
    exists k: nat, at: nat :: k < n && LiftedTo(x, k, at) && a < at <= b
  }

  ghost predicate PartsBetween(x: Job, n: nat, a: nat, b: nat)
    requires Located(x.answer, x.matches)
  {
    exists k: nat, at: nat :: k < n && LiftedTo(x, k, at) && a < at <= b && PartedParagraphs(x, k)
  }

  /** The breaks that belong between two characters: two for a paragraph break, one
      for a line break, none where nothing was lifted. */
  ghost function Due(x: Job, n: nat, a: nat, b: nat): nat
    requires Located(x.answer, x.matches)
  {
    if PartsBetween(x, n, a, b) then 2 else if LiftsBetween(x, n, a, b) then 1 else 0
  }

  /** Two kept characters with nothing but breaks between. */
  ghost predicate Next(out: seq<Source>, i: nat, j: nat) {
    i < j < |out| && out[i].From? && out[j].From? && forall k :: i < k < j ==> out[k].Break?
  }

  ghost predicate Gaps(x: Job, n: nat, out: seq<Source>)
    requires Located(x.answer, x.matches)
  {
    forall i: nat, j: nat :: Next(out, i, j) ==> j - i - 1 == Due(x, n, out[i].at, out[j].at)
  }

  /** What holds between two links: the breaks so far are right, and so is the one
      owed. */
  ghost predicate Parted(x: Job, n: nat, s: Splice)
    requires Located(x.answer, x.matches)
  {
    && Gaps(x, n, s.out)
    && (forall i :: 0 <= i < |s.out| && s.out[i].From? ==> s.out[i].at < s.cursor)
    && (s.out != [] ==> s.out[0].From? && s.out[|s.out| - 1].From?
                        && s.owed == Due(x, n, s.out[|s.out| - 1].at, s.cursor))
  }

  lemma {:induction false} CursorsGrow(x: Job, k: nat, n: nat)
    requires Located(x.answer, x.matches) && k <= n <= |x.matches|
    ensures Upto(x, k).cursor <= Upto(x, n).cursor
  {
    hide Append, LiftedLine, KeptBefore;
    if k < n {
      CursorsGrow(x, k, n - 1);
      AfterNext(x.p, x.answer, x.matches, x.carded, n - 1);
    }
  }

  /** Text past every cursor so far has no lifted line in it. */
  lemma NoneDue(x: Job, n: nat, a: nat, b: nat)
    requires Located(x.answer, x.matches) && n <= |x.matches| && a >= Upto(x, n).cursor
    ensures Due(x, n, a, b) == 0
  {
    hide Upto, PartedParagraphs;
    forall k: nat, at: nat | k < n && LiftedTo(x, k, at) ensures at <= a { CursorsGrow(x, k + 1, n); }
  }

  /** What is due up to the cursor is due up to anything behind it. */
  lemma DueBehind(x: Job, n: nat, a: nat, b: nat)
    requires Located(x.answer, x.matches) && n <= |x.matches| && b >= Upto(x, n).cursor
    ensures Due(x, n, a, b) == Due(x, n, a, Upto(x, n).cursor)
  {
    hide Upto, PartedParagraphs;
    var c := Upto(x, n).cursor;
    forall k: nat, at: nat | k < n && LiftedTo(x, k, at) ensures at <= c { CursorsGrow(x, k + 1, n); }
    if PartsBetween(x, n, a, b) {
      var k: nat, at: nat :| k < n && LiftedTo(x, k, at) && a < at <= b && PartedParagraphs(x, k);
      assert at <= c;
    }
    if LiftsBetween(x, n, a, b) {
      var k: nat, at: nat :| k < n && LiftedTo(x, k, at) && a < at <= b;
      assert at <= c;
    }
  }

  /** One more link asks for a break behind its own line only. */
  lemma DueNext(x: Job, n: nat, a: nat, b: nat)
    requires Located(x.answer, x.matches) && n < |x.matches|
    ensures var at := Upto(x, n + 1).cursor;
            Due(x, n + 1, a, b)
              == if !LiftedTo(x, n, at) || !(a < at <= b) then Due(x, n, a, b)
                 else if PartedParagraphs(x, n) || Due(x, n, a, b) == 2 then 2
                 else 1
  {
    hide PartedParagraphs, Upto;
    var c := Upto(x, n + 1).cursor;
    forall k: nat, at: nat | LiftedTo(x, k, at) && k < n + 1 ensures k < n || (k == n && at == c) {}
    if PartsBetween(x, n, a, b) { assert PartsBetween(x, n + 1, a, b); }
    if LiftsBetween(x, n, a, b) { assert LiftsBetween(x, n + 1, a, b); }
  }

  /** Appending text at the cursor writes the break that is due. */
  lemma AppendParted(x: Job, n: nat, s: Splice, to: nat)
    requires Located(x.answer, x.matches) && n <= |x.matches| && s.cursor == Upto(x, n).cursor && Parted(x, n, s)
    ensures Gaps(x, n, Append(s, s.cursor, to).out)
    ensures s.cursor < to ==>
              var t := Append(s, s.cursor, to);
              t.out != [] && t.out[0].From? && t.out[|t.out| - 1] == From(to - 1) && t.owed == 0
  {
    hide Upto, Due;
    if s.cursor < to {
      var t := Append(s, s.cursor, to);
      var breaks := if s.out != [] then Breaks(s.owed) else [];
      var size, mid := |s.out|, |s.out| + |breaks|;
      assert t.out == s.out + breaks + Range(s.cursor, to);
      assert forall i :: 0 <= i < size ==> t.out[i] == s.out[i];
      assert forall i :: size <= i < mid ==> t.out[i].Break?;
      assert forall i :: mid <= i < |t.out| ==> t.out[i] == From(s.cursor + i - mid);
      forall i: nat, j: nat | Next(t.out, i, j) ensures j - i - 1 == Due(x, n, t.out[i].at, t.out[j].at) {
        if j < size {
          assert Next(s.out, i, j);
        } else if i < size {
          assert j >= mid;
          assert i == size - 1 by { assert t.out[size - 1].From?; }
          assert j == mid by { assert t.out[mid].From?; }
        } else {
          assert i >= mid;
          assert j == i + 1 by { assert t.out[i + 1].From?; }
          NoneDue(x, n, t.out[i].at, t.out[j].at);
        }
      }
    }
  }

  lemma AppendBelow(s: Splice, from: nat, to: nat, bound: nat)
    requires from <= bound && to <= bound
    requires forall i :: 0 <= i < |s.out| && s.out[i].From? ==> s.out[i].at < bound
    ensures forall i :: 0 <= i < |Append(s, from, to).out| && Append(s, from, to).out[i].From? ==> Append(s, from, to).out[i].at < bound
  {
    AppendAdds(s, from, to);
  }

  /** One more link, whether its line is lifted or not. */
  lemma PartedNext(x: Job, n: nat, s: Splice, t: Splice, to: nat)
    requires Located(x.answer, x.matches) && n < |x.matches| && s == Upto(x, n) && t == Upto(x, n + 1)
    requires Parted(x, n, s) && s.cursor <= t.cursor && to <= t.cursor
    requires t.out == Append(s, s.cursor, to).out
    requires var owed := Append(s, s.cursor, to).owed;
             t.owed == if !LiftedTo(x, n, t.cursor) then owed else if owed == 2 || PartedParagraphs(x, n) then 2 else 1
    ensures Parted(x, n + 1, t)
  {
    hide Upto, Due, LiftedTo, PartedParagraphs, Append;
    AppendParted(x, n, s, to);
    AppendBelow(s, s.cursor, to, t.cursor);
    if to <= s.cursor { AppendNone(s, s.cursor, to); }
    forall i: nat, j: nat | Next(t.out, i, j) ensures j - i - 1 == Due(x, n + 1, t.out[i].at, t.out[j].at) {
      DueNext(x, n, t.out[i].at, t.out[j].at);
    }
    if t.out != [] {
      var a := t.out[|t.out| - 1].at;
      DueNext(x, n, a, t.cursor);
      if s.cursor < to { NoneDue(x, n, a, t.cursor); } else { DueBehind(x, n, a, t.cursor); }
    }
  }

  lemma PartsAre(x: Job, n: nat, lift: Lift)
    requires Located(x.answer, x.matches) && n < |x.matches|
    requires LiftedLine(x.p, x.answer, Upto(x, n).cursor, x.matches[n]) == Some(lift)
    ensures var cursor := Upto(x, n).cursor;
            var before := x.answer[cursor..lift.start];
            var kept := |KeptBefore(x.p, before)|;
            && kept <= |before|
            && (PartedParagraphs(x, n) <==>
                  HasBlankLine(Slice(before, kept, |before|)) || HasBlankLine(x.answer[x.matches[n].end..lift.resume]))
  {
    hide LiftedLine, KeptBefore, HasBlankLine, BlankLineIn;
    var cursor, m := Upto(x, n).cursor, x.matches[n];
    LiftBounds(x.p, x.answer, cursor, m);
    var before := x.answer[cursor..lift.start];
    KeptIsPrefix(x.p, before);
    var kept := |KeptBefore(x.p, before)|;
    assert Slice(before, kept, |before|) == x.answer[cursor + kept..lift.start];
    BlankSlice(x.answer, cursor + kept, lift.start);
    BlankSlice(x.answer, m.end, lift.resume);
  }

  lemma LiftBounds(p: Patterns, answer: string, cursor: nat, m: Match)
    requires cursor <= |answer| && m.start <= m.end <= |answer|
    ensures var r := LiftedLine(p, answer, cursor, m);
            r.Some? ==> cursor <= r.value.start <= Max(cursor, m.start) && m.end <= r.value.resume <= |answer|
  {
  }

  lemma {:induction false} UptoParted(x: Job, n: nat)
    requires Located(x.answer, x.matches) && n <= |x.matches|
    ensures Parted(x, n, Upto(x, n))
  {
    hide Parted, Append, LiftedLine, KeptBefore, HasBlankLine, PartedParagraphs;
    if n == 0 {
      NothingParted(x);
    } else {
      UptoParted(x, n - 1);
      AfterNext(x.p, x.answer, x.matches, x.carded, n - 1);
      var s, t, m := Upto(x, n - 1), Upto(x, n), x.matches[n - 1];
      if m.provider !in x.carded {
        AppendNone(s, s.cursor, s.cursor);
        PartedNext(x, n - 1, s, t, s.cursor);
      } else {
        var lifted := LiftedLine(x.p, x.answer, s.cursor, m);
        if lifted.None? {
          PartedNext(x, n - 1, s, t, m.start);
        } else {
          PartsAre(x, n - 1, lifted.value);
          PartedNext(x, n - 1, s, t, s.cursor + |KeptBefore(x.p, x.answer[s.cursor..lifted.value.start])|);
        }
      }
    }
  }

  lemma NothingParted(x: Job)
    requires Located(x.answer, x.matches)
    ensures Parted(x, 0, Begin)
  {
  }

  /** Between two characters of the prose that stood on either side of lifted lines
      there is one break, or two exactly when a blank line stood in what was dropped
      before one of those lines or after it; between any others there is none. */
  lemma BreaksAreDue(p: Patterns, answer: string, matches: seq<Match>, carded: set<string>)
    requires Located(answer, matches)
    ensures Gaps(Job(p, answer, matches, carded), |matches|, Whole(p, answer, matches, carded))
  {
    hide Upto, Due, Append, After;
    var x := Job(p, answer, matches, carded);
    UptoParted(x, |matches|);
    UptoAll(x);
    AppendParted(x, |matches|, After(p, answer, matches, carded), |answer|);
  }

  lemma UptoAll(x: Job)
    requires Located(x.answer, x.matches)
    ensures Upto(x, |x.matches|) == After(x.p, x.answer, x.matches, x.carded)
  {
    assert x.matches[..|x.matches|] == x.matches;
  }
}

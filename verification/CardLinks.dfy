/** The card rows made of an answer's connect links (apps/channel-adapter/src/mirror.ts:66-149). */
module CardLinks {

  datatype Kind = Connect | Attach

  /** A link found in an answer, with the span to lift. */
  datatype Match = Match(url: string, provider: string, kind: Kind, start: nat, end: nat)

  datatype Link = Link(url: string, provider: string, kind: Kind)

  const MAX_CONNECT_CARDS: nat := 10

  function LinkOf(m: Match): Link {
    Link(m.url, m.provider, m.kind)
  }

  /** Where a provider's row is, or past the end. */
  function RowOf(links: seq<Link>, provider: string): (i: nat)
    ensures i <= |links|
    ensures i < |links| ==> links[i].provider == provider
    ensures forall j :: 0 <= j < i ==> links[j].provider != provider
  {
    if links == [] then 0
    else if links[0].provider == provider then 0
    else
      assert forall j :: 0 < j < |links| ==> links[j] == links[1..][j - 1];
      1 + RowOf(links[1..], provider)
  }

  /** One more match: only catalog apps get a row, the first of a provider makes
      it, an attach link takes over a connect link's, and the rows are capped. */
  function Carded(isApp: string -> bool, links: seq<Link>, m: Match): seq<Link> {
    var seen := RowOf(links, m.provider);
    if !isApp(m.provider) then links
    else if seen < |links| then
      if links[seen].kind == Connect && m.kind == Attach then links[seen := LinkOf(m)] else links
    else if |links| >= MAX_CONNECT_CARDS then links
    else links + [LinkOf(m)]
  }

  function Cards(isApp: string -> bool, matches: seq<Match>): seq<Link> {
    if matches == [] then [] else Carded(isApp, Cards(isApp, matches[..|matches| - 1]), matches[|matches| - 1])
  }

  method CardLinksOf(isApp: string -> bool, matches: seq<Match>) returns (links: seq<Link>)
    ensures links == Cards(isApp, matches)
  {
    links := [];
    for i := 0 to |matches|
      invariant links == Cards(isApp, matches[..i])
    {
      assert matches[..i + 1][..i] == matches[..i];
      var m := matches[i];
      if !isApp(m.provider) { continue; }
      var seen := RowOf(links, m.provider);
      if seen < |links| {
        if links[seen].kind == Connect && m.kind == Attach { links := links[seen := LinkOf(m)]; }
        continue;
      }
      if |links| >= MAX_CONNECT_CARDS { continue; }
      links := links + [LinkOf(m)];
    }
    assert matches[..|matches|] == matches;
  }

  // ---------------------------------------------------------------- which rows there are

  /** Where a provider is first mentioned, or past the end. */
  function FirstAt(matches: seq<Match>, provider: string): (i: nat)
    ensures i <= |matches|
    ensures i < |matches| ==> matches[i].provider == provider
    ensures forall j :: 0 <= j < i ==> matches[j].provider != provider
  {
    if matches == [] then 0
    else
      var before := matches[..|matches| - 1];
      var i := FirstAt(before, provider);
      if i < |before| then i
      else if matches[|before|].provider == provider then |before|
      else |matches|
  }

  ghost predicate IsFirstAttach(matches: seq<Match>, i: nat, provider: string) {
    && i < |matches| && matches[i].provider == provider && matches[i].kind == Attach
    && forall j :: 0 <= j < i && matches[j].provider == provider ==> matches[j].kind == Connect
  }

  ghost predicate NeverAttaches(matches: seq<Match>, provider: string) {
    forall j :: 0 <= j < |matches| && matches[j].provider == provider ==> matches[j].kind == Connect
  }

  /** Match `i` makes the provider's row: its first attach link, or with none its first link. */
  ghost predicate Makes(matches: seq<Match>, i: nat, provider: string) {
    i < |matches| && if NeverAttaches(matches, provider) then i == FirstAt(matches, provider) else IsFirstAttach(matches, i, provider)
  }

  ghost predicate RowRight(matches: seq<Match>, link: Link) {
    exists i: nat :: Makes(matches, i, link.provider) && link == LinkOf(matches[i])
  }

  ghost predicate RowsRight(isApp: string -> bool, matches: seq<Match>, links: seq<Link>) {
    forall r :: 0 <= r < |links| ==> isApp(links[r].provider) && RowRight(matches, links[r])
  }

  /** One row a provider, in order of first mention. */
  ghost predicate InOrder(matches: seq<Match>, links: seq<Link>) {
    && (forall r :: 0 <= r < |links| ==> FirstAt(matches, links[r].provider) < |matches|)
    && (forall r, t :: 0 <= r < t < |links| ==> FirstAt(matches, links[r].provider) < FirstAt(matches, links[t].provider))
  }

  /** A catalog provider without a row was first mentioned after ten others that have one. */
  ghost predicate NoneMissed(isApp: string -> bool, matches: seq<Match>, links: seq<Link>) {
    && |links| <= MAX_CONNECT_CARDS
    && forall i :: 0 <= i < |matches| && isApp(matches[i].provider) && RowOf(links, matches[i].provider) == |links| ==>
         && |links| == MAX_CONNECT_CARDS
         && forall r :: 0 <= r < |links| ==> FirstAt(matches, links[r].provider) < FirstAt(matches, matches[i].provider)
  }

  lemma FirstNext(matches: seq<Match>, m: Match, provider: string)
    ensures FirstAt(matches + [m], provider)
            == if FirstAt(matches, provider) < |matches| then FirstAt(matches, provider)
               else if m.provider == provider then |matches| else |matches| + 1
  {
    assert (matches + [m])[..|matches|] == matches;
  }

  /** A row stays right under a match of another provider, or a later one of its
      own that does not take it over. */
  lemma RowStays(matches: seq<Match>, m: Match, link: Link)
    requires RowRight(matches, link)
    requires m.provider == link.provider ==> link.kind == Attach || m.kind == Connect
    ensures RowRight(matches + [m], link)
  {
    var after := matches + [m];
    assert forall j :: 0 <= j < |matches| ==> after[j] == matches[j];
    var i: nat :| Makes(matches, i, link.provider) && link == LinkOf(matches[i]);
    FirstNext(matches, m, link.provider);
    if NeverAttaches(matches, link.provider) {
      assert NeverAttaches(after, link.provider);
    } else {
      assert IsFirstAttach(after, i, link.provider);
      assert !NeverAttaches(after, link.provider);
    }
    assert Makes(after, i, link.provider);
  }

  /** An attach link takes over a connect link's row, or any link makes a new one. */
  lemma RowMade(matches: seq<Match>, m: Match)
    requires FirstAt(matches, m.provider) == |matches| || (m.kind == Attach && NeverAttaches(matches, m.provider))
    ensures RowRight(matches + [m], LinkOf(m))
  {
    var after := matches + [m];
    assert forall j :: 0 <= j < |matches| ==> after[j] == matches[j];
    assert after[|matches|] == m;
    FirstNext(matches, m, m.provider);
    if m.kind == Attach {
      assert IsFirstAttach(after, |matches|, m.provider);
      assert !NeverAttaches(after, m.provider);
    } else {
      assert NeverAttaches(after, m.provider);
    }
    assert Makes(after, |matches|, m.provider);
  }

  lemma ConnectRow(matches: seq<Match>, link: Link)
    requires RowRight(matches, link) && link.kind == Connect
    ensures NeverAttaches(matches, link.provider)
  {
  }

  lemma RowsNext(isApp: string -> bool, matches: seq<Match>, links: seq<Link>, m: Match)
    requires RowsRight(isApp, matches, links) && InOrder(matches, links) && NoneMissed(isApp, matches, links)
    ensures RowsRight(isApp, matches + [m], Carded(isApp, links, m))
  {
    hide RowRight, NeverAttaches;
    var next := Carded(isApp, links, m);
    forall r | 0 <= r < |next| ensures isApp(next[r].provider) && RowRight(matches + [m], next[r]) {
      if r == |links| {
        UnseenIsNew(isApp, matches, links, m.provider);
        RowMade(matches, m);
      } else if next[r] != links[r] {
        ConnectRow(matches, links[r]);
        RowMade(matches, m);
      } else {
        assert RowRight(matches, links[r]);
        assert m.provider == links[r].provider ==> RowOf(links, m.provider) == r;
        RowStays(matches, m, links[r]);
      }
    }
  }

  /** A catalog provider with no row, while there is room, was never mentioned. */
  lemma UnseenIsNew(isApp: string -> bool, matches: seq<Match>, links: seq<Link>, provider: string)
    requires NoneMissed(isApp, matches, links)
    requires isApp(provider) && RowOf(links, provider) == |links| < MAX_CONNECT_CARDS
    ensures FirstAt(matches, provider) == |matches|
  {
  }

  lemma OrderNext(isApp: string -> bool, matches: seq<Match>, links: seq<Link>, m: Match)
    requires InOrder(matches, links) && NoneMissed(isApp, matches, links)
    ensures InOrder(matches + [m], Carded(isApp, links, m))
  {
    var next := Carded(isApp, links, m);
    if |next| > |links| { UnseenIsNew(isApp, matches, links, m.provider); }
    hide NoneMissed, Carded;
    CardedProviders(isApp, links, m);
    forall r | 0 <= r < |next|
      ensures FirstAt(matches + [m], next[r].provider)
              == if r < |links| then FirstAt(matches, links[r].provider) else |matches|
    {
      FirstNext(matches, m, next[r].provider);
    }
  }

  /** The providers that have rows keep them, in place; at most one is added. */
  lemma CardedProviders(isApp: string -> bool, links: seq<Link>, m: Match)
    ensures var next := Carded(isApp, links, m);
            && |links| <= |next| <= |links| + 1
            && (forall r :: 0 <= r < |links| ==> next[r].provider == links[r].provider)
            && (|next| > |links| ==> next[|links|] == LinkOf(m) && |links| < MAX_CONNECT_CARDS)
            && (isApp(m.provider) && |next| == |links| ==> RowOf(links, m.provider) < |links| || |links| >= MAX_CONNECT_CARDS)
  {
  }

  lemma RowOfSame(links: seq<Link>, next: seq<Link>, provider: string)
    requires |links| <= |next| && forall r :: 0 <= r < |links| ==> next[r].provider == links[r].provider
    requires RowOf(next, provider) == |next|
    ensures RowOf(links, provider) == |links|
  {
  }

  lemma MissedNext(isApp: string -> bool, matches: seq<Match>, links: seq<Link>, m: Match)
    requires InOrder(matches, links) && NoneMissed(isApp, matches, links)
    ensures NoneMissed(isApp, matches + [m], Carded(isApp, links, m))
  {
    hide Carded;
    var next := Carded(isApp, links, m);
    var after := matches + [m];
    CardedProviders(isApp, links, m);
    forall i | 0 <= i < |after| && isApp(after[i].provider) && RowOf(next, after[i].provider) == |next|
      ensures |next| == MAX_CONNECT_CARDS
      ensures forall r :: 0 <= r < |next| ==> FirstAt(after, next[r].provider) < FirstAt(after, after[i].provider)
    {
      RowOfSame(links, next, after[i].provider);
      FirstNext(matches, m, after[i].provider);
      if i < |matches| { assert after[i] == matches[i] && |links| == MAX_CONNECT_CARDS; }
      assert |next| == |links|;
      forall r | 0 <= r < |next| ensures FirstAt(after, next[r].provider) < FirstAt(after, after[i].provider) {
        FirstNext(matches, m, next[r].provider);
        var at := FirstAt(matches, after[i].provider);
        if at < |matches| { assert matches[at].provider == after[i].provider; }
      }
    }
  }

  /** The card rows: every one for a catalog provider, showing that provider's
      first attach link, or with none its first link; one row a provider, in order
      of first mention, at most ten; and no catalog provider without a row is
      mentioned before one that has it. */
  lemma {:induction false} CardsRight(isApp: string -> bool, matches: seq<Match>)
    ensures RowsRight(isApp, matches, Cards(isApp, matches))
    ensures InOrder(matches, Cards(isApp, matches))
    ensures NoneMissed(isApp, matches, Cards(isApp, matches))
  {
    hide RowRight, Carded;
    if matches != [] {
      var before, m := matches[..|matches| - 1], matches[|matches| - 1];
      CardsRight(isApp, before);
      assert before + [m] == matches;
      RowsNext(isApp, before, Cards(isApp, before), m);
      OrderNext(isApp, before, Cards(isApp, before), m);
      MissedNext(isApp, before, Cards(isApp, before), m);
    }
  }
}

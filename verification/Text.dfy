/** Strings as the source's language trims, joins and compares them. A `char`
    stands for one UTF-16 code unit. */
module Text {

  /** The characters `String.prototype.trim` removes: white space and line terminators. */
  predicate IsSpace(c: char) {
    || '\U{0009}' <= c <= '\U{000D}'
    || c == ' '
    || c == '\U{00A0}'
    || c == '\U{1680}'
    || '\U{2000}' <= c <= '\U{200A}'
    || '\U{2028}' <= c <= '\U{2029}'
    || c == '\U{202F}'
    || c == '\U{205F}'
    || c == '\U{3000}'
    || c == '\U{FEFF}'
  }

  function TrimStart(s: string): string {
    if s != "" && IsSpace(s[0]) then TrimStart(s[1..]) else s
  }

  function TrimEnd(s: string): string {
    if s != "" && IsSpace(s[|s| - 1]) then TrimEnd(s[..|s| - 1]) else s
  }

  function Trim(s: string): string {
    TrimEnd(TrimStart(s))
  }

  ghost predicate Blank(s: string) {
    forall i :: 0 <= i < |s| ==> IsSpace(s[i])
  }

  lemma {:induction false} TrimStartBlank(s: string)
    ensures Blank(s) <==> TrimStart(s) == ""
    ensures Blank(s) <==> Blank(TrimStart(s))
  {
    if s != "" && IsSpace(s[0]) {
      TrimStartBlank(s[1..]);
      assert Blank(s) <==> Blank(s[1..]) by {
        if Blank(s[1..]) {
          forall i | 0 <= i < |s| ensures IsSpace(s[i]) {
            if i > 0 { assert s[i] == s[1..][i - 1]; }
          }
        }
      }
    }
  }

  /** `TrimEnd` keeps a prefix, ending in a non-space, and drops white space only. */
  lemma {:induction false} TrimEndPrefix(s: string)
    ensures |TrimEnd(s)| <= |s| && TrimEnd(s) == s[..|TrimEnd(s)|]
    ensures TrimEnd(s) != "" ==> !IsSpace(TrimEnd(s)[|TrimEnd(s)| - 1])
    ensures forall i :: |TrimEnd(s)| <= i < |s| ==> IsSpace(s[i])
  {
    if s != "" && IsSpace(s[|s| - 1]) {
      TrimEndPrefix(s[..|s| - 1]);
    }
  }

  lemma TrimBlank(s: string)
    ensures Trim(s) == "" <==> Blank(s)
  {
    TrimStartBlank(s);
    var r := TrimStart(s);
    TrimEndPrefix(r);
    if Blank(r) {
      assert TrimEnd(r) == "";
    } else {
      var i :| 0 <= i < |r| && !IsSpace(r[i]);
      assert i < |TrimEnd(r)|;
    }
  }

  /** Writing more never turns words into white space. */
  lemma TrimGrows(a: string, b: string)
    requires Trim(a) != ""
    ensures Trim(a + b) != ""
  {
    TrimBlank(a);
    TrimBlank(a + b);
    var i :| 0 <= i < |a| && !IsSpace(a[i]);
    assert (a + b)[i] == a[i];
  }

  /** The words of a text: white space outside, none at their ends. */
  ghost predicate WordsAt(s: string, from: nat, to: nat) {
    && from < to <= |s|
    && !IsSpace(s[from]) && !IsSpace(s[to - 1])
    && (forall i :: 0 <= i < from ==> IsSpace(s[i]))
    && (forall i :: to <= i < |s| ==> IsSpace(s[i]))
  }

  lemma {:induction false} TrimStartIs(s: string, from: nat)
    requires from < |s| && !IsSpace(s[from]) && forall i :: 0 <= i < from ==> IsSpace(s[i])
    ensures TrimStart(s) == s[from..]
  {
    if from > 0 {
      assert IsSpace(s[0]);
      TrimStartIs(s[1..], from - 1);
    }
  }

  /** Trimming leaves exactly the words. */
  lemma TrimIs(s: string, from: nat, to: nat)
    requires WordsAt(s, from, to)
    ensures Trim(s) == s[from..to]
  {
    hide IsSpace;
    TrimStartIs(s, from);
    var r := s[from..];
    TrimEndPrefix(r);
    var n := |TrimEnd(r)|;
    assert r[to - 1 - from] == s[to - 1];
    assert forall i :: to - from <= i < |r| ==> IsSpace(r[i]);
    assert r[..to - from] == s[from..to];
  }

  lemma {:induction false} FindWords(s: string) returns (from: nat, to: nat)
    requires !Blank(s)
    ensures WordsAt(s, from, to)
  {
    hide IsSpace;
    if IsSpace(s[0]) {
      assert !Blank(s[1..]) by {
        var i :| 0 <= i < |s| && !IsSpace(s[i]);
        assert s[i] == s[1..][i - 1];
      }
      from, to := FindWords(s[1..]);
      from, to := from + 1, to + 1;
      assert forall i :: 1 <= i < |s| ==> s[i] == s[1..][i - 1];
    } else {
      TrimEndPrefix(s);
      from, to := 0, |TrimEnd(s)|;
    }
  }

  /** Trimming takes a slice and drops white space only. */
  lemma TrimIsSlice(s: string) returns (from: nat, to: nat)
    ensures from <= to <= |s| && Trim(s) == s[from..to]
    ensures Blank(s[..from]) && Blank(s[to..])
  {
    TrimBlank(s);
    if Blank(s) {
      from, to := 0, 0;
    } else {
      from, to := FindWords(s);
      TrimIs(s, from, to);
    }
  }

  /** No white space is left at either end. */
  lemma TrimEnds(s: string)
    ensures Trim(s) != "" ==> !IsSpace(Trim(s)[0]) && !IsSpace(Trim(s)[|Trim(s)| - 1])
  {
    TrimBlank(s);
    if !Blank(s) {
      var from, to := FindWords(s);
      TrimIs(s, from, to);
    }
  }

  lemma TrimBlankAfter(a: string, b: string)
    requires Blank(b)
    ensures Trim(a + b) == Trim(a)
  {
    hide Trim, IsSpace;
    TrimBlank(a);
    TrimBlank(a + b);
    if !Blank(a) {
      var i, j := FindWords(a);
      TrimIs(a, i, j);
      assert (a + b)[i..j] == a[i..j];
      TrimIs(a + b, i, j);
    } else {
      assert Blank(a + b);
    }
  }

  lemma TrimBlankBefore(a: string, b: string)
    requires Blank(a)
    ensures Trim(a + b) == Trim(b)
  {
    hide Trim, IsSpace;
    TrimBlank(b);
    TrimBlank(a + b);
    if !Blank(b) {
      var i, j := FindWords(b);
      TrimIs(b, i, j);
      assert (a + b)[|a| + i..|a| + j] == b[i..j];
      TrimIs(a + b, |a| + i, |a| + j);
    } else {
      assert Blank(a + b);
    }
  }

  /** Words before words make more than either alone. */
  lemma TrimLonger(a: string, b: string)
    requires !Blank(a) && !Blank(b)
    ensures |Trim(a + b)| > |Trim(a)| && |Trim(a + b)| > |Trim(b)|
  {
    hide Trim, IsSpace;
    var i, j := FindWords(a);
    var k, l := FindWords(b);
    TrimIs(a, i, j);
    TrimIs(b, k, l);
    TrimIs(a + b, i, |a| + l);
  }

  /** Cutting a text's end off leaves its words alone exactly when it cuts off
      white space only. */
  lemma TrimOfFront(s: string, n: nat)
    requires n <= |s| && !Blank(s)
    ensures Trim(s[..n]) == Trim(s) <==> Blank(s[n..])
  {
    hide Trim, IsSpace;
    var a, b := s[..n], s[n..];
    assert s == a + b;
    TrimBlank(s);
    TrimBlank(a);
    if Blank(b) {
      TrimBlankAfter(a, b);
    } else if !Blank(a) {
      TrimLonger(a, b);
    }
  }
}

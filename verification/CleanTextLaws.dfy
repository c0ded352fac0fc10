/** What cleaning does to the characters and lines of a body, without naming its steps. */
module CleanTextLaws {
  import opened CleanText

  // ---------- No visible character is lost or moved ----------

  /** The characters that are not spaces. */
  function Ink(s: string): string {
    if s == "" then "" else (if IsSpace(s[0]) then "" else [s[0]]) + Ink(s[1..])
  }

  function InkOf(lines: seq<string>): string {
    if lines == [] then "" else Ink(lines[0]) + InkOf(lines[1..])
  }

  lemma {:induction false} InkConcat(a: string, b: string)
    ensures Ink(a + b) == Ink(a) + Ink(b)
  {
    if a == "" {
      assert a + b == b;
    } else {
      assert (a + b)[1..] == a[1..] + b;
      InkConcat(a[1..], b);
    }
  }

  lemma {:induction false} InkNormalize(text: string)
    ensures Ink(NormalizeBreaks(text)) == Ink(text)
    decreases |text|
  {
    if text != "" {
      if text[0] == '\r' {
        var rest := if |text| > 1 && text[1] == '\n' then text[2..] else text[1..];
        InkNormalize(rest);
        InkConcat("\n", NormalizeBreaks(rest));
        if |text| > 1 && text[1] == '\n' { assert text[1..][1..] == text[2..]; }
        assert Ink("\n") == "";
      } else {
        InkNormalize(text[1..]);
        assert NormalizeBreaks(text)[1..] == NormalizeBreaks(text[1..]);
      }
    }
  }

  lemma {:induction false} InkDropBlanks(s: string)
    ensures Ink(DropBlanks(s)) == Ink(s)
  {
    if s != "" && IsBlankChar(s[0]) { InkDropBlanks(s[1..]); }
  }

  lemma {:induction false} InkCollapse(s: string)
    ensures Ink(Collapse(s)) == Ink(s)
    decreases |s|
  {
    if s != "" {
      if IsBlankChar(s[0]) {
        InkDropBlanks(s[1..]);
        InkCollapse(DropBlanks(s[1..]));
        assert Collapse(s)[1..] == Collapse(DropBlanks(s[1..]));
      } else {
        InkCollapse(s[1..]);
        assert Collapse(s)[1..] == Collapse(s[1..]);
      }
    }
  }

  lemma {:induction false} InkStripLeft(s: string)
    ensures Ink(StripLeft(s)) == Ink(s)
  {
    if s != "" && IsSpace(s[0]) { InkStripLeft(s[1..]); }
  }

  lemma {:induction false} InkStripRight(s: string)
    ensures Ink(StripRight(s)) == Ink(s)
  {
    if s != "" && IsSpace(s[|s| - 1]) {
      InkStripRight(s[..|s| - 1]);
      InkConcat(s[..|s| - 1], [s[|s| - 1]]);
      assert s == s[..|s| - 1] + [s[|s| - 1]];
    }
  }

  lemma InkStrip(s: string)
    ensures Ink(Strip(s)) == Ink(s)
  {
    InkStripLeft(s);
    InkStripRight(StripLeft(s));
  }

  lemma {:induction false} InkAround(text: string, n: nat)
    requires n < |text| && IsSpace(text[n])
    ensures Ink(text) == Ink(text[..n]) + Ink(text[n + 1..])
    decreases n
  {
    if n > 0 {
      InkAround(text[1..], n - 1);
      assert text[1..][..n - 1] == text[..n][1..];
      assert text[1..][n..] == text[n + 1..];
    } else {
      assert text[..0] == "";
    }
  }

  lemma InkFirst(line: string, rest: seq<string>)
    ensures InkOf([line] + rest) == Ink(line) + InkOf(rest)
  {
    assert ([line] + rest)[1..] == rest;
  }

  lemma {:induction false} InkSplit(text: string)
    ensures InkOf(SplitLines(text)) == Ink(text)
    decreases |text|
  {
    if text != "" {
      var n := LineEnd(text);
      if n < |text| {
        InkSplit(text[n + 1..]);
        InkAround(text, n);
        InkFirst(text[..n], SplitLines(text[n + 1..]));
      } else {
        InkFirst(text, []);
      }
    }
  }

  lemma {:induction false} InkClean(raw: seq<string>)
    ensures InkOf(CleanLines(raw)) == InkOf(raw)
  {
    if raw != [] {
      InkCollapse(raw[0]);
      InkStrip(Collapse(raw[0]));
      InkClean(raw[1..]);
      assert CleanLines(raw)[1..] == CleanLines(raw[1..]);
    }
  }

  /** The lines that are chosen from hold every visible character of the body, in order. */
  lemma InputKeepsInk(text: string)
    ensures InkOf(InputLines(text)) == Ink(text)
  {
    InkNormalize(text);
    InkSplit(NormalizeBreaks(text));
    InkClean(SplitLines(NormalizeBreaks(text)));
  }

  lemma {:induction false} InkJoin(lines: seq<string>)
    ensures Ink(Join(lines)) == InkOf(lines)
  {
    if |lines| == 1 {
      assert Ink(lines[0]) + InkOf(lines[1..]) == Ink(lines[0]);
    } else if |lines| > 1 {
      InkJoin(lines[1..]);
      InkConcat(lines[0] + "\n", Join(lines[1..]));
      InkConcat(lines[0], "\n");
      assert Ink("\n") == "";
    }
  }

  /** And the returned text holds those of the chosen lines. */
  lemma OutputKeepsInk(rules: Rules, text: string)
    ensures Ink(Clean(rules, text)) == InkOf(OutputLines(rules, InputLines(text)))
  {
    InkJoin(OutputLines(rules, InputLines(text)));
    InkStrip(Join(OutputLines(rules, InputLines(text))));
  }

  // ---------- Words stay apart ----------

  /** Position `i` starts a word: a character that is no blank, at the front or after a blank. */
  function WordsFrom(s: string, inWord: bool): nat {
    if s == "" then 0
    else if IsBlankChar(s[0]) then WordsFrom(s[1..], false)
    else (if inWord then 0 else 1) + WordsFrom(s[1..], true)
  }

  lemma {:induction false} DroppedBlanksCount(s: string)
    ensures WordsFrom(DropBlanks(s), false) == WordsFrom(s, false)
  {
    if s != "" && IsBlankChar(s[0]) { DroppedBlanksCount(s[1..]); }
  }

  /** Collapsing blanks neither joins nor splits words. */
  lemma {:induction false} CollapseKeepsWords(s: string, inWord: bool)
    ensures WordsFrom(Collapse(s), inWord) == WordsFrom(s, inWord)
    decreases |s|
  {
    if s != "" {
      if IsBlankChar(s[0]) {
        DroppedBlanksCount(s[1..]);
        CollapseKeepsWords(DropBlanks(s[1..]), false);
        assert Collapse(s)[1..] == Collapse(DropBlanks(s[1..]));
      } else {
        CollapseKeepsWords(s[1..], true);
        assert Collapse(s)[1..] == Collapse(s[1..]);
      }
    }
  }

  // ---------- Line breaks ----------

  predicate NoReturn(s: string) {
    forall i :: 0 <= i < |s| ==> s[i] != '\r' && s[i] != '\U{00A0}'
  }

  lemma {:induction false} PlainKept(line: string, rest: string)
    requires NoReturn(line)
    ensures NormalizeBreaks(line + rest) == line + NormalizeBreaks(rest)
  {
    if line == "" {
      assert line + rest == rest;
    } else {
      PlainKept(line[1..], rest);
      assert (line + rest)[1..] == line[1..] + rest;
    }
  }

  /** Each kind of line break is one break, a no-break space is a space, and other text is kept. */
  lemma BreaksNormalized(line: string, rest: string)
    requires NoReturn(line)
    ensures NormalizeBreaks(line) == line
    ensures NormalizeBreaks(line + ("\r\n" + rest)) == line + ("\n" + NormalizeBreaks(rest))
    ensures NormalizeBreaks(line + ("\n" + rest)) == line + ("\n" + NormalizeBreaks(rest))
    ensures rest == "" || rest[0] != '\n' ==> NormalizeBreaks(line + ("\r" + rest)) == line + ("\n" + NormalizeBreaks(rest))
    ensures NormalizeBreaks(line + ("\U{00A0}" + rest)) == line + (" " + NormalizeBreaks(rest))
  {
    PlainKept(line, "");
    assert line + "" == line;
    PlainKept(line, "\r\n" + rest);
    assert ("\r\n" + rest)[2..] == rest;
    PlainKept(line, "\n" + rest);
    assert ("\n" + rest)[1..] == rest;
    PlainKept(line, "\r" + rest);
    assert ("\r" + rest)[1..] == rest;
    PlainKept(line, "\U{00A0}" + rest);
    assert ("\U{00A0}" + rest)[1..] == rest;
  }

  // ---------- Which lines survive ----------

  /** A line of a reply that quotes. */
  predicate StartsQuoted(line: string) {
    line != "" && line[0] == '>'
  }

  /** Among the lines before the first quote or footer start: a line with text is kept exactly when it is
      not quoted and, having a fingerprint of 24 or more characters, is the first of its fingerprint. */
  lemma KeptLiterally(rules: Rules, lines: seq<string>, n: nat, i: nat)
    requires i < n <= |lines| && lines[i] != ""
    ensures i in Kept(rules, lines, n) <==>
              && !StartsQuoted(lines[i])
              && (|rules.fingerprint(lines[i])| >= 24 ==>
                    forall j :: 0 <= j < i && lines[j] != "" && !StartsQuoted(lines[j]) ==>
                                  rules.fingerprint(lines[j]) != rules.fingerprint(lines[i]))
  {
    KeptExactly(rules, lines, n, i);
  }

  /** After the last kept line nothing is worth keeping, and after a kept line with text no line is blank. */
  lemma {:induction false} LastKept(rules: Rules, lines: seq<string>, n: nat)
    requires n <= |lines|
    ensures var at := Kept(rules, lines, n);
            if at == [] then forall k :: 0 <= k < n ==> !Worth(rules, lines, k)
            else
              var p := at[|at| - 1];
              && (lines[p] == "" || Worth(rules, lines, p))
              && forall k :: p < k < n ==> !Worth(rules, lines, k) && (lines[p] != "" ==> lines[k] != "")
  {
    if n > 0 { LastKept(rules, lines, n - 1); }
  }

  /** Only quoted and repeated lines lie between `j` and `i`. */
  predicate NextAfter(rules: Rules, lines: seq<string>, j: nat, i: nat)
    requires i <= |lines|
  {
    j < i && Worth(rules, lines, j) && forall k :: j < k < i ==> lines[k] != "" && !Worth(rules, lines, k)
  }

  /** A blank line is kept exactly when it is the first one after a kept line with text. */
  lemma BlankKept(rules: Rules, lines: seq<string>, i: nat)
    requires i < |lines| && lines[i] == ""
    ensures i in Kept(rules, lines, i + 1) <==> exists j :: 0 <= j < i && NextAfter(rules, lines, j, i)
  {
    var at := Kept(rules, lines, i);
    LastKept(rules, lines, i);
    KeptIncreasing(rules, lines, i);
    if at != [] && lines[at[|at| - 1]] != "" { assert NextAfter(rules, lines, at[|at| - 1], i); }
    if j :| 0 <= j < i && NextAfter(rules, lines, j, i) {
      KeptExactly(rules, lines, i, j);
      var p := at[|at| - 1];
      assert p == j;
    }
  }

  /** Later lines never change what was kept. */
  lemma {:induction false} KeptStays(rules: Rules, lines: seq<string>, i: nat, n: nat)
    requires i <= n <= |lines|
    ensures Kept(rules, lines, i) <= Kept(rules, lines, n)
    ensures forall k :: k in Kept(rules, lines, n) && k < i ==> k in Kept(rules, lines, i)
  {
    if i < n { KeptStays(rules, lines, i, n - 1); }
  }

  /** No line is quoted or past a quote or footer start, no blank line is first, last or beside another,
      and no two lines have one fingerprint of 24 or more characters. */
  ghost predicate WellKept(rules: Rules, out: seq<string>) {
    && (forall i :: 0 <= i < |out| ==> !StartsQuoted(out[i]) && !rules.quotedStart(out[i]) && !rules.footerStart(out[i]))
    && (forall i :: 0 <= i < |out| && out[i] == "" ==> 0 < i < |out| - 1)
    && (forall i, j :: 0 <= i < j < |out| && j <= i + 1 ==> out[i] != "" || out[j] != "")
    && (forall i, j :: 0 <= i < j < |out| && out[i] != "" && out[j] != "" && |rules.fingerprint(out[j])| >= 24 ==>
                         rules.fingerprint(out[i]) != rules.fingerprint(out[j]))
  }

  lemma TidyWellKept(rules: Rules, out: seq<string>)
    requires Tidy(rules, out)
    ensures WellKept(rules, out)
  {
  }

  /** So are the lines of every cleaned text. */
  lemma CleanLaws(rules: Rules, text: string)
    ensures WellKept(rules, SplitLines(Clean(rules, text)))
  {
    CleanReadsBack(rules, text);
    TidyWellKept(rules, SplitLines(Clean(rules, text)));
  }
}

/** Body clean-up of `email/html_normalizer.py`: line splitting, blank collapsing, quote and
    footer cut-off, and removal of repeated substantial lines. */
module CleanText {

  const SUBSTANTIAL := 24

  /** The quote and footer patterns are arbitrary line predicates; `fingerprint` is the
      case-folded, whitespace-collapsed form of a line, an arbitrary function here. */
  datatype Rules = Rules(quotedStart: string -> bool, footerStart: string -> bool, fingerprint: string -> string)

  /** Where `str.splitlines` breaks a text. */
  predicate IsLineBreak(c: char) {
    || '\n' <= c <= '\r'
    || '\U{001C}' <= c <= '\U{001E}'
    || c == '\U{0085}' || c == '\U{2028}' || c == '\U{2029}'
  }

  /** What `str.strip` removes. */
  predicate IsSpace(c: char) {
    || IsLineBreak(c)
    || c == ' ' || c == '\t' || c == '\U{001F}' || c == '\U{00A0}'
    || c == '\U{1680}' || c == '\U{202F}' || c == '\U{205F}' || c == '\U{3000}'
    || '\U{2000}' <= c <= '\U{200A}'
  }

  // ---------- Text to lines ----------

  /** `\r\n` and `\r` become `\n`; a no-break space becomes a space. */
  function NormalizeBreaks(text: string): string {
    if text == "" then ""
    else if text[0] == '\r' then "\n" + NormalizeBreaks(if |text| > 1 && text[1] == '\n' then text[2..] else text[1..])
    else [if text[0] == '\U{00A0}' then ' ' else text[0]] + NormalizeBreaks(text[1..])
  }

  /** Length of the first line. */
  function LineEnd(text: string): (n: nat)
    ensures n <= |text|
    ensures forall i :: 0 <= i < n ==> !IsLineBreak(text[i])
    ensures n < |text| ==> IsLineBreak(text[n])
  {
    if text == "" || IsLineBreak(text[0]) then 0 else 1 + LineEnd(text[1..])
  }

  function SplitLines(text: string): seq<string>
    decreases |text|
  {
    if text == "" then []
    else
      var n := LineEnd(text);
      if n == |text| then [text] else [text[..n]] + SplitLines(text[n + 1..])
  }

  predicate IsBlankChar(c: char) {
    c == ' ' || c == '\t'
  }

  function DropBlanks(s: string): (r: string)
    ensures |r| <= |s| && (r != "" ==> !IsBlankChar(r[0]))
    ensures forall c :: c in r ==> c in s
  {
    if s != "" && IsBlankChar(s[0]) then DropBlanks(s[1..]) else s
  }

  /** Every run of spaces and tabs becomes one space. */
  function Collapse(s: string): string
    decreases |s|
  {
    if s == "" then ""
    else if IsBlankChar(s[0]) then " " + Collapse(DropBlanks(s[1..]))
    else [s[0]] + Collapse(s[1..])
  }

  function StripLeft(s: string): (r: string)
    ensures |r| <= |s| && r == s[|s| - |r|..]
    ensures r != "" ==> !IsSpace(r[0])
  {
    if s != "" && IsSpace(s[0]) then StripLeft(s[1..]) else s
  }

  function StripRight(s: string): (r: string)
    ensures |r| <= |s| && r == s[..|r|]
    ensures r != "" ==> !IsSpace(r[|r| - 1])
  {
    if s != "" && IsSpace(s[|s| - 1]) then StripRight(s[..|s| - 1]) else s
  }

  function Strip(s: string): string {
    StripRight(StripLeft(s))
  }

  function CleanLines(raw: seq<string>): (r: seq<string>)
    ensures |r| == |raw| && forall i :: 0 <= i < |raw| ==> r[i] == Strip(Collapse(raw[i]))
  {
    seq(|raw|, i requires 0 <= i < |raw| => Strip(Collapse(raw[i])))
  }

  function InputLines(text: string): seq<string> {
    CleanLines(SplitLines(NormalizeBreaks(text)))
  }

  // ---------- Choosing lines ----------

  predicate Stops(rules: Rules, line: string) {
    rules.quotedStart(line) || rules.footerStart(line)
  }

  predicate Quoted(line: string) {
    line != "" && line[0] == '>'
  }

  predicate Substantial(rules: Rules, line: string) {
    |rules.fingerprint(line)| >= SUBSTANTIAL
  }

  /** How many lines are read before the first quote or footer start. */
  function Limit(rules: Rules, lines: seq<string>): (n: nat)
    ensures n <= |lines|
    ensures forall i :: 0 <= i < n ==> !Stops(rules, lines[i])
    ensures n < |lines| ==> Stops(rules, lines[n])
  {
    if lines == [] || Stops(rules, lines[0]) then 0 else 1 + Limit(rules, lines[1..])
  }

  /** A line with text survives unless it is quoted or repeats an earlier substantial line. */
  predicate Worth(rules: Rules, lines: seq<string>, i: nat)
    requires i < |lines|
  {
    && lines[i] != "" && !Quoted(lines[i])
    && (Substantial(rules, lines[i]) ==>
          forall j :: 0 <= j < i && lines[j] != "" && !Quoted(lines[j]) ==>
                        rules.fingerprint(lines[j]) != rules.fingerprint(lines[i]))
  }

  /** Positions kept among the first `n` lines: every worthy line, and a blank line exactly
      when the last kept line is not blank. */
  function Kept(rules: Rules, lines: seq<string>, n: nat): (at: seq<nat>)
    requires n <= |lines|
    ensures forall k :: 0 <= k < |at| ==> at[k] < n
  {
    if n == 0 then []
    else
      var at := Kept(rules, lines, n - 1);
      if Worth(rules, lines, n - 1) || (lines[n - 1] == "" && at != [] && lines[at[|at| - 1]] != "")
      then at + [n - 1] else at
  }

  function Pick(lines: seq<string>, at: seq<nat>): (r: seq<string>)
    requires forall k :: 0 <= k < |at| ==> at[k] < |lines|
    ensures |r| == |at| && forall k :: 0 <= k < |at| ==> r[k] == lines[at[k]]
  {
    seq(|at|, k requires 0 <= k < |at| => lines[at[k]])
  }

  function DropTrailingBlanks(lines: seq<string>): (r: seq<string>)
    ensures |r| <= |lines| && r == lines[..|r|]
    ensures r != [] ==> r[|r| - 1] != ""
    ensures forall i :: |r| <= i < |lines| ==> lines[i] == ""
  {
    if lines != [] && lines[|lines| - 1] == "" then DropTrailingBlanks(lines[..|lines| - 1]) else lines
  }

  function OutputLines(rules: Rules, lines: seq<string>): seq<string> {
    DropTrailingBlanks(Pick(lines, Kept(rules, lines, Limit(rules, lines))))
  }

  function Join(lines: seq<string>): string {
    if lines == [] then "" else if |lines| == 1 then lines[0] else lines[0] + "\n" + Join(lines[1..])
  }

  function Clean(rules: Rules, text: string): string {
    Strip(Join(OutputLines(rules, InputLines(text))))
  }

  // ---------- The loop ----------

  predicate Increasing(at: seq<nat>) {
    forall j, k :: 0 <= j < k < |at| ==> at[j] < at[k]
  }

  lemma {:induction false} KeptIncreasing(rules: Rules, lines: seq<string>, n: nat)
    requires n <= |lines|
    ensures Increasing(Kept(rules, lines, n))
  {
    if n > 0 { KeptIncreasing(rules, lines, n - 1); }
  }

  /** The kept non-blank positions are exactly the worthy ones. */
  lemma {:induction false} KeptExactly(rules: Rules, lines: seq<string>, n: nat, i: nat)
    requires i < n <= |lines|
    requires lines[i] != ""
    ensures i in Kept(rules, lines, n) <==> Worth(rules, lines, i)
  {
    var before := Kept(rules, lines, n - 1);
    if i < n - 1 {
      KeptExactly(rules, lines, n - 1, i);
      assert forall k :: 0 <= k < |before| ==> before[k] in Kept(rules, lines, n) by {
        assert before <= Kept(rules, lines, n);
      }
    }
  }

  /** What the source's `seen_substantial` holds: the fingerprints of the lines kept so far,
      which are those of all earlier unquoted substantial lines. */
  lemma {:induction false} SeenSubstantial(rules: Rules, lines: seq<string>, n: nat, j: nat)
    requires j < n <= |lines|
    requires lines[j] != "" && !Quoted(lines[j]) && Substantial(rules, lines[j])
    ensures exists k :: k in Kept(rules, lines, n) && lines[k] != ""
                        && rules.fingerprint(lines[k]) == rules.fingerprint(lines[j])
    decreases j
  {
    if Worth(rules, lines, j) {
      KeptExactly(rules, lines, n, j);
    } else {
      var i :| 0 <= i < j && lines[i] != "" && !Quoted(lines[i])
               && rules.fingerprint(lines[i]) == rules.fingerprint(lines[j]);
      SeenSubstantial(rules, lines, n, i);
    }
  }

  /** `seen` holds exactly the fingerprints of kept lines, among those of earlier unquoted ones. */
  ghost predicate Tracks(rules: Rules, lines: seq<string>, n: nat, seen: set<string>)
    requires n <= |lines|
  {
    && (forall k :: k in Kept(rules, lines, n) && lines[k] != "" && Substantial(rules, lines[k])
                    ==> rules.fingerprint(lines[k]) in seen)
    && (forall f :: f in seen ==>
                      exists j :: 0 <= j < n && lines[j] != "" && !Quoted(lines[j]) && rules.fingerprint(lines[j]) == f)
  }

  lemma SeenDecides(rules: Rules, lines: seq<string>, n: nat, seen: set<string>)
    requires n < |lines| && Tracks(rules, lines, n, seen)
    requires lines[n] != "" && !Quoted(lines[n])
    ensures Worth(rules, lines, n) <==> !(Substantial(rules, lines[n]) && rules.fingerprint(lines[n]) in seen)
  {
    if Substantial(rules, lines[n]) && rules.fingerprint(lines[n]) !in seen {
      forall j | 0 <= j < n && lines[j] != "" && !Quoted(lines[j])
        ensures rules.fingerprint(lines[j]) != rules.fingerprint(lines[n])
      {
        if rules.fingerprint(lines[j]) == rules.fingerprint(lines[n]) { SeenSubstantial(rules, lines, n, j); }
      }
    }
  }

  lemma TracksNext(rules: Rules, lines: seq<string>, n: nat, seen: set<string>)
    requires n < |lines| && Tracks(rules, lines, n, seen)
    ensures !Worth(rules, lines, n) ==> Tracks(rules, lines, n + 1, seen)
    ensures Worth(rules, lines, n) && !Substantial(rules, lines[n]) ==> Tracks(rules, lines, n + 1, seen)
    ensures Worth(rules, lines, n) ==> Tracks(rules, lines, n + 1, seen + {rules.fingerprint(lines[n])})
  {
    assert forall k :: k in Kept(rules, lines, n + 1) ==> k in Kept(rules, lines, n) || k == n;
  }

  /** The effect of line `n` on the kept lines. */
  lemma NextLine(rules: Rules, lines: seq<string>, n: nat)
    requires n < |lines|
    ensures var kept := Pick(lines, Kept(rules, lines, n));
            Pick(lines, Kept(rules, lines, n + 1)) ==
            if Worth(rules, lines, n) || (lines[n] == "" && kept != [] && kept[|kept| - 1] != "")
            then kept + [lines[n]] else kept
  {
    var at := Kept(rules, lines, n);
    assert Pick(lines, at + [n]) == Pick(lines, at) + [lines[n]];
  }

  /** What the loop remembers: the kept lines, and the fingerprints of the substantial ones. */
  datatype Choice = Choice(lines: seq<string>, seen: set<string>)

  /** One turn of the loop. */
  function Choose(rules: Rules, c: Choice, line: string): Choice {
    var fingerprint := rules.fingerprint(line);
    if Quoted(line) then c
    else if line == "" then
      if c.lines != [] && c.lines[|c.lines| - 1] != "" then c.(lines := c.lines + [""]) else c
    else if |fingerprint| < SUBSTANTIAL then c.(lines := c.lines + [line])
    else if fingerprint in c.seen then c
    else Choice(c.lines + [line], c.seen + {fingerprint})
  }

  /** The first `n` turns. */
  function Choices(rules: Rules, rawLines: seq<string>, n: nat): Choice
    requires n <= |rawLines|
  {
    if n == 0 then Choice([], {}) else Choose(rules, Choices(rules, rawLines, n - 1), rawLines[n - 1])
  }

  /** The seen set decides as `Worth` does, so the loop keeps exactly the specified positions. */
  lemma {:induction false} ChoicesExactly(rules: Rules, rawLines: seq<string>, n: nat)
    requires n <= |rawLines|
    ensures Choices(rules, rawLines, n).lines == Pick(rawLines, Kept(rules, rawLines, n))
    ensures Tracks(rules, rawLines, n, Choices(rules, rawLines, n).seen)
  {
    if n > 0 {
      ChoicesExactly(rules, rawLines, n - 1);
      ChoiceNext(rules, rawLines, n - 1, Choices(rules, rawLines, n - 1));
    }
  }

  lemma ChoiceNext(rules: Rules, rawLines: seq<string>, n: nat, c: Choice)
    requires n < |rawLines| && c.lines == Pick(rawLines, Kept(rules, rawLines, n)) && Tracks(rules, rawLines, n, c.seen)
    ensures Choose(rules, c, rawLines[n]).lines == Pick(rawLines, Kept(rules, rawLines, n + 1))
    ensures Tracks(rules, rawLines, n + 1, Choose(rules, c, rawLines[n]).seen)
  {
    NextLine(rules, rawLines, n);
    TracksNext(rules, rawLines, n, c.seen);
    if rawLines[n] != "" && !Quoted(rawLines[n]) { SeenDecides(rules, rawLines, n, c.seen); }
  }

  method ChooseLines(rules: Rules, rawLines: seq<string>) returns (lines: seq<string>)
    ensures lines == Pick(rawLines, Kept(rules, rawLines, Limit(rules, rawLines)))
  {
    lines := [];
    var seenSubstantial: set<string> := {};
    var i := 0;
    while i < |rawLines|
      invariant 0 <= i <= Limit(rules, rawLines)
      invariant Choice(lines, seenSubstantial) == Choices(rules, rawLines, i)
      decreases |rawLines| - i
    {
      var line := rawLines[i];
      if rules.quotedStart(line) || rules.footerStart(line) { break; }
      i := i + 1;
      if Quoted(line) { continue; }
      if line == "" {
        if lines != [] && lines[|lines| - 1] != "" { lines := lines + [""]; }
        continue;
      }
      var fingerprint := rules.fingerprint(line);
      if |fingerprint| >= SUBSTANTIAL {
        if fingerprint in seenSubstantial { continue; }
        seenSubstantial := seenSubstantial + {fingerprint};
      }
      lines := lines + [line];
    }
    ChoicesExactly(rules, rawLines, i);
  }

  method CleanTextOf(rules: Rules, text: string) returns (r: string)
    ensures r == Clean(rules, text)
  {
    var lines := ChooseLines(rules, InputLines(text));
    ghost var chosen := lines;
    while lines != [] && lines[|lines| - 1] == ""
      invariant DropTrailingBlanks(lines) == DropTrailingBlanks(chosen)
    {
      lines := lines[..|lines| - 1];
    }
    r := Strip(Join(lines));
  }

  // ---------- What the output looks like ----------

  predicate Plain(c: char) {
    !IsLineBreak(c) && c != '\U{00A0}'
  }

  predicate AllPlain(s: string) {
    forall i :: 0 <= i < |s| ==> Plain(s[i])
  }

  /** No tab, and no two spaces in a row. */
  predicate Collapsed(s: string) {
    && (forall i :: 0 <= i < |s| ==> s[i] != '\t')
    && (forall i, j :: 0 <= i < j < |s| && j <= i + 1 ==> !(s[i] == ' ' && s[j] == ' '))
  }

  predicate Trimmed(s: string) {
    s != "" ==> !IsSpace(s[0]) && !IsSpace(s[|s| - 1])
  }

  /** A cleaned line: no break, tab or no-break space, single inner spaces, no outer space. */
  predicate IsClean(line: string) {
    AllPlain(line) && Collapsed(line) && Trimmed(line)
  }

  predicate AllClean(lines: seq<string>) {
    forall k :: 0 <= k < |lines| ==> IsClean(lines[k])
  }

  /** Blank lines stand alone, and neither first nor last. */
  predicate Spaced(lines: seq<string>) {
    && (lines != [] ==> lines[0] != "" && lines[|lines| - 1] != "")
    && (forall i, j :: 0 <= i < j < |lines| && j <= i + 1 ==> lines[i] != "" || lines[j] != "")
  }

  /** No substantial line repeats an earlier one. */
  ghost predicate Unrepeated(rules: Rules, lines: seq<string>) {
    forall i, j :: 0 <= i < j < |lines| && lines[i] != "" && lines[j] != "" && Substantial(rules, lines[j])
                   ==> rules.fingerprint(lines[i]) != rules.fingerprint(lines[j])
  }

  /** The shape of every output: no leading, trailing or doubled blank line, no quoted line,
      nothing past a quote or footer start, no substantial line twice. */
  ghost predicate Tidy(rules: Rules, lines: seq<string>) {
    && AllClean(lines) && Spaced(lines) && Unrepeated(rules, lines)
    && (forall i :: 0 <= i < |lines| ==> !Stops(rules, lines[i]) && !Quoted(lines[i]))
  }

  /** The front of a collapsed string. */
  lemma CollapsedMore(c: char, rest: string)
    requires c != '\t' && Collapsed(rest) && (c == ' ' && rest != "" ==> rest[0] != ' ')
    ensures Collapsed([c] + rest)
  {
    var s := [c] + rest;
    forall i, j | 0 <= i < j < |s| && j <= i + 1 ensures !(s[i] == ' ' && s[j] == ' ') {
      if i > 0 { assert s[i] == rest[i - 1] && s[j] == rest[j - 1]; }
    }
  }

  lemma {:induction false} CollapseClean(s: string)
    requires AllPlain(s)
    ensures AllPlain(Collapse(s)) && Collapsed(Collapse(s))
    ensures s != "" && !IsBlankChar(s[0]) ==> Collapse(s) != "" && Collapse(s)[0] == s[0]
    decreases |s|
  {
    if s != "" {
      var rest := if IsBlankChar(s[0]) then DropBlanks(s[1..]) else s[1..];
      forall i | 0 <= i < |rest| ensures Plain(rest[i]) {
        assert rest[i] in s[1..];
      }
      CollapseClean(rest);
      assert IsBlankChar(s[0]) && rest == "" ==> Collapse(rest) == "";
      CollapsedMore(if IsBlankChar(s[0]) then ' ' else s[0], Collapse(rest));
    }
  }

  lemma StripSlice(s: string) returns (d: nat)
    ensures d + |Strip(s)| <= |s| && Strip(s) == s[d..d + |Strip(s)|]
    ensures Trimmed(Strip(s))
  {
    var l := StripLeft(s);
    var r := StripRight(l);
    d := |s| - |l|;
    if r != "" { assert r[0] == l[0]; }
  }

  lemma SliceCollapsed(s: string, d: nat, r: string)
    requires AllPlain(s) && Collapsed(s) && d + |r| <= |s| && r == s[d..d + |r|]
    ensures AllPlain(r) && Collapsed(r)
  {
    assert forall i :: 0 <= i < |r| ==> r[i] == s[d + i];
  }

  lemma StripClean(s: string, r: string)
    requires AllPlain(s) && Collapsed(s) && r == Strip(s)
    ensures IsClean(r)
  {
    var d := StripSlice(s);
    SliceCollapsed(s, d, r);
  }

  lemma {:induction false} NormalizePlain(text: string)
    ensures forall i :: 0 <= i < |NormalizeBreaks(text)| ==> NormalizeBreaks(text)[i] != '\U{00A0}'
    decreases |text|
  {
    if text != "" {
      NormalizePlain(if text[0] == '\r' && |text| > 1 && text[1] == '\n' then text[2..] else text[1..]);
    }
  }

  lemma {:induction false} SplitPlain(text: string)
    requires forall i :: 0 <= i < |text| ==> text[i] != '\U{00A0}'
    ensures forall k :: 0 <= k < |SplitLines(text)| ==> AllPlain(SplitLines(text)[k])
    decreases |text|
  {
    if text != "" && LineEnd(text) < |text| { SplitPlain(text[LineEnd(text) + 1..]); }
  }

  lemma LineCleaned(raw: string)
    requires AllPlain(raw)
    ensures IsClean(Strip(Collapse(raw)))
  {
    CollapseClean(raw);
    StripClean(Collapse(raw), Strip(Collapse(raw)));
  }

  lemma LinesCleaned(raw: seq<string>)
    requires forall k :: 0 <= k < |raw| ==> AllPlain(raw[k])
    ensures AllClean(CleanLines(raw))
  {
    forall k | 0 <= k < |raw| ensures IsClean(CleanLines(raw)[k]) {
      LineCleaned(raw[k]);
    }
  }

  lemma InputLinesClean(text: string)
    ensures AllClean(InputLines(text))
  {
    NormalizePlain(text);
    SplitPlain(NormalizeBreaks(text));
    LinesCleaned(SplitLines(NormalizeBreaks(text)));
  }

  lemma {:induction false} KeptShape(rules: Rules, lines: seq<string>, n: nat)
    requires n <= |lines|
    ensures var at := Kept(rules, lines, n);
            && (at != [] ==> lines[at[0]] != "")
            && (forall j, k :: 0 <= j < k < |at| && k <= j + 1 ==> lines[at[j]] != "" || lines[at[k]] != "")
            && (forall k :: 0 <= k < |at| ==> lines[at[k]] == "" || Worth(rules, lines, at[k]))
  {
    if n > 0 { KeptShape(rules, lines, n - 1); }
  }

  /** `out` are the lines at some increasing positions, worthy or blank ones. */
  lemma PickedUnrepeated(rules: Rules, lines: seq<string>, at: seq<nat>, out: seq<string>)
    requires |out| <= |at| && Increasing(at)
    requires forall k :: 0 <= k < |at| ==> at[k] < |lines| && (lines[at[k]] == "" || Worth(rules, lines, at[k]))
    requires forall k :: 0 <= k < |out| ==> out[k] == lines[at[k]]
    ensures Unrepeated(rules, out)
    ensures forall i :: 0 <= i < |out| ==> !Quoted(out[i])
  {
    forall i, j | 0 <= i < j < |out| && out[i] != "" && out[j] != "" && Substantial(rules, out[j])
      ensures rules.fingerprint(out[i]) != rules.fingerprint(out[j])
    {
      assert Worth(rules, lines, at[j]) && Worth(rules, lines, at[i]);
    }
  }

  /** Every output is tidy: the blank-line, quote, footer and repetition rules all hold of it. */
  lemma OutputTidy(rules: Rules, lines: seq<string>)
    requires AllClean(lines)
    ensures Tidy(rules, OutputLines(rules, lines))
  {
    var n := Limit(rules, lines);
    var at := Kept(rules, lines, n);
    KeptShape(rules, lines, n);
    KeptIncreasing(rules, lines, n);
    var out := OutputLines(rules, lines);
    assert forall k :: 0 <= k < |out| ==> out[k] == lines[at[k]];
    PickedUnrepeated(rules, lines, at, out);
  }

  /** The output keeps the input order and, among the lines read before the cut-off, loses
      no line with text except the quoted ones and the repetitions. */
  lemma OutputFaithful(rules: Rules, lines: seq<string>) returns (at: seq<nat>)
    ensures |at| == |OutputLines(rules, lines)|
    ensures Increasing(at)
    ensures forall k :: 0 <= k < |at| ==> at[k] < Limit(rules, lines) && OutputLines(rules, lines)[k] == lines[at[k]]
    ensures forall i :: 0 <= i < Limit(rules, lines) && lines[i] != "" ==> (i in at <==> Worth(rules, lines, i))
  {
    var n := Limit(rules, lines);
    var all := Kept(rules, lines, n);
    at := all[..|OutputLines(rules, lines)|];
    KeptIncreasing(rules, lines, n);
    forall i | 0 <= i < n && lines[i] != "" ensures i in at <==> Worth(rules, lines, i) {
      KeptExactly(rules, lines, n, i);
      if i in all {
        var k :| 0 <= k < |all| && all[k] == i;
        assert Pick(lines, all)[k] != "";
      }
    }
  }

  // ---------- Idempotence ----------

  lemma {:induction false} CollapseFixed(s: string)
    requires Collapsed(s)
    ensures Collapse(s) == s
    decreases |s|
  {
    if s != "" {
      assert forall i :: 0 <= i < |s| - 1 ==> s[1..][i] == s[i + 1];
      CollapseFixed(s[1..]);
      if |s| > 1 && s[0] == ' ' {
        assert !IsBlankChar(s[1..][0]);
      }
    }
  }

  lemma CleanLineFixed(s: string)
    requires IsClean(s)
    ensures Strip(Collapse(s)) == s
  {
    CollapseFixed(s);
  }

  lemma {:induction false} NormalizeFixed(t: string)
    requires forall i :: 0 <= i < |t| ==> t[i] != '\r' && t[i] != '\U{00A0}'
    ensures NormalizeBreaks(t) == t
  {
    if t != "" { NormalizeFixed(t[1..]); }
  }

  lemma {:induction false} JoinChars(lines: seq<string>)
    requires AllClean(lines)
    ensures forall i :: 0 <= i < |Join(lines)| ==> Join(lines)[i] != '\r' && Join(lines)[i] != '\U{00A0}'
  {
    if |lines| > 1 { JoinChars(lines[1..]); }
  }

  lemma {:induction false} JoinEnds(lines: seq<string>)
    requires lines != [] && lines[|lines| - 1] != ""
    ensures Join(lines) != ""
    ensures Join(lines)[|Join(lines)| - 1] == lines[|lines| - 1][|lines[|lines| - 1]| - 1]
    ensures lines[0] != "" ==> Join(lines)[0] == lines[0][0]
  {
    if |lines| > 1 { JoinEnds(lines[1..]); }
  }

  lemma {:induction false} LineEndAt(line: string, rest: string)
    requires AllPlain(line)
    requires rest == "" || IsLineBreak(rest[0])
    ensures LineEnd(line + rest) == |line|
  {
    if line != "" {
      LineEndAt(line[1..], rest);
      assert (line + rest)[1..] == line[1..] + rest;
    } else {
      assert line + rest == rest;
    }
  }

  lemma SplitFirst(line: string, rest: string)
    requires AllPlain(line)
    ensures SplitLines(line + "\n" + rest) == [line] + SplitLines(rest)
  {
    var t := line + "\n" + rest;
    LineEndAt(line, "\n" + rest);
    assert t == line + ("\n" + rest);
    assert t[..|line|] == line && t[|line| + 1..] == rest;
  }

  /** Splitting undoes joining. */
  lemma {:induction false} SplitJoin(lines: seq<string>)
    requires forall k :: 0 <= k < |lines| ==> AllPlain(lines[k])
    requires lines != [] ==> lines[|lines| - 1] != ""
    ensures SplitLines(Join(lines)) == lines
  {
    if |lines| == 1 {
      LineEndAt(lines[0], "");
      assert lines[0] + "" == lines[0];
    } else if |lines| > 1 {
      SplitJoin(lines[1..]);
      SplitFirst(lines[0], Join(lines[1..]));
      assert lines == [lines[0]] + lines[1..];
    }
  }

  lemma {:induction false} TidyKept(rules: Rules, lines: seq<string>, n: nat)
    requires Tidy(rules, lines) && n <= |lines|
    ensures |Kept(rules, lines, n)| == n && forall k :: 0 <= k < n ==> Kept(rules, lines, n)[k] == k
  {
    if n > 0 { TidyKept(rules, lines, n - 1); }
  }

  lemma StripFixed(s: string)
    requires s != "" ==> !IsSpace(s[0]) && !IsSpace(s[|s| - 1])
    ensures Strip(s) == s
  {
  }

  lemma CleanLinesFixed(lines: seq<string>)
    requires AllClean(lines)
    ensures CleanLines(lines) == lines
  {
    forall k | 0 <= k < |lines| ensures CleanLines(lines)[k] == lines[k] {
      CleanLineFixed(lines[k]);
    }
  }

  lemma JoinStripped(lines: seq<string>)
    requires AllClean(lines) && Spaced(lines)
    ensures Strip(Join(lines)) == Join(lines)
  {
    if lines != [] { JoinEnds(lines); }
    StripFixed(Join(lines));
  }

  /** A clean, well spaced list of lines reads back from its joined text. */
  lemma JoinReads(lines: seq<string>)
    requires AllClean(lines) && Spaced(lines)
    ensures SplitLines(Join(lines)) == lines && InputLines(Join(lines)) == lines
  {
    SplitJoin(lines);
    JoinChars(lines);
    NormalizeFixed(Join(lines));
    CleanLinesFixed(lines);
  }

  lemma TidyFixed(rules: Rules, lines: seq<string>)
    requires Tidy(rules, lines)
    ensures OutputLines(rules, lines) == lines
  {
    TidyLimit(rules, lines);
    TidyKept(rules, lines, |lines|);
    assert Pick(lines, Kept(rules, lines, |lines|)) == lines;
  }

  lemma TidyLimit(rules: Rules, lines: seq<string>)
    requires Tidy(rules, lines)
    ensures Limit(rules, lines) == |lines|
  {
  }

  /** Cleaning the joined text of a tidy list gives that text. */
  lemma TidyTextFixed(rules: Rules, lines: seq<string>)
    requires Tidy(rules, lines)
    ensures Clean(rules, Join(lines)) == Join(lines)
  {
    JoinReads(lines);
    TidyFixed(rules, lines);
    JoinStripped(lines);
  }

  /** A cleaned text is the joined text of a tidy list. */
  lemma CleanJoins(rules: Rules, text: string, out: seq<string>)
    requires out == OutputLines(rules, InputLines(text))
    ensures Tidy(rules, out) && Clean(rules, text) == Join(out)
  {
    InputLinesClean(text);
    OutputTidy(rules, InputLines(text));
    JoinStripped(out);
  }

  /** Cleaning a cleaned text changes nothing, whatever the patterns and the text. */
  lemma CleanIdempotent(rules: Rules, text: string)
    ensures Clean(rules, Clean(rules, text)) == Clean(rules, text)
  {
    var out := OutputLines(rules, InputLines(text));
    CleanJoins(rules, text, out);
    TidyTextFixed(rules, out);
  }

  /** The lines of the returned text are the chosen lines, and they are tidy. */
  lemma CleanReadsBack(rules: Rules, text: string)
    ensures SplitLines(Clean(rules, text)) == OutputLines(rules, InputLines(text))
    ensures Tidy(rules, SplitLines(Clean(rules, text)))
  {
    var out := OutputLines(rules, InputLines(text));
    CleanJoins(rules, text, out);
    JoinReads(out);
  }
}

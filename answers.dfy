/** The text recovery of AIController: ParseNumberedAnswers, which cuts a model's reply into
    answers at numbered headers, the "Q<n>: ... Answer: ..." split of the single-answer path,
    and the clean-up of the lines an extraction reply lists.

    The multi-line regular expressions are modelled by position: `^` is a line start (the start
    of the text or just after '\n'), `\s` is IsWhite (line breaks included) and `\d` IsDigit. */
module AnswerParsing {
  import opened Wrappers
  import opened Text
  import Collections

  // ================================================================ numbered headers

  /** `^\s*(\d+)\s*[\.)]\s*Answer\s*:\s*` (AnswerHeader) or `^\s*(\d+)\s*[\.)]\s*` (BareHeader). */
  datatype HeaderKind = AnswerHeader | BareHeader

  /** Index just past the run of white space (`\s*`) that starts at i. */
  function SkipWhite(s: string, i: nat): (j: nat)
    requires i <= |s|
    ensures i <= j <= |s|
    decreases |s| - i
  {
    if i < |s| && IsWhite(s[i]) then SkipWhite(s, i + 1) else i
  }

  /** Index just past the run of digits (`\d*`) that starts at i. */
  function SkipDigits(s: string, i: nat): (j: nat)
    requires i <= |s|
    ensures i <= j <= |s|
    decreases |s| - i
  {
    if i < |s| && IsDigit(s[i]) then SkipDigits(s, i + 1) else i
  }

  /** A white run that provably ends at j ends at j. */
  lemma {:induction false} SkipWhiteIs(s: string, i: nat, j: nat)
    requires i <= j <= |s|
    requires forall k :: i <= k < j ==> IsWhite(s[k])
    requires j == |s| || !IsWhite(s[j])
    ensures SkipWhite(s, i) == j
    decreases j - i
  {
    if i < j {
      SkipWhiteIs(s, i + 1, j);
    }
  }

  /** The run SkipWhite passes over is white, and it stops at the end or at a visible character. */
  lemma {:induction false} SkipWhiteRun(s: string, i: nat)
    requires i <= |s|
    ensures forall k :: i <= k < SkipWhite(s, i) ==> IsWhite(s[k])
    ensures SkipWhite(s, i) == |s| || !IsWhite(s[SkipWhite(s, i)])
    decreases |s| - i
  {
    if i < |s| && IsWhite(s[i]) {
      SkipWhiteRun(s, i + 1);
    }
  }

  /** The run SkipDigits passes over is digits, and it stops at the end or at a non-digit. */
  lemma {:induction false} SkipDigitsRun(s: string, i: nat)
    requires i <= |s|
    ensures forall k :: i <= k < SkipDigits(s, i) ==> IsDigit(s[k])
    ensures SkipDigits(s, i) == |s| || !IsDigit(s[SkipDigits(s, i)])
    decreases |s| - i
  {
    if i < |s| && IsDigit(s[i]) {
      SkipDigitsRun(s, i + 1);
    }
  }

  /** A digit run that provably ends at j ends at j. */
  lemma {:induction false} SkipDigitsIs(s: string, i: nat, j: nat)
    requires i <= j <= |s|
    requires forall k :: i <= k < j ==> IsDigit(s[k])
    requires j == |s| || !IsDigit(s[j])
    ensures SkipDigits(s, i) == j
    decreases j - i
  {
    if i < j {
      SkipDigitsIs(s, i + 1, j);
    }
  }

  /** `\s*(\d+)\s*[\.)]` read from q: the index just past the '.' or ')'. */
  function MarkerEnd(s: string, q: nat): (r: Option<nat>)
    requires q <= |s|
    ensures r.Some? ==> q < r.value <= |s|
  {
    var a := SkipWhite(s, q);
    var d := SkipDigits(s, a);
    var b := SkipWhite(s, d);
    if d == a || b == |s| || (s[b] != '.' && s[b] != ')') then None else Some(b + 1)
  }

  /** The six letters of "Answer", case-sensitively, start at c. */
  predicate WordAt(s: string, c: nat) {
    c + 6 <= |s| && s[c] == 'A' && s[c + 1] == 'n' && s[c + 2] == 's' && s[c + 3] == 'w' &&
    s[c + 4] == 'e' && s[c + 5] == 'r'
  }

  /** `\s*Answer\s*:` read from i: the index just past the ':'. */
  function AnswerWordEnd(s: string, i: nat): (r: Option<nat>)
    requires i <= |s|
    ensures r.Some? ==> i < r.value <= |s|
  {
    var c := SkipWhite(s, i);
    if WordAt(s, c) then
      var e := SkipWhite(s, c + 6);
      if e < |s| && s[e] == ':' then Some(e + 1) else None
    else None
  }

  /** Where the body starts when a header of the given kind is read from q: past the number,
      the '.' or ')', for an answer header the word "Answer" and its ':', and the white space
      after them. */
  function HeaderEnd(s: string, q: nat, kind: HeaderKind): (r: Option<nat>)
    requires q <= |s|
    ensures r.Some? ==> q < r.value <= |s|
  {
    match MarkerEnd(s, q)
    case None => None
    case Some(m) =>
      if kind == BareHeader then Some(SkipWhite(s, m))
      else
        match AnswerWordEnd(s, m)
        case None => None
        case Some(w) => Some(SkipWhite(s, w))
  }

  /** The multi-line `^`: position q starts a line. */
  predicate LineStart(s: string, q: nat)
    requires q <= |s|
  {
    q == 0 || s[q - 1] == '\n'
  }

  /** A header of the given kind starts at line start q. */
  predicate HeaderAt(s: string, q: nat, kind: HeaderKind)
    requires q <= |s|
  {
    LineStart(s, q) && HeaderEnd(s, q, kind).Some?
  }

  /** Every answer header is also a bare header. */
  lemma AnswerHeaderIsBare(s: string, q: nat)
    requires q <= |s|
    ensures HeaderAt(s, q, AnswerHeader) ==> HeaderAt(s, q, BareHeader)
  {
  }

  /** The first position at or after i where a header starts, or |s| (`\z`) when none does. */
  function NextHeader(s: string, i: nat, kind: HeaderKind): (q: nat)
    requires i <= |s|
    ensures i <= q <= |s|
    decreases |s| - i
  {
    if i == |s| then |s|
    else if HeaderAt(s, i, kind) then i
    else NextHeader(s, i + 1, kind)
  }

  /** A position NextHeader stops at before the end starts a header. */
  lemma {:induction false} NextHeaderFound(s: string, i: nat, kind: HeaderKind)
    requires i <= |s|
    ensures NextHeader(s, i, kind) < |s| ==> HeaderAt(s, NextHeader(s, i, kind), kind)
    decreases |s| - i
  {
    if i < |s| && !HeaderAt(s, i, kind) {
      NextHeaderFound(s, i + 1, kind);
    }
  }

  /** NextHeader is the first header position: a position with none before it is the result. */
  lemma {:induction false} NextHeaderIs(s: string, i: nat, j: nat, kind: HeaderKind)
    requires i <= j <= |s|
    requires forall k :: i <= k < j ==> !HeaderAt(s, k, kind)
    requires j == |s| || HeaderAt(s, j, kind)
    ensures NextHeader(s, i, kind) == j
    decreases j - i
  {
    if i < j {
      NextHeaderIs(s, i + 1, j, kind);
    }
  }

  /** The lazily matched bodies (group 2) of Regex.Matches from position i on, in order: each
      runs from its header's end to the next header's line start, or to the end of the text. */
  function Bodies(s: string, i: nat, kind: HeaderKind): (r: seq<string>)
    requires i <= |s|
    decreases |s| - i
  {
    var h := NextHeader(s, i, kind);
    if h == |s| then []
    else
      match HeaderEnd(s, h, kind)
      case None => []  // NextHeaderFound: does not happen
      case Some(start) =>
        var e := NextHeader(s, start, kind);
        [s[start..e]] + Bodies(s, e, kind)
  }

  /** One step of the matching loop: the first header's body, then the matches after it. */
  lemma BodiesStep(s: string, i: nat, kind: HeaderKind, h: nat, start: nat, e: nat)
    requires i <= |s| && NextHeader(s, i, kind) == h < |s|
    requires HeaderEnd(s, h, kind) == Some(start)
    requires start <= |s| && NextHeader(s, start, kind) == e
    ensures Bodies(s, i, kind) == [s[start..e]] + Bodies(s, e, kind)
  {
  }

  /** A text with no header of the given kind has no bodies. */
  lemma NoHeaderNoBodies(s: string, kind: HeaderKind)
    requires forall q :: 0 <= q < |s| ==> !HeaderAt(s, q, kind)
    ensures Bodies(s, 0, kind) == []
  {
    NextHeaderIs(s, 0, |s|, kind);
  }

  // ================================================================ ParseNumberedAnswers

  /** The trimmed bodies that are not blank, in order. */
  function NonBlankTrimmed(xs: seq<string>): (r: seq<string>)
    ensures |r| <= |xs|
    ensures forall i :: 0 <= i < |r| ==> !IsBlank(r[i]) && Trim(r[i]) == r[i]
  {
    if xs == [] then []
    else if IsBlank(Trim(xs[0])) then NonBlankTrimmed(xs[1..])
    else (TrimIdempotent(xs[0]); [Trim(xs[0])] + NonBlankTrimmed(xs[1..]))
  }

  /** The fallback list before the cap: the non-blank bare-header bodies, or else the whole
      output trimmed. */
  function FallbackAnswers(output: string): seq<string> {
    var kept := NonBlankTrimmed(Bodies(output, 0, BareHeader));
    if kept == [] then [Trim(output)] else kept
  }

  /** What ParseNumberedAnswers(modelOutput, expectedCount) returns. */
  function ParsedAnswers(output: string, expectedCount: int): seq<string> {
    if IsBlank(output) then []
    else if Bodies(output, 0, AnswerHeader) != [] then TrimAll(Bodies(output, 0, AnswerHeader))
    else
      var all := FallbackAnswers(output);
      if expectedCount > 0 && |all| > expectedCount then all[..expectedCount] else all
  }

  /** Blank output gives no answer and any other output at least one; the "n. Answer:" path
      keeps every trimmed body, uncapped; the fallback path yields trimmed, non-blank answers,
      at most expectedCount of them when that is positive. */
  lemma ParsedAnswersFacts(output: string, expectedCount: int)
    ensures ParsedAnswers(output, expectedCount) == [] <==> IsBlank(output)
    ensures !IsBlank(output) && Bodies(output, 0, AnswerHeader) != [] ==>
              ParsedAnswers(output, expectedCount) == TrimAll(Bodies(output, 0, AnswerHeader))
    ensures Bodies(output, 0, AnswerHeader) == [] ==>
              var r := ParsedAnswers(output, expectedCount);
              (expectedCount > 0 ==> |r| <= expectedCount) &&
              forall i :: 0 <= i < |r| ==> !IsBlank(r[i]) && Trim(r[i]) == r[i]
  {
    if !IsBlank(output) {
      TrimNotBlank(output);
      TrimIdempotent(output);
    }
  }

  /** The foreach over the "n. Answer:" matches. */
  method TrimEach(matches: seq<string>) returns (results: seq<string>)
    ensures results == TrimAll(matches)
  {
    results := [];
    for i := 0 to |matches|
      invariant results == TrimAll(matches[..i])
    {
      TrimAllSnoc(matches, i);
      results := results + [Trim(matches[i])];
    }
    assert matches[..|matches|] == matches;
  }

  /** The foreach over the bare-header matches, skipping blank bodies. */
  method KeepNonBlank(matches: seq<string>) returns (results: seq<string>)
    ensures results == NonBlankTrimmed(matches)
  {
    results := [];
    for i := 0 to |matches|
      invariant results == NonBlankTrimmed(matches[..i])
    {
      NonBlankTrimmedSnoc(matches, i);
      var content := Trim(matches[i]);
      if !IsBlank(content) {
        results := results + [content];
      }
    }
    assert matches[..|matches|] == matches;
  }

  /** ParseNumberedAnswers(modelOutput, expectedCount). */
  method ParseNumberedAnswers(modelOutput: string, expectedCount: int) returns (results: seq<string>)
    ensures results == ParsedAnswers(modelOutput, expectedCount)
  {
    if IsBlank(modelOutput) {
      return [];
    }
    var matches := Bodies(modelOutput, 0, AnswerHeader);
    if |matches| > 0 {
      results := TrimEach(matches);
      return;
    }
    results := KeepNonBlank(Bodies(modelOutput, 0, BareHeader));
    if |results| == 0 {
      results := [Trim(modelOutput)];
    }
    if expectedCount > 0 && |results| > expectedCount {
      results := results[..expectedCount];
    }
  }

  /** A reply with no numbered header at all comes back whole, trimmed, as the one answer. */
  lemma ParsedNoHeaders(output: string, expectedCount: int)
    requires !IsBlank(output)
    requires forall q :: 0 <= q < |output| ==> !HeaderAt(output, q, BareHeader)
    ensures ParsedAnswers(output, expectedCount) == [Trim(output)]
  {
    forall q | 0 <= q < |output|
      ensures !HeaderAt(output, q, AnswerHeader)
    {
      AnswerHeaderIsBare(output, q);
    }
    NoHeaderNoBodies(output, AnswerHeader);
    NoHeaderNoBodies(output, BareHeader);
  }

  // ---------------------------------------------------------------- the requested layout

  /** One answer in the layout the batch prompt asks for: "n. Answer:", then the answer. */
  function AnswerBlock(n: nat, answer: string): string {
    NatToString(n) + AnswerMark + answer + "\n"
  }

  /** What follows the number in the requested layout. */
  const AnswerMark := ". Answer:\n"

  /** The answers laid out one block after another, numbered from `first`. */
  function AnswerSheet(answers: seq<string>, first: nat): string
    decreases |answers|
  {
    if answers == [] then "" else AnswerBlock(first, answers[0]) + AnswerSheet(answers[1..], first + 1)
  }

  /** An answer on one line, without surrounding white space, that does not open with a digit
      (so it cannot itself be read as a header). */
  predicate OneLineAnswer(a: string) {
    a != [] && !IsWhite(a[0]) && !IsDigit(a[0]) && !IsWhite(a[|a| - 1]) && '\n' !in a
  }

  /** The pieces of a block: the number's digits, the mark, the answer and a closing line
      break. */
  lemma BlockChars(n: nat, a: string)
    ensures var b := AnswerBlock(n, a); var d := |NatToString(n)|;
      0 < d && |b| == d + 11 + |a| &&
      (forall k :: 0 <= k < d ==> IsDigit(b[k])) &&
      b[d..d + 10] == AnswerMark && b[d + 10..|b|] == a + "\n"
  {
    var digits := NatToString(n);
    var d := |digits|;
    var b := AnswerBlock(n, a);
    assert b == digits + AnswerMark + a + "\n";
    assert forall k :: 0 <= k < d ==> b[k] == digits[k];
  }

  /** A block copied into s at `off` and ending at `end`: digits, then the mark, then the
      answer (which starts with a non-white character) and its line break. */
  lemma BlockCopied(s: string, off: nat, b: string, d: nat, a: string, start: nat, end: nat)
    requires OneLineAnswer(a)
    requires 0 < d && |b| == d + 11 + |a| && start == off + d + 10 && end == off + |b|
    requires end <= |s| && s[off..end] == b
    requires forall k :: 0 <= k < d ==> IsDigit(b[k])
    requires b[d..d + 10] == AnswerMark && b[d + 10..|b|] == a + "\n"
    ensures forall k :: off <= k < off + d ==> IsDigit(s[k])
    ensures s[off + d..off + d + 10] == AnswerMark
    ensures start < end && s[start..end] == a + "\n" && !IsWhite(s[start])
  {
    assert forall k :: off <= k < off + d ==> IsDigit(s[k]) by {
      assert forall k :: off <= k < off + d ==> s[k] == b[k - off];
    }
    CopySlice(s, off, b, d, d + 10);
    CopySlice(s, off, b, d + 10, |b|);
    assert s[start] == (a + "\n")[0] == a[0];
  }

  /** A block copied into s at `off` and ending at `end` opens with an answer header whose
      body starts at its answer, at `start`, and runs over the answer and its line break. */
  lemma BlockAt(s: string, off: nat, b: string, d: nat, a: string, start: nat, end: nat)
    requires OneLineAnswer(a)
    requires 0 < d && |b| == d + 11 + |a| && start == off + d + 10 && end == off + |b|
    requires end <= |s| && s[off..end] == b
    requires forall k :: 0 <= k < d ==> IsDigit(b[k])
    requires b[d..d + 10] == AnswerMark && b[d + 10..|b|] == a + "\n"
    ensures HeaderEnd(s, off, AnswerHeader) == Some(start)
    ensures s[start..end] == a + "\n"
  {
    BlockCopied(s, off, b, d, a, start, end);
    HeaderShapeAt(s, off, d);
  }

  /** A slice of a copy is the same slice of the original. */
  lemma CopySlice(s: string, off: nat, b: string, i: nat, j: nat)
    requires off + |b| <= |s| && s[off..off + |b|] == b && i <= j <= |b|
    ensures s[off + i..off + j] == b[i..j]
  {
    forall k | 0 <= k < j - i
      ensures s[off + i..off + j][k] == b[i..j][k]
    {
      assert s[off + i + k] == b[i + k];
    }
  }

  /** An answer line, followed by the end of the text or another header, holds no header: the
      next header after its start is the end of the line. */
  lemma BodyEnd(s: string, start: nat, end: nat, a: string)
    requires OneLineAnswer(a)
    requires start < end <= |s| && s[start..end] == a + "\n"
    requires end == |s| || HeaderAt(s, end, AnswerHeader)
    ensures NextHeader(s, start, AnswerHeader) == end
  {
    forall k | start <= k < end
      ensures !HeaderAt(s, k, AnswerHeader)
    {
      if k == start {
        assert s[start] == a[0];
        NotHeaderAt(s, start, AnswerHeader);
      } else {
        assert s[k - 1] == a[k - 1 - start];
      }
    }
    NextHeaderIs(s, start, end, AnswerHeader);
  }

  /** A header at `off` whose body is one answer line yields that line as the next body, when
      the end of the text or another header follows it. */
  lemma BlockStep(s: string, off: nat, start: nat, end: nat, a: string)
    requires OneLineAnswer(a)
    requires off < start < end <= |s| && s[start..end] == a + "\n"
    requires LineStart(s, off) && HeaderEnd(s, off, AnswerHeader) == Some(start)
    ensures end == |s| || HeaderAt(s, end, AnswerHeader) ==>
              Bodies(s, off, AnswerHeader) == [a + "\n"] + Bodies(s, end, AnswerHeader)
  {
    if end == |s| || HeaderAt(s, end, AnswerHeader) {
      NextHeaderIs(s, off, off, AnswerHeader);
      BodyEnd(s, start, end, a);
      BodiesStep(s, off, AnswerHeader, off, start, end);
    }
  }

  /** Text that holds digits and then the mark at q, then a character that is not white space,
      has an answer header at q whose body starts at that character. */
  lemma HeaderShapeAt(s: string, q: nat, d: nat)
    requires 0 < d && q + d + 10 < |s|
    requires forall k :: q <= k < q + d ==> IsDigit(s[k])
    requires s[q + d..q + d + 10] == AnswerMark && !IsWhite(s[q + d + 10])
    ensures HeaderEnd(s, q, AnswerHeader) == Some(q + d + 10)
  {
    var m := q + d;
    MarkChars(s, m);
    DigitsMarkerEnd(s, q, m);
    assert AnswerWordEnd(s, m + 1) == Some(m + 9) by {
      SkipWhiteIs(s, m + 1, m + 2);
      SkipWhiteIs(s, m + 8, m + 8);
    }
    SkipWhiteIs(s, m + 9, m + 10);
  }

  /** The characters of the mark ". Answer:\n" copied at m. */
  lemma MarkChars(s: string, m: nat)
    requires m + 10 <= |s| && s[m..m + 10] == AnswerMark
    ensures s[m] == '.' && s[m + 1] == ' ' && WordAt(s, m + 2) && s[m + 8] == ':' && s[m + 9] == '\n'
  {
    var mark := s[m..m + 10];
    forall k | 0 <= k < 10 ensures s[m + k] == mark[k] {
    }
  }

  /** Digits from q up to m, then '.', read as a list marker. */
  lemma DigitsMarkerEnd(s: string, q: nat, m: nat)
    requires q < m < |s| && s[m] == '.'
    requires forall k :: q <= k < m ==> IsDigit(s[k])
    ensures MarkerEnd(s, q) == Some(m + 1)
  {
    SkipWhiteIs(s, q, q);
    SkipDigitsIs(s, q, m);
    SkipWhiteIs(s, m, m);
  }

  /** No header is read from a character that is neither white space nor a digit. */
  lemma NotHeaderAt(s: string, q: nat, kind: HeaderKind)
    requires q < |s| && !IsWhite(s[q]) && !IsDigit(s[q])
    ensures HeaderEnd(s, q, kind).None?
  {
    SkipWhiteIs(s, q, q);
    SkipDigitsIs(s, q, q);
  }

  /** The sheet splits into its first block and the sheet after it. */
  lemma SheetSplit(s: string, off: nat, answers: seq<string>, first: nat)
    requires answers != [] && off <= |s| && s[off..] == AnswerSheet(answers, first)
    ensures var b := AnswerBlock(first, answers[0]);
      off + |b| <= |s| && s[off..off + |b|] == b &&
      s[off + |b|..] == AnswerSheet(answers[1..], first + 1)
  {
    var b := AnswerBlock(first, answers[0]);
    var rest := AnswerSheet(answers[1..], first + 1);
    assert s[off..] == b + rest;
    assert s[off..][..|b|] == b;
    assert s[off..][|b|..] == rest;
  }

  /** The answers, each followed by a line break. */
  function Lines(answers: seq<string>): (r: seq<string>)
    ensures |r| == |answers|
  {
    if answers == [] then [] else [answers[0] + "\n"] + Lines(answers[1..])
  }

  /** The first block of a sheet copied at a line start: it opens with an answer header, its
      body is its answer line when the end of the text or another header follows, and the rest
      of the sheet starts on the next line, at `next`. */
  lemma {:induction false} SheetStep(s: string, off: nat, answers: seq<string>, first: nat)
    returns (next: nat)
    requires answers != [] && OneLineAnswer(answers[0])
    requires off <= |s| && s[off..] == AnswerSheet(answers, first)
    ensures off < next <= |s| && s[next - 1] == '\n'
    ensures s[next..] == AnswerSheet(answers[1..], first + 1)
    ensures LineStart(s, off) ==> HeaderAt(s, off, AnswerHeader)
    ensures LineStart(s, off) && (next == |s| || HeaderAt(s, next, AnswerHeader)) ==>
              Bodies(s, off, AnswerHeader) == [answers[0] + "\n"] + Bodies(s, next, AnswerHeader)
  {
    var a := answers[0];
    var b := AnswerBlock(first, a);
    var d := |NatToString(first)|;
    next := off + |b|;
    var start := off + d + 10;
    SheetSplit(s, off, answers, first);
    BlockChars(first, a);
    assert s[next - 1] == '\n' by {
      assert b[|b| - 1] == b[d + 10..|b|][|a|];
      assert s[next - 1] == s[off..off + |b|][|b| - 1];
    }
    BlockAt(s, off, b, d, a, start, next);
    if LineStart(s, off) {
      BlockStep(s, off, start, next, a);
    }
  }

  /** From a line start where a sheet is copied, the bodies are its answers with their line
      breaks; the sheet opens with an answer header when it is not empty. */
  lemma {:induction false} SheetBodies(s: string, off: nat, answers: seq<string>, first: nat)
    requires forall i :: 0 <= i < |answers| ==> OneLineAnswer(answers[i])
    requires off <= |s| && LineStart(s, off) && s[off..] == AnswerSheet(answers, first)
    ensures answers != [] ==> HeaderAt(s, off, AnswerHeader)
    ensures Bodies(s, off, AnswerHeader) == Lines(answers)
    decreases |answers|
  {
    if answers == [] {
      assert off == |s|;
      return;
    }
    var next := SheetStep(s, off, answers, first);
    SheetBodies(s, next, answers[1..], first + 1);
    if next < |s| {
      assert answers[1..] != [];
    }
  }

  /** A line followed by its line break trims back to the line. */
  lemma TrimLine(a: string)
    requires a != [] && !IsWhite(a[0]) && !IsWhite(a[|a| - 1])
    ensures Trim(a + "\n") == a
  {
    var s := a + "\n";
    assert s[0] == a[0];
    assert TrimStart(s) == s;
    assert s[..|a|] == a;
    assert TrimEnd(s) == TrimEnd(a);
  }

  /** Trimming the answers' lines gives the answers back. */
  lemma {:induction false} TrimLines(answers: seq<string>)
    requires forall i :: 0 <= i < |answers| ==> OneLineAnswer(answers[i])
    ensures TrimAll(Lines(answers)) == answers
    decreases |answers|
  {
    if answers != [] {
      TrimLine(answers[0]);
      TrimLines(answers[1..]);
    }
  }

  /** A sheet with at least one answer is not blank: it opens with a digit. */
  lemma SheetNotBlank(answers: seq<string>, first: nat)
    requires answers != []
    ensures !IsBlank(AnswerSheet(answers, first))
  {
    var s := AnswerSheet(answers, first);
    BlockChars(first, answers[0]);
    assert s[0] == AnswerBlock(first, answers[0])[0];
  }

  /** Answers written in the requested layout are read back exactly, one per block, whatever
      expectedCount is. */
  lemma AnswerSheetRoundTrip(answers: seq<string>, expectedCount: int)
    requires answers != []
    requires forall i :: 0 <= i < |answers| ==> OneLineAnswer(answers[i])
    ensures ParsedAnswers(AnswerSheet(answers, 1), expectedCount) == answers
  {
    var s := AnswerSheet(answers, 1);
    assert s[0..] == s;
    SheetBodies(s, 0, answers, 1);
    TrimLines(answers);
    SheetNotBlank(answers, 1);
  }

  lemma {:induction false} TrimAllSnoc(xs: seq<string>, i: nat)
    requires i < |xs|
    ensures TrimAll(xs[..i + 1]) == TrimAll(xs[..i]) + [Trim(xs[i])]
  {
    assert TrimAll(xs[..i + 1]) == TrimAll(xs[..i]) + [Trim(xs[i])];
  }

  lemma {:induction false} NonBlankTrimmedSnoc(xs: seq<string>, i: nat)
    requires i < |xs|
    ensures NonBlankTrimmed(xs[..i + 1]) ==
              NonBlankTrimmed(xs[..i]) + (if IsBlank(Trim(xs[i])) then [] else [Trim(xs[i])])
    decreases i
  {
    if i > 0 {
      NonBlankTrimmedSnoc(xs[1..], i - 1);
      assert xs[1..][..i] == xs[..i + 1][1..];
      assert xs[1..][..i - 1] == xs[..i][1..];
    }
  }

  // ================================================================ the extraction reply

  /** The characters the extraction reply is split on. */
  const LineBreaks: set<char> := {'\n', '\r'}

  /** `^(\d+[\.)]\s*|Q\d+\s*[:\.]\s*|- )`, ignoring case, at the start of t: the length of
      the list marker Regex.Replace removes, 0 when none of the three forms is there. */
  function ExtractionMarkerEnd(t: string): (m: nat)
    ensures m <= |t|
  {
    var d := SkipDigits(t, 0);
    if d > 0 then
      (if d < |t| && (t[d] == '.' || t[d] == ')') then SkipWhite(t, d + 1) else 0)
    else if |t| > 0 && (t[0] == 'Q' || t[0] == 'q') then
      var n := SkipDigits(t, 1);
      var w := SkipWhite(t, n);
      if n > 1 && w < |t| && (t[w] == ':' || t[w] == '.') then SkipWhite(t, w + 1) else 0
    else if |t| >= 2 && t[0] == '-' && t[1] == ' ' then 2
    else 0
  }

  /** One line of the reply after the clean-up: trimmed, its list marker removed, trimmed
      again. */
  function CleanExtractedLine(line: string): (q: string)
    ensures |q| <= |line|
    ensures Trim(q) == q
  {
    var t := Trim(line);
    TrimIdempotent(t[ExtractionMarkerEnd(t)..]);
    Trim(t[ExtractionMarkerEnd(t)..])
  }

  /** The filter a cleaned line must pass to become a question. */
  predicate KeptQuestion(q: string) {
    !IsBlank(q) && |q| > 5
  }

  /** The cleaned lines that pass the filter, in order. */
  function CleanedQuestions(lines: seq<string>): (r: seq<string>)
    ensures |r| <= |lines|
  {
    if lines == [] then []
    else
      var q := CleanExtractedLine(lines[0]);
      (if KeptQuestion(q) then [q] else []) + CleanedQuestions(lines[1..])
  }

  /** Every question kept passes the filter and is trimmed. */
  lemma {:induction false} CleanedQuestionsKept(lines: seq<string>)
    ensures forall k :: 0 <= k < |CleanedQuestions(lines)| ==>
              KeptQuestion(CleanedQuestions(lines)[k]) && Trim(CleanedQuestions(lines)[k]) == CleanedQuestions(lines)[k]
  {
    if lines != [] {
      CleanedQuestionsKept(lines[1..]);
    }
  }

  /** The questions the question mode takes from an extraction reply: none from a blank
      reply, otherwise the cleaned, kept lines of its non-empty pieces between line breaks. */
  function ExtractedQuestions(response: string): seq<string> {
    if IsBlank(response) then [] else CleanedQuestions(SplitNonEmpty(response, LineBreaks))
  }

  /** The foreach over the extraction reply's lines. */
  method ExtractQuestionLines(extractionResponse: string) returns (questions: seq<string>)
    ensures questions == ExtractedQuestions(extractionResponse)
  {
    questions := [];
    if IsBlank(extractionResponse) {
      return;
    }
    var lines := SplitNonEmpty(extractionResponse, LineBreaks);
    assert lines[0..] == lines;
    for i := 0 to |lines|
      invariant questions + CleanedQuestions(lines[i..]) == CleanedQuestions(lines)
    {
      var q := Trim(lines[i]);
      q := Trim(q[ExtractionMarkerEnd(q)..]);
      CleanedStep(questions, lines, i);
      if KeptQuestion(q) {
        questions := questions + [q];
      }
    }
  }

  /** One pass of the loop: the line's cleaned form joins the questions when it is kept. */
  lemma CleanedStep(questions: seq<string>, lines: seq<string>, i: nat)
    requires i < |lines|
    requires questions + CleanedQuestions(lines[i..]) == CleanedQuestions(lines)
    ensures (if KeptQuestion(CleanExtractedLine(lines[i])) then questions + [CleanExtractedLine(lines[i])]
             else questions) + CleanedQuestions(lines[i + 1..]) == CleanedQuestions(lines)
  {
    var q := CleanExtractedLine(lines[i]);
    var rest := CleanedQuestions(lines[i + 1..]);
    assert CleanedQuestions(lines[i..]) == (if KeptQuestion(q) then [q] else []) + rest by {
      Collections.SliceCons(lines, i);
      CleanedQuestionsCons(lines[i], lines[i + 1..]);
    }
    if KeptQuestion(q) {
      Collections.AppendAssoc(questions, [q], rest);
    } else {
      assert [] + rest == rest;
    }
  }

  /** Cleaning a line never introduces a character. */
  lemma CleanExtractedLineChars(line: string, c: char)
    requires c in CleanExtractedLine(line)
    ensures c in line
  {
    var t := Trim(line);
    var m := ExtractionMarkerEnd(t);
    TrimChars(t[m..], c);
    var i :| 0 <= i < |t[m..]| && t[m..][i] == c;
    assert t[m + i] == c;
    TrimChars(line, c);
  }

  /** Lines free of line breaks give questions free of line breaks. */
  lemma {:induction false} CleanedOneLine(lines: seq<string>)
    requires forall k, c :: 0 <= k < |lines| && c in lines[k] ==> c !in LineBreaks
    ensures forall k, c :: 0 <= k < |CleanedQuestions(lines)| && c in CleanedQuestions(lines)[k] ==>
              c !in LineBreaks
  {
    if lines != [] {
      CleanedOneLine(lines[1..]);
      var q := CleanExtractedLine(lines[0]);
      forall c | c in q ensures c !in LineBreaks {
        CleanExtractedLineChars(lines[0], c);
      }
    }
  }

  /** Every extracted question passes the filter, is trimmed and lies on one line. */
  lemma ExtractedQuestionsFacts(response: string)
    ensures var r := ExtractedQuestions(response);
      forall k :: 0 <= k < |r| ==>
        KeptQuestion(r[k]) && Trim(r[k]) == r[k] && '\n' !in r[k] && '\r' !in r[k]
  {
    var parts := Split(response, LineBreaks);
    SplitPiecesClean(response, LineBreaks);
    var lines := RemoveEmpty(parts);
    forall k, c | 0 <= k < |lines| && c in lines[k] ensures c !in LineBreaks {
      var j :| 0 <= j < |parts| && parts[j] == lines[k];
    }
    CleanedOneLine(lines);
    CleanedQuestionsKept(lines);
  }

  /** "n. question" for every question, numbered from n: the list the extraction prompt asks
      for. */
  function NumberedLines(qs: seq<string>, n: nat): (r: seq<string>)
    ensures |r| == |qs|
  {
    if qs == [] then [] else [NatToString(n) + ". " + qs[0]] + NumberedLines(qs[1..], n + 1)
  }

  /** A question that survives being listed: on one line, trimmed, and longer than five
      characters. */
  predicate ListableQuestion(q: string) {
    Trim(q) == q && |q| > 5 && '\n' !in q && '\r' !in q
  }

  /** The clean-up strips "n. " from a listed question and keeps it. */
  lemma CleanNumberedLine(n: nat, q: string)
    requires ListableQuestion(q)
    ensures CleanExtractedLine(NatToString(n) + ". " + q) == q && KeptQuestion(q)
  {
    var digits := NatToString(n);
    var d := |digits|;
    var line := digits + ". " + q;
    assert line[0] == digits[0];
    assert line[|line| - 1] == q[|q| - 1];
    TrimFixed(line);
    assert forall k :: 0 <= k < d ==> line[k] == digits[k];
    SkipDigitsIs(line, 0, d);
    assert line[d + 2] == q[0];
    SkipWhiteIs(line, d + 1, d + 2);
    assert line[d + 2..] == q;
    TrimBlank(q);
  }

  /** The "- " bullet is stripped the same way. */
  lemma CleanBulletLine(q: string)
    requires ListableQuestion(q)
    ensures CleanExtractedLine("- " + q) == q
  {
    var line := "- " + q;
    assert line[|line| - 1] == q[|q| - 1];
    TrimFixed(line);
    SkipDigitsIs(line, 0, 0);
    assert line[2..] == q;
  }

  /** So is a "Qn: " label. */
  lemma CleanLabelLine(n: nat, q: string)
    requires ListableQuestion(q)
    ensures CleanExtractedLine("Q" + NatToString(n) + ": " + q) == q
  {
    var d := |NatToString(n)|;
    var line := QHead(n) + q;
    assert "Q" + NatToString(n) + ": " + q == line;
    QHeadChars(n);
    assert forall k :: 0 <= k < d + 3 ==> line[k] == QHead(n)[k];
    assert line[d + 3..] == q;
    assert Trim(line) == line by {
      assert line[|line| - 1] == q[|q| - 1];
      TrimFixed(line);
    }
    assert line[d + 3] == q[0];
    QLabelMarkerEnd(line, d);
  }

  /** "Q", digits up to d, ": " and a character that is not white space: a marker of d + 3
      characters. */
  lemma QLabelMarkerEnd(t: string, d: nat)
    requires 0 < d && d + 3 < |t| && t[0] == 'Q' && t[d + 1] == ':' && t[d + 2] == ' '
    requires forall k :: 1 <= k < d + 1 ==> IsDigit(t[k])
    requires !IsWhite(t[d + 3])
    ensures ExtractionMarkerEnd(t) == d + 3
  {
    SkipDigitsIs(t, 0, 0);
    SkipDigitsIs(t, 1, d + 1);
    SkipWhiteIs(t, d + 1, d + 1);
    SkipWhiteIs(t, d + 2, d + 3);
  }

  /** A listed line opens with a digit, so it is not blank. */
  lemma NumberedLineNotBlank(n: nat, q: string)
    ensures !IsBlank(NatToString(n) + ". " + q)
  {
    var line := NatToString(n) + ". " + q;
    assert line[0] == NatToString(n)[0];
  }

  /** Listed lines are non-empty and free of line breaks, and clean up into the questions. */
  lemma {:induction false} NumberedLinesClean(qs: seq<string>, n: nat)
    requires forall k :: 0 <= k < |qs| ==> ListableQuestion(qs[k])
    ensures var lines := NumberedLines(qs, n);
      forall k :: 0 <= k < |lines| ==> lines[k] != [] && forall c :: c in lines[k] ==> c !in LineBreaks
    ensures CleanedQuestions(NumberedLines(qs, n)) == qs
  {
    NumberedLinesUnbroken(qs, n);
    NumberedLinesCleaned(qs, n);
  }

  /** A listed question is one non-empty line. */
  lemma NumberedLineUnbroken(n: nat, q: string)
    requires ListableQuestion(q)
    ensures NatToString(n) + ". " + q != [] && forall c :: c in NatToString(n) + ". " + q ==> c !in LineBreaks
  {
    var digits := NatToString(n);
    forall c | c in digits + ". " + q ensures c !in LineBreaks {
      if c in digits {
        var i :| 0 <= i < |digits| && digits[i] == c;
      }
    }
  }

  lemma {:induction false} NumberedLinesUnbroken(qs: seq<string>, n: nat)
    requires forall k :: 0 <= k < |qs| ==> ListableQuestion(qs[k])
    ensures var lines := NumberedLines(qs, n);
      forall k :: 0 <= k < |lines| ==> lines[k] != [] && forall c :: c in lines[k] ==> c !in LineBreaks
    decreases |qs|
  {
    if qs != [] {
      NumberedLinesUnbroken(qs[1..], n + 1);
      NumberedLineUnbroken(n, qs[0]);
      var lines := NumberedLines(qs, n);
      forall k | 0 <= k < |lines|
        ensures lines[k] != [] && forall c :: c in lines[k] ==> c !in LineBreaks
      {
        if k > 0 {
          assert lines[k] == NumberedLines(qs[1..], n + 1)[k - 1];
        }
      }
    }
  }

  lemma {:induction false} NumberedLinesCleaned(qs: seq<string>, n: nat)
    requires forall k :: 0 <= k < |qs| ==> ListableQuestion(qs[k])
    ensures CleanedQuestions(NumberedLines(qs, n)) == qs
    decreases |qs|
  {
    if qs != [] {
      assert forall k :: 0 <= k < |qs[1..]| ==> ListableQuestion(qs[1..][k]) by {
        forall k | 0 <= k < |qs[1..]| ensures ListableQuestion(qs[1..][k]) {
          assert qs[1..][k] == qs[k + 1];
        }
      }
      NumberedLinesCleaned(qs[1..], n + 1);
      CleanNumberedLine(n, qs[0]);
      CleanedQuestionsCons(NatToString(n) + ". " + qs[0], NumberedLines(qs[1..], n + 1));
      Collections.ConsFirst(qs);
    }
  }

  /** The clean-up of a list of lines looks at its first line, then at the rest. */
  lemma CleanedQuestionsCons(line: string, rest: seq<string>)
    ensures CleanedQuestions([line] + rest) ==
      (if KeptQuestion(CleanExtractedLine(line)) then [CleanExtractedLine(line)] else []) +
      CleanedQuestions(rest)
  {
    assert ([line] + rest)[1..] == rest;
  }

  /** Questions listed the way the extraction prompt asks, "1. ...", "2. ...", one per line,
      are read back exactly and in order. */
  lemma ExtractionRoundTrip(qs: seq<string>)
    requires forall k :: 0 <= k < |qs| ==> ListableQuestion(qs[k])
    ensures ExtractedQuestions(Terminated(NumberedLines(qs, 1))) == qs
  {
    var lines := NumberedLines(qs, 1);
    NumberedLinesClean(qs, 1);
    SplitNonEmptyTerminated(lines, LineBreaks);
    if qs != [] {
      NumberedLineNotBlank(1, qs[0]);
      TerminatedNotBlank(lines);
    }
  }

  // ================================================================ the "Q<n>: ... Answer: ..." split

  /** `Q\d+:`, ignoring case, read from q: the index just past the ':'. */
  function QHeaderEnd(s: string, q: nat): (r: Option<nat>)
    requires q <= |s|
    ensures r.Some? ==> q + 2 < r.value <= |s|
    ensures r.Some? ==> (s[q] == 'Q' || s[q] == 'q') && IsDigit(s[q + 1]) && s[r.value - 1] == ':'
  {
    if q < |s| && (s[q] == 'Q' || s[q] == 'q') then
      var d := SkipDigits(s, q + 1);
      if d > q + 1 && d < |s| && s[d] == ':' then Some(d + 1) else None
    else None
  }

  /** `Q\d+:` is recognised exactly: a 'Q' or 'q', a run of digits up to d, and ':' at d. */
  lemma QHeaderEndIs(s: string, q: nat, d: nat)
    requires q + 1 < d < |s|
    requires s[q] == 'Q' || s[q] == 'q'
    requires forall x :: q + 1 <= x < d ==> IsDigit(s[x])
    requires s[d] == ':'
    ensures QHeaderEnd(s, q) == Some(d + 1)
  {
    SkipDigitsIs(s, q + 1, d);
  }

  /** Every recognised header is a 'Q' or 'q', digits only, then ':'. */
  lemma QHeaderParts(s: string, q: nat)
    requires q <= |s| && QHeaderEnd(s, q).Some?
    ensures forall x :: q + 1 <= x < QHeaderEnd(s, q).value - 1 ==> IsDigit(s[x])
  {
    SkipDigitsRun(s, q + 1);
  }

  /** A `^Q\d+:` header starts at line start q. */
  predicate QHeaderAt(s: string, q: nat)
    requires q <= |s|
  {
    LineStart(s, q) && QHeaderEnd(s, q).Some?
  }

  /** The first position at or after i where a `^Q\d+:` header starts, or |s| (`\z`). */
  function NextQHeader(s: string, i: nat): (q: nat)
    requires i <= |s|
    ensures i <= q <= |s|
    decreases |s| - i
  {
    if i == |s| then |s| else if QHeaderAt(s, i) then i else NextQHeader(s, i + 1)
  }

  /** A position NextQHeader stops at before the end starts a header. */
  lemma {:induction false} NextQHeaderFound(s: string, i: nat)
    requires i <= |s|
    ensures NextQHeader(s, i) < |s| ==> QHeaderAt(s, NextQHeader(s, i))
    decreases |s| - i
  {
    if i < |s| && !QHeaderAt(s, i) {
      NextQHeaderFound(s, i + 1);
    }
  }

  /** "Answer:", ignoring case, starts at c. */
  predicate LabelAt(s: string, c: nat) {
    c + 7 <= |s| && LowerChar(s[c]) == 'a' && LowerChar(s[c + 1]) == 'n' &&
    LowerChar(s[c + 2]) == 's' && LowerChar(s[c + 3]) == 'w' && LowerChar(s[c + 4]) == 'e' &&
    LowerChar(s[c + 5]) == 'r' && s[c + 6] == ':'
  }

  /** The first position at or after i where "Answer:" starts, or |s| when there is none. */
  function NextLabel(s: string, i: nat): (c: nat)
    requires i <= |s|
    ensures i <= c <= |s|
    ensures c == |s| || LabelAt(s, c)
    decreases |s| - i
  {
    if i == |s| then |s| else if LabelAt(s, i) then i else NextLabel(s, i + 1)
  }

  /** One match of the split: its question (group 1) and its answer (group 2), trimmed. */
  datatype QAnswer = QAnswer(question: string, answer: string)

  /** The match whose header ends at qs: the trimmed groups and where the match ends, or
      None when no "Answer:" follows. Group 1 is what lies between the header and the first
      "Answer:" after it, less white space at both ends, so its trim is the trim of all of it;
      group 2 runs from past "Answer:" and its white space to the next header or the end. */
  function QMatchFrom(s: string, qs: nat): (r: Option<(QAnswer, nat)>)
    requires qs <= |s|
    ensures r.Some? ==> qs < r.value.1 <= |s|
    ensures r.Some? <==> NextLabel(s, qs) < |s|
    ensures r.Some? ==> r.value.1 == |s| || QHeaderAt(s, r.value.1)
  {
    var c := NextLabel(s, qs);
    if c == |s| then None
    else
      var a := SkipWhite(s, c + 7);
      var e := NextQHeader(s, a);
      NextQHeaderFound(s, a);
      Some((QAnswer(Trim(s[qs..c]), Trim(s[a..e])), e))
  }

  /** The matches of `(?ms)^Q\d+:\s*(.*?)\s*Answer:\s*(.*?)(?=^Q\d+:|\z)`, ignoring case,
      from i on, with both groups trimmed. A header with no "Answer:" after it fails, and so
      does every later one (each starts after it), so the matches stop there. */
  function QMatches(s: string, i: nat): seq<QAnswer>
    requires i <= |s|
    decreases |s| - i
  {
    var h := NextQHeader(s, i);
    if h == |s| then []
    else
      match QHeaderEnd(s, h)
      case None => []  // NextQHeader stops only at a header
      case Some(qs) =>
        match QMatchFrom(s, qs)
        case None => []
        case Some((m, e)) => [m] + QMatches(s, e)
  }

  /** Both groups of every match come out trimmed. */
  lemma {:induction false} QMatchesTrimmed(s: string, i: nat)
    requires i <= |s|
    ensures forall k :: 0 <= k < |QMatches(s, i)| ==> TrimmedPair(QMatches(s, i)[k])
    decreases |s| - i
  {
    var h := NextQHeader(s, i);
    if h < |s| {
      match QHeaderEnd(s, h)
      case None =>
      case Some(qs) =>
        match QMatchFrom(s, qs)
        case None =>
        case Some((m, e)) =>
          assert TrimmedPair(m) by {
            var c := NextLabel(s, qs);
            var a := SkipWhite(s, c + 7);
            TrimIdempotent(s[qs..c]);
            TrimIdempotent(s[a..e]);
          }
          QMatchesTrimmed(s, e);
          Collections.AllCons(m, QMatches(s, e), TrimmedPair);
          QMatchesStep(s, i, h, qs, m, e);
    }
  }

  /** Both groups of a match are their own trim. */
  predicate TrimmedPair(m: QAnswer) {
    Trim(m.question) == m.question && Trim(m.answer) == m.answer
  }

  /** NextQHeader is the first header position: a position with none before it is the
      result. */
  lemma {:induction false} NextQHeaderIs(s: string, i: nat, j: nat)
    requires i <= j <= |s|
    requires forall k :: i <= k < j ==> !QHeaderAt(s, k)
    requires j == |s| || QHeaderAt(s, j)
    ensures NextQHeader(s, i) == j
    decreases j - i
  {
    if i < j {
      NextQHeaderIs(s, i + 1, j);
    }
  }

  /** NextLabel is the first "Answer:" position. */
  lemma {:induction false} NextLabelIs(s: string, i: nat, j: nat)
    requires i <= j <= |s|
    requires forall k :: i <= k < j ==> !LabelAt(s, k)
    requires j == |s| || LabelAt(s, j)
    ensures NextLabel(s, i) == j
    decreases j - i
  {
    if i < j {
      NextLabelIs(s, i + 1, j);
    }
  }

  /** A reply without any `^Q\d+:` header has no match. */
  lemma NoQHeaderNoMatches(s: string)
    requires forall q :: 0 <= q < |s| ==> !QHeaderAt(s, q)
    ensures QMatches(s, 0) == []
  {
    NextQHeaderIs(s, 0, |s|);
  }

  /** One step of the matching loop: the first match, then the matches after it. */
  lemma QMatchesStep(s: string, i: nat, h: nat, qs: nat, m: QAnswer, e: nat)
    requires i <= |s| && NextQHeader(s, i) == h < |s|
    requires QHeaderEnd(s, h) == Some(qs) && QMatchFrom(s, qs) == Some((m, e))
    ensures QMatches(s, i) == [m] + QMatches(s, e)
  {
  }

  // ---------------------------------------------------------------- the requested layout

  /** What separates a question from its answer in the layout the question-mode prompt asks
      for. */
  const QMark := "\nAnswer:\n"

  /** The header line's opening: "Q<n>: ". */
  function QHead(n: nat): string {
    "Q" + NatToString(n) + ": "
  }

  /** What follows the question: the label line, the answer and an empty line. */
  function QTail(answer: string): string {
    QMark + answer + "\n\n"
  }

  /** One question and its answer in that layout. */
  function QBlock(n: nat, p: QAnswer): string {
    QHead(n) + p.question + QTail(p.answer)
  }

  /** The pairs laid out one block after another, numbered from `first`. */
  function QSheet(pairs: seq<QAnswer>, first: nat): string
    decreases |pairs|
  {
    if pairs == [] then "" else QBlock(first, pairs[0]) + QSheet(pairs[1..], first + 1)
  }

  /** A pair the layout carries unchanged: both parts on one line, trimmed and non-empty, no
      ':' in the question (so "Answer:" is not found inside it), and an answer that does not
      open with 'Q' (so its line is not read as a header). */
  predicate LayoutPair(p: QAnswer) {
    p.question != [] && Trim(p.question) == p.question && '\n' !in p.question && ':' !in p.question &&
    p.answer != [] && Trim(p.answer) == p.answer && '\n' !in p.answer &&
    p.answer[0] != 'Q' && p.answer[0] != 'q'
  }

  /** A header opening copied at off is a header whose end is just before its space. */
  lemma QHeadAt(s: string, off: nat, n: nat)
    requires off + |QHead(n)| <= |s| && s[off..off + |QHead(n)|] == QHead(n)
    ensures |QHead(n)| == |NatToString(n)| + 3
    ensures QHeaderEnd(s, off) == Some(off + |NatToString(n)| + 2)
    ensures s[off + |NatToString(n)| + 2] == ' '
  {
    var h := QHead(n);
    var d := |NatToString(n)|;
    QHeadChars(n);
    forall k | 0 <= k < |h| ensures s[off + k] == h[k] {
      assert s[off..off + |h|][k] == s[off + k];
    }
    assert forall k :: off + 1 <= k < off + d + 1 ==> IsDigit(s[k]) by {
      forall k | off + 1 <= k < off + d + 1 ensures IsDigit(s[k]) {
        assert s[off + (k - off)] == h[k - off];
      }
    }
    assert s[off] == 'Q' && s[off + d + 1] == ':';
    SkipDigitsIs(s, off + 1, off + d + 1);
  }

  /** The characters of a Q header: 'Q', the number's digits, ':' and a space. */
  lemma QHeadChars(n: nat)
    ensures var h := QHead(n); var d := |NatToString(n)|;
      |h| == d + 3 && h[0] == 'Q' && h[d + 1] == ':' && h[d + 2] == ' ' &&
      forall k :: 1 <= k < d + 1 ==> IsDigit(h[k])
  {
    var digits := NatToString(n);
    var h := QHead(n);
    assert h == ['Q'] + digits + [':', ' '];
    forall k | 1 <= k < |digits| + 1 ensures IsDigit(h[k]) {
      assert h[k] == digits[k - 1];
    }
  }

  /** After the header's space come the question and the label line: the first "Answer:"
      after the header starts the label line, and the white space after it ends where the
      answer starts. */
  lemma LabelFirst(s: string, qs: nat, q: string, c: nat)
    requires ':' !in q
    requires c == qs + |q| + 2 && c + 8 < |s| && !IsWhite(s[c + 8])
    requires s[qs + 1..c - 1] == q && s[c - 1..c + 8] == QMark
    ensures NextLabel(s, qs) == c
    ensures SkipWhite(s, c + 7) == c + 8
  {
    assert forall k :: 0 <= k < 9 ==> s[c - 1 + k] == QMark[k];
    assert LabelAt(s, c);
    forall k | qs <= k < c
      ensures !LabelAt(s, k)
    {
      if k + 6 < c - 1 {
        assert s[k + 6] == q[k + 5 - qs];
      } else {
        assert s[k + 6] == QMark[k + 7 - c];
      }
    }
    NextLabelIs(s, qs, c);
    SkipWhiteIs(s, c + 7, c + 8);
  }

  /** Group 1 of a block, the question between its space and its line break, trims to the
      question. */
  lemma QuestionLine(s: string, qs: nat, q: string, c: nat)
    requires q != [] && Trim(q) == q
    requires c == qs + |q| + 2 && c <= |s|
    requires s[qs] == ' ' && s[qs + 1..c - 1] == q && s[c - 1] == '\n'
    ensures Trim(s[qs..c]) == q
  {
    assert s[qs..c] == [' '] + s[qs + 1..c - 1] + ['\n'];
    TrimAround(" ", q, "\n");
  }

  /** An answer line, an empty line and then the end or another header: the answer runs to
      that header and trims to the answer. */
  lemma AnswerLines(s: string, a0: nat, p: QAnswer, next: nat)
    requires LayoutPair(p)
    requires next == a0 + |p.answer| + 2 && next <= |s| && s[a0..next] == p.answer + "\n\n"
    requires 0 < a0 && s[a0 - 1] == '\n'
    requires next == |s| || QHeaderAt(s, next)
    ensures NextQHeader(s, a0) == next
    ensures Trim(s[a0..next]) == p.answer
  {
    var a := p.answer;
    forall k | a0 <= k < next
      ensures !QHeaderAt(s, k)
    {
      if k == a0 {
        assert s[k] == a[0];
      } else if k <= a0 + |a| {
        assert s[k - 1] == a[k - 1 - a0];
      } else {
        assert s[k] == '\n';
      }
    }
    NextQHeaderIs(s, a0, next);
    assert a == [] + a + "\n\n"[..0] by {
      assert "\n\n"[..0] == [];
    }
    assert s[a0..next] == [] + a + "\n\n";
    TrimAround([], a, "\n\n");
  }

  /** A block copied into s at off, cut at its header's end qs, at its label c and at its
      end next. */
  lemma QBlockSlices(s: string, off: nat, n: nat, p: QAnswer, qs: nat, c: nat, next: nat)
    requires qs == off + |NatToString(n)| + 2 && c == qs + |p.question| + 2
    requires next == c + |p.answer| + 10 && next <= |s| && s[off..next] == QBlock(n, p)
    ensures s[off..qs + 1] == QHead(n) && s[qs + 1..c - 1] == p.question
    ensures s[c - 1..c + 8] == QMark && s[c + 8..next] == p.answer + "\n\n"
  {
    var rest := p.answer + "\n\n";
    assert QTail(p.answer) == QMark + rest;
    CopyParts(s, off, QHead(n), p.question, QMark, rest);
  }

  /** A copy of a + b + (c + d) is a copy of each part, one after the other. */
  lemma CopyParts(s: string, off: nat, a: string, b: string, c: string, d: string)
    requires off + |a| + |b| + |c| + |d| <= |s|
    requires s[off..off + |a| + |b| + |c| + |d|] == a + b + (c + d)
    ensures s[off..off + |a|] == a && s[off + |a|..off + |a| + |b|] == b
    ensures s[off + |a| + |b|..off + |a| + |b| + |c|] == c
    ensures s[off + |a| + |b| + |c|..off + |a| + |b| + |c| + |d|] == d
  {
    var t := a + b + (c + d);
    forall k | 0 <= k < |t| ensures s[off + k] == t[k] {
      assert s[off..off + |t|][k] == s[off + k];
    }
    CopyPart(s, off, t, 0, a);
    CopyPart(s, off, t, |a|, b);
    CopyPart(s, off, t, |a| + |b|, c);
    CopyPart(s, off, t, |a| + |b| + |c|, d);
  }

  lemma CopyPart(s: string, off: nat, t: string, i: nat, x: string)
    requires off + |t| <= |s| && forall k :: 0 <= k < |t| ==> s[off + k] == t[k]
    requires i + |x| <= |t| && forall k :: 0 <= k < |x| ==> t[i + k] == x[k]
    ensures s[off + i..off + i + |x|] == x
  {
    forall k | 0 <= k < |x| ensures s[off + i..off + i + |x|][k] == x[k] {
      assert s[off + i..off + i + |x|][k] == s[off + i + k];
    }
  }

  /** A block copied at off: a header starts there, the block ends with a line break, and
      when it starts a line and the end or another header follows, its pair is the next
      match. */
  lemma QBlockStep(s: string, off: nat, n: nat, p: QAnswer, next: nat)
    requires LayoutPair(p)
    requires next == off + |QBlock(n, p)| && next <= |s| && s[off..next] == QBlock(n, p)
    ensures off < next && s[next - 1] == '\n'
    ensures QHeaderEnd(s, off).Some?
    ensures LineStart(s, off) && (next == |s| || QHeaderAt(s, next)) ==>
              QMatches(s, off) == [p] + QMatches(s, next)
  {
    var d := |NatToString(n)|;
    var qs := off + d + 2;
    var c := qs + |p.question| + 2;
    assert QHeaderEnd(s, off) == Some(qs) && s[qs] == ' ' by {
      QBlockSlices(s, off, n, p, qs, c, next);
      QHeadAt(s, off, n);
    }
    assert s[c + 8..next] == p.answer + "\n\n" && s[next - 1] == '\n' by {
      QBlockSlices(s, off, n, p, qs, c, next);
      assert s[next - 1] == (p.answer + "\n\n")[|p.answer| + 1];
    }
    assert NextLabel(s, qs) == c && SkipWhite(s, c + 7) == c + 8 by {
      QBlockSlices(s, off, n, p, qs, c, next);
      assert s[c + 8] == p.answer[0];
      LabelFirst(s, qs, p.question, c);
    }
    assert Trim(s[qs..c]) == p.question && s[c + 7] == '\n' by {
      QBlockSlices(s, off, n, p, qs, c, next);
      assert s[c - 1] == QMark[0] && s[c + 7] == QMark[8];
      QuestionLine(s, qs, p.question, c);
    }
    if LineStart(s, off) && (next == |s| || QHeaderAt(s, next)) {
      QBlockMatch(s, off, qs, c, p, next);
    }
  }

  /** A header at a line start whose question label and answer lines are in place, followed
      by the end of the text or another header, is matched with its pair. */
  lemma QBlockMatch(s: string, off: nat, qs: nat, c: nat, p: QAnswer, next: nat)
    requires LayoutPair(p)
    requires off < qs < c && c + 8 < next <= |s| && next == c + 8 + |p.answer| + 2
    requires LineStart(s, off) && QHeaderEnd(s, off) == Some(qs)
    requires NextLabel(s, qs) == c && SkipWhite(s, c + 7) == c + 8 && Trim(s[qs..c]) == p.question
    requires s[c + 7] == '\n' && s[c + 8..next] == p.answer + "\n\n"
    requires next == |s| || QHeaderAt(s, next)
    ensures QMatches(s, off) == [p] + QMatches(s, next)
  {
    NextQHeaderIs(s, off, off);
    AnswerLines(s, c + 8, p, next);
    assert QMatchFrom(s, qs) == Some((p, next));
    QMatchesStep(s, off, off, qs, p, next);
  }

  /** The sheet splits into its first block and the sheet after it. */
  lemma QSheetSplit(s: string, off: nat, pairs: seq<QAnswer>, first: nat)
    requires pairs != [] && off <= |s| && s[off..] == QSheet(pairs, first)
    ensures var b := QBlock(first, pairs[0]);
      off + |b| <= |s| && s[off..off + |b|] == b && s[off + |b|..] == QSheet(pairs[1..], first + 1)
  {
    var b := QBlock(first, pairs[0]);
    var rest := QSheet(pairs[1..], first + 1);
    assert s[off..] == b + rest;
    assert s[off..][..|b|] == b;
    assert s[off..][|b|..] == rest;
  }

  /** The first block of a sheet copied at off: a header is read there, and the rest of the
      sheet starts on the next line, at `next`. */
  lemma {:induction false} QSheetStep(s: string, off: nat, pairs: seq<QAnswer>, first: nat)
    returns (next: nat)
    requires pairs != [] && LayoutPair(pairs[0])
    requires off <= |s| && s[off..] == QSheet(pairs, first)
    ensures off < next <= |s| && s[next - 1] == '\n'
    ensures s[next..] == QSheet(pairs[1..], first + 1)
    ensures QHeaderEnd(s, off).Some?
    ensures LineStart(s, off) && (next == |s| || QHeaderAt(s, next)) ==>
              QMatches(s, off) == [pairs[0]] + QMatches(s, next)
  {
    next := off + |QBlock(first, pairs[0])|;
    QSheetSplit(s, off, pairs, first);
    QBlockStep(s, off, first, pairs[0], next);
  }

  /** From a line start where a sheet is copied, the matches are its pairs, in order; the
      sheet opens with a header when it is not empty. */
  lemma {:induction false} QSheetMatches(s: string, off: nat, pairs: seq<QAnswer>, first: nat)
    requires forall k :: 0 <= k < |pairs| ==> LayoutPair(pairs[k])
    requires off <= |s| && LineStart(s, off) && s[off..] == QSheet(pairs, first)
    ensures pairs != [] ==> QHeaderAt(s, off)
    ensures QMatches(s, off) == pairs
    decreases |pairs|
  {
    if pairs == [] {
      assert off == |s|;
      return;
    }
    var next := QSheetStep(s, off, pairs, first);
    var rest := pairs[1..];
    Collections.AllTail(pairs, LayoutPair);
    QSheetMatches(s, next, rest, first + 1);
    assert next == |s| || QHeaderAt(s, next) by {
      if next < |s| {
        assert rest != [];
      }
    }
    Collections.ConsFirst(pairs);
  }

  /** Pairs written in the layout the question-mode prompt asks for, "Q1: ...", "Answer:",
      ..., are split back into exactly those questions and answers, in order. */
  lemma QSheetRoundTrip(pairs: seq<QAnswer>)
    requires forall k :: 0 <= k < |pairs| ==> LayoutPair(pairs[k])
    ensures QMatches(QSheet(pairs, 1), 0) == pairs
  {
    var s := QSheet(pairs, 1);
    assert s[0..] == s;
    QSheetMatches(s, 0, pairs, 1);
  }
}

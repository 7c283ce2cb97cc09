/** smartQuestionExtractor: picks the real questions out of text pasted from a web form. Lines
    are trimmed, noise lines are skipped, consecutive lines are glued into one candidate until
    a new question starts or the candidate ends with '?', and only candidates that look like
    questions are kept, once each, in order of first appearance. */
module SmartQuestionExtractor {
  import opened Text
  import opened Collections

  /** Substrings that mark a line as noise wherever they occur (case-insensitive). */
  const NoiseMarks: seq<string> := ["- Select -", "- None -"]

  /** Line starts that mark a line as noise (case-insensitive). */
  const NoisePrefixes: seq<string> :=
    ["Breadcrumb", "Skip to main content", "Email", "First name", "Last name", "Home", "About",
     "Contact", "Copyright", "All rights reserved", "Please select", "Choose one"]

  /** Line starts of consent checkboxes, which count only when they ask something. */
  const CheckboxPrefixes: seq<string> :=
    ["I am over 18", "I commit to", "I allow", "I agree", "I confirm", "I understand", "I declare",
     "By checking this box"]

  /** Line starts that make a candidate look like a question. */
  const QuestionWords: seq<string> :=
    ["What", "How", "Why", "Where", "When", "Who", "Which", "Is there", "Are there", "Do you",
     "Can you", "Please describe", "Please explain", "Tell us", "Describe", "Explain"]

  /** Line starts that open a new candidate. */
  const StartWords: seq<string> :=
    ["What", "How", "Why", "Where", "When", "Who", "Which", "Please", "Tell", "Describe", "Explain"]

  /** Some pattern of the list matches at the start (`patterns.some(p => p.test(s))`). */
  predicate StartsWithAnyCI(s: string, prefixes: seq<string>) {
    exists k :: 0 <= k < |prefixes| && StartsWithCI(s, prefixes[k])
  }

  /** Some pattern of the list matches anywhere. */
  predicate ContainsAnyCI(s: string, subs: seq<string>) {
    exists k :: 0 <= k < |subs| && ContainsCI(s, subs[k])
  }

  /** /^\+1\s?201-/ : the footer phone number. */
  predicate PhoneFooter(s: string) {
    StartsWith(s, "+1") &&
    (StartsWith(s[2..], "201-") || (|s| > 2 && IsWhite(s[2]) && StartsWith(s[3..], "201-")))
  }

  /** /^Page \d+ of \d+/i : a page counter. */
  predicate PageFooter(s: string) {
    StartsWithCI(s, "Page ") &&
    var d := RunEnd(s, 5, IsDigit);
    5 < d && StartsWithCI(s[d..], " of ") && d + 4 < |s| && IsDigit(s[d + 4])
  }

  /** isNoise: a blank line, or one matching a noise pattern. */
  predicate IsNoise(line: string) {
    IsBlank(line) || ContainsAnyCI(line, NoiseMarks) || StartsWithAnyCI(line, NoisePrefixes) ||
    PhoneFooter(line) || PageFooter(line)
  }

  predicate IsCheckbox(line: string) {
    StartsWithAnyCI(line, CheckboxPrefixes)
  }

  /** /^\d+[.)]/ : a numbered item. */
  predicate NumberedStart(s: string) {
    var d := RunEnd(s, 0, IsDigit);
    0 < d < |s| && (s[d] == '.' || s[d] == ')')
  }

  /** A line that opens a new candidate: numbered, or starting with a start word. */
  predicate OpensQuestion(line: string) {
    NumberedStart(line) || StartsWithAnyCI(line, StartWords)
  }

  /** Longer than ten characters and unchanged by upper-casing: a header or a disclaimer. */
  predicate IsAllCaps(t: string) {
    |t| > 10 && t == Upper(t)
  }

  /** isValidQuestion, on the trimmed candidate. */
  predicate IsValidQuestion(line: string) {
    var t := Trim(line);
    if |t| < 10 || IsAllCaps(t) then false
    else if IsCheckbox(t) then EndsWith(t, "?")
    else EndsWith(t, "?") || (StartsWithAnyCI(t, QuestionWords) && |t| > 15) ||
         (NumberedStart(t) && |t| > 20)
  }

  /** The questions kept so far and the candidate being built. */
  datatype Scan = Scan(found: seq<string>, buffer: string)

  /** A line that opens a question while a candidate is pending closes the candidate (kept
      when valid) and starts a new one; any other line is glued onto the candidate. */
  function Absorb(st: Scan, line: string): Scan {
    if OpensQuestion(line) && |st.buffer| > 0 then
      Scan(if IsValidQuestion(st.buffer) then st.found + [st.buffer] else st.found, line)
    else
      Scan(st.found, if st.buffer != "" then st.buffer + " " + line else line)
  }

  /** A candidate that ends with '?' and is valid is kept at once. */
  function Complete(st: Scan): Scan {
    if EndsWith(st.buffer, "?") && IsValidQuestion(st.buffer) then Scan(st.found + [st.buffer], "")
    else st
  }

  /** One pass of the line loop: noise lines are skipped. */
  function Step(st: Scan, raw: string): Scan {
    var line := Trim(raw);
    if IsNoise(line) then st else Complete(Absorb(st, line))
  }

  /** The state after the line loop has seen every line of `lines`, in order. */
  function ScanLines(lines: seq<string>): Scan
    decreases |lines|
  {
    if lines == [] then Scan([], "") else Step(ScanLines(lines[..|lines| - 1]), lines[|lines| - 1])
  }

  /** The questions found by the loop, then the leftover candidate when it is valid. */
  function Collected(text: string): seq<string> {
    var st := ScanLines(Split(text, {'\n'}));
    if |st.buffer| > 0 && IsValidQuestion(st.buffer) then st.found + [st.buffer] else st.found
  }

  /** The de-duplication key: the question text itself, so duplicates are exact-text duplicates,
      as in the source's Set of strings. */
  function AsKey(s: string): string {
    s
  }

  /** extractRealQuestions. */
  function RealQuestions(text: string): seq<string> {
    if IsBlank(text) then [] else DedupBy(Collected(text), AsKey, {})
  }

  /** The method form of extractRealQuestions: the line loop, then the de-duplication. */
  method ExtractRealQuestions(text: string) returns (questions: seq<string>)
    ensures questions == RealQuestions(text)
  {
    if IsBlank(text) {
      return [];
    }
    var lines := Split(text, {'\n'});
    var validQuestions: seq<string> := [];
    var buffer := "";
    for i := 0 to |lines|
      invariant Scan(validQuestions, buffer) == ScanLines(lines[..i])
    {
      assert lines[..i + 1][..i] == lines[..i];
      var line := Trim(lines[i]);
      if IsNoise(line) {
        continue;
      }
      if OpensQuestion(line) && |buffer| > 0 {
        if IsValidQuestion(buffer) {
          validQuestions := validQuestions + [buffer];
        }
        buffer := line;
      } else {
        buffer := if buffer != "" then buffer + " " + line else line;
      }
      if EndsWith(buffer, "?") && IsValidQuestion(buffer) {
        validQuestions := validQuestions + [buffer];
        buffer := "";
      }
    }
    assert lines[..|lines|] == lines;
    if |buffer| > 0 && IsValidQuestion(buffer) {
      validQuestions := validQuestions + [buffer];
    }
    questions := DedupBy(validQuestions, AsKey, {});
  }

  /** No white space at either end. */
  predicate Trimmed(s: string) {
    s == [] || (!IsWhite(s[0]) && !IsWhite(s[|s| - 1]))
  }

  /** Everything found is a trimmed valid question, and so is a non-empty candidate's trim. */
  predicate ScanOk(st: Scan) {
    (forall k :: 0 <= k < |st.found| ==> IsValidQuestion(st.found[k]) && Trimmed(st.found[k])) &&
    Trimmed(st.buffer)
  }

  /** Gluing two trimmed non-empty pieces with a space gives a trimmed string. */
  lemma GlueTrimmed(b: string, line: string)
    requires Trimmed(b) && b != [] && Trimmed(line) && line != []
    ensures Trimmed(b + " " + line)
  {
    var g := b + " " + line;
    assert g[0] == b[0] && g[|g| - 1] == line[|line| - 1];
  }

  lemma AbsorbOk(st: Scan, line: string)
    requires ScanOk(st) && Trimmed(line) && line != []
    ensures ScanOk(Absorb(st, line))
  {
    if !(OpensQuestion(line) && |st.buffer| > 0) && st.buffer != "" {
      GlueTrimmed(st.buffer, line);
    }
  }

  lemma CompleteOk(st: Scan)
    requires ScanOk(st)
    ensures ScanOk(Complete(st))
  {
  }

  /** A line step keeps everything found a trimmed valid question, and the candidate trimmed. */
  lemma StepOk(st: Scan, raw: string)
    requires ScanOk(st)
    ensures ScanOk(Step(st, raw))
  {
    var line := Trim(raw);
    if !IsNoise(line) {
      AbsorbOk(st, line);
      CompleteOk(Absorb(st, line));
    }
  }

  lemma {:induction false} ScanLinesOk(lines: seq<string>)
    ensures ScanOk(ScanLines(lines))
    decreases |lines|
  {
    if lines != [] {
      ScanLinesOk(lines[..|lines| - 1]);
      StepOk(ScanLines(lines[..|lines| - 1]), lines[|lines| - 1]);
    }
  }

  /** Every candidate the loop accepts is a trimmed valid question. */
  lemma CollectedOk(text: string)
    ensures forall q :: q in Collected(text) ==> IsValidQuestion(q) && Trimmed(q)
  {
    ScanLinesOk(Split(text, {'\n'}));
  }

  /** What a trimmed valid question is: at least ten characters, not all capitals, and a
      checkbox statement only when it ends with '?'. */
  lemma ValidQuestionShape(q: string)
    requires IsValidQuestion(q) && Trimmed(q)
    ensures Trim(q) == q && |q| >= 10 && !IsAllCaps(q) && (IsCheckbox(q) ==> EndsWith(q, "?"))
  {
    TrimFixed(q);
  }

  /** Every returned question passes isValidQuestion and is already trimmed: at least ten
      characters, not all capitals, and a checkbox statement only when it ends with '?'. */
  lemma RealQuestionsValid(text: string)
    ensures var r := RealQuestions(text);
      forall k :: 0 <= k < |r| ==>
        IsValidQuestion(r[k]) && Trim(r[k]) == r[k] && |r[k]| >= 10 && !IsAllCaps(r[k]) &&
        (IsCheckbox(r[k]) ==> EndsWith(r[k], "?"))
  {
    var r := RealQuestions(text);
    if !IsBlank(text) {
      var c := Collected(text);
      CollectedOk(text);
      DedupSubseq(c, AsKey, {});
      SubseqMembers(r, c);
      forall k | 0 <= k < |r|
        ensures IsValidQuestion(r[k]) && Trim(r[k]) == r[k] && |r[k]| >= 10 && !IsAllCaps(r[k]) &&
                (IsCheckbox(r[k]) ==> EndsWith(r[k], "?"))
      {
        assert r[k] in c;
        ValidQuestionShape(r[k]);
      }
    }
  }

  /** Blank text has no questions. Otherwise the result holds no question twice, keeps the
      order in which the loop accepted them, and represents every accepted candidate. */
  lemma RealQuestionsDistinct(text: string)
    ensures IsBlank(text) ==> RealQuestions(text) == []
    ensures forall i, j :: 0 <= i < j < |RealQuestions(text)| ==> RealQuestions(text)[i] != RealQuestions(text)[j]
    ensures !IsBlank(text) ==> IsSubseq(RealQuestions(text), Collected(text))
    ensures !IsBlank(text) ==> forall q :: q in Collected(text) ==> q in RealQuestions(text)
  {
    if !IsBlank(text) {
      var c := Collected(text);
      var r := RealQuestions(text);
      DedupDistinct(c, AsKey, {});
      DedupSubseq(c, AsKey, {});
      forall q | q in c ensures q in r {
        var i :| 0 <= i < |c| && c[i] == q;
        DedupCovers(c, AsKey, {}, i);
      }
    }
  }

  /** A noise line changes nothing: the loop skips it. */
  lemma NoiseLineSkipped(lines: seq<string>, noise: string)
    requires IsNoise(Trim(noise))
    ensures ScanLines(lines + [noise]) == ScanLines(lines)
  {
    assert (lines + [noise])[..|lines|] == lines;
  }

  /** A line that is already a complete question: trimmed, not noise, free of line breaks,
      ending with '?' and valid. */
  predicate QuestionLine(q: string) {
    Trimmed(q) && !IsNoise(q) && '\n' !in q && EndsWith(q, "?") && IsValidQuestion(q)
  }

  /** With no candidate pending, a complete question line is collected at once. */
  lemma StepQuestionLine(found: seq<string>, q: string)
    requires QuestionLine(q)
    ensures Step(Scan(found, ""), q) == Scan(found + [q], "")
  {
    TrimFixed(q);
  }

  /** Every line is a complete question line; unfolded one line at a time, from the end. */
  predicate AllQuestionLines(qs: seq<string>)
    decreases |qs|
  {
    qs == [] || (QuestionLine(qs[|qs| - 1]) && AllQuestionLines(qs[..|qs| - 1]))
  }

  lemma {:induction false} AllQuestionLinesFrom(qs: seq<string>)
    requires forall k :: 0 <= k < |qs| ==> QuestionLine(qs[k])
    ensures AllQuestionLines(qs)
    decreases |qs|
  {
    if qs != [] {
      var init := qs[..|qs| - 1];
      assert forall k :: 0 <= k < |init| ==> init[k] == qs[k];
      AllQuestionLinesFrom(init);
    }
  }

  /** The last of such lines is collected at once. */
  lemma StepLastQuestionLine(qs: seq<string>)
    requires qs != [] && AllQuestionLines(qs)
    ensures AllQuestionLines(qs[..|qs| - 1])
    ensures Step(Scan(qs[..|qs| - 1], ""), qs[|qs| - 1]) == Scan(qs[..|qs| - 1] + [qs[|qs| - 1]], "")
  {
    StepQuestionLine(qs[..|qs| - 1], qs[|qs| - 1]);
  }

  /** Lines that are each a complete question are each collected on their own. */
  lemma {:induction false} ScanQuestionLines(qs: seq<string>)
    requires AllQuestionLines(qs)
    ensures ScanLines(qs) == Scan(qs, "")
    decreases |qs|
  {
    if qs != [] {
      StepLastQuestionLine(qs);
      ScanQuestionLines(qs[..|qs| - 1]);
      SnocLast(qs);
    }
  }

  /** Splitting the lines joined by line breaks gives the lines back. */
  lemma {:induction false} SplitJoinLines(qs: seq<string>)
    requires qs != []
    requires forall k :: 0 <= k < |qs| ==> '\n' !in qs[k]
    ensures Split(Join(qs, "\n"), {'\n'}) == qs
    decreases |qs|
  {
    if |qs| == 1 {
      SplitNoSep(qs[0], {'\n'});
    } else {
      SplitJoinLines(qs[1..]);
      SplitCons(qs[0], '\n', Join(qs[1..], "\n"), {'\n'});
      assert Join(qs, "\n") == qs[0] + ['\n'] + Join(qs[1..], "\n");
      assert [qs[0]] + qs[1..] == qs;
    }
  }

  /** A text whose first line starts with a non-white character is not blank. */
  lemma SplitHeadNotBlank(text: string, qs: seq<string>)
    requires Split(text, {'\n'}) == qs
    requires qs[0] != [] && !IsWhite(qs[0][0])
    ensures !IsBlank(text)
  {
    assert text != [] && text[0] != '\n';
    assert qs[0][0] == text[0];
  }

  /** A text whose lines leave no candidate pending collects exactly what the loop found. */
  lemma CollectedNoPending(text: string, found: seq<string>)
    requires ScanLines(Split(text, {'\n'})) == Scan(found, "")
    ensures Collected(text) == found
  {
  }

  lemma QuestionLinesUnbroken(qs: seq<string>)
    requires forall k :: 0 <= k < |qs| ==> QuestionLine(qs[k])
    ensures forall k :: 0 <= k < |qs| ==> '\n' !in qs[k]
  {
  }

  /** The loop accepts each line of a text made of complete question lines, and nothing else. */
  lemma CollectedQuestionLines(text: string, qs: seq<string>)
    requires Split(text, {'\n'}) == qs
    requires forall k :: 0 <= k < |qs| ==> QuestionLine(qs[k])
    ensures Collected(text) == qs
  {
    AllQuestionLinesFrom(qs);
    ScanQuestionLines(qs);
    CollectedNoPending(text, qs);
  }

  /** A text that splits into distinct complete question lines yields exactly those lines. */
  lemma RealQuestionsOfLines(text: string, qs: seq<string>)
    requires Split(text, {'\n'}) == qs
    requires forall k :: 0 <= k < |qs| ==> QuestionLine(qs[k])
    requires forall i, j :: 0 <= i < j < |qs| ==> qs[i] != qs[j]
    ensures RealQuestions(text) == qs
  {
    ValidQuestionShape(qs[0]);
    SplitHeadNotBlank(text, qs);
    CollectedQuestionLines(text, qs);
    DedupNoRepeats(qs, AsKey, {});
  }

  /** Round trip: a form whose lines are distinct complete questions yields exactly those
      questions, in order. */
  lemma {:induction false} QuestionLinesRoundTrip(qs: seq<string>)
    requires qs != []
    requires forall k :: 0 <= k < |qs| ==> QuestionLine(qs[k])
    requires forall i, j :: 0 <= i < j < |qs| ==> qs[i] != qs[j]
    ensures RealQuestions(Join(qs, "\n")) == qs
  {
    QuestionLinesUnbroken(qs);
    SplitJoinLines(qs);
    RealQuestionsOfLines(Join(qs, "\n"), qs);
  }
}

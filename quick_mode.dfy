/** quickModeParser: reads a pasted application text in quick mode. It takes the questions
    with the smart extractor, guesses the kind of application from keywords, and takes as the
    programme topic the first keyword line (with its keyword cut off) or, failing that, a short
    first line that is not a question. */
module QuickModeParser {
  import opened Wrappers
  import opened Text
  import opened Collections
  import SmartQuestionExtractor

  /** What quick mode fills in: the questions, and the two guesses it may leave empty. */
  datatype QuickParsedData = QuickParsedData(
    questions: seq<string>,
    applicationType: Option<string>,
    programTopic: Option<string>)

  // ================================================================ application type

  /** The labels an application type can take. Each Erasmus+ label is written as the shared
      "Erasmus+" head plus its kind, the way ApplicationType builds it. */
  const ErasmusLabels: set<string> :=
    {"Erasmus+" + " Internship", "Erasmus+" + " Youth Exchange", "Erasmus+" + " ESC Volunteering",
     "Erasmus+" + " Mobility"}
  const OtherLabels: set<string> :=
    {"Internship Application", "Volunteering Application", "Academic Application"}

  /** Keywords of an internship, of a youth exchange and of volunteering in the European
      Solidarity Corps, as the Erasmus+ branch tests them. */
  predicate InternshipWords(lower: string) {
    Contains(lower, "internship") || Contains(lower, "traineeship") || Contains(lower, "staj")
  }
  predicate YouthWords(lower: string) {
    Contains(lower, "youth exchange") || Contains(lower, "gençlik değişimi")
  }
  predicate SolidarityWords(lower: string) {
    Contains(lower, "esc") || Contains(lower, "solidarity corps") || Contains(lower, "volunteer")
  }

  /** The kind of Erasmus+ programme, from the first group of keywords the lower-cased text holds. */
  function ErasmusKind(lower: string): (r: string)
    ensures "Erasmus+" + r in ErasmusLabels
    ensures InternshipWords(lower) ==> r == " Internship"
    ensures !InternshipWords(lower) && YouthWords(lower) ==> r == " Youth Exchange"
    ensures !InternshipWords(lower) && !YouthWords(lower) && SolidarityWords(lower) ==> r == " ESC Volunteering"
    ensures !InternshipWords(lower) && !YouthWords(lower) && !SolidarityWords(lower) ==> r == " Mobility"
  {
    if Contains(lower, "internship") || Contains(lower, "traineeship") || Contains(lower, "staj") then
      " Internship"
    else if Contains(lower, "youth exchange") || Contains(lower, "gençlik değişimi") then
      " Youth Exchange"
    else if Contains(lower, "esc") || Contains(lower, "solidarity corps") || Contains(lower, "volunteer") then
      " ESC Volunteering"
    else
      " Mobility"
  }

  /** The application type guessed from the lower-cased text: Erasmus+ wins over everything,
      then internship, volunteering and academic keywords, in that order. */
  function ApplicationType(text: string): (r: Option<string>)
    ensures r.Some? <==>
      var lower := Lower(text);
      Contains(lower, "erasmus") || Contains(lower, "internship") || Contains(lower, "staj") ||
      Contains(lower, "volunteer") || Contains(lower, "gönüllü") ||
      Contains(lower, "master") || Contains(lower, "phd") || Contains(lower, "degree")
    ensures r.Some? ==> r.value in ErasmusLabels + OtherLabels
    ensures r.Some? ==> (r.value in ErasmusLabels <==> Contains(Lower(text), "erasmus"))
    ensures Contains(Lower(text), "erasmus") ==> r == Some("Erasmus+" + ErasmusKind(Lower(text)))
    ensures !Contains(Lower(text), "erasmus") && (Contains(Lower(text), "internship") || Contains(Lower(text), "staj")) ==>
              r == Some("Internship Application")
    ensures !Contains(Lower(text), "erasmus") && !(Contains(Lower(text), "internship") || Contains(Lower(text), "staj")) &&
            (Contains(Lower(text), "volunteer") || Contains(Lower(text), "gönüllü")) ==>
              r == Some("Volunteering Application")
    ensures !Contains(Lower(text), "erasmus") && !(Contains(Lower(text), "internship") || Contains(Lower(text), "staj")) &&
            !(Contains(Lower(text), "volunteer") || Contains(Lower(text), "gönüllü")) &&
            (Contains(Lower(text), "master") || Contains(Lower(text), "phd") || Contains(Lower(text), "degree")) ==>
              r == Some("Academic Application")
  {
    var lower := Lower(text);
    if Contains(lower, "erasmus") then Some("Erasmus+" + ErasmusKind(lower))
    else if Contains(lower, "internship") || Contains(lower, "staj") then Some("Internship Application")
    else if Contains(lower, "volunteer") || Contains(lower, "gönüllü") then Some("Volunteering Application")
    else if Contains(lower, "master") || Contains(lower, "phd") || Contains(lower, "degree") then
      Some("Academic Application")
    else None
  }

  /** A text that mentions Erasmus keeps an Erasmus+ label whatever is appended to it. */
  lemma ErasmusWins(text: string, more: string)
    requires Contains(Lower(text), "erasmus")
    ensures ApplicationType(text + more).Some?
    ensures ApplicationType(text + more).value in ErasmusLabels
  {
    LowerConcat(text, more);
    ContainsLeft(Lower(text), Lower(more), "erasmus");
  }

  // ================================================================ programme topic

  /** The trimmed, non-empty lines of the text, in order. */
  function Lines(text: string): seq<string> {
    Filter(TrimAll(Split(text, {'\n'})), NonEmpty)
  }

  /** Every line is non-empty and its own trim. */
  lemma LinesTidy(text: string)
    ensures forall k :: 0 <= k < |Lines(text)| ==> Lines(text)[k] != [] && Trim(Lines(text)[k]) == Lines(text)[k]
  {
    var t := TrimAll(Split(text, {'\n'}));
    FilterMembers(t, NonEmpty);
    forall k | 0 <= k < |Lines(text)| ensures Trim(Lines(text)[k]) == Lines(text)[k] {
      var i :| 0 <= i < |t| && t[i] == Lines(text)[k];
      TrimIdempotent(Split(text, {'\n'})[i]);
    }
  }

  /** /\d{2}\/\d{2}\/\d{4}/ matched at position i. */
  predicate DateAt(line: string, i: nat)
    requires i + 10 <= |line|
  {
    IsDigit(line[i]) && IsDigit(line[i + 1]) && line[i + 2] == '/' &&
    IsDigit(line[i + 3]) && IsDigit(line[i + 4]) && line[i + 5] == '/' &&
    IsDigit(line[i + 6]) && IsDigit(line[i + 7]) && IsDigit(line[i + 8]) && IsDigit(line[i + 9])
  }

  /** The line holds a date such as 01/02/2024 somewhere. */
  predicate HasDate(line: string) {
    exists i: nat :: i + 10 <= |line| && DateAt(line, i)
  }

  /** A line the topic search passes over: a numbered item, a line with a date, or a URL. */
  predicate Skipped(line: string) {
    SmartQuestionExtractor.NumberedStart(line) || HasDate(line) || StartsWith(line, "http")
  }

  /** A line the topic is taken from: not skipped, between six and 99 characters, and naming
      a project, a topic or what it is about. */
  predicate TopicLine(line: string) {
    !Skipped(line) && 5 < |line| < 100 &&
    var lower := Lower(line);
    Contains(lower, "project") || Contains(lower, "topic") || Contains(lower, "about") || Contains(lower, "konu")
  }

  /** The alternatives of /^(project|topic|about|konu)/i, in order. */
  const TopicKeywords: seq<string> := ["project", "topic", "about", "konu"]

  /** Length of the keyword /^(project|topic|about|konu)/i the line starts with; 0 for none. */
  function KeywordLength(line: string): (k: nat)
    ensures k <= |line|
    ensures StartsWithCI(line, "project") ==> k == 7
    ensures StartsWithCI(line, "topic") ==> k == 5
    ensures StartsWithCI(line, "about") ==> k == 5
    ensures StartsWithCI(line, "konu") ==> k == 4
    ensures k == 0 <==> !(StartsWithCI(line, "project") || StartsWithCI(line, "topic") ||
                          StartsWithCI(line, "about") || StartsWithCI(line, "konu"))
  {
    if StartsWithCI(line, "project") then
      assert LowerChar(line[0]) == 'p';
      7
    else if StartsWithCI(line, "topic") then
      assert LowerChar(line[0]) == 't';
      5
    else if StartsWithCI(line, "about") then 5
    else if StartsWithCI(line, "konu") then 4
    else 0
  }

  /** Whichever keyword a line starts with, KeywordLength is its length. */
  lemma KeywordLengthOf(line: string, w: nat)
    requires w < |TopicKeywords| && StartsWithCI(line, TopicKeywords[w])
    ensures KeywordLength(line) == |TopicKeywords[w]|
  {
  }

  /** [:\s-] : what may follow the keyword. */
  predicate TopicSeparator(c: char) {
    c == ':' || c == '-' || IsWhite(c)
  }

  /** The line with a leading keyword and the separators after it removed, then trimmed. */
  function StripTopic(line: string): (r: string)
    ensures |r| <= |line|
    ensures KeywordLength(line) == 0 ==> r == Trim(line)
  {
    var k := KeywordLength(line);
    if k == 0 then Trim(line) else Trim(line[RunEnd(line, k, TopicSeparator)..])
  }

  /** The stripped topic is its own trim. */
  lemma StripTopicTrimmed(line: string)
    ensures Trim(StripTopic(line)) == StripTopic(line)
  {
    var k := KeywordLength(line);
    if k == 0 {
      TrimIdempotent(line);
    } else {
      TrimIdempotent(line[RunEnd(line, k, TopicSeparator)..]);
    }
  }

  /** A keyword in any letter case, then any run of ':', '-' and white space, then the rest:
      the rest, trimmed, is the topic. */
  lemma StripKeywordLabel(w: nat, keyword: string, separators: string, rest: string)
    requires w < |TopicKeywords| && EqualsCI(keyword, TopicKeywords[w])
    requires forall i :: 0 <= i < |separators| ==> TopicSeparator(separators[i])
    requires rest == [] || !TopicSeparator(rest[0])
    ensures StripTopic(keyword + separators + rest) == Trim(rest)
  {
    var line := keyword + separators + rest;
    var n := |keyword|;
    assert StartsWithCI(line, TopicKeywords[w]) by {
      assert forall i :: 0 <= i < n ==> line[i] == keyword[i];
    }
    KeywordLengthOf(line, w);
    RunEndIs(line, n, n + |separators|, TopicSeparator) by {
      assert forall i :: n <= i < n + |separators| ==> line[i] == separators[i - n];
      assert n + |separators| < |line| ==> line[n + |separators|] == rest[0];
    }
    assert line[n + |separators|..] == rest;
  }

  /** The topic of the first topic line, if any. */
  function FirstTopic(lines: seq<string>): (r: Option<string>)
    ensures r.None? <==> forall j :: 0 <= j < |lines| ==> !TopicLine(lines[j])
    ensures r.Some? ==> exists j :: 0 <= j < |lines| && TopicLine(lines[j]) && r.value == StripTopic(lines[j])
  {
    FindFirstIsFirst(lines, 0, TopicLine);
    match FindFirst(lines, 0, TopicLine)
    case None => None
    case Some(j) => Some(StripTopic(lines[j]))
  }

  /** The topic is that of line j when j is a topic line and no line before it is one. */
  lemma FirstTopicAt(lines: seq<string>, j: nat)
    requires j < |lines| && TopicLine(lines[j])
    requires forall m :: 0 <= m < j ==> !TopicLine(lines[m])
    ensures FirstTopic(lines) == Some(StripTopic(lines[j]))
  {
    FindFirstAt(lines, 0, j, TopicLine);
  }

  /** The loop over the lines: skip numbered, dated and URL lines, stop at the first topic line. */
  method FindTopic(lines: seq<string>) returns (topic: Option<string>)
    ensures topic == FirstTopic(lines)
  {
    topic := None;
    for i := 0 to |lines|
      invariant topic.None? && FindFirst(lines, i, TopicLine) == FindFirst(lines, 0, TopicLine)
    {
      var line := lines[i];
      if SmartQuestionExtractor.NumberedStart(line) { continue; }
      if HasDate(line) { continue; }
      if StartsWith(line, "http") { continue; }
      if |line| < 100 && |line| > 5 {
        var lowerLine := Lower(line);
        if Contains(lowerLine, "project") || Contains(lowerLine, "topic") ||
           Contains(lowerLine, "about") || Contains(lowerLine, "konu") {
          topic := Some(StripTopic(line));
          break;
        }
      }
    }
  }

  /** The topic line's topic, unless it is missing or empty; then the first line when it is
      shorter than 100 characters and holds no '?'. */
  function ProgramTopic(lines: seq<string>): Option<string> {
    var found := FirstTopic(lines);
    if (found.None? || found.value == "") && |lines| > 0 && |lines[0]| < 100 && '?' !in lines[0] then
      Some(lines[0])
    else
      found
  }

  /** Over trimmed lines, a topic is trimmed and shorter than 100 characters, and with no
      lines there is none. */
  lemma ProgramTopicShape(lines: seq<string>)
    requires forall k :: 0 <= k < |lines| ==> Trim(lines[k]) == lines[k]
    ensures lines == [] ==> ProgramTopic(lines).None?
    ensures ProgramTopic(lines).Some? ==>
      |ProgramTopic(lines).value| < 100 && Trim(ProgramTopic(lines).value) == ProgramTopic(lines).value
  {
    FirstTopicShape(lines);
    if lines != [] {
      assert Trim(lines[0]) == lines[0];
    }
  }

  /** A topic found on a topic line is trimmed and shorter than 100 characters. */
  lemma FirstTopicShape(lines: seq<string>)
    ensures FirstTopic(lines).Some? ==>
      |FirstTopic(lines).value| < 100 && Trim(FirstTopic(lines).value) == FirstTopic(lines).value
  {
    match FindFirst(lines, 0, TopicLine)
    case None =>
    case Some(j) =>
      StripTopicTrimmed(lines[j]);
  }

  // ================================================================ parseQuickModeInput

  /** What quick mode reads from the text: nothing at all from blank text. */
  function QuickParsed(text: string): QuickParsedData {
    if IsBlank(text) then QuickParsedData([], None, None)
    else QuickParsedData(SmartQuestionExtractor.RealQuestions(text), ApplicationType(text),
                         ProgramTopic(Lines(text)))
  }

  method ParseQuickModeInput(text: string) returns (data: QuickParsedData)
    ensures data == QuickParsed(text)
  {
    if IsBlank(text) {
      return QuickParsedData([], None, None);
    }
    var questions := SmartQuestionExtractor.ExtractRealQuestions(text);
    var applicationType := ApplicationType(text);
    var lines := Lines(text);
    var programTopic := FindTopic(lines);
    if (programTopic.None? || programTopic.value == "") && |lines| > 0 {
      var potentialTitle := lines[0];
      if |potentialTitle| < 100 && '?' !in potentialTitle {
        programTopic := Some(potentialTitle);
      }
    }
    data := QuickParsedData(questions, applicationType, programTopic);
  }

  /** Blank text yields nothing. Otherwise the questions are distinct valid questions, the
      application type is one of the fixed labels (an Erasmus+ one exactly when the text
      mentions Erasmus), and the topic is a trimmed string shorter than 100 characters. */
  lemma QuickParsedShape(text: string)
    ensures IsBlank(text) ==> QuickParsed(text) == QuickParsedData([], None, None)
    ensures var qs := QuickParsed(text).questions;
      (forall k :: 0 <= k < |qs| ==> SmartQuestionExtractor.IsValidQuestion(qs[k]) && Trim(qs[k]) == qs[k]) &&
      (forall i, j :: 0 <= i < j < |qs| ==> qs[i] != qs[j])
    ensures var t := QuickParsed(text).applicationType;
      t.Some? ==> t.value in ErasmusLabels + OtherLabels &&
                  (t.value in ErasmusLabels <==> Contains(Lower(text), "erasmus"))
    ensures var p := QuickParsed(text).programTopic;
      p.Some? ==> |p.value| < 100 && Trim(p.value) == p.value
  {
    SmartQuestionExtractor.RealQuestionsValid(text);
    SmartQuestionExtractor.RealQuestionsDistinct(text);
    LinesTidy(text);
    ProgramTopicShape(Lines(text));
  }
}

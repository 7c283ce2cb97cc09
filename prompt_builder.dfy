/** PromptBuilderService: the filters that clean pasted form and project text, and the
    builders that assemble the prompts sent to the language model. A StringBuilder that
    only receives AppendLine calls is modelled by the list of lines it received:
    its text is `Terminated(lines)`. */
module PromptBuilder {
  import opened Wrappers
  import opened Text
  import opened Collections
  import opened Requests

  // ================================================================ ExtractCleanQuestions

  predicate IsBullet(c: char) {
    c == '-' || c == '*' || c == '•'
  }

  /** Where the list marker matched by ^\s*(\d+\s*[.)]|[-*•]+)\s+ ends in an already trimmed
      line (the marker with the whitespace after it), or 0 when the pattern does not match. */
  function ListMarkerEnd(t: string): (m: nat)
    ensures m <= |t|
    ensures m > 0 ==> (IsDigit(t[0]) || IsBullet(t[0])) && IsWhite(t[m - 1])
  {
    var d := RunEnd(t, 0, IsDigit);
    if d > 0 then
      var w := RunEnd(t, d, IsWhite);
      if w + 1 < |t| && (t[w] == '.' || t[w] == ')') && IsWhite(t[w + 1]) then RunEnd(t, w + 1, IsWhite)
      else 0
    else
      var b := RunEnd(t, 0, IsBullet);
      if 0 < b < |t| && IsWhite(t[b]) then RunEnd(t, b, IsWhite) else 0
  }

  /** StripPrefix: trims the line, removes a leading list marker ("1.", "2)", "-", "*", "•")
      and trims again; the result never has surrounding whitespace. */
  function StripPrefix(line: string): (r: string)
    ensures Trim(r) == r
    ensures forall c :: c in r ==> c in line
  {
    var t := Trim(line);
    var m := ListMarkerEnd(t);
    TrimIdempotent(t[m..]);
    assert forall c :: c in Trim(t[m..]) ==> c in line by {
      forall c | c in Trim(t[m..]) ensures c in line {
        TrimChars(t[m..], c);
        TrimChars(line, c);
      }
    }
    Trim(t[m..])
  }

  /** A numbered marker ("1.", "12 )", ...) followed by white space is removed with that
      white space, leaving the text after it. */
  lemma StripNumberedMarker(digits: string, gap: string, p: char, space: string, x: string)
    requires digits != [] && forall k :: 0 <= k < |digits| ==> IsDigit(digits[k])
    requires forall k :: 0 <= k < |gap| ==> IsWhite(gap[k])
    requires p == '.' || p == ')'
    requires space != [] && forall k :: 0 <= k < |space| ==> IsWhite(space[k])
    requires x != [] && Trim(x) == x
    ensures ListMarkerEnd(digits + gap + [p] + space + x) == |digits| + |gap| + 1 + |space|
    ensures StripPrefix(digits + gap + [p] + space + x) == x
  {
    var line := digits + gap + [p] + space + x;
    var d, w := |digits|, |digits| + |gap|;
    var m := w + 1 + |space|;
    assert ListMarkerEnd(line) == m by {
      assert forall k :: 0 <= k < d ==> line[k] == digits[k];
      assert !IsDigit(line[d]) by {
        if gap != [] { assert line[d] == gap[0]; } else { assert line[d] == p; }
      }
      assert forall k :: d <= k < w ==> line[k] == gap[k - d];
      assert line[w] == p;
      assert forall k :: w + 1 <= k < m ==> line[k] == space[k - w - 1];
      assert line[m] == x[0];
      NumberedMarkerAt(line, d, w, m);
    }
    assert Trim(line) == line by {
      assert line[0] == digits[0] && line[|line| - 1] == x[|x| - 1];
      TrimFixed(line);
    }
    assert line[m..] == x;
  }

  /** Digits up to d, white space up to w, '.' or ')' at w, and white space up to a visible
      character at m: the marker ends at m. */
  lemma NumberedMarkerAt(line: string, d: nat, w: nat, m: nat)
    requires 0 < d <= w && w + 1 < m < |line|
    requires forall k :: 0 <= k < d ==> IsDigit(line[k])
    requires !IsDigit(line[d])
    requires forall k :: d <= k < w ==> IsWhite(line[k])
    requires line[w] == '.' || line[w] == ')'
    requires forall k :: w + 1 <= k < m ==> IsWhite(line[k])
    requires !IsWhite(line[m])
    ensures ListMarkerEnd(line) == m
  {
    RunEndIs(line, 0, d, IsDigit);
    RunEndIs(line, d, w, IsWhite);
    RunEndIs(line, w + 1, m, IsWhite);
  }

  /** A bullet marker ("-", "**", "•") followed by white space is removed with that white
      space, leaving the text after it. */
  lemma StripBulletMarker(bullets: string, space: string, x: string)
    requires bullets != [] && forall k :: 0 <= k < |bullets| ==> IsBullet(bullets[k])
    requires space != [] && forall k :: 0 <= k < |space| ==> IsWhite(space[k])
    requires x != [] && Trim(x) == x
    ensures ListMarkerEnd(bullets + space + x) == |bullets| + |space|
    ensures StripPrefix(bullets + space + x) == x
  {
    var line := bullets + space + x;
    var b := |bullets|;
    var m := b + |space|;
    assert line[0] == bullets[0] && line[|line| - 1] == x[|x| - 1];
    TrimFixed(line);
    RunEndIs(line, 0, 0, IsDigit);
    assert forall k :: 0 <= k < b ==> line[k] == bullets[k];
    assert line[b] == space[0];
    RunEndIs(line, 0, b, IsBullet);
    assert forall k :: b <= k < m ==> line[k] == space[k - b];
    assert line[m] == x[0];
    RunEndIs(line, b, m, IsWhite);
    assert line[m..] == x;
  }

  /** A line whose first visible character is neither a digit nor a bullet has no marker: it
      is only trimmed. */
  lemma StripWithoutMarker(line: string)
    requires Trim(line) == [] || !(IsDigit(Trim(line)[0]) || IsBullet(Trim(line)[0]))
    ensures ListMarkerEnd(Trim(line)) == 0
    ensures StripPrefix(line) == Trim(line)
  {
    var t := Trim(line);
    assert t[0..] == t;
    TrimIdempotent(line);
  }

  /** Words separated by spaces or tabs. */
  function WordCount(line: string): nat {
    |SplitNonEmpty(line, {' ', '\t'})|
  }

  /** NormalizeKey: trimmed, lower-cased, runs of spaces and tabs collapsed to one space. */
  function NormalizeKey(s: string): string {
    Join(SplitNonEmpty(Lower(Trim(s)), {' ', '\t'}), " ")
  }

  const BannedQuestionPhrases: seq<string> := [
    "copyright", "instagram", "facebook", "tiktok", "linkedin", "search for",
    "anasayfa", "hakkımızda", "projeler", "info pack", "click the link",
    "ai prohibited", "please read carefully", "google forms", "navigation",
    "blog", "sss", "fırsatlar", "iletişim", "copyright"]

  /** Some phrase of the list occurs (ordinally) in `text`. */
  predicate MentionsAny(text: string, phrases: seq<string>) {
    exists k :: 0 <= k < |phrases| && Contains(text, phrases[k])
  }

  /** The candidate filters of ExtractCleanQuestions: non-blank, at most 250 characters,
      no banned phrase in the lower-cased line, no CV section header, no passport or phone field. */
  predicate IsCandidateLine(l: string) {
    && !IsBlank(l)
    && |l| <= 250
    && !MentionsAny(Lower(l), BannedQuestionPhrases)
    && !ContainsCI(l, "WORK EXPERIENCE")
    && !ContainsCI(l, "EDUCATION AND TRAINING")
    && !StartsWithCI(l, "Passport:")
    && !StartsWithCI(l, "Phone:")
  }

  /** The loop's own test: ends with '?' or looks like a form field ('*' or ':'),
      and has at least five words. */
  predicate LooksLikeQuestion(l: string) {
    (EndsWith(l, "?") || '*' in l || ':' in l) && WordCount(l) >= 5
  }

  /** "\r\n" and then every remaining '\r' become '\n'. */
  function UnifyLineBreaks(s: string): string {
    ReplaceChar(ReplaceAll(s, "\r\n", "\n"), '\r', '\n')
  }

  /** The non-empty lines, each with its list marker stripped. */
  function StrippedLines(raw: string): (r: seq<string>)
    ensures |r| == |SplitNonEmpty(UnifyLineBreaks(raw), {'\n'})|
  {
    var lines := SplitNonEmpty(UnifyLineBreaks(raw), {'\n'});
    seq(|lines|, i requires 0 <= i < |lines| => StripPrefix(lines[i]))
  }

  /** Each stripped line is trimmed and holds no line break. */
  lemma StrippedLinesClean(raw: string)
    ensures forall k :: 0 <= k < |StrippedLines(raw)| ==>
              Trim(StrippedLines(raw)[k]) == StrippedLines(raw)[k] && '\n' !in StrippedLines(raw)[k]
  {
    var lines := SplitNonEmpty(UnifyLineBreaks(raw), {'\n'});
    SplitPiecesClean(UnifyLineBreaks(raw), {'\n'});
    assert forall k :: 0 <= k < |lines| ==> '\n' !in lines[k];
  }

  /** The candidate list of the LINQ chain, before the loop. */
  function QuestionCandidates(raw: string): seq<string> {
    Filter(StrippedLines(raw), IsCandidateLine)
  }

  /** What ExtractCleanQuestions returns: the question-like candidates, keeping the first
      of each normalised key. */
  function CleanQuestions(raw: string): seq<string> {
    if IsBlank(raw) then [] else DedupBy(Filter(QuestionCandidates(raw), LooksLikeQuestion), NormalizeKey, {})
  }

  /** ExtractCleanQuestions(rawText): the foreach over the candidates with the `seen` key set. */
  method ExtractCleanQuestions(rawText: string) returns (results: seq<string>)
    ensures results == CleanQuestions(rawText)
    ensures IsBlank(rawText) ==> results == []
  {
    if IsBlank(rawText) {
      return [];
    }
    var candidates := QuestionCandidates(rawText);
    results := [];
    var seen: set<string> := {};
    for i := 0 to |candidates|
      invariant results + DedupBy(Filter(candidates[i..], LooksLikeQuestion), NormalizeKey, seen)
                == DedupBy(Filter(candidates, LooksLikeQuestion), NormalizeKey, {})
    {
      DedupFilterStep(candidates, i, LooksLikeQuestion, NormalizeKey, seen);
      var line := candidates[i];
      var endsWithQuestion := EndsWith(line, "?");
      var looksLikeField := '*' in line || ':' in line;
      if !endsWithQuestion && !looksLikeField {
        continue;
      }
      if WordCount(line) < 5 {
        continue;
      }
      var key := NormalizeKey(line);
      if key in seen {
        continue;
      }
      seen := seen + {key};
      AppendAssoc(results, [line], DedupBy(Filter(candidates[i + 1..], LooksLikeQuestion), NormalizeKey, seen));
      results := results + [line];
    }
    assert candidates[|candidates|..] == [];
  }

  /** Every extracted question passed every filter: it is trimmed, a single line, non-blank,
      at most 250 characters, free of banned phrases and CV headers, and looks like a question. */
  lemma CleanQuestionsWellFormed(raw: string)
    ensures forall k :: 0 <= k < |CleanQuestions(raw)| ==>
              var q := CleanQuestions(raw)[k];
              IsCandidateLine(q) && LooksLikeQuestion(q) && Trim(q) == q && '\n' !in q
  {
    if !IsBlank(raw) {
      var qs := CleanQuestions(raw);
      var cands := QuestionCandidates(raw);
      DedupFilterMembers(cands, LooksLikeQuestion, NormalizeKey, {});
      forall k | 0 <= k < |qs|
        ensures IsCandidateLine(qs[k]) && LooksLikeQuestion(qs[k]) && Trim(qs[k]) == qs[k] && '\n' !in qs[k]
      {
        CandidateFacts(raw, qs[k]);
      }
    }
  }

  lemma CandidateFacts(raw: string, q: string)
    requires q in QuestionCandidates(raw)
    ensures IsCandidateLine(q) && Trim(q) == q && '\n' !in q
  {
    var stripped := StrippedLines(raw);
    FilterMembers(stripped, IsCandidateLine);
    StrippedLinesClean(raw);
    var m :| 0 <= m < |QuestionCandidates(raw)| && QuestionCandidates(raw)[m] == q;
    assert q in stripped;
    var n :| 0 <= n < |stripped| && stripped[n] == q;
  }

  /** No two extracted questions share a normalised key. */
  lemma CleanQuestionsDistinct(raw: string)
    ensures forall i, j :: 0 <= i < j < |CleanQuestions(raw)| ==>
              NormalizeKey(CleanQuestions(raw)[i]) != NormalizeKey(CleanQuestions(raw)[j])
  {
    if !IsBlank(raw) {
      DedupDistinct(Filter(QuestionCandidates(raw), LooksLikeQuestion), NormalizeKey, {});
    }
  }

  /** The questions keep the input order, and the first line of each key is the one kept. */
  lemma CleanQuestionsFirstWins(raw: string, i: nat)
    requires !IsBlank(raw)
    requires i < |Filter(QuestionCandidates(raw), LooksLikeQuestion)|
    requires var f := Filter(QuestionCandidates(raw), LooksLikeQuestion);
             forall k :: 0 <= k < i ==> NormalizeKey(f[k]) != NormalizeKey(f[i])
    ensures IsSubseq(CleanQuestions(raw), Filter(QuestionCandidates(raw), LooksLikeQuestion))
    ensures Filter(QuestionCandidates(raw), LooksLikeQuestion)[i] in CleanQuestions(raw)
  {
    var f := Filter(QuestionCandidates(raw), LooksLikeQuestion);
    DedupSubseq(f, NormalizeKey, {});
    DedupKeepsFirst(f, NormalizeKey, {}, i);
  }

  // ================================================================ CleanProjectInfo

  const BannedProjectPhrases: seq<string> := [
    "copyright", "instagram", "facebook", "tiktok", "linkedin",
    "search for", "anasayfa", "hakkımızda", "projeler", "blog",
    "s.s.s", "gizlilik", "kullanım şartları", "ai platform",
    "blacklist", "info pack", "google formlar"]

  /** Some banned phrase occurs in the line, compared ignoring case. */
  predicate HasBannedPhrase(t: string) {
    exists k :: 0 <= k < |BannedProjectPhrases| && ContainsCI(t, BannedProjectPhrases[k])
  }

  /** The denylist of CleanProjectInfo: banned phrases, a "©" footer, a rights notice,
      or a generative-AI warning, all compared ignoring case. */
  predicate IsBoilerplate(t: string) {
    || HasBannedPhrase(t)
    || StartsWithCI(t, "©")
    || ContainsCI(t, "All rights reserved")
    || (ContainsCI(t, "generative AI") && ContainsCI(t, "warning"))
  }

  /** The trimmed lines CleanProjectInfo appends. A line over 300 characters is skipped before
      the duplicate check; any other line claims its case-insensitive key (kept in lower case)
      even when a later rule drops it. */
  function KeptProjectLines(lines: seq<string>, seen: set<string>, drop: string -> bool): seq<string>
    decreases |lines|
  {
    if lines == [] then []
    else
      var t := Trim(lines[0]);
      if |t| > 300 || Lower(t) in seen then KeptProjectLines(lines[1..], seen, drop)
      else if drop(t) || IsBlank(t) then KeptProjectLines(lines[1..], seen + {Lower(t)}, drop)
      else [t] + KeptProjectLines(lines[1..], seen + {Lower(t)}, drop)
  }

  /** The lines CleanProjectInfo walks over: "\r\n" unified, split on '\n', empties kept. */
  function ProjectLines(text: string): seq<string> {
    Split(ReplaceAll(text, "\r\n", "\n"), {'\n'})
  }

  /** What CleanProjectInfo returns: "" for blank text, otherwise every kept line followed by a line break. */
  function CleanedProjectInfo(text: string): string {
    if IsBlank(text) then "" else Terminated(KeptProjectLines(ProjectLines(text), {}, IsBoilerplate))
  }

  /** CleanProjectInfo(text): the foreach with the case-insensitive HashSet and the StringBuilder. */
  method CleanProjectInfo(text: string) returns (r: string)
    ensures r == CleanedProjectInfo(text)
  {
    if IsBlank(text) {
      return "";
    }
    var lines := ProjectLines(text);
    var uniqueLines: set<string> := {};
    r := "";
    ghost var kept: seq<string> := [];
    for i := 0 to |lines|
      invariant r == Terminated(kept)
      invariant kept + KeptProjectLines(lines[i..], uniqueLines, IsBoilerplate) == KeptProjectLines(lines, {}, IsBoilerplate)
    {
      KeptProjectLinesStep(lines, i, uniqueLines, IsBoilerplate);
      var trimmed := Trim(lines[i]);
      if |trimmed| > 300 {
        continue;
      }
      if Lower(trimmed) in uniqueLines {
        continue;
      }
      uniqueLines := uniqueLines + {Lower(trimmed)};
      var denied := IsDenied(trimmed);
      if denied {
        continue;
      }
      if !IsBlank(trimmed) {
        TerminatedAppend(kept, trimmed);
        AppendAssoc(kept, [trimmed], KeptProjectLines(lines[i + 1..], uniqueLines, IsBoilerplate));
        kept := kept + [trimmed];
        r := r + trimmed + "\n";
      }
    }
    assert lines[|lines|..] == [];
    assert KeptProjectLines(lines[|lines|..], uniqueLines, IsBoilerplate) == [];
    assert kept == KeptProjectLines(lines, {}, IsBoilerplate);
  }

  /** The denylist checks of CleanProjectInfo's loop body, in their order: the banned phrases
      (stopping at the first match), then the footer, rights and generative-AI rules. */
  method IsDenied(trimmed: string) returns (denied: bool)
    ensures denied == IsBoilerplate(trimmed)
  {
    var isBanned := false;
    var j := 0;
    while j < |BannedProjectPhrases| && !isBanned
      invariant 0 <= j <= |BannedProjectPhrases|
      invariant isBanned <==> exists k :: 0 <= k < j && ContainsCI(trimmed, BannedProjectPhrases[k])
    {
      if ContainsCI(trimmed, BannedProjectPhrases[j]) {
        isBanned := true;
      }
      j := j + 1;
    }
    if isBanned {
      return true;
    }
    if StartsWithCI(trimmed, "©") {
      return true;
    }
    if ContainsCI(trimmed, "All rights reserved") {
      return true;
    }
    if ContainsCI(trimmed, "generative AI") && ContainsCI(trimmed, "warning") {
      return true;
    }
    return false;
  }

  /** One step of CleanProjectInfo's loop: how the line at index i is treated. */
  lemma KeptProjectLinesStep(lines: seq<string>, i: nat, seen: set<string>, drop: string -> bool)
    requires i < |lines|
    ensures var t := Trim(lines[i]);
            KeptProjectLines(lines[i..], seen, drop) ==
              if |t| > 300 || Lower(t) in seen then KeptProjectLines(lines[i + 1..], seen, drop)
              else if drop(t) || IsBlank(t) then KeptProjectLines(lines[i + 1..], seen + {Lower(t)}, drop)
              else [t] + KeptProjectLines(lines[i + 1..], seen + {Lower(t)}, drop)
  {
    assert lines[i..][1..] == lines[i + 1..];
  }

  /** Every kept line is trimmed, non-blank, at most 300 characters, not boilerplate and a
      single line; its key is new; and no two kept lines are equal ignoring case. */
  lemma {:induction false} KeptProjectLinesClean(lines: seq<string>, seen: set<string>, drop: string -> bool)
    requires forall j :: 0 <= j < |lines| ==> '\n' !in lines[j]
    ensures forall k :: 0 <= k < |KeptProjectLines(lines, seen, drop)| ==>
              var t := KeptProjectLines(lines, seen, drop)[k];
              Trim(t) == t && !IsBlank(t) && |t| <= 300 && !drop(t) && '\n' !in t && Lower(t) !in seen
    ensures forall i, j :: 0 <= i < j < |KeptProjectLines(lines, seen, drop)| ==>
              Lower(KeptProjectLines(lines, seen, drop)[i]) != Lower(KeptProjectLines(lines, seen, drop)[j])
    decreases |lines|
  {
    if lines != [] {
      var t := Trim(lines[0]);
      if |t| > 300 || Lower(t) in seen {
        KeptProjectLinesClean(lines[1..], seen, drop);
      } else {
        KeptProjectLinesClean(lines[1..], seen + {Lower(t)}, drop);
        if !(drop(t) || IsBlank(t)) {
          TrimIdempotent(lines[0]);
          assert '\n' !in t by {
            if '\n' in t { TrimChars(lines[0], '\n'); }
          }
          var rest := KeptProjectLines(lines[1..], seen + {Lower(t)}, drop);
          assert KeptProjectLines(lines, seen, drop) == [t] + rest;
        }
      }
    }
  }

  /** The kept lines are trimmed input lines, in input order: a subsequence of the trimmed lines. */
  lemma {:induction false} KeptProjectLinesOrder(lines: seq<string>, seen: set<string>, drop: string -> bool)
    ensures IsSubseq(KeptProjectLines(lines, seen, drop), TrimAll(lines))
    decreases |lines|
  {
    if lines != [] {
      var t := Trim(lines[0]);
      var all := TrimAll(lines);
      assert all[0] == t && all[1..] == TrimAll(lines[1..]);
      if |t| > 300 || Lower(t) in seen {
        KeptProjectLinesOrder(lines[1..], seen, drop);
        SubseqSkip(KeptProjectLines(lines, seen, drop), all);
      } else if drop(t) || IsBlank(t) {
        KeptProjectLinesOrder(lines[1..], seen + {Lower(t)}, drop);
        SubseqSkip(KeptProjectLines(lines, seen, drop), all);
      } else {
        var rest := KeptProjectLines(lines[1..], seen + {Lower(t)}, drop);
        KeptProjectLinesOrder(lines[1..], seen + {Lower(t)}, drop);
        assert ([t] + rest)[1..] == rest;
      }
    }
  }

  /** A trimmed line that passes every rule and whose key no earlier short line claimed is kept. */
  lemma {:induction false} KeptProjectLinesComplete(lines: seq<string>, seen: set<string>, drop: string -> bool, i: nat)
    requires i < |lines|
    requires var t := Trim(lines[i]);
             |t| <= 300 && !IsBlank(t) && !drop(t) && Lower(t) !in seen
    requires forall j :: 0 <= j < i && |Trim(lines[j])| <= 300 ==> Lower(Trim(lines[j])) != Lower(Trim(lines[i]))
    ensures Trim(lines[i]) in KeptProjectLines(lines, seen, drop)
    decreases i
  {
    if i > 0 {
      var t := Trim(lines[0]);
      var rest := lines[1..];
      var seen' := if |t| > 300 || Lower(t) in seen then seen else seen + {Lower(t)};
      assert rest[i - 1] == lines[i];
      var u := Trim(lines[i]);
      assert Lower(u) !in seen' by {
        if |t| <= 300 { assert Lower(t) != Lower(u); }
      }
      forall j | 0 <= j < i - 1 && |Trim(rest[j])| <= 300
        ensures Lower(Trim(rest[j])) != Lower(u)
      {
        assert rest[j] == lines[j + 1];
      }
      KeptProjectLinesComplete(rest, seen', drop, i - 1);
    }
  }

  /** A list of lines that already passes every rule is kept unchanged, even with a blank
      line after it (the piece after the last line break). */
  lemma {:induction false} KeptProjectLinesFixed(ls: seq<string>, blank: string, seen: set<string>, drop: string -> bool)
    requires IsBlank(blank)
    requires forall k :: 0 <= k < |ls| ==>
               Trim(ls[k]) == ls[k] && !IsBlank(ls[k]) && |ls[k]| <= 300 && !drop(ls[k]) && Lower(ls[k]) !in seen
    requires forall i, j :: 0 <= i < j < |ls| ==> Lower(ls[i]) != Lower(ls[j])
    ensures KeptProjectLines(ls + [blank], seen, drop) == ls
    decreases |ls|
  {
    if ls == [] {
      TrimBlank(blank);
      assert [blank][1..] == [];
    } else {
      assert (ls + [blank])[1..] == ls[1..] + [blank];
      KeptProjectLinesFixed(ls[1..], blank, seen + {Lower(ls[0])}, drop);
    }
  }

  /** Kept lines never produce a "\r\n" pair: no line holds '\n' or ends in '\r'. */
  lemma {:induction false} TerminatedNoCrLf(ls: seq<string>)
    requires forall k :: 0 <= k < |ls| ==> '\n' !in ls[k] && ls[k] != [] && !IsWhite(ls[k][|ls[k]| - 1])
    ensures !Contains(Terminated(ls), "\r\n")
  {
    if ls != [] {
      TerminatedNoCrLf(ls[1..]);
      var s := Terminated(ls);
      var head := ls[0];
      assert s == head + "\n" + Terminated(ls[1..]);
      if Contains(s, "\r\n") {
        var i := ContainsWitness(s, "\r\n");
        assert s[i] == s[i..i + 2][0] == '\r';
        assert s[i + 1] == s[i..i + 2][1] == '\n';
        if i + 1 < |head| {
          assert false;
        } else if i + 1 == |head| {
          assert false;
        } else if i == |head| {
          assert false;
        } else {
          var rest := Terminated(ls[1..]);
          assert rest[i - |head| - 1..i - |head| + 1] == "\r\n";
          ContainsAt(rest, "\r\n", i - |head| - 1);
          assert false;
        }
      }
    }
  }

  lemma {:induction false} ReplaceAllAbsent(s: string, x: string, y: string)
    requires x != [] && !Contains(s, x)
    ensures ReplaceAll(s, x, y) == s
    decreases |s|
  {
    if s != [] {
      ReplaceAllAbsent(s[1..], x, y);
      assert [s[0]] + s[1..] == s;
    }
  }

  /** CleanProjectInfo is idempotent: its output already passes every rule. */
  lemma CleanProjectInfoIdempotent(text: string)
    ensures CleanedProjectInfo(CleanedProjectInfo(text)) == CleanedProjectInfo(text)
  {
    if !IsBlank(text) {
      var lines := ProjectLines(text);
      SplitPiecesClean(ReplaceAll(text, "\r\n", "\n"), {'\n'});
      assert forall j :: 0 <= j < |lines| ==> '\n' !in lines[j];
      var kept := KeptProjectLines(lines, {}, IsBoilerplate);
      KeptProjectLinesClean(lines, {}, IsBoilerplate);
      var out := Terminated(kept);
      if kept == [] {
        assert out == "";
      } else {
        TerminatedNotBlank(kept);
        TerminatedNoCrLf(kept);
        ReplaceAllAbsent(out, "\r\n", "\n");
        SplitTerminated(kept);
        KeptProjectLinesFixed(kept, "", {}, IsBoilerplate);
      }
    }
  }

  /** The cleaned text is either empty or not blank (it starts with a kept line). */
  lemma CleanedProjectInfoEmptyOrText(text: string)
    ensures CleanedProjectInfo(text) == "" || !IsBlank(CleanedProjectInfo(text))
  {
    if !IsBlank(text) {
      var lines := ProjectLines(text);
      SplitPiecesClean(ReplaceAll(text, "\r\n", "\n"), {'\n'});
      var kept := KeptProjectLines(lines, {}, IsBoilerplate);
      KeptProjectLinesClean(lines, {}, IsBoilerplate);
      if kept != [] {
        TerminatedNotBlank(kept);
      }
    }
  }

  // ================================================================ TrimCV and TrimProject

  const CvMarker: string := "\n[...Truncated CV...]"
  const ProjectMarker: string := "\n[...Truncated Project...]"

  /** TrimCV: blank gives "", up to 2000 characters are kept as they are, a longer CV keeps
      its first 2000 characters and gets a marker. */
  function TrimCV(cv: string): (r: string)
    ensures IsBlank(cv) ==> r == ""
    ensures !IsBlank(cv) && |cv| <= 2000 ==> r == cv
    ensures !IsBlank(cv) && |cv| > 2000 ==> r == cv[..2000] + CvMarker
    ensures |r| <= 2000 + |CvMarker|
  {
    if IsBlank(cv) then "" else if |cv| > 2000 then cv[..2000] + CvMarker else cv
  }

  /** TrimProject: the cleaned project text, capped at 1500 characters plus a marker. */
  function TrimProject(project: string): (r: string)
    ensures |CleanedProjectInfo(project)| <= 1500 ==> r == CleanedProjectInfo(project)
    ensures |CleanedProjectInfo(project)| > 1500 ==> r == CleanedProjectInfo(project)[..1500] + ProjectMarker
    ensures |r| <= 1500 + |ProjectMarker|
  {
    var cleaned := CleanedProjectInfo(project);
    if |cleaned| > 1500 then cleaned[..1500] + ProjectMarker else cleaned
  }
}

/** splitQuestions: cuts a pasted block of questions into single questions. It tries, in
    turn, numbered items, blank-line paragraphs and question marks, and otherwise keeps the
    whole text as one question. The two regular expressions are modelled as matchers tried at
    one position, and String.prototype.split as the scan that cuts at each match. */
module SplitQuestions {
  import opened Wrappers
  import opened Text
  import opened Collections
  import opened AnswerParsing

  /** The two regular expressions the text is split by. */
  datatype Separator =
    | Numbered   // (?:^|\n)\s*\d+[.)]\s+
    | Paragraph  // \n\s*\n

  /** `\s*\d+[.)]\s+` matched from position i: where the match ends. */
  function ItemMarkerEnd(s: string, i: nat): (r: Option<nat>)
    requires i <= |s|
    ensures r.Some? ==> i < r.value <= |s|
  {
    var j := SkipWhite(s, i);
    var k := SkipDigits(s, j);
    if j < k && k + 1 < |s| && (s[k] == '.' || s[k] == ')') && IsWhite(s[k + 1]) then
      Some(SkipWhite(s, k + 1))
    else None
  }

  /** ItemMarkerEnd read back: white space up to j, digits up to k, the '.' or ')' at k, and
      at least one white character after it, up to the end of the match, which stops at the
      end of the text or at a visible character (the greedy `\s+`). */
  lemma ItemMarkerParts(s: string, i: nat) returns (j: nat, k: nat)
    requires i <= |s| && ItemMarkerEnd(s, i).Some?
    ensures i <= j < k && k + 1 < ItemMarkerEnd(s, i).value
    ensures forall x :: i <= x < j ==> IsWhite(s[x])
    ensures forall x :: j <= x < k ==> IsDigit(s[x])
    ensures s[k] == '.' || s[k] == ')'
    ensures forall x :: k + 1 <= x < ItemMarkerEnd(s, i).value ==> IsWhite(s[x])
    ensures ItemMarkerEnd(s, i).value == |s| || !IsWhite(s[ItemMarkerEnd(s, i).value])
  {
    j := SkipWhite(s, i);
    k := SkipDigits(s, j);
    SkipWhiteRun(s, i);
    SkipDigitsRun(s, j);
    SkipWhiteRun(s, k + 1);
  }

  /** Conversely, white space, digits, '.' or ')' and white space up to a visible character
      (or the end) are matched, and the match ends there. */
  lemma ItemMarkerFound(s: string, i: nat, j: nat, k: nat, e: nat)
    requires i <= j < k && k + 1 < e <= |s|
    requires forall x :: i <= x < j ==> IsWhite(s[x])
    requires forall x :: j <= x < k ==> IsDigit(s[x])
    requires s[k] == '.' || s[k] == ')'
    requires forall x :: k + 1 <= x < e ==> IsWhite(s[x])
    requires e == |s| || !IsWhite(s[e])
    ensures ItemMarkerEnd(s, i) == Some(e)
  {
    SkipWhiteIs(s, i, j);
    SkipDigitsIs(s, j, k);
    SkipWhiteIs(s, k + 1, e);
  }

  /** The last line break in s[lo..hi]. */
  function LastBreak(s: string, lo: nat, hi: nat): (r: Option<nat>)
    requires lo <= hi <= |s|
    ensures r.Some? ==> lo <= r.value < hi && s[r.value] == '\n'
    ensures r.None? ==> forall p :: lo <= p < hi ==> s[p] != '\n'
    decreases hi - lo
  {
    if lo == hi then None
    else if s[hi - 1] == '\n' then Some(hi - 1)
    else LastBreak(s, lo, hi - 1)
  }

  /** The separator matched at position q (a sticky match): where the match ends. The
      numbered pattern tries the start of the text before a line break; the paragraph
      pattern lets its white-space run give back characters up to the last line break. */
  function MatchAt(sep: Separator, s: string, q: nat): (r: Option<nat>)
    requires q < |s|
    ensures r.Some? ==> q < r.value <= |s|
  {
    match sep
    case Numbered =>
      var atStart := if q == 0 then ItemMarkerEnd(s, 0) else None;
      if atStart.Some? then atStart
      else if s[q] == '\n' then ItemMarkerEnd(s, q + 1)
      else None
    case Paragraph =>
      if s[q] != '\n' then None
      else
        match LastBreak(s, q + 1, SkipWhite(s, q + 1))
        case Some(b) => Some(b + 1)
        case None => None
  }

  /** String.prototype.split(regex): the current piece starts at p and the scan is at q;
      each match closes the piece before it and the next piece starts where it ends. */
  function Pieces(sep: Separator, s: string, p: nat, q: nat): seq<string>
    requires p <= q <= |s|
    decreases |s| - q
  {
    if q == |s| then [s[p..]]
    else
      match MatchAt(sep, s, q)
      case Some(e) => [s[p..q]] + Pieces(sep, s, e, e)
      case None => Pieces(sep, s, p, q + 1)
  }

  /** RegExp.prototype.test: the separator matches somewhere. */
  predicate Matches(sep: Separator, s: string) {
    exists q :: 0 <= q < |s| && MatchAt(sep, s, q).Some?
  }

  /** Longer than the tiny fragments the question-mark split throws away. */
  predicate LongFragment(s: string) {
    |s| > 10
  }

  /** The pieces of a split, trimmed, with the empty ones dropped. */
  function Cleaned(parts: seq<string>): seq<string> {
    Filter(TrimAll(parts), NonEmpty)
  }

  /** A question-mark piece gets its '?' back unless it already ends a sentence. */
  function Reclosed(part: string): string {
    if EndsWith(part, ".") || EndsWith(part, "!") then part else part + "?"
  }

  /** The question-mark fallback: pieces between '?', trimmed, longer than ten characters,
      each closed again. */
  function QuestionMarkParts(text: string): (r: seq<string>) {
    var kept := Filter(TrimAll(Split(text, {'?'})), LongFragment);
    seq(|kept|, k requires 0 <= k < |kept| => Reclosed(kept[k]))
  }

  /** splitQuestions. */
  function SplitQuestions(text: string): (r: seq<string>)
    ensures r == [] <==> IsBlank(text)
    ensures |r| == 1 ==> r == [Trim(text)]
  {
    if IsBlank(text) then []
    else
      var numbered := Cleaned(Pieces(Numbered, text, 0, 0));
      if Matches(Numbered, text) && |numbered| > 1 then numbered
      else
        var paragraphs := Cleaned(Pieces(Paragraph, text, 0, 0));
        if |paragraphs| > 1 then paragraphs
        else if '?' in text && |QuestionMarkParts(text)| > 1 then QuestionMarkParts(text)
        else [Trim(text)]
  }

  /** No white space at either end. */
  predicate Trimmed(s: string) {
    s == [] || (!IsWhite(s[0]) && !IsWhite(s[|s| - 1]))
  }

  /** Cleaned pieces are non-empty and trimmed. */
  lemma {:induction false} CleanedTidy(parts: seq<string>)
    ensures forall k :: 0 <= k < |Cleaned(parts)| ==> Cleaned(parts)[k] != [] && Trimmed(Cleaned(parts)[k])
  {
    var t := TrimAll(parts);
    FilterMembers(t, NonEmpty);
    forall k | 0 <= k < |Cleaned(parts)|
      ensures Cleaned(parts)[k] != [] && Trimmed(Cleaned(parts)[k])
    {
      var c := Cleaned(parts)[k];
      var i :| 0 <= i < |t| && t[i] == c;
    }
  }

  /** Every question-mark piece is longer than ten characters, trimmed, and ends with '?',
      '.' or '!'. */
  lemma {:induction false} QuestionMarkPartsShape(text: string)
    ensures forall k :: 0 <= k < |QuestionMarkParts(text)| ==>
              var part := QuestionMarkParts(text)[k];
              |part| > 10 && Trimmed(part) &&
              (EndsWith(part, "?") || EndsWith(part, ".") || EndsWith(part, "!"))
  {
    var t := TrimAll(Split(text, {'?'}));
    var kept := Filter(t, LongFragment);
    FilterMembers(t, LongFragment);
    forall k | 0 <= k < |kept|
      ensures var part := Reclosed(kept[k]);
              |part| > 10 && Trimmed(part) &&
              (EndsWith(part, "?") || EndsWith(part, ".") || EndsWith(part, "!"))
    {
      var i :| 0 <= i < |t| && t[i] == kept[k];
      ReclosedShape(kept[k]);
    }
  }

  /** A long trimmed piece stays long and trimmed once closed, and ends a sentence. */
  lemma ReclosedShape(piece: string)
    requires |piece| > 10 && Trimmed(piece)
    ensures var part := Reclosed(piece);
            |part| > 10 && Trimmed(part) &&
            (EndsWith(part, "?") || EndsWith(part, ".") || EndsWith(part, "!"))
  {
    var part := Reclosed(piece);
    if part != piece {
      assert part[0] == piece[0] && part[|part| - 1] == '?';
    }
  }

  /** Blank text gives no questions; any other text gives at least one, and every question
      is non-empty and trimmed. */
  lemma {:induction false} SplitQuestionsShape(text: string)
    ensures IsBlank(text) <==> SplitQuestions(text) == []
    ensures forall k :: 0 <= k < |SplitQuestions(text)| ==>
              SplitQuestions(text)[k] != [] && Trimmed(SplitQuestions(text)[k])
  {
    if !IsBlank(text) {
      CleanedTidy(Pieces(Numbered, text, 0, 0));
      CleanedTidy(Pieces(Paragraph, text, 0, 0));
      QuestionMarkPartsShape(text);
      TrimNotBlank(text);
    }
  }

  // ---------------------------------------------------------------- paragraph round trip

  /** A paragraph of a well-formed form: one non-empty trimmed line that does not open with a
      numbered marker `\d+[.)]`. */
  predicate PlainParagraph(para: string) {
    para != [] && Trimmed(para) && '\n' !in para &&
    var d := SkipDigits(para, 0);
    !(0 < d < |para| && (para[d] == '.' || para[d] == ')'))
  }

  /** Paragraphs separated by one blank line. */
  function Paragraphs(paras: seq<string>): string {
    Join(paras, "\n\n")
  }

  /** The scan moves over a stretch with no match without cutting. */
  lemma {:induction false} PiecesSkip(sep: Separator, s: string, p: nat, q: nat, r: nat)
    requires p <= q <= r <= |s|
    requires forall i :: q <= i < r ==> MatchAt(sep, s, i).None?
    ensures Pieces(sep, s, p, q) == Pieces(sep, s, p, r)
    decreases r - q
  {
    if q < r {
      PiecesSkip(sep, s, p, q + 1, r);
    }
  }

  /** A run scanned inside a slice agrees with the run scanned in the whole string, as long as
      it stops inside the slice. */
  lemma {:induction false} SkipDigitsInSlice(s: string, p: nat, a: string, i: nat)
    requires p + |a| <= |s| && s[p..p + |a|] == a && i <= |a|
    ensures SkipDigits(a, i) < |a| ==> SkipDigits(s, p + i) == p + SkipDigits(a, i)
    ensures SkipDigits(a, i) == |a| ==> SkipDigits(s, p + i) == SkipDigits(s, p + |a|)
    decreases |a| - i
  {
    if i < |a| {
      assert s[p + i] == a[i];
      if IsDigit(a[i]) {
        SkipDigitsInSlice(s, p, a, i + 1);
      }
    }
  }

  /** Leading white space does not change where the item marker ends. */
  lemma {:induction false} ItemMarkerAfterWhite(s: string, i: nat)
    requires i < |s| && IsWhite(s[i])
    ensures ItemMarkerEnd(s, i) == ItemMarkerEnd(s, i + 1)
  {
  }

  /** No item marker starts at the head of a plain paragraph. */
  lemma {:induction false} NoMarkerAtParagraph(s: string, p: nat, paras: seq<string>)
    requires p <= |s| && paras != []
    requires s[p..] == Paragraphs(paras)
    requires AllPlain(paras)
    ensures ItemMarkerEnd(s, p).None?
  {
    var a := paras[0];
    assert PlainParagraph(a);
    var end := p + |a|;
    assert s[p..end] == a by {
      if |paras| > 1 {
        assert Paragraphs(paras) == a + "\n\n" + Paragraphs(paras[1..]);
      }
    }
    assert end < |s| ==> s[end] == '\n' by {
      if |paras| > 1 {
        assert Paragraphs(paras) == a + "\n\n" + Paragraphs(paras[1..]);
      }
    }
    assert s[p] == a[0];
    assert SkipWhite(s, p) == p;
    SkipDigitsInSlice(s, p, a, 0);
    assert end < |s| ==> SkipDigits(s, end) == end;
  }

  /** The first paragraph of the text from p on, and where it ends. */
  lemma {:induction false} ParagraphHead(s: string, p: nat, paras: seq<string>)
    requires p <= |s| && paras != []
    requires s[p..] == Paragraphs(paras)
    ensures p + |paras[0]| <= |s| && s[p..p + |paras[0]|] == paras[0]
    ensures |paras| == 1 ==> p + |paras[0]| == |s|
    ensures |paras| > 1 ==>
              p + |paras[0]| + 2 <= |s| && s[p + |paras[0]|] == '\n' &&
              s[p + |paras[0]| + 1] == '\n' && s[p + |paras[0]| + 2..] == Paragraphs(paras[1..])
  {
    if |paras| > 1 {
      assert s[p..] == paras[0] + "\n\n" + Paragraphs(paras[1..]);
    }
  }

  /** Inside the first paragraph the numbered separator matches nowhere. */
  lemma {:induction false} NoNumberedInParagraph(s: string, p: nat, paras: seq<string>)
    requires p <= |s| && paras != []
    requires s[p..] == Paragraphs(paras)
    requires AllPlain(paras)
    ensures forall q :: p <= q < p + |paras[0]| ==> MatchAt(Numbered, s, q).None?
  {
    var a := paras[0];
    ParagraphHead(s, p, paras);
    NoMarkerAtParagraph(s, p, paras);
    forall q | p <= q < p + |a| ensures MatchAt(Numbered, s, q).None? {
      assert s[q] == a[q - p];
      assert PlainParagraph(a);
    }
  }

  /** A blank line followed by no item marker is no numbered separator, at either of its
      line breaks. */
  lemma {:induction false} NoNumberedAtBlankLine(s: string, q: nat)
    requires 0 < q && q + 2 <= |s| && s[q] == '\n' && s[q + 1] == '\n'
    requires ItemMarkerEnd(s, q + 2).None?
    ensures MatchAt(Numbered, s, q).None? && MatchAt(Numbered, s, q + 1).None?
  {
    ItemMarkerAfterWhite(s, q + 1);
  }

  /** Every paragraph is plain (stated recursively, so that it unfolds one paragraph at a
      time). */
  predicate AllPlain(paras: seq<string>)
    decreases |paras|
  {
    paras == [] || (PlainParagraph(paras[0]) && AllPlain(paras[1..]))
  }

  lemma {:induction false} AllPlainFrom(paras: seq<string>)
    requires forall k :: 0 <= k < |paras| ==> PlainParagraph(paras[k])
    ensures AllPlain(paras)
    decreases |paras|
  {
    if paras != [] {
      assert forall k :: 0 <= k < |paras[1..]| ==> paras[1..][k] == paras[k + 1];
      AllPlainFrom(paras[1..]);
    }
  }

  /** At a blank line followed by a paragraph the numbered separator does not match. */
  lemma NoNumberedAtBreak(s: string, end: nat, rest: seq<string>)
    requires 0 < end && end + 2 <= |s| && s[end] == '\n' && s[end + 1] == '\n'
    requires rest != [] && s[end + 2..] == Paragraphs(rest) && AllPlain(rest)
    ensures MatchAt(Numbered, s, end).None? && MatchAt(Numbered, s, end + 1).None?
  {
    NoMarkerAtParagraph(s, end + 2, rest);
    NoNumberedAtBlankLine(s, end);
  }

  /** No match before a blank line, at it, or after it: no match from p on. */
  lemma NoNumberedAround(s: string, p: nat, end: nat)
    requires p < end && end + 2 <= |s|
    requires forall q :: p <= q < end ==> MatchAt(Numbered, s, q).None?
    requires MatchAt(Numbered, s, end).None? && MatchAt(Numbered, s, end + 1).None?
    requires forall q :: end + 2 <= q < |s| ==> MatchAt(Numbered, s, q).None?
    ensures forall q :: p <= q < |s| ==> MatchAt(Numbered, s, q).None?
  {
  }

  /** Neither alternative of the numbered separator matches anywhere from a paragraph head
      on. */
  lemma {:induction false} NoNumberedFrom(s: string, p: nat, paras: seq<string>)
    requires p <= |s| && paras != []
    requires s[p..] == Paragraphs(paras)
    requires AllPlain(paras)
    ensures forall q :: p <= q < |s| ==> MatchAt(Numbered, s, q).None?
    decreases |paras|
  {
    var end := p + |paras[0]|;
    NoNumberedInParagraph(s, p, paras);
    if |paras| > 1 {
      ParagraphHead(s, p, paras);
      assert paras[0] != [];
      NoNumberedAtBreak(s, end, paras[1..]);
      assert forall q :: end + 2 <= q < |s| ==> MatchAt(Numbered, s, q).None? by {
        NoNumberedFrom(s, end + 2, paras[1..]);
      }
      NoNumberedAround(s, p, end);
    } else {
      ParagraphHead(s, p, paras);
    }
  }

  /** Inside a paragraph there is no line break, so no blank line starts there. */
  lemma {:induction false} NoBreakInParagraph(s: string, p: nat, paras: seq<string>)
    requires p <= |s| && paras != []
    requires s[p..] == Paragraphs(paras)
    requires AllPlain(paras)
    ensures p + |paras[0]| <= |s|
    ensures forall i :: p <= i < p + |paras[0]| ==> MatchAt(Paragraph, s, i).None?
  {
    var a := paras[0];
    ParagraphHead(s, p, paras);
    forall i | p <= i < p + |a| ensures MatchAt(Paragraph, s, i).None? {
      assert s[i] == a[i - p];
    }
  }

  /** A plain paragraph starts with a character that is not white space. */
  lemma {:induction false} ParagraphStart(s: string, p: nat, paras: seq<string>)
    requires p <= |s| && paras != []
    requires s[p..] == Paragraphs(paras)
    requires AllPlain(paras)
    ensures p < |s| && !IsWhite(s[p])
  {
    ParagraphHead(s, p, paras);
    assert s[p] == paras[0][0];
  }

  /** A blank line followed by a non-white character is one paragraph separator. */
  lemma {:induction false} BlankLineMatch(s: string, q: nat)
    requires q + 2 < |s| && s[q] == '\n' && s[q + 1] == '\n' && !IsWhite(s[q + 2])
    ensures MatchAt(Paragraph, s, q) == Some(q + 2)
  {
    assert SkipWhite(s, q + 1) == q + 2;
  }

  /** Splitting at blank lines gives the paragraphs back, from any position where they start. */
  lemma {:induction false} ParagraphPieces(s: string, p: nat, paras: seq<string>)
    requires p <= |s| && paras != []
    requires s[p..] == Paragraphs(paras)
    requires AllPlain(paras)
    ensures Pieces(Paragraph, s, p, p) == paras
    decreases |paras|
  {
    var end := p + |paras[0]|;
    ParagraphHead(s, p, paras);
    assert Pieces(Paragraph, s, p, p) == Pieces(Paragraph, s, p, end) by {
      NoBreakInParagraph(s, p, paras);
      PiecesSkip(Paragraph, s, p, p, end);
    }
    if |paras| > 1 {
      assert MatchAt(Paragraph, s, end) == Some(end + 2) by {
        ParagraphStart(s, end + 2, paras[1..]);
        BlankLineMatch(s, end);
      }
      PiecesCut(Paragraph, s, p, end, end + 2);
      ParagraphPieces(s, end + 2, paras[1..]);
      Collections.ConsFirst(paras);
    }
  }

  /** A match at q closes the piece that started at p; the next starts where the match ends. */
  lemma PiecesCut(sep: Separator, s: string, p: nat, q: nat, e: nat)
    requires p <= q < |s| && MatchAt(sep, s, q) == Some(e)
    ensures Pieces(sep, s, p, q) == [s[p..q]] + Pieces(sep, s, e, e)
  {
  }

  /** Round trip: two or more plain paragraphs separated by blank lines are split back into
      exactly those paragraphs. */
  lemma {:induction false} ParagraphsRoundTrip(paras: seq<string>)
    requires |paras| >= 2
    requires forall k :: 0 <= k < |paras| ==> PlainParagraph(paras[k])
    ensures SplitQuestions(Paragraphs(paras)) == paras
  {
    var text := Paragraphs(paras);
    assert text[0..] == text;
    assert PlainParagraph(paras[0]);
    assert text[0] == paras[0][0] by {
      assert text == paras[0] + "\n\n" + Paragraphs(paras[1..]);
    }
    AllPlainFrom(paras);
    NoNumberedFrom(text, 0, paras);
    ParagraphPieces(text, 0, paras);
    assert TrimAll(paras) == paras by {
      forall k | 0 <= k < |paras| ensures Trim(paras[k]) == paras[k] {
        assert PlainParagraph(paras[k]);
        TrimFixed(paras[k]);
      }
    }
    FilterKeepsAll(paras, NonEmpty);
  }

  // ---------------------------------------------------------------- numbered round trip

  /** An item of a numbered list: one non-empty trimmed line. */
  predicate PlainItem(q: string) {
    q != [] && Trimmed(q) && '\n' !in q
  }

  /** The numbered items, one per line: "1. first\n2. second\n...". */
  function NumberedList(qs: seq<string>): string {
    Join(NumberedLines(qs, 1), "\n")
  }

  /** A list label: a non-empty run of decimal digits. */
  predicate Label(d: string) {
    d != [] && forall i :: 0 <= i < |d| ==> IsDigit(d[i])
  }

  /** "label. item" for every item, with its own label. */
  function Labelled(labels: seq<string>, qs: seq<string>): (r: seq<string>)
    requires |labels| == |qs|
    ensures |r| == |qs|
  {
    if qs == [] then [] else [labels[0] + ". " + qs[0]] + Labelled(labels[1..], qs[1..])
  }

  /** The numbers n, n+1, ..., k of them, written out. */
  function Numbers(n: nat, k: nat): (r: seq<string>)
    ensures |r| == k
    ensures forall i :: 0 <= i < k ==> Label(r[i])
    decreases k
  {
    if k == 0 then [] else [NatToString(n)] + Numbers(n + 1, k - 1)
  }

  /** Numbering from n is labelling with the numbers from n. */
  lemma {:induction false} NumberedLinesLabelled(qs: seq<string>, n: nat)
    ensures NumberedLines(qs, n) == Labelled(Numbers(n, |qs|), qs)
    decreases |qs|
  {
    if qs != [] {
      NumberedLinesLabelled(qs[1..], n + 1);
      assert Numbers(n, |qs|)[1..] == Numbers(n + 1, |qs| - 1);
    }
  }

  /** The first labelled line of the text from p on, and what follows it. */
  lemma {:induction false} LabelledHead(s: string, p: nat, labels: seq<string>, qs: seq<string>)
    requires p <= |s| && |labels| == |qs| && qs != [] && Label(labels[0])
    requires s[p..] == Join(Labelled(labels, qs), "\n")
    ensures var m := |labels[0]|;
            var end := p + m + 2 + |qs[0]|;
            end <= |s| && s[p + m] == '.' && s[p + m + 1] == ' ' && s[p + m + 2..end] == qs[0] &&
            (forall x :: p <= x < p + m ==> IsDigit(s[x])) &&
            (|qs| == 1 ==> end == |s|) &&
            (|qs| > 1 ==> end < |s| && s[end] == '\n' && s[end + 1..] == Join(Labelled(labels[1..], qs[1..]), "\n"))
  {
    var m := |labels[0]|;
    var line := labels[0] + ". " + qs[0];
    var end := p + |line|;
    assert Labelled(labels, qs) == [line] + Labelled(labels[1..], qs[1..]);
    if |qs| > 1 {
      var rest := Join(Labelled(labels[1..], qs[1..]), "\n");
      JoinCons(line, "\n", Labelled(labels[1..], qs[1..]));
      assert s[p..] == line + "\n" + rest;
      assert s[p..end] == line;
      assert s[end] == '\n';
      assert s[end + 1..] == rest;
    } else {
      assert s[p..] == line;
    }
    assert s[p..end] == line;
    assert line[m] == '.' && line[m + 1] == ' ' && line[m + 2..] == qs[0];
    assert s[p + m + 2..end] == line[m + 2..];
    assert forall x :: p <= x < p + m ==> s[x] == line[x - p] == labels[0][x - p];
  }

  /** Inside an item the numbered separator matches nowhere: it needs a line break or the
      start of the text. */
  lemma NoNumberedInItem(s: string, a: nat, b: nat)
    requires 0 < a <= b <= |s|
    requires forall x :: a <= x < b ==> s[x] != '\n'
    ensures forall x :: a <= x < b ==> MatchAt(Numbered, s, x).None?
  {
  }

  /** The scan passes over an item without cutting. */
  lemma NumberedItemSkip(s: string, e: nat, q: string)
    requires 0 < e && e + |q| <= |s| && s[e..e + |q|] == q && '\n' !in q
    ensures Pieces(Numbered, s, e, e) == Pieces(Numbered, s, e, e + |q|)
  {
    assert forall x :: e <= x < e + |q| ==> s[x] == q[x - e];
    NoNumberedInItem(s, e, e + |q|);
    PiecesSkip(Numbered, s, e, e, e + |q|);
  }

  /** The item q at e, then a line break and the next marker "<digits>. " of m digits,
      followed by a visible character. */
  predicate ItemThenMarker(s: string, e: nat, q: string, m: nat) {
    0 < e && 0 < m && e + |q| + m + 3 < |s| && s[e..e + |q|] == q && '\n' !in q &&
    s[e + |q|] == '\n' && (forall x :: e + |q| + 1 <= x < e + |q| + 1 + m ==> IsDigit(s[x])) &&
    s[e + |q| + 1 + m] == '.' && s[e + |q| + 2 + m] == ' ' && !IsWhite(s[e + |q| + m + 3])
  }

  /** Such an item is one piece, and the split goes on where the next item starts. */
  lemma NumberedItemCut(s: string, e: nat, q: string, m: nat)
    requires ItemThenMarker(s, e, q, m)
    ensures Pieces(Numbered, s, e, e) == [q] + Pieces(Numbered, s, e + |q| + m + 3, e + |q| + m + 3)
  {
    var end := e + |q|;
    var e' := end + m + 3;
    ItemMarkerFound(s, end + 1, end + 1, end + 1 + m, e');
    assert MatchAt(Numbered, s, end) == Some(e');
    NumberedItemSkip(s, e, q);
    PiecesCut(Numbered, s, e, end, e');
  }

  /** An item that runs to the end of the text is the last piece. */
  lemma NumberedItemLast(s: string, e: nat, q: string)
    requires 0 < e && e + |q| == |s| && s[e..] == q && '\n' !in q
    ensures Pieces(Numbered, s, e, e) == [q]
  {
    NumberedItemSkip(s, e, q);
  }

  /** What follows the first item when more lines follow: a line break and the rest. */
  lemma LabelledTail(s: string, p: nat, labels: seq<string>, qs: seq<string>)
    requires p <= |s| && |labels| == |qs| && |qs| > 1 && Label(labels[0])
    requires s[p..] == Join(Labelled(labels, qs), "\n")
    ensures var end := p + |labels[0]| + 2 + |qs[0]|;
            end < |s| && s[end + 1..] == Join(Labelled(labels[1..], qs[1..]), "\n")
  {
    LabelledHead(s, p, labels, qs);
  }

  /** In a list of two or more lines, the first item is followed by the next marker. */
  lemma LabelledNext(s: string, p: nat, labels: seq<string>, qs: seq<string>)
    requires p <= |s| && |labels| == |qs| && |qs| > 1 && Label(labels[0]) && Label(labels[1])
    requires s[p..] == Join(Labelled(labels, qs), "\n")
    requires PlainItem(qs[0]) && PlainItem(qs[1])
    ensures ItemThenMarker(s, p + |labels[0]| + 2, qs[0], |labels[1]|)
  {
    var e := p + |labels[0]| + 2;
    var end := e + |qs[0]|;
    LabelledHead(s, p, labels, qs);
    LabelledHead(s, end + 1, labels[1..], qs[1..]);
    assert s[end + 1 + |labels[1]| + 2] == qs[1][0];
  }

  /** A list of one line gives its item as the one piece. */
  lemma LabelledLast(s: string, p: nat, labels: seq<string>, qs: seq<string>)
    requires p <= |s| && |labels| == |qs| == 1 && Label(labels[0]) && PlainItem(qs[0])
    requires s[p..] == Join(Labelled(labels, qs), "\n")
    ensures p + |labels[0]| + 2 + |qs[0]| == |s| && s[p + |labels[0]| + 2..] == qs[0]
  {
    LabelledHead(s, p, labels, qs);
  }

  /** The items lie one after another from e on: each but the last followed by a line break and
      the next marker, whose digits are as many as the next label's; the last running to the end
      of the text. The first label is not looked at. */
  predicate Chain(s: string, e: nat, labels: seq<string>, qs: seq<string>)
    decreases |qs|
  {
    |labels| == |qs| > 0 &&
    if |qs| == 1 then
      0 < e && e + |qs[0]| == |s| && s[e..] == qs[0] && '\n' !in qs[0]
    else
      ItemThenMarker(s, e, qs[0], |labels[1]|) &&
      Chain(s, e + |qs[0]| + |labels[1]| + 3, labels[1..], qs[1..])
  }

  /** An item and the marker after it keep their shape in a text that ends with this one. */
  lemma ItemThenMarkerShift(s: string, t: string, d: nat, e: nat, q: string, m: nat)
    requires d <= |s| && s[d..] == t && ItemThenMarker(t, e, q, m)
    ensures ItemThenMarker(s, e + d, q, m)
  {
    assert forall x :: 0 <= x < |t| ==> s[x + d] == t[x];
    assert s[e + d..e + d + |q|] == t[e..e + |q|];
  }

  /** A chain in a text t is a chain, d characters on, in a text s that ends with t from d on. */
  lemma {:induction false} ChainShift(s: string, t: string, d: nat, e: nat, labels: seq<string>, qs: seq<string>)
    requires d <= |s| && s[d..] == t && Chain(t, e, labels, qs)
    ensures Chain(s, e + d, labels, qs)
    decreases |qs|
  {
    if |qs| == 1 {
      assert s[e + d..] == t[e..];
    } else {
      ChainShift(s, t, d, e + |qs[0]| + |labels[1]| + 3, labels[1..], qs[1..]);
      ItemThenMarkerShift(s, t, d, e, qs[0], |labels[1]|);
    }
  }

  /** An item followed by the next marker, then the chain of a text that the rest of s is, make
      a chain of s. */
  lemma ChainCons(s: string, t: string, d: nat, labels: seq<string>, qs: seq<string>)
    requires |labels| == |qs| > 1 && d == |labels[0]| + 2 + |qs[0]| + 1 && d <= |s| && s[d..] == t
    requires ItemThenMarker(s, |labels[0]| + 2, qs[0], |labels[1]|)
    requires Chain(t, |labels[1..][0]| + 2, labels[1..], qs[1..])
    ensures Chain(s, |labels[0]| + 2, labels, qs)
  {
    ChainShift(s, t, d, |labels[1]| + 2, labels[1..], qs[1..]);
  }

  /** The joined labelled lines form such a chain, from the end of the first marker on. */
  lemma {:induction false} ChainJoin(labels: seq<string>, qs: seq<string>)
    requires |labels| == |qs| && qs != []
    requires forall k :: 0 <= k < |qs| ==> Label(labels[k]) && PlainItem(qs[k])
    ensures Chain(Join(Labelled(labels, qs), "\n"), |labels[0]| + 2, labels, qs)
    decreases |qs|
  {
    var t := Join(Labelled(labels, qs), "\n");
    assert t[0..] == t;
    assert Label(labels[0]) && PlainItem(qs[0]);
    if |qs| > 1 {
      var d := |labels[0]| + 2 + |qs[0]| + 1;
      assert d <= |t| && t[d..] == Join(Labelled(labels[1..], qs[1..]), "\n") by {
        LabelledTail(t, 0, labels, qs);
      }
      assert ItemThenMarker(t, |labels[0]| + 2, qs[0], |labels[1]|) by {
        assert Label(labels[1]) && PlainItem(qs[1]);
        LabelledNext(t, 0, labels, qs);
      }
      assert forall k :: 0 <= k < |qs[1..]| ==> Label(labels[1..][k]) && PlainItem(qs[1..][k]);
      ChainJoin(labels[1..], qs[1..]);
      ChainCons(t, Join(Labelled(labels[1..], qs[1..]), "\n"), d, labels, qs);
    } else {
      LabelledLast(t, 0, labels, qs);
    }
  }

  /** Along a chain, the split from the start of the first item gives the items. */
  lemma {:induction false} PiecesChain(s: string, e: nat, labels: seq<string>, qs: seq<string>)
    requires Chain(s, e, labels, qs)
    ensures e <= |s| && Pieces(Numbered, s, e, e) == qs
    decreases |qs|
  {
    if |qs| == 1 {
      NumberedItemLast(s, e, qs[0]);
      assert [qs[0]] == qs;
    } else {
      var e' := e + |qs[0]| + |labels[1]| + 3;
      assert Pieces(Numbered, s, e', e') == qs[1..] by {
        PiecesChain(s, e', labels[1..], qs[1..]);
      }
      NumberedItemCut(s, e, qs[0], |labels[1]|);
      Collections.ConsFirst(qs);
    }
  }

  /** The numbered list starts with "1. " and a visible character. */
  lemma NumberedListHead(qs: seq<string>)
    requires qs != [] && PlainItem(qs[0])
    ensures var text := NumberedList(qs);
            3 < |text| && IsDigit(text[0]) && text[1] == '.' && text[2] == ' ' && !IsWhite(text[3])
  {
    var text := NumberedList(qs);
    var labels := Numbers(1, |qs|);
    assert text[0..] == text;
    assert labels[0] == NatToString(1) == "1";
    NumberedLinesLabelled(qs, 1);
    LabelledHead(text, 0, labels, qs);
    assert text[3] == qs[0][0];
  }

  /** An item marker at the very start of the text is a numbered separator there. */
  lemma MarkerAtStart(s: string)
    requires 3 < |s| && IsDigit(s[0]) && s[1] == '.' && s[2] == ' ' && !IsWhite(s[3])
    ensures MatchAt(Numbered, s, 0) == Some(3) && Matches(Numbered, s) && !IsBlank(s)
  {
    ItemMarkerFound(s, 0, 0, 1, 3);
    if IsBlank(s) {
      BlankAt(s, 3);
    }
  }

  /** The numbered list starts with a marker at the start of the text: the split gives an
      empty first piece, then the items. */
  lemma NumberedListPieces(qs: seq<string>)
    requires qs != []
    requires forall k :: 0 <= k < |qs| ==> PlainItem(qs[k])
    ensures Matches(Numbered, NumberedList(qs)) && !IsBlank(NumberedList(qs))
    ensures Pieces(Numbered, NumberedList(qs), 0, 0) == [""] + qs
  {
    var text := NumberedList(qs);
    assert Matches(Numbered, text) && !IsBlank(text) &&
           Pieces(Numbered, text, 0, 0) == [""] + Pieces(Numbered, text, 3, 3) by {
      assert PlainItem(qs[0]);
      NumberedListHead(qs);
      MarkerAtStart(text);
      PiecesCut(Numbered, text, 0, 0, 3);
    }
    assert Pieces(Numbered, text, 3, 3) == qs by {
      var labels := Numbers(1, |qs|);
      assert text[0..] == text;
      assert labels[0] == NatToString(1) == "1";
      NumberedLinesLabelled(qs, 1);
      ChainJoin(labels, qs);
      PiecesChain(text, 3, labels, qs);
    }
  }

  /** Round trip: two or more one-line items, numbered "1. ", "2. ", ... on consecutive lines,
      are split back into exactly those items. */
  lemma {:induction false} NumberedRoundTrip(qs: seq<string>)
    requires |qs| >= 2
    requires forall k :: 0 <= k < |qs| ==> PlainItem(qs[k])
    ensures SplitQuestions(NumberedList(qs)) == qs
  {
    NumberedListPieces(qs);
    var pieces := [""] + qs;
    assert TrimAll(pieces) == pieces by {
      forall k | 0 <= k < |pieces| ensures Trim(pieces[k]) == pieces[k] {
        if k > 0 {
          assert PlainItem(qs[k - 1]);
          TrimFixed(qs[k - 1]);
        }
      }
    }
    assert pieces[1..] == qs;
    FilterKeepsAll(qs, NonEmpty);
    assert Cleaned(pieces) == qs;
  }
}

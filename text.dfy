/** Character and string helpers shared by every module: the model's stand-ins
    for the .NET and JavaScript string methods the system calls (Trim,
    ToLowerInvariant, Contains, StartsWith, Split, string.Join, int.ToString).
    Whitespace and case folding are the ASCII ones. */
module Text {
  import opened Wrappers

  /** Whitespace as String.Trim, string.IsNullOrWhiteSpace and the regex class \s see it. */
  predicate IsWhite(c: char) {
    c == ' ' || c == '\t' || c == '\n' || c == '\r' || c == '\U{B}' || c == '\U{C}'
  }

  /** string.IsNullOrWhiteSpace for a non-null string (and `!s.trim()` in JavaScript). */
  predicate IsBlank(s: string) {
    s == [] || (IsWhite(s[0]) && IsBlank(s[1..]))
  }

  /** A blank string has only blank prefixes. */
  lemma {:induction false} BlankPrefix(a: string, b: string)
    requires IsBlank(a + b)
    ensures IsBlank(a)
    decreases |a|
  {
    if a != [] {
      assert (a + b)[1..] == a[1..] + b;
      BlankPrefix(a[1..], b);
    }
  }

  /** Every character of a blank string is white. */
  lemma {:induction false} BlankAt(s: string, i: nat)
    requires IsBlank(s) && i < |s|
    ensures IsWhite(s[i])
  {
    if i > 0 {
      BlankAt(s[1..], i - 1);
    }
  }

  predicate IsDigit(c: char) {
    '0' <= c <= '9'
  }

  function TrimStart(s: string): string {
    if |s| > 0 && IsWhite(s[0]) then TrimStart(s[1..]) else s
  }

  function TrimEnd(s: string): string {
    if |s| > 0 && IsWhite(s[|s| - 1]) then TrimEnd(s[..|s| - 1]) else s
  }

  /** TrimStart drops a whitespace prefix and stops at a non-white character. */
  lemma {:induction false} TrimStartSlice(s: string)
    ensures |TrimStart(s)| <= |s| && TrimStart(s) == s[|s| - |TrimStart(s)|..]
    ensures TrimStart(s) == [] || !IsWhite(TrimStart(s)[0])
    ensures forall i :: 0 <= i < |s| - |TrimStart(s)| ==> IsWhite(s[i])
    decreases |s|
  {
    if |s| > 0 && IsWhite(s[0]) {
      TrimStartSlice(s[1..]);
      forall i | 0 <= i < |s| - |TrimStart(s)| ensures IsWhite(s[i]) {
        if i > 0 { assert s[i] == s[1..][i - 1]; }
      }
    }
  }

  /** TrimEnd drops a whitespace suffix and stops at a non-white character. */
  lemma {:induction false} TrimEndSlice(s: string)
    ensures |TrimEnd(s)| <= |s| && TrimEnd(s) == s[..|TrimEnd(s)|]
    ensures TrimEnd(s) == [] || !IsWhite(TrimEnd(s)[|TrimEnd(s)| - 1])
    ensures forall i :: |TrimEnd(s)| <= i < |s| ==> IsWhite(s[i])
    decreases |s|
  {
    if |s| > 0 && IsWhite(s[|s| - 1]) {
      TrimEndSlice(s[..|s| - 1]);
      forall i | |TrimEnd(s)| <= i < |s| ensures IsWhite(s[i]) {
        if i < |s| - 1 { assert s[i] == s[..|s| - 1][i]; }
      }
    }
  }

  /** String.Trim(): drops leading and trailing whitespace. */
  function Trim(s: string): (r: string)
    ensures |r| <= |s|
    ensures r == [] || (!IsWhite(r[0]) && !IsWhite(r[|r| - 1]))
  {
    TrimStartSlice(s);
    TrimEndSlice(TrimStart(s));
    TrimEnd(TrimStart(s))
  }

  /** The trimmed string is a slice of the original whose cut-off ends are all whitespace. */
  lemma TrimIsSlice(s: string) returns (a: nat, b: nat)
    ensures a <= b <= |s| && Trim(s) == s[a..b]
    ensures forall i :: 0 <= i < a ==> IsWhite(s[i])
    ensures forall i :: b <= i < |s| ==> IsWhite(s[i])
  {
    var t := TrimStart(s);
    TrimStartSlice(s);
    TrimEndSlice(t);
    a := |s| - |t|;
    b := a + |TrimEnd(t)|;
    assert t == s[a..];
    assert TrimEnd(t) == t[..b - a];
    forall i | b <= i < |s| ensures IsWhite(s[i]) {
      assert s[i] == t[i - a];
    }
  }

  lemma TrimBlank(s: string)
    ensures IsBlank(s) <==> Trim(s) == []
  {
    var a, b := TrimIsSlice(s);
    if Trim(s) == [] {
      forall i | 0 <= i < |s| ensures IsWhite(s[i]) {
        if a <= i < b { assert false; }
      }
    } else {
      assert !IsWhite(s[a]);
    }
  }

  /** A string whose ends are not whitespace is its own trim. */
  lemma TrimFixed(s: string)
    requires s == [] || (!IsWhite(s[0]) && !IsWhite(s[|s| - 1]))
    ensures Trim(s) == s
  {
  }

  /** TrimStart passes over a blank prefix. */
  lemma {:induction false} TrimStartBlank(pre: string, x: string)
    requires IsBlank(pre)
    ensures TrimStart(pre + x) == TrimStart(x)
    decreases |pre|
  {
    if pre != [] {
      assert (pre + x)[0] == pre[0] && IsWhite(pre[0]);
      assert (pre + x)[1..] == pre[1..] + x;
      TrimStartBlank(pre[1..], x);
    } else {
      assert pre + x == x;
    }
  }

  /** TrimEnd passes over a blank suffix. */
  lemma {:induction false} TrimEndBlank(x: string, post: string)
    requires IsBlank(post)
    ensures TrimEnd(x + post) == TrimEnd(x)
    decreases |post|
  {
    if post != [] {
      var init := post[..|post| - 1];
      BlankAt(post, |post| - 1);
      assert post == init + [post[|post| - 1]];
      BlankPrefix(init, [post[|post| - 1]]);
      assert (x + post)[|x + post| - 1] == post[|post| - 1];
      assert (x + post)[..|x + post| - 1] == x + init;
      TrimEndBlank(x, init);
    } else {
      assert x + post == x;
    }
  }

  /** Blank padding around a string with non-white ends trims away. */
  lemma TrimAround(pre: string, a: string, post: string)
    requires IsBlank(pre) && IsBlank(post)
    requires a != [] && !IsWhite(a[0]) && !IsWhite(a[|a| - 1])
    ensures Trim(pre + a + post) == a
  {
    assert pre + a + post == pre + (a + post);
    TrimStartBlank(pre, a + post);
    assert (a + post)[0] == a[0];
    TrimEndBlank(a, post);
  }

  lemma TrimIdempotent(s: string)
    ensures Trim(Trim(s)) == Trim(s)
  {
    TrimFixed(Trim(s));
  }

  /** Trimming never introduces a character: every character of Trim(s) occurs in s. */
  lemma TrimChars(s: string, c: char)
    requires c in Trim(s)
    ensures c in s
  {
    var a, b := TrimIsSlice(s);
    var i :| 0 <= i < |Trim(s)| && Trim(s)[i] == c;
    assert s[a + i] == c;
  }

  lemma TrimNotBlank(s: string)
    requires !IsBlank(s)
    ensures !IsBlank(Trim(s)) && Trim(s) != []
  {
    TrimBlank(s);
  }

  // ---------------------------------------------------------------- case

  function LowerChar(c: char): char {
    if 'A' <= c <= 'Z' then (c as int + 32) as char else c
  }

  function UpperChar(c: char): char {
    if 'a' <= c <= 'z' then (c as int - 32) as char else c
  }

  /** ToLowerInvariant / toLowerCase, restricted to ASCII letters. */
  function Lower(s: string): (r: string)
    ensures |r| == |s|
    ensures forall i :: 0 <= i < |s| ==> r[i] == LowerChar(s[i])
  {
    seq(|s|, i requires 0 <= i < |s| => LowerChar(s[i]))
  }

  /** toUpperCase, restricted to ASCII letters. */
  function Upper(s: string): (r: string)
    ensures |r| == |s|
    ensures forall i :: 0 <= i < |s| ==> r[i] == UpperChar(s[i])
  {
    seq(|s|, i requires 0 <= i < |s| => UpperChar(s[i]))
  }

  lemma LowerIdempotent(s: string)
    ensures Lower(Lower(s)) == Lower(s)
  {
  }

  lemma LowerSlice(s: string, i: nat, j: nat)
    requires i <= j <= |s|
    ensures Lower(s[i..j]) == Lower(s)[i..j]
  {
  }

  lemma LowerConcat(a: string, b: string)
    ensures Lower(a + b) == Lower(a) + Lower(b)
  {
  }

  // ---------------------------------------------------------------- search

  predicate StartsWith(s: string, prefix: string) {
    |prefix| <= |s| && s[..|prefix|] == prefix
  }

  predicate EndsWith(s: string, suffix: string) {
    |suffix| <= |s| && s[|s| - |suffix|..] == suffix
  }

  /** String.Contains(string) / String.includes (ordinal). */
  predicate Contains(s: string, sub: string)
    decreases |s|
  {
    StartsWith(s, sub) || (|s| > 0 && Contains(s[1..], sub))
  }

  /** StartsWith(.., StringComparison.OrdinalIgnoreCase), or an anchored regex /^word/i:
      the characters agree after case folding. */
  predicate StartsWithCI(s: string, prefix: string) {
    |prefix| <= |s| && forall i :: 0 <= i < |prefix| ==> LowerChar(s[i]) == LowerChar(prefix[i])
  }

  /** Contains, or IndexOf(..) >= 0, with StringComparison.OrdinalIgnoreCase (or a regex /i). */
  predicate ContainsCI(s: string, sub: string)
    decreases |s|
  {
    StartsWithCI(s, sub) || (|s| > 0 && ContainsCI(s[1..], sub))
  }

  /** Ordinal case-insensitive equality (string.Equals(.., OrdinalIgnoreCase)). */
  predicate EqualsCI(a: string, b: string) {
    |a| == |b| && StartsWithCI(a, b)
  }

  /** The case-insensitive search is the ordinal search in the lower-cased strings. */
  lemma {:induction false} ContainsCILower(s: string, sub: string)
    ensures ContainsCI(s, sub) <==> Contains(Lower(s), Lower(sub))
    decreases |s|
  {
    assert StartsWithCI(s, sub) <==> StartsWith(Lower(s), Lower(sub)) by {
      if |sub| <= |s| {
        assert forall i :: 0 <= i < |sub| ==> Lower(s)[..|sub|][i] == Lower(s)[i];
      }
    }
    if |s| > 0 {
      ContainsCILower(s[1..], sub);
      LowerSlice(s, 1, |s|);
      assert s[1..|s|] == s[1..];
      assert Lower(s)[1..|s|] == Lower(s)[1..];
    }
  }

  lemma ContainsAt(s: string, sub: string, i: nat)
    requires i + |sub| <= |s| && s[i..i + |sub|] == sub
    ensures Contains(s, sub)
    decreases i
  {
    if i > 0 {
      assert s[1..][i - 1..i - 1 + |sub|] == sub;
      ContainsAt(s[1..], sub, i - 1);
    }
  }

  lemma ContainsWitness(s: string, sub: string) returns (i: nat)
    requires Contains(s, sub)
    ensures i + |sub| <= |s| && s[i..i + |sub|] == sub
    decreases |s|
  {
    if StartsWith(s, sub) {
      i := 0;
    } else {
      var j := ContainsWitness(s[1..], sub);
      i := j + 1;
      assert s[i..i + |sub|] == s[1..][j..j + |sub|];
    }
  }

  lemma ContainsMiddle(a: string, b: string, c: string)
    ensures Contains(a + b + c, b)
  {
    assert (a + b + c)[|a|..|a| + |b|] == b;
    ContainsAt(a + b + c, b, |a|);
  }

  /** Appending text keeps an occurrence. */
  lemma ContainsLeft(a: string, b: string, sub: string)
    requires Contains(a, sub)
    ensures Contains(a + b, sub)
  {
    var i := ContainsWitness(a, sub);
    assert (a + b)[i..i + |sub|] == a[i..i + |sub|];
    ContainsAt(a + b, sub, i);
  }

  /** Prepending text keeps an occurrence. */
  lemma ContainsRight(a: string, b: string, sub: string)
    requires Contains(b, sub)
    ensures Contains(a + b, sub)
  {
    var i := ContainsWitness(b, sub);
    assert (a + b)[|a| + i..|a| + i + |sub|] == b[i..i + |sub|];
    ContainsAt(a + b, sub, |a| + i);
  }

  /** An occurrence inside a slice is an occurrence in the whole string. */
  lemma ContainsSlice(s: string, i: nat, j: nat, sub: string)
    requires i <= j <= |s| && Contains(s[i..j], sub)
    ensures Contains(s, sub)
  {
    var k := ContainsWitness(s[i..j], sub);
    var t := s[i..j];
    assert k + |sub| <= j - i;
    assert forall m :: 0 <= m < |sub| ==> s[i + k + m] == t[k + m] == sub[m];
    assert s[i + k..i + k + |sub|] == sub;
    ContainsAt(s, sub, i + k);
  }

  /** A character never occurs in a string without that character. */
  lemma NotContainsChar(s: string, c: char)
    requires c !in s
    ensures !Contains(s, [c])
    decreases |s|
  {
    if |s| > 0 {
      assert s[0] in s;
      assert c !in s[1..] by {
        forall d | d in s[1..] ensures d in s { }
      }
      NotContainsChar(s[1..], c);
    }
  }

  /** String.LastIndexOf(char): the index of the last occurrence of c, or -1. */
  function LastIndexOf(s: string, c: char): (i: int)
    ensures -1 <= i < |s|
    ensures i >= 0 ==> s[i] == c
    ensures forall k :: i < k < |s| ==> s[k] != c
  {
    if s == [] then -1
    else if s[|s| - 1] == c then |s| - 1
    else LastIndexOf(s[..|s| - 1], c)
  }


  // ---------------------------------------------------------------- replace

  /** String.Replace(pattern, replacement) (ordinal): every non-overlapping occurrence, scanning left to right. */
  function ReplaceAll(s: string, pat: string, rep: string): string
    requires pat != []
    decreases |s|
  {
    if StartsWith(s, pat) then rep + ReplaceAll(s[|pat|..], pat, rep)
    else if s == [] then []
    else [s[0]] + ReplaceAll(s[1..], pat, rep)
  }

  /** String.Replace(char, char). */
  function ReplaceChar(s: string, pat: char, rep: char): (r: string)
    ensures |r| == |s|
    ensures forall i :: 0 <= i < |s| ==> r[i] == (if s[i] == pat then rep else s[i])
  {
    seq(|s|, i requires 0 <= i < |s| => if s[i] == pat then rep else s[i])
  }

  /** Replacing a text by itself changes nothing. */
  lemma {:induction false} ReplaceAllSame(s: string, x: string)
    requires x != []
    ensures ReplaceAll(s, x, x) == s
    decreases |s|
  {
    if StartsWith(s, x) {
      ReplaceAllSame(s[|x|..], x);
      assert x + s[|x|..] == s;
    } else if s != [] {
      ReplaceAllSame(s[1..], x);
      assert [s[0]] + s[1..] == s;
    }
  }

  /** A string too short to hold the pattern is left alone. */
  lemma {:induction false} ReplaceAllShort(s: string, x: string, y: string)
    requires x != [] && |s| < |x|
    ensures ReplaceAll(s, x, y) == s
    decreases |s|
  {
    if s != [] {
      ReplaceAllShort(s[1..], x, y);
      assert [s[0]] + s[1..] == s;
    }
  }

  /** In a string shorter than two copies of the pattern that holds the pattern, exactly one
      occurrence is replaced: the new text appears and the length changes by |y| - |x|. */
  lemma {:induction false} ReplaceOnce(s: string, x: string, y: string)
    requires x != [] && Contains(s, x) && |s| < 2 * |x|
    ensures |ReplaceAll(s, x, y)| == |s| - |x| + |y|
    ensures Contains(ReplaceAll(s, x, y), y)
    decreases |s|
  {
    if StartsWith(s, x) {
      ReplaceAllShort(s[|x|..], x, y);
      assert ReplaceAll(s, x, y) == y + s[|x|..];
      ContainsAt(y + s[|x|..], y, 0);
    } else {
      ReplaceOnce(s[1..], x, y);
      var r := ReplaceAll(s[1..], x, y);
      assert ReplaceAll(s, x, y) == [s[0]] + r;
      assert ([s[0]] + r)[1..] == r;
    }
  }

  // ---------------------------------------------------------------- split and join

  /** String.Split(separators) without options: the pieces between separators, empties kept. */
  function Split(s: string, seps: set<char>): (r: seq<string>)
    ensures |r| >= 1
    decreases |s|
  {
    if |s| == 0 then [""]
    else if s[0] in seps then [""] + Split(s[1..], seps)
    else
      var rest := Split(s[1..], seps);
      [[s[0]] + rest[0]] + rest[1..]
  }

  /** The pieces of a split contain no separator. */
  lemma SplitPiecesClean(s: string, seps: set<char>)
    ensures forall k, c :: 0 <= k < |Split(s, seps)| && c in Split(s, seps)[k] ==> c !in seps
    decreases |s|
  {
    if |s| > 0 {
      SplitPiecesClean(s[1..], seps);
    }
  }

  /** A string free of separators splits into itself. */
  lemma SplitNoSep(s: string, seps: set<char>)
    requires forall c :: c in s ==> c !in seps
    ensures Split(s, seps) == [s]
    decreases |s|
  {
    if |s| > 0 {
      SplitNoSep(s[1..], seps);
      assert [s[0]] + s[1..] == s;
    }
  }

  /** Splitting `a + [sep] + b`, with a free of separators, yields a, then b's pieces. */
  lemma SplitCons(a: string, sep: char, b: string, seps: set<char>)
    requires sep in seps
    requires forall c :: c in a ==> c !in seps
    ensures Split(a + [sep] + b, seps) == [a] + Split(b, seps)
    decreases |a|
  {
    if |a| == 0 {
      assert a + [sep] + b == [sep] + b;
      assert ([sep] + b)[1..] == b;
    } else {
      assert (a + [sep] + b)[1..] == a[1..] + [sep] + b;
      SplitCons(a[1..], sep, b, seps);
      assert [a[0]] + a[1..] == a;
    }
  }

  /** StringSplitOptions.RemoveEmptyEntries: drops the zero-length pieces. */
  function RemoveEmpty(parts: seq<string>): (r: seq<string>)
    ensures |r| <= |parts|
    ensures forall k :: 0 <= k < |r| ==> r[k] != [] && r[k] in parts
  {
    if parts == [] then []
    else if parts[0] == [] then RemoveEmpty(parts[1..])
    else [parts[0]] + RemoveEmpty(parts[1..])
  }

  /** Pieces that are all non-empty are kept as they are. */
  lemma {:induction false} RemoveEmptyKeeps(parts: seq<string>)
    requires forall k :: 0 <= k < |parts| ==> parts[k] != []
    ensures RemoveEmpty(parts) == parts
  {
    if parts != [] {
      RemoveEmptyKeeps(parts[1..]);
    }
  }

  lemma RemoveEmptyThree(a: string, b: string, c: string)
    requires a != [] && b != [] && c != []
    ensures RemoveEmpty([a, b, c]) == [a, b, c]
  {
    RemoveEmptyKeeps([a, b, c]);
  }

  /** Split with RemoveEmptyEntries. */
  function SplitNonEmpty(s: string, seps: set<char>): seq<string> {
    RemoveEmpty(Split(s, seps))
  }

  /** String.IndexOf(string) (ordinal): the first position at which sub occurs in s, or -1. */
  function IndexOf(s: string, sub: string): (i: int)
    ensures -1 <= i <= |s|
    ensures i == -1 <==> !Contains(s, sub)
    ensures i >= 0 ==> i + |sub| <= |s| && s[i..i + |sub|] == sub
    decreases |s|
  {
    if StartsWith(s, sub) then 0
    else if s == [] then -1
    else
      var k := IndexOf(s[1..], sub);
      assert k >= 0 ==> s[k + 1..k + 1 + |sub|] == s[1..][k..k + |sub|];
      if k < 0 then -1 else k + 1
  }

  /** A prefix that lacks the first character of the pattern only shifts the first occurrence. */
  lemma {:induction false} IndexOfAfter(a: string, t: string, sub: string)
    requires sub != [] && sub[0] !in a
    ensures IndexOf(a + t, sub) == if IndexOf(t, sub) < 0 then -1 else |a| + IndexOf(t, sub)
    decreases |a|
  {
    if a == [] {
      assert a + t == t;
    } else {
      assert (a + t)[0] == a[0];
      assert (a + t)[1..] == a[1..] + t;
      assert a == [a[0]] + a[1..];
      IndexOfAfter(a[1..], t, sub);
    }
  }

  /** String.Split(string) without options: the pieces between the occurrences of sep,
      found left to right, empties kept. */
  function SplitOn(s: string, sep: string): (r: seq<string>)
    requires sep != []
    ensures r != []
    decreases |s|
  {
    var i := IndexOf(s, sep);
    if i < 0 then [s] else [s[..i]] + SplitOn(s[i + |sep|..], sep)
  }

  /** Joining the pieces with the separator restores the text. */
  lemma {:induction false} JoinSplitOn(s: string, sep: string)
    requires sep != []
    ensures Join(SplitOn(s, sep), sep) == s
    decreases |s|
  {
    var i := IndexOf(s, sep);
    if i >= 0 {
      var rest := s[i + |sep|..];
      JoinSplitOn(rest, sep);
      JoinCons(s[..i], sep, SplitOn(rest, sep));
      assert s[..i] + s[i..i + |sep|] + rest == s;
    }
  }

  lemma JoinCons(a: string, sep: string, parts: seq<string>)
    requires parts != []
    ensures Join([a] + parts, sep) == a + sep + Join(parts, sep)
  {
    assert ([a] + parts)[1..] == parts;
  }

  /** A leading part without the separator's first character is split off as the first piece. */
  lemma SplitOnPrefix(a: string, sep: string, t: string)
    requires sep != [] && sep[0] !in a
    ensures SplitOn(a + sep + t, sep) == [a] + SplitOn(t, sep)
  {
    var s := a + sep + t;
    assert s == a + (sep + t);
    assert StartsWith(sep + t, sep);
    IndexOfAfter(a, sep + t, sep);
    assert s[..|a|] == a;
    assert s[|a| + |sep|..] == t;
  }

  /** Text made of a part, the separator and a part, neither holding the separator,
      splits into exactly those two parts. */
  lemma SplitOnAround(a: string, sep: string, b: string)
    requires sep != [] && sep[0] !in a && !Contains(b, sep)
    ensures SplitOn(a + sep + b, sep) == [a, b]
  {
    SplitOnPrefix(a, sep, b);
  }

  /** Three parts around two separators, only the last of which may hold the separator. */
  lemma SplitOnThree(a: string, sep: string, b: string, c: string)
    requires sep != [] && sep[0] !in a && sep[0] !in b && !Contains(c, sep)
    ensures SplitOn(a + sep + b + sep + c, sep) == [a, b, c]
    ensures Contains(a + sep + b + sep + c, sep)
  {
    var rest := b + sep + c;
    var s := a + sep + b + sep + c;
    assert s == a + sep + rest by {
      assert s == (a + sep) + rest;
    }
    assert SplitOn(s, sep) == [a] + SplitOn(rest, sep) by {
      SplitOnPrefix(a, sep, rest);
    }
    assert SplitOn(rest, sep) == [b, c] by {
      SplitOnAround(b, sep, c);
    }
    ContainsMiddle(a, sep, rest);
  }

  /** string.Join(sep, parts). */
  function Join(parts: seq<string>, sep: string): string {
    if |parts| == 0 then ""
    else if |parts| == 1 then parts[0]
    else parts[0] + sep + Join(parts[1..], sep)
  }

  /** Split and Join are inverse: joining the pieces with the separator restores the text. */
  lemma {:induction false} JoinSplit(s: string, sep: char)
    ensures Join(Split(s, {sep}), [sep]) == s
    decreases |s|
  {
    if |s| > 0 {
      JoinSplit(s[1..], sep);
      var rest := Split(s[1..], {sep});
      if s[0] != sep {
        if |rest| == 1 {
          assert Join(Split(s, {sep}), [sep]) == [s[0]] + rest[0];
        } else {
          assert Split(s, {sep})[1..] == rest[1..];
          assert Join(Split(s, {sep}), [sep]) == [s[0]] + rest[0] + [sep] + Join(rest[1..], [sep]);
        }
        assert [s[0]] + s[1..] == s;
      } else {
        assert [s[0]] + s[1..] == s;
      }
    }
  }

  /** The concatenation of `line + "\n"` for every line (what AppendLine calls leave behind). */
  function Terminated(lines: seq<string>): string {
    if lines == [] then "" else lines[0] + "\n" + Terminated(lines[1..])
  }

  /** Text that starts with a non-blank line is not blank. */
  lemma TerminatedNotBlank(lines: seq<string>)
    requires lines != [] && !IsBlank(lines[0])
    ensures !IsBlank(Terminated(lines))
  {
    var rest := "\n" + Terminated(lines[1..]);
    assert Terminated(lines) == lines[0] + rest;
    if IsBlank(Terminated(lines)) {
      BlankPrefix(lines[0], rest);
    }
  }

  lemma TerminatedAppend(lines: seq<string>, line: string)
    ensures Terminated(lines + [line]) == Terminated(lines) + line + "\n"
  {
    if lines != [] {
      assert (lines + [line])[1..] == lines[1..] + [line];
      TerminatedAppend(lines[1..], line);
    } else {
      assert [line][1..] == [];
    }
  }

  lemma TerminatedConcat(a: seq<string>, b: seq<string>)
    ensures Terminated(a + b) == Terminated(a) + Terminated(b)
  {
    if a == [] {
      assert a + b == b;
    } else {
      assert (a + b)[1..] == a[1..] + b;
      TerminatedConcat(a[1..], b);
    }
  }

  /** The text of a three-line block, such as a heading, a body and a blank line. */
  lemma TerminatedTriple(a: string, b: string, c: string)
    ensures Terminated([a, b, c]) == a + "\n" + b + "\n" + c + "\n"
    ensures |Terminated([a, b, c])| == |a| + |b| + |c| + 3
  {
    assert [a, b, c][1..] == [b, c];
    assert [b, c][1..] == [c];
    assert [c][1..] == [];
    assert Terminated([c]) == c + "\n";
    assert Terminated([b, c]) == b + "\n" + (c + "\n");
  }

  /** A line between two blocks of lines appears, with its line break, in their text. */
  lemma ContainsLine(pre: seq<string>, x: string, post: seq<string>)
    ensures Contains(Terminated(pre + [x] + post), x + "\n")
  {
    TerminatedConcat(pre + [x], post);
    TerminatedConcat(pre, [x]);
    assert [x][1..] == [];
    assert Terminated([x]) == x + "\n";
    ContainsMiddle(Terminated(pre), x + "\n", Terminated(post));
  }

  lemma EndsWithAppend(a: string, b: string)
    ensures EndsWith(a + b, b)
  {
    assert (a + b)[|a|..] == b;
  }

  /** What the text of a block contains, the text of a longer block (before or after it) contains. */
  lemma ContainsInPrefix(a: seq<string>, b: seq<string>, sub: string)
    requires Contains(Terminated(a), sub)
    ensures Contains(Terminated(a + b), sub)
  {
    TerminatedConcat(a, b);
    ContainsLeft(Terminated(a), Terminated(b), sub);
  }

  lemma ContainsInSuffix(a: seq<string>, b: seq<string>, sub: string)
    requires Contains(Terminated(b), sub)
    ensures Contains(Terminated(a + b), sub)
  {
    TerminatedConcat(a, b);
    ContainsRight(Terminated(a), Terminated(b), sub);
  }

  /** The text of lines whose first line is not empty starts with that line's first character. */
  lemma TerminatedHeadChar(a: seq<string>, b: seq<string>)
    requires a != [] && a[0] != ""
    ensures Terminated(a + b) != [] && Terminated(a + b)[0] == a[0][0]
  {
    assert (a + b)[0] == a[0];
  }

  /** Every appended line, with its line break, is part of the text. */
  lemma {:induction false} TerminatedContains(lines: seq<string>, k: nat)
    requires k < |lines|
    ensures Contains(Terminated(lines), lines[k] + "\n")
  {
    if k == 0 {
      ContainsAt(Terminated(lines), lines[0] + "\n", 0);
    } else {
      TerminatedContains(lines[1..], k - 1);
      var head := lines[0] + "\n";
      assert Terminated(lines) == head + Terminated(lines[1..]);
      assert Terminated(lines)[|head|..|Terminated(lines)|] == Terminated(lines[1..]);
      ContainsSlice(Terminated(lines), |head|, |Terminated(lines)|, lines[k] + "\n");
    }
  }

  /** Splitting newline-terminated lines on '\n' gives back the lines and one empty tail piece. */
  lemma {:induction false} SplitTerminated(lines: seq<string>)
    requires forall k :: 0 <= k < |lines| ==> '\n' !in lines[k]
    ensures Split(Terminated(lines), {'\n'}) == lines + [""]
  {
    if lines != [] {
      SplitTerminated(lines[1..]);
      assert Terminated(lines) == lines[0] + ['\n'] + Terminated(lines[1..]);
      SplitCons(lines[0], '\n', Terminated(lines[1..]), {'\n'});
      assert lines == [lines[0]] + lines[1..];
    }
  }

  /** Non-empty newline-terminated lines free of the separators ('\n' among them) split back,
      with RemoveEmptyEntries, into exactly those lines. */
  lemma {:induction false} SplitNonEmptyTerminated(lines: seq<string>, seps: set<char>)
    requires '\n' in seps
    requires forall k :: 0 <= k < |lines| ==> lines[k] != [] && forall c :: c in lines[k] ==> c !in seps
    ensures SplitNonEmpty(Terminated(lines), seps) == lines
  {
    if lines == [] {
      assert [""][1..] == [];
    } else {
      var rest := Terminated(lines[1..]);
      SplitNonEmptyTerminated(lines[1..], seps);
      assert Terminated(lines) == lines[0] + ['\n'] + rest;
      SplitCons(lines[0], '\n', rest, seps);
      assert ([lines[0]] + Split(rest, seps))[1..] == Split(rest, seps);
      assert lines == [lines[0]] + lines[1..];
    }
  }

  // ---------------------------------------------------------------- numbers

  function DigitChar(d: nat): char
    requires d < 10
  {
    ('0' as int + d) as char
  }

  /** int.ToString() / string interpolation of a non-negative number. */
  function NatToString(n: nat): (r: string)
    ensures |r| >= 1
    ensures forall i :: 0 <= i < |r| ==> IsDigit(r[i])
  {
    if n < 10 then [DigitChar(n)] else NatToString(n / 10) + [DigitChar(n % 10)]
  }

  /** int.ToString() of any int. */
  function IntToString(n: int): string {
    if n < 0 then "-" + NatToString(-n) else NatToString(n)
  }

  /** The value of a run of decimal digits (int.Parse of the matched digits). */
  function DigitsValue(s: string): nat
    requires forall i :: 0 <= i < |s| ==> IsDigit(s[i])
  {
    if s == [] then 0
    else
      assert IsDigit(s[|s| - 1]);
      DigitsValue(s[..|s| - 1]) * 10 + (s[|s| - 1] as int - '0' as int)
  }

  /** Printing a number and reading it back gives the number. */
  lemma {:induction false} DigitsValueNatToString(n: nat)
    ensures DigitsValue(NatToString(n)) == n
  {
    if n >= 10 {
      DigitsValueNatToString(n / 10);
      var s := NatToString(n);
      assert s[..|s| - 1] == NatToString(n / 10);
    }
  }

  /** Index just past the run of characters satisfying p that starts at i. */
  function RunEnd(s: string, i: nat, p: char -> bool): (j: nat)
    requires i <= |s|
    ensures i <= j <= |s|
    ensures forall k :: i <= k < j ==> p(s[k])
    ensures j == |s| || !p(s[j])
    decreases |s| - i
  {
    if i < |s| && p(s[i]) then RunEnd(s, i + 1, p) else i
  }

  /** A run of characters satisfying p that stops at j (the end, or a character failing p)
      is the run RunEnd finds. */
  lemma RunEndIs(s: string, i: nat, j: nat, p: char -> bool)
    requires i <= j <= |s|
    requires forall k :: i <= k < j ==> p(s[k])
    requires j == |s| || !p(s[j])
    ensures RunEnd(s, i, p) == j
  {
  }

  /** A line of the form "<n>. <text>" split into its number and its text. */
  function ParseNumberedLine(line: string): Option<(nat, string)> {
    var d := RunEnd(line, 0, IsDigit);
    if 0 < d && d + 2 <= |line| && line[d..d + 2] == ". " then Some((DigitsValue(line[..d]), line[d + 2..]))
    else None
  }

  /** "{n}. {text}" as the prompt builders write a numbered line. */
  function NumberedLine(n: nat, text: string): string {
    NatToString(n) + ". " + text
  }

  /** Numbering is reversible: the number and the text come back unchanged. */
  lemma NumberedLineRoundTrip(n: nat, text: string)
    ensures ParseNumberedLine(NumberedLine(n, text)) == Some((n, text))
  {
    var digits := NatToString(n);
    var line := NumberedLine(n, text);
    assert line[|digits|] == '.';
    var d := RunEnd(line, 0, IsDigit);
    assert forall k :: 0 <= k < |digits| ==> IsDigit(line[k]);
    assert !IsDigit(line[|digits|]);
    assert d == |digits|;
    assert line[..d] == digits;
    assert line[d..d + 2] == ". ";
    assert line[d + 2..] == text;
    DigitsValueNatToString(n);
  }

  /** Every string trimmed, in order (`Select(x => x.Trim())`, `map(x => x.trim())`). */
  function TrimAll(xs: seq<string>): (r: seq<string>)
    ensures |r| == |xs|
    ensures forall i :: 0 <= i < |xs| ==> r[i] == Trim(xs[i])
  {
    if xs == [] then [] else [Trim(xs[0])] + TrimAll(xs[1..])
  }

  predicate NonEmpty(s: string) {
    |s| > 0
  }
}

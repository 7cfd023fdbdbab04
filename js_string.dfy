/** The JavaScript string built-ins the generators and the store rely on:
    white space as `\s` and `String.prototype.trim` see it, `trim`,
    `split(/\s+/)` and `Array.prototype.join`, together with a reference
    count of words (maximal runs of non-white-space characters). */
module JsString {

  /** ECMAScript WhiteSpace and LineTerminator code points: the set matched by
      `\s` and removed by `trim`. */
  predicate IsSpace(c: char) {
    c == '\t' || c == '\n' || c == '\U{000B}' || c == '\U{000C}' || c == '\r' || c == ' '
    || c == '\U{00A0}' || c == '\U{1680}' || ('\U{2000}' <= c <= '\U{200A}')
    || c == '\U{2028}' || c == '\U{2029}' || c == '\U{202F}' || c == '\U{205F}'
    || c == '\U{3000}' || c == '\U{FEFF}'
  }

  predicate NoSpace(s: string) {
    forall i :: 0 <= i < |s| ==> !IsSpace(s[i])
  }

  predicate AllSpace(s: string) {
    forall i :: 0 <= i < |s| ==> IsSpace(s[i])
  }

  /** A word as `split(/\s+/)` yields it from text without leading or trailing
      white space: non-empty and free of white space. */
  predicate IsToken(w: string) {
    w != "" && NoSpace(w)
  }

  predicate AllTokens(ws: seq<string>) {
    forall i :: 0 <= i < |ws| ==> IsToken(ws[i])
  }

  /** Reference word count: the number of maximal runs of non-white-space
      characters, each counted at its last character. */
  function Words(s: string): (n: nat) {
    if |s| == 0 then 0
    else (if !IsSpace(s[0]) && (|s| == 1 || IsSpace(s[1])) then 1 else 0) + Words(s[1..])
  }

  /** Gluing a and b cannot merge a word of a with a word of b. */
  predicate Separated(a: string, b: string) {
    a == [] || b == [] || IsSpace(a[|a| - 1]) || IsSpace(b[0])
  }

  lemma {:induction false} WordsConcat(a: string, b: string)
    requires Separated(a, b)
    ensures Words(a + b) == Words(a) + Words(b)
  {
    if |a| == 0 {
      assert a + b == b;
    } else if |a| == 1 {
      assert (a + b)[1..] == b;
    } else {
      assert (a + b)[1..] == a[1..] + b;
      WordsConcat(a[1..], b);
    }
  }

  lemma {:induction false} WordsAllSpace(s: string)
    requires AllSpace(s)
    ensures Words(s) == 0
  {
    if |s| > 0 {
      WordsAllSpace(s[1..]);
    }
  }

  lemma {:induction false} WordsOfToken(w: string)
    requires IsToken(w)
    ensures Words(w) == 1
  {
    if |w| > 1 {
      WordsOfToken(w[1..]);
    }
  }

  /** No words at all exactly when every character is white space. */
  lemma {:induction false} WordsZero(s: string)
    ensures Words(s) == 0 <==> AllSpace(s)
  {
    if |s| > 0 {
      WordsZero(s[1..]);
      if !IsSpace(s[0]) {
        // the run that starts at s[0] ends somewhere and is counted there
        if |s| > 1 && !IsSpace(s[1]) {
          assert !AllSpace(s[1..]) by { assert !IsSpace(s[1..][0]); }
        }
      }
    }
  }

  /** `trimStart`. */
  function TrimStart(s: string): (r: string) {
    if |s| > 0 && IsSpace(s[0]) then TrimStart(s[1..]) else s
  }

  /** `trimEnd`. */
  function TrimEnd(s: string): (r: string) {
    if |s| > 0 && IsSpace(s[|s| - 1]) then TrimEnd(s[..|s| - 1]) else s
  }

  /** `String.prototype.trim`. */
  function Trim(s: string): (r: string) {
    TrimEnd(TrimStart(s))
  }

  /** `trimStart` drops the leading white space and nothing else. */
  lemma TrimStartSpec(s: string)
    ensures var r := TrimStart(s);
            |r| <= |s| && r == s[|s| - |r|..] && AllSpace(s[..|s| - |r|]) &&
            (r != [] ==> !IsSpace(r[0])) && (r == [] <==> AllSpace(s))
  {
    TrimStartSuffix(s);
    var r := TrimStart(s);
    if r == [] {
      assert s[..|s|] == s;
    } else {
      assert s[|s| - |r|] == r[0];
    }
  }

  lemma {:induction false} TrimStartSuffix(s: string)
    ensures var r := TrimStart(s);
            |r| <= |s| && r == s[|s| - |r|..] && AllSpace(s[..|s| - |r|]) && (r != [] ==> !IsSpace(r[0]))
  {
    if |s| > 0 && IsSpace(s[0]) {
      TrimStartSuffix(s[1..]);
      var r := TrimStart(s[1..]);
      assert s[1..][|s| - 1 - |r|..] == s[|s| - |r|..];
      var lead := s[..|s| - |r|];
      assert lead == [s[0]] + s[1..][..|s| - 1 - |r|];
      assert AllSpace(lead) by {
        forall i | 0 <= i < |lead| ensures IsSpace(lead[i]) {
          if i > 0 {
            assert lead[i] == s[1..][..|s| - 1 - |r|][i - 1];
          }
        }
      }
    } else {
      assert s[..0] == [];
    }
  }

  /** `trimEnd` drops the trailing white space and nothing else. */
  lemma TrimEndSpec(s: string)
    ensures var r := TrimEnd(s);
            |r| <= |s| && r == s[..|r|] && AllSpace(s[|r|..]) &&
            (r != [] ==> !IsSpace(r[|r| - 1])) && (r == [] <==> AllSpace(s))
  {
    TrimEndPrefix(s);
    var r := TrimEnd(s);
    if r == [] {
      assert s[0..] == s;
    } else {
      assert s[|r| - 1] == r[|r| - 1];
    }
  }

  lemma {:induction false} TrimEndPrefix(s: string)
    ensures var r := TrimEnd(s);
            |r| <= |s| && r == s[..|r|] && AllSpace(s[|r|..]) && (r != [] ==> !IsSpace(r[|r| - 1]))
  {
    if |s| > 0 && IsSpace(s[|s| - 1]) {
      TrimEndPrefix(s[..|s| - 1]);
      var r := TrimEnd(s[..|s| - 1]);
      assert s[..|s| - 1][..|r|] == s[..|r|];
      var trail := s[|r|..];
      assert trail == s[..|s| - 1][|r|..] + [s[|s| - 1]];
      assert AllSpace(trail) by {
        forall j | 0 <= j < |trail| ensures IsSpace(trail[j]) {
          if j < |trail| - 1 {
            assert trail[j] == s[..|s| - 1][|r|..][j];
          }
        }
      }
    } else {
      assert s[|s|..] == [];
    }
  }

  /** `trim` leaves nothing exactly from blank text, and otherwise text that
      starts and ends with a non-white-space character. */
  lemma TrimSpec(s: string)
    ensures var r := Trim(s);
            (r == [] <==> AllSpace(s)) && (r != [] ==> !IsSpace(r[0]) && !IsSpace(r[|r| - 1]))
  {
    TrimStartSpec(s);
    var t := TrimStart(s);
    TrimEndSpec(t);
    var r := TrimEnd(t);
    assert r != [] ==> r[0] == t[0];
  }

  lemma TrimStartWords(s: string)
    ensures Words(TrimStart(s)) == Words(s)
  {
    TrimStartSpec(s);
    var t := TrimStart(s);
    var lead := s[..|s| - |t|];
    assert s == lead + t;
    WordsAllSpace(lead);
    WordsConcat(lead, t);
  }

  lemma TrimEndWords(s: string)
    ensures Words(TrimEnd(s)) == Words(s)
  {
    TrimEndSpec(s);
    var r := TrimEnd(s);
    var trail := s[|r|..];
    assert s == r + trail;
    WordsAllSpace(trail);
    WordsConcat(r, trail);
  }

  /** Trimming never changes the words. */
  lemma TrimWords(s: string)
    ensures Words(Trim(s)) == Words(s)
  {
    TrimStartWords(s);
    TrimEndWords(TrimStart(s));
  }

  /** `s.split(/\s+/)`: the pieces between maximal runs of white space, with an
      empty first piece when s starts with white space and an empty last piece
      when it ends with white space (`"".split(/\s+/)` is `[""]`). */
  function SplitOnWhitespace(s: string): (r: seq<string>)
    ensures |r| >= 1
    ensures forall i :: 0 <= i < |r| ==> NoSpace(r[i])
  {
    if |s| == 0 then [""]
    else
      var rest := SplitOnWhitespace(s[1..]);
      if IsSpace(s[0]) then
        if |s| > 1 && IsSpace(s[1]) then rest else [""] + rest
      else
        [[s[0]] + rest[0]] + rest[1..]
  }

  /** The number of pieces: one per word, plus one for a leading and one for a
      trailing run of white space. */
  lemma {:induction false} SplitCount(s: string)
    requires |s| > 0
    ensures |SplitOnWhitespace(s)| ==
            Words(s) + (if IsSpace(s[0]) then 1 else 0) + (if IsSpace(s[|s| - 1]) then 1 else 0)
  {
    if |s| > 1 {
      SplitCount(s[1..]);
    }
  }

  /** `Array.prototype.join`. */
  function Join(parts: seq<string>, sep: string): (r: string)
    ensures |parts| == 1 ==> r == parts[0]
  {
    if |parts| == 0 then ""
    else if |parts| == 1 then parts[0]
    else parts[0] + sep + Join(parts[1..], sep)
  }

  /** Joining two non-empty lists puts one separator between their joins. */
  lemma {:induction false} JoinAppend(xs: seq<string>, ys: seq<string>, sep: string)
    requires |xs| > 0 && |ys| > 0
    ensures Join(xs + ys, sep) == Join(xs, sep) + sep + Join(ys, sep)
  {
    if |xs| == 1 {
      assert (xs + ys)[1..] == ys;
    } else {
      assert (xs + ys)[1..] == xs[1..] + ys;
      JoinAppend(xs[1..], ys, sep);
    }
  }

  /** Text joined from tokens starts with the first token's first character. */
  lemma {:induction false} JoinStartsWithToken(ws: seq<string>, sep: string)
    requires |ws| > 0 && IsToken(ws[0])
    ensures |Join(ws, sep)| > 0 && Join(ws, sep)[0] == ws[0][0]
  {
  }

  lemma AllTokensAppend(xs: seq<string>, ys: seq<string>)
    requires AllTokens(xs) && AllTokens(ys)
    ensures AllTokens(xs + ys)
  {
    forall i | 0 <= i < |xs + ys| ensures IsToken((xs + ys)[i]) {
      if i >= |xs| {
        assert (xs + ys)[i] == ys[i - |xs|];
      }
    }
  }

  function SumWords(parts: seq<string>): nat {
    if |parts| == 0 then 0 else Words(parts[0]) + SumWords(parts[1..])
  }

  /** A white-space separator neither adds nor merges words. */
  lemma {:induction false} JoinWords(parts: seq<string>, sep: string)
    requires sep != [] && AllSpace(sep)
    ensures Words(Join(parts, sep)) == SumWords(parts)
  {
    if |parts| > 1 {
      JoinWords(parts[1..], sep);
      WordsAllSpace(sep);
      WordsConcat(parts[0], sep);
      WordsConcat(parts[0] + sep, Join(parts[1..], sep));
      assert parts[0] + sep + Join(parts[1..], sep) == (parts[0] + sep) + Join(parts[1..], sep);
    }
  }

  lemma {:induction false} SumWordsOfTokens(ws: seq<string>)
    requires AllTokens(ws)
    ensures SumWords(ws) == |ws|
  {
    if |ws| > 0 {
      WordsOfToken(ws[0]);
      SumWordsOfTokens(ws[1..]);
    }
  }

  /** Tokens joined by single spaces contain exactly one word per token. */
  lemma TokensJoinWords(ws: seq<string>)
    requires AllTokens(ws)
    ensures Words(Join(ws, " ")) == |ws|
  {
    JoinWords(ws, " ");
    SumWordsOfTokens(ws);
  }

  lemma {:induction false} SplitAfterToken(w: string, t: string)
    requires NoSpace(w)
    ensures SplitOnWhitespace(w + t) ==
            [w + SplitOnWhitespace(t)[0]] + SplitOnWhitespace(t)[1..]
  {
    if |w| > 0 {
      assert (w + t)[1..] == w[1..] + t;
      SplitAfterToken(w[1..], t);
      assert [w[0]] + (w[1..] + SplitOnWhitespace(t)[0]) == w + SplitOnWhitespace(t)[0];
    } else {
      var r := SplitOnWhitespace(t);
      assert w + t == t;
      assert w + r[0] == r[0];
      assert [r[0]] + r[1..] == r;
    }
  }

  /** Round trip: splitting tokens joined by single spaces gives the tokens back. */
  lemma {:induction false} SplitJoin(ws: seq<string>)
    requires |ws| > 0 && AllTokens(ws)
    ensures SplitOnWhitespace(Join(ws, " ")) == ws
  {
    if |ws| == 1 {
      SplitAfterToken(ws[0], "");
      assert ws[0] + "" == ws[0];
    } else {
      var rest := Join(ws[1..], " ");
      SplitJoin(ws[1..]);
      JoinStartsWithToken(ws[1..], " ");
      var tail := " " + rest;
      assert tail[1..] == rest;
      assert SplitOnWhitespace(tail) == [""] + ws[1..];
      assert ws[0] + " " + rest == ws[0] + tail;
      SplitAfterToken(ws[0], tail);
      assert ws[0] + "" == ws[0];
      assert [ws[0]] + ws[1..] == ws;
    }
  }
}

/**
 * The pieces of Rust's `str` that the configuration scanners rely on:
 * `str::lines`, `char::is_whitespace` and `str::trim`.
 */
module Text {

  /** Rust's `char::is_whitespace`: the Unicode White_Space property. */
  predicate IsWhitespace(c: char)
  {
    || ('\t' <= c <= '\r')  // tab, line feed, vertical tab, form feed, carriage return
    || c == ' '
    || c == '\U{0085}' || c == '\U{00A0}' || c == '\U{1680}'
    || ('\U{2000}' <= c <= '\U{200A}')
    || c == '\U{2028}' || c == '\U{2029}' || c == '\U{202F}' || c == '\U{205F}'
    || c == '\U{3000}'
  }

  /** Every character of `t` is white space. */
  predicate AllWhitespace(t: string)
  {
    forall k :: 0 <= k < |t| ==> IsWhitespace(t[k])
  }

  /** Index of the first line feed of `s`, or `|s|` when there is none. */
  function NewlineIndex(s: string): (k: nat)
    ensures k <= |s|
    ensures k < |s| ==> s[k] == '\n'
    ensures forall j :: 0 <= j < k ==> s[j] != '\n'
  {
    if s == [] || s[0] == '\n' then 0 else 1 + NewlineIndex(s[1..])
  }

  /** Drops one carriage return that ended a line before its line feed. */
  function StripCr(line: string): (r: string)
    ensures r == line || line == r + "\r"
    ensures |r| < |line| <==> (line != [] && line[|line| - 1] == '\r')
  {
    if line != [] && line[|line| - 1] == '\r' then line[..|line| - 1] else line
  }

  /**
   * Rust's `str::lines`: the text is split after every line feed; a line
   * feed and one carriage return right before it are dropped; a final
   * line without a line feed is kept as it is (a lone trailing `\r`
   * included), and text ending in a line feed yields no empty last line.
   */
  function Lines(text: string): (r: seq<string>)
    ensures forall i :: 0 <= i < |r| ==> '\n' !in r[i]
    ensures text == [] <==> r == []
    decreases |text|
  {
    if text == [] then []
    else
      var k := NewlineIndex(text);
      if k == |text| then [text]
      else [StripCr(text[..k])] + Lines(text[k + 1..])
  }

  /** A line followed by a line feed becomes one element of `Lines`. */
  lemma LinesOfTerminatedLine(line: string, rest: string)
    requires '\n' !in line
    ensures Lines(line + "\n" + rest) == [StripCr(line)] + Lines(rest)
  {
    var text := line + "\n" + rest;
    var k := NewlineIndex(text);
    assert text[|line|] == '\n';
    assert k == |line|;
    assert text[..k] == line;
    assert text[k + 1..] == rest;
  }

  /** The lines `ls`, each followed by the line ending `eol`. */
  function Terminated(ls: seq<string>, eol: string): string
  {
    if ls == [] then "" else ls[0] + eol + Terminated(ls[1..], eol)
  }

  /** `eol` is a line ending and `line` survives being written out with it and split again. */
  predicate Writable(line: string, eol: string)
  {
    && (eol == "\n" || eol == "\r\n")
    && '\n' !in line
    && (eol == "\n" ==> line == [] || line[|line| - 1] != '\r')
  }

  /**
   * `str::lines` undoes writing lines out with `\n` or `\r\n` endings:
   * with CRLF endings every line without a line feed comes back as it
   * was; with bare LF endings, every line that also does not end in `\r`.
   */
  lemma {:induction false} LinesOfTerminated(ls: seq<string>, eol: string)
    requires forall i :: 0 <= i < |ls| ==> Writable(ls[i], eol)
    ensures Lines(Terminated(ls, eol)) == ls
  {
    if ls != [] {
      var tail := ls[1..];
      var rest := Terminated(tail, eol);
      var body := TerminatedLineSplits(ls[0], eol, rest);
      assert Terminated(ls, eol) == body + "\n" + rest;
      LinesOfTerminatedLine(body, rest);
      forall i | 0 <= i < |tail| ensures Writable(tail[i], eol) {
        assert tail[i] == ls[i + 1];
      }
      LinesOfTerminated(tail, eol);
    }
  }

  /** One line and its ending, seen as the text before a line feed. */
  lemma TerminatedLineSplits(line: string, eol: string, rest: string) returns (body: string)
    requires Writable(line, eol)
    ensures '\n' !in body && StripCr(body) == line
    ensures line + eol + rest == body + "\n" + rest
  {
    if eol == "\n" {
      body := line;
    } else {
      body := line + "\r";
      assert line + eol == body + "\n";
    }
  }

  /** Rust's `str::trim_start`: drops the leading white space. */
  function TrimStart(s: string): (r: string)
    ensures |r| <= |s| && r == s[|s| - |r|..]
    ensures forall k :: 0 <= k < |s| - |r| ==> IsWhitespace(s[k])
    ensures r == [] || !IsWhitespace(r[0])
  {
    if s != [] && IsWhitespace(s[0]) then
      var r := TrimStart(s[1..]);
      assert s[1..][|s| - 1 - |r|..] == s[|s| - |r|..];
      assert forall k :: 0 < k < |s| ==> s[1..][k - 1] == s[k];
      r
    else
      s
  }

  /** Rust's `str::trim_end`: drops the trailing white space. */
  function TrimEnd(s: string): (r: string)
    ensures |r| <= |s| && r == s[..|r|]
    ensures forall k :: |r| <= k < |s| ==> IsWhitespace(s[k])
    ensures r == [] || !IsWhitespace(r[|r| - 1])
  {
    if s != [] && IsWhitespace(s[|s| - 1]) then
      var r := TrimEnd(s[..|s| - 1]);
      assert s[..|s| - 1][..|r|] == s[..|r|];
      assert forall k :: 0 <= k < |s| - 1 ==> s[..|s| - 1][k] == s[k];
      r
    else
      s
  }

  /** Rust's `str::trim`: the text between the leading and trailing white space. */
  function Trim(s: string): (r: string)
    ensures |r| <= |s|
    ensures r == [] || (!IsWhitespace(r[0]) && !IsWhitespace(r[|r| - 1]))
    ensures r == [] <==> AllWhitespace(s)
  {
    TrimEnd(TrimStart(s))
  }

  /**
   * `t` is the slice of `s` that starts at `lead`, and everything of `s`
   * before and after that slice is white space.
   */
  ghost predicate BetweenWhitespace(s: string, t: string, lead: nat)
  {
    && lead + |t| <= |s|
    && t == s[lead..lead + |t|]
    && AllWhitespace(s[..lead])
    && AllWhitespace(s[lead + |t|..])
  }

  /**
   * `str::trim` removes exactly the leading and the trailing white space:
   * the result is the slice of `s` that starts after the leading white
   * space, and everything before and after that slice is white space.
   */
  lemma TrimIsSlice(s: string) returns (lead: nat)
    ensures lead == |s| - |TrimStart(s)|
    ensures BetweenWhitespace(s, Trim(s), lead)
  {
    var rest, r := TrimParts(s);
    lead := |s| - |rest|;
    PrefixOfSuffix(s, rest, r);
  }

  /** `str::trim` is `trim_start` followed by `trim_end`. */
  lemma TrimParts(s: string) returns (rest: string, r: string)
    ensures rest == TrimStart(s) && r == TrimEnd(rest) && Trim(s) == r
  {
    rest := TrimStart(s);
    r := TrimEnd(rest);
  }

  /**
   * A prefix `r` of a suffix `rest` of `s`, with only white space before
   * `rest` in `s` and after `r` in `rest`, lies between white space in `s`.
   */
  lemma PrefixOfSuffix(s: string, rest: string, r: string)
    requires |rest| <= |s| && rest == s[|s| - |rest|..]
    requires forall k :: 0 <= k < |s| - |rest| ==> IsWhitespace(s[k])
    requires |r| <= |rest| && r == rest[..|r|]
    requires forall k :: |r| <= k < |rest| ==> IsWhitespace(rest[k])
    ensures BetweenWhitespace(s, r, |s| - |rest|)
  {
    var lead := |s| - |rest|;
    assert r == s[lead..lead + |r|];
    var before := s[..lead];
    forall k | 0 <= k < |before| ensures IsWhitespace(before[k]) {
      assert before[k] == s[k];
    }
    var after := s[lead + |r|..];
    forall k | 0 <= k < |after| ensures IsWhitespace(after[k]) {
      assert after[k] == rest[|r| + k];
    }
  }
}

/**
 * The two scanners of a server's `server.properties` file: the remote
 * console (RCON) settings read before a liveness probe or a shutdown, and
 * the message of the day shown as the server's description.
 */
module ServerProperties {
  import opened Wrappers
  import opened Text

  const PortKey: string := "rcon.port="
  const PasswordKey: string := "rcon.password="
  /** The port used when no line sets `rcon.port`. */
  const DefaultPort: string := "25575"
  const MotdKey: string := "motd="
  const CommentMark: string := "#"

  /** The connection settings; an empty password means the console is disabled. */
  datatype RconConfig = RconConfig(port: string, password: string)

  const DefaultRcon := RconConfig(DefaultPort, "")

  /** `key <= line` is "line starts with key"; nothing is trimmed first. */
  ghost predicate NoLineWithKey(lines: seq<string>, key: string)
  {
    forall j :: 0 <= j < |lines| ==> !(key <= lines[j])
  }

  /** Line `i` is the last line that starts with `key`. */
  ghost predicate IsLastWithKey(lines: seq<string>, key: string, i: int)
  {
    && 0 <= i < |lines|
    && key <= lines[i]
    && forall j :: i < j < |lines| ==> !(key <= lines[j])
  }

  /**
   * One iteration of the scan loop: a line starting with `rcon.port=`
   * replaces the port, one starting with `rcon.password=` replaces the
   * password, each with the untrimmed rest of the line. The two keys
   * differ in their seventh character, so a line sets at most one field.
   */
  function ScanLine(cfg: RconConfig, line: string): (r: RconConfig)
    ensures r.port == cfg.port || r.password == cfg.password
    ensures !(PortKey <= line) && !(PasswordKey <= line) ==> r == cfg
  {
    var afterPort := if PortKey <= line then cfg.(port := line[|PortKey|..]) else cfg;
    if PasswordKey <= line then
      assert !(PortKey <= line) by { assert line[6] == PasswordKey[6] != PortKey[6]; }
      afterPort.(password := line[|PasswordKey|..])
    else afterPort
  }

  /** The settings after scanning `lines` in order from the defaults. */
  function ParseRcon(lines: seq<string>): RconConfig
  {
    if lines == [] then DefaultRcon
    else ScanLine(ParseRcon(lines[..|lines| - 1]), lines[|lines| - 1])
  }

  /** The scan loop over the lines of the file. */
  method ScanRcon(lines: seq<string>) returns (cfg: RconConfig)
    ensures cfg == ParseRcon(lines)
  {
    var port := DefaultPort;
    var password := "";
    for i := 0 to |lines|
      invariant RconConfig(port, password) == ParseRcon(lines[..i])
    {
      var line := lines[i];
      if PortKey <= line {
        port := line[|PortKey|..];
      }
      if PasswordKey <= line {
        password := line[|PasswordKey|..];
      }
      assert lines[..i + 1][..i] == lines[..i];
    }
    assert lines[..|lines|] == lines;
    cfg := RconConfig(port, password);
  }

  /** The field of `cfg` that `key` sets. */
  function ValueFor(cfg: RconConfig, key: string): string
  {
    if key == PortKey then cfg.port else cfg.password
  }

  /** What one line does to the field of one key. */
  lemma ScanLineValue(cfg: RconConfig, line: string, key: string)
    requires key == PortKey || key == PasswordKey
    ensures ValueFor(ScanLine(cfg, line), key) == if key <= line then line[|key|..] else ValueFor(cfg, key)
  {
  }

  /** Without a line starting with `key`, its field keeps its default. */
  lemma {:induction false} NoMatchKeepsDefault(lines: seq<string>, key: string)
    requires key == PortKey || key == PasswordKey
    requires NoLineWithKey(lines, key)
    ensures ValueFor(ParseRcon(lines), key) == ValueFor(DefaultRcon, key)
  {
    if lines != [] {
      var n := |lines| - 1;
      var init := lines[..n];
      forall j | 0 <= j < n ensures !(key <= init[j]) {
        assert init[j] == lines[j];
      }
      NoMatchKeepsDefault(init, key);
      assert !(key <= lines[n]);
      ScanLineValue(ParseRcon(init), lines[n], key);
    }
  }

  /** The field of `key` is set by the last line starting with `key`. */
  lemma {:induction false} LastMatchSetsValue(lines: seq<string>, key: string, i: int)
    requires key == PortKey || key == PasswordKey
    requires IsLastWithKey(lines, key, i)
    ensures ValueFor(ParseRcon(lines), key) == lines[i][|key|..]
  {
    var n := |lines| - 1;
    var init := lines[..n];
    if i == n {
      ScanLineValue(ParseRcon(init), lines[n], key);
    } else {
      assert !(key <= lines[n]);
      assert init[i] == lines[i];
      forall j | i < j < n ensures !(key <= init[j]) {
        assert init[j] == lines[j];
      }
      LastMatchSetsValue(init, key, i);
      ScanLineValue(ParseRcon(init), lines[n], key);
    }
  }

  /**
   * Each field is the untrimmed rest of the LAST line that starts with its
   * key, or its default when no line does.
   */
  lemma ParseRconLastMatch(lines: seq<string>)
    ensures NoLineWithKey(lines, PortKey) ==> ParseRcon(lines).port == DefaultPort
    ensures NoLineWithKey(lines, PasswordKey) ==> ParseRcon(lines).password == ""
    ensures forall i :: IsLastWithKey(lines, PortKey, i) ==> ParseRcon(lines).port == lines[i][|PortKey|..]
    ensures forall i :: IsLastWithKey(lines, PasswordKey, i) ==> ParseRcon(lines).password == lines[i][|PasswordKey|..]
  {
    if NoLineWithKey(lines, PortKey) {
      NoMatchKeepsDefault(lines, PortKey);
    }
    if NoLineWithKey(lines, PasswordKey) {
      NoMatchKeepsDefault(lines, PasswordKey);
    }
    forall i | IsLastWithKey(lines, PortKey, i) ensures ParseRcon(lines).port == lines[i][|PortKey|..] {
      LastMatchSetsValue(lines, PortKey, i);
    }
    forall i | IsLastWithKey(lines, PasswordKey, i)
      ensures ParseRcon(lines).password == lines[i][|PasswordKey|..]
    {
      LastMatchSetsValue(lines, PasswordKey, i);
    }
  }

  /**
   * A line that starts with neither key (an indented key, a `#` comment,
   * any other property) may be added anywhere without changing the result.
   */
  lemma {:induction false} UnkeyedLineIgnored(before: seq<string>, line: string, after: seq<string>)
    requires !(PortKey <= line) && !(PasswordKey <= line)
    ensures ParseRcon(before + [line] + after) == ParseRcon(before + after)
    decreases |after|
  {
    if after == [] {
      assert (before + [line])[..|before|] == before;
      assert before + [line] + after == before + [line];
      assert before + after == before;
    } else {
      var n := |after| - 1;
      UnkeyedLineIgnored(before, line, after[..n]);
      assert (before + [line] + after)[..|before| + 1 + n] == before + [line] + after[..n];
      assert (before + after)[..|before| + n] == before + after[..n];
    }
  }

  /** In particular a key behind white space or after `#` is never read. */
  lemma IndentedOrCommentedKeyIgnored(before: seq<string>, line: string, after: seq<string>)
    requires line != [] && (line[0] == '#' || IsWhitespace(line[0]))
    ensures ParseRcon(before + [line] + after) == ParseRcon(before + after)
  {
    assert !(PortKey <= line) by { assert PortKey[0] == 'r'; }
    assert !(PasswordKey <= line) by { assert PasswordKey[0] == 'r'; }
    UnkeyedLineIgnored(before, line, after);
  }

  // ---------------------------------------------------------------------
  // The message of the day

  /** One item of a buffered reader's line iterator: a line, or a line that was not valid UTF-8. */
  datatype LineRead = Line(text: string) | Unreadable

  /** A readable line whose trimmed text starts with `motd=`. */
  predicate IsMotdLine(l: LineRead)
  {
    l.Line? && MotdKey <= Trim(l.text)
  }

  /**
   * The scan of the description lookup: unreadable lines, blank lines
   * and lines whose trimmed text starts with `#` are skipped; the first
   * trimmed line starting with `motd=` gives the rest of that trimmed line.
   */
  function MotdScan(lines: seq<LineRead>): string
  {
    if lines == [] then ""
    else match lines[0]
      case Unreadable => MotdScan(lines[1..])
      case Line(text) =>
        var trimmed := Trim(text);
        if CommentMark <= trimmed || trimmed == [] then MotdScan(lines[1..])
        else if MotdKey <= trimmed then trimmed[|MotdKey|..]
        else MotdScan(lines[1..])
  }

  /** The description of a server whose properties file may not open. */
  function Motd(file: Option<seq<LineRead>>): string
  {
    match file
    case None => ""
    case Some(lines) => MotdScan(lines)
  }

  /** The description lookup: the loop with its `continue`s and early return. */
  method DescriptionOf(file: Option<seq<LineRead>>) returns (motd: string)
    ensures motd == Motd(file)
  {
    if file.None? {
      return "";
    }
    var lines := file.value;
    for i := 0 to |lines|
      invariant MotdScan(lines[i..]) == MotdScan(lines)
    {
      assert lines[i..][1..] == lines[i + 1..];
      match lines[i]
      case Unreadable =>
        continue;
      case Line(text) =>
        var trimmed := Trim(text);
        if CommentMark <= trimmed || trimmed == [] {
          continue;
        }
        if MotdKey <= trimmed {
          return trimmed[|MotdKey|..];
        }
    }
    return "";
  }

  /**
   * The description is the rest of the first line whose trimmed text
   * starts with `motd=`; the comment and blank-line checks never change
   * which line that is.
   */
  lemma {:induction false} MotdIsFirstMotdLine(lines: seq<LineRead>, i: nat)
    requires i < |lines| && IsMotdLine(lines[i])
    requires forall j :: 0 <= j < i ==> !IsMotdLine(lines[j])
    ensures MotdScan(lines) == Trim(lines[i].text)[|MotdKey|..]
  {
    if i == 0 {
      assert !(CommentMark <= Trim(lines[0].text)) by { assert MotdKey[0] != CommentMark[0]; }
    } else {
      assert !IsMotdLine(lines[0]);
      assert forall j :: 0 <= j < i - 1 ==> lines[1..][j] == lines[j + 1];
      MotdIsFirstMotdLine(lines[1..], i - 1);
    }
  }

  /** Without a line whose trimmed text starts with `motd=`, the description is empty. */
  lemma {:induction false} NoMotdLineGivesEmpty(lines: seq<LineRead>)
    requires forall j :: 0 <= j < |lines| ==> !IsMotdLine(lines[j])
    ensures MotdScan(lines) == ""
  {
    if lines != [] {
      assert !IsMotdLine(lines[0]);
      assert forall j :: 0 <= j < |lines| - 1 ==> lines[1..][j] == lines[j + 1];
      NoMotdLineGivesEmpty(lines[1..]);
    }
  }
}

/**
  The device-side EEM applet (deviceLogCollector.py): create_eem_script fills
  five parameters into a fixed template, and the driver then runs
  `re.sub('\n\s+', '\n', script)` on it, so that every newline followed by
  whitespace becomes one bare newline.
*/
module EemScript {
  import Json

  // ---------------------------------------------------------------------------
  // The whitespace collapse

  /** `\s` in a Python 3 `str` pattern: exactly the characters for which
      `str.isspace()` holds. */
  predicate IsSpace(c: char) {
    || ('\t' <= c <= '\r')
    || ('\U{1C}' <= c <= ' ')
    || c == '\U{85}' || c == '\U{A0}' || c == '\U{1680}'
    || ('\U{2000}' <= c <= '\U{200A}')
    || c == '\U{2028}' || c == '\U{2029}' || c == '\U{202F}' || c == '\U{205F}' || c == '\U{3000}'
  }

  /** The leading run of whitespace removed: where a greedy `\s+` stops. */
  function DropSpaces(s: string): (r: string)
    ensures r == [] || !IsSpace(r[0])
    ensures |r| <= |s| && r == s[|s| - |r|..]
    ensures forall i :: 0 <= i < |s| - |r| ==> IsSpace(s[i])
  {
    if s != [] && IsSpace(s[0]) then DropSpaces(s[1..]) else s
  }

  /** `re.sub('\n\s+', '\n', s)`: scanning left to right, a newline followed
      by at least one whitespace character is replaced, together with the
      whole whitespace run after it, by a single newline. */
  function Collapse(s: string): string
    decreases |s|
  {
    if s == [] then []
    else if s[0] == '\n' && |s| > 1 && IsSpace(s[1]) then "\n" + Collapse(DropSpaces(s[1..]))
    else [s[0]] + Collapse(s[1..])
  }

  /** No newline is followed by whitespace: there is nothing left for the
      pattern to match. */
  ghost predicate NoIndent(s: string) {
    forall i :: 0 <= i < |s| - 1 && s[i] == '\n' ==> !IsSpace(s[i + 1])
  }

  /** The characters that are not whitespace, in order. */
  function NonSpace(s: string): string {
    if s == [] then [] else (if IsSpace(s[0]) then [] else [s[0]]) + NonSpace(s[1..])
  }

  lemma CollapseStartsWith(s: string)
    requires s != [] && !IsSpace(s[0])
    ensures Collapse(s) != [] && Collapse(s)[0] == s[0]
  {
  }

  /** After the collapse no newline is followed by whitespace. */
  lemma {:induction false} CollapseRemovesIndentation(s: string)
    ensures NoIndent(Collapse(s))
    decreases |s|
  {
    if s == [] {
    } else if s[0] == '\n' && |s| > 1 && IsSpace(s[1]) {
      var t := DropSpaces(s[1..]);
      CollapseRemovesIndentation(t);
      if t != [] { CollapseStartsWith(t); }
      var r := Collapse(s);
      assert r == "\n" + Collapse(t);
      forall i | 0 <= i < |r| - 1 && r[i] == '\n' ensures !IsSpace(r[i + 1]) {
        if i > 0 { assert r[i] == Collapse(t)[i - 1] && r[i + 1] == Collapse(t)[i]; }
      }
    } else {
      var t := s[1..];
      CollapseRemovesIndentation(t);
      var r := Collapse(s);
      assert r == [s[0]] + Collapse(t);
      if s[0] == '\n' && |s| > 1 { CollapseStartsWith(t); }
      forall i | 0 <= i < |r| - 1 && r[i] == '\n' ensures !IsSpace(r[i + 1]) {
        if i > 0 { assert r[i] == Collapse(t)[i - 1] && r[i + 1] == Collapse(t)[i]; }
      }
    }
  }

  lemma {:induction false} NonSpaceDropSpaces(s: string)
    ensures NonSpace(DropSpaces(s)) == NonSpace(s)
  {
    if s != [] && IsSpace(s[0]) {
      NonSpaceDropSpaces(s[1..]);
    }
  }

  lemma NonSpaceCons(c: char, s: string)
    ensures NonSpace([c] + s) == (if IsSpace(c) then [] else [c]) + NonSpace(s)
  {
    assert ([c] + s)[1..] == s;
  }

  /** Every character that is not whitespace survives the collapse, in its
      original order, and nothing else is added. */
  lemma {:induction false} CollapseKeepsNonSpace(s: string)
    ensures NonSpace(Collapse(s)) == NonSpace(s)
    decreases |s|
  {
    if s == [] {
    } else if s[0] == '\n' && |s| > 1 && IsSpace(s[1]) {
      var t := DropSpaces(s[1..]);
      CollapseKeepsNonSpace(t);
      NonSpaceDropSpaces(s[1..]);
      NonSpaceCons('\n', Collapse(t));
    } else {
      CollapseKeepsNonSpace(s[1..]);
      NonSpaceCons(s[0], Collapse(s[1..]));
    }
  }

  /** The collapse changes exactly the strings that still have indentation:
      it leaves `s` as it is if and only if no newline in `s` is followed by
      whitespace. */
  lemma {:induction false} CollapseFixedPoints(s: string)
    ensures Collapse(s) == s <==> NoIndent(s)
    decreases |s|
  {
    CollapseRemovesIndentation(s);
    if NoIndent(s) && s != [] {
      assert !(s[0] == '\n' && |s| > 1 && IsSpace(s[1]));
      assert NoIndent(s[1..]) by {
        forall i | 0 <= i < |s[1..]| - 1 && s[1..][i] == '\n' ensures !IsSpace(s[1..][i + 1]) {
          assert s[i + 1] == '\n';
        }
      }
      CollapseFixedPoints(s[1..]);
    }
  }

  /** Collapsing twice gives the same text as collapsing once. */
  lemma CollapseIdempotent(s: string)
    ensures Collapse(Collapse(s)) == Collapse(s)
  {
    CollapseRemovesIndentation(s);
    CollapseFixedPoints(Collapse(s));
  }

  /** The collapse never lengthens the text. */
  lemma {:induction false} CollapseShortens(s: string)
    ensures |Collapse(s)| <= |s|
    decreases |s|
  {
    if s == [] {
    } else if s[0] == '\n' && |s| > 1 && IsSpace(s[1]) {
      CollapseShortens(DropSpaces(s[1..]));
    } else {
      CollapseShortens(s[1..]);
    }
  }

  // ---------------------------------------------------------------------------
  // The template

  /** The five values create_eem_script fills in. */
  datatype ScriptParams = ScriptParams(
    iosProcess: string, ftpServerIp: string, ftpUser: string, ftpPass: string, queryInterval: string)

  /** One EEM action line: its number, then its body. */
  function Action(number: string, body: string): string {
    "action " + number + " " + body
  }

  /** An action body that runs an exec command on the device. */
  function Cli(command: string): string {
    "cli command \"" + command + "\""
  }

  /** An action body that writes a message to the device console. */
  function Puts(message: string): string {
    "puts \"" + message + "\""
  }

  /** The file name of the archive, relative to the process name. */
  const ArchiveSuffix: string := "_error_$_event_pub_sec.tar"

  /** The archive the applet writes on the device, named after the process. */
  function ArchiveFile(p: ScriptParams): string {
    "bootflash:" + p.iosProcess + ArchiveSuffix
  }

  /** Action 130's command: the process's trace logs archived into the
      archive file. */
  function ArchiveCommand(p: ScriptParams): string {
    "archive tar " + "/create " + ArchiveFile(p) + " bootflash:tracelogs " + p.iosProcess + "*"
  }

  /** Action 140's command: the archive file copied to the FTP server. */
  function CopyCommand(p: ScriptParams): string {
    "copy " + ArchiveFile(p) + " ftp://" + p.ftpServerIp
  }

  /** The applet's name and its trigger: a watchdog timer that fires every
      `queryInterval` seconds. */
  function HeaderLines(p: ScriptParams): seq<string> {
    [ "event manager applet DNACGetLog",
      "event timer watchdog time " + p.queryInterval ]
  }

  /** Actions 001 to 006: no confirmation prompts, privileged mode, and the
      FTP credentials configured. */
  function LoginLines(p: ScriptParams): seq<string> {
    [ Action("001", Cli("file prompt quiet")),
      Action("002", Cli("enable")),
      Action("003", Cli("config terminal")),
      Action("004", Cli("ip ftp username " + p.ftpUser)),
      Action("005", Cli("ip ftp password " + p.ftpPass)),
      Action("006", Cli("end")) ]
  }

  /** Actions 100 to 120: dump the process's error-level trace and test it
      for ERR. */
  function ProbeLines(p: ScriptParams): seq<string> {
    [ Action("100", Cli("show plat soft trace " + "filter-binary process " + p.iosProcess + " level error")),
      Action("110", "regexp \"ERR\" \"$_cli_result\" result"),
      Action("120", "if $_regexp_result eq \"1\"") ]
  }

  /** Actions 125 to 150, the if-branch (one space deeper): rotate the trace
      logs, archive them under the process's name and copy the archive to
      the FTP server. */
  function ArchiveLines(p: ScriptParams): seq<string> {
    [ Action("125", " " + Cli("request platform soft trace rotate all")),
      Action("130", " " + Cli(ArchiveCommand(p))),
      Action("140", " " + Cli(CopyCommand(p))),
      Action("150", " " + Puts("Copied Collected logs to FTP Server")) ]
  }

  /** Actions 160 to 180: the else-branch and the end of the if. */
  const ClosingLines: seq<string> :=
    [ Action("160", "else"),
      Action("170", " " + Puts("No logs to collected")),
      Action("180", "end") ]

  /** The applet's eighteen lines, parameters filled in. */
  function ScriptLines(p: ScriptParams): seq<string> {
    HeaderLines(p) + LoginLines(p) + ProbeLines(p) + ArchiveLines(p) + ClosingLines
  }

  /** The lines joined by `sep`, with nothing after the last one. */
  function Join(lines: seq<string>, sep: string): string {
    if lines == [] then [] else if |lines| == 1 then lines[0] else lines[0] + sep + Join(lines[1..], sep)
  }

  /** The source's triple-quoted literal breaks each line with a newline and
      sixteen spaces of indentation. */
  const Margin: string := "                "
  const Indent: string := "\n" + Margin

  lemma MarginIsWhitespace()
    ensures |Margin| == 16 && forall i :: 0 <= i < |Margin| ==> IsSpace(Margin[i])
  {
  }

  /** create_eem_script: the template with its source indentation. */
  function CreateEemScript(p: ScriptParams): string {
    Join(ScriptLines(p), Indent)
  }

  /** The script's first line declares the applet DNACGetLog. */
  lemma ScriptNamesApplet(p: ScriptParams)
    ensures StartsWith(CreateEemScript(p), "event manager applet DNACGetLog\n")
  {
    var lines := ScriptLines(p);
    var head := "event manager applet DNACGetLog";
    assert |lines| == 18 && lines[0] == head;
    assert StartsWith(head + Indent, head + "\n") by {
      assert (head + Indent)[..|head + "\n"|] == head + "\n";
    }
    StartsWithExtend(head + Indent, Join(lines[1..], Indent), head + "\n");
  }

  /** Python's `s.split('\n')`: the pieces between newlines, one more than
      there are newlines. */
  function SplitLines(s: string): (r: seq<string>)
    ensures |r| >= 1
  {
    if s == [] then [[]]
    else
      var rest := SplitLines(s[1..]);
      if s[0] == '\n' then [[]] + rest else [[s[0]] + rest[0]] + rest[1..]
  }

  predicate NoNewline(s: string) {
    forall i :: 0 <= i < |s| ==> s[i] != '\n'
  }

  lemma {:induction false} CollapseSkipsLine(a: string, b: string)
    requires NoNewline(a)
    ensures Collapse(a + b) == a + Collapse(b)
  {
    if a != [] {
      assert (a + b)[0] == a[0] && (a + b)[1..] == a[1..] + b;
      assert a[0] != '\n';
      assert NoNewline(a[1..]) by {
        forall i | 0 <= i < |a[1..]| ensures a[1..][i] != '\n' { assert a[1..][i] == a[i + 1]; }
      }
      assert Collapse(a + b) == [a[0]] + Collapse(a[1..] + b);
      CollapseSkipsLine(a[1..], b);
      assert [a[0]] + (a[1..] + Collapse(b)) == a + Collapse(b);
    } else {
      assert a + b == b;
    }
  }

  lemma {:induction false} DropSpacesPrefix(ws: string, rest: string)
    requires forall i :: 0 <= i < |ws| ==> IsSpace(ws[i])
    requires rest == [] || !IsSpace(rest[0])
    ensures DropSpaces(ws + rest) == rest
  {
    if ws != [] {
      assert (ws + rest)[1..] == ws[1..] + rest;
      DropSpacesPrefix(ws[1..], rest);
    } else {
      assert ws + rest == rest;
    }
  }

  /** Lines free of newlines, every line after the first starting with a
      character that is not whitespace: what the collapse needs to see the
      line breaks and nothing else. */
  ghost predicate CleanLines(lines: seq<string>) {
    && (forall i :: 0 <= i < |lines| ==> NoNewline(lines[i]))
    && (forall i :: 1 <= i < |lines| ==> lines[i] != [] && !IsSpace(lines[i][0]))
  }

  /** A newline followed by indentation and then a character that is not
      whitespace collapses to the bare newline. */
  lemma CollapseLineBreak(ws: string, rest: string)
    requires ws != [] && forall i :: 0 <= i < |ws| ==> IsSpace(ws[i])
    requires rest == [] || !IsSpace(rest[0])
    ensures Collapse("\n" + ws + rest) == "\n" + Collapse(rest)
  {
    var t := "\n" + ws + rest;
    assert t[0] == '\n' && t[1] == ws[0] && t[1..] == ws + rest;
    DropSpacesPrefix(ws, rest);
  }

  /** Collapsing lines joined by a newline and indentation leaves them joined
      by bare newlines. */
  lemma {:induction false} CollapseJoin(lines: seq<string>, ws: string)
    requires CleanLines(lines)
    requires ws != [] && forall i :: 0 <= i < |ws| ==> IsSpace(ws[i])
    ensures Collapse(Join(lines, "\n" + ws)) == Join(lines, "\n")
  {
    if |lines| == 1 {
      CollapseSkipsLine(lines[0], []);
      assert lines[0] + [] == lines[0];
    } else if |lines| > 1 {
      var rest := Join(lines[1..], "\n" + ws);
      assert CleanLines(lines[1..]);
      CollapseJoin(lines[1..], ws);
      assert rest[0] == lines[1][0] by {
        if |lines| == 2 { assert rest == lines[1]; }
      }
      CollapseLineBreak(ws, rest);
      assert Join(lines, "\n" + ws) == lines[0] + ("\n" + ws + rest);
      CollapseSkipsLine(lines[0], "\n" + ws + rest);
      assert Join(lines, "\n") == lines[0] + ("\n" + Join(lines[1..], "\n"));
    }
  }

  lemma {:induction false} SplitLine(a: string, b: string)
    requires NoNewline(a)
    ensures SplitLines(a + "\n" + b) == [a] + SplitLines(b)
  {
    if a == [] {
      assert ("\n" + b)[1..] == b;
    } else {
      assert (a + "\n" + b)[1..] == a[1..] + "\n" + b;
      SplitLine(a[1..], b);
      assert [a[0]] + a[1..] == a;
    }
  }

  lemma {:induction false} SplitNoNewline(a: string)
    requires NoNewline(a)
    ensures SplitLines(a) == [a]
  {
    if a != [] {
      SplitNoNewline(a[1..]);
      assert [a[0]] + a[1..] == a;
    }
  }

  /** Splitting newline-joined lines gives the lines back. */
  lemma {:induction false} SplitJoin(lines: seq<string>)
    requires lines != []
    requires forall i :: 0 <= i < |lines| ==> NoNewline(lines[i])
    ensures SplitLines(Join(lines, "\n")) == lines
  {
    if |lines| == 1 {
      SplitNoNewline(lines[0]);
    } else {
      SplitJoin(lines[1..]);
      SplitLine(lines[0], Join(lines[1..], "\n"));
      assert [lines[0]] + lines[1..] == lines;
    }
  }

  /** The parameters fit on one line each. */
  ghost predicate SingleLineParams(p: ScriptParams) {
    NoNewline(p.iosProcess) && NoNewline(p.ftpServerIp) && NoNewline(p.ftpUser)
    && NoNewline(p.ftpPass) && NoNewline(p.queryInterval)
  }

  lemma NoNewlineConcat(a: string, b: string)
    requires NoNewline(a) && NoNewline(b)
    ensures NoNewline(a + b)
  {
    assert forall i :: |a| <= i < |a + b| ==> (a + b)[i] == b[i - |a|];
  }

  lemma ActionSingleLine(number: string, body: string)
    requires NoNewline(number) && NoNewline(body)
    ensures NoNewline(Action(number, body)) && Action(number, body)[0] == 'a'
  {
    NoNewlineConcat("action ", number);
    NoNewlineConcat("action " + number, " ");
    NoNewlineConcat("action " + number + " ", body);
  }

  lemma CliSingleLine(command: string)
    requires NoNewline(command)
    ensures NoNewline(Cli(command)) && NoNewline(" " + Cli(command))
  {
    NoNewlineConcat("cli command \"", command);
    NoNewlineConcat("cli command \"" + command, "\"");
    NoNewlineConcat(" ", Cli(command));
  }

  lemma CliLineSingle(number: string, command: string, indent: bool)
    requires NoNewline(number) && NoNewline(command)
    ensures NoNewline(Action(number, if indent then " " + Cli(command) else Cli(command)))
    ensures Action(number, if indent then " " + Cli(command) else Cli(command))[0] == 'a'
  {
    CliSingleLine(command);
    ActionSingleLine(number, if indent then " " + Cli(command) else Cli(command));
  }

  lemma PutsLineSingle(number: string, message: string)
    requires NoNewline(number) && NoNewline(message)
    ensures NoNewline(Action(number, " " + Puts(message))) && Action(number, " " + Puts(message))[0] == 'a'
  {
    NoNewlineConcat("puts \"", message);
    NoNewlineConcat("puts \"" + message, "\"");
    NoNewlineConcat(" ", Puts(message));
    ActionSingleLine(number, " " + Puts(message));
  }

  /** Every line is free of newlines. */
  ghost predicate AllSingle(lines: seq<string>) {
    forall i :: 0 <= i < |lines| ==> NoNewline(lines[i])
  }

  /** Every line starts with a character that is not whitespace. */
  ghost predicate AllStartSolid(lines: seq<string>) {
    forall i :: 0 <= i < |lines| ==> lines[i] != [] && !IsSpace(lines[i][0])
  }

  lemma AllSingleConcat(a: seq<string>, b: seq<string>)
    requires AllSingle(a) && AllSingle(b)
    ensures AllSingle(a + b)
  {
    assert forall i :: |a| <= i < |a + b| ==> (a + b)[i] == b[i - |a|];
  }

  lemma AllStartSolidConcat(a: seq<string>, b: seq<string>)
    requires AllStartSolid(a) && AllStartSolid(b)
    ensures AllStartSolid(a + b)
  {
    assert forall i :: |a| <= i < |a + b| ==> (a + b)[i] == b[i - |a|];
  }

  lemma HeaderLinesSingle(p: ScriptParams)
    requires SingleLineParams(p)
    ensures AllSingle(HeaderLines(p))
  {
    NoNewlineConcat("event timer watchdog time ", p.queryInterval);
  }

  lemma LoginLineSingle(p: ScriptParams, i: int)
    requires SingleLineParams(p) && 0 <= i < 6
    ensures NoNewline(LoginLines(p)[i]) && LoginLines(p)[i][0] == 'a'
  {
    var line := LoginLines(p)[i];
    if i == 0 {
      assert line == Action("001", Cli("file prompt quiet"));
      CliLineSingle("001", "file prompt quiet", false);
    } else if i == 1 {
      assert line == Action("002", Cli("enable"));
      CliLineSingle("002", "enable", false);
    } else if i == 2 {
      assert line == Action("003", Cli("config terminal"));
      CliLineSingle("003", "config terminal", false);
    } else if i == 3 {
      assert line == Action("004", Cli("ip ftp username " + p.ftpUser));
      NoNewlineConcat("ip ftp username ", p.ftpUser);
      CliLineSingle("004", "ip ftp username " + p.ftpUser, false);
    } else if i == 4 {
      assert line == Action("005", Cli("ip ftp password " + p.ftpPass));
      NoNewlineConcat("ip ftp password ", p.ftpPass);
      CliLineSingle("005", "ip ftp password " + p.ftpPass, false);
    } else {
      assert line == Action("006", Cli("end"));
      CliLineSingle("006", "end", false);
    }
  }

  lemma LoginLinesSingle(p: ScriptParams)
    requires SingleLineParams(p)
    ensures AllSingle(LoginLines(p)) && AllStartSolid(LoginLines(p))
  {
    forall i | 0 <= i < |LoginLines(p)|
      ensures NoNewline(LoginLines(p)[i]) && LoginLines(p)[i] != [] && !IsSpace(LoginLines(p)[i][0])
    {
      LoginLineSingle(p, i);
    }
  }

  lemma ProbeLineSingle(p: ScriptParams, i: int)
    requires SingleLineParams(p) && 0 <= i < 3
    ensures NoNewline(ProbeLines(p)[i]) && ProbeLines(p)[i][0] == 'a'
  {
    var line := ProbeLines(p)[i];
    if i == 0 {
      var command := "show plat soft trace " + "filter-binary process " + p.iosProcess + " level error";
      assert line == Action("100", Cli(command));
      NoNewlineConcat("show plat soft trace " + "filter-binary process ", p.iosProcess);
      NoNewlineConcat("show plat soft trace " + "filter-binary process " + p.iosProcess, " level error");
      CliLineSingle("100", command, false);
    } else if i == 1 {
      assert line == Action("110", "regexp \"ERR\" \"$_cli_result\" result");
      ActionSingleLine("110", "regexp \"ERR\" \"$_cli_result\" result");
    } else {
      assert line == Action("120", "if $_regexp_result eq \"1\"");
      ActionSingleLine("120", "if $_regexp_result eq \"1\"");
    }
  }

  lemma ProbeLinesSingle(p: ScriptParams)
    requires SingleLineParams(p)
    ensures AllSingle(ProbeLines(p)) && AllStartSolid(ProbeLines(p))
  {
    forall i | 0 <= i < |ProbeLines(p)|
      ensures NoNewline(ProbeLines(p)[i]) && ProbeLines(p)[i] != [] && !IsSpace(ProbeLines(p)[i][0])
    {
      ProbeLineSingle(p, i);
    }
  }

  lemma ArchiveCommandsSingle(p: ScriptParams)
    requires SingleLineParams(p)
    ensures NoNewline(ArchiveCommand(p)) && NoNewline(CopyCommand(p))
  {
    NoNewlineConcat("bootflash:", p.iosProcess);
    NoNewlineConcat("bootflash:" + p.iosProcess, ArchiveSuffix);
    var a := "archive tar " + "/create ";
    NoNewlineConcat(a, ArchiveFile(p));
    NoNewlineConcat(a + ArchiveFile(p), " bootflash:tracelogs ");
    NoNewlineConcat(a + ArchiveFile(p) + " bootflash:tracelogs ", p.iosProcess);
    NoNewlineConcat(a + ArchiveFile(p) + " bootflash:tracelogs " + p.iosProcess, "*");
    NoNewlineConcat("copy ", ArchiveFile(p));
    NoNewlineConcat("copy " + ArchiveFile(p), " ftp://");
    NoNewlineConcat("copy " + ArchiveFile(p) + " ftp://", p.ftpServerIp);
  }

  lemma ArchiveLinesSingle(p: ScriptParams)
    requires SingleLineParams(p)
    ensures AllSingle(ArchiveLines(p)) && AllStartSolid(ArchiveLines(p))
  {
    ArchiveCommandsSingle(p);
    CliLineSingle("125", "request platform soft trace rotate all", true);
    CliLineSingle("130", ArchiveCommand(p), true);
    CliLineSingle("140", CopyCommand(p), true);
    PutsLineSingle("150", "Copied Collected logs to FTP Server");
  }

  lemma ClosingLinesSingle()
    ensures AllSingle(ClosingLines) && AllStartSolid(ClosingLines)
  {
    ActionSingleLine("160", "else");
    PutsLineSingle("170", "No logs to collected");
    ActionSingleLine("180", "end");
  }

  lemma ScriptLinesSingle(p: ScriptParams)
    requires SingleLineParams(p)
    ensures AllSingle(ScriptLines(p))
    ensures AllStartSolid(ScriptLines(p)[1..])
  {
    HeaderLinesSingle(p);
    LoginLinesSingle(p);
    ProbeLinesSingle(p);
    ArchiveLinesSingle(p);
    ClosingLinesSingle();
    var h := HeaderLines(p);
    AllSingleConcat(h, LoginLines(p));
    AllSingleConcat(h + LoginLines(p), ProbeLines(p));
    AllSingleConcat(h + LoginLines(p) + ProbeLines(p), ArchiveLines(p));
    AllSingleConcat(h + LoginLines(p) + ProbeLines(p) + ArchiveLines(p), ClosingLines);
    var t := [h[1]];
    assert AllStartSolid(t) by { assert t[0][0] == 'e'; }
    AllStartSolidConcat(t, LoginLines(p));
    AllStartSolidConcat(t + LoginLines(p), ProbeLines(p));
    AllStartSolidConcat(t + LoginLines(p) + ProbeLines(p), ArchiveLines(p));
    AllStartSolidConcat(t + LoginLines(p) + ProbeLines(p) + ArchiveLines(p), ClosingLines);
    assert ScriptLines(p)[1..] == t + LoginLines(p) + ProbeLines(p) + ArchiveLines(p) + ClosingLines;
  }

  lemma ScriptLinesClean(p: ScriptParams)
    requires SingleLineParams(p)
    ensures CleanLines(ScriptLines(p))
  {
    ScriptLinesSingle(p);
    var ls := ScriptLines(p);
    forall i | 1 <= i < |ls| ensures ls[i] != [] && !IsSpace(ls[i][0]) {
      assert ls[i] == ls[1..][i - 1];
    }
  }

  /** What the device receives, line by line: when no parameter holds a
      newline, the collapsed script splits into exactly the eighteen template
      lines, the indentation gone and every parameter in its place. */
  lemma DeviceScriptLines(p: ScriptParams)
    requires SingleLineParams(p)
    ensures Collapse(CreateEemScript(p)) == Join(ScriptLines(p), "\n")
    ensures SplitLines(Collapse(CreateEemScript(p))) == ScriptLines(p)
    ensures |SplitLines(Collapse(CreateEemScript(p)))| == 18
  {
    ScriptLinesClean(p);
    MarginIsWhitespace();
    CollapseJoin(ScriptLines(p), Margin);
    SplitJoin(ScriptLines(p));
  }

  // ---------------------------------------------------------------------------
  // The action numbers, and the two commands that move the logs

  predicate StartsWith(s: string, prefix: string) {
    |prefix| <= |s| && s[..|prefix|] == prefix
  }

  /** The action numbers of the applet, in the order its lines carry them;
      EEM runs an applet's actions in the order of their numbers. */
  const ActionNumbers: seq<string> :=
    ["001", "002", "003", "004", "005", "006", "100", "110", "120", "125", "130", "140", "150", "160", "170", "180"]

  /** A line that is the action numbered `number`. */
  predicate Numbered(line: string, number: string) {
    StartsWith(line, "action " + number + " ")
  }

  ghost predicate NumberedAs(lines: seq<string>, numbers: seq<string>) {
    |lines| == |numbers| && forall i :: 0 <= i < |lines| ==> Numbered(lines[i], numbers[i])
  }

  lemma ActionNumbered(number: string, body: string)
    ensures Numbered(Action(number, body), number)
  {
    assert Action(number, body) == ("action " + number + " ") + body;
  }

  lemma NumberedConcat(a: seq<string>, na: seq<string>, b: seq<string>, nb: seq<string>)
    requires NumberedAs(a, na) && NumberedAs(b, nb)
    ensures NumberedAs(a + b, na + nb)
  {
    assert forall i :: |a| <= i < |a + b| ==> (a + b)[i] == b[i - |a|] && (na + nb)[i] == nb[i - |a|];
  }

  lemma LoginNumbered(p: ScriptParams)
    ensures NumberedAs(LoginLines(p), ActionNumbers[..6])
  {
    forall number, body ensures Numbered(Action(number, body), number) {
      ActionNumbered(number, body);
    }
  }

  lemma ProbeNumbered(p: ScriptParams)
    ensures NumberedAs(ProbeLines(p), ActionNumbers[6..9])
  {
    forall number, body ensures Numbered(Action(number, body), number) {
      ActionNumbered(number, body);
    }
  }

  lemma ArchiveNumbered(p: ScriptParams)
    ensures NumberedAs(ArchiveLines(p), ActionNumbers[9..13])
  {
    forall number, body ensures Numbered(Action(number, body), number) {
      ActionNumbered(number, body);
    }
  }

  lemma ClosingNumbered()
    ensures NumberedAs(ClosingLines, ActionNumbers[13..])
  {
    forall number, body ensures Numbered(Action(number, body), number) {
      ActionNumbered(number, body);
    }
  }

  /** Every line after the two header lines is an action, and the actions
      carry the numbers 001 to 180 in order. */
  lemma ActionsInOrder(p: ScriptParams)
    ensures |ScriptLines(p)| == 2 + |ActionNumbers|
    ensures forall i :: 0 <= i < |ActionNumbers| ==> Numbered(ScriptLines(p)[i + 2], ActionNumbers[i])
  {
    var login, probe, archive := LoginLines(p), ProbeLines(p), ArchiveLines(p);
    LoginNumbered(p);
    ProbeNumbered(p);
    ArchiveNumbered(p);
    ClosingNumbered();
    NumberedConcat(login, ActionNumbers[..6], probe, ActionNumbers[6..9]);
    assert ActionNumbers[..6] + ActionNumbers[6..9] == ActionNumbers[..9];
    NumberedConcat(login + probe, ActionNumbers[..9], archive, ActionNumbers[9..13]);
    assert ActionNumbers[..9] + ActionNumbers[9..13] == ActionNumbers[..13];
    NumberedConcat(login + probe + archive, ActionNumbers[..13], ClosingLines, ActionNumbers[13..]);
    assert ActionNumbers[..13] + ActionNumbers[13..] == ActionNumbers;
    var actions := login + probe + archive + ClosingLines;
    assert ScriptLines(p) == HeaderLines(p) + actions;
    forall i | 0 <= i < |ActionNumbers| ensures Numbered(ScriptLines(p)[i + 2], ActionNumbers[i]) {
      assert ScriptLines(p)[i + 2] == actions[i];
    }
  }

  /** The value of a three-digit numeral. */
  lemma ThreeDigits(s: string)
    requires |s| == 3 && Json.AllDigits(s)
    ensures Json.DigitsValue(s) ==
      (s[0] as int - '0' as int) * 100 + (s[1] as int - '0' as int) * 10 + (s[2] as int - '0' as int)
  {
    var two, one := s[..2], s[..1];
    assert two[..1] == one && one[..0] == [] && s[..|s| - 1] == two && two[..|two| - 1] == one;
    assert Json.DigitsValue(one) == s[0] as int - '0' as int;
    assert Json.DigitsValue(two) == Json.DigitsValue(one) * 10 + (s[1] as int - '0' as int);
  }

  lemma {:induction false} AdjacentIncreasing(s: seq<int>)
    requires forall i :: 0 <= i < |s| - 1 ==> s[i] < s[i + 1]
    ensures forall i, j :: 0 <= i < j < |s| ==> s[i] < s[j]
  {
    if |s| > 1 {
      var init := s[..|s| - 1];
      assert forall i :: 0 <= i < |init| - 1 ==> init[i] < init[i + 1];
      AdjacentIncreasing(init);
      forall i, j | 0 <= i < j < |s| ensures s[i] < s[j] {
        if j < |s| - 1 {
          assert init[i] < init[j];
        } else if i < j - 1 {
          assert init[i] < init[j - 1];
        }
      }
    }
  }

  /** The action numbers are three-digit numerals whose values strictly
      increase from 1 to 180, so the actions run in the order they are
      written. */
  lemma ActionNumbersIncrease()
    ensures ActionNumbers[0] == "001" && ActionNumbers[|ActionNumbers| - 1] == "180"
    ensures forall i :: 0 <= i < |ActionNumbers| ==> |ActionNumbers[i]| == 3 && Json.AllDigits(ActionNumbers[i])
    ensures forall i, j :: 0 <= i < j < |ActionNumbers| ==>
      Json.DigitsValue(ActionNumbers[i]) < Json.DigitsValue(ActionNumbers[j])
    ensures Json.DigitsValue(ActionNumbers[0]) == 1 && Json.DigitsValue(ActionNumbers[|ActionNumbers| - 1]) == 180
  {
    var values := [1, 2, 3, 4, 5, 6, 100, 110, 120, 125, 130, 140, 150, 160, 170, 180];
    forall i | 0 <= i < |ActionNumbers|
      ensures |ActionNumbers[i]| == 3 && Json.AllDigits(ActionNumbers[i])
      ensures Json.DigitsValue(ActionNumbers[i]) == values[i]
    {
      ThreeDigits(ActionNumbers[i]);
    }
    AdjacentIncreasing(values);
  }

  /** A line that is an action running an exec command that begins with
      `command`, at whatever indentation. */
  predicate RunsCli(line: string, command: string) {
    && StartsWith(line, "action ") && |line| >= 11
    && StartsWith(DropSpaces(line[11..]), "cli command \"" + command)
  }

  /** A text can only begin with a prefix it agrees with at position `k`. */
  lemma DiffersAt(s: string, prefix: string, k: nat)
    requires k < |prefix| && (k < |s| ==> s[k] != prefix[k])
    ensures !StartsWith(s, prefix)
  {
  }

  lemma StartsWithCommon(head: string, tail: string, prefix: string)
    ensures StartsWith(head + tail, head + prefix) <==> StartsWith(tail, prefix)
  {
    var s := head + tail;
    if StartsWith(tail, prefix) {
      assert s[..|head + prefix|] == head + tail[..|prefix|];
    }
    if StartsWith(s, head + prefix) {
      assert tail[..|prefix|] == s[..|head + prefix|][|head|..];
    }
  }

  /** An action line with three-digit number and `body` hands `body`, its
      indentation dropped, to the device. */
  lemma ActionBody(number: string, body: string)
    requires |number| == 3
    ensures StartsWith(Action(number, body), "action ") && |Action(number, body)| >= 11
    ensures Action(number, body)[11..] == body
  {
    assert Action(number, body) == "action " + (number + " " + body);
  }

  /** Which commands a cli action runs: those its command begins with. */
  lemma CliRuns(number: string, body: string, command: string, c: string)
    requires |number| == 3 && (body == Cli(command) || body == " " + Cli(command))
    ensures RunsCli(Action(number, body), c) <==> StartsWith(command + "\"", c)
  {
    ActionBody(number, body);
    assert Cli(command) == "cli command \"" + (command + "\"");
    if body != Cli(command) {
      DropSpacesPrefix(" ", Cli(command));
    }
    StartsWithCommon("cli command \"", command + "\"", c);
  }

  /** A cli action whose command begins with neither word runs neither
      command. */
  lemma CliRunsNeither(number: string, body: string, command: string)
    requires |number| == 3 && (body == Cli(command) || body == " " + Cli(command))
    requires command != [] && command[0] != 'a' && (command[0] != 'c' || (|command| > 2 && command[2] != 'p'))
    ensures !RunsCli(Action(number, body), "archive tar ") && !RunsCli(Action(number, body), "copy ")
  {
    CliRuns(number, body, command, "archive tar ");
    CliRuns(number, body, command, "copy ");
    DiffersAt(command + "\"", "archive tar ", 0);
    DiffersAt(command + "\"", "copy ", if command[0] == 'c' then 2 else 0);
  }

  /** An action whose body, past its indentation, does not begin with `c`
      runs no exec command. */
  lemma OtherRunsNeither(number: string, body: string, text: string)
    requires |number| == 3 && (body == text || body == " " + text)
    requires text != [] && text[0] != 'c' && !IsSpace(text[0])
    ensures !RunsCli(Action(number, body), "archive tar ") && !RunsCli(Action(number, body), "copy ")
  {
    ActionBody(number, body);
    if body != text {
      DropSpacesPrefix(" ", text);
    }
    DiffersAt(text, "cli command \"" + "archive tar ", 0);
    DiffersAt(text, "cli command \"" + "copy ", 0);
  }

  /** Lines none of which runs the archive or the copy. */
  ghost predicate RunsNeither(lines: seq<string>) {
    forall i :: 0 <= i < |lines| ==> !RunsCli(lines[i], "archive tar ") && !RunsCli(lines[i], "copy ")
  }

  lemma HeaderRunsNeither(p: ScriptParams)
    ensures RunsNeither(HeaderLines(p))
  {
    DiffersAt(HeaderLines(p)[0], "action ", 0);
    DiffersAt(HeaderLines(p)[1], "action ", 0);
  }

  lemma LoginLineRunsNeither(p: ScriptParams, i: nat)
    requires i < |LoginLines(p)|
    ensures !RunsCli(LoginLines(p)[i], "archive tar ") && !RunsCli(LoginLines(p)[i], "copy ")
  {
    var line := LoginLines(p)[i];
    if i == 0 {
      assert line == Action("001", Cli("file prompt quiet"));
      CliRunsNeither("001", Cli("file prompt quiet"), "file prompt quiet");
    } else if i == 1 {
      assert line == Action("002", Cli("enable"));
      CliRunsNeither("002", Cli("enable"), "enable");
    } else if i == 2 {
      assert line == Action("003", Cli("config terminal"));
      CliRunsNeither("003", Cli("config terminal"), "config terminal");
    } else if i == 3 {
      var user := "ip ftp username " + p.ftpUser;
      assert line == Action("004", Cli(user));
      CliRunsNeither("004", Cli(user), user);
    } else if i == 4 {
      var pass := "ip ftp password " + p.ftpPass;
      assert line == Action("005", Cli(pass));
      CliRunsNeither("005", Cli(pass), pass);
    } else {
      assert line == Action("006", Cli("end"));
      CliRunsNeither("006", Cli("end"), "end");
    }
  }

  lemma LoginRunsNeither(p: ScriptParams)
    ensures RunsNeither(LoginLines(p))
  {
    forall i | 0 <= i < |LoginLines(p)|
      ensures !RunsCli(LoginLines(p)[i], "archive tar ") && !RunsCli(LoginLines(p)[i], "copy ")
    {
      LoginLineRunsNeither(p, i);
    }
  }

  lemma ProbeLineRunsNeither(p: ScriptParams, i: nat)
    requires i < |ProbeLines(p)|
    ensures !RunsCli(ProbeLines(p)[i], "archive tar ") && !RunsCli(ProbeLines(p)[i], "copy ")
  {
    var line := ProbeLines(p)[i];
    if i == 0 {
      var show := "show plat soft trace " + "filter-binary process " + p.iosProcess + " level error";
      assert line == Action("100", Cli(show));
      CliRunsNeither("100", Cli(show), show);
    } else if i == 1 {
      var regexp := "regexp \"ERR\" \"$_cli_result\" result";
      assert line == Action("110", regexp);
      OtherRunsNeither("110", regexp, regexp);
    } else {
      var test := "if $_regexp_result eq \"1\"";
      assert line == Action("120", test);
      OtherRunsNeither("120", test, test);
    }
  }

  lemma ProbeRunsNeither(p: ScriptParams)
    ensures RunsNeither(ProbeLines(p))
  {
    forall i | 0 <= i < |ProbeLines(p)|
      ensures !RunsCli(ProbeLines(p)[i], "archive tar ") && !RunsCli(ProbeLines(p)[i], "copy ")
    {
      ProbeLineRunsNeither(p, i);
    }
  }

  lemma ClosingLineRunsNeither(i: nat)
    requires i < |ClosingLines|
    ensures !RunsCli(ClosingLines[i], "archive tar ") && !RunsCli(ClosingLines[i], "copy ")
  {
    var line := ClosingLines[i];
    if i == 0 {
      assert line == Action("160", "else");
      OtherRunsNeither("160", "else", "else");
    } else if i == 1 {
      assert line == Action("170", " " + Puts("No logs to collected"));
      OtherRunsNeither("170", " " + Puts("No logs to collected"), Puts("No logs to collected"));
    } else {
      assert line == Action("180", "end");
      OtherRunsNeither("180", "end", "end");
    }
  }

  lemma ClosingRunsNeither()
    ensures RunsNeither(ClosingLines)
  {
    forall i | 0 <= i < |ClosingLines|
      ensures !RunsCli(ClosingLines[i], "archive tar ") && !RunsCli(ClosingLines[i], "copy ")
    {
      ClosingLineRunsNeither(i);
    }
  }


  lemma StartsWithExtend(s: string, t: string, prefix: string)
    requires StartsWith(s, prefix)
    ensures StartsWith(s + t, prefix)
  {
    assert (s + t)[..|prefix|] == s[..|prefix|];
  }

  /** Action 130's command begins with `archive tar`, action 140's with
      `copy`. */
  lemma CommandWords(p: ScriptParams)
    ensures StartsWith(ArchiveCommand(p) + "\"", "archive tar ")
    ensures StartsWith(CopyCommand(p) + "\"", "copy ")
  {
    var a := "archive tar ";
    assert StartsWith(a, a);
    StartsWithExtend(a, "/create ", a);
    StartsWithExtend(a + "/create ", ArchiveFile(p), a);
    StartsWithExtend(a + "/create " + ArchiveFile(p), " bootflash:tracelogs ", a);
    StartsWithExtend(a + "/create " + ArchiveFile(p) + " bootflash:tracelogs ", p.iosProcess, a);
    StartsWithExtend(a + "/create " + ArchiveFile(p) + " bootflash:tracelogs " + p.iosProcess, "*", a);
    StartsWithExtend(ArchiveCommand(p), "\"", a);
    var c := "copy ";
    assert StartsWith(c, c);
    StartsWithExtend(c, ArchiveFile(p), c);
    StartsWithExtend(c + ArchiveFile(p), " ftp://", c);
    StartsWithExtend(c + ArchiveFile(p) + " ftp://", p.ftpServerIp, c);
    StartsWithExtend(CopyCommand(p), "\"", c);
  }

  /** In the if-branch, the second action archives the process's trace logs
      into the archive file, the third copies that file to the FTP server,
      and the other two run neither command. */
  lemma ArchiveSection(p: ScriptParams)
    ensures !RunsCli(ArchiveLines(p)[0], "archive tar ") && !RunsCli(ArchiveLines(p)[0], "copy ")
    ensures RunsCli(ArchiveLines(p)[1], "archive tar ") && !RunsCli(ArchiveLines(p)[1], "copy ")
    ensures RunsCli(ArchiveLines(p)[2], "copy ") && !RunsCli(ArchiveLines(p)[2], "archive tar ")
    ensures !RunsCli(ArchiveLines(p)[3], "archive tar ") && !RunsCli(ArchiveLines(p)[3], "copy ")
  {
    var rotate := "request platform soft trace rotate all";
    CliRunsNeither("125", " " + Cli(rotate), rotate);
    OtherRunsNeither("150", " " + Puts("Copied Collected logs to FTP Server"), Puts("Copied Collected logs to FTP Server"));
    CommandWords(p);
    var archive := ArchiveCommand(p);
    CliRuns("130", " " + Cli(archive), archive, "archive tar ");
    CliRuns("130", " " + Cli(archive), archive, "copy ");
    DiffersAt(archive + "\"", "copy ", 0);
    var copy := CopyCommand(p);
    CliRuns("140", " " + Cli(copy), copy, "archive tar ");
    CliRuns("140", " " + Cli(copy), copy, "copy ");
    DiffersAt(copy + "\"", "archive tar ", 0);
  }

  lemma RunsNeitherConcat(a: seq<string>, b: seq<string>)
    requires RunsNeither(a) && RunsNeither(b)
    ensures RunsNeither(a + b)
  {
    assert forall i :: |a| <= i < |a + b| ==> (a + b)[i] == b[i - |a|];
  }

  /** Outside the if-branch, no line runs either command. */
  lemma PlainLines(p: ScriptParams)
    ensures |ScriptLines(p)| == 18
    ensures RunsNeither(ScriptLines(p)[..11]) && RunsNeither(ScriptLines(p)[15..])
    ensures ScriptLines(p)[11..15] == ArchiveLines(p)
  {
    var head, login, probe := HeaderLines(p), LoginLines(p), ProbeLines(p);
    HeaderRunsNeither(p);
    LoginRunsNeither(p);
    ProbeRunsNeither(p);
    ClosingRunsNeither();
    RunsNeitherConcat(head, login);
    RunsNeitherConcat(head + login, probe);
    var lines := ScriptLines(p);
    assert lines == (head + login + probe) + ArchiveLines(p) + ClosingLines;
    assert lines[..11] == head + login + probe;
    assert lines[15..] == ClosingLines;
  }

  /** Exactly one action of the applet archives the trace logs, into a file
      named after the process, and exactly one, the next, copies that same
      file to `ftp://` and the server's address. */
  lemma ArchiveThenCopy(p: ScriptParams)
    ensures |ScriptLines(p)| == 18
    ensures forall i :: 0 <= i < |ScriptLines(p)| ==> (RunsCli(ScriptLines(p)[i], "archive tar ") <==> i == 12)
    ensures forall i :: 0 <= i < |ScriptLines(p)| ==> (RunsCli(ScriptLines(p)[i], "copy ") <==> i == 13)
    ensures ScriptLines(p)[12] == Action("130", " " + Cli(ArchiveCommand(p)))
    ensures ScriptLines(p)[13] == Action("140", " " + Cli(CopyCommand(p)))
  {
    var lines := ScriptLines(p);
    PlainLines(p);
    ArchiveSection(p);
    var archive := ArchiveLines(p);
    forall i | 0 <= i < |lines|
      ensures (RunsCli(lines[i], "archive tar ") <==> i == 12) && (RunsCli(lines[i], "copy ") <==> i == 13)
    {
      if i < 11 {
        assert lines[i] == lines[..11][i];
      } else if i == 11 {
        assert lines[i] == archive[0];
      } else if i == 12 {
        assert lines[i] == archive[1];
      } else if i == 13 {
        assert lines[i] == archive[2];
      } else if i == 14 {
        assert lines[i] == archive[3];
      } else {
        assert lines[i] == lines[15..][i - 15];
      }
    }
    assert lines[12] == archive[1] && lines[13] == archive[2];
  }


}

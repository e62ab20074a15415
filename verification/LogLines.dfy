/** Log entries and lines of text, as std::getline sees them. */
module LogLines {
  /** The text is a log entry for this output: the stamp in brackets, a blank, then the whole
      output, and after it one newline exactly if it does not end in one itself. */
  predicate Stamped(text: string, stamp: string, output: string)
    requires output != ""
  {
    var start := |stamp| + 3;
    var end := start + |output|;
    && |text| >= end
    && text[0] == '[' && text[1..start - 2] == stamp && text[start - 2] == ']' && text[start - 1] == ' '
    && text[start..end] == output
    && (output[|output| - 1] == '\n' ==> |text| == end)
    && (output[|output| - 1] != '\n' ==> |text| == end + 1 && text[end] == '\n')
  }

  /** What one write appends: the bracketed stamp, the output, a newline if one is missing. */
  function Entry(stamp: string, output: string): (e: string)
    ensures output != "" ==> e != "" && e[|e| - 1] == '\n' && Stamped(e, stamp, output)
  {
    "[" + stamp + "] " + output + if output == "" || output[|output| - 1] == '\n' then "" else "\n"
  }

  /** An entry gives its stamp and its output away, as long as all stamps have one length; only
      whether the final newline was the output's own is lost. */
  lemma EntryGivesOutput(text: string, stamp: string, output: string, other: string, another: string)
    requires output != "" && another != "" && |other| == |stamp|
    requires Stamped(text, stamp, output) && Stamped(text, other, another)
    ensures other == stamp
    ensures another == output || another == output + "\n" || output == another + "\n"
  {
    var start := |stamp| + 3;
    assert |another| > |output| ==> text[start..start + |another|] == text[start..start + |output|] + "\n";
    assert |output| > |another| ==> text[start..start + |output|] == text[start..start + |another|] + "\n";
  }

  /** std::getline on a non-empty rest: the text up to the first newline, and what follows it. */
  function GetLine(s: string): (r: (string, string))
    requires s != ""
    ensures |r.1| < |s|
    ensures '\n' !in r.0
    ensures s == r.0 + "\n" + r.1 || (s == r.0 && r.1 == "")
  {
    if s[0] == '\n' then ("", s[1..])
    else if |s| == 1 then (s, "")
    else
      var (line, rest) := GetLine(s[1..]);
      ([s[0]] + line, rest)
  }

  function Lines(s: string): seq<string>
    decreases |s|
  {
    if s == "" then [] else [GetLine(s).0] + Lines(GetLine(s).1)
  }

  function Unlines(lines: seq<string>): string {
    if lines == [] then "" else lines[0] + "\n" + Unlines(lines[1..])
  }

  function LastLines(lines: seq<string>, n: int): seq<string> {
    if n <= 0 then [] else if n >= |lines| then lines else lines[|lines| - n..]
  }

  /** Pushing a line and dropping the oldest one when the window is too long keeps the
      window equal to the last lines seen. */
  lemma WindowStep(seen: seq<string>, line: string, n: int)
    ensures LastLines(seen + [line], n) ==
              var window := LastLines(seen, n) + [line];
              if |window| > n then window[1..] else window
  {
  }

  /** Writing out the next line of the window. */
  lemma UnlinesStep(result: string, lines: seq<string>)
    requires lines != []
    ensures result + Unlines(lines) == (result + lines[0] + "\n") + Unlines(lines[1..])
  {
  }

  /** Reading the next line of the file. */
  lemma LinesStep(seen: seq<string>, rest: string)
    requires rest != ""
    ensures seen + Lines(rest) == (seen + [GetLine(rest).0]) + Lines(GetLine(rest).1)
  {
  }
}

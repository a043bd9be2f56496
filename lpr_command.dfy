/** The `lpr` argument vector the print service builds for a print job on
    macOS and on other Unix systems (python-api/main.py, `print_macos` and
    `print_unix`, whose command-building code is identical), the
    PowerShell command it builds on Windows, and a decoder that reads an
    `lpr` vector back into its options. */
module LprCommand {
  import opened Wrappers
  import opened Text
  import opened Records

  /** One `lpr` option; each is written as exactly two arguments. */
  datatype LprOption =
    | PrinterOpt(id: string)      // -P <printer>
    | CopiesOpt(n: nat)           // -# <copies>
    | Landscape                   // -o landscape
    | Grayscale                   // -o ColorModel=Gray
    | DraftQuality                // -o print-quality=3
    | PageRanges(pages: string)   // -o page-ranges=<pages>

  /** The place of an option in the fixed order the builder emits. */
  function Rank(o: LprOption): nat {
    match o
    case PrinterOpt(_) => 0
    case CopiesOpt(_) => 1
    case Landscape => 2
    case Grayscale => 3
    case DraftQuality => 4
    case PageRanges(_) => 5
  }

  const PageRangesKey := "page-ranges="

  /** The two arguments that spell an option. */
  function Tokens(o: LprOption): (t: seq<string>)
    ensures |t| == 2
  {
    match o
    case PrinterOpt(id) => ["-P", id]
    case CopiesOpt(n) => ["-#", NatToString(n)]
    case Landscape => ["-o", "landscape"]
    case Grayscale => ["-o", "ColorModel=Gray"]
    case DraftQuality => ["-o", "print-quality=3"]
    case PageRanges(p) => ["-o", PageRangesKey + p]
  }

  /** The options a job's settings call for, in the builder's order.
      Python truthiness: a printer id or page string counts only when
      non-empty. */
  function LprOptions(s: PrintSettings): seq<LprOption> {
    (if s.printerId != "" then [PrinterOpt(s.printerId)] else [])
    + (if s.copies > 1 then [CopiesOpt(s.copies)] else [])
    + (if s.orientation == "landscape" then [Landscape] else [])
    + (if !s.isColor then [Grayscale] else [])
    + (if s.isDraft then [DraftQuality] else [])
    + (if s.pages != "" && s.pages != "all" then [PageRanges(s.pages)] else [])
  }

  /** Each option depends on one setting, and only on it; `-P` and
      `page-ranges` carry the setting verbatim and `-#` the copy count. */
  lemma LprOptionsPresence(s: PrintSettings)
    ensures forall id :: PrinterOpt(id) in LprOptions(s) <==> s.printerId != "" && id == s.printerId
    ensures forall n :: CopiesOpt(n) in LprOptions(s) <==> s.copies > 1 && n == s.copies
    ensures Landscape in LprOptions(s) <==> s.orientation == "landscape"
    ensures Grayscale in LprOptions(s) <==> !s.isColor
    ensures DraftQuality in LprOptions(s) <==> s.isDraft
    ensures forall p :: PageRanges(p) in LprOptions(s) <==> s.pages != "" && s.pages != "all" && p == s.pages
  {
  }

  /** The options come in the fixed order printer, copies, orientation,
      colour, draft, pages, each at most once. */
  lemma LprOptionsOrder(s: PrintSettings)
    ensures forall i, j :: 0 <= i < j < |LprOptions(s)| ==> Rank(LprOptions(s)[i]) < Rank(LprOptions(s)[j])
  {
  }

  /** The arguments of a list of options, two per option, in order. */
  function Render(opts: seq<LprOption>): (t: seq<string>)
    ensures |t| == 2 * |opts|
    decreases |opts|
  {
    if opts == [] then [] else Tokens(opts[0]) + Render(opts[1..])
  }

  lemma {:induction false} RenderAppend(a: seq<LprOption>, b: seq<LprOption>)
    ensures Render(a + b) == Render(a) + Render(b)
    decreases |a|
  {
    if a == [] {
      assert a + b == b;
    } else {
      assert (a + b)[0] == a[0];
      assert (a + b)[1..] == a[1..] + b;
      RenderAppend(a[1..], b);
      calc {
        Render(a + b);
        Tokens(a[0]) + Render(a[1..] + b);
        Tokens(a[0]) + (Render(a[1..]) + Render(b));
        Render(a) + Render(b);
      }
    }
  }

  /** The full `lpr` command for a job: the program name, the options,
      and the file path last. */
  function LprArgs(s: PrintSettings, path: string): (cmd: seq<string>)
    ensures |cmd| == 2 + 2 * |LprOptions(s)|
    ensures cmd[0] == "lpr" && cmd[|cmd| - 1] == path
  {
    ["lpr"] + Render(LprOptions(s)) + [path]
  }

  /** One builder step: appending an option's two arguments to a
      command that spells `opts` gives the command that spells
      `opts + [o]`. */
  lemma Extend(cmd: seq<string>, opts: seq<LprOption>, o: LprOption)
    requires cmd == ["lpr"] + Render(opts)
    ensures cmd + Tokens(o) == ["lpr"] + Render(opts + [o])
  {
    RenderAppend(opts, [o]);
    assert Render([o]) == Tokens(o) + Render([]);
  }

  /** `print_unix` / `print_macos`, lines building `cmd`: start from
      `['lpr']`, extend it once per applicable option, append the path. */
  method BuildLprCommand(job: PrintCommand) returns (cmd: seq<string>)
    ensures cmd == LprArgs(job.settings, job.filePath)
  {
    var s := job.settings;
    cmd := ["lpr"];
    // opts: the options emitted so far
    ghost var opts: seq<LprOption> := [];
    if s.printerId != "" {
      Extend(cmd, opts, PrinterOpt(s.printerId));
      cmd, opts := cmd + ["-P", s.printerId], opts + [PrinterOpt(s.printerId)];
    }
    assert opts == (if s.printerId != "" then [PrinterOpt(s.printerId)] else []);
    ghost var done := opts;
    if s.copies > 1 {
      Extend(cmd, opts, CopiesOpt(s.copies));
      cmd, opts := cmd + ["-#", NatToString(s.copies)], opts + [CopiesOpt(s.copies)];
    }
    assert opts == done + (if s.copies > 1 then [CopiesOpt(s.copies)] else []);
    done := opts;
    if s.orientation == "landscape" {
      Extend(cmd, opts, Landscape);
      cmd, opts := cmd + ["-o", "landscape"], opts + [Landscape];
    }
    assert opts == done + (if s.orientation == "landscape" then [Landscape] else []);
    done := opts;
    if !s.isColor {
      Extend(cmd, opts, Grayscale);
      cmd, opts := cmd + ["-o", "ColorModel=Gray"], opts + [Grayscale];
    }
    assert opts == done + (if !s.isColor then [Grayscale] else []);
    done := opts;
    if s.isDraft {
      Extend(cmd, opts, DraftQuality);
      cmd, opts := cmd + ["-o", "print-quality=3"], opts + [DraftQuality];
    }
    assert opts == done + (if s.isDraft then [DraftQuality] else []);
    done := opts;
    if s.pages != "" && s.pages != "all" {
      Extend(cmd, opts, PageRanges(s.pages));
      cmd, opts := cmd + ["-o", PageRangesKey + s.pages], opts + [PageRanges(s.pages)];
    }
    assert opts == done + (if s.pages != "" && s.pages != "all" then [PageRanges(s.pages)] else []);
    cmd := cmd + [job.filePath];
  }

  /** `print_windows`: a PowerShell `Start-Process -Verb Print` on the
      file. It passes no print setting at all. */
  function WindowsArgs(path: string): (cmd: seq<string>)
    ensures |cmd| == 3 && cmd[0] == "powershell" && cmd[1] == "-Command"
    ensures Contains(cmd[2], path)
  {
    var head := "Start-Process -FilePath \"";
    var script := head + path + "\" -Verb Print -WindowStyle Hidden";
    assert script[|head|..|head| + |path|] == path;
    ContainsAt(script, path, |head|);
    ["powershell", "-Command", script]
  }

  // ----- reading an lpr command back -----

  /** What an `lpr` command asks for: its options and the file. */
  datatype LprInvocation = LprInvocation(options: seq<LprOption>, path: string)

  function DecodeOption(flag: string, value: string): Option<LprOption> {
    if flag == "-P" then Some(PrinterOpt(value))
    else if flag == "-#" then
      match ParseNat(value)
      case Some(n) => Some(CopiesOpt(n))
      case None => None
    else if flag != "-o" then None
    else if value == "landscape" then Some(Landscape)
    else if value == "ColorModel=Gray" then Some(Grayscale)
    else if value == "print-quality=3" then Some(DraftQuality)
    else if StartsWith(value, PageRangesKey) then Some(PageRanges(value[|PageRangesKey|..]))
    else None
  }

  function DecodeOptions(t: seq<string>): Option<seq<LprOption>>
    decreases |t|
  {
    if t == [] then Some([])
    else if |t| == 1 then None
    else
      match (DecodeOption(t[0], t[1]), DecodeOptions(t[2..]))
      case (Some(o), Some(rest)) => Some([o] + rest)
      case _ => None
  }

  /** Reads an argument vector of the shape `lpr <options> <path>`. */
  function DecodeLpr(cmd: seq<string>): Option<LprInvocation> {
    if |cmd| < 2 || cmd[0] != "lpr" then None
    else
      match DecodeOptions(cmd[1..|cmd| - 1])
      case Some(opts) => Some(LprInvocation(opts, cmd[|cmd| - 1]))
      case None => None
  }

  lemma DecodeTokens(o: LprOption)
    ensures DecodeOption(Tokens(o)[0], Tokens(o)[1]) == Some(o)
  {
    match o
    case CopiesOpt(n) => ParseNatToString(n);
    case PageRanges(p) =>
      var v := PageRangesKey + p;
      assert v[..|PageRangesKey|] == PageRangesKey;
      assert v[1] == 'a';
      assert v[|PageRangesKey|..] == p;
    case _ =>
  }

  lemma {:induction false} DecodeRender(opts: seq<LprOption>)
    ensures DecodeOptions(Render(opts)) == Some(opts)
    decreases |opts|
  {
    if opts != [] {
      var t := Render(opts);
      assert t == Tokens(opts[0]) + Render(opts[1..]);
      assert t[0] == Tokens(opts[0])[0] && t[1] == Tokens(opts[0])[1];
      assert t[2..] == Render(opts[1..]);
      DecodeTokens(opts[0]);
      DecodeRender(opts[1..]);
      assert [opts[0]] + opts[1..] == opts;
    }
  }

  /** The command is a faithful serialisation: decoding it gives back
      exactly the options the settings call for, in order, and the path. */
  lemma {:induction false} LprRoundTrip(s: PrintSettings, path: string)
    ensures DecodeLpr(LprArgs(s, path)) == Some(LprInvocation(LprOptions(s), path))
  {
    var cmd := LprArgs(s, path);
    assert cmd[1..|cmd| - 1] == Render(LprOptions(s));
    DecodeRender(LprOptions(s));
  }
}

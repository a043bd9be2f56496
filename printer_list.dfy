/** The printer lists of the print service (python-api/main.py):
    `get_printers_unix` and `get_printers_macos` read the output of
    `lpstat -p` line by line (the two functions are the same code), and
    `get_printers_windows` maps the objects of `Get-Printer |
    ConvertTo-Json`. The subprocess outputs are inputs here. */
module PrinterList {
  import opened Wrappers
  import opened Text
  import opened Records

  // ----- lpstat -p -----

  /** The result of running `lpstat -p` with `check=True`: a non-zero
      exit raises, which the parser turns into an empty list. */
  datatype LpstatRun = LpstatFailed | LpstatStdout(text: string)

  /** A line describes a printer when it starts with `printer` and has at
      least two whitespace-separated words. */
  predicate DescribesPrinter(line: string) {
    StartsWith(line, "printer") && |Words(line)| >= 2
  }

  /** The record of one printer line: its second word is both id and
      name; it is online unless the line mentions `disabled` or
      `offline` anywhere; lpstat gives no driver. */
  function LpstatRecord(line: string): (p: Printer)
    requires DescribesPrinter(line)
    ensures p.id == p.name == Words(line)[1] && p.id != ""
    ensures p.isOnline <==> !Contains(line, "disabled") && !Contains(line, "offline")
    ensures p.driverName == None
  {
    var name := Words(line)[1];
    Printer(name, name, !Contains(line, "disabled") && !Contains(line, "offline"), None)
  }

  /** A line of the form `printer <name> <rest>`, as `lpstat -p` writes
      it, names the printer by the run of characters after `printer `. */
  lemma LpstatNamedLine(name: string, rest: string)
    requires |name| > 0 && NoSpace(name)
    ensures DescribesPrinter("printer " + name + " " + rest)
    ensures LpstatRecord("printer " + name + " " + rest).id == name
  {
    var p := "printer";
    assert NoSpace(p);
    TwoRunsThenRest(p, name, rest);
    var line := "printer " + name + " " + rest;
    assert line == p + [' '] + name + [' '] + rest;
    assert line[..7] == p;
  }

  /** The printers described by a list of lines, in line order. */
  function LpstatPrinters(lines: seq<string>): (ps: seq<Printer>)
    ensures |ps| <= |lines|
    ensures forall k :: 0 <= k < |ps| ==> ps[k].id == ps[k].name && ps[k].id != "" && ps[k].driverName == None
    decreases |lines|
  {
    if lines == [] then []
    else
      var rest := LpstatPrinters(lines[1..]);
      if DescribesPrinter(lines[0]) then [LpstatRecord(lines[0])] + rest else rest
  }

  /** A single line yields one record if it describes a printer and none
      otherwise. */
  lemma LpstatPrintersOfLine(line: string)
    ensures LpstatPrinters([line]) == if DescribesPrinter(line) then [LpstatRecord(line)] else []
  {
    assert [line][1..] == [];
  }

  /** Lines are read independently and in order: the records of two
      blocks of lines are the records of the first, then of the second. */
  lemma {:induction false} LpstatPrintersAppend(a: seq<string>, b: seq<string>)
    ensures LpstatPrinters(a + b) == LpstatPrinters(a) + LpstatPrinters(b)
    decreases |a|
  {
    if a == [] {
      assert a + b == b;
    } else {
      assert (a + b)[0] == a[0];
      assert (a + b)[1..] == a[1..] + b;
      LpstatPrintersAppend(a[1..], b);
    }
  }

  /** The loop of `get_printers_unix` / `get_printers_macos`: split the
      output at `\n`, keep one record per printer line. */
  method GetPrintersLpstat(run: LpstatRun) returns (printers: seq<Printer>)
    ensures run.LpstatFailed? ==> printers == []
    ensures run.LpstatStdout? ==> printers == LpstatPrinters(SplitOn(run.text, '\n'))
  {
    printers := [];
    if run.LpstatFailed? {
      return;
    }
    var lines := SplitOn(run.text, '\n');
    var i := 0;
    while i < |lines|
      invariant 0 <= i <= |lines|
      invariant printers == LpstatPrinters(lines[..i])
    {
      var line := lines[i];
      assert lines[..i + 1] == lines[..i] + [line];
      LpstatPrintersAppend(lines[..i], [line]);
      LpstatPrintersOfLine(line);
      if StartsWith(line, "printer") {
        var parts := Words(line);
        if |parts| >= 2 {
          var name := parts[1];
          var isOnline := !Contains(line, "disabled") && !Contains(line, "offline");
          printers := printers + [Printer(name, name, isOnline, None)];
        }
      }
      i := i + 1;
    }
    assert lines[..i] == lines;
  }

  // ----- Get-Printer | ConvertTo-Json -----

  /** The JSON values a `PrinterStatus` field can hold. */
  datatype JsonScalar = JString(s: string) | JNumber(n: int) | JBool(b: bool) | JNull

  /** The `DriverName` key: missing, null, or a string. */
  datatype DriverField = DriverAbsent | DriverNull | DriverString(s: string)

  /** One element of the parsed JSON: an object with the keys the mapping
      reads (None for a missing key), or something that is not an object. */
  datatype WinEntry =
    | WinObject(name: Option<string>, status: Option<JsonScalar>, driver: DriverField)
    | WinNotObject

  /** The parsed JSON is a list, or a single value the code wraps in one. */
  datatype WinJson = WinList(entries: seq<WinEntry>) | WinSingle(entry: WinEntry)

  /** The PowerShell run: it fails (`check=True`), prints something that
      is not JSON, or prints JSON. */
  datatype WinRun = WinFailed | WinNotJson | WinParsed(json: WinJson)

  function Entries(j: WinJson): seq<WinEntry> {
    match j
    case WinList(es) => es
    case WinSingle(e) => [e]
  }

  /** The entry can be mapped: `printer['Name']` and
      `printer['PrinterStatus']` raise on anything else. */
  predicate Mappable(e: WinEntry) {
    e.WinObject? && e.name.Some? && e.status.Some?
  }

  /** One printer of `Get-Printer`: `Name` is id and name, online iff
      `PrinterStatus` is `Normal`, and `printer.get('DriverName', '')`
      gives "" for a missing key and None for a JSON null. */
  function WinRecord(e: WinEntry): (p: Printer)
    requires Mappable(e)
    ensures p.id == p.name == e.name.value
    ensures p.isOnline <==> e.status.value == JString("Normal")
    ensures p.driverName.None? <==> e.driver.DriverNull?
    ensures e.driver.DriverAbsent? ==> p.driverName == Some("")
  {
    Printer(e.name.value, e.name.value, e.status.value == JString("Normal"),
      match e.driver
      case DriverAbsent => Some("")
      case DriverNull => None
      case DriverString(d) => Some(d))
  }

  /** The list `get_printers_windows` returns. Any exception in the `try`
      (a failed run, output that is not JSON, an entry that is not an
      object or lacks `Name` or `PrinterStatus`) yields the empty list, so
      the result is all or nothing. */
  function WindowsPrinters(run: WinRun): (ps: seq<Printer>)
    ensures run.WinParsed? && (forall e :: e in Entries(run.json) ==> Mappable(e)) ==>
              |ps| == |Entries(run.json)| &&
              forall k :: 0 <= k < |ps| ==> ps[k] == WinRecord(Entries(run.json)[k])
    ensures !run.WinParsed? || (exists e :: e in Entries(run.json) && !Mappable(e)) ==> ps == []
  {
    if run.WinParsed? && forall e :: e in Entries(run.json) ==> Mappable(e) then
      var es := Entries(run.json);
      seq(|es|, k requires 0 <= k < |es| => WinRecord(es[k]))
    else []
  }

  /** A printer is reported online only when its `PrinterStatus` is the
      string `Normal`; a numeric status never is. */
  lemma WindowsOnline(run: WinRun, k: nat)
    requires k < |WindowsPrinters(run)|
    ensures run.WinParsed? && k < |Entries(run.json)| && Mappable(Entries(run.json)[k])
    ensures WindowsPrinters(run)[k].isOnline <==> Entries(run.json)[k].status == Some(JString("Normal"))
  {
    assert run.WinParsed? && forall e :: e in Entries(run.json) ==> Mappable(e);
    assert Entries(run.json)[k] in Entries(run.json);
  }

  /** The loop of `get_printers_windows`. */
  method GetPrintersWindows(run: WinRun) returns (printers: seq<Printer>)
    ensures printers == WindowsPrinters(run)
  {
    if !run.WinParsed? {
      return [];
    }
    var es := Entries(run.json);
    printers := [];
    var i := 0;
    while i < |es|
      invariant 0 <= i <= |es|
      invariant forall j :: 0 <= j < i ==> Mappable(es[j])
      invariant |printers| == i && forall k :: 0 <= k < i ==> printers[k] == WinRecord(es[k])
    {
      var e := es[i];
      if !(e.WinObject? && e.name.Some? && e.status.Some?) {
        assert e in es && !Mappable(e);
        return [];
      }
      var driver := match e.driver
        case DriverAbsent => Some("")
        case DriverNull => None
        case DriverString(d) => Some(d);
      printers := printers + [Printer(e.name.value, e.name.value, e.status.value == JString("Normal"), driver)];
      i := i + 1;
    }
  }
}

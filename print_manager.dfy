/**
 * The print manager of WebPrint (package qz): the raw command buffer and its encodings, the
 * dot-density setting for images, raw/HTML/socket printing with automatic spooling, the bound
 * printer, and the single serial-port session.
 *
 * The collaborators the manager calls but whose code is not part of this model (Base64,
 * ByteUtilities, the charset, PrintServiceMatcher, PrintRaw's and PrintHTML's print calls,
 * SerialIO) are the fields of an `Env`: total functions that give each call's result.
 * What the print sinks received is recorded in `jobs`, and every call made on SerialIO in
 * `serialCalls`, so that order and "nothing was printed" can be stated.
 */
module Qz {
  import opened Base
  import opened JavaText

  /** An opaque handle on an operating-system printer. */
  datatype PrintService = PrintService(name: string)

  /** An element of a JSON array as qz.json hands it out; JOther is any other class of value. */
  datatype JsonValue = JInt(v: int) | JString(s: string) | JNull | JOther(className: string)

  /** A JSON object of serial settings, read with `getString`. */
  type PortSettings = map<string, string>

  datatype SerialParams = SerialParams(baud: string, dataBits: string, stopBits: string, parity: string, flow: string)

  /** A job handed to a print sink. */
  datatype Job =
    | RawJob(service: PrintService, data: Bytes)
    | HtmlJob(service: PrintService, html: seq<string>)
    | SocketJob(host: string, port: int, data: Bytes)

  /** A call made on SerialIO. */
  datatype SerialCall =
    | Close
    | Open(portName: string)
    | SetProperties(params: SerialParams)
    | AutoSetProperties
    | Transmit(data: Bytes)

  /** The results the unseen collaborators give. */
  datatype Env = Env(
    decode64: string -> Res<Bytes>,              // Base64.decode
    decodeHex: string -> Res<Bytes>,             // ByteUtilities.hexStringToByteArray
    encode: string -> Bytes,                     // String.getBytes with the manager's charset
    splitPages: (Bytes, Bytes, int) -> seq<Bytes>, // ByteUtilities.splitByteArray(buffer, marker, max)
    findPrinter: string -> Option<PrintService>, // PrintServiceMatcher.findPrinter
    rawPrint: (PrintService, Bytes) -> Status,   // PrintRaw.print
    htmlPrint: (PrintService, seq<string>) -> Status, // PrintHTML.print
    socketPrint: (string, int, Bytes) -> Status, // PrintRaw.printToSocket
    serialOpen: string -> Status,                // SerialIO.open
    serialSetProperties: SerialParams -> Status, // SerialIO.setProperties
    serialAutoSet: Status,                       // SerialIO.autoSetProperties
    serialSend: Bytes -> Status)                 // SerialIO.send

  /** The text `append` tests for: a backslash, 'x', '0', '0'. */
  const NUL_ESCAPE: string := "\\x00"
  /** The text the regular expression of `append`'s split matches: two backslashes, 'x', '0', '0'. */
  const NUL_ESCAPE_SPLIT: string := "\\\\x00"
  const DEFAULT_DOT_DENSITY: int := 32
  const DEFAULT_SOCKET_PORT: int := 9100
  /** What `getPortName().equals(…)` throws while SerialIO holds no port name. */
  const NO_PORT_NAME: Throwable := Throwable("java.lang.NullPointerException", "SerialIO holds no port name")

  const INVALID_SOCKET_TARGET: Throwable := Throwable("qz.exception.NullPrintServiceException",
    "Invalid port or host specified.  Port values must be non-zero posistive integers.  Host values must not be empty")
  const EMPTY_JSON_ARRAY: Throwable := Throwable("qz.json.JSONException", "JSONArray[0] not found.")

  function NotANumber(i: nat): Throwable {
    Throwable("qz.json.JSONException", "JSONArray[" + FormatInt(i) + "] is not a number.")
  }

  function NotAString(i: nat): Throwable {
    Throwable("qz.json.JSONException", "JSONArray[" + FormatInt(i) + "] not a string.")
  }

  function NumberFormat(s: string): Throwable {
    Throwable("java.lang.NumberFormatException", "For input string: \"" + s + "\"")
  }

  function MissingKey(key: string): Throwable {
    Throwable("qz.json.JSONException", "JSONObject[\"" + key + "\"] not found.")
  }

  /** The class name `getClass().getName()` reports for a JSON value. */
  function ClassName(v: JsonValue): string {
    match v
    case JInt(_) => "java.lang.Integer"
    case JString(_) => "java.lang.String"
    case JNull => "qz.json.JSONObject$Null"
    case JOther(c) => c
  }

  function UnsupportedArray(first: JsonValue): Throwable {
    Throwable("qz.exception.NullCommandException", "JSON Arrays of type " + ClassName(first) + " are not yet supported")
  }

  /** `isBlank`: every character is one that `String.trim()` drops (U+0020 or below). */
  predicate IsBlank(s: string) {
    forall i :: 0 <= i < |s| ==> s[i] <= ' '
  }

  /** `String.trim()`: drops the characters up to U+0020 at both ends. */
  function Trim(s: string): (r: string)
    ensures |r| <= |s|
    decreases |s|
  {
    if |s| > 0 && s[0] <= ' ' then Trim(s[1..])
    else if |s| > 0 && s[|s| - 1] <= ' ' then Trim(s[..|s| - 1])
    else s
  }

  /** A text is blank exactly when trimming it leaves the empty string. */
  lemma {:induction false} BlankIffTrimmedEmpty(s: string)
    ensures IsBlank(s) <==> Trim(s) == ""
    decreases |s|
  {
    if |s| > 0 && s[0] <= ' ' {
      BlankIffTrimmedEmpty(s[1..]);
      assert forall i :: 0 < i < |s| ==> s[i] == s[1..][i - 1];
    } else if |s| > 0 && s[|s| - 1] <= ' ' {
      BlankIffTrimmedEmpty(s[..|s| - 1]);
      assert forall i :: 0 <= i < |s| - 1 ==> s[i] == s[..|s| - 1][i];
    }
  }

  // ---------------------------------------------------------------- JSON arrays

  /** Java's `(byte)` cast: the low eight bits of `v`. */
  function LowByte(v: int): (b: byte)
    ensures (v - b as int) % 256 == 0
  {
    (v % 256) as byte
  }

  /** An element an integer array can turn into a byte: an Integer, or null (which becomes 0). */
  predicate IntLike(e: JsonValue) {
    e.JInt? || e.JNull?
  }

  /** An element a string array can append: a String, or null (which is skipped). */
  predicate StringLike(e: JsonValue) {
    e.JString? || e.JNull?
  }

  /** The byte an element gives: `(byte)` of the Integer, 0 for null. */
  function ElementByte(e: JsonValue): (b: byte)
    requires IntLike(e)
    ensures e.JNull? ==> b == 0
    ensures e.JInt? && 0 <= e.v < 256 ==> b as int == e.v
    ensures e.JInt? && -128 <= e.v < 0 ==> b as int == e.v + 256
  {
    if e.JInt? then LowByte(e.v) else 0
  }

  /** The index of the first element that fails `ok`, or the length when none does. */
  function FirstFailing(items: seq<JsonValue>, ok: JsonValue -> bool): (k: nat)
    ensures k <= |items|
    ensures forall i :: 0 <= i < k ==> ok(items[i])
    ensures k < |items| ==> !ok(items[k])
    decreases |items|
  {
    if items == [] || !ok(items[0]) then 0 else 1 + FirstFailing(items[1..], ok)
  }

  /** The first failing position is the one before which every element passes and at which one fails. */
  lemma {:induction false} FirstFailingAt(items: seq<JsonValue>, ok: JsonValue -> bool, k: nat)
    requires k <= |items| && (forall j :: 0 <= j < k ==> ok(items[j])) && (k < |items| ==> !ok(items[k]))
    ensures FirstFailing(items, ok) == k
    decreases k
  {
    if k > 0 {
      FirstFailingAt(items[1..], ok, k - 1);
    }
  }

  /** The bytes a string array appends: each String encoded, nulls skipped. */
  function StringElementsBytes(items: seq<JsonValue>, encode: string -> Bytes): Bytes
    requires forall i :: 0 <= i < |items| ==> StringLike(items[i])
    decreases |items|
  {
    if items == [] then []
    else
      var last := items[|items| - 1];
      StringElementsBytes(items[..|items| - 1], encode) + (if last.JString? then encode(last.s) else [])
  }

  /** The bytes of a string array are those of its parts in order; a null part adds nothing. */
  lemma {:induction false} StringElementsConcat(a: seq<JsonValue>, b: seq<JsonValue>, encode: string -> Bytes)
    requires forall i :: 0 <= i < |a| ==> StringLike(a[i])
    requires forall i :: 0 <= i < |b| ==> StringLike(b[i])
    ensures StringElementsBytes(a + b, encode) == StringElementsBytes(a, encode) + StringElementsBytes(b, encode)
    ensures StringElementsBytes([JNull], encode) == []
    decreases |b|
  {
    assert [JNull][..0] == [];
    if b == [] {
      assert a + b == a;
    } else {
      StringElementsConcat(a, b[..|b| - 1], encode);
      assert (a + b)[..|a + b| - 1] == a + b[..|b| - 1];
    }
  }

  // ---------------------------------------------------------------- text

  /** The pieces of `append`'s split, each followed by a NUL byte. */
  function NulTerminated(parts: seq<string>, encode: string -> Bytes): (r: Bytes)
    ensures |r| >= |parts|
    ensures parts != [] ==> r[|r| - 1] == 0
    decreases |parts|
  {
    if parts == [] then [] else NulTerminated(parts[..|parts| - 1], encode) + encode(parts[|parts| - 1]) + [0]
  }

  /**
   * The bytes `append(s)` adds: when `s` contains `\x00`, the pieces of `s` split at `\\x00`,
   * each followed by NUL, otherwise `s` encoded; and in both cases `s` encoded once more.
   */
  function TextBytes(s: string, encode: string -> Bytes): Bytes {
    FirstPass(s, encode) + encode(s)
  }

  /** The bytes of the branch taken before the text is appended once more. */
  function FirstPass(s: string, encode: string -> Bytes): Bytes {
    if Contains(s, NUL_ESCAPE) then NulTerminated(Split(s, NUL_ESCAPE_SPLIT), encode) else encode(s)
  }

  /** Whichever branch is taken, the text goes in once more at the end. */
  lemma TextAppendedLast(s: string, encode: string -> Bytes)
    ensures var r := TextBytes(s, encode);
      |r| >= |encode(s)| && r[|r| - |encode(s)|..] == encode(s)
  {
    var r := TextBytes(s, encode);
    var first := FirstPass(s, encode);
    assert r == first + encode(s);
    assert r[|first|..] == encode(s);
  }

  /** Text without the escape is appended twice over. */
  lemma PlainTextAppendedTwice(s: string, encode: string -> Bytes)
    requires !Contains(s, NUL_ESCAPE)
    ensures TextBytes(s, encode) == encode(s) + encode(s)
  {
  }

  /**
   * Text with the single-backslash escape `\x00` but not the double-backslash text the split
   * looks for is not split at all: it is appended, then a NUL, then appended again.
   */
  lemma SingleEscapeNotSplit(s: string, encode: string -> Bytes)
    requires Contains(s, NUL_ESCAPE) && !Contains(s, NUL_ESCAPE_SPLIT)
    ensures TextBytes(s, encode) == encode(s) + [0] + encode(s)
  {
    SplitWithoutSeparator(s, NUL_ESCAPE_SPLIT);
    assert NulTerminated([s], encode) == NulTerminated([], encode) + encode(s) + [0];
  }

  /** The double-backslash text always contains the single-backslash escape, so it is always split. */
  lemma DoubleEscapeIsSplit(s: string)
    requires Contains(s, NUL_ESCAPE_SPLIT)
    ensures Contains(s, NUL_ESCAPE)
  {
    var i :| OccursAt(s, NUL_ESCAPE_SPLIT, i);
    assert s[i + 1..i + 5] == s[i..i + 5][1..];
    assert OccursAt(s, NUL_ESCAPE, i + 1);
  }

  // ---------------------------------------------------------------- spooling

  /** The jobs a run of prints handed to the sink, and the exception that stopped it, if any. */
  datatype SpoolRun = SpoolRun(printed: seq<Job>, failure: Option<Throwable>)

  /**
   * Printing `pages` one after another on `service`, stopping at the first page whose print
   * throws: every page before it is printed once, in order, and nothing after it.
   */
  function PrintPages(service: PrintService, pages: seq<Bytes>, sink: (PrintService, Bytes) -> Status): (r: SpoolRun)
    ensures |r.printed| <= |pages|
    ensures forall i :: 0 <= i < |r.printed| ==> r.printed[i] == RawJob(service, pages[i]) && sink(service, pages[i]).Done?
    ensures r.failure.None? <==> |r.printed| == |pages|
    ensures r.failure.Some? ==> sink(service, pages[|r.printed|]) == Raised(r.failure.value)
    decreases |pages|
  {
    if pages == [] then SpoolRun([], None)
    else
      var before := PrintPages(service, pages[..|pages| - 1], sink);
      if before.failure.Some? then before
      else
        match sink(service, pages[|pages| - 1])
        case Done => SpoolRun(before.printed + [RawJob(service, pages[|pages| - 1])], None)
        case Raised(e) => SpoolRun(before.printed, Some(e))
  }

  /** When every page prints, each page is printed exactly once, in order. */
  lemma AllPagesPrinted(service: PrintService, pages: seq<Bytes>, sink: (PrintService, Bytes) -> Status)
    requires forall i :: 0 <= i < |pages| ==> sink(service, pages[i]).Done?
    ensures PrintPages(service, pages, sink) == SpoolRun(seq(|pages|, i requires 0 <= i < |pages| => RawJob(service, pages[i])), None)
  {
  }

  // ---------------------------------------------------------------- serial settings

  /** The five strings `openPort` reads from stored settings, or the exception for the first missing key. */
  function SettingsParams(ps: PortSettings): (r: Res<SerialParams>)
    ensures r.Ok? <==> "baud" in ps && "databits" in ps && "stopbits" in ps && "parity" in ps && "flow" in ps
    ensures r.Ok? ==> r.value == SerialParams(ps["baud"], ps["databits"], ps["stopbits"], ps["parity"], ps["flow"])
  {
    if "baud" !in ps then Fail(MissingKey("baud"))
    else if "databits" !in ps then Fail(MissingKey("databits"))
    else if "stopbits" !in ps then Fail(MissingKey("stopbits"))
    else if "parity" !in ps then Fail(MissingKey("parity"))
    else if "flow" !in ps then Fail(MissingKey("flow"))
    else Ok(SerialParams(ps["baud"], ps["databits"], ps["stopbits"], ps["parity"], ps["flow"]))
  }

  /** What one `openPort` asks of SerialIO, whether the port is open afterwards, and what it records as error. */
  datatype SerialRun = SerialRun(calls: seq<SerialCall>, isOpen: bool, failure: Option<Throwable>)

  function FailureOf(s: Status): Option<Throwable> {
    if s.Raised? then Some(s.error) else None
  }

  /** What opening `name` asks of SerialIO once any earlier port is closed. */
  function OpenSteps(name: string, settings: Option<PortSettings>, autoSet: bool, env: Env): SerialRun {
    match env.serialOpen(name)
    case Raised(e) => SerialRun([Open(name)], false, Some(e))
    case Done =>
      if settings.Some? then
        match SettingsParams(settings.value)
        case Fail(e) => SerialRun([Open(name)], true, Some(e))
        case Ok(p) => SerialRun([Open(name), SetProperties(p)], true, FailureOf(env.serialSetProperties(p)))
      else if autoSet then
        SerialRun([Open(name), AutoSetProperties], true, FailureOf(env.serialAutoSet))
      else
        SerialRun([Open(name)], true, None)
  }

  /**
   * `openPort(name, autoSet)`: close first when a port name was recorded before, open `name`,
   * then apply the stored settings if there are any, or else detect them when asked to.
   */
  function OpenRun(hadPortName: bool, name: string, settings: Option<PortSettings>, autoSet: bool, env: Env): (r: SerialRun)
    ensures r.isOpen <==> env.serialOpen(name).Done?
    ensures !r.isOpen ==> r.failure.Some?
    ensures Open(name) in r.calls
  {
    var steps := OpenSteps(name, settings, autoSet, env);
    assert steps.calls[0] == Open(name);
    var closing := if hadPortName then [Close] else [];
    assert (closing + steps.calls)[|closing|] == Open(name);
    SerialRun(closing + steps.calls, steps.isOpen, steps.failure)
  }

  /**
   * Opening closes the previously recorded port before anything else, and never closes after
   * opening: at no point are two ports open.
   */
  lemma OpenClosesFirst(hadPortName: bool, name: string, settings: Option<PortSettings>, autoSet: bool, env: Env)
    ensures var calls := OpenRun(hadPortName, name, settings, autoSet, env).calls;
      && (hadPortName ==> |calls| >= 2 && calls[0] == Close && calls[1] == Open(name))
      && (!hadPortName ==> |calls| >= 1 && calls[0] == Open(name))
      && (forall i :: 0 < i < |calls| ==> calls[i] != Close)
  {
  }

  /** Stored settings are applied on every successful open, and their outcome decides the open's. */
  lemma StoredSettingsApplied(hadPortName: bool, name: string, ps: PortSettings, autoSet: bool, env: Env)
    requires env.serialOpen(name).Done?
    ensures var run := OpenRun(hadPortName, name, Some(ps), autoSet, env);
      && run.isOpen
      && (SettingsParams(ps).Ok? ==>
            run.calls[|run.calls| - 1] == SetProperties(SettingsParams(ps).value)
            && (run.failure.None? <==> env.serialSetProperties(SettingsParams(ps).value).Done?))
      && (SettingsParams(ps).Fail? ==> run.failure == Some(SettingsParams(ps).error))
      && AutoSetProperties !in run.calls
  {
  }

  /** No name selects two densities: the three words already differ in their first letter. */
  lemma DensityNamesExclusive(name: string)
    ensures EqualsIgnoreCase(name, "single") ==> !EqualsIgnoreCase(name, "double") && !EqualsIgnoreCase(name, "triple")
    ensures EqualsIgnoreCase(name, "double") ==> !EqualsIgnoreCase(name, "triple")
  {
    if |name| > 0 {
      assert "single"[0] == 's' && "double"[0] == 'd' && "triple"[0] == 't';
    }
  }

  // ---------------------------------------------------------------- the manager's state as a value

  /** The fields of a PrintManager (see the class below), as one value. */
  datatype Snapshot = Snapshot(
    raw: Bytes, html: seq<string>, printer: Option<string>, service: Option<PrintService>,
    dotDensity: int, documentsPerSpool: int, endOfDocument: Option<string>, reprint: bool,
    t: Option<Throwable>, serialPortName: Option<string>, portSettings: Option<PortSettings>,
    ioName: Option<string>, ioOpen: bool, serialInput: Bytes, jobs: seq<Job>, serialCalls: seq<SerialCall>)

  /** A bound printer always has its service, and the open port is the one last recorded. */
  predicate Consistent(s: Snapshot) {
    && (s.printer.Some? <==> s.service.Some?)
    && (s.ioOpen ==> s.ioName.Some? && s.ioName == s.serialPortName)
  }

  /** Whether `printRaw` splits the buffer into pages: a positive count, a marker, and the marker in the buffer. */
  predicate AutoSpooling(s: Snapshot, encode: string -> Bytes) {
    s.documentsPerSpool > 0 && s.endOfDocument.Some? && s.raw != [] && Contains(s.raw, encode(s.endOfDocument.value))
  }

  /** The state a call leaves, and whether it reported success. */
  datatype Effect = Effect(after: Snapshot, ok: bool)

  /** `append64`. */
  function Append64Effect(s: Snapshot, base64: string, env: Env): (r: Snapshot)
    ensures r.jobs == s.jobs && r.serialCalls == s.serialCalls && r.html == s.html
    ensures Consistent(s) ==> Consistent(r)
  {
    match env.decode64(base64)
    case Ok(b) => s.(raw := s.raw + b)
    case Fail(e) => s.(t := Some(e))
  }

  /** `appendHTML`. */
  function AppendHtmlEffect(s: Snapshot, text: string): (r: Snapshot)
    ensures r.html == s.html + [text] && r.raw == s.raw && r.jobs == s.jobs && r.serialCalls == s.serialCalls
    ensures Consistent(s) ==> Consistent(r)
  {
    s.(html := s.html + [text])
  }

  /** `checkPrinterConnection(name)`: the state with `name` bound, or None when no printer is found for it. */
  function Connect(s: Snapshot, name: string, env: Env): (r: Option<Snapshot>)
    requires Consistent(s)
    ensures r.Some? ==> Consistent(r.value) && r.value.printer == Some(name)
    ensures r.Some? ==> r.value == s.(printer := r.value.printer, service := r.value.service)
    ensures r.None? <==> s.printer != Some(name) && env.findPrinter(name).None?
  {
    if s.printer == Some(name) then Some(s)
    else
      match env.findPrinter(name)
      case None => None
      case Some(svc) => Some(s.(printer := Some(name), service := Some(svc)))
  }

  /** `printRaw(name)`: spool the pages or print the whole buffer on the connected printer. */
  function PrintRawEffect(s: Snapshot, name: string, env: Env): (r: Effect)
    requires Consistent(s)
    ensures Consistent(r.after)
    ensures r.after.serialCalls == s.serialCalls && r.after.html == s.html
    ensures !r.ok ==> r.after.raw == s.raw
  {
    match Connect(s, name, env)
    case None => Effect(s, false)
    case Some(c) => PrintBufferEffect(c, env)
  }

  /** The printing part of `printRaw`, once a printer is connected. */
  function PrintBufferEffect(c: Snapshot, env: Env): (r: Effect)
    requires c.service.Some?
    ensures r.after == c.(raw := r.after.raw, jobs := r.after.jobs, t := r.after.t)
    ensures !r.ok ==> r.after.raw == c.raw
  {
      if AutoSpooling(c, env.encode) then
        var pages := env.splitPages(c.raw, env.encode(c.endOfDocument.value), c.documentsPerSpool);
        var run := PrintPages(c.service.value, pages, env.rawPrint);
        if run.failure.Some? then Effect(c.(jobs := c.jobs + run.printed, t := run.failure), false)
        else Effect(c.(jobs := c.jobs + run.printed, raw := if c.reprint then c.raw else []), true)
      else
        match env.rawPrint(c.service.value, c.raw)
        case Raised(e) => Effect(c.(t := Some(e)), false)
        case Done => Effect(c.(jobs := c.jobs + [RawJob(c.service.value, c.raw)], raw := if c.reprint then c.raw else []), true)
  }

  /** `printHTML(name)`: print the HTML handed in so far on the connected printer. */
  function PrintHtmlEffect(s: Snapshot, name: string, env: Env): (r: Effect)
    requires Consistent(s)
    ensures Consistent(r.after)
    ensures r.after.raw == s.raw && r.after.serialCalls == s.serialCalls && r.after.html == s.html
  {
    match Connect(s, name, env)
    case None => Effect(s, false)
    case Some(c) =>
      match env.htmlPrint(c.service.value, c.html)
      case Raised(e) => Effect(c.(t := Some(e)), false)
      case Done => Effect(c.(jobs := c.jobs + [HtmlJob(c.service.value, c.html)]), true)
  }

  /** `printToHost(host, port)` with the port as text; `ok` is whether it returned normally. */
  function PrintToHostEffect(s: Snapshot, host: string, port: string, env: Env): (r: Effect)
    ensures Consistent(s) ==> Consistent(r.after)
    ensures r.after.serialCalls == s.serialCalls && r.after.html == s.html
    ensures !r.ok ==> r.after.t.Some?
  {
    match ParseInt(port)
    case None => Effect(s.(t := Some(NumberFormat(port))), false)
    case Some(p) =>
      if IsBlank(host) || p <= 0 then Effect(s.(raw := [], t := Some(INVALID_SOCKET_TARGET)), false)
      else
        match env.socketPrint(host, p, s.raw)
        case Raised(e) => Effect(s.(t := Some(e)), false)
        case Done => Effect(s.(jobs := s.jobs + [SocketJob(host, p, s.raw)], raw := []), true)
  }

  /** `openPort(name, autoSet)`, as OpenRun describes it, with the name recorded first. */
  function OpenPortEffect(s: Snapshot, name: string, autoSet: bool, env: Env): (r: Effect)
    ensures Consistent(s) ==> Consistent(r.after)
    ensures r.after.raw == s.raw && r.after.jobs == s.jobs && r.after.html == s.html
    ensures r.after.serialPortName == Some(name) && r.after.ioName == Some(name)
  {
    var run := OpenRun(s.serialPortName.Some?, name, s.portSettings, autoSet, env);
    var ok := run.failure.None?;
    Effect(s.(serialPortName := Some(name), ioName := Some(name), ioOpen := run.isOpen,
              serialCalls := s.serialCalls + run.calls, t := if ok then s.t else run.failure), ok)
  }

  /** `send(portName, data)`: reopen when needed, then transmit the pending bytes with the decoded data. */
  function SendEffect(s: Snapshot, portName: string, data: string, env: Env): (r: Effect)
    requires Consistent(s)
    ensures Consistent(r.after)
    ensures r.after.raw == s.raw && r.after.jobs == s.jobs && r.after.html == s.html
  {
    var o := if !s.ioOpen || s.ioName != Some(portName) then OpenPortEffect(s, portName, false, env) else Effect(s, true);
    if !o.ok then o else TransmitEffect(o.after, data, env)
  }

  /** Sending on the open port: the decoded data joins the pending input, which is kept until a send succeeds. */
  function TransmitEffect(u: Snapshot, data: string, env: Env): (r: Effect)
    requires Consistent(u)
    ensures Consistent(r.after)
    ensures r.after == u.(serialInput := r.after.serialInput, serialCalls := r.after.serialCalls, t := r.after.t)
    ensures env.decode64(data).Fail? ==> r == Effect(u.(t := Some(env.decode64(data).error)), false)
  {
    match env.decode64(data)
    case Fail(e) => Effect(u.(t := Some(e)), false)
    case Ok(b) =>
      var pending := u.serialInput + b;
      var calls := u.serialCalls + [Transmit(pending)];
      match env.serialSend(pending)
      case Raised(e) => Effect(u.(serialInput := pending, serialCalls := calls, t := Some(e)), false)
      case Done => Effect(u.(serialInput := [], serialCalls := calls), true)
  }

  // ---------------------------------------------------------------- the manager

  class PrintManager {
    /** PrintRaw's command buffer. */
    var raw: Bytes
    /** The HTML handed to PrintHTML. */
    var html: seq<string>
    /** The printer name last bound, and the service bound with it. */
    var printer: Option<string>
    var service: Option<PrintService>
    var dotDensity: int
    var documentsPerSpool: int
    var endOfDocument: Option<string>
    var reprint: bool
    /** The last exception recorded by `set`. */
    var t: Option<Throwable>
    /** The manager's record of the port it last opened, and the settings to replay on every open. */
    var serialPortName: Option<string>
    var portSettings: Option<PortSettings>
    /** SerialIO's state: the name it was last asked to open, whether a port is open, its pending bytes. */
    var ioName: Option<string>
    var ioOpen: bool
    var serialInput: Bytes
    /** What the print sinks received, oldest first, and every call made on SerialIO. */
    var jobs: seq<Job>
    var serialCalls: seq<SerialCall>

    /** The fields, as one value. */
    function State(): Snapshot
      reads this
    {
      Snapshot(raw, html, printer, service, dotDensity, documentsPerSpool, endOfDocument, reprint,
               t, serialPortName, portSettings, ioName, ioOpen, serialInput, jobs, serialCalls)
    }

    ghost predicate Valid()
      reads this
    {
      Consistent(State())
    }

    constructor ()
      ensures Valid()
      ensures raw == [] && html == [] && printer == None && service == None
      ensures dotDensity == DEFAULT_DOT_DENSITY && documentsPerSpool == 0 && endOfDocument == None
      ensures !reprint && t == None && serialPortName == None && portSettings == None
      ensures ioName == None && !ioOpen && serialInput == [] && jobs == [] && serialCalls == []
    {
      raw, html, printer, service := [], [], None, None;
      dotDensity, documentsPerSpool, endOfDocument := DEFAULT_DOT_DENSITY, 0, None;
      reprint, t, serialPortName, portSettings := false, None, None, None;
      ioName, ioOpen, serialInput, jobs, serialCalls := None, false, [], [], [];
    }

    // ------------------------------------------------------------ buffer

    /** Appends the decoded bytes; undecodable text leaves the buffer alone and records the error. */
    method Append64(base64: string, env: Env)
      modifies this`raw, this`t
      ensures env.decode64(base64).Ok? ==> raw == old(raw) + env.decode64(base64).value && t == old(t)
      ensures env.decode64(base64).Fail? ==> raw == old(raw) && t == Some(env.decode64(base64).error)
      ensures State() == Append64Effect(old(State()), base64, env)
    {
      match env.decode64(base64)
      case Ok(b) => raw := raw + b;
      case Fail(e) => t := Some(e);
    }

    /** Appends the bytes of hexadecimal text; malformed text leaves the buffer alone and records the error. */
    method AppendHex(hex: string, env: Env)
      modifies this`raw, this`t
      ensures env.decodeHex(hex).Ok? ==> raw == old(raw) + env.decodeHex(hex).value && t == old(t)
      ensures env.decodeHex(hex).Fail? ==> raw == old(raw) && t == Some(env.decodeHex(hex).error)
    {
      match env.decodeHex(hex)
      case Ok(b) => raw := raw + b;
      case Fail(e) => t := Some(e);
    }

    /** The Integer branch: one byte per element (null gives 0), or nothing when an element of another class is met. */
    method AppendIntElements(items: seq<JsonValue>) returns (escaped: Status)
      modifies this`raw
      ensures var k := FirstFailing(items, IntLike);
        && (k == |items| ==> escaped == Done && |raw| == |old(raw)| + |items| && raw[..|old(raw)|] == old(raw)
                               && forall i :: 0 <= i < |items| ==> raw[|old(raw)| + i] == ElementByte(items[i]))
        && (k < |items| ==> escaped == Raised(NotANumber(k)) && raw == old(raw))
    {
      var b := new byte[|items|];
      for i := 0 to b.Length
        invariant forall j :: 0 <= j < i ==> IntLike(items[j]) && b[j] == ElementByte(items[j])
        invariant raw == old(raw)
      {
        match items[i]
        case JInt(v) => b[i] := LowByte(v);
        case JNull => b[i] := 0;
        case _ => return Raised(NotANumber(i));
      }
      raw := raw + b[..];
      assert raw[..|old(raw)|] == old(raw);
      escaped := Done;
    }

    /** The String branch: each String encoded in turn (null is skipped), up to an element of another class. */
    method AppendStringElements(items: seq<JsonValue>, env: Env) returns (escaped: Status)
      modifies this`raw
      ensures var k := FirstFailing(items, StringLike);
        && raw == old(raw) + StringElementsBytes(items[..k], env.encode)
        && escaped == (if k == |items| then Done else Raised(NotAString(k)))
    {
      var i := 0;
      while i < |items|
        invariant 0 <= i <= |items|
        invariant forall j :: 0 <= j < i ==> StringLike(items[j])
        invariant raw == old(raw) + StringElementsBytes(items[..i], env.encode)
      {
        assert items[..i + 1][..i] == items[..i];
        match items[i] {
          case JString(s) => raw := raw + env.encode(s);
          case JNull =>
          case _ =>
            FirstFailingAt(items, StringLike, i);
            return Raised(NotAString(i));
        }
        i := i + 1;
      }
      assert items[..|items|] == items;
      FirstFailingAt(items, StringLike, |items|);
      escaped := Done;
    }

    /**
     * Appends a JSON array. The first element decides: Integers give one byte per element (null
     * gives 0), Strings are appended one by one (null is skipped), any other class records an
     * error. An empty array makes `get(0)` throw, which escapes; so does an element of the wrong
     * class further on.
     */
    method AppendJSONArray(items: seq<JsonValue>, env: Env) returns (escaped: Status)
      modifies this`raw, this`t
      ensures |items| == 0 ==> escaped == Raised(EMPTY_JSON_ARRAY) && raw == old(raw) && t == old(t)
      ensures |items| > 0 && items[0].JInt? ==>
        var k := FirstFailing(items, IntLike);
        && t == old(t)
        && (k == |items| ==> escaped == Done && |raw| == |old(raw)| + |items| && raw[..|old(raw)|] == old(raw)
                               && forall i :: 0 <= i < |items| ==> raw[|old(raw)| + i] == ElementByte(items[i]))
        && (k < |items| ==> escaped == Raised(NotANumber(k)) && raw == old(raw))
      ensures |items| > 0 && items[0].JString? ==>
        var k := FirstFailing(items, StringLike);
        && t == old(t)
        && raw == old(raw) + StringElementsBytes(items[..k], env.encode)
        && escaped == (if k == |items| then Done else Raised(NotAString(k)))
      ensures |items| > 0 && !items[0].JInt? && !items[0].JString? ==>
        escaped == Done && raw == old(raw) && t == Some(UnsupportedArray(items[0]))
    {
      if |items| == 0 {
        return Raised(EMPTY_JSON_ARRAY);
      }
      var first := items[0];
      if first.JInt? {
        escaped := AppendIntElements(items);
      } else if first.JString? {
        escaped := AppendStringElements(items, env);
      } else {
        t := Some(UnsupportedArray(first));
        escaped := Done;
      }
    }

    /** Appends each piece followed by a NUL byte. */
    method AppendPieces(parts: seq<string>, env: Env)
      modifies this`raw
      ensures raw == old(raw) + NulTerminated(parts, env.encode)
    {
      for i := 0 to |parts|
        invariant raw == old(raw) + NulTerminated(parts[..i], env.encode)
      {
        assert parts[..i + 1][..i] == parts[..i];
        raw := raw + env.encode(parts[i]);
        raw := raw + [0];
      }
      assert parts[..|parts|] == parts;
    }

    /** Appends text (see TextBytes: the text goes in a second time after either branch). */
    method Append(s: string, env: Env)
      modifies this`raw
      ensures raw == old(raw) + TextBytes(s, env.encode)
    {
      if Contains(s, NUL_ESCAPE) {
        var parts := Split(s, NUL_ESCAPE_SPLIT);
        AppendPieces(parts, env);
        assert raw == old(raw) + NulTerminated(parts, env.encode);
      } else {
        raw := raw + env.encode(s);
      }
      assert raw == old(raw) + FirstPass(s, env.encode);
      raw := raw + env.encode(s);
    }

    method AppendNull()
      modifies this`raw
      ensures raw == old(raw) + [0]
    {
      raw := raw + [0];
    }

    method Clear()
      modifies this`raw
      ensures raw == []
    {
      raw := [];
    }

    method AppendHTML(text: string)
      modifies this`html
      ensures html == old(html) + [text]
      ensures State() == AppendHtmlEffect(old(State()), text)
    {
      html := html + [text];
    }

    // ------------------------------------------------------------ settings

    /** "single", "double" and "triple" (in any case) select 32, 33 and 39; any other name keeps the old value. */
    method SelectDotDensity(name: string)
      modifies this`dotDensity
      ensures EqualsIgnoreCase(name, "single") ==> dotDensity == 32
      ensures EqualsIgnoreCase(name, "double") ==> dotDensity == 33
      ensures EqualsIgnoreCase(name, "triple") ==> dotDensity == 39
      ensures !EqualsIgnoreCase(name, "single") && !EqualsIgnoreCase(name, "double") && !EqualsIgnoreCase(name, "triple")
        ==> dotDensity == old(dotDensity)
    {
      DensityNamesExclusive(name);
      if EqualsIgnoreCase(name, "single") {
        dotDensity := 32;
      } else if EqualsIgnoreCase(name, "double") {
        dotDensity := 33;
      } else if EqualsIgnoreCase(name, "triple") {
        dotDensity := 39;
      }
    }

    method SetDocumentsPerSpool(n: int)
      requires Int32(n)
      modifies this`documentsPerSpool
      ensures documentsPerSpool == n
    {
      documentsPerSpool := n;
    }

    method SetEndOfDocument(marker: Option<string>)
      modifies this`endOfDocument
      ensures endOfDocument == marker
    {
      endOfDocument := marker;
    }

    // ------------------------------------------------------------ printers

    /** Spooling splits the buffer exactly when a positive count and a marker are set and the buffer holds the marker. */
    function IsRawAutoSpooling(encode: string -> Bytes): (r: bool)
      reads this
      ensures r <==> && documentsPerSpool > 0 && endOfDocument.Some? && raw != []
                     && exists i :: OccursAt(raw, encode(endOfDocument.value), i)
    {
      AutoSpooling(State(), encode)
    }

    /** Binds the printer found for `name`; when none is found nothing changes. */
    method SetPrinter(name: string, env: Env) returns (ok: bool)
      requires Valid()
      modifies this`printer, this`service
      ensures Valid()
      ensures ok == env.findPrinter(name).Some?
      ensures ok ==> printer == Some(name) && service == env.findPrinter(name)
      ensures !ok ==> printer == old(printer) && service == old(service)
    {
      var found := env.findPrinter(name);
      if found.None? {
        return false;
      }
      printer := Some(name);
      service := found;
      ok := true;
    }

    /** Looks the printer up only when `name` is not the one already bound. */
    method CheckPrinterConnection(name: string, env: Env) returns (ok: bool)
      requires Valid()
      modifies this`printer, this`service
      ensures Valid()
      ensures old(printer) == Some(name) ==> ok && printer == old(printer) && service == old(service)
      ensures old(printer) != Some(name) ==> ok == env.findPrinter(name).Some?
      ensures old(printer) != Some(name) && ok ==> printer == Some(name) && service == env.findPrinter(name)
      ensures !ok ==> printer == old(printer) && service == old(service)
    {
      if printer.None? || printer.value != name {
        ok := SetPrinter(name, env);
        if !ok {
          return;
        }
      }
      ok := true;
    }

    /** `logAndPrint(PrintRaw)`: prints the whole buffer, then clears it unless `reprint` is set. */
    method PrintWholeBuffer(env: Env) returns (st: Status)
      requires service.Some?
      modifies this`raw, this`jobs
      ensures st == env.rawPrint(service.value, old(raw))
      ensures st.Done? ==> jobs == old(jobs) + [RawJob(service.value, old(raw))] && raw == (if reprint then old(raw) else [])
      ensures st.Raised? ==> jobs == old(jobs) && raw == old(raw)
    {
      st := env.rawPrint(service.value, raw);
      if st.Done? {
        jobs := jobs + [RawJob(service.value, raw)];
        if !reprint {
          raw := [];
        }
      }
    }

    /** The spooling loop of `logAndPrint(PrintRaw, …)`: prints the pages in order until one throws. */
    method SpoolPages(svc: PrintService, pages: seq<Bytes>, env: Env) returns (run: SpoolRun)
      modifies this`jobs
      ensures run == PrintPages(svc, pages, env.rawPrint)
      ensures jobs == old(jobs) + run.printed
    {
      for i := 0 to |pages|
        invariant PrintPages(svc, pages[..i], env.rawPrint).failure.None?
        invariant jobs == old(jobs) + PrintPages(svc, pages[..i], env.rawPrint).printed
      {
        assert pages[..i + 1][..i] == pages[..i];
        var st := env.rawPrint(svc, pages[i]);
        if st.Raised? {
          return PrintPages(svc, pages[..i + 1], env.rawPrint);
        }
        jobs := jobs + [RawJob(svc, pages[i])];
      }
      assert pages[..|pages|] == pages;
      run := PrintPages(svc, pages, env.rawPrint);
    }

    /**
     * Prints the buffer on the printer named `name`. When spooling, each page of the split is
     * printed in order and the buffer is cleared afterwards unless `reprint` is set; otherwise the
     * whole buffer is printed once. A printer that cannot be found prints nothing.
     */
    method PrintRaw(name: string, env: Env) returns (ok: bool)
      requires Valid()
      modifies this`printer, this`service, this`raw, this`t, this`jobs
      ensures Valid()
      ensures old(printer) != Some(name) && env.findPrinter(name).None? ==>
        && !ok && printer == old(printer) && service == old(service)
        && raw == old(raw) && jobs == old(jobs) && t == old(t)
      ensures old(printer) == Some(name) ==> printer == old(printer) && service == old(service)
      ensures old(printer) != Some(name) && env.findPrinter(name).Some? ==>
        printer == Some(name) && service == env.findPrinter(name)
      ensures (old(printer) == Some(name) || env.findPrinter(name).Some?) && old(IsRawAutoSpooling(env.encode)) ==>
        var pages := env.splitPages(old(raw), env.encode(old(endOfDocument).value), old(documentsPerSpool));
        var run := PrintPages(service.value, pages, env.rawPrint);
        && jobs == old(jobs) + run.printed
        && ok == run.failure.None?
        && t == (if ok then old(t) else run.failure)
        && raw == (if ok && !reprint then [] else old(raw))
      ensures (old(printer) == Some(name) || env.findPrinter(name).Some?) && !old(IsRawAutoSpooling(env.encode)) ==>
        var st := env.rawPrint(service.value, old(raw));
        && ok == st.Done?
        && jobs == old(jobs) + (if ok then [RawJob(service.value, old(raw))] else [])
        && t == (if ok then old(t) else Some(st.error))
        && raw == (if ok && !reprint then [] else old(raw))
      ensures Effect(State(), ok) == PrintRawEffect(old(State()), name, env)
    {
      ok := CheckPrinterConnection(name, env);
      if !ok {
        return;
      }
      ok := PrintBuffer(env);
    }

    /** Spools the buffer or prints it whole on the bound printer, recording a failure. */
    method PrintBuffer(env: Env) returns (ok: bool)
      requires service.Some?
      modifies this`raw, this`t, this`jobs
      ensures Effect(State(), ok) == PrintBufferEffect(old(State()), env)
    {
      if IsRawAutoSpooling(env.encode) {
        var pages := env.splitPages(raw, env.encode(endOfDocument.value), documentsPerSpool);
        var run := SpoolPages(service.value, pages, env);
        if run.failure.Some? {
          t := run.failure;
          return false;
        }
        if !reprint {
          raw := [];
        }
      } else {
        var st := PrintWholeBuffer(env);
        if st.Raised? {
          t := Some(st.error);
          return false;
        }
      }
      ok := true;
    }

    /** Prints the HTML handed in so far on the printer named `name`. */
    method PrintHTML(name: string, env: Env) returns (ok: bool)
      requires Valid()
      modifies this`printer, this`service, this`t, this`jobs
      ensures Valid()
      ensures old(printer) != Some(name) && env.findPrinter(name).None? ==>
        !ok && printer == old(printer) && service == old(service) && jobs == old(jobs) && t == old(t)
      ensures old(printer) == Some(name) || env.findPrinter(name).Some? ==>
        var svc := if old(printer) == Some(name) then old(service).value else env.findPrinter(name).value;
        var st := env.htmlPrint(svc, html);
        && printer == Some(name) && service == Some(svc)
        && ok == st.Done?
        && jobs == old(jobs) + (if ok then [HtmlJob(svc, html)] else [])
        && t == (if ok then old(t) else Some(st.error))
      ensures Effect(State(), ok) == PrintHtmlEffect(old(State()), name, env)
    {
      ok := CheckPrinterConnection(name, env);
      if !ok {
        return;
      }
      var st := env.htmlPrint(service.value, html);
      if st.Raised? {
        t := Some(st.error);
        return false;
      }
      jobs := jobs + [HtmlJob(service.value, html)];
    }

    /**
     * `printToHost(host, port)`: sends the buffer to a raw socket and clears it. A blank host or a
     * port that is not positive clears the buffer too, then throws. A failed send throws and keeps
     * the buffer.
     */
    method PrintToHost(host: string, port: int, env: Env) returns (st: Status)
      modifies this`raw, this`jobs
      ensures IsBlank(host) || port <= 0 ==> st == Raised(INVALID_SOCKET_TARGET) && raw == [] && jobs == old(jobs)
      ensures !IsBlank(host) && port > 0 ==>
        && st == env.socketPrint(host, port, old(raw))
        && jobs == old(jobs) + (if st.Done? then [SocketJob(host, port, old(raw))] else [])
        && raw == (if st.Done? then [] else old(raw))
    {
      if !IsBlank(host) && port > 0 {
        st := env.socketPrint(host, port, raw);
        if st.Raised? {
          return;
        }
        jobs := jobs + [SocketJob(host, port, raw)];
        raw := [];
      } else {
        raw := [];
        st := Raised(INVALID_SOCKET_TARGET);
      }
    }

    /** `printToHost(host)`: the raw socket port 9100. */
    method PrintToDefaultHost(host: string, env: Env) returns (st: Status)
      modifies this`raw, this`jobs
      ensures IsBlank(host) ==> st == Raised(INVALID_SOCKET_TARGET) && raw == [] && jobs == old(jobs)
      ensures !IsBlank(host) ==>
        && st == env.socketPrint(host, DEFAULT_SOCKET_PORT, old(raw))
        && jobs == old(jobs) + (if st.Done? then [SocketJob(host, DEFAULT_SOCKET_PORT, old(raw))] else [])
        && raw == (if st.Done? then [] else old(raw))
    {
      st := PrintToHost(host, DEFAULT_SOCKET_PORT, env);
    }

    /** `printToHost(host, port)` with the port as text: a port that does not parse throws NumberFormatException. */
    method PrintToHostText(host: string, port: string, env: Env) returns (st: Status)
      modifies this`raw, this`jobs, this`t
      ensures ParseInt(port).None? ==>
        st == Raised(NumberFormat(port)) && t == Some(NumberFormat(port)) && raw == old(raw) && jobs == old(jobs)
      ensures ParseInt(port).Some? && (IsBlank(host) || ParseInt(port).value <= 0) ==>
        st == Raised(INVALID_SOCKET_TARGET) && t == Some(INVALID_SOCKET_TARGET) && raw == [] && jobs == old(jobs)
      ensures ParseInt(port).Some? && !IsBlank(host) && ParseInt(port).value > 0 ==>
        var p := ParseInt(port).value;
        && st == env.socketPrint(host, p, old(raw))
        && jobs == old(jobs) + (if st.Done? then [SocketJob(host, p, old(raw))] else [])
        && raw == (if st.Done? then [] else old(raw))
        && t == (if st.Done? then old(t) else Some(st.error))
      ensures Effect(State(), st.Done?) == PrintToHostEffect(old(State()), host, port, env)
    {
      var p := ParseInt(port);
      if p.None? {
        st := Raised(NumberFormat(port));
        t := Some(st.error);
        return;
      }
      st := PrintToHost(host, p.value, env);
      if st.Raised? {
        t := Some(st.error);
      }
    }

    // ------------------------------------------------------------ serial port

    /** Asks SerialIO to close its port; that call is taken to succeed. */
    method CloseCurrentPort() returns (ok: bool)
      requires Valid()
      modifies this`ioOpen, this`serialCalls
      ensures Valid()
      ensures ok && !ioOpen && serialCalls == old(serialCalls) + [Close]
    {
      serialCalls := serialCalls + [Close];
      ioOpen := false;
      ok := true;
    }

    /**
     * Closes the port only when `name` is the one SerialIO holds; another name does nothing and
     * fails. While SerialIO holds no name at all, comparing it throws NullPointerException.
     */
    method ClosePort(name: string) returns (r: Res<bool>)
      requires Valid()
      modifies this`ioOpen, this`serialCalls
      ensures Valid()
      ensures old(ioName).None? ==> r == Fail(NO_PORT_NAME) && ioOpen == old(ioOpen) && serialCalls == old(serialCalls)
      ensures old(ioName) == Some(name) ==> r == Ok(true) && !ioOpen && serialCalls == old(serialCalls) + [Close]
      ensures old(ioName).Some? && old(ioName) != Some(name) ==>
        r == Ok(false) && ioOpen == old(ioOpen) && serialCalls == old(serialCalls)
    {
      if ioName.None? {
        return Fail(NO_PORT_NAME);
      }
      if ioName == Some(name) {
        var ok := CloseCurrentPort();
        r := Ok(ok);
      } else {
        r := Ok(false);
      }
    }

    /**
     * Opens `name`, first closing whatever port name was recorded before. The new name is recorded
     * before the open is tried, so it stays recorded when the open fails.
     */
    method OpenPort(name: string, autoSet: bool, env: Env) returns (ok: bool)
      requires Valid()
      modifies this`serialPortName, this`ioName, this`ioOpen, this`serialCalls, this`t
      ensures Valid()
      ensures var run := OpenRun(old(serialPortName).Some?, name, portSettings, autoSet, env);
        && serialPortName == Some(name) && ioName == Some(name) && ioOpen == run.isOpen
        && serialCalls == old(serialCalls) + run.calls
        && ok == run.failure.None?
        && t == (if ok then old(t) else run.failure)
      ensures Effect(State(), ok) == OpenPortEffect(old(State()), name, autoSet, env)
    {
      if serialPortName.Some? {
        var _ := CloseCurrentPort();
      }
      ok := OpenRecorded(name, autoSet, env);
      ghost var steps := OpenSteps(name, portSettings, autoSet, env);
      assert serialCalls == old(serialCalls) + ((if old(serialPortName).Some? then [Close] else []) + steps.calls);
    }

    /** The part of `openPort` after the earlier port is closed: record `name`, open it, apply the settings. */
    method OpenRecorded(name: string, autoSet: bool, env: Env) returns (ok: bool)
      modifies this`serialPortName, this`ioName, this`ioOpen, this`serialCalls, this`t
      ensures var steps := OpenSteps(name, portSettings, autoSet, env);
        && serialPortName == Some(name) && ioName == Some(name) && ioOpen == steps.isOpen
        && serialCalls == old(serialCalls) + steps.calls
        && ok == steps.failure.None?
        && t == (if ok then old(t) else steps.failure)
    {
      serialPortName := Some(name);
      serialCalls := serialCalls + [Open(name)];
      ioName := Some(name);
      var st := env.serialOpen(name);
      if st.Raised? {
        ioOpen := false;
        t := Some(st.error);
        return false;
      }
      ioOpen := true;
      if portSettings.Some? {
        var params := SettingsParams(portSettings.value);
        if params.Fail? {
          t := Some(params.error);
          return false;
        }
        serialCalls := serialCalls + [SetProperties(params.value)];
        st := env.serialSetProperties(params.value);
      } else if autoSet {
        serialCalls := serialCalls + [AutoSetProperties];
        st := env.serialAutoSet;
      }
      if st.Raised? {
        t := Some(st.error);
        return false;
      }
      ok := true;
    }

    /** Stores `settings` to be applied on this and every later open, then opens `name`. */
    method OpenPortWithProperties(name: string, settings: PortSettings, env: Env) returns (ok: bool)
      requires Valid()
      modifies this`portSettings, this`serialPortName, this`ioName, this`ioOpen, this`serialCalls, this`t
      ensures Valid()
      ensures portSettings == Some(settings)
      ensures var run := OpenRun(old(serialPortName).Some?, name, Some(settings), false, env);
        && serialPortName == Some(name) && ioName == Some(name) && ioOpen == run.isOpen
        && serialCalls == old(serialCalls) + run.calls
        && ok == run.failure.None?
        && t == (if ok then old(t) else run.failure)
      ensures Effect(State(), ok) == OpenPortEffect(old(State()).(portSettings := Some(settings)), name, false, env)
    {
      portSettings := Some(settings);
      ok := OpenPort(name, false, env);
    }

    /**
     * Sends base64 data to the serial port `portName`, opening it first (with the stored settings)
     * when it is not the open one; the decoded bytes join SerialIO's pending bytes, which are then
     * transmitted.
     */
    method Send(portName: string, data: string, env: Env) returns (ok: bool)
      requires Valid()
      modifies this`serialPortName, this`ioName, this`ioOpen, this`serialCalls, this`t, this`serialInput
      ensures Valid()
      ensures var reopen := !old(ioOpen) || old(ioName) != Some(portName);
        var run := OpenRun(old(serialPortName).Some?, portName, portSettings, false, env);
        reopen && run.failure.Some? ==>
          && !ok && serialPortName == Some(portName) && ioName == Some(portName) && ioOpen == run.isOpen
          && serialCalls == old(serialCalls) + run.calls && t == run.failure && serialInput == old(serialInput)
      ensures var reopen := !old(ioOpen) || old(ioName) != Some(portName);
        var run := OpenRun(old(serialPortName).Some?, portName, portSettings, false, env);
        var before := if reopen then old(serialCalls) + run.calls else old(serialCalls);
        !reopen || run.failure.None? ==>
          && serialPortName == Some(portName) && ioOpen && ioName == Some(portName)
          && (env.decode64(data).Fail? ==>
                !ok && t == Some(env.decode64(data).error) && serialCalls == before && serialInput == old(serialInput))
          && (env.decode64(data).Ok? ==>
                var pending := old(serialInput) + env.decode64(data).value;
                var st := env.serialSend(pending);
                && serialCalls == before + [Transmit(pending)]
                && ok == st.Done?
                && t == (if ok then old(t) else Some(st.error))
                && serialInput == (if ok then [] else pending))
      ensures Effect(State(), ok) == SendEffect(old(State()), portName, data, env)
    {
      if !ioOpen || ioName != Some(portName) {
        ok := OpenPort(portName, false, env);
        if !ok {
          return;
        }
      }
      ok := TransmitData(data, env);
    }

    /** The sending part of `send`, on a port already open. */
    method TransmitData(data: string, env: Env) returns (ok: bool)
      requires Valid()
      modifies this`serialCalls, this`t, this`serialInput
      ensures Valid()
      ensures env.decode64(data).Fail? ==>
        !ok && t == Some(env.decode64(data).error) && serialCalls == old(serialCalls) && serialInput == old(serialInput)
      ensures env.decode64(data).Ok? ==>
        var pending := old(serialInput) + env.decode64(data).value;
        var st := env.serialSend(pending);
        && serialCalls == old(serialCalls) + [Transmit(pending)]
        && ok == st.Done?
        && t == (if ok then old(t) else Some(st.error))
        && serialInput == (if ok then [] else pending)
      ensures Effect(State(), ok) == TransmitEffect(old(State()), data, env)
    {
      match env.decode64(data)
      case Fail(e) =>
        t := Some(e);
        return false;
      case Ok(b) =>
        serialInput := serialInput + b;
        serialCalls := serialCalls + [Transmit(serialInput)];
        var st := env.serialSend(serialInput);
        if st.Raised? {
          t := Some(st.error);
          return false;
        }
        serialInput := [];
        ok := true;
    }
  }

  /** Opening port B while port A is open closes A before B is opened; afterwards only B is open. */
  method SwitchPorts(pm: PrintManager, a: string, b: string, env: Env) returns (ok: bool)
    requires pm.Valid() && pm.ioOpen && pm.ioName == Some(a) && a != b
    modifies pm
    ensures pm.Valid()
    ensures |pm.serialCalls| >= |old(pm.serialCalls)| + 2
    ensures pm.serialCalls[|old(pm.serialCalls)|] == Close && pm.serialCalls[|old(pm.serialCalls)| + 1] == Open(b)
    ensures pm.ioOpen ==> pm.ioName == Some(b)
  {
    ok := pm.OpenPort(b, false, env);
    OpenClosesFirst(true, b, pm.portSettings, false, env);
  }
}

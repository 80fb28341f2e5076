# WebPrint core, modelled in Dafny

WebPrint is a small local print server. A web page opens the server's `/printwindow` bridge page
and posts JSON requests to it. The server filters HTTP methods and authenticates each request by
the page's origin and a cookie held in an access-control list. An `init` request asks the local
user to allow the origin, and a fresh cookie is minted when the user agrees. Authorised requests
are routed to a print manager, which keeps the following:

- a raw command buffer;
- the bound printer;
- the spooling settings;
- a single serial-port session.

The model has five files:

- `base.dfy` (module `Base`): options, bytes, Java exceptions as values, and the result of a call
  that may throw.
- `java_text.dfy` (module `JavaText`): the parts of `java.lang.String` and `java.lang.Integer` the
  core relies on:
  - `indexOf`/`contains`;
  - `split` with a literal separator, including the removal of trailing empty strings;
  - `Integer.parseInt` and `Integer.toString`;
  - `equalsIgnoreCase` against a lower-case word, with Java's special characters U+0130, U+0131,
    U+017F and U+212A;
  - ASCII `toUpperCase`.
- `access_control.dfy` (module `AccessControl`): the origin → cookie list, as a class over a
  `map`.
- `print_manager.dfy` (module `Qz`): the `PrintManager` class. It covers:
  - the buffer appends;
  - the dot-density setting;
  - automatic spooling;
  - printer binding;
  - raw, HTML and socket printing;
  - the serial session.

  The collaborators whose code is not part of this model (Base64, ByteUtilities, the charset,
  PrintServiceMatcher, PrintRaw's and PrintHTML's print calls, SerialIO) are the fields of a
  datatype `Env`: functions giving each call's result or the exception it throws. What the print
  sinks received is logged in `jobs`, and every call made on SerialIO in `serialCalls`.
- `server.dfy` (module `Server`): the `address:port` configuration text, `saveAddress`/`loadConfig`
  on a `Server` class, and `HttpHandler.handle`. The handler is specified against pure functions:
  - `Gate` covers authentication and the `init` flow;
  - `RoutePlan` gives the print-manager calls each authorised action makes, and the exception that
    may escape after them;
  - `RouteReply` gives the JSON reply.

  The print manager's fields also have a value form, `Qz.Snapshot`. Each routed manager method is
  proved to leave the state that a pure effect function gives, together with the success it
  reports (`PrintRawEffect`, `SendEffect`, …). `Server.Perform` applies a plan's calls one after
  another, and `Handle` is proved to leave the manager exactly as performing the plan of the
  routed action does. Its reply is `RouteReply` of that run's success.

Behaviour kept as the code has it:

- `append(s)` appends the encoded text a second time after either branch.
- The `\x00` test uses a single backslash, but the split looks for two.
- The empty-array guard of `appendJSONArray` can never fire, so an empty array makes `get(0)`
  throw.
- `openPort` records the new port name before the open is tried.
- `printToHost(host, port)` clears the buffer before throwing on a bad host or port.
- `loadConfig` assigns the address before it parses the port.

## Model

| member | source | states |
|---|---|---|
| JavaText.OccursShift | src/qz/PrintManager.java:625 | an occurrence at index j ≥ 1 in s is an occurrence at j-1 in s without its first element |
| JavaText.IndexOf | src/qz/PrintManager.java:625 | the result is the first index where the separator occurs, and None means it occurs nowhere |
| JavaText.Contains | src/qz/PrintManager.java:625 | true exactly when the separator occurs somewhere in the text |
| JavaText.Pieces | src/webprint/Server.java:105 | splitting at every occurrence yields at least one piece; joined with the separator the pieces give back the text, and no piece holds the separator |
| JavaText.DropTrailingEmpty | src/webprint/Server.java:105 | the result is a prefix of the pieces, everything removed is empty, and its last piece is not empty |
| JavaText.Split | src/webprint/Server.java:105 | without an occurrence the text itself; otherwise the pieces with the trailing empty ones removed; no part holds the separator |
| JavaText.SplitAroundChar | src/webprint/Server.java:105-107 | `split` on a one-character separator gives back the two halves a + c + b when neither holds c and b is non-empty |
| JavaText.SplitWithoutSeparator | src/qz/PrintManager.java:625-626 | text without the separator splits into itself alone |
| JavaText.DigitChar | src/webprint/Server.java:118 | a digit value maps to an ASCII decimal digit |
| JavaText.FormatInt | src/webprint/Server.java:118 | `Integer.toString`: a non-negative n is a digit string of value n; a negative n is '-' followed by the digits of -n |
| JavaText.ParseInt | src/webprint/Server.java:107 | every value `Integer.valueOf` accepts lies in the 32-bit range |
| JavaText.NatDigitsValue | src/webprint/Server.java:118 | the decimal spelling of n is a non-empty digit string whose value is n |
| JavaText.ParseFormatInt | src/webprint/Server.java:105-118 | parsing the text `Integer.toString` gives any 32-bit value returns that value |
| JavaText.FormatIntNoColon | src/webprint/Server.java:118 | a formatted port is non-empty and holds no colon |
| JavaText.UpperAsciiMatches | src/webprint/Server.java:186-189 | upper-casing gives a capital word exactly when each character is that capital or its small letter |
| JavaText.EqualsIgnoreCaseAscii | src/qz/PrintManager.java:243-249 | on ASCII text, `equalsIgnoreCase` against a small-letter word agrees with comparing the upper-cased texts |
| JavaText.LongSMatchesS | src/qz/PrintManager.java:243 | "ſingle" (with U+017F) equals "single" ignoring case, although its ASCII upper-casing differs |
| AccessControl.AccessControl.constructor | src/webprint/AccessControl.java:55-69 | without a saved list the map starts empty |
| AccessControl.AccessControl.GetAcl | src/webprint/AccessControl.java:46-53 | lists exactly the origins of the map, each once, as many as there are keys |
| AccessControl.AccessControl.Add | src/webprint/AccessControl.java:96-99 | the origin now maps to the cookie; every other entry is unchanged |
| AccessControl.AccessControl.Remove | src/webprint/AccessControl.java:101-104 | the origin is gone; every other entry is unchanged |
| AccessControl.AccessControl.IsAllowed | src/webprint/AccessControl.java:106-113 | true iff the origin is present and its stored cookie equals the given one |
| AccessControl.FreshListAllowsNothing | src/webprint/AccessControl.java:55-69 | a freshly created list allows no origin with any cookie |
| AccessControl.AddThenCheck | src/webprint/AccessControl.java:96-113 | after `add(o, c)`, `isAllowed(o, c)` holds and `isAllowed(o, c2)` fails for every other cookie c2 |
| AccessControl.RemoveTwice | src/webprint/AccessControl.java:101-113 | removing twice leaves the map of removing once, and no cookie is allowed for that origin |
| Qz.BlankIffTrimmedEmpty | src/qz/PrintManager.java:141-143 | a text is blank exactly when `trim()` leaves the empty string |
| Qz.LowByte | src/qz/PrintManager.java:583 | the `(byte)` cast keeps v modulo 256 |
| Qz.ElementByte | src/qz/PrintManager.java:582-588 | null gives 0; an Integer in 0..255 gives itself; one in -128..-1 gives v + 256 |
| Qz.FirstFailing | src/qz/PrintManager.java:580-601 | the index of the first element of the wrong kind: every element before it is of the right kind |
| Qz.StringElementsConcat | src/qz/PrintManager.java:592-604 | the bytes of a string array are those of its parts in order, and a null adds nothing |
| Qz.NulTerminated | src/qz/PrintManager.java:627-630 | at least one byte per piece, and the last byte is NUL |
| Qz.TextAppendedLast | src/qz/PrintManager.java:625-634 | whichever branch is taken, `append` ends with the encoded text once more |
| Qz.PlainTextAppendedTwice | src/qz/PrintManager.java:625-634 | text without `\x00` is appended twice |
| Qz.SingleEscapeNotSplit | src/qz/PrintManager.java:625-634 | text with `\x00` but not `\\x00` is appended, then a NUL, then appended again |
| Qz.DoubleEscapeIsSplit | src/qz/PrintManager.java:625-626 | text containing `\\x00` always takes the splitting branch |
| Qz.PrintPages | src/qz/PrintManager.java:750-752 | pages are printed once each, in order, up to and excluding the first that throws; without a failure all are printed |
| Qz.AllPagesPrinted | src/qz/PrintManager.java:750-752 | when every page prints, the jobs are exactly the pages in order |
| Qz.SettingsParams | src/qz/PrintManager.java:931-932 | the five settings are read exactly when all five keys are present |
| Qz.OpenRun | src/qz/PrintManager.java:921-942 | the port is open afterwards exactly when SerialIO's open succeeds; a failed open records an error; the new name is always opened |
| Qz.OpenClosesFirst | src/qz/PrintManager.java:921-930 | with a port name recorded, the first call closes and the second opens the new name; nothing is closed after the open |
| Qz.StoredSettingsApplied | src/qz/PrintManager.java:931-936 | after a successful open, stored settings are applied last, their outcome decides the open's, and auto-detection is skipped |
| Qz.DensityNamesExclusive | src/qz/PrintManager.java:243-249 | no name matches two of "single", "double" and "triple" |
| Qz.Append64Effect | src/qz/PrintManager.java:153-159 | `append64` touches neither the jobs, the serial calls nor the HTML, and keeps the state consistent |
| Qz.AppendHtmlEffect | src/qz/PrintManager.java:169-171 | `appendHTML` adds the text to the HTML and nothing else |
| Qz.Connect | src/qz/PrintManager.java:699-706 | connecting fails exactly when the name is not bound and no printer is found; on success only the binding changes, to that name |
| Qz.PrintRawEffect | src/qz/PrintManager.java:736-772 | `printRaw` never touches the serial port or the HTML, and a failed print keeps the buffer |
| Qz.PrintBufferEffect | src/qz/PrintManager.java:740-771 | printing changes only the buffer, the jobs and the recorded error; a failure keeps the buffer |
| Qz.PrintHtmlEffect | src/qz/PrintManager.java:708-720 | `printHTML` leaves the buffer, the serial port and the HTML alone |
| Qz.PrintToHostEffect | src/qz/PrintManager.java:423-447 | printing to a host never touches the serial port or the HTML, and a failure is always recorded |
| Qz.OpenPortEffect | src/qz/PrintManager.java:921-942 | `openPort` records the new name whatever happens and leaves the buffer, the jobs and the HTML alone |
| Qz.SendEffect | src/qz/PrintManager.java:825-853 | `send` leaves the buffer, the jobs and the HTML alone and keeps the state consistent |
| Qz.TransmitEffect | src/qz/PrintManager.java:833-842 | sending on the open port changes only the pending input, the serial calls and the recorded error; undecodable data records its error and sends nothing |
| Qz.PrintManager.constructor | src/qz/PrintManager.java:60-89 | the initial field values: empty buffer, no printer, dot density 32, no spooling, no port |
| Qz.PrintManager.Append64 | src/qz/PrintManager.java:153-159 | decodable input appends the decoded bytes; otherwise the buffer is unchanged and the error recorded; the new state is `Append64Effect` |
| Qz.PrintManager.AppendHex | src/qz/PrintManager.java:555-561 | the same for hexadecimal input |
| Qz.PrintManager.AppendIntElements | src/qz/PrintManager.java:577-590 | an all-integer array appends one byte per element, `ElementByte` of each; an element of another class throws and appends nothing |
| Qz.PrintManager.AppendStringElements | src/qz/PrintManager.java:591-605 | appends the strings (nulls skipped) up to the first element of another class, which throws |
| Qz.PrintManager.AppendJSONArray | src/qz/PrintManager.java:569-610 | empty arrays throw; integer arrays append one byte per element (low 8 bits, null → 0); string arrays append each string (nulls skipped) up to a bad element; other types record an error and leave the buffer alone |
| Qz.PrintManager.AppendPieces | src/qz/PrintManager.java:627-630 | appends each piece followed by a NUL byte |
| Qz.PrintManager.Append | src/qz/PrintManager.java:613-638 | appends exactly `TextBytes(s)`, including the second copy of the text |
| Qz.PrintManager.AppendNull | src/qz/PrintManager.java:646-648 | appends one NUL byte |
| Qz.PrintManager.Clear | src/qz/PrintManager.java:695-697 | empties the buffer |
| Qz.PrintManager.AppendHTML | src/qz/PrintManager.java:169-171 | adds the text to the HTML handed to PrintHTML |
| Qz.PrintManager.SelectDotDensity | src/qz/PrintManager.java:243-253 | "single"/"double"/"triple", in any case, select 32/33/39; any other name keeps the old value |
| Qz.PrintManager.SetDocumentsPerSpool | src/qz/PrintManager.java:1182-1184 | stores the page count |
| Qz.PrintManager.SetEndOfDocument | src/qz/PrintManager.java:1147-1149 | stores the marker |
| Qz.PrintManager.IsRawAutoSpooling | src/qz/PrintManager.java:108-110 | true iff the count is positive, a marker is set, the buffer is non-empty and the encoded marker occurs in it |
| Qz.PrintManager.SetPrinter | src/qz/PrintManager.java:781-789 | a found printer is bound with its service; otherwise nothing changes and the result is false |
| Qz.PrintManager.CheckPrinterConnection | src/qz/PrintManager.java:699-706 | no lookup when the name is already bound; otherwise the result of the lookup, leaving the binding alone on failure |
| Qz.PrintManager.PrintWholeBuffer | src/qz/PrintManager.java:1269-1277 | prints the whole buffer once; clears it afterwards unless `reprint` is set; a failed print keeps it |
| Qz.PrintManager.SpoolPages | src/qz/PrintManager.java:750-752 | the spooling loop logs exactly the jobs of `PrintPages` |
| Qz.PrintManager.PrintBuffer | src/qz/PrintManager.java:740-771 | the printing part of `printRaw` leaves the state `PrintBufferEffect` gives, and reports its success |
| Qz.PrintManager.PrintRaw | src/qz/PrintManager.java:736-772 | an unknown printer prints nothing and changes nothing; spooling prints the pages as `PrintPages`, clearing the buffer iff all printed and `reprint` is off; otherwise the whole buffer is printed once; the new state and result are `PrintRawEffect` |
| Qz.PrintManager.PrintHTML | src/qz/PrintManager.java:708-720 | an unknown printer prints nothing; otherwise the HTML is printed on the bound service and a failure is recorded; the new state and result are `PrintHtmlEffect` |
| Qz.PrintManager.PrintToHost | src/qz/PrintManager.java:432-447 | a blank host or a port ≤ 0 clears the buffer and throws NullPrintServiceException; a successful socket print clears it; a failed one throws and keeps it |
| Qz.PrintManager.PrintToDefaultHost | src/qz/PrintManager.java:419-421 | `printToHost(host)` prints to port 9100: a blank host clears the buffer and throws; otherwise the socket print's outcome, clearing the buffer on success |
| Qz.PrintManager.PrintToHostText | src/qz/PrintManager.java:423-430 | a port that does not parse throws NumberFormatException; any thrown exception is also recorded; the new state is `PrintToHostEffect` |
| Qz.PrintManager.CloseCurrentPort | src/qz/PrintManager.java:904-912 | asks SerialIO to close and reports success |
| Qz.PrintManager.ClosePort | src/qz/PrintManager.java:914-919 | a SerialIO without a port name throws NullPointerException; the current port is closed with result true; any other name does nothing and gives false |
| Qz.PrintManager.OpenPort | src/qz/PrintManager.java:921-942 | makes the calls of `OpenRun`; the new name is recorded whether or not the open succeeds; the new state and result are `OpenPortEffect` |
| Qz.PrintManager.OpenRecorded | src/qz/PrintManager.java:926-941 | records the name, opens it and applies the settings: the calls of `OpenSteps` |
| Qz.PrintManager.OpenPortWithProperties | src/qz/PrintManager.java:896-902 | stores the settings, then opens with them applied |
| Qz.PrintManager.Send | src/qz/PrintManager.java:825-853 | reopens, with the stored settings, when the port is closed or different; a failed reopen returns false with the name recorded; then transmits the pending and decoded bytes, clearing them on success; the new state and result are `SendEffect` |
| Qz.PrintManager.TransmitData | src/qz/PrintManager.java:833-842 | decodes the data onto the pending input and sends it all, keeping it when the send fails |
| Qz.SwitchPorts | src/qz/PrintManager.java:921-930 | opening B while A is open closes A before B is opened |
| Server.ConfigText | src/webprint/Server.java:118 | for an address without a colon, the text `saveConfig` writes splits back into the address and the port's digits |
| Server.NoColonInPiece | src/webprint/Server.java:105-106 | a part `split(":")` yields holds no colon |
| Server.ParseConfig | src/webprint/Server.java:104-107 | a successful read found a colon, an address without one and a 32-bit port; text without a colon throws ArrayIndexOutOfBoundsException |
| Server.ConfigRoundTrip | src/webprint/Server.java:105-118 | an address without a colon and any 32-bit port survive `saveConfig` followed by `loadConfig` |
| Server.ColonAddressNotRecovered | src/webprint/Server.java:105-118 | the IPv6 address "::1" is not read back |
| Server.Server.constructor | src/webprint/Server.java:79-80 | the default address 127.0.0.1 and port 8080 |
| Server.Server.SaveAddress | src/webprint/Server.java:151-157 | the address changes only when one is given, the port only when above 1; the file then holds `address:port` |
| Server.Server.LoadConfig | src/webprint/Server.java:99-111 | reads both parts back, or lets the exception escape after the address was assigned |
| Server.SaveThenLoad | src/webprint/Server.java:99-157 | saving an address without a colon and a port above 1, then loading, restores both |
| Server.GetString | src/webprint/Server.java:210-218 | `getString` succeeds exactly on a string value, else throws JSONException |
| Server.GetObject | src/webprint/Server.java:253 | `getJSONObject` succeeds exactly on an object value |
| Server.Gate | src/webprint/Server.java:210-240 | an action is routed exactly when `a` is not "init", origin and cookie read, and the list holds that cookie for that origin; the action routed is `a` |
| Server.NoOriginNoAccess | src/webprint/Server.java:212-213 | without an origin the only answer is the credentials error and the list is unchanged |
| Server.MissingCookieIsEmpty | src/webprint/Server.java:216-219 | a missing cookie behaves as the empty cookie |
| Server.InitFlow | src/webprint/Server.java:220-238 | `init`: known pair → ready, list unchanged; else consent → fresh cookie stored and returned; else refusal, list unchanged |
| Server.GateChangesOnlyOnConsent | src/webprint/Server.java:220-240 | only a consented `init` changes the list, and only at the origin; routing happens only for the stored cookie |
| Server.Apply | src/webprint/Server.java:252-286 | each call the router makes has the effect of the print-manager method it names; the appends keep the success reported before them |
| Server.Perform | src/webprint/Server.java:241-288 | the calls made in order keep the manager consistent; no call leaves it as it was |
| Server.PrintRawPlan | src/webprint/Server.java:257-281 | at most two calls, only the last of which is not an append; with nothing escaping, no call is made exactly when no printer, port or socket is named |
| Server.OpenPortPlan | src/webprint/Server.java:252-256 | the port is opened, once, exactly when both the port and the settings are read; otherwise nothing is called |
| Server.PrintHtmlPlan | src/webprint/Server.java:282-287 | the HTML is appended first whenever the data reads; nothing escapes exactly when data and printer read |
| Server.RoutePlan | src/webprint/Server.java:241-288 | at most two calls; a port is opened only for `openport`, HTML handled only for `printhtml` |
| Server.RouteReply | src/webprint/Server.java:241-288 | for openport, printhtml and a printraw with a target the reply is empty exactly when the call succeeded; besides the listings, a reply is empty or holds only `error` |
| Server.PrinterTakesPrecedence | src/webprint/Server.java:258-262 | with a printer named, only the append and the raw print are called |
| Server.PortBeforeSocket | src/webprint/Server.java:263-267 | with a port and no printer, only the serial send is called |
| Server.NoTargetNoCall | src/webprint/Server.java:278-280 | with no target nothing is called and the reply is "No printer specified in the request." |
| Server.UnknownActionEmpty | src/webprint/Server.java:241-295 | an unknown action calls nothing and replies with an empty object |
| Server.PrinterListing | src/webprint/Server.java:243-245 | a listing without commas is answered as a single printer |
| Server.AnyCaseVerbs | src/webprint/Server.java:186-189 | the method filter accepts GET, HEAD and POST in any mixture of cases and no other spelling |
| Server.PortRouteKeepsBuffer | src/webprint/Server.java:263-267 | printraw to a port leaves the raw buffer, the jobs and the HTML as they were |
| Server.PrinterRouteNoSerial | src/webprint/Server.java:258-262 | printraw to a printer makes no call on the serial port |
| Server.PrinterRoutePrintsData | src/webprint/Server.java:258-262 | on the bound printer, without spooling or reprint, a successful print sends the buffer with the request's data appended and clears it |
| Server.FailedPrintKeepsData | src/webprint/Server.java:258-262 | a failed printraw keeps the buffer with the request's data appended |
| Server.HtmlAccumulates | src/webprint/Server.java:282-287 | printhtml keeps the HTML it was given whether or not the print succeeds |
| Server.HttpHandler.constructor | src/webprint/Server.java:176-180 | the handler owns a fresh print manager |
| Server.HttpHandler.RawToPrinter | src/webprint/Server.java:258-262 | the printer branch leaves the manager as performing `PrintRawPlan`'s calls does, and returns that run's success |
| Server.HttpHandler.RawToSocket | src/webprint/Server.java:268-277 | the socket branch: the same, for the append and the print to host:port |
| Server.HttpHandler.RoutePrintRaw | src/webprint/Server.java:257-281 | the manager's new state and the success returned are those of performing `PrintRawPlan`'s calls; the escaping exception is the plan's |
| Server.HttpHandler.Route | src/webprint/Server.java:241-288 | the manager's new state and the success returned are those of performing `RoutePlan`'s calls; the escaping exception is the plan's |
| Server.HttpHandler.Authenticate | src/webprint/Server.java:210-240 | answers `Gate` on the list as it was, and leaves the list that `Gate` gives |
| Server.HttpHandler.Handle | src/webprint/Server.java:185-309 | other methods throw MethodNotSupportedException; GET serves the bridge page or "1" with text/html; HEAD "1"; POST answers the gate, or leaves the manager as performing the routed plan does and replies `RouteReply` of its success, always with the CORS headers and status 200 |

## Left out

- Threads, sockets and the Swing dialogs are not modelled. The accept loop and worker threads are
  left out, the confirmation dialog is a boolean input, and the minted UUID cookie is an input.
- Persistence is modelled only as far as values go. The access list is not saved or loaded:
  without a saved file the map starts empty. The configuration file is a field of `Server`.
- The Java `Server` constructor calls `loadConfig` itself; in the model the constructor and
  `LoadConfig` are two separate steps.
- Parsing JSON is not modelled; `qz.json` is not part of this model. A request body arrives as a
  map of `Field` values, and parse failures arrive as an exception value. Serial settings are
  string-valued maps.
- The wording of qz.json's exception messages is the model's own.
- Qz.PrintManager.AppendJSONArray: integer elements are Java `Integer`s. A non-null element of
  another class in an integer array is taken to make `getInt` throw. A non-string element in a
  string array is taken to make `getString` throw. qz.json's coercions (numeric strings, doubles)
  are not modelled.
- The charset is one abstract `encode` function, and its UnsupportedEncodingException paths are
  not modelled. `PrintRaw.contains(endOfDocument)` is taken to test for the encoded marker.
- SerialIO is modelled through these assumptions:
  - `open(n)` records n as its port name whether or not it succeeds;
  - `close` never fails;
  - a SerialIO that never opened a port holds no port name (see Qz.PrintManager.ClosePort below);
  - `send` clears the pending bytes on success.
  
  Under these assumptions the "differs from previously opened port" branch of `send` cannot be
  reached, so it is not modelled.
- PrintHTML's own state is not modelled: whether `print` clears the HTML, and the `htmlPrint`
  flag. The HTML handed in accumulates.
- `PrintRaw.printToSocket`'s socket handling is the `socketPrint` function of `Env`.
- Qz.PrintManager.ClosePort: on a SerialIO that never opened a port, `getPortName()` is taken to
  be null, so `equals` throws NullPointerException. The exception escapes as the `Fail` result;
  its message text is the model's own.
- The image, PDF, file, PostScript, paper-size and network-information operations of
  PrintManager are not modelled. The model keeps only the dot-density name mapping they start
  with (Qz.PrintManager.SelectDotDensity).
- `findPorts` and `PrintServiceMatcher.getPrinterListing` are inputs of `Handle`.
- The bridge page's markup is the constructor `BridgePage`; its bytes are not reproduced.
- Qz.PrintManager.PrintToHost: "blank" means every character is at most U+0020, which is what `String.trim`
  removes.
- JavaText.ParseInt accepts only ASCII digits; Java also accepts other Unicode decimal digits.
- JavaText.UpperAscii upper-cases ASCII letters only. The HTTP method arrives in an ASCII request
  line, so no other letter can occur.
- The exceptions Java raises for unchecked failures are modelled as `Escaped` outcomes of
  `Handle`; their stack of callers is not. Examples are a missing `a` or `data` field, a socket
  value without a `:` part, and a bad request body.

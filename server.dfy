/**
 * The WebPrint HTTP server: the `address:port` configuration text, `saveAddress`, and the
 * request handler that filters methods, serves the bridge page, authenticates POSTed JSON
 * requests against the access-control list and routes them to the print manager.
 *
 * A request's JSON body is handed in already parsed (`Entity`); the confirmation dialog's
 * answer, the freshly minted cookie, the printer listing and the serial port listing are
 * inputs. The handler reports, besides its outcome, the print-manager calls it made, in order,
 * and whether the last device call succeeded.
 */
module Server {
  import opened Base
  import opened JavaText
  import opened AccessControl
  import opened Qz

  // ---------------------------------------------------------------- configuration text

  const DEFAULT_ADDRESS: string := "127.0.0.1"
  const DEFAULT_PORT: int := 8080

  /** What `saveConfig` writes: for an address without a colon, `split(":")` gives back its two parts. */
  function ConfigText(address: string, port: int): (r: string)
    ensures ':' !in address ==> Split(r, ":") == [address, FormatInt(port)]
  {
    SplitConfigText(address, port);
    address + ":" + FormatInt(port)
  }

  lemma SplitConfigText(address: string, port: int)
    ensures ':' !in address ==> Split(address + ":" + FormatInt(port), ":") == [address, FormatInt(port)]
  {
    if ':' !in address {
      FormatIntNoColon(port);
      SplitAroundChar(address, ':', FormatInt(port));
      assert address + ":" + FormatInt(port) == address + [':'] + FormatInt(port);
    }
  }

  /** A piece that does not contain the text ":" holds no colon character. */
  lemma NoColonInPiece(p: string)
    requires !Contains(p, ":")
    ensures ':' !in p
  {
    if ':' in p {
      var k :| 0 <= k < |p| && p[k] == ':';
      assert OccursAt(p, ":", k);
    }
  }

  function OutOfBounds(i: nat, length: nat): Throwable {
    Throwable("java.lang.ArrayIndexOutOfBoundsException",
      "Index " + FormatInt(i) + " out of bounds for length " + FormatInt(length))
  }

  /**
   * What `loadConfig` reads from `content`: the text before the first colon and the number after
   * it, or the exception that escapes (a missing part, or a port that does not parse).
   */
  function ParseConfig(content: string): (r: Res<(string, int)>)
    ensures r.Ok? ==> Contains(content, ":") && ':' !in r.value.0 && Int32(r.value.1)
    ensures !Contains(content, ":") ==> r == Fail(OutOfBounds(1, 1))
  {
    var parts := Split(content, ":");
    if |parts| < 2 then Fail(OutOfBounds(|parts|, |parts|))
    else match ParseInt(parts[1])
      case None => Fail(NumberFormat(parts[1]))
      case Some(p) =>
        NoColonInPiece(parts[0]);
        Ok((parts[0], p))
  }

  /** An address without a colon and any 32-bit port are read back exactly as they were written. */
  lemma ConfigRoundTrip(address: string, port: int)
    requires ':' !in address && Int32(port)
    ensures ParseConfig(ConfigText(address, port)) == Ok((address, port))
  {
    ParseFormatInt(port);
  }

  /** An IPv6 address such as "::1" does not survive: the text before its first colon is empty. */
  lemma ColonAddressNotRecovered(port: int)
    requires Int32(port)
    ensures ParseConfig(ConfigText("::1", port)) != Ok(("::1", port))
  {
    var s := ConfigText("::1", port);
    assert OccursAt(s, ":", 0);
    assert Pieces(s, ":")[0] == "";
  }

  class Server {
    var address: string
    var port: int
    /** The contents of the configuration file, None while there is none. */
    var config: Option<string>

    constructor (saved: Option<string>)
      ensures address == DEFAULT_ADDRESS && port == DEFAULT_PORT && config == saved
    {
      address, port, config := DEFAULT_ADDRESS, DEFAULT_PORT, saved;
    }

    /** Replaces the address unless it is null and the port only when it is above 1, then writes the file. */
    method SaveAddress(newAddress: Option<string>, newPort: int)
      modifies this`address, this`port, this`config
      ensures address == (if newAddress.Some? then newAddress.value else old(address))
      ensures port == (if newPort > 1 then newPort else old(port))
      ensures config == Some(ConfigText(address, port))
    {
      if newAddress.Some? {
        address := newAddress.value;
      }
      if newPort > 1 {
        port := newPort;
      }
      config := Some(ConfigText(address, port));
    }

    /**
     * Reads the file when there is one. The address is assigned before the port is parsed, so a
     * bad port leaves the new address in place.
     */
    method LoadConfig() returns (st: Status)
      modifies this`address, this`port
      ensures config.None? ==> st == Done && address == old(address) && port == old(port)
      ensures config.Some? && ParseConfig(config.value).Ok? ==>
        st == Done && (address, port) == ParseConfig(config.value).value
      ensures config.Some? && ParseConfig(config.value).Fail? ==>
        && st == Raised(ParseConfig(config.value).error) && port == old(port)
        && address == (if |Split(config.value, ":")| > 0 then Split(config.value, ":")[0] else old(address))
    {
      if config.None? {
        return Done;
      }
      var parts := Split(config.value, ":");
      if |parts| == 0 {
        return Raised(OutOfBounds(0, 0));
      }
      address := parts[0];
      if |parts| == 1 {
        return Raised(OutOfBounds(1, 1));
      }
      var p := ParseInt(parts[1]);
      if p.None? {
        return Raised(NumberFormat(parts[1]));
      }
      port := p.value;
      st := Done;
    }
  }

  /** Saving an address without a colon and a port above 1, then loading, gives back both. */
  method SaveThenLoad(server: Server, address: string, port: int) returns (st: Status)
    requires ':' !in address && 1 < port && Int32(port)
    modifies server
    ensures st == Done && server.address == address && server.port == port
  {
    server.SaveAddress(Some(address), port);
    ConfigRoundTrip(address, port);
    st := server.LoadConfig();
  }

  // ---------------------------------------------------------------- requests and responses

  /** A value of the request's JSON object. */
  datatype Field = FStr(s: string) | FObject(obj: PortSettings) | FOther

  type JsonRequest = map<string, Field>

  /** The request body: absent, not a JSON object (with the exception parsing throws), or parsed. */
  datatype Entity = NoEntity | Unparsable(error: Throwable) | Parsed(fields: JsonRequest)

  datatype HttpRequest = HttpRequest(verb: string, target: string, entity: Entity)

  datatype Header = Header(name: string, value: string)

  /** A value of the response's JSON object. */
  datatype JValue = JStr(s: string) | JBool(b: bool) | JStrArray(items: seq<string>)

  /** The response body: the bridge page served at /printwindow, plain text, or a JSON object. */
  datatype Body = BridgePage | Text(text: string) | JsonBody(obj: map<string, JValue>)

  /**
   * What `handle` does: throw MethodNotSupportedException, let another exception escape, or
   * complete the response.
   */
  datatype Outcome =
    | NotSupported(message: string)
    | Escaped(error: Throwable)
    | Response(status: int, headers: seq<Header>, body: Body)

  const CORS: seq<Header> := [
    Header("Access-Control-Allow-Origin", "*"),
    Header("Access-Control-Allow-Methods", "POST, GET, OPTIONS, DELETE"),
    Header("Access-Control-Max-Age", "3600"),
    Header("Access-Control-Allow-Headers", "x-requested-with")]

  const INVALID_CREDENTIALS: string := "Invalid authentication credentials provided."
  const ACCESS_DENIED: string := "Printer access has been denied for this site."
  const NOT_ALLOWED: string := " has not been allowed access to web print yet.\nTry refreshing the page."
  const NO_PRINTER: string := "No printer specified in the request."

  function NotStringKey(key: string): Throwable {
    Throwable("qz.json.JSONException", "JSONObject[\"" + key + "\"] not a string.")
  }

  function NotObjectKey(key: string): Throwable {
    Throwable("qz.json.JSONException", "JSONObject[\"" + key + "\"] is not a JSONObject.")
  }

  /** `getString(key)`: the string stored under `key`, or the JSONException for a missing or non-string value. */
  function GetString(fields: JsonRequest, key: string): (r: Res<string>)
    ensures r.Ok? <==> key in fields && fields[key].FStr?
    ensures r.Ok? ==> r.value == fields[key].s
    ensures r.Fail? ==> r.error == (if key in fields then NotStringKey(key) else MissingKey(key))
  {
    if key !in fields then Fail(MissingKey(key))
    else if fields[key].FStr? then Ok(fields[key].s)
    else Fail(NotStringKey(key))
  }

  /** `getJSONObject(key)`. */
  function GetObject(fields: JsonRequest, key: string): (r: Res<PortSettings>)
    ensures r.Ok? <==> key in fields && fields[key].FObject?
    ensures r.Ok? ==> r.value == fields[key].obj
  {
    if key !in fields then Fail(MissingKey(key))
    else if fields[key].FObject? then Ok(fields[key].obj)
    else Fail(NotObjectKey(key))
  }

  // ---------------------------------------------------------------- the authentication gate

  /** The request's cookie: the empty string when it has none. */
  function CookieOf(fields: JsonRequest): Res<string> {
    if "cookie" in fields then GetString(fields, "cookie") else Ok("")
  }

  /**
   * The result of the authentication part of a POST: an escaping exception, a finished reply
   * (with the access list it leaves), or an authorised action to route.
   */
  datatype GateResult =
    | GateEscape(error: Throwable)
    | GateAnswer(reply: map<string, JValue>, acl: map<string, string>)
    | GateRoute(action: string)

  /**
   * Reads the action, then the origin, then the cookie (the empty string when absent). `init`
   * answers `ready` for a known origin/cookie pair, mints and stores a cookie when the user
   * consents, and refuses otherwise; any other action passes only for a known pair.
   */
  function Gate(fields: JsonRequest, acl: map<string, string>, consent: bool, freshCookie: string): (r: GateResult)
    ensures r.GateRoute? <==>
      && GetString(fields, "a").Ok? && GetString(fields, "a").value != "init"
      && GetString(fields, "origin").Ok? && CookieOf(fields).Ok?
      && GetString(fields, "origin").value in acl && acl[GetString(fields, "origin").value] == CookieOf(fields).value
    ensures r.GateRoute? ==> r.action == GetString(fields, "a").value
  {
    match GetString(fields, "a")
    case Fail(e) => GateEscape(e)
    case Ok(action) =>
      if "origin" !in fields then GateAnswer(map["error" := JStr(INVALID_CREDENTIALS)], acl)
      else
        match GetString(fields, "origin")
        case Fail(e) => GateEscape(e)
        case Ok(origin) =>
          match CookieOf(fields)
          case Fail(e) => GateEscape(e)
          case Ok(cookie) =>
            var allowed := origin in acl && acl[origin] == cookie;
            if action == "init" then
              if allowed then GateAnswer(map["ready" := JBool(true)], acl)
              else if consent then
                GateAnswer(map["cookie" := JStr(freshCookie), "ready" := JBool(true)], acl[origin := freshCookie])
              else GateAnswer(map["error" := JStr(ACCESS_DENIED)], acl)
            else if allowed then GateRoute(action)
            else GateAnswer(map["error" := JStr(origin + NOT_ALLOWED)], acl)
  }

  /** Without an origin the only answer is the credentials error, and the list is left as it is. */
  lemma NoOriginNoAccess(fields: JsonRequest, acl: map<string, string>, consent: bool, freshCookie: string)
    requires GetString(fields, "a").Ok? && "origin" !in fields
    ensures Gate(fields, acl, consent, freshCookie) == GateAnswer(map["error" := JStr(INVALID_CREDENTIALS)], acl)
  {
  }

  /** A request without a cookie is treated exactly like one whose cookie is the empty string. */
  lemma MissingCookieIsEmpty(fields: JsonRequest, acl: map<string, string>, consent: bool, freshCookie: string)
    requires "cookie" !in fields
    ensures Gate(fields, acl, consent, freshCookie) == Gate(fields["cookie" := FStr("")], acl, consent, freshCookie)
  {
  }

  /** The `init` flow for a request with origin `o` and cookie `c`. */
  lemma InitFlow(fields: JsonRequest, acl: map<string, string>, consent: bool, freshCookie: string, o: string, c: string)
    requires GetString(fields, "a") == Ok("init") && GetString(fields, "origin") == Ok(o) && GetString(fields, "cookie") == Ok(c)
    ensures o in acl && acl[o] == c ==> Gate(fields, acl, consent, freshCookie) == GateAnswer(map["ready" := JBool(true)], acl)
    ensures !(o in acl && acl[o] == c) && consent ==>
      && Gate(fields, acl, consent, freshCookie) == GateAnswer(map["cookie" := JStr(freshCookie), "ready" := JBool(true)], acl[o := freshCookie])
      && Gate(fields, acl, consent, freshCookie).acl[o] == freshCookie
    ensures !(o in acl && acl[o] == c) && !consent ==>
      Gate(fields, acl, consent, freshCookie) == GateAnswer(map["error" := JStr(ACCESS_DENIED)], acl)
  {
  }

  /**
   * Only a consented `init` changes the list, and it changes only the requesting origin's
   * entry; every other action reaches the router only with the stored cookie.
   */
  lemma GateChangesOnlyOnConsent(fields: JsonRequest, acl: map<string, string>, consent: bool, freshCookie: string)
    ensures Gate(fields, acl, consent, freshCookie).GateAnswer? && Gate(fields, acl, consent, freshCookie).acl != acl ==>
      && consent && GetString(fields, "a") == Ok("init") && GetString(fields, "origin").Ok?
      && Gate(fields, acl, consent, freshCookie).acl == acl[GetString(fields, "origin").value := freshCookie]
    ensures Gate(fields, acl, consent, freshCookie).GateRoute? ==>
      && Gate(fields, acl, consent, freshCookie).action != "init"
      && GetString(fields, "origin").Ok? && GetString(fields, "origin").value in acl
      && acl[GetString(fields, "origin").value] == CookieOf(fields).value
  {
  }

  // ---------------------------------------------------------------- routing

  /** A call the handler makes on the print manager. */
  datatype Call =
    | Append64Call(data: string)
    | PrintRawCall(printer: string)
    | SendCall(port: string, data: string)
    | PrintToHostCall(host: string, port: string)
    | OpenPortCall(port: string, settings: PortSettings)
    | AppendHtmlCall(html: string)
    | PrintHtmlCall(printer: string)

  /** The calls an action makes, in order, and the exception that escapes after them, if one does. */
  datatype Plan = Plan(calls: seq<Call>, escape: Option<Throwable>)

  /**
   * What one call does to the manager, with the success it reports; the appends report nothing,
   * so the success reported before them stands.
   */
  function Apply(e: Effect, c: Call, env: Env): (r: Effect)
    requires Consistent(e.after)
    ensures Consistent(r.after)
    ensures c.Append64Call? || c.AppendHtmlCall? ==> r.ok == e.ok
  {
    match c
    case Append64Call(data) => Effect(Append64Effect(e.after, data, env), e.ok)
    case PrintRawCall(p) => PrintRawEffect(e.after, p, env)
    case SendCall(port, data) => SendEffect(e.after, port, data, env)
    case PrintToHostCall(host, port) => PrintToHostEffect(e.after, host, port, env)
    case OpenPortCall(port, settings) => OpenPortEffect(e.after.(portSettings := Some(settings)), port, false, env)
    case AppendHtmlCall(html) => Effect(AppendHtmlEffect(e.after, html), e.ok)
    case PrintHtmlCall(p) => PrintHtmlEffect(e.after, p, env)
  }

  /** The calls made one after another on a manager whose state and last success are `e`. */
  function Perform(e: Effect, calls: seq<Call>, env: Env): (r: Effect)
    requires Consistent(e.after)
    ensures Consistent(r.after)
    ensures calls == [] ==> r == e
    decreases |calls|
  {
    if calls == [] then e else Perform(Apply(e, calls[0], env), calls[1..], env)
  }

  lemma PerformOne(e: Effect, c: Call, env: Env)
    requires Consistent(e.after)
    ensures Perform(e, [c], env) == Apply(e, c, env)
  {
    assert [c][1..] == [];
  }

  lemma PerformTwo(e: Effect, c: Call, d: Call, env: Env)
    requires Consistent(e.after)
    ensures Perform(e, [c, d], env) == Apply(Apply(e, c, env), d, env)
  {
    assert [c, d][1..] == [d];
    PerformOne(Apply(e, c, env), d, env);
  }

  /**
   * `printraw`: a printer takes precedence over a serial port, which takes precedence over a
   * socket `host:port`. Printer and socket append the base64 data to the buffer first.
   */
  function PrintRawPlan(fields: JsonRequest): (r: Plan)
    ensures |r.calls| <= 2
    ensures forall i :: 0 <= i < |r.calls| - 1 ==> r.calls[i].Append64Call?
    ensures r.escape.None? ==> (r.calls == [] <==> "printer" !in fields && "port" !in fields && "socket" !in fields)
    ensures r.escape.None? && r.calls != [] ==> !r.calls[|r.calls| - 1].Append64Call?
  {
    if "printer" in fields then
      match GetString(fields, "data")
      case Fail(e) => Plan([], Some(e))
      case Ok(data) =>
        match GetString(fields, "printer")
        case Fail(e) => Plan([Append64Call(data)], Some(e))
        case Ok(p) => Plan([Append64Call(data), PrintRawCall(p)], None)
    else if "port" in fields then
      match GetString(fields, "port")
      case Fail(e) => Plan([], Some(e))
      case Ok(port) =>
        match GetString(fields, "data")
        case Fail(e) => Plan([], Some(e))
        case Ok(data) => Plan([SendCall(port, data)], None)
    else if "socket" in fields then
      match GetString(fields, "data")
      case Fail(e) => Plan([], Some(e))
      case Ok(data) =>
        match GetString(fields, "socket")
        case Fail(e) => Plan([Append64Call(data)], Some(e))
        case Ok(socket) =>
          var parts := Split(socket, ":");
          if |parts| < 2 then Plan([Append64Call(data)], Some(OutOfBounds(|parts|, |parts|)))
          else Plan([Append64Call(data), PrintToHostCall(parts[0], parts[1])], None)
    else Plan([], None)
  }

  function OpenPortPlan(fields: JsonRequest): (r: Plan)
    ensures r.escape.None? <==> GetString(fields, "port").Ok? && GetObject(fields, "settings").Ok?
    ensures r.escape.Some? ==> r.calls == []
    ensures r.escape.None? ==> r.calls == [OpenPortCall(GetString(fields, "port").value, GetObject(fields, "settings").value)]
  {
    match GetString(fields, "port")
    case Fail(e) => Plan([], Some(e))
    case Ok(port) =>
      match GetObject(fields, "settings")
      case Fail(e) => Plan([], Some(e))
      case Ok(settings) => Plan([OpenPortCall(port, settings)], None)
  }

  function PrintHtmlPlan(fields: JsonRequest): (r: Plan)
    ensures r.escape.None? <==> GetString(fields, "data").Ok? && GetString(fields, "printer").Ok?
    ensures GetString(fields, "data").Ok? ==> |r.calls| > 0 && r.calls[0] == AppendHtmlCall(GetString(fields, "data").value)
    ensures GetString(fields, "data").Fail? ==> r.calls == []
  {
    match GetString(fields, "data")
    case Fail(e) => Plan([], Some(e))
    case Ok(data) =>
      match GetString(fields, "printer")
      case Fail(e) => Plan([AppendHtmlCall(data)], Some(e))
      case Ok(p) => Plan([AppendHtmlCall(data), PrintHtmlCall(p)], None)
  }

  /** The print-manager calls an authorised action makes. */
  function RoutePlan(action: string, fields: JsonRequest): (r: Plan)
    ensures |r.calls| <= 2
    ensures forall c :: c in r.calls ==> (c.OpenPortCall? <==> action == "openport")
    ensures forall c :: c in r.calls ==> (c.AppendHtmlCall? || c.PrintHtmlCall? <==> action == "printhtml")
  {
    if action == "openport" then OpenPortPlan(fields)
    else if action == "printraw" then PrintRawPlan(fields)
    else if action == "printhtml" then PrintHtmlPlan(fields)
    else Plan([], None)
  }

  /** A reply holding only an error message. */
  function ErrorReply(message: string): (r: map<string, JValue>)
    ensures r.Keys == {"error"} && r != map[]
  {
    var r := map["error" := JStr(message)];
    assert "error" in r;
    r
  }

  function FailedToPrint(ok: bool, text: string): (r: map<string, JValue>)
    ensures r == map[] <==> ok
    ensures r == map[] || r.Keys == {"error"}
  {
    if ok then map[] else ErrorReply("Failed to print: " + text)
  }

  /** `getMessage()` of the recorded exception. */
  function MessageOf(t: Option<Throwable>): string {
    if t.Some? then t.value.message else "null"
  }

  /**
   * The reply to an authorised action that did not throw, given whether its device call
   * succeeded and the exception the manager recorded.
   */
  function RouteReply(action: string, fields: JsonRequest, listing: string, ports: seq<string>, ok: bool, t: Option<Throwable>): (r: map<string, JValue>)
    ensures action == "openport" || action == "printhtml" ==> (r == map[] <==> ok)
    ensures action == "printraw" && ("printer" in fields || "port" in fields || "socket" in fields) ==> (r == map[] <==> ok)
    ensures action != "listprinters" && action != "listports" ==> r == map[] || r.Keys == {"error"}
  {
    if action == "listprinters" then map["printers" := JStrArray(Split(listing, ","))]
    else if action == "listports" then map["ports" := JStrArray(ports)]
    else if action == "openport" then
      (if ok then map[] else ErrorReply("Could not open serial port: " + ExceptionText(t)))
    else if action == "printraw" then
      if "printer" in fields || "port" in fields then FailedToPrint(ok, ExceptionText(t))
      else if "socket" in fields then FailedToPrint(ok, MessageOf(t))
      else ErrorReply(NO_PRINTER)
    else if action == "printhtml" then FailedToPrint(ok, ExceptionText(t))
    else map[]
  }

  /** With a printer named, no serial or socket call is made, whatever else the request holds. */
  lemma PrinterTakesPrecedence(fields: JsonRequest)
    requires "printer" in fields
    ensures forall c :: c in PrintRawPlan(fields).calls ==> c.Append64Call? || c.PrintRawCall?
  {
  }

  /** With a port but no printer, the only call is the serial send: the buffer is not touched. */
  lemma PortBeforeSocket(fields: JsonRequest)
    requires "printer" !in fields && "port" in fields
    ensures forall c :: c in PrintRawPlan(fields).calls ==> c.SendCall?
  {
  }

  /** With no target at all nothing is called and the reply is the "No printer specified" error. */
  lemma NoTargetNoCall(fields: JsonRequest, listing: string, ports: seq<string>, ok: bool, t: Option<Throwable>)
    requires "printer" !in fields && "port" !in fields && "socket" !in fields
    ensures RoutePlan("printraw", fields) == Plan([], None)
    ensures RouteReply("printraw", fields, listing, ports, ok, t) == ErrorReply(NO_PRINTER)
  {
  }

  /** An action the router does not know calls nothing and replies with an empty object. */
  lemma UnknownActionEmpty(action: string, fields: JsonRequest, listing: string, ports: seq<string>, ok: bool, t: Option<Throwable>)
    requires action !in {"listprinters", "listports", "openport", "printraw", "printhtml"}
    ensures RoutePlan(action, fields) == Plan([], None)
    ensures RouteReply(action, fields, listing, ports, ok, t) == map[]
  {
  }

  /** The listing of printers is answered split at commas; a listing without commas is one name. */
  lemma PrinterListing(fields: JsonRequest, listing: string, ports: seq<string>, ok: bool, t: Option<Throwable>)
    requires !Contains(listing, ",")
    ensures RouteReply("listprinters", fields, listing, ports, ok, t) == map["printers" := JStrArray([listing])]
  {
    SplitWithoutSeparator(listing, ",");
  }

  /** The method filter accepts GET, HEAD and POST written in any mixture of cases, and no other spelling. */
  lemma AnyCaseVerbs(m: string)
    ensures UpperAscii(m) == "GET" <==> |m| == 3 && forall i :: 0 <= i < 3 ==> m[i] == "GET"[i] || m[i] == "get"[i]
    ensures UpperAscii(m) == "HEAD" <==> |m| == 4 && forall i :: 0 <= i < 4 ==> m[i] == "HEAD"[i] || m[i] == "head"[i]
    ensures UpperAscii(m) == "POST" <==> |m| == 4 && forall i :: 0 <= i < 4 ==> m[i] == "POST"[i] || m[i] == "post"[i]
  {
    AnyCaseWord(m, "GET", "get");
    AnyCaseWord(m, "HEAD", "head");
    AnyCaseWord(m, "POST", "post");
  }

  lemma AnyCaseWord(m: string, w: string, small: string)
    requires UpperWord(w) && |small| == |w| && forall i :: 0 <= i < |w| ==> small[i] as int == w[i] as int + 32
    ensures UpperAscii(m) == w <==> |m| == |w| && forall i :: 0 <= i < |w| ==> m[i] == w[i] || m[i] == small[i]
  {
    UpperAsciiMatches(m, w);
  }

  /** With a port and no printer, printraw leaves the raw buffer, the jobs and the HTML as they were. */
  lemma PortRouteKeepsBuffer(s: Snapshot, fields: JsonRequest, env: Env)
    requires Consistent(s) && "printer" !in fields && "port" in fields
    ensures var r := Perform(Effect(s, true), PrintRawPlan(fields).calls, env);
      r.after.raw == s.raw && r.after.jobs == s.jobs && r.after.html == s.html
  {
    var calls := PrintRawPlan(fields).calls;
    if calls != [] {
      PerformOne(Effect(s, true), calls[0], env);
    }
  }

  /** With a printer named, printraw makes no call on the serial port. */
  lemma PrinterRouteNoSerial(s: Snapshot, fields: JsonRequest, env: Env)
    requires Consistent(s) && "printer" in fields
    ensures Perform(Effect(s, true), PrintRawPlan(fields).calls, env).after.serialCalls == s.serialCalls
  {
    var calls := PrintRawPlan(fields).calls;
    if |calls| == 1 {
      PerformOne(Effect(s, true), calls[0], env);
    } else if |calls| == 2 {
      PerformTwo(Effect(s, true), calls[0], calls[1], env);
    }
  }

  /**
   * printraw to a printer prints the buffer with the request's data appended: on the bound
   * printer, without spooling, a successful print sends exactly that buffer and clears it.
   */
  lemma PrinterRoutePrintsData(s: Snapshot, fields: JsonRequest, env: Env, data: string, p: string, b: Bytes)
    requires Consistent(s) && "printer" in fields
    requires GetString(fields, "data") == Ok(data) && GetString(fields, "printer") == Ok(p) && env.decode64(data) == Ok(b)
    requires s.printer == Some(p) && !s.reprint && !AutoSpooling(s.(raw := s.raw + b), env.encode)
    requires env.rawPrint(s.service.value, s.raw + b).Done?
    ensures var r := Perform(Effect(s, true), PrintRawPlan(fields).calls, env);
      && r.ok && r.after.raw == [] && r.after.jobs == s.jobs + [RawJob(s.service.value, s.raw + b)]
  {
    PerformTwo(Effect(s, true), Append64Call(data), PrintRawCall(p), env);
  }

  /** A failed print keeps the buffer, with the request's data appended, for the next attempt. */
  lemma FailedPrintKeepsData(s: Snapshot, fields: JsonRequest, env: Env, data: string, p: string, b: Bytes)
    requires Consistent(s) && "printer" in fields
    requires GetString(fields, "data") == Ok(data) && GetString(fields, "printer") == Ok(p) && env.decode64(data) == Ok(b)
    ensures var r := Perform(Effect(s, true), PrintRawPlan(fields).calls, env);
      !r.ok ==> r.after.raw == s.raw + b
  {
    PerformTwo(Effect(s, true), Append64Call(data), PrintRawCall(p), env);
  }

  /** printhtml keeps every HTML fragment it was given, whether or not the print succeeds. */
  lemma HtmlAccumulates(s: Snapshot, fields: JsonRequest, env: Env, data: string)
    requires Consistent(s) && GetString(fields, "data") == Ok(data)
    ensures Perform(Effect(s, true), PrintHtmlPlan(fields).calls, env).after.html == s.html + [data]
  {
    var calls := PrintHtmlPlan(fields).calls;
    if |calls| == 1 {
      PerformOne(Effect(s, true), calls[0], env);
    } else {
      PerformTwo(Effect(s, true), calls[0], calls[1], env);
    }
  }

  // ---------------------------------------------------------------- the handler

  class HttpHandler {
    /** The application's access-control list, and the handler's own print manager. */
    const acl: AccessControl
    const pManager: PrintManager

    constructor (acl: AccessControl)
      ensures this.acl == acl && fresh(pManager) && pManager.Valid()
      ensures pManager.raw == [] && pManager.jobs == [] && pManager.serialCalls == []
    {
      this.acl := acl;
      pManager := new PrintManager();
    }

    /** `printraw` for an authorised request. */
    method RoutePrintRaw(fields: JsonRequest, env: Env) returns (escape: Option<Throwable>, ok: bool)
      requires pManager.Valid()
      modifies pManager
      ensures pManager.Valid()
      ensures escape == PrintRawPlan(fields).escape
      ensures Effect(pManager.State(), ok) == Perform(Effect(old(pManager.State()), true), PrintRawPlan(fields).calls, env)
    {
      ghost var e0 := Effect(pManager.State(), true);
      ok := true;
      if "printer" in fields {
        escape, ok := RawToPrinter(fields, env);
      } else if "port" in fields {
        var port := GetString(fields, "port");
        if port.Fail? {
          return Some(port.error), ok;
        }
        var data := GetString(fields, "data");
        if data.Fail? {
          return Some(data.error), ok;
        }
        ok := pManager.Send(port.value, data.value, env);
        PerformOne(e0, SendCall(port.value, data.value), env);
        return None, ok;
      } else if "socket" in fields {
        escape, ok := RawToSocket(fields, env);
      } else {
        escape := None;
      }
    }

    /** The printer branch of `printraw`: append the data, then print the buffer. */
    method RawToPrinter(fields: JsonRequest, env: Env) returns (escape: Option<Throwable>, ok: bool)
      requires pManager.Valid() && "printer" in fields
      modifies pManager
      ensures pManager.Valid()
      ensures escape == PrintRawPlan(fields).escape
      ensures Effect(pManager.State(), ok) == Perform(Effect(old(pManager.State()), true), PrintRawPlan(fields).calls, env)
    {
      ghost var e0 := Effect(pManager.State(), true);
      ok := true;
      var data := GetString(fields, "data");
      if data.Fail? {
        return Some(data.error), ok;
      }
      pManager.Append64(data.value, env);
      PerformOne(e0, Append64Call(data.value), env);
      var p := GetString(fields, "printer");
      if p.Fail? {
        return Some(p.error), ok;
      }
      ok := pManager.PrintRaw(p.value, env);
      PerformTwo(e0, Append64Call(data.value), PrintRawCall(p.value), env);
      return None, ok;
    }

    /** The socket branch of `printraw`: append the data, then send the buffer to host:port. */
    method RawToSocket(fields: JsonRequest, env: Env) returns (escape: Option<Throwable>, ok: bool)
      requires pManager.Valid() && "printer" !in fields && "port" !in fields && "socket" in fields
      modifies pManager
      ensures pManager.Valid()
      ensures escape == PrintRawPlan(fields).escape
      ensures Effect(pManager.State(), ok) == Perform(Effect(old(pManager.State()), true), PrintRawPlan(fields).calls, env)
    {
      ghost var e0 := Effect(pManager.State(), true);
      ok := true;
      var data := GetString(fields, "data");
      if data.Fail? {
        return Some(data.error), ok;
      }
      pManager.Append64(data.value, env);
      PerformOne(e0, Append64Call(data.value), env);
      var socket := GetString(fields, "socket");
      if socket.Fail? {
        return Some(socket.error), ok;
      }
      var parts := Split(socket.value, ":");
      if |parts| < 2 {
        return Some(OutOfBounds(|parts|, |parts|)), ok;
      }
      var st := pManager.PrintToHostText(parts[0], parts[1], env);
      ok := st.Done?;
      PerformTwo(e0, Append64Call(data.value), PrintToHostCall(parts[0], parts[1]), env);
      return None, ok;
    }

    /** Routes an authorised action to the print manager. */
    method Route(action: string, fields: JsonRequest, env: Env) returns (escape: Option<Throwable>, ok: bool)
      requires pManager.Valid()
      modifies pManager
      ensures pManager.Valid()
      ensures escape == RoutePlan(action, fields).escape
      ensures Effect(pManager.State(), ok) == Perform(Effect(old(pManager.State()), true), RoutePlan(action, fields).calls, env)
    {
      ghost var e0 := Effect(pManager.State(), true);
      ok := true;
      escape := None;
      if action == "openport" {
        var port := GetString(fields, "port");
        if port.Fail? {
          return Some(port.error), ok;
        }
        var settings := GetObject(fields, "settings");
        if settings.Fail? {
          return Some(settings.error), ok;
        }
        ok := pManager.OpenPortWithProperties(port.value, settings.value, env);
        PerformOne(e0, OpenPortCall(port.value, settings.value), env);
      } else if action == "printraw" {
        escape, ok := RoutePrintRaw(fields, env);
      } else if action == "printhtml" {
        var data := GetString(fields, "data");
        if data.Fail? {
          return Some(data.error), ok;
        }
        pManager.AppendHTML(data.value);
        PerformOne(e0, AppendHtmlCall(data.value), env);
        var p := GetString(fields, "printer");
        if p.Fail? {
          return Some(p.error), ok;
        }
        ok := pManager.PrintHTML(p.value, env);
        PerformTwo(e0, AppendHtmlCall(data.value), PrintHtmlCall(p.value), env);
      }
    }

    /** The authentication part of a POST, on the access list itself. */
    method Authenticate(fields: JsonRequest, consent: bool, freshCookie: string) returns (g: GateResult)
      modifies acl
      ensures g == Gate(fields, old(acl.aclmap), consent, freshCookie)
      ensures g.GateAnswer? ==> acl.aclmap == g.acl
      ensures !g.GateAnswer? ==> acl.aclmap == old(acl.aclmap)
    {
      var a := GetString(fields, "a");
      if a.Fail? {
        return GateEscape(a.error);
      }
      if "origin" !in fields {
        return GateAnswer(map["error" := JStr(INVALID_CREDENTIALS)], acl.aclmap);
      }
      var origin := GetString(fields, "origin");
      if origin.Fail? {
        return GateEscape(origin.error);
      }
      var cookie: Res<string> := Ok("");
      if "cookie" in fields {
        cookie := GetString(fields, "cookie");
        if cookie.Fail? {
          return GateEscape(cookie.error);
        }
      }
      var allowed := acl.IsAllowed(origin.value, cookie.value);
      if a.value == "init" {
        if !allowed {
          if consent {
            acl.Add(origin.value, freshCookie);
            return GateAnswer(map["cookie" := JStr(freshCookie), "ready" := JBool(true)], acl.aclmap);
          }
          return GateAnswer(map["error" := JStr(ACCESS_DENIED)], acl.aclmap);
        }
        return GateAnswer(map["ready" := JBool(true)], acl.aclmap);
      }
      if allowed {
        return GateRoute(a.value);
      }
      return GateAnswer(map["error" := JStr(origin.value + NOT_ALLOWED)], acl.aclmap);
    }

    /**
     * `handle`: only GET, HEAD and POST (in any case) are served. GET answers the bridge page at
     * /printwindow and "1" elsewhere, HEAD answers "1", POST answers a JSON object; every
     * response carries the CORS headers and status 200. An authorised action leaves the print
     * manager as the calls of its plan, made in order, leave it, and the reply reports the
     * success of the last of them.
     */
    method Handle(req: HttpRequest, consent: bool, freshCookie: string, listing: string, ports: seq<string>, env: Env)
      returns (outcome: Outcome)
      requires pManager.Valid()
      modifies acl, pManager
      ensures pManager.Valid()
      ensures var m := UpperAscii(req.verb);
        m != "GET" && m != "HEAD" && m != "POST" ==>
          outcome == NotSupported(m + " method not supported") && unchanged(acl) && unchanged(pManager)
      ensures UpperAscii(req.verb) == "GET" ==>
        && outcome == Response(200, [Header("Content-Type", "text/html")] + CORS,
                               if req.target == "/printwindow" then BridgePage else Text("1"))
        && unchanged(acl) && unchanged(pManager)
      ensures UpperAscii(req.verb) == "HEAD" ==>
        outcome == Response(200, CORS, Text("1")) && unchanged(acl) && unchanged(pManager)
      ensures UpperAscii(req.verb) == "POST" && !req.entity.Parsed? ==>
        && outcome == (if req.entity.NoEntity? then Response(200, CORS, JsonBody(map[])) else Escaped(req.entity.error))
        && unchanged(acl) && unchanged(pManager)
      ensures UpperAscii(req.verb) == "POST" && req.entity.Parsed? ==>
        match Gate(req.entity.fields, old(acl.aclmap), consent, freshCookie)
        case GateEscape(e) => outcome == Escaped(e) && acl.aclmap == old(acl.aclmap) && unchanged(pManager)
        case GateAnswer(reply, newAcl) => outcome == Response(200, CORS, JsonBody(reply)) && acl.aclmap == newAcl && unchanged(pManager)
        case GateRoute(action) =>
          var plan := RoutePlan(action, req.entity.fields);
          var run := Perform(Effect(old(pManager.State()), true), plan.calls, env);
          && acl.aclmap == old(acl.aclmap) && pManager.State() == run.after
          && outcome == (if plan.escape.Some? then Escaped(plan.escape.value)
                         else Response(200, CORS, JsonBody(RouteReply(action, req.entity.fields, listing, ports, run.ok, run.after.t))))
    {
      var m := UpperAscii(req.verb);
      if m != "GET" && m != "HEAD" && m != "POST" {
        return NotSupported(m + " method not supported");
      }
      if m == "GET" {
        var body := if req.target == "/printwindow" then BridgePage else Text("1");
        return Response(200, [Header("Content-Type", "text/html")] + CORS, body);
      }
      if m == "HEAD" {
        return Response(200, CORS, Text("1"));
      }
      match req.entity
      case NoEntity =>
        outcome := Response(200, CORS, JsonBody(map[]));
      case Unparsable(e) =>
        outcome := Escaped(e);
      case Parsed(fields) =>
        var g := Authenticate(fields, consent, freshCookie);
        match g
        case GateEscape(e) =>
          outcome := Escaped(e);
        case GateAnswer(reply, _) =>
          outcome := Response(200, CORS, JsonBody(reply));
        case GateRoute(action) =>
          var escape, ok := Route(action, fields, env);
          if escape.Some? {
            outcome := Escaped(escape.value);
          } else {
            outcome := Response(200, CORS, JsonBody(RouteReply(action, fields, listing, ports, ok, pManager.t)));
          }
    }
  }
}

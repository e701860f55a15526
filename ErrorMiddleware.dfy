/**
 * The Express error handler of express-error-middleware: it derives an HTTP
 * status from whatever value was raised, sets it on the response, writes one
 * coloured, timestamped line to the console when the configured levels allow
 * it, and hands a normalised error to `next`.
 *
 * The console is two append-only sequences of lines (stdout for `console.log`,
 * stderr for `console.error`), the clock is a timestamp parameter and the
 * `statuses` package is a map from status codes to reason phrases.
 */
module ErrorMiddleware {
  import opened Wrappers
  import opened Decimal

  // ---------------------------------------------------------------------------
  // Data model
  // ---------------------------------------------------------------------------

  /** The three configurable log levels. */
  datatype LogLevel = Error | Warning | Info

  datatype TextColor = Red | Yellow | Blue

  /**
   * The value handed to the error handler, by JavaScript type:
   * a number, an object (`status` and `message` are `None` when undefined,
   * `isError` says whether it is an `Error` instance, `fields` stands for its
   * other own properties), a string, or anything else (`shown` is its string
   * conversion).
   */
  datatype RawError =
    | Num(n: int)
    | Obj(status: Option<int>, message: Option<string>, isError: bool, fields: map<string, string>)
    | Str(s: string)
    | Other(shown: string)

  /** The JavaScript `typeof` classes the handler branches on. */
  datatype JsType = NumberType | ObjectType | StringType | OtherType

  /** The argument given to `next`: the raised object itself, or `{status, message}`. */
  datatype Forwarded =
    | PassThrough(original: RawError)
    | Normalized(status: int, message: Option<string>)

  /** The parts of an Express request the handler reads. */
  datatype Request = Request(httpMethod: string, originalUrl: string)

  /**
   * The factory's options; `logLevel` is `None` when it is undefined, and
   * otherwise the caller's own array object, which the handler shares.
   */
  datatype Options = Options(logLevel: Option<LevelList>)

  function TypeOf(err: RawError): JsType {
    match err
    case Num(_) => NumberType
    case Obj(_, _, _, _) => ObjectType
    case Str(_) => StringType
    case Other(_) => OtherType
  }

  // ---------------------------------------------------------------------------
  // Formatting: colours, severity prefixes, reason phrases, log lines
  // ---------------------------------------------------------------------------

  const Esc: char := '\U{1B}'
  const Reset: string := [Esc, '[', '0', 'm']

  /** The escape sequence that switches the terminal to `c`. */
  function ColorCode(c: TextColor): (code: string)
    ensures |code| == 5 && code[0] == Esc
  {
    match c
    case Red => [Esc, '[', '3', '1', 'm']
    case Yellow => [Esc, '[', '3', '3', 'm']
    case Blue => [Esc, '[', '3', '4', 'm']
  }

  /** `color(color, text)`: wraps `text` in the colour's escape code and the reset code. */
  function Color(c: TextColor, text: string): string {
    ColorCode(c) + text + Reset
  }

  /** The colour whose escape sequence is `code`, if any. */
  function ColorOfCode(code: string): (r: Option<TextColor>)
    ensures r.Some? ==> ColorCode(r.value) == code
  {
    if code == ColorCode(Red) then Some(Red)
    else if code == ColorCode(Yellow) then Some(Yellow)
    else if code == ColorCode(Blue) then Some(Blue)
    else None
  }

  /** Splits a coloured text into its colour and the text inside the escape codes. */
  function Uncolor(s: string): Option<(TextColor, string)> {
    if |s| < 9 || s[|s| - 4..] != Reset then None
    else
      match ColorOfCode(s[..5])
      case Some(c) => Some((c, s[5..|s| - 4]))
      case None => None
  }

  /** Removing the colour gives back the colour and the text that was coloured. */
  lemma UncolorColor(c: TextColor, text: string)
    ensures Uncolor(Color(c, text)) == Some((c, text))
  {
    var s := Color(c, text);
    assert s[|s| - 4..] == Reset;
    assert s[..5] == ColorCode(c);
    assert s[5..|s| - 4] == text;
  }

  /** Different colours or different texts never give the same coloured text. */
  lemma ColorInjective(c1: TextColor, t1: string, c2: TextColor, t2: string)
    requires Color(c1, t1) == Color(c2, t2)
    ensures c1 == c2 && t1 == t2
  {
    UncolorColor(c1, t1);
    UncolorColor(c2, t2);
  }

  /** `level.toUpperCase()`. */
  function Upper(level: LogLevel): string {
    match level
    case Error => "ERROR"
    case Warning => "WARNING"
    case Info => "INFO"
  }

  /** The prefix of the direct logger: `error` red, `warning` yellow, anything else blue. */
  function LogPrefix(kind: LogLevel): string {
    if kind == Error then Color(Red, "ERROR")
    else if kind == Warning then Color(Yellow, "WARNING")
    else Color(Blue, "INFO")
  }

  /** The colour `logRequest` chooses for a level. */
  function LevelColor(level: LogLevel): TextColor {
    if level == Error then Red else if level == Warning then Yellow else Blue
  }

  /** The coloured severity word of a request line. */
  function RequestTag(level: LogLevel): string {
    Color(LevelColor(level), Upper(level))
  }

  /** `logRequest` and the direct logger colour and spell every level alike. */
  lemma RequestTagIsLogPrefix(level: LogLevel)
    ensures RequestTag(level) == LogPrefix(level)
    ensures Uncolor(LogPrefix(level)) == Some((LevelColor(level), Upper(level)))
  {
    UncolorColor(LevelColor(level), Upper(level));
  }

  /**
   * `statusToMessage(number)`: the reason phrase when the table has a truthy
   * (non-empty) entry for the code, otherwise `"Unknown status "` and the code.
   */
  function StatusToMessage(phrases: map<int, string>, n: int): (m: string)
    ensures m != ""
    ensures n in phrases && phrases[n] != "" ==> m == phrases[n]
    ensures !(n in phrases && phrases[n] != "") ==> m == "Unknown status " + ShowInt(n)
  {
    if n in phrases && phrases[n] != "" then phrases[n] else "Unknown status " + ShowInt(n)
  }

  /** The fallback text names the code: the code can be read back from it. */
  lemma StatusToMessageNamesCode(phrases: map<int, string>, n: int)
    requires !(n in phrases && phrases[n] != "")
    ensures |StatusToMessage(phrases, n)| > 15
    ensures StatusToMessage(phrases, n)[..15] == "Unknown status "
    ensures ParseInt(StatusToMessage(phrases, n)[15..]) == Some(n)
  {
    var m := StatusToMessage(phrases, n);
    assert m[15..] == ShowInt(n);
    ParseShowInt(n);
  }

  /** `` `${err.message}` ``: an undefined message prints as `undefined`. */
  function MessageText(message: Option<string>): string {
    message.GetOr("undefined")
  }

  /** The detail at the end of a request line, chosen by the error's `typeof`. */
  function Detail(phrases: map<int, string>, err: RawError): string {
    match err
    case Num(n) => StatusToMessage(phrases, n)
    case Obj(_, message, _, _) => MessageText(message)
    case Str(s) => s
    case Other(shown) => shown
  }

  /** The direct logger's line: `ts - PREFIX - text`. */
  function LogLine(ts: string, kind: LogLevel, text: string): string {
    ts + " - " + LogPrefix(kind) + " - " + text
  }

  /** What follows the severity word in a request line: ` - method url (code) - detail`. */
  function RequestTrailer(httpMethod: string, url: string, statusCode: int, detail: string): string {
    " - " + httpMethod + " " + url + " (" + ShowInt(statusCode) + ")" + " - " + detail
  }

  /** `logRequest`'s line: `ts - LEVEL - method url (code) - detail`. */
  function RequestLine(ts: string, level: LogLevel, httpMethod: string, url: string, statusCode: int, detail: string): string {
    ts + " - " + RequestTag(level) + RequestTrailer(httpMethod, url, statusCode, detail)
  }

  // ---------------------------------------------------------------------------
  // Reading the severity back from a line
  // ---------------------------------------------------------------------------

  /** Index of the first `c` in `s`, or `|s|` when there is none. */
  function IndexOf(s: string, c: char): (r: nat)
    ensures r <= |s|
    ensures r < |s| ==> s[r] == c
    ensures forall k :: 0 <= k < r ==> s[k] != c
  {
    if s == [] then 0 else if s[0] == c then 0 else 1 + IndexOf(s[1..], c)
  }

  /** The level whose colour and upper-case word are these. */
  function LevelOfTag(c: TextColor, word: string): Option<LogLevel> {
    if c == Red && word == "ERROR" then Some(Error)
    else if c == Yellow && word == "WARNING" then Some(Warning)
    else if c == Blue && word == "INFO" then Some(Info)
    else None
  }

  /** The level of a coloured word followed by the reset code, as in `ERROR` + reset + rest. */
  function WordSeverity(c: TextColor, body: string): Option<LogLevel> {
    var j := IndexOf(body, Esc);
    if j + 4 <= |body| && body[j..j + 4] == Reset then LevelOfTag(c, body[..j]) else None
  }

  /** The level of a text that starts with a coloured severity word. */
  function TagSeverity(tail: string): Option<LogLevel> {
    if |tail| < 5 then None
    else
      match ColorOfCode(tail[..5])
      case None => None
      case Some(c) => WordSeverity(c, tail[5..])
  }

  /**
   * The severity of a console line: the coloured word after the first
   * `" - "`, with the colour codes stripped.
   */
  function LineSeverity(line: string): Option<LogLevel> {
    var i := IndexOf(line, ' ');
    if i + 3 <= |line| && line[i..i + 3] == " - " then TagSeverity(line[i + 3..]) else None
  }

  /** The first `c` of `a + b` is the first `c` of `b`, shifted, when `a` has none. */
  lemma IndexOfAfter(a: string, b: string, c: char)
    requires c !in a && |b| > 0 && b[0] == c
    ensures IndexOf(a + b, c) == |a|
  {
    assert (a + b)[|a|] == c;
    assert forall k :: 0 <= k < |a| ==> (a + b)[k] != c;
  }

  lemma WordSeverityOf(level: LogLevel, rest: string)
    ensures WordSeverity(LevelColor(level), Upper(level) + Reset + rest) == Some(level)
  {
    var word := Upper(level);
    var body := word + Reset + rest;
    assert body == word + (Reset + rest);
    IndexOfAfter(word, Reset + rest, Esc);
    assert body[|word|..|word| + 4] == Reset;
    assert body[..|word|] == word;
  }

  lemma TagSeverityOf(level: LogLevel, rest: string)
    ensures TagSeverity(RequestTag(level) + rest) == Some(level)
  {
    var code := ColorCode(LevelColor(level));
    var tail := RequestTag(level) + rest;
    assert tail == code + (Upper(level) + Reset + rest);
    assert tail[..5] == code;
    assert tail[5..] == Upper(level) + Reset + rest;
    WordSeverityOf(level, rest);
  }

  /** After a space-free timestamp and `" - "`, the severity is read from what follows. */
  lemma LineSeverityAfterTimestamp(ts: string, tail: string)
    requires ' ' !in ts
    ensures LineSeverity(ts + " - " + tail) == TagSeverity(tail)
  {
    var line := ts + " - " + tail;
    assert line == ts + (" - " + tail);
    IndexOfAfter(ts, " - " + tail, ' ');
    assert line[|ts|..|ts| + 3] == " - ";
    assert line[|ts| + 3..] == tail;
  }

  /**
   * Any line that starts with a space-free timestamp, `" - "` and a level's
   * tag has that level as its severity: the colouring hides nothing.
   */
  lemma LineSeverityOfTagged(ts: string, level: LogLevel, rest: string)
    requires ' ' !in ts
    ensures LineSeverity(ts + " - " + RequestTag(level) + rest) == Some(level)
  {
    assert ts + " - " + RequestTag(level) + rest == ts + " - " + (RequestTag(level) + rest);
    LineSeverityAfterTimestamp(ts, RequestTag(level) + rest);
    TagSeverityOf(level, rest);
  }

  /** The direct logger's line carries the level it was given. */
  lemma LogLineSeverity(ts: string, kind: LogLevel, text: string)
    requires ' ' !in ts
    ensures LineSeverity(LogLine(ts, kind, text)) == Some(kind)
  {
    RequestTagIsLogPrefix(kind);
    assert LogLine(ts, kind, text) == ts + " - " + RequestTag(kind) + (" - " + text);
    LineSeverityOfTagged(ts, kind, " - " + text);
  }

  /** A request line carries the level it was given. */
  lemma RequestLineSeverity(ts: string, level: LogLevel, httpMethod: string, url: string, statusCode: int, detail: string)
    requires ' ' !in ts
    ensures LineSeverity(RequestLine(ts, level, httpMethod, url, statusCode, detail)) == Some(level)
  {
    LineSeverityOfTagged(ts, level, RequestTrailer(httpMethod, url, statusCode, detail));
  }

  // ---------------------------------------------------------------------------
  // The handler's decisions
  // ---------------------------------------------------------------------------

  /**
   * The status of an error: a defined `status` of an object, else the number
   * itself, else 500.
   */
  function DeriveStatus(err: RawError): (status: int)
    ensures err.Obj? && err.status.Some? ==> status == err.status.value
    ensures err.Num? ==> status == err.n
    ensures err.Str? || err.Other? || (err.Obj? && err.status.None?) ==> status == 500
  {
    if TypeOf(err) == ObjectType && err.status.Some? then err.status.value
    else if TypeOf(err) == NumberType then err.n
    else 500
  }

  /** `levels.filter((v) => v == wanted)`. */
  function Filter(levels: seq<LogLevel>, wanted: LogLevel): (r: seq<LogLevel>)
    ensures |r| <= |levels|
    ensures forall k :: 0 <= k < |r| ==> r[k] == wanted
  {
    if levels == [] then []
    else (if levels[0] == wanted then [levels[0]] else []) + Filter(levels[1..], wanted)
  }

  /** The filter keeps exactly the occurrences of the wanted level. */
  lemma {:induction false} FilterCountsOccurrences(levels: seq<LogLevel>, wanted: LogLevel)
    ensures |Filter(levels, wanted)| == multiset(levels)[wanted]
  {
    if levels != [] {
      assert levels == [levels[0]] + levels[1..];
      FilterCountsOccurrences(levels[1..], wanted);
    }
  }

  lemma {:induction false} FilterNonEmptyIff(levels: seq<LogLevel>, wanted: LogLevel)
    ensures |Filter(levels, wanted)| > 0 <==> wanted in levels
  {
    FilterCountsOccurrences(levels, wanted);
  }

  /** The logging gate as the handler writes it, with two filters. */
  predicate ShouldLog(levels: seq<LogLevel>, status: int) {
    (|Filter(levels, Error)| > 0 && status >= 500) || (|Filter(levels, Info)| > 0 && status < 500)
  }

  /**
   * The level a request line is logged at: `info` below 500, `error` for the
   * server-error class of section 15.6 of RFC 9110 (500–599) and for codes
   * of 600 and up, which RFC 9110 calls invalid.
   */
  function OutcomeLevel(status: int): (level: LogLevel)
    ensures level != Warning
    ensures level == Info <==> status < 500
  {
    if status < 500 then Info else Error
  }

  /** The gate's truth table over membership. */
  lemma GateTruthTable(levels: seq<LogLevel>, status: int)
    ensures ShouldLog(levels, status) <==> (Error in levels && status >= 500) || (Info in levels && status < 500)
  {
    FilterNonEmptyIff(levels, Error);
    FilterNonEmptyIff(levels, Info);
  }

  /** A request is logged exactly when its outcome level is configured. */
  lemma GateIsOutcomeConfigured(levels: seq<LogLevel>, status: int)
    ensures ShouldLog(levels, status) <==> OutcomeLevel(status) in levels
  {
    GateTruthTable(levels, status);
  }

  /** `warning` never opens the gate: a list of warnings alone logs no request. */
  lemma WarningOnlyNeverLogs(levels: seq<LogLevel>, status: int)
    requires forall k :: 0 <= k < |levels| ==> levels[k] == Warning
    ensures !ShouldLog(levels, status)
  {
    GateTruthTable(levels, status);
  }

  /**
   * Only `error` and `info` matter to the gate: two lists that hold the same
   * levels apart from `warning`, in any order and number, gate alike.
   */
  lemma WarningIrrelevant(a: seq<LogLevel>, b: seq<LogLevel>, status: int)
    requires forall level | level != Warning :: level in a <==> level in b
    ensures ShouldLog(a, status) == ShouldLog(b, status)
  {
    assert Error in a <==> Error in b;
    assert Info in a <==> Info in b;
    GateTruthTable(a, status);
    GateTruthTable(b, status);
  }

  /** `Statuses[status]`: the raw table entry, undefined when absent. */
  function Lookup(phrases: map<int, string>, status: int): (message: Option<string>)
    ensures message.Some? <==> status in phrases
    ensures message.Some? ==> message.value == phrases[status]
  {
    if status in phrases then Some(phrases[status]) else None
  }

  /**
   * What `next` receives: a non-`Error` object as it is, anything else
   * replaced by the derived status and its raw reason phrase.
   */
  function Normalize(phrases: map<int, string>, err: RawError): (f: Forwarded)
    ensures f.PassThrough? <==> err.Obj? && !err.isError
    ensures f.PassThrough? ==> f.original == err
    ensures f.Normalized? ==> f.status == DeriveStatus(err) && f.message == Lookup(phrases, DeriveStatus(err))
  {
    if TypeOf(err) == ObjectType && !err.isError then PassThrough(err)
    else Normalized(DeriveStatus(err), Lookup(phrases, DeriveStatus(err)))
  }

  /** The status the forwarded value reports, if it reports one. */
  function ForwardedStatus(f: Forwarded): Option<int> {
    match f
    case Normalized(s, _) => Some(s)
    case PassThrough(err) => if err.Obj? then err.status else None
  }

  /** Whatever `next` receives never reports a status other than the response's. */
  lemma ForwardedStatusIsResponseStatus(phrases: map<int, string>, err: RawError)
    ensures ForwardedStatus(Normalize(phrases, err)).Some? ==> ForwardedStatus(Normalize(phrases, err)).value == DeriveStatus(err)
    ensures err.Obj? && err.status.None? && !err.isError ==> ForwardedStatus(Normalize(phrases, err)).None?
  {
  }

  /**
   * The forwarded message is the raw table entry, never the log's
   * `"Unknown status"` fallback: for an unknown code it is undefined, and an
   * empty entry is forwarded although the log replaces it.
   */
  lemma ForwardedMessageIsNotFallback(phrases: map<int, string>, err: RawError)
    requires Normalize(phrases, err).Normalized?
    ensures DeriveStatus(err) !in phrases ==> Normalize(phrases, err).message == None
    ensures DeriveStatus(err) in phrases ==> Normalize(phrases, err).message == Some(phrases[DeriveStatus(err)])
    ensures DeriveStatus(err) in phrases && phrases[DeriveStatus(err)] == "" ==>
              Normalize(phrases, err).message == Some("") && StatusToMessage(phrases, DeriveStatus(err)) != ""
  {
  }

  /**
   * Where the value given to `next` and the logged detail of a bare status
   * code agree: they carry the same text exactly when the table's entry is
   * truthy; otherwise the log says `"Unknown status"` and `next` receives
   * the raw entry (undefined, or empty).
   */
  lemma LoggedAndForwardedMessages(phrases: map<int, string>, n: int)
    ensures Lookup(phrases, n).Some? && Lookup(phrases, n).value != "" ==>
              StatusToMessage(phrases, n) == Lookup(phrases, n).value
    ensures !(Lookup(phrases, n).Some? && Lookup(phrases, n).value != "") ==>
              StatusToMessage(phrases, n) == "Unknown status " + ShowInt(n)
    ensures Normalize(phrases, Num(n)).message == Some(Detail(phrases, Num(n))) <==> n in phrases && phrases[n] != ""
  {
  }

  /** The lines one request adds to the console: none, or the request line. */
  function RequestLog(phrases: map<int, string>, err: RawError, req: Request, levels: seq<LogLevel>, ts: string): seq<string> {
    var status := DeriveStatus(err);
    if ShouldLog(levels, status) then
      [RequestLine(ts, OutcomeLevel(status), req.httpMethod, req.originalUrl, status, Detail(phrases, err))]
    else []
  }

  /**
   * A request adds at most one line, it adds one exactly when the outcome
   * level is configured, and that line is read back at the outcome level,
   * never at `warning`.
   */
  lemma RequestLogShape(phrases: map<int, string>, err: RawError, req: Request, levels: seq<LogLevel>, ts: string)
    requires ' ' !in ts
    ensures |RequestLog(phrases, err, req, levels, ts)| <= 1
    ensures |RequestLog(phrases, err, req, levels, ts)| == 1 <==> OutcomeLevel(DeriveStatus(err)) in levels
    ensures forall line | line in RequestLog(phrases, err, req, levels, ts) ::
              LineSeverity(line) == Some(OutcomeLevel(DeriveStatus(err))) && LineSeverity(line) != Some(Warning)
  {
    var status := DeriveStatus(err);
    GateIsOutcomeConfigured(levels, status);
    RequestLineSeverity(ts, OutcomeLevel(status), req.httpMethod, req.originalUrl, status, Detail(phrases, err));
  }

  /**
   * The contents of the factory's level list, given the contents of the
   * supplied `logLevel` array (`None` when undefined): the supplied ones,
   * even empty, else all three levels.
   */
  function ConfiguredLevels(supplied: Option<seq<LogLevel>>): (levels: seq<LogLevel>)
    ensures supplied.Some? ==> levels == supplied.value
    ensures supplied.None? ==> multiset(levels) == multiset{Error, Warning, Info}
  {
    if supplied.Some? then supplied.value else [Error, Warning, Info]
  }

  /** Without `logLevel` every failed request is logged. */
  lemma DefaultLogsEveryRequest(status: int)
    ensures ShouldLog(ConfiguredLevels(None), status)
  {
    GateTruthTable(ConfiguredLevels(None), status);
  }

  /** An explicitly empty `logLevel` is kept, so nothing is logged. */
  lemma EmptyLevelsLogNothing(status: int)
    ensures ConfiguredLevels(Some([])) == []
    ensures !ShouldLog(ConfiguredLevels(Some([])), status)
  {
  }

  // ---------------------------------------------------------------------------
  // The Express plumbing and the handler
  // ---------------------------------------------------------------------------

  /** The response; `status(code)` sets `statusCode`. */
  class Response {
    var statusCode: int

    constructor (initial: int)
      ensures statusCode == initial
    {
      statusCode := initial;
    }

    method SetStatus(code: int)
      modifies this
      ensures statusCode == code
    {
      statusCode := code;
    }
  }

  /** A JavaScript array of log levels, which its owner may grow after handing it out. */
  class LevelList {
    var items: seq<LogLevel>

    constructor (items: seq<LogLevel>)
      ensures this.items == items
    {
      this.items := items;
    }

    /** `push(level)`. */
    method Push(level: LogLevel)
      modifies this
      ensures items == old(items) + [level]
    {
      items := items + [level];
    }
  }

  /** The process console: `console.log` writes to stdout, `console.error` to stderr. */
  class Console {
    var stdout: seq<string>
    var stderr: seq<string>

    constructor ()
      ensures stdout == [] && stderr == []
    {
      stdout, stderr := [], [];
    }

    method WriteOut(line: string)
      modifies this
      ensures stdout == old(stdout) + [line] && stderr == old(stderr)
    {
      stdout := stdout + [line];
    }

    method WriteErr(line: string)
      modifies this
      ensures stderr == old(stderr) + [line] && stdout == old(stdout)
    {
      stderr := stderr + [line];
    }
  }

  /** The `next` callback, recording every value it is called with. */
  class Next {
    var received: seq<Forwarded>

    constructor ()
      ensures received == []
    {
      received := [];
    }

    method Call(value: Forwarded)
      modifies this
      ensures received == old(received) + [value]
    {
      received := received + [value];
    }
  }

  /** `log(kind, text)`: writes one line to stdout, whatever the configuration. */
  method Log(console: Console, ts: string, kind: LogLevel, text: string)
    modifies console
    ensures console.stdout == old(console.stdout) + [LogLine(ts, kind, text)]
    ensures console.stderr == old(console.stderr)
  {
    console.WriteOut(ts + " - " + LogPrefix(kind) + " - " + text);
  }

  /** `logRequest`: writes the request line for `err` to stderr. */
  method LogRequest(console: Console, ts: string, phrases: map<int, string>, err: RawError,
                    httpMethod: string, url: string, statusCode: int, level: LogLevel)
    modifies console
    ensures console.stderr == old(console.stderr) + [RequestLine(ts, level, httpMethod, url, statusCode, Detail(phrases, err))]
    ensures console.stdout == old(console.stdout)
  {
    var prefix := ts + " - " + RequestTag(level);
    console.WriteErr(prefix + RequestTrailer(httpMethod, url, statusCode, Detail(phrases, err)));
  }

  /**
   * `middleware`: sets the derived status on the response before anything
   * else, logs the request line when the gate allows, and calls `next` once.
   */
  method Middleware(err: RawError, req: Request, res: Response, next: Next, console: Console,
                    levels: seq<LogLevel>, ts: string, phrases: map<int, string>)
    modifies res, next, console
    ensures res.statusCode == DeriveStatus(err)
    ensures console.stderr == old(console.stderr) + RequestLog(phrases, err, req, levels, ts)
    ensures console.stdout == old(console.stdout)
    ensures next.received == old(next.received) + [Normalize(phrases, err)]
  {
    var status := DeriveStatus(err);
    res.SetStatus(status);
    if ShouldLog(levels, status) {
      LogRequest(console, ts, phrases, err, req.httpMethod, req.originalUrl, res.statusCode, OutcomeLevel(status));
    }
    next.Call(Normalize(phrases, err));
  }

  /** The closure `handleErrors(options)` returns, with its level list fixed. */
  class ErrorHandler {
    const logLevel: LevelList

    /**
     * `handleErrors(options)`: keeps a reference to the supplied array, not
     * a copy, or makes a fresh array of the default levels.
     */
    constructor HandleErrors(options: Options)
      ensures options.logLevel.Some? ==> logLevel == options.logLevel.value
      ensures options.logLevel.None? ==> fresh(logLevel)
      ensures logLevel.items == ConfiguredLevels(if options.logLevel.Some? then Some(options.logLevel.value.items) else None)
    {
      if options.logLevel.Some? {
        logLevel := options.logLevel.value;
      } else {
        logLevel := new LevelList(ConfiguredLevels(None));
      }
    }

    /** One invocation of the returned closure, with the array's contents at that moment. */
    method Handle(err: RawError, req: Request, res: Response, next: Next, console: Console, ts: string, phrases: map<int, string>)
      modifies res, next, console
      ensures res.statusCode == DeriveStatus(err)
      ensures console.stderr == old(console.stderr) + RequestLog(phrases, err, req, logLevel.items, ts)
      ensures console.stdout == old(console.stdout)
      ensures next.received == old(next.received) + [Normalize(phrases, err)]
    {
      Middleware(err, req, res, next, console, logLevel.items, ts, phrases);
    }
  }

  /**
   * The handler shares the caller's array: `info` pushed after the factory
   * has run makes a later 404 be logged, though the list held only `error`
   * when the handler was made.
   */
  method PushAfterFactoryTakesEffect(req: Request, ts: string, phrases: map<int, string>) returns (logged: seq<string>)
    ensures logged == [RequestLine(ts, Info, req.httpMethod, req.originalUrl, 404, StatusToMessage(phrases, 404))]
  {
    var levels := new LevelList([Error]);
    var handler := new ErrorHandler.HandleErrors(Options(Some(levels)));
    levels.Push(Info);
    var res := new Response(200);
    var next := new Next();
    var console := new Console();
    GateTruthTable([Error, Info], 404);
    handler.Handle(Num(404), req, res, next, console, ts, phrases);
    logged := console.stderr;
  }

  // ---------------------------------------------------------------------------
  // Worked requests
  // ---------------------------------------------------------------------------

  /** A bare 404 with only `info` configured: status 404, one info line, `{404, phrase}` forwarded. */
  lemma NumberNotFound(req: Request, ts: string)
    ensures RequestLog(map[404 := "Not Found"], Num(404), req, [Info], ts)
            == [RequestLine(ts, Info, req.httpMethod, req.originalUrl, 404, "Not Found")]
    ensures Normalize(map[404 := "Not Found"], Num(404)) == Normalized(404, Some("Not Found"))
  {
    GateTruthTable([Info], 404);
  }

  /** A plain object with status 503 and only `error` configured: logged with its message, forwarded as is. */
  lemma PlainObjectServiceUnavailable(req: Request, ts: string, phrases: map<int, string>)
    ensures RequestLog(phrases, Obj(Some(503), Some("db down"), false, map[]), req, [Error], ts)
            == [RequestLine(ts, Error, req.httpMethod, req.originalUrl, 503, "db down")]
    ensures Normalize(phrases, Obj(Some(503), Some("db down"), false, map[]))
            == PassThrough(Obj(Some(503), Some("db down"), false, map[]))
  {
    GateTruthTable([Error], 503);
  }

  /**
   * An `Error` instance without a status: 500, its own message in the log,
   * but the reason phrase for 500 in what `next` receives.
   */
  lemma ErrorInstanceWithoutStatus(message: string, fields: map<string, string>, phrases: map<int, string>)
    ensures DeriveStatus(Obj(None, Some(message), true, fields)) == 500
    ensures Detail(phrases, Obj(None, Some(message), true, fields)) == message
    ensures Normalize(phrases, Obj(None, Some(message), true, fields)) == Normalized(500, Lookup(phrases, 500))
  {
  }
}

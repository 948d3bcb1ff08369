/**
 * `app/horace_chatbot.py`: a chatbot whose model may end a reply with
 * `<call>{...}` to call a plugin API. The reply cycle cuts the call out of the
 * completion, decodes the JSON at its start, drops whatever the model wrote
 * after the JSON, closes the call with `</call>` (the stop sequence swallows
 * it), asks again (up to `max_validation_retries` more times) while the call
 * is refused, records the last attempt, sends the prepared request, records
 * the result as a `System` turn and starts over.
 *
 * The chatbot shares the base class's state through composition: the class
 * `HoraceChatbot` holds the `AppChatbot.Chatbot` it extends and overrides the
 * reply cycle.
 */
module AppHorace {
  import opened Base
  import opened PyStr
  import opened Json
  import opened Extract
  import opened Session
  import opened AppChatbot
  import opened AppRouter

  const HoraceNames: Names := ["AI", "User", "System"]
  const CallOpen := "<call>"
  const CallClose := "</call>"

  // ---------------------------------------------------------------- the initial prompt

  /**
   * `INITIAL_PROMPT_TEMPLATE.format(...)` with the names `names`, the call tags
   * `open` and `close` and the plugin descriptions `plugins`.
   */
  function FormatTemplate(names: seq<string>, open: string, close: string, plugins: string): string
    requires |names| >= 3
  {
    "You have access to the following plugin APIs, as defined by their OpenAPI specifications:\n\n"
    + plugins
    + "\n\nYou can use the APIs above if you determine that you need the functionality they provide. "
    + "You do not proactively steer the user towards performing any actions available to you.\n\n"
    + "To call an API method, use the following format: " + open + "[JSON]" + close
    + ", where [JSON] is a JSON object with the following properties:\n\n"
    + "- plugin_system_name: The system name for the plugin as defined above\n"
    + "- request_object_params: A dictionary of parameters for instantiation of the corresponding requests.Request(method, url, data, json, params) object in Python.\n\n"
    + "Here is an example with made-up values:\n\n"
    + names[1] + ": OK, now add that item to my list.\n"
    + names[0] + ": Sure, let me look into that. " + open
    + "{\"plugin_system_name\": \"test\", \"request_object_params\": {\"method\": \"POST\", \"url\": \"https://www.example.com/api/\"}}"
    + close + "\n"
    + names[2] + ": API responded with HTTP status code 200, response body: OK\n"
    + names[0] + ": All done!\n\n"
    + "If you have multiple calls to make, you wait for the API response before making the next one.\n\n"
    + "Your API calls and any " + names[2] + " responses are invisible to the user.\n\n"
    + "You do not disclose any implementation details to the user, including the API methods available to you, the calls that you make etc."
  }

  function Template(pluginsString: string): string {
    FormatTemplate(HoraceNames, CallOpen, CallClose, pluginsString)
  }

  /** The description of one registered plugin (lines 56-60). */
  function PluginBlock(name: string, p: Plugin): string {
    "plugin_human_name: " + p.manifest.nameForHuman
    + "\nplugin_human_description: " + p.manifest.descriptionForHuman
    + "\nplugin_system_name: " + name
    + "\n" + p.manifest.descriptionForModel
    + "\n" + Dumps(p.specDict)
  }

  /** One block per registry entry, in registry order. */
  function PluginBlocks(reg: Dict<Plugin>): (r: seq<string>)
    ensures |r| == |reg|
  {
    if reg == [] then []
    else PluginBlocks(reg[..|reg| - 1]) + [PluginBlock(reg[|reg| - 1].key, reg[|reg| - 1].value)]
  }

  /** The prompt's blocks: the extra instructions if any, then the filled-in template if any. */
  function Blocks(extra: Option<string>, filled: Option<string>): seq<string> {
    (if Truthy(extra) then [extra.value] else []) + (if filled.Some? then [filled.value] else [])
  }

  /** Lines 54-68: the template with the plugin descriptions, when there is a plugin. */
  function FilledTemplate(reg: Dict<Plugin>): Option<string> {
    if |reg| > 0 then Some(Template(Join("\n\n", PluginBlocks(reg)))) else None
  }

  /** Lines 50-68: the extra instructions if any, then the template if there is a plugin. */
  function PromptBlocks(extra: Option<string>, reg: Dict<Plugin>): seq<string> {
    Blocks(extra, FilledTemplate(reg))
  }

  function InitialPrompt(extra: Option<string>, reg: Dict<Plugin>): string {
    Join("\n\n", PromptBlocks(extra, reg)) + "\n"
  }

  /** With plugins, the prompt is the extra instructions and a blank line (if given), then the template. */
  lemma InitialPromptWithPlugins(extra: Option<string>, reg: Dict<Plugin>)
    requires |reg| > 0
    ensures InitialPrompt(extra, reg)
         == (if Truthy(extra) then extra.value + "\n\n" else "") + Template(Join("\n\n", PluginBlocks(reg))) + "\n"
  {
    InitialPromptOf(extra, reg);
    TwoBlocks(extra, Template(Join("\n\n", PluginBlocks(reg))));
  }

  lemma InitialPromptOf(extra: Option<string>, reg: Dict<Plugin>)
    ensures InitialPrompt(extra, reg) == Join("\n\n", Blocks(extra, FilledTemplate(reg))) + "\n"
  {
  }

  lemma TwoBlocks(extra: Option<string>, t: string)
    ensures Join("\n\n", Blocks(extra, Some(t))) == (if Truthy(extra) then extra.value + "\n\n" else "") + t
  {
    if Truthy(extra) {
      var b := [extra.value] + [t];
      assert b[1..] == [t];
    } else {
      assert [] + [t] == [t];
    }
  }

  /**
   * Without plugins the template is left out, so the call syntax appears in the
   * prompt only if the extra instructions write it.
   */
  lemma NoPluginsNoCallSyntax(extra: Option<string>)
    requires !Truthy(extra) || Find(extra.value, CallOpen) == -1
    ensures InitialPrompt(extra, []) == (if Truthy(extra) then extra.value else "") + "\n"
    ensures Find(InitialPrompt(extra, []), CallOpen) == -1
  {
    var e := if Truthy(extra) then extra.value else "";
    if Truthy(extra) {
      assert PromptBlocks(extra, []) == [e];
    } else {
      assert PromptBlocks(extra, []) == [];
    }
    var p := e + "\n";
    assert InitialPrompt(extra, []) == p;
    forall k | 0 <= k ensures !OccursAt(p, CallOpen, k) {
      if k + |CallOpen| <= |e| {
        assert p[k..k + |CallOpen|] == e[k..k + |CallOpen|];
        assert !OccursAt(e, CallOpen, k);
      } else if k + |CallOpen| == |p| {
        assert p[k..k + |CallOpen|][5] == p[k + 5] == '\n';
        assert CallOpen[5] == '>';
      }
    }
  }

  // ---------------------------------------------------------------- one attempt

  /**
   * What the analysis of a completion needs: the JSON decoder and the
   * router's `prepare` (the class passes `AppRouter.PrepareRequest` on its
   * registry).
   */
  datatype Caller = Caller(decode: RawDecoder, prepare: (Json, Json) -> Result<Prepared, string>)

  /** How an attempt's call turned out. */
  datatype Outcome =
    | NoCall                     // empty or missing payload
    | Ready(request: Prepared)   // decoded and prepared
    | Rejected(message: string)  // the text of the exception decoding or preparing raised

  /**
   * One completion after the split: the visible text, the payload, the text
   * recorded for it (cut after the JSON and closed) and the call's outcome.
   */
  datatype Attempt = Attempt(visible: string, payload: string, recorded: string, outcome: Outcome)

  /** `v[k1], v[k2]`, the first failing subscription raising. */
  function Subscript2(v: Json, k1: string, k2: string): Result<(Json, Json), string> {
    match Subscript(v, k1)
    case Err(e) => Err(e)
    case Ok(x1) =>
      match Subscript(v, k2)
      case Err(e) => Err(e)
      case Ok(x2) => Ok((x1, x2))
  }

  /** A value that is not a dict naming both keys raises, KeyError naming the first missing key. */
  lemma Subscript2NeedsBothKeys(v: Json, k1: string, k2: string)
    ensures !v.JObj? ==> Subscript2(v, k1, k2).Err?
    ensures v.JObj? && !HasKey(v.members, k1) ==> Subscript2(v, k1, k2) == Err(PyRepr(k1))
    ensures v.JObj? && HasKey(v.members, k1) && !HasKey(v.members, k2) ==> Subscript2(v, k1, k2) == Err(PyRepr(k2))
    ensures v.JObj? && HasKey(v.members, k1) && HasKey(v.members, k2)
         ==> Subscript2(v, k1, k2) == Ok((Get(v.members, k1).value, Get(v.members, k2).value))
  {
  }

  /** `call_dict["plugin_system_name"], call_dict["request_object_params"]` */
  function CallTarget(v: Json): Result<(Json, Json), string> {
    Subscript2(v, "plugin_system_name", "request_object_params")
  }

  /** Lines 115-116: what becomes of a decoded call. */
  function Judge(c: Caller, v: Json): Outcome {
    match CallTarget(v)
    case Err(e) => Rejected(e)
    case Ok((name, params)) =>
      match c.prepare(name, params)
      case Err(e) => Rejected(e)
      case Ok(p) => Ready(p)
  }

  /** Lines 92-126 for one completion `raw` (already stripped by the base class). */
  function Examine(c: Caller, raw: string): Attempt {
    var m := SplitAtTag(raw, CallOpen);
    var payload := m.payload.GetOr("");
    Attempt(Strip(m.before), payload, RecordedText(c.decode, raw, payload), CallOutcome(c, payload))
  }

  /**
   * What is recorded of the completion `raw` whose call payload (its end) is
   * `payload`: the completion cut right after the decoded JSON, then the
   * closing tag, when there is a payload.
   */
  function RecordedText(decode: RawDecoder, raw: string, payload: string): string
    requires |payload| <= |raw|
  {
    if payload == "" then raw else CutAtJson(decode, raw, payload) + CallClose
  }

  /** `raw` without the part of its end `payload` that follows the JSON the decoder reads. */
  function CutAtJson(decode: RawDecoder, raw: string, payload: string): string
    requires |payload| <= |raw|
  {
    match decode(payload)
    case None => raw
    case Some(d) => raw[..|raw| - (|payload| - d.consumed)]
  }

  /** The cut as the code makes it: only when the JSON ends before the payload does. */
  lemma CutOnlyBeforeEnd(decode: RawDecoder, raw: string, payload: string)
    requires |payload| <= |raw|
    ensures decode(payload).None? ==> CutAtJson(decode, raw, payload) == raw
    ensures decode(payload).Some? ==>
      var t := |payload| - decode(payload).value.consumed;
      CutAtJson(decode, raw, payload) == if t != 0 then raw[..|raw| - t] else raw
  {
    assert raw[..|raw|] == raw;
  }

  /** What becomes of the call in `payload`: none, a malformed one, or what `Judge` makes of it. */
  function CallOutcome(c: Caller, payload: string): Outcome {
    if payload == "" then NoCall
    else
      match c.decode(payload)
      case None => Rejected("Malformed JSON: " + PyRepr(payload))
      case Some(d) => Judge(c, d.value)
  }

  /** With a call tag, the visible text is what precedes its first occurrence and the payload all that follows it. */
  lemma ExamineSplitsAtFirstTag(c: Caller, raw: string, k: int)
    requires k == Find(raw, CallOpen) && k >= 0
    ensures var payload := raw[k + |CallOpen|..];
      Examine(c, raw) == Attempt(Strip(raw[..k]), payload, RecordedText(c.decode, raw, payload), CallOutcome(c, payload))
  {
    SplitAtTagIsFind(raw, CallOpen);
  }

  /**
   * Truncation round trip: when the decoder reads `n` characters of the
   * payload, the recorded text is everything up to the call tag, the tag, the
   * `n` characters of JSON and the closing tag.
   */
  lemma ExamineKeepsDecodedJson(c: Caller, raw: string, k: int, json: Decoded)
    requires k == Find(raw, CallOpen) && k >= 0
    requires raw[k + |CallOpen|..] != "" && c.decode(raw[k + |CallOpen|..]) == Some(json)
    ensures k + |CallOpen| + json.consumed <= |raw|
    ensures Examine(c, raw).payload == raw[k + |CallOpen|..]
    ensures Examine(c, raw).visible == Strip(raw[..k])
    ensures Examine(c, raw).recorded == raw[..k] + CallOpen + raw[k + |CallOpen|..k + |CallOpen| + json.consumed] + CallClose
    ensures Examine(c, raw).outcome == Judge(c, json.value)
  {
    ExamineSplitsAtFirstTag(c, raw, k);
    RecordedCutsAfterJson(c.decode, raw, k, json);
  }

  lemma RecordedCutsAfterJson(decode: RawDecoder, raw: string, k: int, json: Decoded)
    requires OccursAt(raw, CallOpen, k)
    requires raw[k + |CallOpen|..] != "" && decode(raw[k + |CallOpen|..]) == Some(json)
    ensures k + |CallOpen| + json.consumed <= |raw|
    ensures RecordedText(decode, raw, raw[k + |CallOpen|..])
         == raw[..k] + CallOpen + raw[k + |CallOpen|..k + |CallOpen| + json.consumed] + CallClose
  {
    var n := json.consumed;
    assert RecordedText(decode, raw, raw[k + |CallOpen|..]) == raw[..k + |CallOpen| + n] + CallClose;
    assert raw[..k + |CallOpen|] == raw[..k] + CallOpen;
  }

  /** A payload that does not start with JSON is refused as malformed and recorded whole, then closed. */
  lemma ExamineRejectsMalformed(c: Caller, raw: string, k: int)
    requires k == Find(raw, CallOpen) && k >= 0
    requires raw[k + |CallOpen|..] != "" && c.decode(raw[k + |CallOpen|..]).None?
    ensures Examine(c, raw).outcome == Rejected("Malformed JSON: " + PyRepr(raw[k + |CallOpen|..]))
    ensures Examine(c, raw).recorded == raw + CallClose
  {
    ExamineSplitsAtFirstTag(c, raw, k);
  }

  /**
   * Without a call tag the whole completion is visible and recorded as it
   * is; with a tag that ends the completion the payload is empty, which is
   * no call either: no `</call>` is added.
   */
  lemma ExamineWithoutPayload(c: Caller, raw: string)
    requires NoEdgeSpace(raw)
    requires Find(raw, CallOpen) == -1 || Find(raw, CallOpen) + |CallOpen| == |raw|
    ensures var a := Examine(c, raw);
      && a.outcome == NoCall && a.payload == "" && a.recorded == raw
      && (Find(raw, CallOpen) == -1 ==> a.visible == raw)
      && (Find(raw, CallOpen) >= 0 ==> a.visible == Strip(raw[..Find(raw, CallOpen)]))
  {
    SplitAtTagIsFind(raw, CallOpen);
    if Find(raw, CallOpen) == -1 {
      assert DropFinalNewline(raw) == raw;
      StripKeeps(raw);
    }
  }

  /**
   * `</call>` is added exactly when the attempt had a payload, whatever became
   * of the call: the recorded text is then a prefix of the completion
   * followed by the closing tag, and otherwise the completion itself.
   */
  lemma ExamineClosesCalls(c: Caller, raw: string)
    ensures var a := Examine(c, raw);
      && (a.outcome.NoCall? <==> a.payload == "")
      && (a.payload == "" ==> a.recorded == raw)
      && (a.payload != "" ==> ClosedPrefix(a.recorded, raw))
  {
    var payload := SplitAtTag(raw, CallOpen).payload.GetOr("");
    var a := Examine(c, raw);
    assert a.payload == payload && a.recorded == RecordedText(c.decode, raw, payload) && a.outcome == CallOutcome(c, payload);
    RecordedTextCloses(c.decode, raw, payload);
    OutcomeNoCall(c, payload);
  }

  /** `r` is a prefix of `raw` followed by the closing tag. */
  predicate ClosedPrefix(r: string, raw: string) {
    var n := |r| - |CallClose|;
    && 0 <= n <= |raw| && r[..n] == raw[..n] && r[n..] == CallClose
  }

  lemma RecordedTextCloses(decode: RawDecoder, raw: string, payload: string)
    requires |payload| <= |raw|
    ensures var r := RecordedText(decode, raw, payload);
      && (payload == "" ==> r == raw)
      && (payload != "" ==> ClosedPrefix(r, raw))
  {
  }

  lemma OutcomeNoCall(c: Caller, payload: string)
    ensures CallOutcome(c, payload).NoCall? <==> payload == ""
  {
  }

  // ---------------------------------------------------------------- the retry loop and the cycle

  /**
   * What the reply cycle needs to know: the base chatbot's settings, how a
   * completion is examined (the class passes `Examine` with its `Caller`),
   * the router's `send`, whether its result is awaited before it is unpacked
   * (line 140 does not await it; the class models the awaited call) and the
   * retry settings.
   */
  datatype HConfig = HConfig(
    base: Config,
    examine: string -> Attempt,
    transport: Prepared -> Result<(int, string), string>,
    retryTemperature: Temperature,
    maxRetries: int,
    debug: bool,
    awaitSend: bool)

  /** `h` examines completions as `Examine` does with `c`. */
  ghost predicate Examines(h: HConfig, c: Caller) {
    forall raw :: h.examine(raw) == Examine(c, raw)
  }

  /** Line 89 */
  function AttemptTemperature(h: HConfig, k: nat): Temperature {
    if k > 0 then h.retryTemperature else h.base.temperature
  }

  /**
   * Attempt `k` of the loop (lines 89-126): one completion, examined, with the
   * debug-mode callbacks for the raw completion and for a refused call.
   */
  function Step(h: HConfig, s: Snap, k: nat): (r: (Snap, Result<Attempt, Fault>))
    ensures r.0.prompt == s.prompt && r.0.state == s.state
    ensures r.1.Ok? ==> |r.0.script| < |s.script|
    ensures |r.0.script| <= |s.script|
  {
    var (s1, u) := NextUtterance(h.base, s, AttemptTemperature(h, k));
    match u
    case Err(f) => (s1, Err(f))
    case Ok(raw) =>
      var a := h.examine(raw);
      (ShowAttempt(h.debug, s1, raw, a), Ok(a))
  }

  /**
   * Lines 97-98 and 120-121: in debug mode the raw completion, and the reason
   * a call was refused, go to the utterance callback.
   */
  function ShowAttempt(debug: bool, s: Snap, raw: string, a: Attempt): (r: Snap)
    ensures r.prompt == s.prompt && r.state == s.state && r.script == s.script && r.sent == s.sent
    ensures !debug ==> r == s
  {
    var s2 := if debug then Say(s, raw, false) else s;
    if debug && a.outcome.Rejected? then Say(s2, a.outcome.message, true) else s2
  }

  /** One attempt makes one completion request, uses at most one completion and only adds callbacks. */
  lemma StepRecords(h: HConfig, s: Snap, k: nat)
    ensures var (r, res) := Step(h, s, k);
      && r.sent == s.sent + [CompletionRequest(s.prompt + Cue(h.base.names[0]), MaxTokens, h.base.stop, AttemptTemperature(h, k))]
      && r.script == (if s.script == [] then [] else s.script[1..])
      && Prefix(s.events, r.events)
  {
  }

  /**
   * The retry loop of lines 88-131 from attempt `k` on: it stops at the first
   * attempt that has no call or a prepared request, or after attempt
   * `maxRetries`, and returns the last attempt. Earlier attempts leave no
   * trace in the transcript.
   */
  function RetryFrom(h: HConfig, s: Snap, k: nat): (r: (Snap, Result<Attempt, Fault>))
    requires k <= h.maxRetries
    ensures r.0.prompt == s.prompt
    ensures |r.0.script| <= |s.script| && (r.1.Ok? ==> |r.0.script| < |s.script|)
    decreases h.maxRetries - k
  {
    var (s1, r) := Step(h, s, k);
    if r.Ok? && r.value.outcome.Rejected? && k < h.maxRetries then RetryFrom(h, s1, k + 1) else (s1, r)
  }

  /** Lines 144-146 */
  function ResultText(status: int, body: string): string {
    "API responded with HTTP status code " + IntToString(status)
    + if 200 <= status < 300 then ", response body: " + body else ""
  }

  /** Sending the prepared request (line 140, with the call awaited) and reporting the response. */
  function Report(h: HConfig, p: Prepared): Result<string, Fault> {
    match h.transport(p)
    case Err(e) => Err(TransportFailed(e))
    case Ok((status, body)) => Ok(ResultText(status, body))
  }

  /** Line 140 as written: `send` is a coroutine function, and its result is unpacked without `await`. */
  function ReportAsWritten(h: HConfig, p: Prepared): Result<string, Fault> {
    Err(CoroutineUnpacked)
  }

  /** Line 140: the response as written, or with the call awaited. */
  function Send(h: HConfig, p: Prepared): Result<string, Fault> {
    if h.awaitSend then Report(h, p) else ReportAsWritten(h, p)
  }

  /** The base class's `_get_all_utterances` as this class overrides it (lines 85-152). */
  function Cycle(h: HConfig, s: Snap): (Snap, Option<Fault>)
    decreases |s.script|, 0
  {
    if h.maxRetries < 0 then (s, Some(UtteranceUnbound))
    else
      var (s1, r) := RetryFrom(h, s, 0);
      match r
      case Err(f) => (s1, Some(f))
      case Ok(a) => Conclude(h, s1, a)
  }

  /** Lines 133-135: the last attempt's text is shown (outside debug mode) and recorded. */
  function Record(h: HConfig, s: Snap, a: Attempt): (r: Snap)
    ensures r.script == s.script && r.sent == s.sent
  {
    var s1 := if a.visible != "" && !h.debug then Say(s, a.visible, false) else s;
    AddTurn(s1, HoraceNames[0], a.recorded)
  }

  /**
   * Lines 133-152: what follows the retry loop whose last attempt was `a`.
   * A call ends in a System turn, with the refusal or the response, and the
   * cycle starts over.
   */
  function Conclude(h: HConfig, s: Snap, a: Attempt): (Snap, Option<Fault>)
    decreases |s.script|, 1
  {
    var s1 := Record(h, s, a);
    match a.outcome
    case NoCall => (s1, None)
    case Rejected(msg) => Cycle(h, AddTurn(s1, HoraceNames[2], msg))
    case Ready(p) =>
      match Send(h, p)
      case Err(f) => (s1, Some(f))
      case Ok(text) =>
        var s2 := if h.debug then Say(s1, text, true) else s1;
        Cycle(h, AddTurn(s2, HoraceNames[2], text))
  }

  /** `send_responses` with this class's reply cycle. */
  function HoraceRound(h: HConfig, s: Snap, rs: seq<string>): (Snap, Option<Fault>) {
    var (s1, f1) := Accept(h.base, s, rs);
    if f1.Some? then (s1, f1)
    else
      var (s2, f2) := Cycle(h, s1);
      if f2.Some? then (s2, f2) else (Finish(h.base, s2), None)
  }

  /** `a` is a prefix of `b`. */
  predicate Prefix<T(==)>(a: seq<T>, b: seq<T>) {
    |a| <= |b| && b[..|a|] == a
  }

  /** Prefixes compose. Kept generic: the same step stated on snapshot fields is far costlier for the solver. */
  lemma PrefixTrans<T>(a: seq<T>, b: seq<T>, c: seq<T>)
    requires Prefix(a, b) && Prefix(b, c)
    ensures Prefix(a, c)
  {
    assert c[..|a|] == c[..|b|][..|a|];
  }

  /** `b` is what remains of `a` after some elements were taken from its front. */
  predicate Rest<T(==)>(a: seq<T>, b: seq<T>) {
    |b| <= |a| && b == a[|a| - |b|..]
  }

  /** Taking from the front twice is taking from the front once. */
  lemma RestTrans<T>(a: seq<T>, b: seq<T>, c: seq<T>)
    requires Rest(a, b) && Rest(b, c)
    ensures Rest(a, c)
  {
  }

  /**
   * One level of the loop asks for between one and `maxRetries + 1 - k`
   * completions, all with the same prompt (the transcript and the model's
   * cue); the first uses the attempt's temperature and every later one the
   * retry temperature. A refused last attempt means the budget was used up.
   */
  lemma {:induction false} RetryBudget(h: HConfig, s: Snap, k: nat)
    requires k <= h.maxRetries
    ensures var (r, res) := RetryFrom(h, s, k);
      var n := |r.sent| - |s.sent|;
      && Prefix(s.sent, r.sent)
      && 1 <= n <= h.maxRetries + 1 - k
      && (forall i :: |s.sent| <= i < |r.sent| ==> r.sent[i].prompt == s.prompt + Cue(h.base.names[0]))
      && r.sent[|s.sent|].temperature == AttemptTemperature(h, k)
      && (forall i :: |s.sent| < i < |r.sent| ==> r.sent[i].temperature == h.retryTemperature)
      && (res.Ok? && res.value.outcome.Rejected? ==> n == h.maxRetries + 1 - k)
    decreases h.maxRetries - k
  {
    var (s1, res) := Step(h, s, k);
    StepRecords(h, s, k);
    if res.Ok? && res.value.outcome.Rejected? && k < h.maxRetries {
      RetryBudget(h, s1, k + 1);
      var r := RetryFrom(h, s1, k + 1).0;
      PrefixTrans(s.sent, s1.sent, r.sent);
      assert r.sent[|s.sent|] == s1.sent[|s.sent|];
    }
  }

  /** The retry loop only adds callbacks and requests, and uses completions from the front. */
  lemma {:induction false} RetryAppends(h: HConfig, s: Snap, k: nat)
    requires k <= h.maxRetries
    ensures var r := RetryFrom(h, s, k).0;
      Prefix(s.events, r.events) && Prefix(s.sent, r.sent) && Rest(s.script, r.script)
    decreases h.maxRetries - k
  {
    var (s1, res) := Step(h, s, k);
    StepRecords(h, s, k);
    if res.Ok? && res.value.outcome.Rejected? && k < h.maxRetries {
      RetryAppends(h, s1, k + 1);
      var r := RetryFrom(h, s1, k + 1).0;
      PrefixTrans(s.events, s1.events, r.events);
      PrefixTrans(s.sent, s1.sent, r.sent);
      RestTrans(s.script, s1.script, r.script);
    }
  }

  /**
   * The transcript, the callback log and the request log only grow over a
   * whole cycle, and the completions are used from the front.
   */
  lemma {:induction false} CycleOnlyAppends(h: HConfig, s: Snap)
    ensures var r := Cycle(h, s).0;
      Prefix(s.prompt, r.prompt) && Prefix(s.events, r.events) && Prefix(s.sent, r.sent) && Rest(s.script, r.script)
    decreases |s.script|, 0
  {
    if h.maxRetries >= 0 {
      var (s1, res) := RetryFrom(h, s, 0);
      RetryAppends(h, s, 0);
      if res.Ok? {
        ConcludeOnlyAppends(h, s1, res.value);
        var r := Conclude(h, s1, res.value).0;
        PrefixTrans(s.events, s1.events, r.events);
        PrefixTrans(s.sent, s1.sent, r.sent);
        RestTrans(s.script, s1.script, r.script);
      }
    }
  }

  lemma {:induction false} ConcludeOnlyAppends(h: HConfig, s: Snap, a: Attempt)
    ensures var r := Conclude(h, s, a).0;
      Prefix(s.prompt, r.prompt) && Prefix(s.events, r.events) && Prefix(s.sent, r.sent) && Rest(s.script, r.script)
    decreases |s.script|, 1
  {
    var s1 := Record(h, s, a);
    RecordAppends(h, s, a);
    if a.outcome.Rejected? || (a.outcome.Ready? && Send(h, a.outcome.request).Ok?) {
      var text := if a.outcome.Rejected? then a.outcome.message else Send(h, a.outcome.request).value;
      var s2 := if a.outcome.Ready? && h.debug then Say(s1, text, true) else s1;
      var s3 := AddTurn(s2, HoraceNames[2], text);
      assert Conclude(h, s, a) == Cycle(h, s3);
      AddTurnAppends(s2, HoraceNames[2], text);
      PrefixTrans(s.prompt, s1.prompt, s3.prompt);
      PrefixTrans(s.events, s1.events, s3.events);
      CycleOnlyAppends(h, s3);
      var r := Cycle(h, s3).0;
      PrefixTrans(s.prompt, s3.prompt, r.prompt);
      PrefixTrans(s.events, s3.events, r.events);
    }
  }

  lemma RecordAppends(h: HConfig, s: Snap, a: Attempt)
    ensures var r := Record(h, s, a);
      Prefix(s.prompt, r.prompt) && Prefix(s.events, r.events)
  {
  }

  lemma AddTurnAppends(s: Snap, name: string, text: string)
    ensures var r := AddTurn(s, name, text);
      Prefix(s.prompt, r.prompt) && r.events == s.events && r.sent == s.sent && r.script == s.script
  {
  }

  /**
   * A completion without a call ends the cycle after one request: its text is
   * shown (outside debug mode, when not empty) and recorded as one model turn.
   */
  lemma CycleWithoutCall(h: HConfig, c: Caller, s: Snap)
    requires Examines(h, c)
    requires h.maxRetries >= 0 && h.base.endToken.None? && !h.debug
    requires s.script != [] && Find(Strip(s.script[0]), CallOpen) == -1
    ensures var (r, f) := Cycle(h, s);
      var u := Strip(s.script[0]);
      && f.None?
      && r.prompt == s.prompt + Turn(HoraceNames[0], u)
      && r.sent == s.sent + [CompletionRequest(s.prompt + Cue(h.base.names[0]), MaxTokens, h.base.stop, h.base.temperature)]
      && r.script == s.script[1..]
      && r.events == s.events + (if u != "" then [Said(u, false)] else [])
  {
    var u := Strip(s.script[0]);
    StripIsSlice(s.script[0]);
    ExamineWithoutPayload(c, u);
    FirstAttemptIs(h, s, u, Attempt(u, "", u, NoCall));
  }

  /** The first attempt of a cycle whose completion is `u` and whose examination gives `a`. */
  lemma FirstAttemptIs(h: HConfig, s: Snap, u: string, a: Attempt)
    requires h.maxRetries >= 0 && h.base.endToken.None? && !h.debug
    requires s.script != [] && u == Strip(s.script[0]) && h.examine(u) == a
    requires !a.outcome.Rejected?
    ensures Cycle(h, s) == Conclude(h, s.(script := s.script[1..], sent := s.sent + [CompletionRequest(s.prompt + Cue(h.base.names[0]), MaxTokens, h.base.stop, h.base.temperature)]), a)
  {
  }

  /**
   * A call prepared on the first attempt and answered, followed by a
   * completion without a call: one model turn with the call, one System turn
   * with the result and one model turn with the answer, in that order.
   */
  lemma CycleWithCall(h: HConfig, c: Caller, s: Snap)
    requires Examines(h, c)
    requires h.maxRetries >= 0 && h.base.endToken.None? && !h.debug && h.awaitSend
    requires |s.script| >= 2
    requires Examine(c, Strip(s.script[0])).outcome.Ready?
    requires h.transport(Examine(c, Strip(s.script[0])).outcome.request).Ok?
    requires Find(Strip(s.script[1]), CallOpen) == -1
    ensures var a := Examine(c, Strip(s.script[0]));
      var (status, body) := h.transport(a.outcome.request).value;
      var (r, f) := Cycle(h, s);
      && f.None?
      && r.prompt == s.prompt + Turn(HoraceNames[0], a.recorded)
                             + Turn(HoraceNames[2], ResultText(status, body))
                             + Turn(HoraceNames[0], Strip(s.script[1]))
      && r.script == s.script[2..]
      && |r.sent| == |s.sent| + 2
  {
    var u := Strip(s.script[0]);
    var a := Examine(c, u);
    FirstAttemptIs(h, s, u, a);
    var s1 := s.(script := s.script[1..], sent := s.sent + [CompletionRequest(s.prompt + Cue(h.base.names[0]), MaxTokens, h.base.stop, h.base.temperature)]);
    var s3 := AddTurn(Record(h, s1, a), HoraceNames[2], Report(h, a.outcome.request).value);
    assert Conclude(h, s1, a) == Cycle(h, s3);
    assert s3.script == s.script[1..] && s3.script[0] == s.script[1];
    CycleWithoutCall(h, c, s3);
  }

  /**
   * A call refused on the last attempt the loop allows (lines 117-118 and
   * 151-152): the budget of `maxRetries + 1` completions is used up, the
   * refused completion is shown and recorded, the reason follows as a System
   * turn and the cycle starts over.
   */
  lemma CycleAfterRefusal(h: HConfig, s: Snap)
    requires h.maxRetries >= 0
    requires RetryFrom(h, s, 0).1.Ok? && RetryFrom(h, s, 0).1.value.outcome.Rejected?
    ensures var (s1, r) := RetryFrom(h, s, 0);
      && |s1.sent| == |s.sent| + h.maxRetries + 1
      && Cycle(h, s) == Cycle(h, AddTurn(Record(h, s1, r.value), HoraceNames[2], r.value.outcome.message))
  {
    RetryBudget(h, s, 0);
  }

  /**
   * Without retries, a first completion whose call is refused costs one
   * request; its text is shown (outside debug mode, when not empty) and
   * recorded, the reason follows as a System turn, and the cycle goes on
   * from there with the next completion.
   */
  lemma CycleWithRefusedCall(h: HConfig, c: Caller, s: Snap)
    requires Examines(h, c)
    requires h.maxRetries == 0 && h.base.endToken.None? && !h.debug
    requires s.script != [] && Examine(c, Strip(s.script[0])).outcome.Rejected?
    ensures var a := Examine(c, Strip(s.script[0]));
      var request := CompletionRequest(s.prompt + Cue(h.base.names[0]), MaxTokens, h.base.stop, h.base.temperature);
      Cycle(h, s) == Cycle(h, Snap(s.prompt + Turn(HoraceNames[0], a.recorded) + Turn(HoraceNames[2], a.outcome.message),
                                   s.state, s.script[1..], s.sent + [request],
                                   s.events + (if a.visible != "" then [Said(a.visible, false)] else [])))
  {
    var u := Strip(s.script[0]);
    var a := Examine(c, u);
    var s1 := s.(script := s.script[1..], sent := s.sent + [CompletionRequest(s.prompt + Cue(h.base.names[0]), MaxTokens, h.base.stop, h.base.temperature)]);
    FirstRefusal(h, s, a);
    ConcludeRefused(h, s1, a);
  }

  /** Without retries, a refused first attempt is the last one. */
  lemma FirstRefusal(h: HConfig, s: Snap, a: Attempt)
    requires h.maxRetries == 0 && h.base.endToken.None? && !h.debug
    requires s.script != [] && h.examine(Strip(s.script[0])) == a && a.outcome.Rejected?
    ensures Cycle(h, s) == Conclude(h, s.(script := s.script[1..], sent := s.sent + [CompletionRequest(s.prompt + Cue(h.base.names[0]), MaxTokens, h.base.stop, h.base.temperature)]), a)
  {
    FirstStep(h, s);
  }

  /** Outside debug mode, a refusal is shown, recorded and answered by a System turn with the reason. */
  lemma ConcludeRefused(h: HConfig, s: Snap, a: Attempt)
    requires !h.debug && a.outcome.Rejected?
    ensures Conclude(h, s, a) == Cycle(h, s.(prompt := s.prompt + Turn(HoraceNames[0], a.recorded) + Turn(HoraceNames[2], a.outcome.message),
                                             events := s.events + (if a.visible != "" then [Said(a.visible, false)] else [])))
  {
    var s1 := Record(h, s, a);
    assert s1 == s.(prompt := s.prompt + Turn(HoraceNames[0], a.recorded), events := s.events + (if a.visible != "" then [Said(a.visible, false)] else []));
    assert Conclude(h, s, a) == Cycle(h, AddTurn(s1, HoraceNames[2], a.outcome.message));
  }

  /** The first attempt outside debug mode, without an end token: one request and one examined completion. */
  lemma FirstStep(h: HConfig, s: Snap)
    requires h.base.endToken.None? && !h.debug && s.script != []
    ensures Step(h, s, 0) == (s.(script := s.script[1..], sent := s.sent + [CompletionRequest(s.prompt + Cue(h.base.names[0]), MaxTokens, h.base.stop, h.base.temperature)]),
                              Ok(h.examine(Strip(s.script[0]))))
  {
  }

  /**
   * As written, a call prepared on the first attempt ends the cycle with the
   * unpacking fault: the completion is shown and recorded, but no System turn
   * follows and no further completion is asked for.
   */
  lemma CycleWithCallAsWritten(h: HConfig, c: Caller, s: Snap)
    requires Examines(h, c)
    requires h.maxRetries >= 0 && h.base.endToken.None? && !h.debug && !h.awaitSend
    requires s.script != [] && Examine(c, Strip(s.script[0])).outcome.Ready?
    ensures var a := Examine(c, Strip(s.script[0]));
      var (r, f) := Cycle(h, s);
      && f == Some(CoroutineUnpacked)
      && r.state == s.state
      && r.prompt == s.prompt + Turn(HoraceNames[0], a.recorded)
      && r.script == s.script[1..]
      && r.sent == s.sent + [CompletionRequest(s.prompt + Cue(h.base.names[0]), MaxTokens, h.base.stop, h.base.temperature)]
  {
    var u := Strip(s.script[0]);
    var a := Examine(c, u);
    var s1 := s.(script := s.script[1..], sent := s.sent + [CompletionRequest(s.prompt + Cue(h.base.names[0]), MaxTokens, h.base.stop, h.base.temperature)]);
    FirstAttemptIs(h, s, u, a);
    assert Send(h, a.outcome.request) == Err(CoroutineUnpacked);
    assert Cycle(h, s) == (Record(h, s1, a), Some(CoroutineUnpacked));
  }

  /**
   * As written, a round whose first completion prepares a call raises the
   * unpacking fault and leaves the chatbot replying: the state is never set
   * back to listening.
   */
  lemma RoundWithCallAsWritten(h: HConfig, c: Caller, s: Snap, rs: seq<string>)
    requires Examines(h, c)
    requires h.maxRetries >= 0 && h.base.endToken.None? && !h.debug && !h.awaitSend
    requires s.state == Listening && s.script != [] && Examine(c, Strip(s.script[0])).outcome.Ready?
    ensures var (r, f) := HoraceRound(h, s, rs);
      f == Some(CoroutineUnpacked) && r.state == Replying
  {
    var s1 := Accept(h.base, s, rs).0;
    assert s1.state == Replying && s1.script == s.script;
    CycleWithCallAsWritten(h, c, s1);
  }

  /**
   * The body is appended to the status line exactly for a 2xx status; for any
   * other status the result is the status line alone, whatever the body.
   */
  lemma ResultTextShowsBodyOnlyOnSuccess(status: int, body: string)
    ensures var line := "API responded with HTTP status code " + IntToString(status);
      && (200 <= status < 300 ==> ResultText(status, body) == line + ", response body: " + body)
      && (!(200 <= status < 300) ==> ResultText(status, body) == line)
  {
  }

  /**
   * The response the template's example shows: a 200 with body `OK` becomes
   * that System line once the call is awaited, and is lost to a TypeError
   * as written.
   */
  lemma UnawaitedSendLosesResponse(h: HConfig, p: Prepared)
    requires h.transport(p) == Ok((200, "OK"))
    ensures ReportAsWritten(h, p) == Err(CoroutineUnpacked)
    ensures Report(h, p) == Ok(ResultText(200, "OK"))
  {
  }

  /** Lines 50-68 of the constructor: the initial prompt. */
  method RenderPrompt(extraInstructions: Option<string>, registry: Dict<Plugin>) returns (prompt: string)
    ensures prompt == InitialPrompt(extraInstructions, registry)
  {
    var pluginBlocks := RenderPluginBlocks(registry);
    var filled := FillTemplate(registry, pluginBlocks);
    var promptBlocks := CollectBlocks(extraInstructions, filled);
    prompt := Join("\n\n", promptBlocks) + "\n";
  }

  /** Lines 50-52 and 64-68: the extra instructions if given, then the filled-in template if any. */
  method CollectBlocks(extraInstructions: Option<string>, filled: Option<string>) returns (promptBlocks: seq<string>)
    ensures promptBlocks == Blocks(extraInstructions, filled)
  {
    promptBlocks := [];
    if Truthy(extraInstructions) {
      promptBlocks := promptBlocks + [extraInstructions.value];
    }
    if filled.Some? {
      promptBlocks := promptBlocks + [filled.value];
    }
  }

  /** Lines 64-69: the template is filled in only when there is a plugin block. */
  method FillTemplate(registry: Dict<Plugin>, pluginBlocks: seq<string>) returns (filled: Option<string>)
    requires pluginBlocks == PluginBlocks(registry)
    ensures filled == FilledTemplate(registry)
  {
    filled := None;
    if pluginBlocks != [] {
      filled := Some(Template(Join("\n\n", pluginBlocks)));
    }
  }

  /** Lines 54-62: one block per plugin, in registry order. */
  method RenderPluginBlocks(registry: Dict<Plugin>) returns (pluginBlocks: seq<string>)
    ensures pluginBlocks == PluginBlocks(registry)
  {
    pluginBlocks := [];
    for i := 0 to |registry|
      invariant pluginBlocks == PluginBlocks(registry[..i])
    {
      assert registry[..i + 1][..i] == registry[..i];
      pluginBlocks := pluginBlocks + [PluginBlock(registry[i].key, registry[i].value)];
    }
    assert registry[..|registry|] == registry;
  }

  /**
   * Lines 70-76 and 83: the base-class part, with the Horace names, no end
   * token, and the closing call tag as an extra stop sequence.
   */
  method NewBaseChat(initialPrompt: string, script: seq<string>, notifyState: bool, temperature: Temperature)
    returns (c: Chatbot)
    ensures fresh(c)
    ensures c.Snapshot() == Snap(initialPrompt, Listening, script, [], [])
    ensures c.Cfg() == Config(HoraceNames, None, temperature, StopList(HoraceNames) + [CallClose], notifyState)
  {
    c := new Chatbot(initialPrompt, script, notifyState, HoraceNames, None, temperature);
    c.stop := c.stop + [CallClose];
  }

  class HoraceChatbot {
    /** The base-class part of the object. */
    const chat: Chatbot
    const router: Router
    const retryTemperature: Temperature
    const maxValidationRetries: int
    const debugMode: bool
    /** `json.JSONDecoder().raw_decode` and the router's `prepare`, bound once by the constructor. */
    const caller: Caller

    ghost predicate Valid()
    {
      chat.names == HoraceNames && chat.endToken.None?
    }

    function Cfg(): HConfig
      reads chat`stop
    {
      var c := caller;
      HConfig(Config(chat.names, chat.endToken, chat.temperature, chat.stop, chat.notifyState),
              raw => Examine(c, raw), router.transport,
              retryTemperature, maxValidationRetries, debugMode, true)
    }

    lemma CfgExamines()
      ensures Examines(Cfg(), caller)
    {
    }

    constructor(script: seq<string>, router: Router, notifyState: bool, extraInstructions: Option<string>,
                temperature: Temperature, retryTemperature: Temperature, maxValidationRetries: int,
                debugMode: bool, decoder: RawDecoder)
      ensures Valid() && fresh(chat) && this.router == router
      ensures chat.Snapshot() == Snap(InitialPrompt(extraInstructions, router.registry), Listening, script, [], [])
      ensures chat.stop == StopList(HoraceNames) + [CallClose]
      ensures chat.temperature == temperature && chat.notifyState == notifyState
      ensures this.retryTemperature == retryTemperature && this.maxValidationRetries == maxValidationRetries
      ensures this.debugMode == debugMode
      ensures caller.decode == decoder
      ensures caller.prepare == router.boundPrepare
    {
      var initialPrompt := RenderPrompt(extraInstructions, router.registry);
      var c := NewBaseChat(initialPrompt, script, notifyState, temperature);
      this.chat := c;
      this.router := router;
      this.retryTemperature := retryTemperature;
      this.maxValidationRetries := maxValidationRetries;
      this.debugMode := debugMode;
      this.caller := Caller(decoder, router.boundPrepare);
    }

    /** Lines 92-126 without the callbacks: the analysis of one completion. */
    method Inspect(utterance: string) returns (a: Attempt)
      ensures a == Examine(caller, utterance)
    {
      var m := SplitAtTag(utterance, CallOpen);
      var stripped := Strip(m.before);
      var callJson := m.payload.GetOr("");
      if callJson == "" {
        return Attempt(stripped, "", utterance, NoCall);
      }
      var recorded, outcome := Decide(utterance, callJson);
      // the stop sequences keep the model from writing the closing tag
      a := Attempt(stripped, callJson, recorded + CallClose, outcome);
    }

    /** Lines 99-116: decoding the payload `callJson` of the completion `utterance`, cutting it and preparing the call. */
    method Decide(utterance: string, callJson: string) returns (recorded: string, outcome: Outcome)
      requires callJson != "" && |callJson| <= |utterance|
      ensures recorded == CutAtJson(caller.decode, utterance, callJson)
      ensures outcome == CallOutcome(caller, callJson)
    {
      var c := caller;
      CutOnlyBeforeEnd(c.decode, utterance, callJson);
      recorded := utterance;
      var decoded := c.decode(callJson);
      if decoded.None? {
        outcome := Rejected("Malformed JSON: " + PyRepr(callJson));
        return;
      }
      assert CallOutcome(c, callJson) == Judge(c, decoded.value.value);
      var truncateLen := |callJson| - decoded.value.consumed;
      if truncateLen != 0 {
        // cut the utterance so that it ends with the JSON
        recorded := recorded[..|recorded| - truncateLen];
      }
      var target := CallTarget(decoded.value.value);
      if target.Err? {
        outcome := Rejected(target.error);
        return;
      }
      // the router's `prepare`
      var prepared := c.prepare(target.value.0, target.value.1);
      outcome := if prepared.Err? then Rejected(prepared.error) else Ready(prepared.value);
    }

    /** One attempt of the retry loop: lines 89-126. */
    method TryOnce(attempt: nat) returns (r: Result<Attempt, Fault>)
      requires Valid()
      modifies chat`script, chat`sent, chat`events
      ensures (chat.Snapshot(), r) == Step(Cfg(), old(chat.Snapshot()), attempt)
    {
      var temperature := if attempt > 0 then retryTemperature else chat.temperature;
      var next := chat.GetNextUtterance(temperature);
      if next.Err? {
        return Err(next.error);
      }
      var a := Inspect(next.value);
      ShowDebug(next.value, a);
      return Ok(a);
    }

    method ShowDebug(raw: string, a: Attempt)
      modifies chat`events
      ensures chat.Snapshot() == ShowAttempt(debugMode, old(chat.Snapshot()), raw, a)
    {
      if debugMode {
        chat.Say(raw, false);
      }
      if debugMode && a.outcome.Rejected? {
        chat.Say(a.outcome.message, true);
      }
    }

    /** `_get_all_utterances` (lines 85-152). */
    method GetAllUtterances() returns (fault: Option<Fault>)
      requires Valid()
      modifies chat`prompt, chat`script, chat`sent, chat`events
      ensures (chat.Snapshot(), fault) == Cycle(Cfg(), old(chat.Snapshot()))
      decreases |chat.script|, 0
    {
      if maxValidationRetries < 0 {
        // the loop runs no time and `stripped_utterance` is unbound at line 133
        return Some(UtteranceUnbound);
      }
      var r := RetryLoop();
      if r.Err? {
        return Some(r.error);
      }
      fault := ConcludeAttempt(r.value);
    }

    /** Lines 88-131: the attempts, up to `max_validation_retries + 1` of them. */
    method RetryLoop() returns (r: Result<Attempt, Fault>)
      requires Valid() && maxValidationRetries >= 0
      modifies chat`script, chat`sent, chat`events
      ensures (chat.Snapshot(), r) == RetryFrom(Cfg(), old(chat.Snapshot()), 0)
    {
      ghost var h := Cfg();
      ghost var s0 := chat.Snapshot();
      var attempt := 0;
      while true
        invariant attempt <= maxValidationRetries
        invariant Cfg() == h
        invariant RetryFrom(h, s0, 0) == RetryFrom(h, chat.Snapshot(), attempt)
        decreases maxValidationRetries - attempt
      {
        r := TryOnce(attempt);
        if r.Err? || !r.value.outcome.Rejected? || attempt == maxValidationRetries {
          return;
        }
        attempt := attempt + 1;
      }
    }

    /** Lines 133-152, after the loop ended with the attempt `last`. */
    method ConcludeAttempt(last: Attempt) returns (fault: Option<Fault>)
      requires Valid()
      modifies chat`prompt, chat`script, chat`sent, chat`events
      ensures (chat.Snapshot(), fault) == Conclude(Cfg(), old(chat.Snapshot()), last)
      decreases |chat.script|, 1
    {
      if last.visible != "" && !debugMode {
        chat.Say(last.visible, false);
      }
      chat.AddResponse(chat.names[0], last.recorded);
      // `call_json` is empty exactly when there is no call (`ExamineClosesCalls`)
      if last.outcome.NoCall? {
        return None;
      }
      var result := if last.outcome.Rejected? then last.outcome.message else "";
      if last.outcome.Ready? {
        var sent := router.transport(last.outcome.request);
        if sent.Err? {
          return Some(TransportFailed(sent.error));
        }
        result := ResultText(sent.value.0, sent.value.1);
        if debugMode {
          chat.Say(result, true);
        }
      }
      chat.AddResponse(chat.names[2], result);
      fault := GetAllUtterances();
    }

    /** `send_responses` of the base class, dispatching to this class's reply cycle. */
    method SendResponses(responses: seq<string>) returns (fault: Option<Fault>)
      requires Valid()
      modifies chat`prompt, chat`state, chat`script, chat`sent, chat`events
      ensures (chat.Snapshot(), fault) == HoraceRound(Cfg(), old(chat.Snapshot()), responses)
    {
      fault := chat.AcceptResponses(responses);
      if fault.Some? {
        return;
      }
      fault := GetAllUtterances();
      if fault.Some? {
        return;
      }
      chat.FinishReply();
    }
  }
}

/**
 * `horace_chatbot.py`: the older plugin chatbot. The model calls a plugin by
 * ending its reply with `CALL {...}`; the reply cycle shows the text before
 * the call, appends the whole completion to the prompt, drops from the
 * prompt whatever follows the decoded JSON, asks the router to make the call
 * and records the result (or the error) as an `API` turn, then asks again
 * while the session lasts.
 *
 * The class `HoraceChatbot` holds the `LegacyChatbot.Chatbot` it extends and
 * replaces its reply cycle.
 */
module LegacyHorace {
  import opened Base
  import opened PyStr
  import opened Json
  import opened Extract
  import opened Session
  import opened LegacyChatbot

  const HoraceNames: Names := ["AI", "User"]
  const RouterName := "API"
  const CallTag := "CALL "

  /** What a plugin registry entry contributes to the prompt: `manifest.description_for_model` and `spec_yaml`. */
  datatype PluginText = PluginText(descriptionForModel: string, specYaml: string)

  /** `INITIAL_PROMPT_TEMPLATE.format(plugins_string=plugins)` */
  function Template(plugins: string): string {
    "You have access to the following plugin APIs, as defined by their OpenAPI specification YAML:\n\n"
    + plugins
    + "\n\nYou can use the APIs above if you determine that you need the functionality they provide. "
    + "You do not proactively steer the user towards performing any actions available to you.\n\n"
    + "To call an API method, use the following format: CALL [JSON], where [JSON] is a JSON object with the following properties:\n\n"
    + "- plugin_name: The system name for the plugin as defined above\n"
    + "- request_object_params: A dictionary of parameters for instantiation of the corresponding requests.Request object in Python.\n\n"
    + "For example:\n\n"
    + "AI: Sure, let me look into that. CALL {\"plugin_name\": \"[plugin_name for the plugin]\", "
    + "\"request_object_params\": {\"method\": \"POST\", [other parameters for requests.Request()]}}\n"
    + "API: (To AI) [HTTP 200] Response body: OK\n"
    + "AI: All done!\n\n"
    + "No further text can follow an API call.\n\n"
    + "Your API calls and the responses from the API are invisible to the user.\n\n"
    + "You do not disclose any implementation details to the user, including the API methods available to you, the calls that you make etc.\n"
  }

  /** The description of one plugin (line 44). */
  function PluginBlock(name: string, p: PluginText): string {
    "plugin_name: " + name + "\n" + p.descriptionForModel + "\n```\n" + p.specYaml + "\n```"
  }

  function PluginBlocks(registry: Dict<PluginText>): (r: seq<string>)
    ensures |r| == |registry|
  {
    if registry == [] then []
    else PluginBlocks(registry[..|registry| - 1]) + [PluginBlock(registry[|registry| - 1].key, registry[|registry| - 1].value)]
  }

  /** Non-empty extra instructions go before the prompt, followed by a blank line. */
  function WithExtra(extra: Option<string>, prompt: string): string {
    if Truthy(extra) then extra.value + "\n\n" + prompt else prompt
  }

  /** The initial prompt of lines 44-51. */
  function InitialPrompt(extra: Option<string>, registry: Dict<PluginText>): string {
    WithExtra(extra, Template(Join("\n\n", PluginBlocks(registry))))
  }

  /**
   * The template is always there, with or without plugins, and it ends the
   * prompt; non-empty extra instructions come first, followed by a blank line.
   */
  lemma WithExtraEndsWith(extra: Option<string>, t: string)
    ensures var p := WithExtra(extra, t);
      && |t| <= |p| && p[|p| - |t|..] == t
      && (Truthy(extra) ==> |p| == |extra.value| + 2 + |t| && p[..|extra.value| + 2] == extra.value + "\n\n")
      && (!Truthy(extra) ==> p == t)
  {
    if Truthy(extra) {
      var h := extra.value + "\n\n";
      assert (h + t)[|h + t| - |t|..] == t;
      assert (h + t)[..|h|] == h;
    }
  }

  /** The stop list: the two name stops, then the router's. */
  function HoraceStops(): seq<string> {
    StopList(HoraceNames) + [RouterName + ":"]
  }

  // ---------------------------------------------------------------- the reply cycle

  /** `router.call(plugin_name, request_object_params)`, left abstract: its result, or the text of what it raises. */
  type RouterCall = (Json, Json) -> Result<string, string>

  /**
   * The base part's configuration, the JSON decoder, and what the router
   * makes of a decoded call: the result text, or the text of what was raised.
   */
  datatype HConfig = HConfig(base: Config, decode: RawDecoder, route: Json -> string)

  /**
   * `result = self.router.call(call_dict["plugin_name"], call_dict["request_object_params"])`
   * for a router whose `call` is `f`, with the exception text as the result.
   */
  function CallThrough(f: RouterCall, v: Json): string {
    match Subscript(v, "plugin_name")
    case Err(e) => e
    case Ok(plugin) =>
      match Subscript(v, "request_object_params")
      case Err(e) => e
      case Ok(params) =>
        match f(plugin, params)
        case Ok(t) => t
        case Err(e) => e
  }

  /** A router with a `call` method. */
  function RouterWithCall(f: RouterCall): Json -> string {
    v => CallThrough(f, v)
  }

  /**
   * `router.Router`, which has no `call` method: the attribute lookup raises
   * before the arguments are evaluated, whatever the call holds.
   */
  function RouterWithoutCall(): Json -> string {
    v => "'Router' object has no attribute 'call'"
  }

  /** `p[:-n]` for a positive `n`: the last `n` characters dropped, or nothing left. */
  function DropLast(p: string, n: nat): (r: string)
    requires n > 0
    ensures n < |p| ==> r == p[..|p| - n]
    ensures n >= |p| ==> r == ""
  {
    if n >= |p| then "" else p[..|p| - n]
  }

  /** The prompt after lines 81-89: cut after the decoded JSON; a prompt that is None stays None. */
  function Truncated(decode: RawDecoder, prompt: Option<string>, commandJson: string): (r: Option<string>)
    ensures r.Some? <==> prompt.Some?
  {
    match decode(commandJson)
    case None => prompt
    case Some(d) =>
      var truncateLen := |commandJson| - d.consumed;
      if truncateLen == 0 || prompt.None? then prompt else Some(DropLast(prompt.value, truncateLen))
  }

  /** The result of lines 79-96: any error on the way becomes the result. */
  function CallResult(h: HConfig, prompt: Option<string>, commandJson: string): string {
    match h.decode(commandJson)
    case None => "Malformed JSON: " + PyRepr(commandJson)
    case Some(d) =>
      if |commandJson| - d.consumed != 0 && prompt.None? then "'NoneType' object is not subscriptable"
      else h.route(d.value)
  }

  /** The reply cycle of lines 63-100; each level uses up one completion of the script. */
  function Cycle(h: HConfig, s: Snap): (Snap, Option<Fault>)
    requires s.prompt.Some?
    decreases 3 * |s.script|
  {
    var (s1, r) := NextUtterance(h.base, s);
    match r
    case Err(f) => (s1, Some(f))
    case Ok(u) => Handle(h, s1, u)
  }

  /**
   * Lines 65-77: the text before the first `CALL ` is shown, the whole match
   * is appended to the prompt, and a non-empty payload is evaluated.
   */
  function Handle(h: HConfig, s: Snap, u: string): (Snap, Option<Fault>)
    decreases 3 * |s.script| + 2
  {
    var m := SplitAtTag(u, CallTag);
    var s2 := Continue(Show(s, Strip(m.before)), m.whole);
    var commandJson := m.payload.GetOr("");
    if commandJson == "" then (s2, None) else Evaluate(h, s2, commandJson)
  }

  /**
   * Lines 79-100: the prompt is cut after the decoded JSON and, while the
   * session lasts, the result is added as an API turn and the cycle goes on.
   */
  function Evaluate(h: HConfig, s: Snap, commandJson: string): (Snap, Option<Fault>)
    decreases 3 * |s.script| + 1
  {
    var s3 := s.(prompt := Truncated(h.decode, s.prompt, commandJson));
    if s3.prompt.None? then (s3, None)
    else Cycle(h, AddTurn(s3, RouterName, "(To AI) " + CallResult(h, s.prompt, commandJson)))
  }

  /** `send_responses` with this class's reply cycle. */
  function Round(h: HConfig, s: Snap, rs: seq<string>): (Snap, Option<Fault>) {
    var (s1, f) := Accept(h.base, s, rs);
    if f.Some? then (s1, f) else Cycle(h, s1)
  }

  /**
   * For a stripped utterance, group 0 of the match is the whole utterance, so
   * the prompt receives all of it; group 1 is the text before the first
   * `CALL `, and the payload the text after it.
   */
  lemma SplitKeepsWhole(u: string)
    requires NoEdgeSpace(u)
    ensures var m := SplitAtTag(u, CallTag);
      var k := Find(u, CallTag);
      && m.whole == u
      && (k == -1 <==> m.payload.None?)
      && (k == -1 ==> m.before == u)
      && (k != -1 ==> m.before == u[..k] && m.payload == Some(u[k + |CallTag|..]))
  {
    SplitAtTagIsFind(u, CallTag);
    if |u| > 0 {
      assert IsSpace('\n');
    }
  }

  /**
   * Round trip of the truncation: when the prompt ends with the payload and
   * the decoder used `n` of its characters, the prompt afterwards ends with
   * exactly those `n` characters.
   */
  lemma TruncationEndsWithJson(decode: RawDecoder, head: string, commandJson: string)
    requires decode(commandJson).Some?
    ensures Truncated(decode, Some(head + commandJson), commandJson)
         == Some(head + commandJson[..decode(commandJson).value.consumed])
  {
    var n := decode(commandJson).value.consumed;
    var p := head + commandJson;
    if n < |commandJson| {
      assert p[..|p| - (|commandJson| - n)] == head + commandJson[..n];
    } else {
      assert commandJson[..n] == commandJson;
    }
  }

  /**
   * Errors become the result: text the decoder refuses is reported with its
   * repr and nothing is cut from the prompt; a call the decoder reads while
   * the session lasts gets what the router makes of it.
   */
  lemma ErrorsBecomeResult(h: HConfig, prompt: Option<string>, commandJson: string)
    ensures h.decode(commandJson).None? ==>
      Truncated(h.decode, prompt, commandJson) == prompt
      && CallResult(h, prompt, commandJson) == "Malformed JSON: " + PyRepr(commandJson)
    ensures h.decode(commandJson).Some? && prompt.Some? ==>
      CallResult(h, prompt, commandJson) == h.route(h.decode(commandJson).value.value)
  {
  }

  /** With `router.Router`, which has no `call` method, every decoded call yields the AttributeError text. */
  lemma NoCallMethodRefusesAll(h: HConfig, prompt: Option<string>, commandJson: string)
    requires h.route == RouterWithoutCall()
    requires prompt.Some? && h.decode(commandJson).Some?
    ensures CallResult(h, prompt, commandJson) == "'Router' object has no attribute 'call'"
  {
  }

  /**
   * A completion without `CALL ` ends the cycle: the utterance is shown if
   * non-empty and, while the session lasts, follows the cue after a space.
   */
  lemma CycleWithoutCall(h: HConfig, s: Snap)
    requires s.prompt.Some? && s.script != []
    requires Find(NextUtterance(h.base, s).1.value, CallTag) == -1
    ensures var (r, f) := Cycle(h, s);
      var (s1, u) := NextUtterance(h.base, s);
      && f.None? && r.script == s.script[1..] && r.sent == s1.sent
      && r.events == s.events + (if u.value != "" then [Said(u.value, false)] else [])
      && r.prompt == (if s1.prompt.Some? then Some(s1.prompt.value + " " + u.value) else None)
  {
    UtteranceStripped(h.base, s);
    var u := NextUtterance(h.base, s).1.value;
    SplitKeepsWhole(u);
    StripKeeps(u);
  }

  /**
   * A completion with a call while the session lasts: the text before the
   * call is shown, the prompt gets the completion up to the end of the
   * decoded JSON, then one API turn with the result, and the cycle starts
   * over from there.
   */
  lemma CycleWithCall(h: HConfig, s: Snap, s1: Snap, u: string, j: nat, d: Decoded)
    requires s.prompt.Some? && s.script != [] && NextUtterance(h.base, s) == (s1, Ok(u)) && s1.prompt.Some?
    requires Find(u, CallTag) != -1 && j == Find(u, CallTag) + |CallTag| && h.decode(u[j..]) == Some(d)
    ensures var cut := Show(s1, Strip(u[..Find(u, CallTag)])).(prompt := Some(s1.prompt.value + " " + u[..j + d.consumed]));
      Cycle(h, s) == Cycle(h, AddTurn(cut, RouterName, "(To AI) " + h.route(d.value)))
  {
    UtteranceStripped(h.base, s);
    HandleWithCall(h, s1, u, j, d);
  }

  /** `Handle` on a stripped utterance with a call the decoder reads, while the session lasts. */
  lemma HandleWithCall(h: HConfig, s: Snap, u: string, j: nat, d: Decoded)
    requires s.prompt.Some? && NoEdgeSpace(u)
    requires Find(u, CallTag) != -1 && j == Find(u, CallTag) + |CallTag| && h.decode(u[j..]) == Some(d)
    ensures var cut := Show(s, Strip(u[..Find(u, CallTag)])).(prompt := Some(s.prompt.value + " " + u[..j + d.consumed]));
      Handle(h, s, u) == Cycle(h, AddTurn(cut, RouterName, "(To AI) " + h.route(d.value)))
  {
    SplitKeepsWhole(u);
    var shown := Show(s, Strip(u[..Find(u, CallTag)]));
    var s2 := Continue(shown, u);
    assert Handle(h, s, u) == Evaluate(h, s2, u[j..]);
    EvaluateWithCall(h, s2, s.prompt.value, u, j, d);
    assert s2.(prompt := Some(s.prompt.value + " " + u[..j + d.consumed]))
        == shown.(prompt := Some(s.prompt.value + " " + u[..j + d.consumed]));
  }

  /**
   * A call the decoder reads, in a prompt that ends with the completion: the
   * prompt is cut after the JSON and the API turn holds what the router made
   * of the call.
   */
  lemma EvaluateWithCall(h: HConfig, s: Snap, p: string, u: string, j: nat, d: Decoded)
    requires s.prompt == Some(p + " " + u) && j <= |u| && h.decode(u[j..]) == Some(d)
    ensures Evaluate(h, s, u[j..])
         == Cycle(h, AddTurn(s.(prompt := Some(p + " " + u[..j + d.consumed])), RouterName, "(To AI) " + h.route(d.value)))
  {
    CutAfterJson(h.decode, s.prompt, p, u, j);
    var s3 := s.(prompt := Truncated(h.decode, s.prompt, u[j..]));
    assert s3 == s.(prompt := Some(p + " " + u[..j + d.consumed]));
    assert CallResult(h, s.prompt, u[j..]) == h.route(d.value);
    assert Evaluate(h, s, u[j..]) == Cycle(h, AddTurn(s3, RouterName, "(To AI) " + CallResult(h, s.prompt, u[j..])));
  }

  /**
   * Text the decoder refuses: the prompt is left as it is and the API turn
   * reports the text with its repr.
   */
  lemma EvaluateMalformed(h: HConfig, s: Snap, commandJson: string)
    requires s.prompt.Some? && h.decode(commandJson).None?
    ensures Evaluate(h, s, commandJson)
         == Cycle(h, AddTurn(s, RouterName, "(To AI) " + ("Malformed JSON: " + PyRepr(commandJson))))
  {
    var s3 := s.(prompt := Truncated(h.decode, s.prompt, commandJson));
    assert s3 == s;
    assert CallResult(h, s.prompt, commandJson) == "Malformed JSON: " + PyRepr(commandJson);
  }

  /** The prompt `p + " " + u` cut after the JSON that starts at `u[j]`. */
  lemma CutAfterJson(decode: RawDecoder, prompt: Option<string>, p: string, u: string, j: nat)
    requires j <= |u| && decode(u[j..]).Some? && prompt == Some(p + " " + u)
    ensures Truncated(decode, prompt, u[j..])
         == Some(p + " " + u[..j + decode(u[j..]).value.consumed])
  {
    var payload := u[j..];
    var n := decode(payload).value.consumed;
    assert p + " " + u == (p + " " + u[..j]) + payload;
    TruncationEndsWithJson(decode, p + " " + u[..j], payload);
    assert u[..j] + payload[..n] == u[..j + n];
    assert (p + " " + u[..j]) + payload[..n] == (p + " ") + (u[..j] + payload[..n]);
  }

  /**
   * The cycle goes on only while the session lasts: a completion that holds
   * the end token ends it after one request, whatever the completion holds.
   */
  lemma EndTokenStopsCycle(h: HConfig, s: Snap)
    requires s.prompt.Some? && s.script != []
    requires NextUtterance(h.base, s).0.prompt.None?
    ensures var (r, f) := Cycle(h, s);
      f.None? && r.prompt.None? && r.sent == NextUtterance(h.base, s).0.sent && r.script == s.script[1..]
  {
    var (s1, r) := NextUtterance(h.base, s);
    assert Cycle(h, s) == Handle(h, s1, r.value);
    var m := SplitAtTag(r.value, CallTag);
    var s2 := Continue(Show(s1, Strip(m.before)), m.whole);
    assert s2.prompt.None? && s2.sent == s1.sent && s2.script == s1.script;
    var cj := m.payload.GetOr("");
    if cj != "" {
      assert Handle(h, s1, r.value) == Evaluate(h, s2, cj);
      assert Truncated(h.decode, s2.prompt, cj).None?;
    }
  }

  // ---------------------------------------------------------------- the class

  /** Lines 44-51, step by step. */
  method BuildInitialPrompt(extra: Option<string>, registry: Dict<PluginText>) returns (initialPrompt: string)
    ensures initialPrompt == InitialPrompt(extra, registry)
  {
    var pluginsString := Join("\n\n", PluginBlocks(registry));
    initialPrompt := PrependExtra(extra, Template(pluginsString));
  }

  /** Lines 50-51: non-empty extra instructions go before the prompt, separated by a blank line. */
  method PrependExtra(extra: Option<string>, prompt: string) returns (p: string)
    ensures p == WithExtra(extra, prompt)
  {
    p := prompt;
    if Truthy(extra) {
      p := extra.value + "\n\n" + p;
    }
  }

  /** Lines 53-61: the base part with the Horace names, the router's name added to its stop list. */
  method Assemble(initialPrompt: string, script: seq<string>, decoder: RawDecoder, route: Json -> string)
      returns (h: HoraceChatbot)
    ensures fresh(h) && fresh(h.chat) && h.chat.initialPrompt == initialPrompt
    ensures h.chat.Snapshot() == Snap(None, script, [], [])
    ensures h.Cfg() == HConfig(Config(HoraceNames, DefaultEndToken, HoraceStops()), decoder, route)
  {
    var c := new Chatbot(initialPrompt, script, HoraceNames, DefaultEndToken);
    c.stop := c.stop + [RouterName + ":"];
    h := new HoraceChatbot(c, decoder, route);
  }

  /**
   * Lines 37-61: the prompt from the registry's plugins and the extra
   * instructions, the base part with the Horace names, and the router's stop.
   */
  method NewHoraceChatbot(script: seq<string>, registry: Dict<PluginText>, extraInstructions: Option<string>,
                          decoder: RawDecoder, route: Json -> string) returns (h: HoraceChatbot)
    ensures fresh(h) && fresh(h.chat) && h.chat.Snapshot() == Snap(None, script, [], [])
    ensures h.Cfg() == HConfig(Config(HoraceNames, DefaultEndToken, HoraceStops()), decoder, route)
    ensures h.chat.initialPrompt == InitialPrompt(extraInstructions, registry)
  {
    var initialPrompt := BuildInitialPrompt(extraInstructions, registry);
    h := Assemble(initialPrompt, script, decoder, route);
  }

  class HoraceChatbot {
    /** The base-class part of the object. */
    const chat: Chatbot
    const decoder: RawDecoder
    /** What the router makes of a decoded call. */
    const route: Json -> string

    function Cfg(): HConfig
      reads this, chat
    {
      HConfig(chat.Cfg(), decoder, route)
    }

    /** The object from its parts; `NewHoraceChatbot` builds them as the constructor of lines 37-61 does. */
    constructor(chat: Chatbot, decoder: RawDecoder, route: Json -> string)
      ensures this.chat == chat && this.decoder == decoder && this.route == route
    {
      this.chat := chat;
      this.decoder := decoder;
      this.route := route;
    }

    method StartSession(responses: seq<string>) returns (fault: Option<Fault>)
      modifies chat`prompt, chat`script, chat`sent, chat`events
      ensures (chat.Snapshot(), fault) == Round(Cfg(), old(chat.Snapshot()).(prompt := Some(chat.initialPrompt)), responses)
    {
      chat.prompt := Some(chat.initialPrompt);
      fault := SendResponses(responses);
    }

    method SendResponses(responses: seq<string>) returns (fault: Option<Fault>)
      modifies chat`prompt, chat`script, chat`sent, chat`events
      ensures (chat.Snapshot(), fault) == Round(Cfg(), old(chat.Snapshot()), responses)
    {
      fault := chat.AcceptResponses(responses);
      if fault.Some? {
        return;
      }
      fault := GetAllUtterances();
    }

    method GetAllUtterances() returns (fault: Option<Fault>)
      requires chat.prompt.Some?
      modifies chat`prompt, chat`script, chat`sent, chat`events
      ensures (chat.Snapshot(), fault) == Cycle(Cfg(), old(chat.Snapshot()))
      decreases 4 * |chat.script|
    {
      var r := chat.GetNextUtterance();
      if r.Err? {
        return Some(r.error);
      }
      ghost var s1 := chat.Snapshot();
      assert Cycle(Cfg(), old(chat.Snapshot())) == Handle(Cfg(), s1, r.value);
      fault := HandleUtterance(r.value);
    }

    /** Lines 65-77 and the call that follows, for the utterance `u`. */
    method HandleUtterance(u: string) returns (fault: Option<Fault>)
      modifies chat`prompt, chat`script, chat`sent, chat`events
      ensures (chat.Snapshot(), fault) == Handle(Cfg(), old(chat.Snapshot()), u)
      decreases 4 * |chat.script| + 3
    {
      var m := SplitAtTag(u, CallTag);
      var utterance := Strip(m.before);
      var commandJson := m.payload.GetOr("");
      if utterance != "" {
        chat.Say(utterance);
      }
      chat.ContinuePrompt(m.whole);
      if commandJson == "" {
        return None;
      }
      fault := RespondToCall(commandJson);
    }

    /** Lines 79-100: the call, the API turn and the next cycle. */
    method RespondToCall(commandJson: string) returns (fault: Option<Fault>)
      modifies chat`prompt, chat`script, chat`sent, chat`events
      ensures (chat.Snapshot(), fault) == Evaluate(Cfg(), old(chat.Snapshot()), commandJson)
      decreases 4 * |chat.script| + 2
    {
      ghost var s := chat.Snapshot();
      var result := EvaluateCall(commandJson);
      ghost var s3 := s.(prompt := Truncated(decoder, s.prompt, commandJson));
      assert chat.Snapshot() == s3;
      if chat.prompt.None? {
        return None;
      }
      fault := AnswerCall(result);
    }

    /** Lines 98-100: the result as an API turn, then the next cycle. */
    method AnswerCall(result: string) returns (fault: Option<Fault>)
      requires chat.prompt.Some?
      modifies chat`prompt, chat`script, chat`sent, chat`events
      ensures (chat.Snapshot(), fault) == Cycle(Cfg(), AddTurn(old(chat.Snapshot()), RouterName, "(To AI) " + result))
      decreases 4 * |chat.script| + 1
    {
      chat.AddResponse(RouterName, "(To AI) " + result);
      fault := GetAllUtterances();
    }

    /** Lines 79-96. */
    method EvaluateCall(commandJson: string) returns (result: string)
      modifies chat`prompt
      ensures chat.prompt == Truncated(decoder, old(chat.prompt), commandJson)
      ensures result == CallResult(Cfg(), old(chat.prompt), commandJson)
    {
      var decoded := decoder(commandJson);
      if decoded.None? {
        return "Malformed JSON: " + PyRepr(commandJson);
      }
      var truncateLen := |commandJson| - decoded.value.consumed;
      if truncateLen != 0 {
        if chat.prompt.None? {
          return "'NoneType' object is not subscriptable";
        }
        chat.prompt := Some(DropLast(chat.prompt.value, truncateLen));
      }
      result := route(decoded.value.value);
    }
  }
}

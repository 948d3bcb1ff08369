/**
 * `grace_chatbot.py`: the customer-service chatbot. The model sends a command
 * to the backend by writing `[json]...[/json]` on the first line of its reply;
 * the reply cycle shows the text before the block, appends the matched part
 * of the completion to the prompt (so whatever follows the block, or the
 * first line end, never reaches the prompt), has the command router invoke
 * the command, and records the result (or the error) as a `Backend` turn,
 * then asks again while the session lasts.
 *
 * `_get_all_utterances` uses `_get_next_utterance`, `_add_response`,
 * `output_callback` and a prompt that is None outside a session, which only
 * `chatbot.py`'s class has; so `GraceChatbot` holds a `LegacyChatbot.Chatbot`
 * as its base part, and a `CommandRouter.Router` as its backend.
 */
module LegacyGrace {
  import opened Base
  import opened PyStr
  import opened Json
  import opened Extract
  import opened Session
  import opened LegacyChatbot
  import opened CommandRouter

  const GraceNames: Names := ["AI", "Customer"]
  const BackendName := "Backend"

  /**
   * `look_up(question: str) -> str` as the registry sees it: a function local
   * to the constructor of the module `grace_chatbot`. What it answers is left
   * abstract.
   */
  function LookUp(answer: Dict<Json> -> Result<string, string>): (f: PyFunction)
    ensures f.name == "look_up" && f.parameters == ["question"] && f.call == answer
    ensures f.qualifiedName == "grace_chatbot.GRACEChatbot.__init__.<locals>.look_up"
  {
    PyFunction("look_up", "grace_chatbot.GRACEChatbot.__init__.<locals>.look_up", ["question"], "(question: str)", answer)
  }

  /** The registry entry of line 51. */
  function LookUpEntry(answer: Dict<Json> -> Result<string, string>): RegistryEntry {
    EntryFor("look up a question", [JStr("What are your opening hours?")], LookUp(answer))
  }

  /** The stop list of lines 73-79: the two name stops, then the backend's. */
  function GraceStops(): seq<string> {
    StopList(GraceNames) + [BackendName + ":"]
  }

  // ---------------------------------------------------------------- the reply cycle

  /** The base part's configuration, the router's shared registry and the JSON decoder of `json.loads`. */
  datatype GConfig = GConfig(base: Config, registry: Dict<RegistryEntry>, decode: RawDecoder)

  /** Lines 100-105: what `invoke` returns, or the text of what it raises. */
  function InvokeText(g: GConfig, commandJson: string): string {
    match Invoke(g.registry, g.decode, commandJson)
    case Ok(t) => t
    case Err(e) => e
  }

  /** The reply cycle of lines 83-109; each level uses up one completion of the script. */
  function Cycle(g: GConfig, s: Snap): (Snap, Option<Fault>)
    requires s.prompt.Some?
    decreases 3 * |s.script|
  {
    var (s1, r) := NextUtterance(g.base, s);
    match r
    case Err(f) => (s1, Some(f))
    case Ok(u) => Handle(g, s1, u)
  }

  /**
   * Lines 86-97: group 2, stripped, is shown if non-empty, group 1 is appended
   * to the prompt, and a non-empty group 4 is a command.
   */
  function Handle(g: GConfig, s: Snap, u: string): (Snap, Option<Fault>)
    decreases 3 * |s.script| + 2
  {
    var m := SplitAtBlock(u);
    var s2 := Continue(Show(s, Strip(m.before)), m.whole);
    var commandJson := m.payload.GetOr("");
    if commandJson == "" then (s2, None) else Answer(g, s2, commandJson)
  }

  /**
   * Lines 98-109: the command is invoked whether or not the session lasts;
   * while it lasts, the result is added as a Backend turn and the cycle goes on.
   */
  function Answer(g: GConfig, s: Snap, commandJson: string): (Snap, Option<Fault>)
    decreases 3 * |s.script| + 1
  {
    if s.prompt.None? then (s, None)
    else Cycle(g, AddTurn(s, BackendName, "(To AI) " + InvokeText(g, commandJson)))
  }

  /** `send_responses` of the base part with this class's reply cycle. */
  function Round(g: GConfig, s: Snap, rs: seq<string>): (Snap, Option<Fault>) {
    var (s1, f) := Accept(g.base, s, rs);
    if f.Some? then (s1, f) else Cycle(g, s1)
  }

  /**
   * A completion whose first line holds no complete block ends the cycle:
   * only the first line, stripped, is shown, and only the first line follows
   * the cue in the prompt, whatever comes after it.
   */
  lemma CycleWithoutBlock(g: GConfig, s: Snap, s1: Snap, u: string)
    requires s.prompt.Some? && NextUtterance(g.base, s) == (s1, Ok(u))
    requires forall b :: 0 <= b < FirstLineEnd(u) ==> !BlockAt(u, b)
    ensures var line := u[..FirstLineEnd(u)];
      Cycle(g, s) == (Continue(Show(s1, Strip(line)), line), None)
  {
    var m := SplitAtBlock(u);
    BlockFromMatches(u, 0);
    SplitAtBlockFirstLine(u);
    if m.payload.Some? {
      assert BlockAt(u, |m.before|);
      assert false;
    }
  }

  /**
   * A completion with a block on its first line, while the session lasts:
   * the text before the block is shown, the prompt gets the completion up to
   * the end of the closing tag, then one Backend turn with what `invoke` made
   * of the payload, and the cycle starts over from there.
   */
  lemma CycleWithBlock(g: GConfig, s: Snap, s1: Snap, u: string, b: nat, j: int)
    requires s.prompt.Some? && NextUtterance(g.base, s) == (s1, Ok(u)) && s1.prompt.Some?
    requires b < FirstLineEnd(u) && BlockAt(u, b) && forall k :: 0 <= k < b ==> !BlockAt(u, k)
    requires j == FindClose(u, b + |OpenBlock|) && b + |OpenBlock| < j
    ensures var shown := Show(s1, Strip(u[..b])).(prompt := Some(s1.prompt.value + " " + u[..j + |CloseBlock|]));
      Cycle(g, s) == Cycle(g, AddTurn(shown, BackendName, "(To AI) " + InvokeText(g, u[b + |OpenBlock|..j])))
  {
    assert Cycle(g, s) == Handle(g, s1, u);
    HandleWithBlock(g, s1, u, b, j);
  }

  /** `Handle` on an utterance whose first line holds a block with a non-empty payload, while the session lasts. */
  lemma HandleWithBlock(g: GConfig, s: Snap, u: string, b: nat, j: int)
    requires s.prompt.Some?
    requires b < FirstLineEnd(u) && BlockAt(u, b) && forall k :: 0 <= k < b ==> !BlockAt(u, k)
    requires j == FindClose(u, b + |OpenBlock|) && b + |OpenBlock| < j
    ensures var shown := Show(s, Strip(u[..b])).(prompt := Some(s.prompt.value + " " + u[..j + |CloseBlock|]));
      Handle(g, s, u) == Cycle(g, AddTurn(shown, BackendName, "(To AI) " + InvokeText(g, u[b + |OpenBlock|..j])))
  {
    FirstBlock(u, b);
    var commandJson := u[b + |OpenBlock|..j];
    var m := SplitAtBlock(u);
    assert m.before == u[..b] && m.whole == u[..j + |CloseBlock|];
    assert m.payload.GetOr("") == commandJson;
    var shown := Show(s, Strip(m.before));
    var s2 := Continue(shown, m.whole);
    assert s2 == shown.(prompt := Some(s.prompt.value + " " + u[..j + |CloseBlock|]));
    assert Handle(g, s, u) == Answer(g, s2, commandJson);
    assert Answer(g, s2, commandJson) == Cycle(g, AddTurn(s2, BackendName, "(To AI) " + InvokeText(g, commandJson)));
  }

  /**
   * `[json][/json]` is no command: the cycle ends as without a block, with
   * the tags in the prompt.
   */
  lemma EmptyBlockIsNoCommand(g: GConfig, s: Snap, u: string)
    requires SplitAtBlock(u).payload == Some("")
    ensures var m := SplitAtBlock(u);
      Handle(g, s, u) == (Continue(Show(s, Strip(m.before)), m.whole), None)
  {
  }

  /**
   * The session lasts only while the prompt does: a completion that holds
   * the end token ends the cycle after one request, whatever the completion
   * holds.
   */
  lemma EndTokenStopsCycle(g: GConfig, s: Snap)
    requires s.prompt.Some? && s.script != []
    requires NextUtterance(g.base, s).0.prompt.None?
    ensures var (r, f) := Cycle(g, s);
      f.None? && r.prompt.None? && r.sent == NextUtterance(g.base, s).0.sent && r.script == s.script[1..]
  {
    var (s1, r) := NextUtterance(g.base, s);
    assert Cycle(g, s) == Handle(g, s1, r.value);
  }

  /**
   * Errors become the result: a payload `json.loads` refuses gives a Backend
   * turn that reports it with its repr, and the cycle goes on.
   */
  lemma MalformedCommandReported(g: GConfig, s: Snap, commandJson: string)
    requires s.prompt.Some? && Loads(g.decode, commandJson).None?
    ensures Answer(g, s, commandJson)
         == Cycle(g, AddTurn(s, BackendName, "(To AI) " + ("Malformed JSON received: " + PyRepr(commandJson))))
  {
    InvokeMalformed(g.registry, g.decode, commandJson);
    assert InvokeText(g, commandJson) == "Malformed JSON received: " + PyRepr(commandJson);
  }

  /**
   * Once `look_up` is registered, a `look_up` command with an object of
   * parameters is answered by the look-up function itself.
   */
  lemma LookUpAnswers(registry: Dict<RegistryEntry>, answer: Dict<Json> -> Result<string, string>,
                      members: Dict<Json>, params: Dict<Json>)
    requires Get(members, "command") == Some(JStr("look_up")) && Get(members, "params") == Some(JObj(params))
    ensures InvokeDecoded(Put(registry, "look_up", LookUpEntry(answer)), JObj(members)) == answer(params)
  {
    var r := Put(registry, "look_up", LookUpEntry(answer));
    PutGet(registry, "look_up", LookUpEntry(answer));
    InvokeDispatches(r, members, "look_up", params);
  }

  // ---------------------------------------------------------------- the class

  /**
   * Lines 49-81 without the prompt template: `look_up` is registered in the
   * shared registry, the base part gets the GRACE names and the default end
   * token, and the backend's stop follows the name stops.
   */
  method NewGraceChatbot(initialPrompt: string, script: seq<string>, backend: Router,
                         answer: Dict<Json> -> Result<string, string>, decoder: RawDecoder)
      returns (g: GraceChatbot)
    modifies backend.registry
    ensures fresh(g) && fresh(g.chat) && g.backend == backend && g.chat.initialPrompt == initialPrompt
    ensures g.chat.Snapshot() == Snap(None, script, [], [])
    ensures g.Cfg() == GConfig(Config(GraceNames, DefaultEndToken, GraceStops()),
                               Put(old(backend.registry.entries), "look_up", LookUpEntry(answer)), decoder)
  {
    var _ := backend.Command("look up a question", [JStr("What are your opening hours?")], LookUp(answer));
    g := AssembleGrace(initialPrompt, script, backend, decoder);
  }

  /** Lines 73-81: the base part with the GRACE names, the backend's name added to its stop list. */
  method AssembleGrace(initialPrompt: string, script: seq<string>, backend: Router, decoder: RawDecoder)
      returns (g: GraceChatbot)
    ensures fresh(g) && fresh(g.chat) && g.backend == backend && g.chat.initialPrompt == initialPrompt
    ensures g.chat.Snapshot() == Snap(None, script, [], [])
    ensures g.Cfg() == GConfig(Config(GraceNames, DefaultEndToken, GraceStops()), backend.registry.entries, decoder)
  {
    var c := new Chatbot(initialPrompt, script, GraceNames, DefaultEndToken);
    c.stop := c.stop + [BackendName + ":"];
    g := new GraceChatbot(c, backend, decoder);
  }

  class GraceChatbot {
    /** The base-class part of the object. */
    const chat: Chatbot
    const backend: Router
    /** `json.loads` as `invoke` uses it. */
    const decoder: RawDecoder

    function Cfg(): GConfig
      reads this, chat, backend.registry
    {
      GConfig(chat.Cfg(), backend.registry.entries, decoder)
    }

    /** The object from its parts; `NewGraceChatbot` builds them as the constructor of lines 41-81 does. */
    constructor(chat: Chatbot, backend: Router, decoder: RawDecoder)
      ensures this.chat == chat && this.backend == backend && this.decoder == decoder
    {
      this.chat := chat;
      this.backend := backend;
      this.decoder := decoder;
    }

    method SendResponses(responses: seq<string>) returns (fault: Option<Fault>)
      modifies chat`prompt, chat`script, chat`sent, chat`events
      ensures (chat.Snapshot(), fault) == Round(Cfg(), old(chat.Snapshot()), responses)
    {
      fault := chat.AcceptResponses(responses);
      if fault.Some? {
        return;
      }
      fault := GetAllUtterances();
    }

    method GetAllUtterances() returns (fault: Option<Fault>)
      requires chat.prompt.Some?
      modifies chat`prompt, chat`script, chat`sent, chat`events
      ensures (chat.Snapshot(), fault) == Cycle(Cfg(), old(chat.Snapshot()))
      decreases 4 * |chat.script|
    {
      ghost var g := Cfg();
      var r := chat.GetNextUtterance();
      assert Cfg() == g;
      if r.Err? {
        return Some(r.error);
      }
      ghost var s1 := chat.Snapshot();
      assert Cycle(g, old(chat.Snapshot())) == Handle(g, s1, r.value);
      fault := HandleUtterance(r.value);
    }

    /** Lines 86-97 and the command that follows, for the utterance `u`. */
    method HandleUtterance(u: string) returns (fault: Option<Fault>)
      modifies chat`prompt, chat`script, chat`sent, chat`events
      ensures (chat.Snapshot(), fault) == Handle(Cfg(), old(chat.Snapshot()), u)
      decreases 4 * |chat.script| + 3
    {
      var m := SplitAtBlock(u);
      var utterance := Strip(m.before);
      var commandJson := m.payload.GetOr("");
      if utterance != "" {
        chat.Say(utterance);
      }
      chat.ContinuePrompt(m.whole);
      if commandJson == "" {
        return None;
      }
      fault := RespondToCommand(commandJson);
    }

    /** Lines 98-109: the command, the Backend turn and the next cycle. */
    method RespondToCommand(commandJson: string) returns (fault: Option<Fault>)
      modifies chat`prompt, chat`script, chat`sent, chat`events
      ensures (chat.Snapshot(), fault) == Answer(Cfg(), old(chat.Snapshot()), commandJson)
      decreases 4 * |chat.script| + 2
    {
      var result := InvokeCommand(commandJson);
      if chat.prompt.None? {
        return None;
      }
      fault := AnswerCommand(result);
    }

    /** Lines 107-109: the result as a Backend turn, then the next cycle. */
    method AnswerCommand(result: string) returns (fault: Option<Fault>)
      requires chat.prompt.Some?
      modifies chat`prompt, chat`script, chat`sent, chat`events
      ensures (chat.Snapshot(), fault) == Cycle(Cfg(), AddTurn(old(chat.Snapshot()), BackendName, "(To AI) " + result))
      decreases 4 * |chat.script| + 1
    {
      chat.AddResponse(BackendName, "(To AI) " + result);
      fault := GetAllUtterances();
    }

    /** Lines 100-105: `self.backend.invoke(command_json)`, with the text of what it raises as the result. */
    method InvokeCommand(commandJson: string) returns (result: string)
      ensures result == InvokeText(Cfg(), commandJson)
    {
      var invoked := Invoke(backend.registry.entries, decoder, commandJson);
      if invoked.Ok? {
        result := invoked.value;
      } else {
        result := invoked.error;
      }
    }
  }
}

/**
 * `chatbot.py`: the older base chatbot. A session is active while the prompt
 * is a string; `start_session` sets it to the initial prompt, and an end
 * token in a completion sets it back to None. Every completion request first
 * appends the model's cue to the prompt; the utterance then follows after a
 * space.
 *
 * The class `Chatbot` holds the fields the Python object updates; each method
 * is proved equal to a function on a snapshot of those fields, and the
 * properties of the module are lemmas about those functions. The subclasses
 * in `horace_chatbot.py` and `grace_chatbot.py` hold such an object and
 * replace `GetAllUtterances`.
 */
module LegacyChatbot {
  import opened Base
  import opened PyStr
  import opened Session

  /** `max_tokens` of every completion request. */
  const MaxTokens: nat := 150

  /** The defaults of `names` and `end_token`. */
  const DefaultNames: Names := ["AI", "Human"]
  const DefaultEndToken := "END"

  /** The fields an operation may change; `prompt` is None outside a session. */
  datatype Snap = Snap(prompt: Option<string>, script: seq<string>, sent: seq<CompletionRequest>, events: seq<Event>)

  /** The fields fixed at construction (subclasses extend `stop` in their constructors). */
  datatype Config = Config(names: Names, endToken: string, stop: seq<string>)

  /** A call of the output callback. */
  function Say(s: Snap, text: string): Snap {
    s.(events := s.events + [Said(text, false)])
  }

  /** `output_callback(text)` for a non-empty text. */
  function Show(s: Snap, text: string): (r: Snap)
    ensures r.prompt == s.prompt && r.script == s.script && r.sent == s.sent
    ensures r.events == s.events + (if text != "" then [Said(text, false)] else [])
  {
    if text != "" then Say(s, text) else s
  }

  /** While there is a transcript, the text is appended to it after one space. */
  function Continue(s: Snap, text: string): (r: Snap)
    ensures r.script == s.script && r.sent == s.sent && r.events == s.events
    ensures r.prompt.Some? <==> s.prompt.Some?
  {
    if s.prompt.Some? then s.(prompt := Some(s.prompt.value + " " + text)) else s
  }

  /** `_add_response(name, text)` */
  function AddTurn(s: Snap, name: string, text: string): Snap
    requires s.prompt.Some?
  {
    s.(prompt := Some(s.prompt.value + Turn(name, text)))
  }

  /** `_get_next_utterance()`; the backend raises once its script is used up. */
  function NextUtterance(c: Config, s: Snap): (r: (Snap, Result<string, Fault>))
    requires s.prompt.Some?
    ensures r.0.events == s.events
    ensures r.1.Ok? ==> s.script != [] && r.0.script == s.script[1..]
    ensures r.1.Err? ==> s.script == [] && r.1.error == BackendFailed && r.0.prompt.Some?
  {
    var p := s.prompt.value + Cue(c.names[0]);
    var s1 := s.(prompt := Some(p), sent := s.sent + [CompletionRequest(p, MaxTokens, c.stop, None)]);
    if s.script == [] then (s1, Err(BackendFailed))
    else
      var (u, ended) := CutAtEndToken(Strip(s.script[0]), c.endToken);
      (s1.(script := s.script[1..], prompt := if ended then None else Some(p)), Ok(u))
  }

  /**
   * Each request first appends the model's cue to the prompt and sends all of
   * it. The session ends exactly when the token occurs in the stripped
   * completion; then the utterance is the stripped text before its first
   * occurrence, and otherwise it is the stripped completion and the cue stays
   * in the prompt.
   */
  lemma NextUtteranceCue(c: Config, s: Snap)
    requires s.prompt.Some? && s.script != []
    ensures var (r, u) := NextUtterance(c, s);
      var raw := Strip(s.script[0]);
      && u.Ok?
      && r.sent == s.sent + [CompletionRequest(s.prompt.value + Cue(c.names[0]), MaxTokens, c.stop, None)]
      && (r.prompt.None? <==> exists k :: OccursAt(raw, c.endToken, k))
      && (r.prompt.Some? ==> r.prompt.value == s.prompt.value + Cue(c.names[0]) && u.value == raw)
      && (r.prompt.None? ==>
            exists k :: && OccursAt(raw, c.endToken, k) && u.value == Strip(raw[..k])
                        && forall j :: 0 <= j < k ==> !OccursAt(raw, c.endToken, j))
  {
    CutAtFirstOccurrence(Strip(s.script[0]), c.endToken);
  }

  /** The utterance `_get_next_utterance` returns is stripped: no whitespace at either end. */
  lemma UtteranceStripped(c: Config, s: Snap)
    requires s.prompt.Some? && s.script != []
    ensures NoEdgeSpace(NextUtterance(c, s).1.value)
  {
    var raw := Strip(s.script[0]);
    StripIsSlice(s.script[0]);
    var (u, ended) := CutAtEndToken(raw, c.endToken);
    if ended {
      StripIsSlice(raw[..Find(raw, c.endToken)]);
    }
  }

  /** The base `_get_all_utterances`: one completion, shown if non-empty, then appended while the session lasts. */
  function Reply(c: Config, s: Snap): (Snap, Option<Fault>)
    requires s.prompt.Some?
  {
    var (s1, r) := NextUtterance(c, s);
    match r
    case Err(f) => (s1, Some(f))
    case Ok(u) => (Continue(Show(s1, u), u), None)
  }

  /** `send_responses` up to the reply (lines 31-35): the check for a session, then the user turns. */
  function Accept(c: Config, s: Snap, rs: seq<string>): (r: (Snap, Option<Fault>))
    ensures r.1.None? <==> r.0.prompt.Some?
  {
    if s.prompt.None? then (s, Some(SessionNotActive))
    else (s.(prompt := Some(s.prompt.value + Responses(c.names[1], rs))), None)
  }

  /** `send_responses` of the base class. */
  function SendRound(c: Config, s: Snap, rs: seq<string>): (Snap, Option<Fault>) {
    var (s1, f) := Accept(c, s, rs);
    if f.Some? then (s1, f) else Reply(c, s1)
  }

  /** `start_session(responses)` */
  function StartRound(c: Config, initialPrompt: string, s: Snap, rs: seq<string>): (Snap, Option<Fault>) {
    SendRound(c, s.(prompt := Some(initialPrompt)), rs)
  }

  /** Without a session the call raises and changes nothing. */
  lemma InactiveRaises(c: Config, s: Snap, rs: seq<string>)
    requires s.prompt.None?
    ensures SendRound(c, s, rs) == (s, Some(SessionNotActive))
  {
  }

  /**
   * A round without the end token: the stripped responses become user turns,
   * then the cue and the utterance follow after a space, and the callback
   * hears the utterance only when it is non-empty.
   */
  lemma RoundContinues(c: Config, s: Snap, rs: seq<string>)
    requires s.prompt.Some? && s.script != []
    requires !CutAtEndToken(Strip(s.script[0]), c.endToken).1
    ensures var (r, f) := SendRound(c, s, rs);
      var u := Strip(s.script[0]);
      var p := s.prompt.value + Responses(c.names[1], rs) + Cue(c.names[0]);
      && f.None?
      && r.prompt == Some(p + " " + u)
      && r.sent == s.sent + [CompletionRequest(p, MaxTokens, c.stop, None)]
      && r.script == s.script[1..]
      && r.events == s.events + (if u != "" then [Said(u, false)] else [])
  {
  }

  /**
   * A round whose completion holds the end token ends the session: the prompt
   * becomes None, and the callback still hears the cut utterance if it is
   * non-empty.
   */
  lemma RoundEnds(c: Config, s: Snap, rs: seq<string>)
    requires s.prompt.Some? && s.script != []
    requires CutAtEndToken(Strip(s.script[0]), c.endToken).1
    ensures var (r, f) := SendRound(c, s, rs);
      var u := CutAtEndToken(Strip(s.script[0]), c.endToken).0;
      && f.None? && r.prompt.None?
      && r.events == s.events + (if u != "" then [Said(u, false)] else [])
  {
  }

  /**
   * `"".find` finds the empty token at index 0, so with an empty end token
   * every successful round ends the session with an empty, unshown utterance.
   */
  lemma EmptyEndTokenEndsAtOnce(c: Config, s: Snap, rs: seq<string>)
    requires c.endToken == "" && s.prompt.Some? && s.script != []
    ensures var (r, f) := SendRound(c, s, rs);
      f.None? && r.prompt.None? && r.events == s.events
  {
    var raw := Strip(s.script[0]);
    assert OccursAt(raw, "", 0);
    assert CutAtEndToken(raw, "") == ("", true);
  }

  /** `start_session` never finds the session inactive, and what it does does not depend on the old prompt. */
  lemma StartResets(c: Config, initialPrompt: string, s: Snap, other: Option<string>, rs: seq<string>)
    ensures StartRound(c, initialPrompt, s, rs).1 != Some(SessionNotActive)
    ensures StartRound(c, initialPrompt, s, rs) == StartRound(c, initialPrompt, s.(prompt := other), rs)
  {
  }

  class Chatbot {
    var prompt: Option<string>
    const initialPrompt: string
    const names: Names
    const endToken: string
    var stop: seq<string>
    /** The completions the backend will return, in order. */
    var script: seq<string>
    /** The completion requests made so far. */
    var sent: seq<CompletionRequest>
    /** The callback calls made so far. */
    var events: seq<Event>

    function Snapshot(): Snap
      reads this`prompt, this`script, this`sent, this`events
    {
      Snap(prompt, script, sent, events)
    }

    function Cfg(): Config
      reads this`stop
    {
      Config(names, endToken, stop)
    }

    /** `is_session_active()` */
    predicate IsSessionActive()
      reads this`prompt
    {
      prompt.Some?
    }

    /** A new chatbot has no session yet; its stop list is each name followed by a colon. */
    constructor(initialPrompt: string, script: seq<string>, names: Names, endToken: string)
      ensures this.initialPrompt == initialPrompt && !IsSessionActive()
      ensures Snapshot() == Snap(None, script, [], [])
      ensures Cfg() == Config(names, endToken, StopList(names))
    {
      this.initialPrompt := initialPrompt;
      this.script := script;
      this.names := names;
      this.endToken := endToken;
      this.prompt := None;
      this.stop := StopList(names);
      this.sent := [];
      this.events := [];
    }

    /** A call of the output callback. */
    method Say(text: string)
      modifies this`events
      ensures events == old(events) + [Said(text, false)]
    {
      events := events + [Said(text, false)];
    }

    method StartSession(responses: seq<string>) returns (fault: Option<Fault>)
      modifies this`prompt, this`script, this`sent, this`events
      ensures (Snapshot(), fault) == StartRound(Cfg(), initialPrompt, old(Snapshot()), responses)
    {
      prompt := Some(initialPrompt);
      fault := SendResponses(responses);
    }

    method SendResponses(responses: seq<string>) returns (fault: Option<Fault>)
      modifies this`prompt, this`script, this`sent, this`events
      ensures (Snapshot(), fault) == SendRound(Cfg(), old(Snapshot()), responses)
    {
      fault := AcceptResponses(responses);
      if fault.Some? {
        return;
      }
      fault := GetAllUtterances();
    }

    /** Lines 31-35 of `send_responses`: the check for a session and the user turns. */
    method AcceptResponses(responses: seq<string>) returns (fault: Option<Fault>)
      modifies this`prompt
      ensures (Snapshot(), fault) == Accept(Cfg(), old(Snapshot()), responses)
    {
      if prompt.None? {
        return Some(SessionNotActive);
      }
      ghost var start := prompt.value;
      assert responses[..0] == [];
      for i := 0 to |responses|
        invariant prompt.Some? && prompt.value == start + Responses(names[1], responses[..i])
      {
        assert responses[..i + 1][..i] == responses[..i];
        AddResponse(names[1], Strip(responses[i]));
      }
      assert responses[..|responses|] == responses;
      return None;
    }

    /** `_add_response`: the old prompt is kept and exactly one turn follows it. */
    method AddResponse(name: string, response: string)
      requires prompt.Some?
      modifies this`prompt
      ensures prompt == Some(old(prompt).value + Turn(name, response))
    {
      prompt := Some(prompt.value + Turn(name, response));
    }

    /** While the session lasts, the text is appended to the transcript after one space. */
    method ContinuePrompt(text: string)
      modifies this`prompt
      ensures Snapshot() == Continue(old(Snapshot()), text)
    {
      if prompt.Some? {
        prompt := Some(prompt.value + " " + text);
      }
    }

    method GetAllUtterances() returns (fault: Option<Fault>)
      requires prompt.Some?
      modifies this`prompt, this`script, this`sent, this`events
      ensures (Snapshot(), fault) == Reply(Cfg(), old(Snapshot()))
    {
      var r := GetNextUtterance();
      if r.Err? {
        return Some(r.error);
      }
      var utterance := r.value;
      if utterance != "" {
        Say(utterance);
      }
      ContinuePrompt(utterance);
      return None;
    }

    method GetNextUtterance() returns (r: Result<string, Fault>)
      requires prompt.Some?
      modifies this`prompt, this`script, this`sent
      ensures (Snapshot(), r) == NextUtterance(Cfg(), old(Snapshot()))
    {
      prompt := Some(prompt.value + Cue(names[0]));
      sent := sent + [CompletionRequest(prompt.value, MaxTokens, stop, None)];
      if script == [] {
        return Err(BackendFailed);
      }
      var completion := script[0];
      script := script[1..];
      var utterance := Strip(completion);
      var endTokenPos := Find(utterance, endToken);
      if endTokenPos != -1 {
        utterance := Strip(utterance[..endTokenPos]);
        prompt := None;
      }
      return Ok(utterance);
    }
  }
}

/**
 * The state machine of `app/chatbot.py`: a transcript that only grows, three
 * states (only two of which it can reach), and one completion per batch of
 * user responses.
 *
 * The class `Chatbot` holds the fields the Python object updates; each of its
 * methods is proved equal to a function on a snapshot of those fields, and
 * the properties the module promises are lemmas about those functions.
 */
module AppChatbot {
  import opened Base
  import opened PyStr
  import opened Session

  /** `max_tokens` of every completion request. */
  const MaxTokens: nat := 750

  /** The fields a chatbot operation may change. */
  datatype Snap = Snap(prompt: string, state: State, script: seq<string>, sent: seq<CompletionRequest>, events: seq<Event>)

  /** The fields fixed at construction (`stop` is assignable, but only subclasses extend it). */
  datatype Config = Config(names: Names, endToken: Option<string>, temperature: Temperature, stop: seq<string>, notifyState: bool)

  function Say(s: Snap, text: string, isSystem: bool): Snap {
    s.(events := s.events + [Said(text, isSystem)])
  }

  function AddTurn(s: Snap, name: string, text: string): Snap {
    s.(prompt := s.prompt + Turn(name, text))
  }

  /** The events the state callback sees for one `_set_state(st)`: none when there is no callback. */
  function StateEvents(c: Config, st: State): seq<Event> {
    if c.notifyState then [StateSet(st)] else []
  }

  /** `_set_state` */
  function StateSetTo(c: Config, s: Snap, st: State): (r: Snap)
    ensures r.state == st && r.prompt == s.prompt && r.script == s.script && r.sent == s.sent
    ensures r.events == s.events + StateEvents(c, st)
  {
    s.(state := st, events := s.events + StateEvents(c, st))
  }

  /** `_get_next_utterance(temperature)` */
  function NextUtterance(c: Config, s: Snap, temperature: Temperature): (r: (Snap, Result<string, Fault>))
    ensures r.0.prompt == s.prompt && r.0.state == s.state && r.0.events == s.events
    ensures r.0.sent == s.sent + [CompletionRequest(s.prompt + Cue(c.names[0]), MaxTokens, c.stop, temperature)]
    ensures r.0.script == (if s.script == [] then [] else s.script[1..])
    ensures r.1.Ok? ==> s.script != [] && r.1.value == Strip(s.script[0])
    ensures r.1.Err? ==> r.1.error == BackendFailed || r.1.error == StateHasNoSetter
  {
    var s1 := s.(sent := s.sent + [CompletionRequest(s.prompt + Cue(c.names[0]), MaxTokens, c.stop, temperature)]);
    if s.script == [] then (s1, Err(BackendFailed))
    else
      var s2 := s1.(script := s.script[1..]);
      var u := Strip(s.script[0]);
      if c.endToken.Some? && c.endToken.value != "" && CutAtEndToken(u, c.endToken.value).1 then
        // the cut utterance is computed, then the assignment to the read-only property raises
        (s2, Err(StateHasNoSetter))
      else (s2, Ok(u))
  }

  /** The base `_get_all_utterances`: one completion, shown if non-empty, always recorded. */
  function Reply(c: Config, s: Snap): (Snap, Option<Fault>) {
    var (s1, r) := NextUtterance(c, s, c.temperature);
    match r
    case Err(f) => (s1, Some(f))
    case Ok(u) =>
      var s2 := if u != "" then Say(s1, u, false) else s1;
      (AddTurn(s2, c.names[0], u), None)
  }

  /** `send_responses` up to the point where the subclass's reply cycle takes over (lines 45-52). */
  function Accept(c: Config, s: Snap, rs: seq<string>): (Snap, Option<Fault>) {
    if s.state != Listening then (s, Some(WrongState(s.state)))
    else (StateSetTo(c, s.(prompt := s.prompt + Responses(c.names[1], rs)), Replying), None)
  }

  /** `send_responses` after the reply cycle (line 54). */
  function Finish(c: Config, s: Snap): Snap {
    StateSetTo(c, s, Listening)
  }

  /** `send_responses` of the base class. */
  function SendRound(c: Config, s: Snap, rs: seq<string>): (Snap, Option<Fault>) {
    var (s1, f1) := Accept(c, s, rs);
    if f1.Some? then (s1, f1)
    else
      var (s2, f2) := Reply(c, s1);
      if f2.Some? then (s2, f2) else (Finish(c, s2), None)
  }

  /** Outside the listening state the call raises and changes neither the transcript nor the state. */
  lemma WrongStateChangesNothing(c: Config, s: Snap, rs: seq<string>)
    requires s.state != Listening
    ensures SendRound(c, s, rs) == (s, Some(WrongState(s.state)))
  {
  }

  /**
   * A successful call: the responses are recorded before the one completion is
   * requested, the state goes listening, replying, listening, and the state
   * callback hears replying and then listening around the utterance callback.
   */
  lemma SendResponsesRound(c: Config, s: Snap, rs: seq<string>)
    requires s.state == Listening && s.script != []
    requires c.endToken.None? || c.endToken.value == "" || !CutAtEndToken(Strip(s.script[0]), c.endToken.value).1
    ensures var (r, f) := SendRound(c, s, rs);
      var u := Strip(s.script[0]);
      && f.None?
      && r.state == Listening
      && r.prompt == s.prompt + Responses(c.names[1], rs) + Turn(c.names[0], u)
      && r.sent == s.sent + [CompletionRequest(s.prompt + Responses(c.names[1], rs) + Cue(c.names[0]), MaxTokens, c.stop, c.temperature)]
      && r.script == s.script[1..]
      && r.events == s.events + StateEvents(c, Replying) + (if u != "" then [Said(u, false)] else []) + StateEvents(c, Listening)
  {
  }

  /**
   * An end token in the completion makes the call raise (the assignment to the
   * read-only `state` property fails): the state stays replying, the user
   * turns stay recorded and no utterance is recorded or shown.
   */
  lemma EndTokenRaises(c: Config, s: Snap, rs: seq<string>)
    requires s.state == Listening && s.script != []
    requires c.endToken.Some? && c.endToken.value != "" && CutAtEndToken(Strip(s.script[0]), c.endToken.value).1
    ensures var (r, f) := SendRound(c, s, rs);
      && f == Some(StateHasNoSetter)
      && r.state == Replying
      && r.prompt == s.prompt + Responses(c.names[1], rs)
      && r.events == s.events + StateEvents(c, Replying)
  {
  }

  /** The transcript only grows, whatever the outcome. */
  lemma TranscriptGrows(c: Config, s: Snap, rs: seq<string>)
    ensures var r := SendRound(c, s, rs).0;
      |s.prompt| <= |r.prompt| && r.prompt[..|s.prompt|] == s.prompt
  {
    var r := SendRound(c, s, rs).0;
    if s.state == Listening {
      var p1 := s.prompt + Responses(c.names[1], rs);
      assert p1[..|s.prompt|] == s.prompt;
      if r.prompt != p1 {
        assert r.prompt[..|p1|] == p1;
      }
    }
  }

  /** The base reply records the stripped utterance as a model turn and shows it only when non-empty. */
  lemma ReplyRecordsAlways(c: Config, s: Snap)
    requires s.script != []
    requires c.endToken.None? || c.endToken.value == "" || !CutAtEndToken(Strip(s.script[0]), c.endToken.value).1
    ensures var (r, f) := Reply(c, s);
      var u := Strip(s.script[0]);
      && f.None? && r.state == s.state
      && r.prompt == s.prompt + Turn(c.names[0], u)
      && (u == "" <==> r.events == s.events)
      && (u != "" ==> r.events == s.events + [Said(u, false)])
  {
  }

  class Chatbot {
    var prompt: string
    var state: State
    const names: Names
    const endToken: Option<string>
    const temperature: Temperature
    /** Whether a state callback was given. */
    const notifyState: bool
    var stop: seq<string>
    /** The completions the backend will return, in order. */
    var script: seq<string>
    /** The completion requests made so far. */
    var sent: seq<CompletionRequest>
    /** The callback calls made so far. */
    var events: seq<Event>

    function Snapshot(): Snap
      reads this
    {
      Snap(prompt, state, script, sent, events)
    }

    function Cfg(): Config
      reads this
    {
      Config(names, endToken, temperature, stop, notifyState)
    }

    constructor(initialPrompt: string, script: seq<string>, notifyState: bool,
                names: Names, endToken: Option<string>, temperature: Temperature)
      ensures Snapshot() == Snap(initialPrompt, Listening, script, [], [])
      ensures Cfg() == Config(names, endToken, temperature, StopList(names), notifyState)
    {
      this.prompt := initialPrompt;
      this.script := script;
      this.notifyState := notifyState;
      this.names := names;
      this.endToken := endToken;
      this.temperature := temperature;
      this.stop := StopList(names);
      this.state := Listening;
      this.sent := [];
      this.events := [];
    }

    /** A call of the utterance callback. */
    method Say(text: string, isSystem: bool)
      modifies this`events
      ensures events == old(events) + [Said(text, isSystem)]
    {
      events := events + [Said(text, isSystem)];
    }

    method SetState(st: State)
      modifies this`state, this`events
      ensures Snapshot() == StateSetTo(Cfg(), old(Snapshot()), st)
    {
      state := st;
      if notifyState {
        events := events + [StateSet(st)];
      }
    }

    /** `_add_response`: the old transcript is kept and exactly one turn follows it. */
    method AddResponse(name: string, response: string)
      modifies this`prompt
      ensures prompt == old(prompt) + Turn(name, response)
      ensures |old(prompt)| <= |prompt| && prompt[..|old(prompt)|] == old(prompt)
    {
      prompt := prompt + "\n" + name + ": " + response;
    }

    method GetNextUtterance(temperature: Temperature) returns (r: Result<string, Fault>)
      modifies this`script, this`sent
      ensures (Snapshot(), r) == NextUtterance(Cfg(), old(Snapshot()), temperature)
    {
      sent := sent + [CompletionRequest(prompt + Cue(names[0]), MaxTokens, stop, temperature)];
      if script == [] {
        return Err(BackendFailed);
      }
      var completion := script[0];
      script := script[1..];
      var utterance := Strip(completion);
      if endToken.Some? && endToken.value != "" {
        var endTokenPos := Find(utterance, endToken.value);
        if endTokenPos != -1 {
          utterance := Strip(utterance[..endTokenPos]);
          return Err(StateHasNoSetter);
        }
      }
      return Ok(utterance);
    }

    method GetAllUtterances() returns (fault: Option<Fault>)
      modifies this`prompt, this`script, this`sent, this`events
      ensures (Snapshot(), fault) == Reply(Cfg(), old(Snapshot()))
    {
      var r := GetNextUtterance(temperature);
      if r.Err? {
        return Some(r.error);
      }
      var utterance := r.value;
      if utterance != "" {
        Say(utterance, false);
      }
      AddResponse(names[0], utterance);
      return None;
    }

    /** Lines 45-52 of `send_responses`: the state check, the user turns, the move to replying. */
    method AcceptResponses(responses: seq<string>) returns (fault: Option<Fault>)
      modifies this`prompt, this`state, this`events
      ensures (Snapshot(), fault) == Accept(Cfg(), old(Snapshot()), responses)
    {
      if state != Listening {
        return Some(WrongState(state));
      }
      for i := 0 to |responses|
        invariant prompt == old(prompt) + Responses(names[1], responses[..i])
        invariant state == old(state) && events == old(events)
      {
        assert responses[..i + 1][..i] == responses[..i];
        AddResponse(names[1], Strip(responses[i]));
      }
      assert responses[..|responses|] == responses;
      SetState(Replying);
      return None;
    }

    /** Line 54 of `send_responses`. */
    method FinishReply()
      modifies this`state, this`events
      ensures Snapshot() == Finish(Cfg(), old(Snapshot()))
    {
      SetState(Listening);
    }

    method SendResponses(responses: seq<string>) returns (fault: Option<Fault>)
      modifies this`prompt, this`state, this`script, this`sent, this`events
      ensures (Snapshot(), fault) == SendRound(Cfg(), old(Snapshot()), responses)
    {
      fault := AcceptResponses(responses);
      if fault.Some? {
        return;
      }
      fault := GetAllUtterances();
      if fault.Some? {
        return;
      }
      FinishReply();
    }
  }
}

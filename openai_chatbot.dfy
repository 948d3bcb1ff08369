/**
 * `openai_chatbot.py`: the earliest chatbot. It calls the completion API
 * directly, one response at a time, and keeps no state but the prompt: the
 * session has ended exactly when the prompt is the empty string, which it is
 * before `start_session` and again after an end token.
 */
module LegacyOpenAI {
  import opened Base
  import opened PyStr
  import opened Session

  const DefaultEngine := "text-davinci-003"

  /** The sampling temperature of every request. */
  const SamplingTemperature: real := 0.7

  /** One call of `openai.Completion.create`, with the arguments it was given. */
  datatype CreateRequest = CreateRequest(engine: string, prompt: string, stop: seq<string>, temperature: real)

  /** The fields an operation may change; the script holds the `choices[0]["text"]` of each completion. */
  datatype Snap = Snap(prompt: string, script: seq<string>, sent: seq<CreateRequest>)

  /** The fields fixed at construction. */
  datatype Config = Config(names: Names, endToken: string, engine: string, stop: seq<string>,
                           initialPrompt: string, firstUtterance: string)

  /** `not self.prompt` */
  predicate Ended(s: Snap) {
    s.prompt == ""
  }

  /** `start_session()`: the prompt becomes the initial prompt and the model's first turn, which is returned. */
  function Start(c: Config, s: Snap): (r: (Snap, string))
    ensures r.0.prompt == c.initialPrompt + "\n\n" + c.names[0] + ": " + c.firstUtterance
    ensures r.0.script == s.script && r.0.sent == s.sent && r.1 == c.firstUtterance
    ensures !Ended(r.0)
  {
    var p := c.initialPrompt + "\n\n" + c.names[0] + ": " + c.firstUtterance;
    assert p[|c.initialPrompt|] == '\n';
    (s.(prompt := p), c.firstUtterance)
  }

  /** `send_response(response)`; the API raises once its script is used up. */
  function Respond(c: Config, s: Snap, response: string): (r: (Snap, Result<string, Fault>))
    ensures r.1.Err? <==> s.script == []
    ensures r.1.Err? ==> r.1.error == BackendFailed
  {
    var p := s.prompt + Turn(c.names[1], Strip(response)) + Cue(c.names[0]);
    var s1 := s.(prompt := p, sent := s.sent + [CreateRequest(c.engine, p, c.stop, SamplingTemperature)]);
    if s.script == [] then (s1, Err(BackendFailed))
    else
      var (u, ended) := CutAtEndToken(Strip(s.script[0]), c.endToken);
      (s1.(script := s.script[1..], prompt := if ended then "" else p + " " + u), Ok(u))
  }

  /**
   * The user turn and the model's cue are appended before the request, and
   * the request carries all of the prompt. Without the end token the
   * stripped completion follows after a space.
   */
  lemma RespondAppends(c: Config, s: Snap, response: string)
    requires s.script != []
    ensures var (r, u) := Respond(c, s, response);
      var p := s.prompt + "\n" + c.names[1] + ": " + Strip(response) + "\n" + c.names[0] + ":";
      var raw := Strip(s.script[0]);
      && r.sent == s.sent + [CreateRequest(c.engine, p, c.stop, SamplingTemperature)]
      && r.script == s.script[1..]
      && (!CutAtEndToken(raw, c.endToken).1 ==> u == Ok(raw) && r.prompt == p + " " + raw)
  {
    var t := Strip(response);
    calc {
      s.prompt + Turn(c.names[1], t) + Cue(c.names[0]);
      s.prompt + ("\n" + c.names[1] + ": " + t) + ("\n" + c.names[0] + ":");
      s.prompt + "\n" + c.names[1] + ": " + t + "\n" + c.names[0] + ":";
    }
  }

  /**
   * The session ends exactly when the end token occurs in the stripped
   * completion, and then the reply is the stripped text before its first
   * occurrence.
   */
  lemma RespondEndsIffToken(c: Config, s: Snap, response: string)
    requires s.script != []
    ensures var (r, u) := Respond(c, s, response);
      var raw := Strip(s.script[0]);
      && (Ended(r) <==> exists k :: OccursAt(raw, c.endToken, k))
      && (Ended(r) ==>
            exists k :: && OccursAt(raw, c.endToken, k) && u == Ok(Strip(raw[..k]))
                        && forall j :: 0 <= j < k ==> !OccursAt(raw, c.endToken, j))
  {
    var raw := Strip(s.script[0]);
    CutAtFirstOccurrence(raw, c.endToken);
    var p := s.prompt + Turn(c.names[1], Strip(response)) + Cue(c.names[0]);
    assert |p| > 0 by {
      assert |Cue(c.names[0])| > 0;
    }
    var (r, u) := Respond(c, s, response);
    var (v, ended) := CutAtEndToken(raw, c.endToken);
    assert u == Ok(v);
    assert r.prompt == if ended then "" else p + " " + v;
    assert Ended(r) <==> ended;
  }

  /**
   * Nothing stops a call after the session has ended: the new transcript is
   * the user turn and the cue alone, without the initial prompt.
   */
  lemma RespondAfterEndStartsBlank(c: Config, s: Snap, response: string)
    requires Ended(s)
    ensures Respond(c, s, response).0.sent
         == s.sent + [CreateRequest(c.engine, Turn(c.names[1], Strip(response)) + Cue(c.names[0]), c.stop, SamplingTemperature)]
  {
    assert s.prompt + Turn(c.names[1], Strip(response)) == Turn(c.names[1], Strip(response));
  }

  class OpenAIChatbot {
    var prompt: string
    const initialPrompt: string
    const firstUtterance: string
    const names: Names
    const endToken: string
    const engine: string
    var stop: seq<string>
    /** The completions the API will return, in order. */
    var script: seq<string>
    /** The API calls made so far. */
    var sent: seq<CreateRequest>

    function Snapshot(): Snap
      reads this
    {
      Snap(prompt, script, sent)
    }

    function Cfg(): Config
      reads this
    {
      Config(names, endToken, engine, stop, initialPrompt, firstUtterance)
    }

    /** `session_ended()` */
    predicate SessionEnded()
      reads this
    {
      prompt == ""
    }

    /** A new chatbot counts as ended; its stop list is each name followed by a colon. */
    constructor(initialPrompt: string, firstUtterance: string, script: seq<string>,
                names: Names, endToken: string, engine: string)
      ensures SessionEnded() && Snapshot() == Snap("", script, [])
      ensures Cfg() == Config(names, endToken, engine, StopList(names), initialPrompt, firstUtterance)
    {
      this.initialPrompt := initialPrompt;
      this.firstUtterance := firstUtterance;
      this.names := names;
      this.endToken := endToken;
      this.engine := engine;
      this.script := script;
      this.prompt := "";
      this.stop := StopList(names);
      this.sent := [];
    }

    method StartSession() returns (first: string)
      modifies this`prompt
      ensures (Snapshot(), first) == Start(Cfg(), old(Snapshot()))
    {
      prompt := initialPrompt + "\n\n" + names[0] + ": " + firstUtterance;
      return firstUtterance;
    }

    method SendResponse(response: string) returns (r: Result<string, Fault>)
      modifies this`prompt, this`script, this`sent
      ensures (Snapshot(), r) == Respond(Cfg(), old(Snapshot()), response)
    {
      prompt := prompt + Turn(names[1], Strip(response)) + Cue(names[0]);
      sent := sent + [CreateRequest(engine, prompt, stop, SamplingTemperature)];
      if script == [] {
        return Err(BackendFailed);
      }
      var completion := script[0];
      script := script[1..];
      var utterance := Strip(completion);
      var endTokenPos := Find(utterance, endToken);
      if endTokenPos != -1 {
        utterance := Strip(utterance[..endTokenPos]);
        prompt := "";
      } else {
        prompt := prompt + " " + utterance;
      }
      return Ok(utterance);
    }
  }
}

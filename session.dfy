/**
 * What every chatbot variant shares: the session states, the calls made to
 * the callbacks (kept as an event log), the requests made to the completion
 * backend (whose answers come from a script), the exceptions that leave an
 * operation, and the way a turn is written into the transcript.
 */
module Session {
  import opened Base
  import opened PyStr

  datatype State = Listening | Replying | Ended

  /** The strings `Chatbot.STATE_*` hold. */
  function StateName(s: State): string {
    match s
    case Listening => "listening"
    case Replying => "replying"
    case Ended => "ended"
  }

  /** The speaker names: `names[0]` is the model, `names[1]` the user, a third (if any) the system. */
  type Names = s: seq<string> | |s| >= 2 witness ["AI", "Human"]

  /** One call of a callback: the utterance callback (with its is_system flag) or the state callback. */
  datatype Event = Said(text: string, isSystem: bool) | StateSet(state: State)

  /** A sampling temperature, passed through untouched; None when the caller passes none. */
  type Temperature = Option<real>

  /** One call of the completion backend, with the arguments it was given. */
  datatype CompletionRequest = CompletionRequest(prompt: string, maxTokens: nat, stop: seq<string>, temperature: Temperature)

  /** Exceptions that leave a chatbot operation and reach its caller. */
  datatype Fault =
    | WrongState(state: State)        // RuntimeError: send_responses outside the listening state
    | SessionNotActive                // RuntimeError: send_responses with no session (prompt is None)
    | StateHasNoSetter                // AttributeError: assignment to the read-only `state` property
    | BackendFailed                   // the completion backend raised (here: its script is used up)
    | TransportFailed(message: string) // the plugin's HTTP call raised
    | UtteranceUnbound                // the retry loop ran zero times and left its variables unbound
    | CoroutineUnpacked               // TypeError: a coroutine was unpacked without being awaited

  /** The text of the RuntimeError raised for a call in the wrong state. */
  function WrongStateMessage(s: State): string {
    "Attempting to send responses in wrong state: " + StateName(s)
  }

  /** The text `_add_response` appends to the transcript for one turn. */
  function Turn(name: string, text: string): string {
    "\n" + name + ": " + text
  }

  /** The transcript text the loop of `send_responses` appends: one stripped user turn per response. */
  function Responses(name: string, rs: seq<string>): string {
    if rs == [] then "" else Responses(name, rs[..|rs| - 1]) + Turn(name, Strip(rs[|rs| - 1]))
  }

  /** Python's truth value of an optional string: present and non-empty. */
  predicate Truthy(s: Option<string>) {
    s.Some? && s.value != ""
  }

  /** The prompt suffix a completion request adds so the model answers as `name`. */
  function Cue(name: string): string {
    "\n" + name + ":"
  }

  /** One stop sequence per speaker: the name followed by a colon, in the order of the names. */
  function StopList(names: seq<string>): (r: seq<string>)
    ensures |r| == |names|
    ensures forall i :: 0 <= i < |r| ==> r[i] == names[i] + ":"
  {
    if names == [] then [] else StopList(names[..|names| - 1]) + [names[|names| - 1] + ":"]
  }

  /**
   * The end-token rule every variant applies to a stripped completion: when
   * the token occurs, the text is cut at its first occurrence and stripped
   * again.
   */
  function CutAtEndToken(u: string, token: string): (string, bool) {
    var pos := Find(u, token);
    if pos == -1 then (u, false) else (Strip(u[..pos]), true)
  }

  /**
   * The cut happens exactly when the token occurs, and keeps the stripped text
   * before its first occurrence.
   */
  lemma CutAtFirstOccurrence(u: string, token: string)
    ensures CutAtEndToken(u, token).1 <==> exists k :: OccursAt(u, token, k)
    ensures !CutAtEndToken(u, token).1 ==> CutAtEndToken(u, token).0 == u
    ensures CutAtEndToken(u, token).1 ==>
      exists k :: && OccursAt(u, token, k) && CutAtEndToken(u, token).0 == Strip(u[..k])
                  && forall j :: 0 <= j < k ==> !OccursAt(u, token, j)
  {
    var pos := Find(u, token);
    if pos != -1 {
      assert OccursAt(u, token, pos);
    }
  }
}

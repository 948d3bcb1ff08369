/**
 * `router.py`: the command registry of the older chatbots. The `command`
 * decorator records a Python function under its name, with its signature, a
 * description and an example call serialised as JSON; `invoke` decodes a
 * command JSON, checks it step by step and calls the registered function
 * with the given parameters.
 *
 * `registry` is a class attribute in Python, so every `Router` sees the same
 * dict: here that dict is one `Registry` object, and every `Router` holds a
 * reference to it.
 */
module CommandRouter {
  import opened Base
  import opened PyStr
  import opened Json

  /**
   * A Python function as the registry sees it: its `__name__`, the
   * module-qualified `__qualname__` that CPython's TypeErrors name, its parameter
   * names in order, its signature without the return annotation as `str(sig)`
   * renders it, and what a call with keyword arguments returns (`str` of the
   * return value) or raises (`str` of the exception), left abstract.
   */
  datatype PyFunction = PyFunction(
    name: string,
    qualifiedName: string,
    parameters: seq<string>,
    signature: string,
    call: Dict<Json> -> Result<string, string>)

  /** One registry entry: the keys `python_sig`, `desc`, `example_json` and `func`. */
  datatype RegistryEntry = RegistryEntry(pythonSig: string, desc: string, exampleJson: string, func: PyFunction)

  /** `Router.registry`, the dict every router shares. */
  class Registry {
    var entries: Dict<RegistryEntry>

    constructor()
      ensures entries == []
    {
      entries := [];
    }
  }

  /** `zip(a, b)`: the pairs of equal index, up to the end of the shorter sequence. */
  function Zip<A, B>(a: seq<A>, b: seq<B>): (r: seq<(A, B)>)
    ensures |r| == if |a| < |b| then |a| else |b|
    ensures forall i :: 0 <= i < |r| ==> r[i] == (a[i], b[i])
  {
    if a == [] || b == [] then [] else [(a[0], b[0])] + Zip(a[1..], b[1..])
  }

  /** `d[k] = v` for each pair in order. */
  function PutAll(d: Dict<Json>, pairs: seq<(string, Json)>): Dict<Json> {
    if pairs == [] then d
    else
      var last := pairs[|pairs| - 1];
      Put(PutAll(d, pairs[..|pairs| - 1]), last.0, last.1)
  }

  /** The `params` dict of the example call: the loop of lines 17-18. */
  function ExampleParams(names: seq<string>, values: seq<Json>): Dict<Json> {
    PutAll([], Zip(names, values))
  }

  /** `{"command": name, "params": params}` */
  function ExampleCall(name: string, params: Dict<Json>): Json {
    JObj([Entry("command", JStr(name)), Entry("params", JObj(params))])
  }

  /** The entry `command(desc, example_params)(func)` writes (lines 14-25). */
  function EntryFor(desc: string, exampleParams: seq<Json>, func: PyFunction): RegistryEntry {
    RegistryEntry(func.name + func.signature, desc, Dumps(ExampleCall(func.name, ExampleParams(func.parameters, exampleParams))), func)
  }

  predicate Distinct(names: seq<string>) {
    forall i, j :: 0 <= i < j < |names| ==> names[i] != names[j]
  }

  /**
   * Parameter names of a Python signature are distinct, so the example dict
   * holds one pair per example value, in parameter order; surplus names or
   * surplus values are dropped.
   */
  lemma {:induction false} ExampleParamsPairs(names: seq<string>, values: seq<Json>)
    requires Distinct(names)
    ensures var d := ExampleParams(names, values);
      && |d| == (if |names| < |values| then |names| else |values|)
      && forall i :: 0 <= i < |d| ==> d[i] == Entry(names[i], values[i])
  {
    PutAllFresh(Zip(names, values));
  }

  lemma {:induction false} PutAllFresh(pairs: seq<(string, Json)>)
    requires forall i, j :: 0 <= i < j < |pairs| ==> pairs[i].0 != pairs[j].0
    ensures |PutAll([], pairs)| == |pairs|
    ensures forall i :: 0 <= i < |pairs| ==> PutAll([], pairs)[i] == Entry(pairs[i].0, pairs[i].1)
  {
    if pairs != [] {
      var front := pairs[..|pairs| - 1];
      var last := pairs[|pairs| - 1];
      PutAllFresh(front);
      var d := PutAll([], front);
      GetFindsPair(d, last.0);
      PutGet(d, last.0, last.1);
    }
  }

  /** The example JSON is the call object written out by `json.dumps`, `command` first. */
  lemma ExampleJsonText(name: string, params: Dict<Json>)
    ensures Dumps(ExampleCall(name, params))
         == "{" + Quote("command") + ": " + Quote(name) + ", " + Quote("params") + ": " + Dumps(JObj(params)) + "}"
  {
    DumpsPair("command", JStr(name), "params", JObj(params));
  }

  lemma DumpsPair(k1: string, v1: Json, k2: string, v2: Json)
    ensures Dumps(JObj([Entry(k1, v1), Entry(k2, v2)]))
         == "{" + Quote(k1) + ": " + Dumps(v1) + ", " + Quote(k2) + ": " + Dumps(v2) + "}"
  {
    var members := [Entry(k1, v1), Entry(k2, v2)];
    DumpsTwoMembers(members);
    var a, b, c, d, e, f := Quote(k1), ": ", Dumps(v1), ", ", Quote(k2), Dumps(v2);
    assert Dumps(JObj(members)) == "{" + (a + b + c + d + e + b + f) + "}";
    Regroup("{", a, b, c, d, e, f, "}");
  }

  /**
   * Concatenation regrouped. A generic lemma: the same equality stated with
   * the literal braces is far costlier for the solver.
   */
  lemma Regroup(o: string, a: string, b: string, c: string, d: string, e: string, f: string, cl: string)
    ensures o + (a + b + c + d + e + b + f) + cl == o + a + b + c + d + e + b + f + cl
  {
  }

  lemma DumpsTwoMembers(members: Dict<Json>)
    requires |members| == 2
    ensures DumpsMembers(members)
         == Quote(members[0].key) + ": " + Dumps(members[0].value) + ", " + Quote(members[1].key) + ": " + Dumps(members[1].value)
  {
    assert |members[1..]| == 1 && members[1..][0] == members[1];
  }

  class Router {
    const registry: Registry

    /** `Router()`: every router uses the registry it is given, which all of them share. */
    constructor(shared: Registry)
      ensures registry == shared
    {
      registry := shared;
    }

    /**
     * `command(desc, example_params)(func)`: the entry under `func.__name__`
     * replaces any earlier one of that name, other entries stay, and the
     * function comes back unchanged.
     */
    method Command(desc: string, exampleParams: seq<Json>, func: PyFunction) returns (r: PyFunction)
      modifies registry
      ensures r == func
      ensures registry.entries == Put(old(registry.entries), func.name, EntryFor(desc, exampleParams, func))
    {
      var params := ExampleParamsOf(func.parameters, exampleParams);
      var exampleDict := JObj([Entry("command", JStr(func.name)), Entry("params", JObj(params))]);
      registry.entries := Put(registry.entries, func.name,
        RegistryEntry(func.name + func.signature, desc, Dumps(exampleDict), func));
      return func;
    }
  }

  /** Lines 16-18: the loop that fills `example_dict["params"]`. */
  method ExampleParamsOf(names: seq<string>, values: seq<Json>) returns (params: Dict<Json>)
    ensures params == ExampleParams(names, values)
  {
    var pairs := Zip(names, values);
    params := [];
    for i := 0 to |pairs|
      invariant params == PutAll([], pairs[..i])
    {
      assert pairs[..i + 1][..i] == pairs[..i];
      params := Put(params, pairs[i].0, pairs[i].1);
    }
    assert pairs[..|pairs|] == pairs;
  }

  /** The text of the ValueError for a command JSON without `key`. */
  function MissingKey(key: string): string {
    "Command JSON missing required key: " + PyRepr(key)
  }

  /** One pass of the loop of lines 37-40: `key not in command_dict` raises. */
  function RequireKey(v: Json, key: string): Result<Json, string> {
    match PyIn(key, v)
    case Err(e) => Err(e)
    case Ok(found) => if found then Ok(v) else Err(MissingKey(key))
  }

  /** `func(**params)`: a non-mapping raises TypeError before the function runs. */
  function CallWith(func: PyFunction, params: Json): Result<string, string> {
    if params.JObj? then func.call(params.members)
    else Err(func.qualifiedName + "() argument after ** must be a mapping, not " + TypeName(params))
  }

  /** `invoke` after a successful `json.loads` (lines 37-48). */
  function InvokeDecoded(registry: Dict<RegistryEntry>, v: Json): Result<string, string> {
    match RequireKey(v, "command")
    case Err(e) => Err(e)
    case Ok(_) =>
      match RequireKey(v, "params")
      case Err(e) => Err(e)
      case Ok(_) =>
        match Subscript(v, "command")
        case Err(e) => Err(e)
        case Ok(name) =>
          if !Hashable(name) then Err("unhashable type: '" + TypeName(name) + "'")
          else if !(name.JStr? && HasKey(registry, name.s)) then Err("No such command: " + PyReprOf(name))
          else
            match Subscript(v, "params")
            case Err(e) => Err(e)
            case Ok(params) => CallWith(Get(registry, name.s).value.func, params)
  }

  /**
   * `invoke(command_json)` on the shared registry: Ok is what the function
   * returned, Err the text of what was raised.
   */
  function Invoke(registry: Dict<RegistryEntry>, dec: RawDecoder, commandJson: string): Result<string, string> {
    match Loads(dec, commandJson)
    case None => Err("Malformed JSON received: " + PyRepr(commandJson))
    case Some(v) => InvokeDecoded(registry, v)
  }

  /** Text `json.loads` refuses is reported with its repr. */
  lemma InvokeMalformed(registry: Dict<RegistryEntry>, dec: RawDecoder, commandJson: string)
    requires Loads(dec, commandJson).None?
    ensures Invoke(registry, dec, commandJson) == Err("Malformed JSON received: " + PyRepr(commandJson))
  {
  }

  /** For a JSON object, `"command"` is checked before `"params"`, and the first missing key is named. */
  lemma InvokeMissingKey(registry: Dict<RegistryEntry>, members: Dict<Json>)
    ensures !HasKey(members, "command") ==>
      InvokeDecoded(registry, JObj(members)) == Err(MissingKey("command"))
    ensures HasKey(members, "command") && !HasKey(members, "params") ==>
      InvokeDecoded(registry, JObj(members)) == Err(MissingKey("params"))
  {
  }

  /** A command name that is not registered is reported with its repr. */
  lemma InvokeUnknownCommand(registry: Dict<RegistryEntry>, members: Dict<Json>, name: string)
    requires Get(members, "command") == Some(JStr(name)) && HasKey(members, "params")
    requires !HasKey(registry, name)
    ensures InvokeDecoded(registry, JObj(members)) == Err("No such command: " + PyRepr(name))
  {
  }

  /** A registered command with an object of parameters is the registered function's call on them. */
  lemma InvokeDispatches(registry: Dict<RegistryEntry>, members: Dict<Json>, name: string, params: Dict<Json>)
    requires Get(members, "command") == Some(JStr(name)) && Get(members, "params") == Some(JObj(params))
    requires HasKey(registry, name)
    ensures InvokeDecoded(registry, JObj(members)) == Get(registry, name).value.func.call(params)
  {
  }

  /**
   * Parameters that are not an object never reach the function: the TypeError
   * names its qualified name and the type that was given.
   */
  lemma InvokeParamsNotMapping(registry: Dict<RegistryEntry>, members: Dict<Json>, name: string, params: Json)
    requires Get(members, "command") == Some(JStr(name)) && Get(members, "params") == Some(params)
    requires HasKey(registry, name) && !params.JObj?
    ensures InvokeDecoded(registry, JObj(members))
         == Err(Get(registry, name).value.func.qualifiedName + "() argument after ** must be a mapping, not " + TypeName(params))
  {
  }

  /**
   * The converse: nothing but such a call returns normally. A successful
   * `invoke` decoded an object naming a registered command and holding an
   * object of parameters, and returned what that command's function did.
   */
  lemma InvokeOkOnlyByCall(registry: Dict<RegistryEntry>, dec: RawDecoder, commandJson: string)
    requires Invoke(registry, dec, commandJson).Ok?
    ensures Loads(dec, commandJson).Some? && Loads(dec, commandJson).value.JObj?
    ensures var members := Loads(dec, commandJson).value.members;
      exists name, params :: && Get(members, "command") == Some(JStr(name)) && HasKey(registry, name)
                           && Get(members, "params") == Some(JObj(params))
                           && Invoke(registry, dec, commandJson) == Get(registry, name).value.func.call(params)
  {
    var v := Loads(dec, commandJson).value;
    InvokeDecodedOk(registry, v);
    var name := Get(v.members, "command").value.s;
    var params := Get(v.members, "params").value.members;
    assert Get(v.members, "command") == Some(JStr(name));
  }

  lemma InvokeDecodedOk(registry: Dict<RegistryEntry>, v: Json)
    requires InvokeDecoded(registry, v).Ok?
    ensures v.JObj? && HasKey(v.members, "command") && HasKey(v.members, "params")
    ensures Get(v.members, "command").value.JStr? && HasKey(registry, Get(v.members, "command").value.s)
    ensures Get(v.members, "params").value.JObj?
    ensures InvokeDecoded(registry, v)
         == Get(registry, Get(v.members, "command").value.s).value.func.call(Get(v.members, "params").value.members)
  {
  }

  /** Registering a second function under the same name replaces the first: `invoke` then finds the second. */
  lemma LatestRegistrationWins(registry: Dict<RegistryEntry>, desc1: string, ex1: seq<Json>, f1: PyFunction,
                               desc2: string, ex2: seq<Json>, f2: PyFunction)
    requires f1.name == f2.name
    ensures var r := Put(Put(registry, f1.name, EntryFor(desc1, ex1, f1)), f2.name, EntryFor(desc2, ex2, f2));
      Get(r, f1.name) == Some(EntryFor(desc2, ex2, f2))
  {
    PutGet(Put(registry, f1.name, EntryFor(desc1, ex1, f1)), f2.name, EntryFor(desc2, ex2, f2));
  }
}

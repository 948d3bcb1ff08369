/**
 * The plugin router of `app/router.py`: the decisions its constructor takes
 * while loading plugins (which netlocs, which auth entries, which spec
 * formats), the registry it fills, and `prepare`, which turns the parameters
 * the model wrote into the request that will be sent.
 *
 * Fetching manifests and specifications, parsing them, the token prompt and
 * OpenAPI validation are supplied from outside as functions.
 */
module AppRouter {
  import opened Base
  import opened PyStr
  import opened Json

  const AuthNone := "none"
  const AuthServiceHttp := "service_http"
  const AuthUserHttp := "user_http"

  const JsonMediaTypes: seq<string> := ["application/json"]
  const YamlMediaTypes: seq<string> := ["application/yaml", "application/x-yaml", "text/yaml", "text/x-yaml"]

  /** An entry of the auth file: the auth type and, for the HTTP types, the token. */
  datatype Auth = Auth(kind: string, token: Option<string>)

  /** The fields of a plugin manifest (`.well-known/ai-plugin.json`) the code reads. */
  datatype Manifest = Manifest(nameForHuman: string, descriptionForHuman: string, nameForModel: string,
                               descriptionForModel: string, authType: string, apiUrl: string)

  /** A registry entry; `hasSpec` says whether `openapi_core.Spec.create` accepted the spec. */
  datatype Plugin = Plugin(netloc: string, manifest: Manifest, specDict: Json, auth: Auth, hasSpec: bool)

  // ---------------------------------------------------------------- bootstrap

  /** `list(dict.fromkeys(xs))`: the elements in the order of their first occurrence. */
  function Dedup(xs: seq<string>): seq<string> {
    if xs == [] then []
    else
      var d := Dedup(xs[..|xs| - 1]);
      if xs[|xs| - 1] in d then d else d + [xs[|xs| - 1]]
  }

  predicate Distinct(xs: seq<string>) {
    forall i, j :: 0 <= i < j < |xs| ==> xs[i] != xs[j]
  }

  /** The index of the first occurrence of `x` in `xs`. */
  function FirstIndex(xs: seq<string>, x: string): (r: nat)
    requires x in xs
    ensures r < |xs| && xs[r] == x && x !in xs[..r]
  {
    if xs[0] == x then 0
    else
      var r := FirstIndex(xs[1..], x);
      assert xs[1..][..r] == xs[1..r + 1];
      r + 1
  }

  /**
   * De-duplication keeps every element exactly once, and lists them in the
   * order of their first occurrence.
   */
  lemma {:induction false} DedupKeepsFirstOccurrences(xs: seq<string>)
    ensures Distinct(Dedup(xs))
    ensures forall x :: x in Dedup(xs) <==> x in xs
    ensures forall i, j :: 0 <= i < j < |Dedup(xs)| ==> FirstIndex(xs, Dedup(xs)[i]) < FirstIndex(xs, Dedup(xs)[j])
  {
    if xs != [] {
      var front := xs[..|xs| - 1];
      var last := xs[|xs| - 1];
      DedupKeepsFirstOccurrences(front);
      var d := Dedup(front);
      assert xs == front + [last];
      forall x | x in front ensures FirstIndex(xs, x) == FirstIndex(front, x) {
        var i := FirstIndex(front, x);
        assert xs[i] == x;
        assert xs[..i] == front[..i];
        FirstIndexIs(xs, x, i);
      }
      if last in d {
        assert Dedup(xs) == d;
      } else {
        assert last !in front;
        FirstIndexIs(xs, last, |xs| - 1);
        assert xs[..|xs| - 1] == front;
        var r := d + [last];
        assert Dedup(xs) == r;
        forall i, j | 0 <= i < j < |r| ensures r[i] != r[j] && FirstIndex(xs, r[i]) < FirstIndex(xs, r[j]) {
          assert r[i] == d[i] && d[i] in front;
          if j < |d| {
            assert r[j] == d[j];
          }
        }
      }
    }
  }

  /** The first occurrence is where the element first appears. */
  lemma {:induction false} FirstIndexIs(xs: seq<string>, x: string, i: nat)
    requires i < |xs| && xs[i] == x && x !in xs[..i]
    ensures FirstIndex(xs, x) == i
    decreases i
  {
    if i > 0 {
      assert xs[..i] == [xs[0]] + xs[1..][..i - 1];
      assert xs[1..][i - 1] == x;
      FirstIndexIs(xs[1..], x, i - 1);
    }
  }

  /** The auth types the router accepts; a plugin declaring another is skipped. */
  predicate SupportedAuth(kind: string) {
    kind in [AuthNone, AuthServiceHttp, AuthUserHttp]
  }

  /** What the constructor does about a plugin's auth entry. */
  datatype AuthChoice =
    | Reuse(saved: Auth)                     // the saved entry is copied
    | Fresh(kind: string, ask: Option<string>) // a new entry; `ask` is the token prompt, if one is shown

  /** Lines 53-62: reuse the saved entry only when the netloc is saved with the same auth type. */
  function ChooseAuth(saved: Dict<Auth>, netloc: string, m: Manifest): (r: AuthChoice)
    ensures r.Reuse? <==> HasKey(saved, netloc) && Get(saved, netloc).value.kind == m.authType
    ensures r.Reuse? ==> r.saved == Get(saved, netloc).value
    ensures r.Fresh? ==> r.kind == m.authType
    ensures r.Fresh? ==> (r.ask.Some? <==> m.authType == AuthServiceHttp || m.authType == AuthUserHttp)
    ensures r.Fresh? && r.ask.Some? ==> r.ask.value == "Enter access token for " + m.nameForHuman + ": "
  {
    if !HasKey(saved, netloc) || m.authType != Get(saved, netloc).value.kind then
      Fresh(m.authType, if m.authType in [AuthServiceHttp, AuthUserHttp]
                        then Some("Enter access token for " + m.nameForHuman + ": ") else None)
    else Reuse(Get(saved, netloc).value)
  }

  datatype SpecFormat = JsonSpec | YamlSpec

  /** The media type of a Content-Type header: the text before the first `;`, without surrounding whitespace. */
  function MediaType(contentType: string): string {
    var semi := Find(contentType, ";");
    Strip(if semi == -1 then contentType else contentType[..semi])
  }

  /** Lines 72-86: how the spec is parsed, or None when the response is skipped. */
  function SpecFormatOf(contentType: Option<string>): Option<SpecFormat> {
    if contentType.None? || contentType.value == "" then None
    else
      var mt := MediaType(contentType.value);
      if mt in JsonMediaTypes then Some(JsonSpec)
      else if mt in YamlMediaTypes then Some(YamlSpec)
      else None
  }

  /** Only the media type counts: whatever parameters follow the first `;` are ignored. */
  lemma SpecFormatIgnoresParameters(mediaType: string, parameters: string)
    requires Find(mediaType, ";") == -1
    ensures SpecFormatOf(Some(mediaType + ";" + parameters)) == SpecFormatOf(Some(mediaType))
  {
    var ct := mediaType + ";" + parameters;
    assert OccursAt(ct, ";", |mediaType|);
    forall k | 0 <= k < |mediaType| ensures !OccursAt(ct, ";", k) {
      assert !OccursAt(mediaType, ";", k);
      assert ct[k] == mediaType[k];
    }
    FindIsFirst(ct, ";", |mediaType|);
    assert ct[..|mediaType|] == mediaType;
  }

  /** A position where `t` occurs with no occurrence before it is what `Find` returns. */
  lemma FindIsFirst(s: string, t: string, i: nat)
    requires OccursAt(s, t, i)
    requires forall k :: 0 <= k < i ==> !OccursAt(s, t, k)
    ensures Find(s, t) == i
  {
    assert OccursAt(s, t, i);
  }

  /** What fetching a plugin's files returns; None where a request, a status check or a parse raised. */
  datatype SpecResponse = SpecResponse(contentType: Option<string>, text: string)
  datatype PluginSource = PluginSource(manifest: Option<Manifest>, spec: Option<SpecResponse>)

  /**
   * The constructor's outside world: the files behind each netloc, the JSON or
   * YAML parser, whether `openapi_core.Spec.create` accepts a spec, and the
   * token the person at the terminal types at each prompt.
   */
  datatype Environment = Environment(
    source: string -> PluginSource,
    parse: (SpecFormat, string) -> Option<Json>,
    specAccepted: Json -> bool,
    enterToken: string -> string)

  /** The auth entry a plugin ends up with. */
  function AuthEntry(env: Environment, saved: Dict<Auth>, netloc: string, m: Manifest): Auth {
    match ChooseAuth(saved, netloc, m)
    case Reuse(a) => a
    case Fresh(kind, ask) => Auth(kind, if ask.Some? then Some(env.enterToken(ask.value)) else None)
  }

  /** One pass of the constructor's loop (lines 37-104): the new registry and auth update. */
  function LoadOne(env: Environment, saved: Dict<Auth>, reg: Dict<Plugin>, upd: Dict<Auth>, netloc: string): (Dict<Plugin>, Dict<Auth>) {
    var src := env.source(netloc);
    if src.manifest.None? || !SupportedAuth(src.manifest.value.authType) then (reg, upd)
    else
      var m := src.manifest.value;
      var auth := AuthEntry(env, saved, netloc, m);
      var upd' := Put(upd, netloc, auth);
      if src.spec.None? then (reg, upd')
      else
        match SpecFormatOf(src.spec.value.contentType)
        case None => (reg, upd')
        case Some(fmt) =>
          match env.parse(fmt, src.spec.value.text)
          case None => (reg, upd')
          case Some(specDict) =>
            (Put(reg, m.nameForModel, Plugin(netloc, m, specDict, auth, env.specAccepted(specDict))), upd')
  }

  /** The loop over `netlocs` from an empty registry and an empty auth update. */
  function LoadAll(env: Environment, saved: Dict<Auth>, netlocs: seq<string>): (Dict<Plugin>, Dict<Auth>) {
    if netlocs == [] then ([], [])
    else
      var (reg, upd) := LoadAll(env, saved, netlocs[..|netlocs| - 1]);
      LoadOne(env, saved, reg, upd, netlocs[|netlocs| - 1])
  }

  /** A netloc whose manifest loads and declares a supported auth type. */
  predicate Admitted(env: Environment, netloc: string) {
    env.source(netloc).manifest.Some? && SupportedAuth(env.source(netloc).manifest.value.authType)
  }

  /**
   * One pass changes nothing for a netloc that is not admitted. For an
   * admitted one it writes the chosen auth entry under the netloc and adds at
   * most one registry entry: a plugin of that netloc, its manifest and that
   * auth, filed under the manifest's model name. Every other entry stays.
   */
  lemma LoadOneRecords(env: Environment, saved: Dict<Auth>, reg: Dict<Plugin>, upd: Dict<Auth>, n: string)
    ensures var (reg', upd') := LoadOne(env, saved, reg, upd, n);
      && (forall k :: HasKey(upd', k) <==> HasKey(upd, k) || (k == n && Admitted(env, n)))
      && (!Admitted(env, n) ==> reg' == reg && upd' == upd)
      && (Admitted(env, n) ==>
            var m := env.source(n).manifest.value;
            var auth := AuthEntry(env, saved, n, m);
            && upd' == Put(upd, n, auth)
            && (reg' == reg || exists p: Plugin :: p.netloc == n && p.manifest == m && p.auth == auth && reg' == Put(reg, m.nameForModel, p)))
      && |reg| <= |reg'| <= |reg| + 1
      && (forall k :: HasKey(reg, k) ==> HasKey(reg', k))
      && (forall k :: HasKey(reg', k) ==>
            || (HasKey(reg, k) && Get(reg', k) == Get(reg, k))
            || (Get(reg', k).value.netloc == n && Get(reg', k).value.manifest.nameForModel == k))
  {
    LoadOneAuth(env, saved, reg, upd, n);
    LoadOneRegistry(env, saved, reg, upd, n);
  }

  /** The auth half of `LoadOneRecords`. */
  lemma LoadOneAuth(env: Environment, saved: Dict<Auth>, reg: Dict<Plugin>, upd: Dict<Auth>, n: string)
    ensures var (reg', upd') := LoadOne(env, saved, reg, upd, n);
      && (forall k :: HasKey(upd', k) <==> HasKey(upd, k) || (k == n && Admitted(env, n)))
      && (!Admitted(env, n) ==> reg' == reg && upd' == upd)
      && (Admitted(env, n) ==> upd' == Put(upd, n, AuthEntry(env, saved, n, env.source(n).manifest.value)))
  {
    if Admitted(env, n) {
      PutFootprint(upd, n, AuthEntry(env, saved, n, env.source(n).manifest.value));
    }
  }

  /** The registry half of `LoadOneRecords`. */
  lemma LoadOneRegistry(env: Environment, saved: Dict<Auth>, reg: Dict<Plugin>, upd: Dict<Auth>, n: string)
    ensures var reg' := LoadOne(env, saved, reg, upd, n).0;
      && (Admitted(env, n) ==>
            var m := env.source(n).manifest.value;
            reg' == reg || exists p: Plugin :: p.netloc == n && p.manifest == m && p.auth == AuthEntry(env, saved, n, m) && reg' == Put(reg, m.nameForModel, p))
      && |reg| <= |reg'| <= |reg| + 1
      && (forall k :: HasKey(reg, k) ==> HasKey(reg', k))
      && (forall k :: HasKey(reg', k) ==>
            || (HasKey(reg, k) && Get(reg', k) == Get(reg, k))
            || (Get(reg', k).value.netloc == n && Get(reg', k).value.manifest.nameForModel == k))
  {
    var src := env.source(n);
    if Admitted(env, n) {
      var m := src.manifest.value;
      var fmt := if src.spec.Some? then SpecFormatOf(src.spec.value.contentType) else None;
      if fmt.Some? && env.parse(fmt.value, src.spec.value.text).Some? {
        var specDict := env.parse(fmt.value, src.spec.value.text).value;
        var p := Plugin(n, m, specDict, AuthEntry(env, saved, n, m), env.specAccepted(specDict));
        assert LoadOne(env, saved, reg, upd, n).0 == Put(reg, m.nameForModel, p);
        PutFootprint(reg, m.nameForModel, p);
      }
    }
  }

  /** `d[k] = v` adds at most the key `k`, maps it to `v` and leaves every other key's value alone. */
  lemma PutFootprint<V>(d: Dict<V>, k: string, v: V)
    ensures Get(Put(d, k, v), k) == Some(v)
    ensures |d| <= |Put(d, k, v)| <= |d| + 1
    ensures forall k' :: HasKey(Put(d, k, v), k') <==> HasKey(d, k') || k' == k
    ensures forall k' :: k' != k ==> Get(Put(d, k, v), k') == Get(d, k')
  {
    PutGet(d, k, v);
  }

  /**
   * The auth update holds an entry exactly for the admitted netlocs, even those
   * whose specification then fails to load, and each is the auth chosen for
   * that netloc. Every registry entry is filed under its manifest's model
   * name and comes from an admitted netloc of the list: its manifest is that
   * netloc's, and its auth is the one written back for it.
   */
  lemma {:induction false} LoadAllRecords(env: Environment, saved: Dict<Auth>, netlocs: seq<string>)
    ensures var (reg, upd) := LoadAll(env, saved, netlocs);
      && (forall n :: HasKey(upd, n) <==> n in netlocs && Admitted(env, n))
      && (forall n :: HasKey(upd, n) ==> Get(upd, n) == Some(AuthEntry(env, saved, n, env.source(n).manifest.value)))
      && (forall k :: HasKey(reg, k) ==>
            var p := Get(reg, k).value;
            && p.manifest.nameForModel == k && p.netloc in netlocs && Admitted(env, p.netloc)
            && p.manifest == env.source(p.netloc).manifest.value
            && Get(upd, p.netloc) == Some(p.auth))
  {
    if netlocs != [] {
      var front := netlocs[..|netlocs| - 1];
      var n := netlocs[|netlocs| - 1];
      LoadAllRecords(env, saved, front);
      var (reg, upd) := LoadAll(env, saved, front);
      LoadOneRecords(env, saved, reg, upd, n);
      assert netlocs == front + [n];
      var (reg', upd') := LoadAll(env, saved, netlocs);
      if Admitted(env, n) {
        var m := env.source(n).manifest.value;
        PutGet(upd, n, AuthEntry(env, saved, n, m));
      }
      forall k | HasKey(reg', k)
        ensures var p := Get(reg', k).value;
          && p.manifest.nameForModel == k && p.netloc in netlocs && Admitted(env, p.netloc)
          && p.manifest == env.source(p.netloc).manifest.value
          && Get(upd', p.netloc) == Some(p.auth)
      {
        if reg' != reg && Admitted(env, n) {
          var m := env.source(n).manifest.value;
          var p: Plugin :| p.netloc == n && p.manifest == m && p.auth == AuthEntry(env, saved, n, m) && reg' == Put(reg, m.nameForModel, p);
          PutGet(reg, m.nameForModel, p);
        }
      }
    }
  }

  // ---------------------------------------------------------------- prepare

  /** OpenAPI validation of a request against a plugin's spec. */
  datatype Validation =
    | Valid
    | Invalid(message: string)  // RequestValidationError
    | Failed(message: string)   // any other exception from the validator

  /** `openapi_core.validate_request`, left abstract: the spec dict and the request's keyword arguments. */
  type Validator = (Json, Dict<Json>) -> Validation

  /** The keyword arguments `requests.Request` accepts. */
  const RequestKeywords: seq<string> := ["method", "url", "headers", "files", "data", "params", "auth", "cookies", "hooks", "json"]

  const ValidationPrefix := "Error validating the request against the plugin's OpenAPI spec: "

  /** The argument dict for `aiohttp`'s `session.request`: the six keys, None where absent. */
  datatype Prepared = Prepared(httpMethod: Json, url: Json, headers: Json, params: Json, data: Json, json: Json)

  /** `plugin_name in self.registry` followed by the lookup. */
  function LookupPlugin(reg: Dict<Plugin>, name: Json): Result<Plugin, string> {
    match name
    case JStr(n) => if HasKey(reg, n) then Ok(Get(reg, n).value) else Err("Unknown plugin: " + n)
    case JArr(_) => Err("unhashable type: 'list'")
    case JObj(_) => Err("unhashable type: 'dict'")
    case _ => Err("Unknown plugin: " + PyStrOf(name))
  }

  /** `v[key] = x` */
  function SetItem(v: Json, key: string, x: Json): Result<Json, string> {
    match v
    case JObj(m) => Ok(JObj(Put(m, key, x)))
    case JArr(_) => Err("list indices must be integers or slices, not str")
    case _ => Err("'" + TypeName(v) + "' object does not support item assignment")
  }

  /** Lines 124-127: merge the Authorization header into the request's headers, or add them. */
  function AddAuthorization(params: Json, bearer: string): Result<Json, string> {
    match PyIn("headers", params)
    case Err(e) => Err(e)
    case Ok(present) =>
      if present then
        match Subscript(params, "headers")
        case Err(e) => Err(e)
        case Ok(h) =>
          if h.JObj? then Ok(JObj(Put(params.members, "headers", JObj(Put(h.members, "Authorization", JStr(bearer))))))
          else Err("'" + TypeName(h) + "' object has no attribute 'update'")
      else SetItem(params, "headers", JObj([Entry("Authorization", JStr(bearer))]))
  }

  /** Lines 120-127: only `user_http` plugins get a header, `Bearer` and the saved token. */
  function WithAuthorization(auth: Auth, params: Json): Result<Json, string> {
    if auth.kind != AuthUserHttp then Ok(params)
    else if auth.token.None? then Err(PyRepr("token"))
    else AddAuthorization(params, "Bearer " + auth.token.value)
  }

  /** The first key that is not a parameter of `requests.Request`, in dict order. */
  function FirstUnexpected(m: Dict<Json>): (r: Option<string>)
    ensures r.None? <==> forall i :: 0 <= i < |m| ==> m[i].key in RequestKeywords
    ensures r.Some? ==> r.value !in RequestKeywords
  {
    if m == [] then None
    else if m[0].key !in RequestKeywords then Some(m[0].key)
    else
      var r := FirstUnexpected(m[1..]);
      assert forall i :: 1 <= i < |m| ==> m[i] == m[1..][i - 1];
      r
  }

  /** `requests.Request(**request_params)`: the argument must be a dict of known keywords. */
  function RequestKwargs(params: Json): Result<Dict<Json>, string> {
    match params
    case JObj(m) =>
      (match FirstUnexpected(m)
       case Some(k) => Err("Request.__init__() got an unexpected keyword argument '" + k + "'")
       case None => Ok(m))
    case _ => Err("requests.models.Request() argument after ** must be a mapping, not " + TypeName(params))
  }

  /** Lines 132-139: validation runs only for a plugin whose spec was accepted. */
  function CheckSpec(p: Plugin, validate: Validator, kwargs: Dict<Json>): Option<string> {
    if !p.hasSpec then None
    else
      match validate(p.specDict, kwargs)
      case Valid => None
      case Invalid(msg) => Some(ValidationPrefix + msg)
      case Failed(msg) => Some(msg)
  }

  /** Lines 142-143 */
  function Project(kwargs: Dict<Json>): Prepared {
    Prepared(Get(kwargs, "method").GetOr(JNull), Get(kwargs, "url").GetOr(JNull), Get(kwargs, "headers").GetOr(JNull),
             Get(kwargs, "params").GetOr(JNull), Get(kwargs, "data").GetOr(JNull), Get(kwargs, "json").GetOr(JNull))
  }

  /** `Router.prepare(plugin_name, request_params)`; an error is the raised exception's `str`. */
  function PrepareRequest(reg: Dict<Plugin>, validate: Validator, name: Json, params: Json): Result<Prepared, string> {
    match LookupPlugin(reg, name)
    case Err(e) => Err(e)
    case Ok(p) =>
      match WithAuthorization(p.auth, params)
      case Err(e) => Err(e)
      case Ok(params') =>
        match RequestKwargs(params')
        case Err(e) => Err(e)
        case Ok(kwargs) =>
          match CheckSpec(p, validate, kwargs)
          case Some(e) => Err(e)
          case None => Ok(Project(kwargs))
  }

  /** A name that is not registered is refused, with the name in the message. */
  lemma PrepareUnknownPlugin(reg: Dict<Plugin>, validate: Validator, name: string, params: Json)
    requires !HasKey(reg, name)
    ensures PrepareRequest(reg, validate, JStr(name), params) == Err("Unknown plugin: " + name)
  {
  }

  /** The headers a request had before the Authorization header was added (none when absent). */
  function OldHeaders(m: Dict<Json>): Dict<Json> {
    var h := Get(m, "headers");
    if h.Some? && h.value.JObj? then h.value.members else []
  }

  /**
   * Adding the header keeps the request's other keys, and in the headers
   * keeps every other header and sets (or overwrites) Authorization.
   */
  lemma AddAuthorizationMerges(params: Json, bearer: string)
    requires AddAuthorization(params, bearer).Ok?
    ensures params.JObj?
    ensures var r := AddAuthorization(params, bearer).value;
      && r.JObj? && HasKey(r.members, "headers") && Get(r.members, "headers").value.JObj?
      && (forall k :: k != "headers" ==> Get(r.members, k) == Get(params.members, k))
      && var h := Get(r.members, "headers").value.members;
         && Get(h, "Authorization") == Some(JStr(bearer))
         && forall k :: k != "Authorization" ==> Get(h, k) == Get(OldHeaders(params.members), k)
  {
    var m := params.members;
    if HasKey(m, "headers") {
      var h := Get(m, "headers").value.members;
      var h' := Put(h, "Authorization", JStr(bearer));
      PutGet(h, "Authorization", JStr(bearer));
      PutGet(m, "headers", JObj(h'));
    } else {
      var h' := [Entry("Authorization", JStr(bearer))];
      PutGet(m, "headers", JObj(h'));
      assert forall k :: k != "Authorization" ==> Get(h', k) == None;
    }
  }

  /**
   * For a `user_http` plugin a prepared request carries `Authorization:
   * Bearer <token>`, and every other header it was given, unchanged.
   */
  lemma PrepareAddsBearer(reg: Dict<Plugin>, validate: Validator, name: string, params: Json)
    requires HasKey(reg, name) && Get(reg, name).value.auth.kind == AuthUserHttp
    requires PrepareRequest(reg, validate, JStr(name), params).Ok?
    ensures var token := Get(reg, name).value.auth.token;
      var r := PrepareRequest(reg, validate, JStr(name), params).value;
      && token.Some? && params.JObj? && r.headers.JObj?
      && Get(r.headers.members, "Authorization") == Some(JStr("Bearer " + token.value))
      && forall k :: k != "Authorization" ==> Get(r.headers.members, k) == Get(OldHeaders(params.members), k)
  {
    var p := Get(reg, name).value;
    var bearer := "Bearer " + p.auth.token.value;
    AddAuthorizationMerges(params, bearer);
    var added := AddAuthorization(params, bearer).value;
    assert PrepareRequest(reg, validate, JStr(name), params).value == Project(added.members);
  }

  /** Plugins without `user_http` auth send the headers exactly as the model wrote them. */
  lemma PrepareKeepsHeaders(reg: Dict<Plugin>, validate: Validator, name: string, params: Json)
    requires HasKey(reg, name) && Get(reg, name).value.auth.kind != AuthUserHttp
    requires PrepareRequest(reg, validate, JStr(name), params).Ok?
    ensures params.JObj?
    ensures PrepareRequest(reg, validate, JStr(name), params).value.headers == Get(params.members, "headers").GetOr(JNull)
  {
  }

  /**
   * A prepared request has the six keys, each the given value or None; the
   * request had no key `requests.Request` does not accept.
   */
  lemma PrepareProjects(reg: Dict<Plugin>, validate: Validator, name: Json, params: Json)
    requires PrepareRequest(reg, validate, name, params).Ok?
    ensures var p := LookupPlugin(reg, name).value;
      var params' := WithAuthorization(p.auth, params).value;
      && params'.JObj?
      && (forall i :: 0 <= i < |params'.members| ==> params'.members[i].key in RequestKeywords)
      && PrepareRequest(reg, validate, name, params) == Ok(Project(params'.members))
      && Project(params'.members).url == Get(params'.members, "url").GetOr(JNull)
      && Project(params'.members).httpMethod == Get(params'.members, "method").GetOr(JNull)
  {
  }

  /** A plugin whose spec was not accepted is never validated: the validator makes no difference. */
  lemma PrepareWithoutSpecIgnoresValidator(reg: Dict<Plugin>, v1: Validator, v2: Validator, name: string, params: Json)
    requires HasKey(reg, name) && !Get(reg, name).value.hasSpec
    ensures PrepareRequest(reg, v1, JStr(name), params) == PrepareRequest(reg, v2, JStr(name), params)
  {
  }

  /** A request the validator refuses is reported with the validation prefix. */
  lemma PrepareReportsInvalid(reg: Dict<Plugin>, validate: Validator, name: string, params: Json, msg: string)
    requires HasKey(reg, name) && Get(reg, name).value.hasSpec
    requires var p := Get(reg, name).value;
      && WithAuthorization(p.auth, params).Ok?
      && RequestKwargs(WithAuthorization(p.auth, params).value).Ok?
      && validate(p.specDict, RequestKwargs(WithAuthorization(p.auth, params).value).value) == Invalid(msg)
    ensures PrepareRequest(reg, validate, JStr(name), params) == Err(ValidationPrefix + msg)
  {
  }

  /** Lines 34-104 of the constructor: the registry and the auth file update. */
  method LoadPlugins(plugins: Option<seq<string>>, saved: Dict<Auth>, env: Environment)
    returns (reg: Dict<Plugin>, upd: Dict<Auth>)
    ensures (reg, upd) == LoadAll(env, saved, Dedup(plugins.GetOr([])))
  {
    reg, upd := [], [];
    var netlocs := Dedup(plugins.GetOr([]));
    for i := 0 to |netlocs|
      invariant (reg, upd) == LoadAll(env, saved, netlocs[..i])
    {
      assert netlocs[..i + 1][..i] == netlocs[..i];
      var netloc := netlocs[i];
      var src := env.source(netloc);
      if src.manifest.None? {
        continue;
      }
      var manifest := src.manifest.value;
      if !SupportedAuth(manifest.authType) {
        continue;
      }
      var auth := AuthEntry(env, saved, netloc, manifest);
      upd := Put(upd, netloc, auth);
      if src.spec.None? {
        continue;
      }
      var format := SpecFormatOf(src.spec.value.contentType);
      if format.None? {
        continue;
      }
      var specDict := env.parse(format.value, src.spec.value.text);
      if specDict.None? {
        continue;
      }
      reg := Put(reg, manifest.nameForModel, Plugin(netloc, manifest, specDict.value, auth, env.specAccepted(specDict.value)));
    }
    assert netlocs[..|netlocs|] == netlocs;
  }

  /** Lines 120-127 of `prepare`: a `user_http` plugin's request gets the Authorization header. */
  method Authorize(auth: Auth, requestParams: Json) returns (r: Result<Json, string>)
    ensures r == WithAuthorization(auth, requestParams)
  {
    if auth.kind != AuthUserHttp {
      return Ok(requestParams);
    }
    if auth.token.None? {
      return Err(PyRepr("token"));
    }
    r := AddAuthorization(requestParams, "Bearer " + auth.token.value);
  }

  /** The bound method `router.prepare` as a function value. */
  function PrepareFunction(reg: Dict<Plugin>, validate: Validator): (Json, Json) -> Result<Prepared, string> {
    (name, params) => PrepareRequest(reg, validate, name, params)
  }

  class Router {
    /** Filled by the constructor and not changed afterwards. */
    const registry: Dict<Plugin>
    /** What the constructor writes to the auth file. */
    const authUpdate: Dict<Auth>
    const validate: Validator
    /** `send`, left abstract: the HTTP status and body, or the text of the exception it raised. */
    const transport: Prepared -> Result<(int, string), string>
    /** `self.prepare` as a value (what a caller holding `router.prepare` has). */
    const boundPrepare: (Json, Json) -> Result<Prepared, string>

    /** `Router(plugins)` with the auth file's contents `saved`. */
    constructor(plugins: Option<seq<string>>, saved: Dict<Auth>, env: Environment,
                validate: Validator, transport: Prepared -> Result<(int, string), string>)
      ensures (registry, authUpdate) == LoadAll(env, saved, Dedup(plugins.GetOr([])))
      ensures this.validate == validate && this.transport == transport
      ensures boundPrepare == PrepareFunction(registry, validate)
    {
      var reg, upd := LoadPlugins(plugins, saved, env);
      this.validate := validate;
      this.transport := transport;
      this.registry := reg;
      this.authUpdate := upd;
      this.boundPrepare := PrepareFunction(reg, validate);
    }

    /** `prepare`; the caller's dict is updated in place in the source, here a new value is built. */
    method Prepare(pluginName: Json, requestParams: Json) returns (r: Result<Prepared, string>)
      ensures r == PrepareRequest(registry, validate, pluginName, requestParams)
    {
      var found := LookupPlugin(registry, pluginName);
      if found.Err? {
        return Err(found.error);
      }
      var plugin := found.value;
      var authorized := Authorize(plugin.auth, requestParams);
      if authorized.Err? {
        return Err(authorized.error);
      }
      var params := authorized.value;
      var kwargs := RequestKwargs(params);
      if kwargs.Err? {
        return Err(kwargs.error);
      }
      var invalid := CheckSpec(plugin, validate, kwargs.value);
      if invalid.Some? {
        return Err(invalid.value);
      }
      return Ok(Project(kwargs.value));
    }
  }
}

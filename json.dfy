/**
 * JSON values as Python's `json` module hands them to the chatbots (dicts keep
 * insertion order), the decoding interface the code relies on, `json.dumps`
 * with its default settings, and the Python operations the code applies to
 * decoded values (`in`, subscription, `str`, `repr`).
 */
module Json {
  import opened Base
  import opened PyStr

  /** One key/value pair of a Python dict. */
  datatype Entry<V> = Entry(key: string, value: V)

  /** A Python dict with string keys, in insertion order. */
  type Dict<V> = seq<Entry<V>>

  /** `d.get(k)`: the value of the last pair with key `k` (the one `json.loads` keeps). */
  function Get<V>(d: Dict<V>, k: string): Option<V> {
    if d == [] then None
    else if d[|d| - 1].key == k then Some(d[|d| - 1].value)
    else Get(d[..|d| - 1], k)
  }

  predicate HasKey<V>(d: Dict<V>, k: string) {
    Get(d, k).Some?
  }

  /** A key is present exactly when some pair has it, and then its value is one of that key's pairs. */
  lemma {:induction false} GetFindsPair<V>(d: Dict<V>, k: string)
    ensures HasKey(d, k) <==> exists i :: 0 <= i < |d| && d[i].key == k
    ensures HasKey(d, k) ==> exists i :: 0 <= i < |d| && d[i] == Entry(k, Get(d, k).value)
  {
    if d != [] && d[|d| - 1].key != k {
      var front := d[..|d| - 1];
      GetFindsPair(front, k);
      if HasKey(d, k) {
        var i :| 0 <= i < |front| && front[i] == Entry(k, Get(d, k).value);
        assert d[i] == front[i];
      }
      if exists i :: 0 <= i < |d| && d[i].key == k {
        var i :| 0 <= i < |d| && d[i].key == k;
        assert i < |front| && front[i].key == k;
      }
    }
  }

  /** Every pair with key `k` gets the value `v`; keys and their order stay as they were. */
  function ReplaceAll<V>(d: Dict<V>, k: string, v: V): (r: Dict<V>)
    ensures |r| == |d|
  {
    if d == [] then []
    else
      var last := d[|d| - 1];
      ReplaceAll(d[..|d| - 1], k, v) + [if last.key == k then Entry(k, v) else last]
  }

  lemma {:induction false} ReplaceAllKeeps<V>(d: Dict<V>, k: string, v: V)
    ensures forall i :: 0 <= i < |d| ==> ReplaceAll(d, k, v)[i].key == d[i].key
    ensures Get(ReplaceAll(d, k, v), k) == if HasKey(d, k) then Some(v) else None
    ensures forall k' :: k' != k ==> Get(ReplaceAll(d, k, v), k') == Get(d, k')
  {
    if d != [] {
      var front := ReplaceAll(d[..|d| - 1], k, v);
      ReplaceAllKeeps(d[..|d| - 1], k, v);
      var r := ReplaceAll(d, k, v);
      assert r[..|r| - 1] == front;
    }
  }

  /**
   * `d[k] = v`: an existing key keeps its place and takes the new value, a new
   * key is appended.
   */
  function Put<V>(d: Dict<V>, k: string, v: V): Dict<V> {
    if HasKey(d, k) then ReplaceAll(d, k, v) else d + [Entry(k, v)]
  }

  /** After `d[k] = v`, `k` maps to `v` and every other key to what it mapped to before. */
  lemma PutGet<V>(d: Dict<V>, k: string, v: V)
    ensures Get(Put(d, k, v), k) == Some(v)
    ensures forall k' :: k' != k ==> Get(Put(d, k, v), k') == Get(d, k')
    ensures HasKey(d, k) ==> |Put(d, k, v)| == |d| && forall i :: 0 <= i < |d| ==> Put(d, k, v)[i].key == d[i].key
    ensures !HasKey(d, k) ==> Put(d, k, v) == d + [Entry(k, v)]
  {
    if HasKey(d, k) {
      ReplaceAllKeeps(d, k, v);
    } else {
      var r := d + [Entry(k, v)];
      assert r[..|r| - 1] == d;
    }
  }

  /** A decoded JSON value; numbers with a fraction or exponent are not modelled. */
  datatype Json =
    | JNull
    | JBool(b: bool)
    | JInt(n: int)
    | JStr(s: string)
    | JArr(items: seq<Json>)
    | JObj(members: Dict<Json>)

  /** What `JSONDecoder().raw_decode` returns: the value and how many characters it used. */
  datatype Decoded = Decoded(value: Json, consumed: nat)

  /**
   * `json.JSONDecoder().raw_decode`, left abstract: on success it has used at
   * least one character and no more than the text holds; None stands for
   * `JSONDecodeError`. It reads one JSON value from the very start of the text
   * (no leading whitespace) and ignores whatever follows it.
   */
  type RawDecoder = f: string -> Option<Decoded>
    | forall s :: f(s).Some? ==> 0 < f(s).value.consumed <= |s|
    witness (s: string) => None

  predicate IsJsonSpace(c: char) {
    c == ' ' || c == '\t' || c == '\n' || c == '\r'
  }

  /** The first index at or after `i` that is not JSON whitespace. */
  function SkipSpace(s: string, i: nat): (r: nat)
    requires i <= |s|
    ensures i <= r <= |s|
    decreases |s| - i
  {
    if i < |s| && IsJsonSpace(s[i]) then SkipSpace(s, i + 1) else i
  }

  /** Skipping stops at the first character that is not JSON whitespace. */
  lemma {:induction false} SkipSpaceStops(s: string, i: nat)
    requires i <= |s|
    ensures SkipSpace(s, i) == |s| || !IsJsonSpace(s[SkipSpace(s, i)])
    ensures forall k :: i <= k < SkipSpace(s, i) ==> IsJsonSpace(s[k])
    decreases |s| - i
  {
    if i < |s| && IsJsonSpace(s[i]) {
      SkipSpaceStops(s, i + 1);
    }
  }

  /**
   * `json.loads(s)`: refuses a leading byte-order mark, skips whitespace,
   * decodes one value and accepts only whitespace after it.
   */
  function Loads(dec: RawDecoder, s: string): (r: Option<Json>)
    ensures r.Some? ==> |s| > 0 && s[0] != '\U{FEFF}'
  {
    if |s| > 0 && s[0] == '\U{FEFF}' then None
    else
      var i := SkipSpace(s, 0);
      match dec(s[i..])
      case None => None
      case Some(d) => if SkipSpace(s, i + d.consumed) == |s| then Some(d.value) else None
  }

  /**
   * `json.loads` accepts exactly one value: no byte-order mark, then JSON
   * whitespace, a value the decoder reads, and nothing but JSON whitespace
   * after it. The result is that value.
   */
  lemma LoadsAcceptsOneValue(dec: RawDecoder, s: string)
    ensures var i := SkipSpace(s, 0);
      && (forall k :: 0 <= k < i ==> IsJsonSpace(s[k]))
      && (Loads(dec, s).Some? <==>
            && !(|s| > 0 && s[0] == '\U{FEFF}')
            && dec(s[i..]).Some?
            && forall k :: i + dec(s[i..]).value.consumed <= k < |s| ==> IsJsonSpace(s[k]))
      && (Loads(dec, s).Some? ==> Loads(dec, s) == Some(dec(s[i..]).value.value))
  {
    var i := SkipSpace(s, 0);
    SkipSpaceStops(s, 0);
    if dec(s[i..]).Some? {
      var j := i + dec(s[i..]).value.consumed;
      SkipSpaceStops(s, j);
    }
  }

  /** How `json.dumps` (ensure_ascii) writes one code unit below 0x10000 as `\uXXXX`. */
  function UEscape(n: nat): string
    requires n < 0x10000
  {
    ['\\', 'u', HexDigit(n / 0x1000), HexDigit(n / 0x100 % 16), HexDigit(n / 16 % 16), HexDigit(n % 16)]
  }

  /** How `json.dumps` writes one character of a string. */
  function EscapeChar(c: char): string {
    if c == '"' then "\\\""
    else if c == '\\' then "\\\\"
    else if c == '\n' then "\\n"
    else if c == '\r' then "\\r"
    else if c == '\t' then "\\t"
    else if c == '\U{8}' then "\\b"
    else if c == '\U{C}' then "\\f"
    else if ' ' <= c <= '~' then [c]
    else if c as int < 0x10000 then UEscape(c as int)
    else
      var n := c as int - 0x10000;
      UEscape(0xD800 + n / 0x400) + UEscape(0xDC00 + n % 0x400)
  }

  function EscapeBody(s: string): string {
    if s == [] then "" else EscapeChar(s[0]) + EscapeBody(s[1..])
  }

  /** A JSON string literal with the escapes of `json.dumps`. */
  function Quote(s: string): string {
    "\"" + EscapeBody(s) + "\""
  }

  /** `json.dumps(v)` with the default separators `", "` and `": "`. */
  function Dumps(v: Json): string
    decreases v
  {
    match v
    case JNull => "null"
    case JBool(b) => if b then "true" else "false"
    case JInt(n) => IntToString(n)
    case JStr(s) => Quote(s)
    case JArr(items) => "[" + DumpsItems(items) + "]"
    case JObj(members) => "{" + DumpsMembers(members) + "}"
  }

  function DumpsItems(items: seq<Json>): string
    decreases items
  {
    if |items| == 0 then ""
    else if |items| == 1 then Dumps(items[0])
    else Dumps(items[0]) + ", " + DumpsItems(items[1..])
  }

  function DumpsMembers(members: Dict<Json>): string
    decreases members
  {
    if |members| == 0 then ""
    else
      var m := Quote(members[0].key) + ": " + Dumps(members[0].value);
      if |members| == 1 then m else m + ", " + DumpsMembers(members[1..])
  }

  /** The name of the Python type a JSON value decodes to. */
  function TypeName(v: Json): string {
    match v
    case JNull => "NoneType"
    case JBool(_) => "bool"
    case JInt(_) => "int"
    case JStr(_) => "str"
    case JArr(_) => "list"
    case JObj(_) => "dict"
  }

  predicate Hashable(v: Json) {
    !v.JArr? && !v.JObj?
  }

  /** `str(v)` for a hashable value, as an f-string renders it. */
  function PyStrOf(v: Json): string
    requires Hashable(v)
  {
    match v
    case JNull => "None"
    case JBool(b) => if b then "True" else "False"
    case JInt(n) => IntToString(n)
    case JStr(s) => s
  }

  /** `repr(v)` for a hashable value. */
  function PyReprOf(v: Json): string
    requires Hashable(v)
  {
    match v
    case JStr(s) => PyRepr(s)
    case _ => PyStrOf(v)
  }

  /**
   * Python's `key in v`: a dict key, a list element, a substring; other types
   * raise TypeError (its message is the error).
   */
  function PyIn(key: string, v: Json): (r: Result<bool, string>)
    ensures v.JObj? ==> r == Ok(HasKey(v.members, key))
    ensures r.Err? <==> !(v.JObj? || v.JArr? || v.JStr?)
  {
    match v
    case JObj(members) => Ok(HasKey(members, key))
    case JArr(items) => Ok(JStr(key) in items)
    case JStr(s) => Ok(Find(s, key) != -1)
    case _ => Err("argument of type '" + TypeName(v) + "' is not iterable")
  }

  /**
   * Python's `v[key]` for a string key: a dict lookup that raises KeyError
   * (whose text is the key's repr) for a missing key, TypeError for the other
   * types.
   */
  function Subscript(v: Json, key: string): (r: Result<Json, string>)
    ensures v.JObj? && HasKey(v.members, key) ==> r == Ok(Get(v.members, key).value)
    ensures v.JObj? && !HasKey(v.members, key) ==> r == Err(PyRepr(key))
    ensures !v.JObj? ==> r.Err?
  {
    match v
    case JObj(members) =>
      (match Get(members, key)
       case Some(x) => Ok(x)
       case None => Err(PyRepr(key)))
    case JArr(_) => Err("list indices must be integers or slices, not str")
    case JStr(_) => Err("string indices must be integers, not 'str'")
    case _ => Err("'" + TypeName(v) + "' object is not subscriptable")
  }
}

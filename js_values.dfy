/** JavaScript values as the in-page scripts see them, and the part of the
    built-in `JSON.stringify` (section 25.5.2 of ECMA-262) that they rely on.
    Numbers are modelled as integers; an object is the ordered list of its own
    enumerable properties, whose keys are taken to be distinct. */
module JsValues {
  import opened Options

  /** A JavaScript value. */
  datatype Value =
    | Undefined
    | Null
    | Bool(b: bool)
    | Num(n: int)
    | Str(s: string)
    | Arr(items: seq<Value>)
    | Obj(props: seq<Prop>)
    | Fun(f: Func)

  /** One own property of an object. */
  datatype Prop = Prop(key: string, value: Value)

  /** Where a hook wrapper takes the side-channel prefix from when it runs:
      a constant captured when it was built, or the `window.__patch_prefix`
      global read at call time. */
  datatype PrefixSource = Captured(prefix: string) | WindowPrefix

  /** The function values that occur in the model. */
  datatype Func =
      /** A function of the page itself; what it does is not visible here. */
    | Native(id: nat)
      /** A hook wrapper: it replies `event` on the side channel (its argument
          as payload when `forwardsArg`, otherwise no payload) and then calls
          `original` (with the same argument when `forwardsArg`, otherwise
          with none). */
    | Hook(source: PrefixSource, event: string, forwardsArg: bool, original: Value)
      /** `() => undefined` */
    | ReturnsUndefined
      /** `() => new Date().getTime() / 1000.0` */
    | ReturnsTime

  /** The result of the `typeof` operator. */
  function TypeOf(v: Value): (t: string)
    ensures t == "object" <==> v.Null? || v.Arr? || v.Obj?
    ensures t == "function" <==> v.Fun?
  {
    match v
    case Undefined => "undefined"
    case Null => "object"
    case Bool(_) => "boolean"
    case Num(_) => "number"
    case Str(_) => "string"
    case Arr(_) => "object"
    case Obj(_) => "object"
    case Fun(_) => "function"
  }

  /** The value of the first property named `key`, or undefined. */
  function Lookup(props: seq<Prop>, key: string): (r: Value)
    ensures r != Undefined ==> exists i :: 0 <= i < |props| && props[i] == Prop(key, r)
    ensures (forall i :: 0 <= i < |props| ==> props[i].key != key) ==> r == Undefined
    ensures forall i :: 0 <= i < |props| && props[i].key == key && (forall j :: 0 <= j < i ==> props[j].key != key)
                        ==> r == props[i].value
  {
    if props == [] then Undefined
    else if props[0].key == key then props[0].value
    else Lookup(props[1..], key)
  }

  /** The keys of an object, in order. */
  function Keys(props: seq<Prop>): (keys: seq<string>)
    ensures |keys| == |props|
    ensures forall i :: 0 <= i < |props| ==> keys[i] == props[i].key
  {
    if props == [] then [] else [props[0].key] + Keys(props[1..])
  }

  /** Property access `v.key`: `None` when it throws a TypeError, which it
      does exactly on undefined and null. Other non-objects have no
      properties that the model tracks. */
  function GetProperty(v: Value, key: string): (r: Option<Value>)
    ensures r.None? <==> v.Undefined? || v.Null?
    ensures v.Obj? ==> r == Some(Lookup(v.props, key))
  {
    match v
    case Undefined => None
    case Null => None
    case Obj(props) => Some(Lookup(props, key))
    case _ => Some(Undefined)
  }

  /** A JSON text value: what `JSON.stringify` can emit. */
  datatype Json =
    | JNull
    | JBool(b: bool)
    | JNum(n: int)
    | JStr(s: string)
    | JArr(items: seq<Json>)
    | JObj(members: seq<Member>)

  /** One member of a JSON object. */
  datatype Member = Member(key: string, value: Json)

  /** `JSON.stringify(v)` without a replacer, as a JSON value; `None` is the
      undefined result. Array elements that serialise to nothing become
      null; object properties that serialise to nothing are left out. */
  function ToJson(v: Value): (r: Option<Json>)
    ensures r.None? <==> v.Undefined? || v.Fun?
    ensures v.Arr? ==> r.Some? && r.value.JArr? && |r.value.items| == |v.items|
    ensures v.Obj? ==> r.Some? && r.value.JObj? && |r.value.members| <= |v.props|
  {
    match v
    case Undefined => None
    case Fun(_) => None
    case Null => Some(JNull)
    case Bool(b) => Some(JBool(b))
    case Num(n) => Some(JNum(n))
    case Str(s) => Some(JStr(s))
    case Arr(items) => Some(JArr(ToJsonItems(items)))
    case Obj(props) => Some(JObj(ToJsonProps(props)))
  }

  function ToJsonItems(items: seq<Value>): (r: seq<Json>)
    ensures |r| == |items|
  {
    if items == [] then []
    else [OrNull(ToJson(items[0]))] + ToJsonItems(items[1..])
  }

  function ToJsonProps(props: seq<Prop>): (r: seq<Member>)
    ensures |r| <= |props|
  {
    if props == [] then []
    else
      match ToJson(props[0].value)
      case None => ToJsonProps(props[1..])
      case Some(j) => [Member(props[0].key, j)] + ToJsonProps(props[1..])
  }

  function OrNull(r: Option<Json>): Json {
    match r
    case None => JNull
    case Some(j) => j
  }

  /** A JSON value with no array or object: what a replacer-filtered
      property can carry. */
  predicate IsScalar(j: Json) {
    !j.JArr? && !j.JObj?
  }

  function DigitChar(d: nat): (c: char)
    requires d < 10
    ensures '0' <= c <= '9'
  {
    ['0', '1', '2', '3', '4', '5', '6', '7', '8', '9'][d]
  }

  /** Decimal digits of a natural number, as `String(n)` writes them for
      `n` below 10^21; from 10^21 on JavaScript writes an exponent form,
      which is not modelled. */
  function NatToString(n: nat): (s: string)
    ensures s != []
    ensures forall i :: 0 <= i < |s| ==> '0' <= s[i] <= '9'
  {
    if n < 10 then [DigitChar(n)] else NatToString(n / 10) + [DigitChar(n % 10)]
  }

  function IntToString(n: int): (s: string)
    ensures s != []
    ensures n < 0 <==> s[0] == '-'
  {
    if n < 0 then "-" + NatToString(-n) else NatToString(n)
  }

  function HexDigit(d: nat): (c: char)
    requires d < 16
  {
    ['0', '1', '2', '3', '4', '5', '6', '7', '8', '9', 'a', 'b', 'c', 'd', 'e', 'f'][d]
  }

  /** The escape sequence `JSON.stringify` writes for one character of a
      string (QuoteJSONString, ECMA-262 section 25.5.2.3). Characters are
      Unicode scalar values, so the lone-surrogate case does not arise. */
  function EscapeChar(c: char): (e: string)
    ensures e != []
    ensures e[0] == '\\' || e == [c]
    ensures e == [c] <==> c != '"' && c != '\\' && c as int >= 0x20
  {
    if c == '"' then "\\\""
    else if c == '\\' then "\\\\"
    else if c as int == 0x08 then "\\b"
    else if c as int == 0x09 then "\\t"
    else if c as int == 0x0A then "\\n"
    else if c as int == 0x0C then "\\f"
    else if c as int == 0x0D then "\\r"
    else if c as int < 0x20 then
      "\\u00" + [HexDigit(c as int / 16), HexDigit(c as int % 16)]
    else [c]
  }

  function EscapeString(s: string): string {
    if s == [] then [] else EscapeChar(s[0]) + EscapeString(s[1..])
  }

  function Quote(s: string): (q: string)
    ensures |q| >= 2 && q[0] == '"' && q[|q| - 1] == '"'
  {
    "\"" + EscapeString(s) + "\""
  }

  /** The text of a JSON value as `JSON.stringify` writes it: no white space,
      members in order. */
  function Render(j: Json): (t: string)
    ensures t != []
  {
    match j
    case JNull => "null"
    case JBool(b) => if b then "true" else "false"
    case JNum(n) => IntToString(n)
    case JStr(s) => Quote(s)
    case JArr(items) => "[" + RenderItems(items) + "]"
    case JObj(members) => "{" + RenderMembers(members) + "}"
  }

  function RenderItems(items: seq<Json>): string {
    if items == [] then ""
    else if |items| == 1 then Render(items[0])
    else Render(items[0]) + "," + RenderItems(items[1..])
  }

  function RenderMembers(members: seq<Member>): string {
    if members == [] then ""
    else if |members| == 1 then Quote(members[0].key) + ":" + Render(members[0].value)
    else Quote(members[0].key) + ":" + Render(members[0].value) + "," + RenderMembers(members[1..])
  }

  predicate NeedsNoEscape(s: string) {
    forall i :: 0 <= i < |s| ==> s[i] != '"' && s[i] != '\\' && s[i] as int >= 0x20
  }

  /** A string without quotes, backslashes or control characters is quoted
      as it stands. */
  lemma {:induction false} PlainQuote(s: string)
    requires NeedsNoEscape(s)
    ensures Quote(s) == "\"" + s + "\""
  {
    PlainEscape(s);
  }

  lemma {:induction false} PlainEscape(s: string)
    requires NeedsNoEscape(s)
    ensures EscapeString(s) == s
  {
    if s != [] {
      assert NeedsNoEscape(s[1..]) by {
        forall i | 0 <= i < |s[1..]| ensures s[1..][i] == s[i + 1] { }
      }
      PlainEscape(s[1..]);
      assert EscapeChar(s[0]) == [s[0]];
      assert s == [s[0]] + s[1..];
    }
  }
}

/** The side-channel format shared by the two in-page scripts: the replacer
    that flattens settings objects before they are serialised, and the debug
    line a reply writes (scripts/profile.js:3-16, patch.js:1-14). */
module SideChannel {
  import opened Options
  import opened JsValues

  /** The `replacer` handed to `JSON.stringify`: the root (empty key) passes
      unchanged; below it every value whose `typeof` is "object" (object,
      array, null) is replaced by undefined, and everything else passes. */
  function Replacer(key: string, value: Value): (r: Value)
    ensures r == value || r == Undefined
    ensures key == "" ==> r == value
    ensures r != value <==> key != "" && TypeOf(value) == "object"
  {
    if key == "" then value
    else if TypeOf(value) == "object" then Undefined
    else value
  }

  /** `JSON.stringify(v, Replacer)` for the property `key` of its holder (the
      root is asked about with the empty key). Array elements are asked
      about with their index as key, object properties with their name. */
  function Stringify(key: string, v: Value): (r: Option<Json>)
    ensures Replacer(key, v) == Undefined ==> r.None?
    decreases v
  {
    if Replacer(key, v) == Undefined then None
    else
      match v
      case Undefined => None
      case Fun(_) => None
      case Null => Some(JNull)
      case Bool(b) => Some(JBool(b))
      case Num(n) => Some(JNum(n))
      case Str(s) => Some(JStr(s))
      case Arr(items) => Some(JArr(StringifyItems(items, 0)))
      case Obj(props) => Some(JObj(StringifyProps(props)))
  }

  /** The elements of an array, the first one at index `from`. */
  function StringifyItems(items: seq<Value>, from: nat): (r: seq<Json>)
    ensures |r| == |items|
    decreases items
  {
    if items == [] then []
    else [OrNull(Stringify(NatToString(from), items[0]))] + StringifyItems(items[1..], from + 1)
  }

  function StringifyProps(props: seq<Prop>): (r: seq<Member>)
    ensures |r| <= |props|
    decreases props
  {
    if props == [] then []
    else
      match Stringify(props[0].key, props[0].value)
      case None => StringifyProps(props[1..])
      case Some(j) => [Member(props[0].key, j)] + StringifyProps(props[1..])
  }

  /** The text a settings field carries: the JSON text, or undefined when
      `JSON.stringify` returns undefined. */
  function StringifiedText(v: Value): (r: Value)
    ensures r.Undefined? || r.Str?
    ensures r.Undefined? <==> v.Undefined? || v.Fun?
    ensures r.Str? ==> r.s == Render(Stringify("", v).value)
  {
    match Stringify("", v)
    case None => Undefined
    case Some(j) => Str(Render(j))
  }

  /** The top-level properties that are not object-typed. */
  function NonObjectProps(props: seq<Prop>): (r: seq<Prop>)
    ensures forall i :: 0 <= i < |r| ==> TypeOf(r[i].value) != "object"
    ensures |r| <= |props|
  {
    if props == [] then []
    else if TypeOf(props[0].value) == "object" then NonObjectProps(props[1..])
    else [props[0]] + NonObjectProps(props[1..])
  }

  predicate NonEmptyKeys(props: seq<Prop>) {
    forall i :: 0 <= i < |props| ==> props[i].key != ""
  }

  /** Below the root, a value that is not object-typed serialises exactly as
      it does without a replacer. */
  lemma StringifyNonObject(key: string, v: Value)
    requires TypeOf(v) != "object"
    ensures Stringify(key, v) == ToJson(v)
  {
  }

  /** With non-empty property names, the replacer-filtered properties are
      the plain serialisation of the non-object properties alone. */
  lemma {:induction false} StringifyPropsDropsObjects(props: seq<Prop>)
    requires NonEmptyKeys(props)
    ensures StringifyProps(props) == ToJsonProps(NonObjectProps(props))
  {
    if props != [] {
      assert NonEmptyKeys(props[1..]) by {
        forall i | 0 <= i < |props[1..]| ensures props[1..][i].key != "" {
          assert props[1..][i] == props[i + 1];
        }
      }
      StringifyPropsDropsObjects(props[1..]);
      var p := props[0];
      if TypeOf(p.value) == "object" {
        assert Stringify(p.key, p.value).None?;
      } else {
        StringifyNonObject(p.key, p.value);
        assert NonObjectProps(props) == [p] + NonObjectProps(props[1..]);
      }
    }
  }

  /** A settings object serialised with the replacer is the object of its
      top-level non-object fields serialised without one: nested objects,
      arrays and nulls are gone. */
  lemma StringifyObjectKeepsTopLevel(props: seq<Prop>)
    requires NonEmptyKeys(props)
    ensures Stringify("", Obj(props)) == ToJson(Obj(NonObjectProps(props)))
  {
    StringifyPropsDropsObjects(props);
  }

  /** Every member that survives the replacer below the root is a scalar. */
  lemma {:induction false} StringifyPropsAreScalar(props: seq<Prop>)
    requires NonEmptyKeys(props)
    ensures forall i :: 0 <= i < |StringifyProps(props)| ==> IsScalar(StringifyProps(props)[i].value)
  {
    if props != [] {
      assert NonEmptyKeys(props[1..]) by {
        forall i | 0 <= i < |props[1..]| ensures props[1..][i].key != "" {
          assert props[1..][i] == props[i + 1];
        }
      }
      StringifyPropsAreScalar(props[1..]);
      var p := props[0];
      if TypeOf(p.value) != "object" {
        StringifyNonObject(p.key, p.value);
      }
    }
  }

  /** Array elements: every object-typed element becomes null, others
      serialise as without a replacer. */
  lemma {:induction false} StringifyItemsNullsObjects(items: seq<Value>, from: nat)
    ensures forall i :: 0 <= i < |items| ==>
      StringifyItems(items, from)[i] == (if TypeOf(items[i]) == "object" then JNull else OrNull(ToJson(items[i])))
  {
    if items != [] {
      StringifyItemsNullsObjects(items[1..], from + 1);
      var r := StringifyItems(items, from);
      assert r == [OrNull(Stringify(NatToString(from), items[0]))] + StringifyItems(items[1..], from + 1);
      forall i | 0 <= i < |items|
        ensures r[i] == (if TypeOf(items[i]) == "object" then JNull else OrNull(ToJson(items[i])))
      {
        if i == 0 {
          if TypeOf(items[0]) != "object" {
            StringifyNonObject(NatToString(from), items[0]);
          }
        } else {
          assert r[i] == StringifyItems(items[1..], from + 1)[i - 1];
          assert items[1..][i - 1] == items[i];
        }
      }
    }
  }

  /** The empty key is treated as the root wherever it occurs: an object
      stored under an empty property name is kept, and it is its own
      properties that are filtered, one level further down. */
  lemma EmptyKeyKeepsNestedObject(props: seq<Prop>)
    requires NonEmptyKeys(props)
    ensures Stringify("", Obj([Prop("", Obj(props))]))
         == Some(JObj([Member("", JObj(ToJsonProps(NonObjectProps(props))))]))
  {
    StringifyPropsDropsObjects(props);
    var outer := [Prop("", Obj(props))];
    assert Stringify("", Obj(props)) == Some(JObj(ToJsonProps(NonObjectProps(props))));
    assert StringifyProps(outer[1..]) == [];
    assert StringifyProps(outer) == [Member("", JObj(ToJsonProps(NonObjectProps(props))))];
  }

  /** `payload = null`: an omitted (undefined) payload becomes null. */
  function DefaultNull(payload: Value): (r: Value)
    ensures r != Undefined
    ensures payload == Undefined ==> r == Null
    ensures payload != Undefined ==> r == payload
  {
    if payload == Undefined then Null else payload
  }

  /** The object `{type: type, payload: payload}` a reply serialises. */
  function Message(kind: string, payload: Value): Value {
    Obj([Prop("type", Str(kind)), Prop("payload", DefaultNull(payload))])
  }

  /** The debug line `reply(kind, payload)` writes: the prefix followed by
      `JSON.stringify({type, payload})`. */
  function ReplyLine(prefix: string, kind: string, payload: Value): (line: string)
    ensures |line| > |prefix| && line[..|prefix|] == prefix
  {
    prefix + Render(ToJson(Message(kind, payload)).value)
  }

  /** The members of the reply object after `type`: the payload, unless it
      is a function (which `JSON.stringify` leaves out). */
  function PayloadMembers(payload: Value): (r: seq<Member>)
    ensures |r| <= 1
  {
    match ToJson(DefaultNull(payload))
    case Some(j) => [Member("payload", j)]
    case None => []
  }

  lemma MessageToJson(kind: string, payload: Value)
    ensures ToJson(Message(kind, payload)) == Some(JObj([Member("type", JStr(kind))] + PayloadMembers(payload)))
  {
    var props := Message(kind, payload).props;
    assert props[1..] == [Prop("payload", DefaultNull(payload))];
    assert ToJsonProps(props[1..]) == PayloadMembers(payload);
    assert ToJsonProps(props) == [Member("type", JStr(kind))] + ToJsonProps(props[1..]);
  }

  /** The text after the prefix: the type first, then the payload; the payload
      member is left out only when the payload is a function. */
  lemma ReplyLineFormat(prefix: string, kind: string, payload: Value)
    ensures ReplyLine(prefix, kind, payload) ==
      prefix + "{\"type\":" + Quote(kind) + PayloadText(payload) + "}"
  {
    var ms := [Member("type", JStr(kind))] + PayloadMembers(payload);
    MessageToJson(kind, payload);
    RenderObject(ms);
    RenderReplyMembers(kind, payload);
    Regroup(prefix, Quote(kind), PayloadText(payload));
  }

  lemma RenderObject(ms: seq<Member>)
    ensures Render(JObj(ms)) == "{" + RenderMembers(ms) + "}"
  {
  }

  lemma RenderReplyMembers(kind: string, payload: Value)
    ensures RenderMembers([Member("type", JStr(kind))] + PayloadMembers(payload))
         == "\"type\":" + Quote(kind) + PayloadText(payload)
  {
    var pj := ToJson(DefaultNull(payload));
    assert PayloadMembers(payload) == (if pj.Some? then [Member("payload", pj.value)] else []);
    assert PayloadText(payload) == (if pj.Some? then ",\"payload\":" + Render(pj.value) else "");
    RenderOptionalPayload(kind, pj);
  }

  lemma RenderOptionalPayload(kind: string, pj: Option<Json>)
    ensures RenderMembers([Member("type", JStr(kind))] + (if pj.Some? then [Member("payload", pj.value)] else []))
         == "\"type\":" + Quote(kind) + (if pj.Some? then ",\"payload\":" + Render(pj.value) else "")
  {
    if pj.Some? {
      RenderTypeAndPayload(kind, pj.value);
      PairConcat(Member("type", JStr(kind)), Member("payload", pj.value));
    } else {
      RenderTypeOnly(kind);
      SingleConcat(Member("type", JStr(kind)));
    }
  }

  lemma PairConcat<T>(a: T, b: T)
    ensures [a] + [b] == [a, b]
  {
  }

  lemma SingleConcat<T>(a: T)
    ensures [a] + [] == [a]
  {
  }

  lemma RenderTypeOnly(kind: string)
    ensures RenderMembers([Member("type", JStr(kind))]) == "\"type\":" + Quote(kind) + ""
  {
    TypeMemberText(Quote(kind));
  }

  lemma RenderTypeAndPayload(kind: string, j: Json)
    ensures RenderMembers([Member("type", JStr(kind)), Member("payload", j)])
         == "\"type\":" + Quote(kind) + (",\"payload\":" + Render(j))
  {
    RenderTwoMembers(Member("type", JStr(kind)), Member("payload", j));
    TypeMemberText(Quote(kind));
    PayloadMemberText(Render(j));
  }

  lemma RenderTwoMembers(a: Member, b: Member)
    ensures RenderMembers([a, b])
         == Quote(a.key) + ":" + Render(a.value) + ("," + (Quote(b.key) + ":" + Render(b.value)))
  {
    assert [a, b][1..] == [b];
  }

  lemma TypeMemberText(q: string)
    ensures Quote("type") + ":" + q == "\"type\":" + q
  {
    PlainQuote("type");
    TypeLiteral(q);
  }

  lemma PayloadMemberText(r: string)
    ensures "," + (Quote("payload") + ":" + r) == ",\"payload\":" + r
  {
    PlainQuote("payload");
    PayloadKey(Quote("payload"), r);
  }

  lemma PayloadKey(q: string, r: string)
    requires q == "\"" + "payload" + "\""
    ensures "," + (q + ":" + r) == ",\"payload\":" + r
  {
    PayloadLiteral(r);
  }

  lemma TypeLiteral(r: string)
    ensures "\"" + "type" + "\"" + ":" + r == "\"type\":" + r
  {
    assert "\"" + "type" + "\"" + ":" == "\"type\":";
  }

  lemma PayloadLiteral(r: string)
    ensures "," + ("\"" + "payload" + "\"" + ":" + r) == ",\"payload\":" + r
  {
    assert "," + "\"" + "payload" + "\"" + ":" == ",\"payload\":";
  }

  lemma Regroup(prefix: string, q: string, rest: string)
    ensures prefix + ("{" + (("\"type\":" + q) + rest) + "}") == prefix + "{\"type\":" + q + rest + "}"
  {
  }

  /** `,"payload":` and the payload's JSON, or nothing for a function. */
  function PayloadText(payload: Value): string {
    match ToJson(DefaultNull(payload))
    case Some(j) => ",\"payload\":" + Render(j)
    case None => ""
  }

  /** A reply without payload carries `"payload":null`. */
  lemma ReplyWithoutPayload(prefix: string, kind: string)
    ensures ReplyLine(prefix, kind, Undefined) == prefix + "{\"type\":" + Quote(kind) + ",\"payload\":null}"
  {
    ReplyLineFormat(prefix, kind, Undefined);
  }
}

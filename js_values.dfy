/** The small slice of JavaScript values that the generated `__writeattr__` helpers of
    both writers inspect at render time: what `Boolean(v)` says of a value, how
    `Array.prototype.join` prints one, and what the escape helper makes of one. */
module JsValues {
  import opened Wrappers
  import opened Strings
  import opened Escaping

  /** `null`/`undefined`, booleans, integers, strings, arrays and plain objects
      (an object is its own-key entries in key order). */
  datatype JsValue =
    | JUndefined
    | JNull
    | JBool(b: bool)
    | JNum(n: int)
    | JStr(s: string)
    | JArray(items: seq<JsValue>)
    | JObject(entries: seq<(string, JsValue)>)

  /** `Boolean(v)`. */
  predicate Truthy(v: JsValue)
  {
    match v
    case JUndefined => false
    case JNull => false
    case JBool(b) => b
    case JNum(n) => n != 0
    case JStr(s) => s != ""
    case JArray(_) => true
    case JObject(_) => true
  }

  /** `v == null` (loose equality: `null` or `undefined`). */
  predicate IsNullish(v: JsValue)
  {
    v.JUndefined? || v.JNull?
  }

  /** `v != null && typeof v === 'object'`. */
  predicate IsObject(v: JsValue)
  {
    v.JArray? || v.JObject?
  }

  function IntToString(n: int): string
  {
    if n < 0 then "-" + NatToString(-n) else NatToString(n)
  }

  /** How `Array.prototype.join` prints one element. */
  function JoinText(v: JsValue): string
  {
    match v
    case JUndefined => ""
    case JNull => ""
    case JBool(b) => if b then "true" else "false"
    case JNum(n) => IntToString(n)
    case JStr(s) => s
    case JArray(items) => Join(JoinTexts(items), ",")
    case JObject(_) => "[object Object]"
  }

  function JoinTexts(items: seq<JsValue>): (r: seq<string>)
    ensures |r| == |items|
  {
    if items == [] then [] else [JoinText(items[0])] + JoinTexts(items[1..])
  }

  /** `Object.keys(v).filter((key) => Boolean(v[key]))`. */
  function TruthyKeys(entries: seq<(string, JsValue)>): seq<string>
  {
    if entries == [] then []
    else (if Truthy(entries[0].1) then [entries[0].0] else []) + TruthyKeys(entries[1..])
  }

  /** The filter keeps the entries' order: it distributes over concatenation. */
  lemma {:induction false} TruthyKeysAppend(a: seq<(string, JsValue)>, b: seq<(string, JsValue)>)
    ensures TruthyKeys(a + b) == TruthyKeys(a) + TruthyKeys(b)
  {
    if a == [] {
      assert a + b == b;
    } else {
      assert (a + b)[0] == a[0];
      assert (a + b)[1..] == a[1..] + b;
      TruthyKeysAppend(a[1..], b);
    }
  }

  /** A key is listed exactly when some entry with that key has a truthy value. */
  lemma {:induction false} TruthyKeysMember(entries: seq<(string, JsValue)>, key: string)
    ensures key in TruthyKeys(entries) <==>
      exists i :: 0 <= i < |entries| && entries[i].0 == key && Truthy(entries[i].1)
  {
    if entries != [] {
      TruthyKeysMember(entries[1..], key);
      if key in TruthyKeys(entries[1..]) {
        var i :| 0 <= i < |entries[1..]| && entries[1..][i].0 == key && Truthy(entries[1..][i].1);
        assert entries[i + 1] == entries[1..][i];
      }
      if exists i :: 0 <= i < |entries| && entries[i].0 == key && Truthy(entries[i].1) {
        var i :| 0 <= i < |entries| && entries[i].0 == key && Truthy(entries[i].1);
        if i > 0 {
          assert entries[1..][i - 1] == entries[i];
        }
      }
    }
  }

  /** One step of `Array.from(v).map(switch)`: an element equal to a one-character
      special string is escaped, any other element is kept. */
  function EscapeElement(v: JsValue): string
  {
    if v.JStr? && |v.s| == 1 && IsSpecial(v.s[0]) then EscapeChar(v.s[0]) else JoinText(v)
  }

  function EscapeElements(items: seq<JsValue>): string
  {
    if items == [] then "" else EscapeElement(items[0]) + EscapeElements(items[1..])
  }

  /** `escapeString(v)` applied at render time to any value: a string is escaped, an
      array is walked element by element, and values `Array.from` sees as empty
      (booleans, numbers, plain objects) give ""; `null`/`undefined` make
      `Array.from` throw, shown as None. */
  function EscapeValue(v: JsValue): Option<string>
  {
    match v
    case JUndefined => None
    case JNull => None
    case JStr(s) => Some(Escape(s))
    case JArray(items) => Some(EscapeElements(items))
    case _ => Some("")
  }

  /** `items.map(escapeString)`, None when one of the calls throws. */
  function EscapeAll(items: seq<JsValue>): Option<seq<string>>
  {
    if items == [] then Some([])
    else match (EscapeValue(items[0]), EscapeAll(items[1..]))
      case (Some(h), Some(t)) => Some([h] + t)
      case _ => None
  }

  /** Strings as values. */
  function StringValues(items: seq<string>): (r: seq<JsValue>)
    ensures |r| == |items| && forall i :: 0 <= i < |items| ==> r[i] == JStr(items[i])
  {
    if items == [] then [] else [JStr(items[0])] + StringValues(items[1..])
  }

  lemma {:induction false} EscapeAllStrings(items: seq<string>)
    ensures EscapeAll(StringValues(items)) == Some(EscapeEach(items))
  {
    if items != [] {
      EscapeAllStrings(items[1..]);
      assert StringValues(items)[1..] == StringValues(items[1..]);
    }
  }
}

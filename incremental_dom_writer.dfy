/** The writer that makes the generated unit drive Incremental DOM
    (src/writers/IncrementalDomWriter.js). Every member only assembles text. */
module IncrementalDomWriter {
  import opened Wrappers
  import opened Strings
  import opened Escaping
  import opened Syntax
  import opened JsValues

  /** `writeIntro(name)`: the function header, the Incremental DOM aliases and the
      `__writeattr__` helper whose behaviour `WriteAttrRule` models. */
  function WriteIntro(name: string): string
  {
    "function " + name + " (data) {\n"
    + "  const __IncrementalDom__ = require('incremental-dom')\n"
    + "  const __elementOpenStart__ = __IncrementalDom__.elementOpenStart\n"
    + "  const __elementOpenEnd__ = __IncrementalDom__.elementOpenEnd\n"
    + "  const __elementClose__ = __IncrementalDom__.elementClose\n"
    + "  const __elementVoid__ = __IncrementalDom__.elementVoid\n"
    + "  const __attr__ = __IncrementalDom__.attr\n"
    + "  const __text__ = __IncrementalDom__.text\n"
    + "  function __writeattr__(name, value) {\n"
    + "    if (name === 'class' && value != null && typeof value === 'object') {\n"
    + "      if (Array.isArray(value)) {\n"
    + "        __attr__(name, value.join(' '))\n"
    + "      } else {\n"
    + "        __attr__(name, Object.keys(value).filter((key) => Boolean(value[key])).join(' '))\n"
    + "      }\n"
    + "    } else {\n"
    + "      __attr__(name, value)\n"
    + "    }\n"
    + "  }\n"
  }

  function WriteOutro(): string
  {
    "}"
  }

  /** A literal argument: the escaped text between single quotes. */
  function Quoted(s: string): string
  {
    "'" + Escape(s) + "'"
  }

  /** The tag argument shared by the open and close calls: a computed tag is the name of
      the variable holding it, a static tag is quoted. */
  function TagArg(tag: string, dynamicTag: bool): string
  {
    if dynamicTag then tag else Quoted(tag)
  }

  /** `writeTextNode(content, dynamicContent, ws)`: an expression is passed as is, static
      text is escaped and quoted. */
  function WriteTextNode(content: string, dynamicContent: bool, ws: string): string
  {
    ws + "__text__(" + (if dynamicContent then content else Quoted(content)) + ")"
  }

  /** `writeElementOpenStart(tag, dynamicTag, key, dynamicKey, ws)`. */
  function WriteElementOpenStart(tag: string, dynamicTag: bool, key: Option<string>, dynamicKey: bool, ws: string): string
  {
    match key
    case Some(k) =>
      ws + "__elementOpenStart__(" + TagArg(tag, dynamicTag) + ", " + (if dynamicKey then k else Quoted(k)) + ")"
    case None =>
      ws + "__elementOpenStart__(" + TagArg(tag, dynamicTag) + ")"
  }

  /** `writeElementOpenEnd(tag, dynamicTag, selfClosing, ws)`: a self-closing element is
      closed on the next line. */
  function WriteElementOpenEnd(tag: string, dynamicTag: bool, selfClosing: bool, ws: string): string
  {
    if selfClosing then
      ws + "__elementOpenEnd__()\n" + ws + "__elementClose__(" + TagArg(tag, dynamicTag) + ")"
    else
      ws + "__elementOpenEnd__()"
  }

  /** `writeElementClose(tag, dynamicTag, ws)`. */
  function WriteElementClose(tag: string, dynamicTag: bool, ws: string): string
  {
    ws + "__elementClose__(" + TagArg(tag, dynamicTag) + ")"
  }

  /** `writeAttribute(name, dynamicName, value, dynamicValue, ws)`: a literal value is
      escaped and quoted; a bare flag, whose value is `true`, escapes to ''. */
  function WriteAttribute(name: string, dynamicName: bool, value: AttrValue, dynamicValue: bool, ws: string): string
  {
    var nameArg := if dynamicName then name else Quoted(name);
    var valueArg := if dynamicValue then ValueText(value) else "'" + EscapedValue(value) + "'";
    ws + "__writeattr__(" + nameArg + ", " + valueArg + ")"
  }

  /** The value the generated `__writeattr__(name, value)` hands to Incremental DOM's
      `attr(name, ...)`: for `class`, an array is joined by spaces and an object becomes
      its truthy keys joined by spaces; every other value is passed through. */
  function WriteAttrRule(name: string, value: JsValue): JsValue
  {
    if name == "class" && !IsNullish(value) && IsObject(value) then
      if value.JArray? then JStr(Join(JoinTexts(value.items), " "))
      else JStr(Join(TruthyKeys(value.entries), " "))
    else
      value
  }

  /** The open and close calls of an element name the same tag expression, and a static
      tag's argument is a quoted literal that reads back as the tag. */
  lemma OpenAndCloseAgree(tag: string, dynamicTag: bool, ws: string)
    ensures WriteElementOpenStart(tag, dynamicTag, None, false, ws) == ws + "__elementOpenStart__(" + TagArg(tag, dynamicTag) + ")"
    ensures WriteElementClose(tag, dynamicTag, ws) == ws + "__elementClose__(" + TagArg(tag, dynamicTag) + ")"
    ensures WriteElementOpenEnd(tag, dynamicTag, true, ws)
            == WriteElementOpenEnd(tag, dynamicTag, false, ws) + "\n" + WriteElementClose(tag, dynamicTag, ws)
    ensures !dynamicTag ==> exists e :: TagArg(tag, dynamicTag) == "'" + e + "'" && LiteralSafe(e) && Unescape(e) == tag
  {
    var t := TagArg(tag, dynamicTag);
    assert WriteElementOpenEnd(tag, dynamicTag, true, ws)
           == (ws + "__elementOpenEnd__()") + "\n" + (ws + "__elementClose__(" + t + ")");
    if !dynamicTag {
      UnescapeEscape(tag);
      assert t == "'" + Escape(tag) + "'";
    }
  }

  /** Static text becomes one quoted literal reading back as the text; an expression is
      copied verbatim. */
  lemma TextNodeArgument(content: string, ws: string)
    ensures exists e :: WriteTextNode(content, false, ws) == ws + "__text__('" + e + "')"
                        && LiteralSafe(e) && Unescape(e) == content
    ensures WriteTextNode(content, true, ws) == ws + "__text__(" + content + ")"
  {
    UnescapeEscape(content);
    assert WriteTextNode(content, false, ws) == ws + "__text__('" + Escape(content) + "')";
  }

  /** A static name and a static string value are each passed as a quoted literal that
      reads back as the original text. */
  lemma AttributeArguments(name: string, v: string, ws: string)
    ensures WriteAttribute(name, false, StringValue(v), false, ws)
            == ws + "__writeattr__(" + Quoted(name) + ", " + Quoted(v) + ")"
    ensures Unescape(Escape(name)) == name && Unescape(Escape(v)) == v
    ensures LiteralSafe(Escape(name)) && LiteralSafe(Escape(v))
  {
    UnescapeEscape(name);
    UnescapeEscape(v);
  }

  /** A bare flag passes the empty string as its value. */
  lemma FlagAttributeArgument(name: string, ws: string)
    ensures WriteAttribute(name, false, FlagValue, false, ws) == ws + "__writeattr__(" + Quoted(name) + ", '')"
  {
  }

  /** For `class` given an object, `attr` receives exactly the keys whose value is truthy,
      in key order, joined by spaces (not escaped: Incremental DOM sets the property). */
  lemma ClassObjectListsTruthyKeys(name: string, entries: seq<(string, JsValue)>, key: string)
    requires name == "class"
    ensures WriteAttrRule(name, JObject(entries)) == JStr(Join(TruthyKeys(entries), " "))
    ensures key in TruthyKeys(entries) <==> exists i :: 0 <= i < |entries| && entries[i].0 == key && Truthy(entries[i].1)
  {
    TruthyKeysMember(entries, key);
    assert IsObject(JObject(entries)) && !IsNullish(JObject(entries));
  }

  /** Values other than a `class` object or array reach `attr` unchanged. */
  lemma AttrRulePassesScalars(name: string, value: JsValue)
    requires name != "class" || !IsObject(value)
    ensures WriteAttrRule(name, value) == value
  {
  }
}

/** The writer that makes the generated unit build an HTML string
    (src/writers/HtmlWriter.js). Every member only assembles text. */
module HtmlWriter {
  import opened Wrappers
  import opened Strings
  import opened Escaping
  import opened Syntax
  import opened JsValues

  const Push: string := "__htmloutput__.push("

  /** Stands for the printed source of the escape helper (`escapeString.toString()`),
      which the intro embeds as the runtime `__escapeString__`. */
  const EscapeHelperSource: string := "function escapeString(string) { ... }"

  /** `writeIntro(name)`: the function header, the output array, the escape helper and
      the `__writeattr__` helper whose behaviour `WriteAttrRule` models. */
  function WriteIntro(name: string): string
  {
    "function " + name + "(data) {\n"
    + "  const __htmloutput__ = [];\n"
    + "  const __escapeString__ = " + EscapeHelperSource + ";\n"
    + "  function __writeattr__(name, value) {\n"
    + "    if (value === true) {\n"
    + "      __htmloutput__.push(` ${name}`)\n"
    + "    } else if (name === 'class' && value != null && typeof value === 'object') {\n"
    + "      if (Array.isArray(value)) {\n"
    + "        __htmloutput__.push(` ${name}=\"${value.map(__escapeString__).join(' ')}\"`)\n"
    + "      } else {\n"
    + "        __htmloutput__.push(` ${name}=\"${Object.keys(value).filter((key) => Boolean(value[key])).map(__escapeString__).join(' ')}\"`)\n"
    + "      }\n"
    + "    } else if (value != null) {\n"
    + "      __htmloutput__.push(` ${name}=\"${__escapeString__(value)}\"`)\n"
    + "    }\n"
    + "  }\n"
  }

  function WriteOutro(): string
  {
    "  return __htmloutput__.join('')\n}"
  }

  /** `writeTextNode(content, dynamicContent, ws)`: the content is escaped in both cases;
      only static content is put between single quotes. */
  function WriteTextNode(content: string, dynamicContent: bool, ws: string): string
  {
    var quote := if dynamicContent then "" else "'";
    ws + Push + quote + Escape(content) + quote + ")"
  }

  /** `writeElementOpenStart(tag, dynamicTag, key, dynamicKey, ws)`. */
  function WriteElementOpenStart(tag: string, dynamicTag: bool, key: Option<string>, dynamicKey: bool, ws: string): string
  {
    var tagText := if dynamicTag then "${" + tag + "}" else tag;
    var quote := if dynamicTag then "`" else "'";
    var keyText := match key
      case None => ""
      case Some(k) => " key=" + (if dynamicKey then k else "\"" + Escape(k) + "\"");
    ws + Push + quote + "<" + tagText + keyText + quote + ")"
  }

  /** `writeElementOpenEnd(selfClosing, ws)`: declared with two parameters, so a caller
      passing four (tag, isOutput, selfClosing, ws) binds the tag to `selfClosing` and
      the tag's dynamic flag to `ws`; the caller does that binding. */
  function WriteElementOpenEnd(selfClosing: bool, ws: string): string
  {
    ws + Push + "'" + (if selfClosing then "/>" else ">") + "')"
  }

  /** `writeElementClose(tag, isOutput, ws)`: quotes the tag text literally, whether or not
      it names a variable holding a computed tag. */
  function WriteElementClose(tag: string, isOutput: bool, ws: string): string
  {
    ws + Push + "'</" + tag + ">')"
  }

  /** `writeAttribute(name, dynamicName, value, dynamicValue, ws)`. */
  function WriteAttribute(name: string, dynamicName: bool, value: AttrValue, dynamicValue: bool, ws: string): string
  {
    var quote := if dynamicName || dynamicValue then "`" else "'";
    var nameText := if dynamicName then "${" + name + "}" else name;
    if value == FlagValue then
      ws + Push + quote + " " + nameText + quote + ")"
    else if dynamicValue then
      var nameArg := if dynamicName then name else "'" + Escape(name) + "'";
      ws + "__writeattr__(" + nameArg + ", " + ValueText(value) + ")"
    else
      ws + "__writeattr__('" + Escape(nameText) + "', \"" + Escape(value.s) + "\")"
  }

  /** What one call of the generated `__writeattr__(name, value)` does to the output. */
  datatype AttrEffect = Pushes(text: string) | Nothing | Throws

  /** The rule inside the generated `__writeattr__`. */
  function WriteAttrRule(name: string, value: JsValue): AttrEffect
  {
    if value == JBool(true) then
      Pushes(" " + name)
    else if name == "class" && IsObject(value) then
      if value.JArray? then
        match EscapeAll(value.items)
        case Some(texts) => Pushes(" " + name + "=\"" + Join(texts, " ") + "\"")
        case None => Throws
      else
        Pushes(" " + name + "=\"" + Join(EscapeEach(TruthyKeys(value.entries)), " ") + "\"")
    else if !IsNullish(value) then
      Pushes(" " + name + "=\"" + EscapeValue(value).value + "\"")
    else
      Nothing
  }

  /** Static text is pushed as one single-quoted literal whose inside reads back as the
      text and cannot close the literal early. */
  lemma StaticTextIsLiteral(content: string, ws: string)
    ensures exists e :: WriteTextNode(content, false, ws) == ws + Push + "'" + e + "')"
                        && LiteralSafe(e) && Unescape(e) == content
  {
    UnescapeEscape(content);
    assert WriteTextNode(content, false, ws) == ws + Push + "'" + Escape(content) + "')";
  }

  /** An output expression is pushed unquoted; it is escaped like static text, so it is
      copied verbatim exactly when it holds no special character. */
  lemma DynamicTextCopiesExpression(expr: string, ws: string)
    ensures WriteTextNode(expr, true, ws) == ws + Push + expr + ")" <==> NoSpecial(expr)
  {
    EscapeIdentity(expr);
    var plain := ws + Push + expr + ")";
    var escaped := ws + Push + Escape(expr) + ")";
    if escaped == plain {
      assert Escape(expr) == escaped[|ws + Push|..|escaped| - 1];
      assert expr == plain[|ws + Push|..|plain| - 1];
    }
  }

  /** The open end pushes `/>` exactly when its first parameter is true, `>` otherwise. */
  lemma OpenEndSelfCloses(selfClosing: bool, ws: string)
    ensures EndsWith(WriteElementOpenEnd(selfClosing, ws), "'/>')") <==> selfClosing
    ensures !selfClosing ==> EndsWith(WriteElementOpenEnd(selfClosing, ws), "'>')")
  {
    var r := WriteElementOpenEnd(selfClosing, ws);
    if !selfClosing {
      assert r[|r| - 5..] == "('>')";
    }
  }

  /** The close call is the same text whether or not the tag is computed. */
  lemma CloseIgnoresDynamicFlag(tag: string, ws: string)
    ensures WriteElementClose(tag, true, ws) == WriteElementClose(tag, false, ws)
    ensures WriteElementClose(tag, true, ws) == ws + Push + "'</" + tag + ">')"
  {
  }

  /** Without a key the open start pushes `<` and the tag and nothing more: quoted for a
      static tag, interpolated in a template literal for a computed one. */
  lemma OpenStartWithoutKey(tag: string, dynamicTag: bool, dynamicKey: bool, ws: string)
    ensures !dynamicTag ==> WriteElementOpenStart(tag, dynamicTag, None, dynamicKey, ws) == ws + Push + "'<" + tag + "')"
    ensures dynamicTag ==> WriteElementOpenStart(tag, dynamicTag, None, dynamicKey, ws) == ws + Push + "`<${" + tag + "}`)"
  {
  }

  /** A bare flag pushes ` name` into the output. */
  lemma FlagAttributePushesName(name: string, ws: string)
    ensures WriteAttribute(name, false, FlagValue, false, ws) == ws + Push + "' " + name + "')"
  {
  }

  /** A dynamic value is passed to `__writeattr__` as the expression itself, next to the
      quoted, escaped name. */
  lemma DynamicAttributeCallsRule(name: string, v: string, ws: string)
    ensures WriteAttribute(name, false, StringValue(v), true, ws) == ws + "__writeattr__('" + Escape(name) + "', " + v + ")"
  {
  }

  /** A static value is escaped and double-quoted, the name escaped and single-quoted. */
  lemma StaticAttributeCallsRule(name: string, v: string, ws: string)
    ensures WriteAttribute(name, false, StringValue(v), false, ws) == ws + "__writeattr__('" + Escape(name) + "', \"" + Escape(v) + "\")"
  {
  }

  /** For `class` given an object, the attribute lists the keys whose value is truthy
      (`TruthyKeysMember` says which), escaped, in key order, separated by single spaces. */
  lemma ClassObjectListsTruthyKeys(name: string, entries: seq<(string, JsValue)>)
    requires name == "class"
    ensures WriteAttrRule(name, JObject(entries)) == Pushes(" class=\"" + Join(EscapeEach(TruthyKeys(entries)), " ") + "\"")
  {
    var v := JObject(entries);
    assert v != JBool(true) && IsObject(v) && !v.JArray?;
    assert " " + name + "=\"" == " class=\"";
  }

  /** For `class` given an array, the attribute is the escaped entries joined by spaces. */
  lemma ClassArrayJoinsEntries(name: string, items: seq<string>)
    requires name == "class"
    ensures WriteAttrRule(name, JArray(StringValues(items))) == Pushes(" class=\"" + Join(EscapeEach(items), " ") + "\"")
  {
    EscapeAllStrings(items);
  }

  /** `true` pushes the bare name, `null`/`undefined` push nothing, and any other
      non-object value pushes `name="..."` with the escaped value. */
  lemma AttrRuleScalars(name: string, s: string)
    ensures WriteAttrRule(name, JBool(true)) == Pushes(" " + name)
    ensures WriteAttrRule(name, JNull) == Nothing && WriteAttrRule(name, JUndefined) == Nothing
    ensures WriteAttrRule(name, JStr(s)) == Pushes(" " + name + "=\"" + Escape(s) + "\"")
  {
  }

  /** When no key holds a quote, backslash or control character, the class text is the
      truthy keys themselves joined by spaces (`{first: true, second: false, third: true}`
      gives `class="first third"`). */
  lemma ClassObjectPlainKeys(name: string, entries: seq<(string, JsValue)>)
    requires name == "class"
    requires forall i :: 0 <= i < |entries| ==> NoSpecial(entries[i].0)
    ensures WriteAttrRule(name, JObject(entries)) == Pushes(" class=\"" + Join(TruthyKeys(entries), " ") + "\"")
  {
    var keys := TruthyKeys(entries);
    forall j | 0 <= j < |keys|
      ensures EscapeEach(keys)[j] == keys[j]
    {
      TruthyKeysMember(entries, keys[j]);
      EscapeIdentityPlain(keys[j]);
    }
    assert EscapeEach(keys) == keys;
    ClassObjectListsTruthyKeys(name, entries);
  }
}

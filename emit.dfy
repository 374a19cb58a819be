/** What src/compile.js and the two directive writers emit, as functions of the nodes, the
    indentation depth and the id counter.  The imperative emitter in compiler.dfy is
    proved to produce exactly these texts; the properties the emitter promises are
    proved here about the functions. */
module Emit {
  import opened Wrappers
  import opened Strings
  import opened Escaping
  import opened Syntax
  import H = HtmlWriter
  import D = IncrementalDomWriter

  /** The two built-in writers (src/compile.js:21-34). */
  datatype Writer = Html | IncrementalDom

  /** Everything `compile` can throw. */
  datatype CompileError =
    | UnknownWriter(name: string)      // src/compile.js:31-32
    | InvalidOutput(output: string)    // src/compile.js:106-109
    | InvalidDirective(name: string)   // src/compile.js:254-257
    | UserDirective                    // the user table stored under "directives" (src/compile.js:51-54)
    | UnexpectedNode(node: Node)       // src/compile.js:146-147

  /** `makeWhitespace(depth)` (src/compile.js:397-400). */
  function Ws(depth: nat): (r: string)
    ensures |r| == 2 * depth && forall k :: 0 <= k < |r| ==> r[k] == ' '
  {
    Spaces(2 * depth)
  }

  // ---------------------------------------------------------------------------
  // The writer interface, dispatched on the writer.
  // ---------------------------------------------------------------------------

  function IntroText(w: Writer, name: string): string
  {
    match w
    case Html => H.WriteIntro(name)
    case IncrementalDom => D.WriteIntro(name)
  }

  function OutroText(w: Writer): string
  {
    match w
    case Html => H.WriteOutro()
    case IncrementalDom => D.WriteOutro()
  }

  function TextLine(w: Writer, content: string, dynamicContent: bool, ws: string): string
  {
    match w
    case Html => H.WriteTextNode(content, dynamicContent, ws)
    case IncrementalDom => D.WriteTextNode(content, dynamicContent, ws)
  }

  /** `writeElementOpenStart(tag, isOutput, key, isDynamicAttributes, ws)` with the key
      that reaches it, which is always `null` (src/compile.js:170, 186, 201). */
  function OpenStartLine(w: Writer, tag: string, isOutput: bool, dynamicKey: bool, ws: string): string
  {
    match w
    case Html => H.WriteElementOpenStart(tag, isOutput, None, dynamicKey, ws)
    case IncrementalDom => D.WriteElementOpenStart(tag, isOutput, None, dynamicKey, ws)
  }

  /** `writeElementOpenEnd(tag, isOutput, selfClosing, ws)` (src/compile.js:226, 236).  The
      HTML writer declares only `(selfClosing, ws)`, so it receives the tag as
      `selfClosing` (truthy when non-empty) and the output flag as `ws`. */
  function OpenEndLine(w: Writer, tag: string, isOutput: bool, selfClosing: bool, ws: string): string
  {
    match w
    case Html => H.WriteElementOpenEnd(tag != "", if isOutput then "true" else "false")
    case IncrementalDom => D.WriteElementOpenEnd(tag, isOutput, selfClosing, ws)
  }

  function CloseLine(w: Writer, tag: string, isOutput: bool, ws: string): string
  {
    match w
    case Html => H.WriteElementClose(tag, isOutput, ws)
    case IncrementalDom => D.WriteElementClose(tag, isOutput, ws)
  }

  function AttrLine(w: Writer, name: string, dynamicName: bool, value: AttrValue, dynamicValue: bool, ws: string): string
  {
    match w
    case Html => H.WriteAttribute(name, dynamicName, value, dynamicValue, ws)
    case IncrementalDom => D.WriteAttribute(name, dynamicName, value, dynamicValue, ws)
  }

  // ---------------------------------------------------------------------------
  // Synthetic names (src/compile.js:183, 186, 192, 352).
  // ---------------------------------------------------------------------------

  const AttsPrefix: string := "__atts_"
  const KeyPrefix: string := "__key_"
  const TagPrefix: string := "__tag_"
  const BuildPrefix: string := "__buildatts_"

  predicate IsNamePrefix(p: string)
  {
    p == AttsPrefix || p == KeyPrefix || p == TagPrefix || p == BuildPrefix
  }

  /** `${prefix}${state.nextId()}__`. */
  function SyntheticName(prefix: string, id: nat): string
  {
    prefix + NatToString(id) + "__"
  }

  // ---------------------------------------------------------------------------
  // The attribute table of `compileAttributes` (src/compile.js:273-311).
  // ---------------------------------------------------------------------------

  /** `{isDynamic, value}`: `value` is `true` for a bare flag. */
  datatype AttEntry = AttEntry(isDynamic: bool, value: AttrValue)

  /** A JavaScript object used as a dictionary: its entries in insertion order. */
  type Table = seq<(string, AttEntry)>

  function Keys(t: Table): (r: seq<string>)
    ensures |r| == |t| && forall i :: 0 <= i < |t| ==> r[i] == t[i].0
  {
    if t == [] then [] else [t[0].0] + Keys(t[1..])
  }

  predicate UniqueKeys(t: Table)
  {
    forall i, j :: 0 <= i < j < |t| ==> t[i].0 != t[j].0
  }

  /** `atts[key] = entry`: an existing key keeps its slot and takes the new entry, a new
      key goes last. */
  function Put(t: Table, key: string, e: AttEntry): Table
  {
    if t == [] then [(key, e)]
    else if t[0].0 == key then [(key, e)] + t[1..]
    else [t[0]] + Put(t[1..], key, e)
  }

  /** The attribute's name: the text of its first child. */
  function AttrName(a: Node): string
    requires IsAttribute(a)
  {
    a.payload.nodes[0].payload.text
  }

  /** A flag is `{isDynamic: false, value: true}`; an output value is its expression,
      dynamic; a literal value is its text, static. */
  function AttrEntryOf(a: Node): AttEntry
    requires IsAttribute(a)
  {
    if |a.payload.nodes| == 1 then AttEntry(false, FlagValue)
    else if a.payload.nodes[1].kind == Output then
      AttEntry(true, StringValue(a.payload.nodes[1].payload.nodes[0].payload.text))
    else AttEntry(false, StringValue(a.payload.nodes[1].payload.text))
  }

  predicate AllAttributes(attrs: seq<Node>)
  {
    forall i :: 0 <= i < |attrs| ==> IsAttribute(attrs[i])
  }

  /** How many `*` attributes the list holds. */
  function SpreadCount(attrs: seq<Node>): nat
    requires AllAttributes(attrs)
  {
    if attrs == [] then 0
    else SpreadCount(attrs[..|attrs| - 1]) + (if AttrName(attrs[|attrs| - 1]) == "*" then 1 else 0)
  }

  /** `__*k__`, the key of the k-th spread (from 0). */
  function SpreadName(k: nat): string
  {
    "__*" + NatToString(k) + "__"
  }

  /** The key an attribute is stored under, given how many spreads precede it. */
  function TableKey(a: Node, spreadsBefore: nat): string
    requires IsAttribute(a)
  {
    if AttrName(a) == "*" then SpreadName(spreadsBefore) else AttrName(a)
  }

  function AttributeTable(attrs: seq<Node>): Table
    requires AllAttributes(attrs)
  {
    if attrs == [] then []
    else
      var init := attrs[..|attrs| - 1];
      var a := attrs[|attrs| - 1];
      Put(AttributeTable(init), TableKey(a, SpreadCount(init)), AttrEntryOf(a))
  }

  /** `attributes['__*0__'] != null` (src/compile.js:169). */
  predicate IsDynamicTable(t: Table)
  {
    SpreadName(0) in Keys(t)
  }

  // ---------------------------------------------------------------------------
  // `writeDynamicAttributes` (src/compile.js:313-361).
  // ---------------------------------------------------------------------------

  /** `key.indexOf('__*') === 0`. */
  predicate IsSpreadKey(k: string)
  {
    |k| >= 3 && k[..3] == "__*"
  }

  /** ` "key": value` for a literal entry: a static value escaped between double quotes
      (a flag escapes to nothing), a dynamic one as its expression. */
  function EntryText(key: string, e: AttEntry): string
  {
    " \"" + Escape(key) + "\": " + (if e.isDynamic then ValueText(e.value) else "\"" + EscapedValue(e.value) + "\"")
  }

  /** The loop state after some entries: the finished segments and the pending literals. */
  datatype Scan = Scan(parts: seq<string>, pending: seq<string>)

  function ScanStep(s: Scan, key: string, e: AttEntry): Scan
  {
    if IsSpreadKey(key) then
      var flushed := if |s.pending| > 0 then s.parts + [" {" + Join(s.pending, ", ") + "}"] else s.parts;
      Scan(flushed + ["  " + ValueText(e.value)], [])
    else
      Scan(s.parts, s.pending + [EntryText(key, e)])
  }

  function ScanTable(t: Table): Scan
  {
    if t == [] then Scan([], []) else ScanStep(ScanTable(t[..|t| - 1]), t[|t| - 1].0, t[|t| - 1].1)
  }

  /** The arguments of `Object.assign({}, ...)`, in order. */
  function DynamicParts(t: Table): seq<string>
  {
    var s := ScanTable(t);
    if |s.pending| > 0 then s.parts + ["  {" + Join(s.pending, ", ") + "}"] else s.parts
  }

  /** The builder function's source, named with the id it drew. */
  function DynamicSource(t: Table, fnId: nat): string
  {
    var f := SyntheticName(BuildPrefix, fnId);
    "const " + f + " = function " + f + "() {\n        return Object.assign({}, "
    + Join(DynamicParts(t), ", ") + ")\n    }.bind(this);"
  }

  // ---------------------------------------------------------------------------
  // Nodes.
  // ---------------------------------------------------------------------------

  /** The parts of an element before its open-end call: the dynamic-attribute prelude, the
      computed tag, the open-start call and the attribute calls (src/compile.js:164-220). */
  datatype Head = Head(lines: seq<string>, tag: string, isOutput: bool, id: nat)

  /** The attribute calls of a static attribute table, one per entry in entry order. */
  function StaticAttrLines(w: Writer, t: Table, ws: string): (r: seq<string>)
    ensures |r| == |t|
  {
    if t == [] then []
    else StaticAttrLines(w, t[..|t| - 1], ws) + [AttrLine(w, t[|t| - 1].0, false, t[|t| - 1].1.value, t[|t| - 1].1.isDynamic, ws)]
  }

  /** `const __atts_N__ = __buildatts_M__();` and the key line, then the attribute loop of a
      dynamic table, whose single attribute call is one level deeper. */
  function DynamicPrelude(t: Table, fnId: nat, ws: string): seq<string>
  {
    var atts := SyntheticName(AttsPrefix, fnId + 1);
    [DynamicSource(t, fnId),
     ws + "const " + atts + " = " + SyntheticName(BuildPrefix, fnId) + "();",
     ws + "const " + SyntheticName(KeyPrefix, fnId + 2) + " = " + atts + ".key;"]
  }

  function DynamicLoop(w: Writer, atts: string, depth: nat): seq<string>
  {
    [Ws(depth) + "for (const __attkey__ in " + atts + ") { if (" + atts + ".hasOwnProperty(__attkey__)) {",
     AttrLine(w, "__attkey__", true, StringValue(atts + "[__attkey__]"), true, Ws(depth + 1)),
     Ws(depth) + "}}"]
  }

  /** The computed tag's `const` line, when the tag is an output. */
  function TagLines(tagNode: Node, tag: string, ws: string): seq<string>
    requires IsValue(tagNode) || IsOutput(tagNode)
  {
    if tagNode.kind == Output then [ws + "const " + tag + " = " + tagNode.payload.nodes[0].payload.text] else []
  }

  /** The attribute calls: the loop over the built object of a dynamic table, one call per
      entry of a static one. */
  function AttrLines(w: Writer, table: Table, dynamic: bool, id: nat, depth: nat): seq<string>
  {
    if dynamic then DynamicLoop(w, SyntheticName(AttsPrefix, id + 2), depth) else StaticAttrLines(w, table, Ws(depth))
  }

  function ElementHead(w: Writer, n: Node, depth: nat, id: nat): Head
    requires WellFormed(n) && n.kind == Element
  {
    var ws := Ws(depth);
    var tagNode := n.payload.nodes[0];
    var table := AttributeTable(n.payload.nodes[1].payload.nodes);
    var dynamic := IsDynamicTable(table);
    var prelude := if dynamic then DynamicPrelude(table, id + 1, ws) else [];
    var id1 := if dynamic then id + 3 else id;
    var isOutput := tagNode.kind == Output;
    var tag := if isOutput then SyntheticName(TagPrefix, id1 + 1) else tagNode.payload.text;
    var id2 := if isOutput then id1 + 1 else id1;
    Head(prelude + TagLines(tagNode, tag, ws) + [OpenStartLine(w, tag, isOutput, dynamic, ws)] + AttrLines(w, table, dynamic, id, depth),
         tag, isOutput, id2)
  }

  /** The text a node emits at `depth`, and the counter after it. */
  function EmitNode(w: Writer, n: Node, depth: nat, id: nat): Result<(string, nat), CompileError>
    requires WellFormed(n)
    decreases n, 1
  {
    match n.kind
    case TextNode => Ok((TextLine(w, n.payload.nodes[0].payload.text, false, Ws(depth)), id))
    case Output => Ok((TextLine(w, n.payload.nodes[0].payload.text, true, Ws(depth)), id))
    case Element => EmitElement(w, n, depth, id)
    case Directive => EmitDirective(w, n, depth, id)
    case _ => Err(UnexpectedNode(n))
  }

  /** The parts of a list of nodes, in order, and the counter after them. */
  function EmitSeq(w: Writer, ns: seq<Node>, depth: nat, id: nat): Result<(seq<string>, nat), CompileError>
    requires AllWellFormed(ns)
    decreases ns, 0
  {
    if ns == [] then Ok(([], id))
    else
      match EmitSeq(w, ns[..|ns| - 1], depth, id)
      case Err(e) => Err(e)
      case Ok((parts, id1)) =>
        match EmitNode(w, ns[|ns| - 1], depth, id1)
        case Err(e) => Err(e)
        case Ok((text, id2)) => Ok((parts + [text], id2))
  }

  lemma BodyWellFormed(n: Node)
    requires WellFormed(n) && (n.kind == Element || n.kind == Directive)
    ensures AllWellFormed(n.payload.nodes[2..])
  {
    forall q | 0 <= q < |n.payload.nodes[2..]| ensures WellFormed(n.payload.nodes[2..][q]) {
      assert n.payload.nodes[2..][q] == n.payload.nodes[q + 2];
    }
  }

  /** `writeElement` (src/compile.js:157-246): no body means a self-closing open end and no
      close call; otherwise the open end, the body at the same depth, and the close call. */
  function EmitElement(w: Writer, n: Node, depth: nat, id: nat): Result<(string, nat), CompileError>
    requires WellFormed(n) && n.kind == Element
    decreases n, 0
  {
    var h := ElementHead(w, n, depth, id);
    var ws := Ws(depth);
    if |n.payload.nodes| == 2 then
      Ok((Join(h.lines + [OpenEndLine(w, h.tag, h.isOutput, true, ws)], "\n"), h.id))
    else
      BodyWellFormed(n);
      match EmitSeq(w, n.payload.nodes[2..], depth, h.id)
      case Err(e) => Err(e)
      case Ok((parts, id1)) =>
        Ok((Join(h.lines + [OpenEndLine(w, h.tag, h.isOutput, false, ws)] + parts + [CloseLine(w, h.tag, h.isOutput, ws)], "\n"), id1))
  }

  /** `if (header) {` (src/directives/ifDirective.js:9) or `for (const header) {`
      (src/directives/forDirective.js:9). */
  function DirectiveHeader(name: string, content: string, ws: string): string
    requires name == "if" || name == "for"
  {
    if name == "if" then ws + "if (" + content + ") {" else ws + "for (const " + content + ") {"
  }

  /** The directive writers' output: the header, the body one level deeper, `}`. */
  function DirectiveText(name: string, content: string, parts: seq<string>, depth: nat): string
    requires name == "if" || name == "for"
  {
    Join([DirectiveHeader(name, content, Ws(depth))] + parts + [Ws(depth) + "}"], "\n")
  }

  /** `writeDirective` (src/compile.js:248-260): the lower-cased name selects `if` or `for`;
      the user table stored under `directives` is foreign code; any other name throws. */
  function EmitDirective(w: Writer, n: Node, depth: nat, id: nat): Result<(string, nat), CompileError>
    requires WellFormed(n) && n.kind == Directive
    decreases n, 0
  {
    var name := Lower(n.payload.nodes[0].payload.text);
    var content := n.payload.nodes[1].payload.text;
    if name == "if" || name == "for" then
      BodyWellFormed(n);
      match EmitSeq(w, n.payload.nodes[2..], depth + 1, id)
      case Err(e) => Err(e)
      case Ok((parts, id1)) => Ok((DirectiveText(name, content, parts, depth), id1))
    else if name == "directives" then Err(UserDirective)
    else Err(InvalidDirective(name))
  }

  // ---------------------------------------------------------------------------
  // `compile` (src/compile.js:9-122).
  // ---------------------------------------------------------------------------

  /** The options `compile` reads: `writer` as a built-in name (absent means the HTML
      writer), `name`, `useWith` and `output` (absent means `null`). */
  datatype Options = Options(writer: Option<string>, name: string, useWith: bool, output: Option<string>)

  const DefaultOptions: Options := Options(None, "template", true, None)

  function SelectWriter(writer: Option<string>): Result<Writer, CompileError>
  {
    match writer
    case None => Ok(Html)
    case Some(s) =>
      if s == "html" then Ok(Html)
      else if s == "incremental-dom" then Ok(IncrementalDom)
      else Err(UnknownWriter(s))
  }

  /** `writeExport(output)` (src/compile.js:88-111). */
  function WriteExport(output: Option<string>): Result<string, CompileError>
  {
    match output
    case None => Ok("")
    case Some(s) =>
      if s == "cjs" || s == "commonjs" then Ok("module.exports = ")
      else if s == "es6" || s == "module" then Ok("export default ")
      else Err(InvalidOutput(s))
  }

  /** `writeIntro(useWith)` (src/compile.js:113-116). */
  function WithIntro(useWith: bool): string
  {
    if useWith then "  with (data || {}) {" else ""
  }

  /** `writeOutro(useWith)` (src/compile.js:118-122). */
  function WithOutro(useWith: bool): string
  {
    (if useWith then "  }" else "") + "\n"
  }

  /** The depth the top-level parts are written at: one, plus one inside `with`. */
  function StartDepth(useWith: bool): nat
  {
    if useWith then 2 else 1
  }

  /** The whole generated unit.  The lifted-helper table is always empty, so its slot is
      the empty string. */
  function Assemble(w: Writer, opts: Options, prefix: string, parts: seq<string>): string
  {
    var head := prefix + IntroText(w, opts.name) + "\n";
    var body := WithIntro(opts.useWith) + "\n" + "" + "\n" + Join(parts, "\n") + "\n" + WithOutro(opts.useWith);
    head + body + ("\n" + OutroText(w) + "\n")
  }

  function CompileSpec(nodes: seq<Node>, opts: Options): Result<string, CompileError>
    requires AllWellFormed(nodes)
  {
    match SelectWriter(opts.writer)
    case Err(e) => Err(e)
    case Ok(w) =>
      match EmitSeq(w, nodes, StartDepth(opts.useWith), 0)
      case Err(e) => Err(e)
      case Ok((parts, _)) =>
        match WriteExport(opts.output)
        case Err(e) => Err(e)
        case Ok(prefix) => Ok(Assemble(w, opts, prefix, parts))
  }
}

/** The emitter of src/compile.js and the `if`/`for` directive writers, as the source runs
    them: a shared id counter, a state record whose cursor and depth the writers update in
    place, copies of that record for element and directive bodies, and loops that push
    parts.  Every method is proved to produce what module Emit specifies. */
module Compiler {
  import opened Wrappers
  import opened Strings
  import opened Escaping
  import opened Syntax
  import opened Emit

  /** The `id` variable of `compile` and its `nextId` closure (src/compile.js:36, 46-50),
      shared by every copy of the state. */
  class IdCounter {
    var id: nat

    constructor ()
      ensures id == 0
    {
      id := 0;
    }

    method NextId() returns (r: nat)
      modifies this
      ensures id == old(id) + 1 && r == id
    {
      id := id + 1;
      r := id;
    }
  }

  /** A part and the counter after it agree with the specification's result; on an error
      only the error matters (the source throws). */
  predicate PartAgrees(r: Result<string, CompileError>, spec: Result<(string, nat), CompileError>, id: nat)
  {
    if spec.Ok? then r == Ok(spec.value.0) && id == spec.value.1 else r == Err(spec.error)
  }

  predicate PartsAgree(r: Result<seq<string>, CompileError>, spec: Result<(seq<string>, nat), CompileError>, id: nat)
  {
    if spec.Ok? then r == Ok(spec.value.0) && id == spec.value.1 else r == Err(spec.error)
  }

  /** One more node extends the parts of a prefix by that node's part. */
  lemma EmitSeqStep(w: Writer, ns: seq<Node>, depth: nat, id: nat, i: nat)
    requires AllWellFormed(ns) && i < |ns|
    ensures AllWellFormed(ns[..i]) && AllWellFormed(ns[..i + 1])
    ensures EmitSeq(w, ns[..i + 1], depth, id)
            == match EmitSeq(w, ns[..i], depth, id)
               case Err(e) => Err(e)
               case Ok((parts, id1)) =>
                 match EmitNode(w, ns[i], depth, id1)
                 case Err(e) => Err(e)
                 case Ok((text, id2)) => Ok((parts + [text], id2))
  {
    assert ns[..i + 1][..i] == ns[..i];
  }

  /** An error in a prefix is the error of the whole list. */
  lemma {:induction false} EmitSeqPrefixError(w: Writer, ns: seq<Node>, depth: nat, id: nat, i: nat)
    requires AllWellFormed(ns) && i <= |ns|
    requires AllWellFormed(ns[..i]) && EmitSeq(w, ns[..i], depth, id).Err?
    ensures EmitSeq(w, ns, depth, id) == Err(EmitSeq(w, ns[..i], depth, id).error)
    decreases |ns| - i
  {
    if i == |ns| {
      assert ns[..i] == ns;
    } else {
      var init := ns[..|ns| - 1];
      assert init[..i] == ns[..i];
      EmitSeqPrefixError(w, init, depth, id, i);
    }
  }

  /** One more attribute stores its entry under its key and counts its spread. */
  lemma AttributeTableSnoc(attrs: seq<Node>, i: nat)
    requires AllAttributes(attrs) && i < |attrs|
    ensures AllAttributes(attrs[..i]) && AllAttributes(attrs[..i + 1])
    ensures AttributeTable(attrs[..i + 1])
            == Put(AttributeTable(attrs[..i]), TableKey(attrs[i], SpreadCount(attrs[..i])), AttrEntryOf(attrs[i]))
    ensures SpreadCount(attrs[..i + 1]) == SpreadCount(attrs[..i]) + (if AttrName(attrs[i]) == "*" then 1 else 0)
  {
    assert attrs[..i + 1][..i] == attrs[..i];
  }

  /** `compileAttributes` (src/compile.js:273-311): the attribute dictionary built in one
      pass, `*` attributes renamed `__*0__`, `__*1__`, ... and later keys overwriting
      earlier ones. */
  method CompileAttributes(attrs: seq<Node>) returns (table: Table)
    requires AllAttributes(attrs)
    ensures table == AttributeTable(attrs)
  {
    var dynamicIndex := 0;
    table := [];
    var i := 0;
    while i < |attrs|
      invariant i <= |attrs|
      invariant table == AttributeTable(attrs[..i]) && dynamicIndex == SpreadCount(attrs[..i])
    {
      var child := attrs[i];
      var attName, entry := AttrName(child), AttrEntryOf(child);
      if attName == "*" {
        attName := SpreadName(dynamicIndex);
        dynamicIndex := dynamicIndex + 1;
      }
      AttributeTableSnoc(attrs, i);
      table := Put(table, attName, entry);
      i := i + 1;
    }
    assert attrs[..i] == attrs;
  }

  /** The loop of `writeDynamicAttributes` (src/compile.js:315-350): runs of literal entries
      collected as object-literal text, each spread passed through. */
  method DynamicArguments(table: Table) returns (parts: seq<string>)
    ensures parts == DynamicParts(table)
  {
    parts := [];
    var currentParts: seq<string> := [];
    var i := 0;
    while i < |table|
      invariant i <= |table|
      invariant Scan(parts, currentParts) == ScanTable(table[..i])
    {
      var key := table[i].0;
      var e := table[i].1;
      assert table[..i + 1][..i] == table[..i];
      if |key| >= 3 && key[..3] == "__*" {
        if |currentParts| > 0 {
          parts := parts + [" {" + Join(currentParts, ", ") + "}"];
          currentParts := [];
        }
        parts := parts + ["  " + ValueText(e.value)];
      } else {
        var value := if e.isDynamic then ValueText(e.value) else "\"" + EscapedValue(e.value) + "\"";
        currentParts := currentParts + [" \"" + Escape(key) + "\": " + value];
      }
      i := i + 1;
    }
    assert table[..i] == table;
    if |currentParts| > 0 {
      parts := parts + ["  {" + Join(currentParts, ", ") + "}"];
    }
  }

  /** `writeDynamicAttributes` (src/compile.js:313-361): the builder function's name, drawn
      from the counter, and its source. */
  method WriteDynamicAttributes(table: Table, counter: IdCounter) returns (fnName: string, fnSrc: string)
    modifies counter
    ensures counter.id == old(counter.id) + 1
    ensures fnName == SyntheticName(BuildPrefix, counter.id) && fnSrc == DynamicSource(table, counter.id)
  {
    var parts := DynamicArguments(table);
    var id := counter.NextId();
    fnName := BuildPrefix + NatToString(id) + "__";
    fnSrc := "const " + fnName + " = function " + fnName + "() {\n        return Object.assign({}, "
             + Join(parts, ", ") + ")\n    }.bind(this);";
  }

  lemma StaticAttrLinesSnoc(w: Writer, t: Table, i: nat, ws: string)
    requires i < |t|
    ensures StaticAttrLines(w, t[..i + 1], ws)
            == StaticAttrLines(w, t[..i], ws) + [AttrLine(w, t[i].0, false, t[i].1.value, t[i].1.isDynamic, ws)]
  {
    assert t[..i + 1][..i] == t[..i];
  }

  /** `ElementHead` assembled from its separately computed parts. */
  lemma HeadFromParts(w: Writer, node: Node, depth: nat, id: nat, table: Table, prelude: seq<string>,
                      tag: string, tagLines: seq<string>, attrLines: seq<string>, idEnd: nat)
    requires WellFormed(node) && node.kind == Element
    requires table == AttributeTable(node.payload.nodes[1].payload.nodes)
    requires prelude == if IsDynamicTable(table) then DynamicPrelude(table, id + 1, Ws(depth)) else []
    requires var id1 := if IsDynamicTable(table) then id + 3 else id;
             if node.payload.nodes[0].kind == Output then tag == SyntheticName(TagPrefix, id1 + 1) && idEnd == id1 + 1
             else tag == node.payload.nodes[0].payload.text && idEnd == id1
    requires tagLines == TagLines(node.payload.nodes[0], tag, Ws(depth))
    requires attrLines == AttrLines(w, table, IsDynamicTable(table), id, depth)
    ensures ElementHead(w, node, depth, id)
            == Head(prelude + tagLines + [OpenStartLine(w, tag, node.payload.nodes[0].kind == Output, IsDynamicTable(table), Ws(depth))] + attrLines,
                    tag, node.payload.nodes[0].kind == Output, idEnd)
  {
  }

  /** The attribute calls of a static attribute set, one per entry in entry order
      (src/compile.js:211-219). */
  method WriteStaticAttributes(w: Writer, table: Table, ws: string) returns (lines: seq<string>)
    ensures lines == StaticAttrLines(w, table, ws)
  {
    lines := [];
    var i := 0;
    while i < |table|
      invariant i <= |table|
      invariant lines == StaticAttrLines(w, table[..i], ws)
    {
      StaticAttrLinesSnoc(w, table, i, ws);
      lines := lines + [AttrLine(w, table[i].0, false, table[i].1.value, table[i].1.isDynamic, ws)];
      i := i + 1;
    }
    assert table[..i] == table;
  }

  /** The `state` record of `compile` (src/compile.js:38-59), or one of its copies
      `{...state, pos: 0, nodes}` (src/compile.js:230-234, src/directives/ifDirective.js:11,
      src/directives/forDirective.js:11): the nodes, the cursor, the depth and its
      whitespace, the writer and the shared counter. */
  class State {
    const nodes: seq<Node>
    var pos: nat
    var depth: nat
    var ws: string
    const writer: Writer
    const counter: IdCounter

    /** `ws` is always `makeWhitespace(depth)`. */
    predicate Valid()
      reads this`depth, this`ws
    {
      ws == Ws(depth)
    }

    constructor (nodes: seq<Node>, depth: nat, writer: Writer, counter: IdCounter)
      ensures this.nodes == nodes && pos == 0 && this.depth == depth && ws == Ws(depth)
      ensures this.writer == writer && this.counter == counter
    {
      this.nodes := nodes;
      pos := 0;
      this.depth := depth;
      ws := Ws(depth);
      this.writer := writer;
      this.counter := counter;
    }

    /** `increaseDepth` (src/compile.js:380-384). */
    method IncreaseDepth()
      modifies this`depth, this`ws
      ensures depth == old(depth) + 1 && Valid()
    {
      depth := depth + 1;
      ws := Spaces(depth * 2);
    }

    /** `decreaseDepth` (src/compile.js:386-390); every call follows an `increaseDepth`. */
    method DecreaseDepth()
      requires depth > 0
      modifies this`depth, this`ws
      ensures depth == old(depth) - 1 && Valid()
    {
      depth := depth - 1;
      ws := Spaces(depth * 2);
    }

    /** `nextPart` (src/compile.js:133-149) with `writeText` and `writeOutput`
        (src/compile.js:151-155, 262-266): pop a node and write it. */
    method NextPart() returns (r: Result<string, CompileError>)
      requires Valid() && AllWellFormed(nodes) && pos < |nodes|
      modifies this`pos, this`depth, this`ws, counter
      ensures pos == old(pos) + 1 && depth == old(depth) && Valid()
      ensures PartAgrees(r, EmitNode(writer, nodes[old(pos)], depth, old(counter.id)), counter.id)
      decreases nodes[pos], 2
    {
      var node := nodes[pos];
      pos := pos + 1;
      match node.kind
      case TextNode =>
        r := Ok(TextLine(writer, node.payload.nodes[0].payload.text, false, ws));
      case Element =>
        r := WriteElement(node);
      case Directive =>
        r := WriteDirective(node);
      case Output =>
        r := Ok(TextLine(writer, node.payload.nodes[0].payload.text, true, ws));
      case _ =>
        r := Err(UnexpectedNode(node));
    }

    /** `while (!eos(state)) parts.push(nextPart(state))` over a fresh copy
        (src/compile.js:68-71, 238-241, src/directives/ifDirective.js:12-15,
        src/directives/forDirective.js:12-15). */
    method WriteAll() returns (r: Result<seq<string>, CompileError>)
      requires Valid() && AllWellFormed(nodes) && pos == 0
      modifies this`pos, this`depth, this`ws, counter
      ensures depth == old(depth) && Valid()
      ensures PartsAgree(r, EmitSeq(writer, nodes, depth, old(counter.id)), counter.id)
      decreases nodes, 3
    {
      var parts: seq<string> := [];
      ghost var id0 := counter.id;
      var d0 := depth;
      while pos < |nodes|
        invariant pos <= |nodes| && depth == d0 && Valid()
        invariant AllWellFormed(nodes[..pos])
        invariant EmitSeq(writer, nodes[..pos], depth, id0) == Ok((parts, counter.id))
        decreases |nodes| - pos
      {
        ghost var i := pos;
        EmitSeqStep(writer, nodes, depth, id0, i);
        var part := NextPart();
        if part.Err? {
          EmitSeqPrefixError(writer, nodes, depth, id0, i + 1);
          return Err(part.error);
        }
        parts := parts + [part.value];
      }
      assert nodes[..pos] == nodes;
      r := Ok(parts);
    }

    /** The dynamic-attribute prelude of `writeElement` (src/compile.js:173-188): the
        builder's source, the call that builds the attribute object, and the key read from
        it, each named with a fresh id. */
    method WriteDynamicPrelude(attributes: Table) returns (prelude: seq<string>, attsVarName: string)
      requires Valid()
      modifies counter
      ensures counter.id == old(counter.id) + 3
      ensures prelude == DynamicPrelude(attributes, old(counter.id) + 1, ws)
      ensures attsVarName == SyntheticName(AttsPrefix, old(counter.id) + 2)
    {
      var attsFnName, attsFnSrc := WriteDynamicAttributes(attributes, counter);
      var attsId := counter.NextId();
      attsVarName := AttsPrefix + NatToString(attsId) + "__";
      var keyId := counter.NextId();
      var key := KeyPrefix + NatToString(keyId) + "__";
      prelude := [attsFnSrc, ws + "const " + attsVarName + " = " + attsFnName + "();",
                  ws + "const " + key + " = " + attsVarName + ".key;"];
    }

    /** The tag of `writeElement` (src/compile.js:190-199): an output tag is bound to a
        fresh `__tag_N__` constant, a literal tag is used as is. */
    method WriteTag(tagNode: Node) returns (tag: string, tagLines: seq<string>)
      requires Valid() && (IsValue(tagNode) || IsOutput(tagNode))
      modifies counter
      ensures tagNode.kind == Output ==> counter.id == old(counter.id) + 1 && tag == SyntheticName(TagPrefix, counter.id)
      ensures tagNode.kind != Output ==> counter.id == old(counter.id) && tag == tagNode.payload.text
      ensures tagLines == TagLines(tagNode, tag, ws)
    {
      if tagNode.kind == Output {
        var tagId := counter.NextId();
        tag := TagPrefix + NatToString(tagId) + "__";
        tagLines := [ws + "const " + tag + " = " + tagNode.payload.nodes[0].payload.text];
      } else {
        tag := tagNode.payload.text;
        tagLines := [];
      }
    }

    /** The attribute loop of a dynamic element (src/compile.js:203-210): its single
        attribute call is written one level deeper, and the depth is restored. */
    method WriteAttributeLoop(attsVarName: string) returns (lines: seq<string>)
      requires Valid()
      modifies this`depth, this`ws
      ensures depth == old(depth) && Valid()
      ensures lines == DynamicLoop(writer, attsVarName, depth)
    {
      var outer := ws;
      var loopHead := outer + "for (const __attkey__ in " + attsVarName + ") { if (" + attsVarName + ".hasOwnProperty(__attkey__)) {";
      IncreaseDepth();
      var call := AttrLine(writer, "__attkey__", true, StringValue(attsVarName + "[__attkey__]"), true, ws);
      DecreaseDepth();
      lines := [loopHead, call, outer + "}}"];
    }

    /** The attribute calls of `writeElement` (src/compile.js:203-220): the loop over the
        built object when the attributes are dynamic, one call per entry otherwise. */
    method WriteAttributeCalls(attributes: Table, isDynamic: bool, attsVarName: string, ghost id: nat) returns (lines: seq<string>)
      requires Valid() && (isDynamic ==> attsVarName == SyntheticName(AttsPrefix, id + 2))
      modifies this`depth, this`ws
      ensures depth == old(depth) && Valid()
      ensures lines == AttrLines(writer, attributes, isDynamic, id, depth)
    {
      if isDynamic {
        lines := WriteAttributeLoop(attsVarName);
      } else {
        lines := WriteStaticAttributes(writer, attributes, ws);
      }
    }

    /** The dynamic-attribute prelude, when the attributes are dynamic, and the tag
        (src/compile.js:173-199), with the ids they draw. */
    method WriteElementStart(tagNode: Node, attributes: Table) returns (prelude: seq<string>, attsVarName: string, tag: string, tagLines: seq<string>)
      requires Valid() && (IsValue(tagNode) || IsOutput(tagNode))
      modifies counter
      ensures prelude == if IsDynamicTable(attributes) then DynamicPrelude(attributes, old(counter.id) + 1, ws) else []
      ensures attsVarName == SyntheticName(AttsPrefix, old(counter.id) + 2)
      ensures var id1 := if IsDynamicTable(attributes) then old(counter.id) + 3 else old(counter.id);
              if tagNode.kind == Output then tag == SyntheticName(TagPrefix, id1 + 1) && counter.id == id1 + 1
              else tag == tagNode.payload.text && counter.id == id1
      ensures tagLines == TagLines(tagNode, tag, ws)
    {
      prelude := [];
      attsVarName := SyntheticName(AttsPrefix, counter.id + 2);
      if IsDynamicTable(attributes) {
        prelude, attsVarName := WriteDynamicPrelude(attributes);
      }
      tag, tagLines := WriteTag(tagNode);
    }

    /** The parts of `writeElement` before the open-end call (src/compile.js:157-220): the
        dynamic-attribute prelude, the computed tag, the open-start call and the attribute
        calls. */
    method WriteElementHead(node: Node) returns (lines: seq<string>, tag: string, isOutput: bool)
      requires Valid() && WellFormed(node) && node.kind == Element
      modifies this`depth, this`ws, counter
      ensures depth == old(depth) && Valid()
      ensures Head(lines, tag, isOutput, counter.id) == ElementHead(writer, node, depth, old(counter.id))
    {
      ghost var id0 := counter.id;
      ghost var d := depth;
      var outer := ws;
      var tagNode := node.payload.nodes[0];
      isOutput := tagNode.kind == Output;
      var attributes := CompileAttributes(node.payload.nodes[1].payload.nodes);
      var isDynamic := IsDynamicTable(attributes);
      var prelude, attsVarName, tagLines;
      prelude, attsVarName, tag, tagLines := WriteElementStart(tagNode, attributes);
      var openStart := OpenStartLine(writer, tag, isOutput, isDynamic, outer);
      var attrLines := WriteAttributeCalls(attributes, isDynamic, attsVarName, id0);
      lines := prelude + tagLines + [openStart] + attrLines;
      HeadFromParts(writer, node, d, id0, attributes, prelude, tag, tagLines, attrLines, counter.id);
    }

    /** `writeElement` (src/compile.js:157-246): no body means a self-closing open end;
        otherwise the body is written from a copy of the state at the same depth, and the
        enclosing cursor does not move. */
    method WriteElement(node: Node) returns (r: Result<string, CompileError>)
      requires Valid() && WellFormed(node) && node.kind == Element
      modifies this`depth, this`ws, counter
      ensures depth == old(depth) && Valid()
      ensures PartAgrees(r, EmitElement(writer, node, depth, old(counter.id)), counter.id)
      decreases node, 1
    {
      var lines, tag, isOutput := WriteElementHead(node);
      var children := node.payload.nodes[2..];
      if |children| == 0 {
        return Ok(Join(lines + [OpenEndLine(writer, tag, isOutput, true, ws)], "\n"));
      }
      BodyWellFormed(node);
      var newState := new State(children, depth, writer, counter);
      var openEnd := OpenEndLine(writer, tag, isOutput, false, ws);
      var body := newState.WriteAll();
      if body.Err? {
        return Err(body.error);
      }
      r := Ok(Join(lines + [openEnd] + body.value + [CloseLine(writer, tag, isOutput, ws)], "\n"));
    }

    /** `writeDirective` (src/compile.js:248-260): the lower-cased name picks a writer from
        the table `{if, for, directives}`; the user table under `directives` has no
        `write` of its own in this model, and any other name throws. */
    method WriteDirective(node: Node) returns (r: Result<string, CompileError>)
      requires Valid() && WellFormed(node) && node.kind == Directive
      modifies this`depth, this`ws, counter
      ensures depth == old(depth) && Valid()
      ensures PartAgrees(r, EmitDirective(writer, node, depth, old(counter.id)), counter.id)
      decreases node, 1
    {
      var name := Lower(node.payload.nodes[0].payload.text);
      var content := node.payload.nodes[1].payload.text;
      var childNodes := node.payload.nodes[2..];
      BodyWellFormed(node);
      if name == "if" {
        r := IfWrite(content, childNodes);
      } else if name == "for" {
        r := ForWrite(content, childNodes);
      } else if name == "directives" {
        r := Err(UserDirective);
      } else {
        r := Err(InvalidDirective(name));
      }
    }

    /** `ifDirective.write` (src/directives/ifDirective.js:3-20). */
    method IfWrite(content: string, childNodes: seq<Node>) returns (r: Result<string, CompileError>)
      requires Valid() && AllWellFormed(childNodes)
      modifies this`depth, this`ws, counter
      ensures depth == old(depth) && Valid()
      ensures PartAgrees(r, BlockSpec("if", content, childNodes, writer, depth, old(counter.id)), counter.id)
      decreases childNodes, 5
    {
      r := WriteBlock(ws + "if (" + content + ") {", childNodes);
    }

    /** `forDirective.write` (src/directives/forDirective.js:3-20). */
    method ForWrite(content: string, childNodes: seq<Node>) returns (r: Result<string, CompileError>)
      requires Valid() && AllWellFormed(childNodes)
      modifies this`depth, this`ws, counter
      ensures depth == old(depth) && Valid()
      ensures PartAgrees(r, BlockSpec("for", content, childNodes, writer, depth, old(counter.id)), counter.id)
      decreases childNodes, 5
    {
      r := WriteBlock(ws + "for (const " + content + ") {", childNodes);
    }

    /** The shared body of both directive writers: the header, the body written from a copy
        of the state one level deeper, the depth restored, and `}` at the outer
        indentation. */
    method WriteBlock(header: string, childNodes: seq<Node>) returns (r: Result<string, CompileError>)
      requires Valid() && AllWellFormed(childNodes)
      modifies this`depth, this`ws, counter
      ensures depth == old(depth) && Valid()
      ensures PartAgrees(r, match EmitSeq(writer, childNodes, depth + 1, old(counter.id))
                            case Err(e) => Err(e)
                            case Ok((parts, id1)) => Ok((Join([header] + parts + [Ws(depth) + "}"], "\n"), id1)),
                         counter.id)
      decreases childNodes, 4
    {
      var outer := ws;
      IncreaseDepth();
      var newState := new State(childNodes, depth, writer, counter);
      var body := newState.WriteAll();
      DecreaseDepth();
      if body.Err? {
        return Err(body.error);
      }
      r := Ok(Join([header] + body.value + [outer + "}"], "\n"));
    }
  }

  /** What a directive writer returns, by name. */
  function BlockSpec(name: string, content: string, childNodes: seq<Node>, w: Writer, depth: nat, id: nat)
    : Result<(string, nat), CompileError>
    requires (name == "if" || name == "for") && AllWellFormed(childNodes)
  {
    match EmitSeq(w, childNodes, depth + 1, id)
    case Err(e) => Err(e)
    case Ok((parts, id1)) => Ok((DirectiveText(name, content, parts, depth), id1))
  }

  /** `compile(nodes, options)` (src/compile.js:9-86): select the writer, write every
      top-level node at depth one (two inside `with`), restore the depth, and assemble the
      unit.  It produces exactly `CompileSpec`. */
  method Compile(nodes: seq<Node>, opts: Options) returns (r: Result<string, CompileError>)
    requires AllWellFormed(nodes)
    ensures r == CompileSpec(nodes, opts)
  {
    var writer :- SelectWriter(opts.writer);
    var counter := new IdCounter();
    var state := new State(nodes, 0, writer, counter);
    state.IncreaseDepth();
    if opts.useWith {
      state.IncreaseDepth();
    }
    var parts := state.WriteAll();
    if parts.Err? {
      return Err(parts.error);
    }
    state.DecreaseDepth();
    if opts.useWith {
      state.DecreaseDepth();
    }
    var prefix :- WriteExport(opts.output);
    r := Ok(Assemble(writer, opts, prefix, parts.value));
  }
}

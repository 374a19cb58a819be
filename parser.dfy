/** The recursive-descent parser of src/parse.js: a cursor over the token list that
    builds the node forest.  The grammar below is the reference the parser is proved
    against: a successful parse of the tokens from `i` to `j` yields a node that the
    grammar derives from exactly that span. */
module Parser {
  import opened Wrappers
  import opened Syntax

  /** Why a parse fails: `throwUnexpected` (src/parse.js:270-274), `throwUnexpectedEos`
      (src/parse.js:276-279), the two closing-name checks (src/parse.js:98-101, 162-165),
      and a JavaScript TypeError when a missing token, or a token without text, is read
      (src/parse.js:219 and every `getToken(state).type` at the end of the list). */
  datatype ParseError =
    | UnexpectedToken(token: Token)
    | UnexpectedEos
    | TagMismatch(closing: Token, opening: Token)
    | DirectiveMismatch(closing: Token, opening: Token)
    | TypeError

  /** `parseValue`'s node: a VALUE carrying the token's text unchanged. */
  function ValueNode(t: Token): Node
    requires t.value.Some?
  {
    Node(Value, t, Literal(t.value.value))
  }

  /** The kinds `nextNode` dispatches on (src/parse.js:22-36). */
  predicate StartsNode(k: TokenType)
  {
    k == OpenStartTag || k == OpenOutput || k == OpenStartDirective || k == OpenComment || k == Text
  }

  // ---------------------------------------------------------------------------
  // The grammar: which node each span of tokens stands for.
  // ---------------------------------------------------------------------------

  /** `{{ expr }}`: three tokens. */
  ghost predicate OutputAt(n: Node, toks: seq<Token>, i: int, j: int)
  {
    0 <= i && j == i + 3 && j <= |toks|
    && toks[i].kind == OpenOutput && toks[i + 1].value.Some? && toks[i + 2].kind == EndBrace
    && n == Node(Output, toks[i], Children([ValueNode(toks[i + 1])]))
  }

  /** `{{! text }}`: three tokens. */
  ghost predicate CommentAt(n: Node, toks: seq<Token>, i: int, j: int)
  {
    0 <= i && j == i + 3 && j <= |toks|
    && toks[i].kind == OpenComment && toks[i + 1].value.Some? && toks[i + 2].kind == EndBrace
    && n == Node(Comment, toks[i], Children([ValueNode(toks[i + 1])]))
  }

  /** A TEXT token as a VALUE node, or an output. */
  ghost predicate ValueOrOutputAt(n: Node, toks: seq<Token>, i: int, j: int)
  {
    (0 <= i < |toks| && toks[i].kind == Text && toks[i].value.Some? && j == i + 1 && n == ValueNode(toks[i]))
    || OutputAt(n, toks, i, j)
  }

  /** `name` (followed by anything but `=`) or `name = value`.  The name is any token with
      text other than the two that end the attribute list. */
  ghost predicate AttrAt(n: Node, toks: seq<Token>, i: int, j: int)
  {
    0 <= i && i + 1 < |toks|
    && toks[i].kind != EndTag && toks[i].kind != CloseEndTag && toks[i].value.Some?
    && n.kind == Attribute && n.token == toks[i] && n.payload.Children?
    && ((toks[i + 1].kind != Equals && j == i + 1 && n.payload.nodes == [ValueNode(toks[i])])
        || (toks[i + 1].kind == Equals && |n.payload.nodes| == 2 && n.payload.nodes[0] == ValueNode(toks[i])
            && ValueOrOutputAt(n.payload.nodes[1], toks, i + 2, j)))
  }

  /** The attributes, in source order, cover the span from `i` to `j`. */
  ghost predicate AttrsAt(attrs: seq<Node>, toks: seq<Token>, i: int, j: int)
    decreases |attrs|
  {
    if attrs == [] then i == j
    else exists k {:trigger AttrAt(attrs[|attrs| - 1], toks, k, j)} ::
        i <= k && AttrsAt(attrs[..|attrs| - 1], toks, i, k) && AttrAt(attrs[|attrs| - 1], toks, k, j)
  }

  /** An element's tag (from `i + 1` to `t`) and its ATTRIBUTES node, whose token is the one
      right after the tag (from `t` to `e`). */
  ghost predicate ElementHead(n: Node, toks: seq<Token>, i: int, t: int, e: int)
  {
    n.payload.Children? && |n.payload.nodes| >= 2
    && ValueOrOutputAt(n.payload.nodes[0], toks, i + 1, t) && t < |toks|
    && n.payload.nodes[1].kind == Attributes && n.payload.nodes[1].token == toks[t]
    && n.payload.nodes[1].payload.Children?
    && AttrsAt(n.payload.nodes[1].payload.nodes, toks, t, e)
  }

  /** Every node of the list in order, covering the span from `i` to `j`. */
  ghost predicate BodyAt(ns: seq<Node>, toks: seq<Token>, i: int, j: int)
    decreases ns, 0
  {
    0 <= i <= j <= |toks|
    && if ns == [] then i == j
       else exists k {:trigger Derives(ns[|ns| - 1], toks, k, j)} ::
           i <= k && BodyAt(ns[..|ns| - 1], toks, i, k) && Derives(ns[|ns| - 1], toks, k, j)
  }

  /** After the attributes (at `e`): `/>` and no body, or `>` body `</` name `>` where the
      closing name's text is the opening tag's payload.  As written in src/parse.js:98 this
      compares the tag node's children with the closing text and reads a `value` field no
      node has, so an OUTPUT tag never matches and `</?>` is not a wildcard. */
  ghost predicate ElementTail(n: Node, toks: seq<Token>, e: int, j: int)
    decreases n, 1
  {
    n.payload.Children? && |n.payload.nodes| >= 2 && 0 <= e < j <= |toks|
    && ((toks[e].kind == CloseEndTag && |n.payload.nodes| == 2 && j == e + 1)
        || (toks[e].kind == EndTag && e + 4 <= j
            && BodyAt(n.payload.nodes[2..], toks, e + 1, j - 3)
            && toks[j - 3].kind == CloseStartTag && toks[j - 2].value.Some?
            && n.payload.nodes[0].payload == Literal(toks[j - 2].value.value)
            && toks[j - 1].kind == EndTag))
  }

  /** `<` tag attributes, then the tail. */
  ghost predicate ElementAt(n: Node, toks: seq<Token>, i: int, j: int)
    decreases n, 2
  {
    0 <= i < j <= |toks| && toks[i].kind == OpenStartTag && n.kind == Element && n.token == toks[i]
    && exists t, e {:trigger ElementHead(n, toks, i, t, e)} ::
        ElementHead(n, toks, i, t, e) && ElementTail(n, toks, e, j)
  }

  /** `{{# name header }}` body `{{/ name }}`, the closing name equal to the opening one. */
  ghost predicate DirectiveAt(n: Node, toks: seq<Token>, i: int, j: int)
    decreases n, 2
  {
    0 <= i && i + 7 <= j <= |toks|
    && toks[i].kind == OpenStartDirective && n.kind == Directive && n.token == toks[i]
    && toks[i + 1].value.Some? && toks[i + 2].value.Some? && toks[i + 3].kind == EndBrace
    && n.payload.Children? && |n.payload.nodes| >= 2
    && n.payload.nodes[0] == ValueNode(toks[i + 1]) && n.payload.nodes[1] == ValueNode(toks[i + 2])
    && BodyAt(n.payload.nodes[2..], toks, i + 4, j - 3)
    && toks[j - 3].kind == OpenEndDirective && toks[j - 2].value == toks[i + 1].value
    && toks[j - 1].kind == EndBrace
  }

  /** The node `nextNode` returns for the tokens from `i` to `j`. */
  ghost predicate Derives(n: Node, toks: seq<Token>, i: int, j: int)
    decreases n, 3
  {
    match n.kind
    case TextNode =>
      0 <= i < |toks| && j == i + 1 && toks[i].kind == Text && toks[i].value.Some?
      && n == Node(TextNode, toks[i], Children([ValueNode(toks[i])]))
    case Output => OutputAt(n, toks, i, j)
    case Comment => CommentAt(n, toks, i, j)
    case Element => ElementAt(n, toks, i, j)
    case Directive => DirectiveAt(n, toks, i, j)
    case _ => false
  }

  // ---------------------------------------------------------------------------
  // Whole values, attributes and flat nodes, read off the token kinds.
  // ---------------------------------------------------------------------------

  /** A value with text, or `{{` text `}}`, starts at `i`. */
  predicate IsWholeValue(toks: seq<Token>, i: int)
  {
    0 <= i < |toks|
    && ((toks[i].kind == Text && toks[i].value.Some?)
        || (toks[i].kind == OpenOutput && i + 2 < |toks| && toks[i + 1].value.Some? && toks[i + 2].kind == EndBrace))
  }

  function WholeValueEnd(toks: seq<Token>, i: int): int
    requires IsWholeValue(toks, i)
  {
    if toks[i].kind == Text then i + 1 else i + 3
  }

  /** An attribute starts at `i` and some token follows its name: a name with text, then
      anything but `=`, or `=` and a whole value. */
  predicate IsWholeAttr(toks: seq<Token>, i: int)
  {
    0 <= i && i + 1 < |toks| && toks[i].kind != EndTag && toks[i].kind != CloseEndTag && toks[i].value.Some?
    && (toks[i + 1].kind == Equals ==> IsWholeValue(toks, i + 2))
  }

  function WholeAttrEnd(toks: seq<Token>, i: int): (r: int)
    requires IsWholeAttr(toks, i)
    ensures i < r <= |toks|
  {
    if toks[i + 1].kind != Equals then i + 1 else WholeValueEnd(toks, i + 2)
  }

  /** From `i`, whole attributes reach the end of the tokens. */
  predicate AttrsToEnd(toks: seq<Token>, i: int)
    decreases |toks| - i
  {
    0 <= i <= |toks| && (i == |toks| || (IsWholeAttr(toks, i) && AttrsToEnd(toks, WholeAttrEnd(toks, i))))
  }

  /** From `i`, whole attributes are followed by a last attribute name that ends the
      tokens. */
  predicate AttrsToBareEnd(toks: seq<Token>, i: int)
    decreases |toks| - i
  {
    0 <= i < |toks|
    && ((i + 1 == |toks| && toks[i].kind != EndTag && toks[i].kind != CloseEndTag)
        || (IsWholeAttr(toks, i) && AttrsToBareEnd(toks, WholeAttrEnd(toks, i))))
  }

  /** `{{ text }}` or `{{! text }}` starts at `i`. */
  predicate IsFlatBrace(toks: seq<Token>, i: int)
  {
    0 <= i && i + 2 < |toks| && (toks[i].kind == OpenOutput || toks[i].kind == OpenComment)
    && toks[i + 1].value.Some? && toks[i + 2].kind == EndBrace
  }

  /** From `i`, whole TEXT, output and comment nodes reach the end of the tokens. */
  predicate FlatToEnd(toks: seq<Token>, i: int)
    decreases |toks| - i
  {
    0 <= i <= |toks|
    && (i == |toks|
        || (toks[i].kind == Text && toks[i].value.Some? && FlatToEnd(toks, i + 1))
        || (IsFlatBrace(toks, i) && FlatToEnd(toks, i + 3)))
  }

  // ---------------------------------------------------------------------------
  // Properties of the grammar.
  // ---------------------------------------------------------------------------

  /** One more attribute extends the attribute list's span. */
  lemma AttrsSnoc(attrs: seq<Node>, a: Node, toks: seq<Token>, i: int, k: int, j: int)
    requires AttrsAt(attrs, toks, i, k) && i <= k && AttrAt(a, toks, k, j)
    ensures AttrsAt(attrs + [a], toks, i, j)
  {
    assert (attrs + [a])[..|attrs|] == attrs;
    assert AttrAt((attrs + [a])[|attrs|], toks, k, j);
  }

  /** One more node extends a body's span. */
  lemma BodySnoc(ns: seq<Node>, n: Node, toks: seq<Token>, i: int, k: int, j: int)
    requires BodyAt(ns, toks, i, k) && Derives(n, toks, k, j) && k <= j <= |toks|
    ensures BodyAt(ns + [n], toks, i, j)
  {
    assert (ns + [n])[..|ns|] == ns;
    assert Derives((ns + [n])[|ns|], toks, k, j);
  }

  /** A directive from its parts. */
  lemma DirectiveIntro(open: Token, name: Node, header: Node, body: seq<Node>, toks: seq<Token>, i: int, j: int)
    requires 0 <= i && i + 7 <= j <= |toks| && toks[i] == open && open.kind == OpenStartDirective
    requires toks[i + 1].value.Some? && name == ValueNode(toks[i + 1])
    requires toks[i + 2].value.Some? && header == ValueNode(toks[i + 2])
    requires toks[i + 3].kind == EndBrace && BodyAt(body, toks, i + 4, j - 3)
    requires toks[j - 3].kind == OpenEndDirective && toks[j - 2].value == toks[i + 1].value
    requires toks[j - 1].kind == EndBrace
    ensures DirectiveAt(Node(Directive, open, Children([name, header] + body)), toks, i, j)
  {
    assert ([name, header] + body)[2..] == body;
  }

  /** The body form of an element's tail from its parts. */
  lemma ClosedTailIntro(open: Token, tag: Node, attributesNode: Node, body: seq<Node>, toks: seq<Token>, e: int, j: int)
    requires 0 <= e && e + 4 <= j <= |toks| && toks[e].kind == EndTag
    requires BodyAt(body, toks, e + 1, j - 3) && toks[j - 3].kind == CloseStartTag
    requires toks[j - 2].value.Some? && tag.payload == Literal(toks[j - 2].value.value)
    requires toks[j - 1].kind == EndTag
    ensures ElementTail(Node(Element, open, Children([tag, attributesNode] + body)), toks, e, j)
  {
    assert ([tag, attributesNode] + body)[2..] == body;
  }

  lemma {:induction false} AttrsAttributes(attrs: seq<Node>, toks: seq<Token>, i: int, j: int)
    requires AttrsAt(attrs, toks, i, j)
    ensures forall q :: 0 <= q < |attrs| ==> IsAttribute(attrs[q])
    decreases |attrs|
  {
    if attrs != [] {
      var k :| i <= k && AttrsAt(attrs[..|attrs| - 1], toks, i, k) && AttrAt(attrs[|attrs| - 1], toks, k, j);
      AttrsAttributes(attrs[..|attrs| - 1], toks, i, k);
      forall q | 0 <= q < |attrs| ensures IsAttribute(attrs[q]) {
        if q < |attrs| - 1 {
          assert attrs[q] == attrs[..|attrs| - 1][q];
        }
      }
    }
  }

  /** Every derived node has the shape the compiler expects. */
  lemma {:induction false} DerivesWellFormed(n: Node, toks: seq<Token>, i: int, j: int)
    requires Derives(n, toks, i, j)
    ensures WellFormed(n)
    decreases n, 2
  {
    match n.kind
    case Element =>
      ElementWellFormed(n, toks, i, j);
    case Directive =>
      BodyWellFormed(n.payload.nodes[2..], toks, i + 4, j - 3);
      BodyNodesWellFormed(n);
    case _ =>
  }

  lemma {:induction false} ElementWellFormed(n: Node, toks: seq<Token>, i: int, j: int)
    requires ElementAt(n, toks, i, j)
    ensures WellFormed(n)
    decreases n, 1
  {
    var t, e :| ElementHead(n, toks, i, t, e) && ElementTail(n, toks, e, j);
    HeadWellFormed(n, toks, i, t, e);
    TailWellFormed(n, toks, e, j);
    BodyNodesWellFormed(n);
    ElementShape(n);
  }

  lemma HeadWellFormed(n: Node, toks: seq<Token>, i: int, t: int, e: int)
    requires ElementHead(n, toks, i, t, e)
    ensures IsValue(n.payload.nodes[0]) || IsOutput(n.payload.nodes[0])
    ensures IsAttributes(n.payload.nodes[1])
  {
    AttrsAttributes(n.payload.nodes[1].payload.nodes, toks, t, e);
  }

  lemma {:induction false} TailWellFormed(n: Node, toks: seq<Token>, e: int, j: int)
    requires ElementTail(n, toks, e, j)
    ensures AllWellFormed(n.payload.nodes[2..])
    decreases n, 0
  {
    if toks[e].kind == EndTag {
      BodyWellFormed(n.payload.nodes[2..], toks, e + 1, j - 3);
    }
  }

  /** The ELEMENT case of `WellFormed`, from its parts. */
  lemma ElementShape(n: Node)
    requires n.kind == Element && n.payload.Children? && |n.payload.nodes| >= 2
    requires IsValue(n.payload.nodes[0]) || IsOutput(n.payload.nodes[0])
    requires IsAttributes(n.payload.nodes[1])
    requires forall q :: 2 <= q < |n.payload.nodes| ==> WellFormed(n.payload.nodes[q])
    ensures WellFormed(n)
  {
  }

  /** The body of an element or directive is well formed when its slice is. */
  lemma BodyNodesWellFormed(n: Node)
    requires n.payload.Children? && |n.payload.nodes| >= 2 && AllWellFormed(n.payload.nodes[2..])
    ensures forall q :: 2 <= q < |n.payload.nodes| ==> WellFormed(n.payload.nodes[q])
  {
    forall q | 2 <= q < |n.payload.nodes| ensures WellFormed(n.payload.nodes[q]) {
      assert n.payload.nodes[q] == n.payload.nodes[2..][q - 2];
    }
  }

  lemma {:induction false} BodyWellFormed(ns: seq<Node>, toks: seq<Token>, i: int, j: int)
    requires BodyAt(ns, toks, i, j)
    ensures AllWellFormed(ns)
    decreases ns, 0
  {
    if ns != [] {
      var k :| i <= k && BodyAt(ns[..|ns| - 1], toks, i, k) && Derives(ns[|ns| - 1], toks, k, j);
      BodyWellFormed(ns[..|ns| - 1], toks, i, k);
      DerivesWellFormed(ns[|ns| - 1], toks, k, j);
      forall q | 0 <= q < |ns| ensures WellFormed(ns[q]) {
        if q < |ns| - 1 {
          assert ns[q] == ns[..|ns| - 1][q];
        }
      }
    }
  }

  /** An element with body nodes was closed by `</name>` naming its static tag: an
      element whose tag is an output never has a body (src/parse.js:98). */
  lemma ClosedElementNamesTag(n: Node, toks: seq<Token>, i: int, j: int)
    requires ElementAt(n, toks, i, j) && |n.payload.nodes| > 2
    ensures i + 6 <= j && toks[j - 1].kind == EndTag && toks[j - 3].kind == CloseStartTag
    ensures toks[j - 2].value.Some? && n.payload.nodes[0].kind == Value
    ensures n.payload.nodes[0].payload == Literal(toks[j - 2].value.value)
  {
    var t, e :| ElementHead(n, toks, i, t, e) && ElementTail(n, toks, e, j);
  }

  /** An element closed by `/>` has exactly its tag and its ATTRIBUTES node. */
  lemma SelfClosingHasNoBody(n: Node, toks: seq<Token>, i: int, j: int)
    requires ElementAt(n, toks, i, j) && toks[j - 1].kind == CloseEndTag
    ensures |n.payload.nodes| == 2
  {
    var t, e :| ElementHead(n, toks, i, t, e) && ElementTail(n, toks, e, j);
  }

  /** Every derived node starts with one of the tokens `nextNode` dispatches on, so a
      body loop stops exactly at its closing marker. */
  lemma DerivesStarts(n: Node, toks: seq<Token>, i: int, j: int)
    requires Derives(n, toks, i, j)
    ensures 0 <= i < j <= |toks| && StartsNode(toks[i].kind) && n.token == toks[i]
  {
    match n.kind
    case Element =>
      var t, e :| ElementHead(n, toks, i, t, e) && ElementTail(n, toks, e, j);
    case _ =>
  }

  /** A list of nodes derived from no tokens is empty. */
  lemma EmptySpanNoNodes(ns: seq<Node>, toks: seq<Token>, i: int)
    requires BodyAt(ns, toks, i, i)
    ensures ns == []
  {
    if ns != [] {
      var k :| i <= k && BodyAt(ns[..|ns| - 1], toks, i, k) && Derives(ns[|ns| - 1], toks, k, i);
      DerivesStarts(ns[|ns| - 1], toks, k, i);
    }
  }

  /** A TEXT token starts nothing but a TEXT node: the one that wraps it. */
  lemma TextTokenDerivesText(n: Node, toks: seq<Token>, i: int, j: int)
    requires Derives(n, toks, i, j) && 0 <= i < |toks| && toks[i].kind == Text
    ensures j == i + 1 && toks[i].value.Some? && n == Node(TextNode, toks[i], Children([ValueNode(toks[i])]))
  {
  }

  /** A single token derives at most one node. */
  lemma SingleNode(ns: seq<Node>, toks: seq<Token>)
    requires |toks| == 1 && BodyAt(ns, toks, 0, 1) && ns != []
    ensures |ns| == 1 && Derives(ns[0], toks, 0, 1)
  {
    var k :| 0 <= k && BodyAt(ns[..|ns| - 1], toks, 0, k) && Derives(ns[|ns| - 1], toks, k, 1);
    DerivesStarts(ns[|ns| - 1], toks, k, 1);
    EmptySpanNoNodes(ns[..|ns| - 1], toks, 0);
  }

  // ---------------------------------------------------------------------------
  // The parser.
  // ---------------------------------------------------------------------------

  /** The parser state of src/parse.js:6-9: the tokens and a cursor that only moves forward. */
  class Parser {
    const tokens: seq<Token>
    var pos: nat

    constructor (tokens: seq<Token>)
      ensures this.tokens == tokens && pos == 0
    {
      this.tokens := tokens;
      pos := 0;
    }

    /** `parseValue` (src/parse.js:216-221): pops a token and wraps its text. */
    method ParseValue() returns (r: Result<Node, ParseError>)
      requires pos <= |tokens|
      modifies this`pos
      ensures old(pos) <= pos <= |tokens|
      ensures r.Ok? <==> old(pos) < |tokens| && tokens[old(pos)].value.Some?
      ensures r.Ok? ==> pos == old(pos) + 1 && r.value == ValueNode(tokens[old(pos)])
      ensures r.Err? ==> r.error == TypeError
    {
      if pos == |tokens| {
        return Err(TypeError);
      }
      var t := tokens[pos];
      pos := pos + 1;
      if t.value.None? {
        return Err(TypeError);
      }
      return Ok(Node(Value, t, Literal(t.value.value)));
    }

    /** The closing-token checks of the parse functions: read the current token, fail on
        any other kind (src/parse.js:121-127, 167-174 and the others), then pop it. */
    method Expect(kind: TokenType) returns (err: Option<ParseError>)
      requires pos <= |tokens|
      modifies this`pos
      ensures old(pos) <= pos <= |tokens|
      ensures err.None? <==> old(pos) < |tokens| && tokens[old(pos)].kind == kind
      ensures err.None? ==> pos == old(pos) + 1
      ensures err.Some? && old(pos) == |tokens| ==> err.value == TypeError
      ensures err.Some? && old(pos) < |tokens| ==> err.value == UnexpectedToken(tokens[old(pos)])
    {
      if pos == |tokens| {
        return Some(TypeError);
      }
      if tokens[pos].kind != kind {
        return Some(UnexpectedToken(tokens[pos]));
      }
      pos := pos + 1;
      return None;
    }

    /** `parseOutput` (src/parse.js:116-130). */
    method ParseOutput() returns (r: Result<Node, ParseError>)
      requires pos < |tokens| && tokens[pos].kind == OpenOutput
      modifies this`pos
      ensures old(pos) <= pos <= |tokens|
      ensures r.Ok? <==> old(pos) + 2 < |tokens| && tokens[old(pos) + 1].value.Some? && tokens[old(pos) + 2].kind == EndBrace
      ensures r.Ok? ==> OutputAt(r.value, tokens, old(pos), pos)
      ensures old(pos) + 2 < |tokens| && tokens[old(pos) + 1].value.Some? && tokens[old(pos) + 2].kind != EndBrace
              ==> r == Err(UnexpectedToken(tokens[old(pos) + 2]))
    {
      var open := tokens[pos];
      pos := pos + 1;
      var content :- ParseValue();
      var err := Expect(EndBrace);
      if err.Some? {
        return Err(err.value);
      }
      return Ok(Node(Output, open, Children([content])));
    }

    /** `parseComment` (src/parse.js:179-193). */
    method ParseComment() returns (r: Result<Node, ParseError>)
      requires pos < |tokens| && tokens[pos].kind == OpenComment
      modifies this`pos
      ensures old(pos) <= pos <= |tokens|
      ensures r.Ok? <==> old(pos) + 2 < |tokens| && tokens[old(pos) + 1].value.Some? && tokens[old(pos) + 2].kind == EndBrace
      ensures r.Ok? ==> CommentAt(r.value, tokens, old(pos), pos)
      ensures old(pos) + 2 < |tokens| && tokens[old(pos) + 1].value.Some? && tokens[old(pos) + 2].kind != EndBrace
              ==> r == Err(UnexpectedToken(tokens[old(pos) + 2]))
    {
      var open := tokens[pos];
      pos := pos + 1;
      var content :- ParseValue();
      var err := Expect(EndBrace);
      if err.Some? {
        return Err(err.value);
      }
      return Ok(Node(Comment, open, Children([content])));
    }

    /** `parseText` (src/parse.js:195-200): the TEXT node wraps its own token as one VALUE. */
    method ParseText() returns (r: Result<Node, ParseError>)
      requires pos < |tokens| && tokens[pos].kind == Text
      modifies this`pos
      ensures old(pos) <= pos <= |tokens|
      ensures r.Ok? <==> tokens[old(pos)].value.Some?
      ensures r.Ok? ==> pos == old(pos) + 1 && Derives(r.value, tokens, old(pos), pos)
      ensures r.Ok? ==> r.value.payload == Children([Node(Value, tokens[old(pos)], Literal(tokens[old(pos)].value.value))])
    {
      var textToken := tokens[pos];
      var value :- ParseValue();
      return Ok(Node(TextNode, textToken, Children([value])));
    }

    /** `parseValueOrOutput` (src/parse.js:202-214). */
    method ParseValueOrOutput() returns (r: Result<Node, ParseError>)
      requires pos <= |tokens|
      modifies this`pos
      ensures old(pos) <= pos <= |tokens|
      ensures r.Ok? ==> ValueOrOutputAt(r.value, tokens, old(pos), pos)
      ensures r.Ok? <==> IsWholeValue(tokens, old(pos))
      ensures r.Ok? ==> pos == WholeValueEnd(tokens, old(pos))
      ensures old(pos) == |tokens| ==> r == Err(TypeError)
      ensures old(pos) < |tokens| && tokens[old(pos)].kind != Text && tokens[old(pos)].kind != OpenOutput
              ==> r == Err(UnexpectedToken(tokens[old(pos)]))
    {
      if pos == |tokens| {
        return Err(TypeError);
      }
      match tokens[pos].kind
      case Text =>
        r := ParseValue();
      case OpenOutput =>
        r := ParseOutput();
      case _ =>
        r := Err(UnexpectedToken(tokens[pos]));
    }

    /** `parseAttribute` (src/parse.js:223-237): a name, then `=` and a value or output. */
    method ParseAttribute() returns (r: Result<Node, ParseError>)
      requires pos < |tokens| && tokens[pos].kind != EndTag && tokens[pos].kind != CloseEndTag
      modifies this`pos
      ensures old(pos) <= pos <= |tokens|
      ensures r.Ok? ==> old(pos) < pos && AttrAt(r.value, tokens, old(pos), pos)
      ensures r.Ok? <==> IsWholeAttr(tokens, old(pos))
      ensures r.Ok? ==> pos == WholeAttrEnd(tokens, old(pos))
      ensures old(pos) + 1 == |tokens| ==> r == Err(TypeError)
    {
      var startToken := tokens[pos];
      var name :- ParseValue();
      if pos == |tokens| {
        return Err(TypeError);
      }
      if tokens[pos].kind != Equals {
        return Ok(Node(Attribute, startToken, Children([name])));
      }
      pos := pos + 1;
      var value :- ParseValueOrOutput();
      return Ok(Node(Attribute, startToken, Children([name, value])));
    }

    /** The attribute loop of `parseElement` (src/parse.js:46-58): attributes up to the
        `>` or `/>` that ends the start tag; running out of tokens first is an error. */
    method ParseAttributes() returns (r: Result<seq<Node>, ParseError>)
      requires pos <= |tokens|
      modifies this`pos
      ensures old(pos) <= pos <= |tokens|
      ensures r.Ok? ==> AttrsAt(r.value, tokens, old(pos), pos) && pos < |tokens|
      ensures r.Ok? ==> tokens[pos].kind == EndTag || tokens[pos].kind == CloseEndTag
      ensures old(pos) == |tokens| ==> r == Err(UnexpectedEos)
      ensures AttrsToEnd(tokens, old(pos)) ==> r == Err(UnexpectedEos)
      ensures AttrsToBareEnd(tokens, old(pos)) ==> r == Err(TypeError)
    {
      var attrs: seq<Node> := [];
      ghost var start := pos;
      while pos < |tokens| && tokens[pos].kind != EndTag && tokens[pos].kind != CloseEndTag
        invariant start <= pos <= |tokens|
        invariant AttrsAt(attrs, tokens, start, pos)
        invariant AttrsToEnd(tokens, start) ==> AttrsToEnd(tokens, pos)
        invariant AttrsToBareEnd(tokens, start) ==> AttrsToBareEnd(tokens, pos)
        decreases |tokens| - pos
      {
        ghost var k := pos;
        var a :- ParseAttribute();
        AttrsSnoc(attrs, a, tokens, start, k, pos);
        attrs := attrs + [a];
      }
      if pos == |tokens| {
        return Err(UnexpectedEos);
      }
      return Ok(attrs);
    }

    /** `nextNode` (src/parse.js:20-37): dispatch on the current token. */
    method NextNode() returns (r: Result<Node, ParseError>)
      requires pos < |tokens|
      modifies this`pos
      decreases |tokens| - pos, 1
      ensures old(pos) <= pos <= |tokens|
      ensures r.Ok? ==> old(pos) < pos && Derives(r.value, tokens, old(pos), pos)
      ensures !StartsNode(tokens[old(pos)].kind) ==> r == Err(UnexpectedToken(tokens[old(pos)]))
      ensures tokens[old(pos)].kind == Text ==> (r.Ok? <==> tokens[old(pos)].value.Some?)
      ensures tokens[old(pos)].kind == Text && r.Ok? ==> pos == old(pos) + 1
      ensures IsFlatBrace(tokens, old(pos)) ==> r.Ok? && pos == old(pos) + 3
    {
      match tokens[pos].kind
      case OpenStartTag =>
        r := ParseElement();
      case OpenOutput =>
        r := ParseOutput();
      case OpenStartDirective =>
        r := ParseDirective();
      case OpenComment =>
        r := ParseComment();
      case Text =>
        r := ParseText();
      case _ =>
        r := Err(UnexpectedToken(tokens[pos]));
    }

    /** Body nodes up to the token of kind `stop` (the loops at src/parse.js:83-91 and
        147-155); running out of tokens first is an error. */
    method ParseBody(stop: TokenType) returns (r: Result<seq<Node>, ParseError>)
      requires pos <= |tokens| && !StartsNode(stop)
      modifies this`pos
      decreases |tokens| - pos, 2
      ensures old(pos) <= pos <= |tokens|
      ensures r.Ok? ==> BodyAt(r.value, tokens, old(pos), pos) && pos < |tokens| && tokens[pos].kind == stop
      ensures old(pos) == |tokens| ==> r == Err(UnexpectedEos)
      ensures FlatToEnd(tokens, old(pos)) ==> r == Err(UnexpectedEos)
    {
      var nodes: seq<Node> := [];
      ghost var start := pos;
      while pos < |tokens| && tokens[pos].kind != stop
        invariant start <= pos <= |tokens|
        invariant BodyAt(nodes, tokens, start, pos)
        invariant FlatToEnd(tokens, start) ==> FlatToEnd(tokens, pos)
        decreases |tokens| - pos
      {
        ghost var k := pos;
        var n :- NextNode();
        BodySnoc(nodes, n, tokens, start, k, pos);
        nodes := nodes + [n];
      }
      if pos == |tokens| {
        return Err(UnexpectedEos);
      }
      return Ok(nodes);
    }

    /** `parseElement` (src/parse.js:39-114): the start tag and its attributes. */
    method ParseElement() returns (r: Result<Node, ParseError>)
      requires pos < |tokens| && tokens[pos].kind == OpenStartTag
      modifies this`pos
      decreases |tokens| - pos, 0
      ensures old(pos) <= pos <= |tokens|
      ensures r.Ok? ==> old(pos) < pos && ElementAt(r.value, tokens, old(pos), pos)
    {
      var open := tokens[pos];
      pos := pos + 1;
      var tag :- ParseValueOrOutput();
      var t := pos;
      var attrs :- ParseAttributes();
      var e := pos;
      var attributesNode := Node(Attributes, tokens[t], Children(attrs));
      r := ParseElementTail(open, tag, attributesNode);
      if r.Ok? {
        assert ElementHead(r.value, tokens, old(pos), t, e);
      }
    }

    /** The rest of `parseElement` (src/parse.js:60-113), from the `>` or `/>` that ends
        the start tag: no body after `/>`, otherwise the body, `</`, a closing name that
        must match the tag, and `>`. */
    method ParseElementTail(open: Token, tag: Node, attributesNode: Node) returns (r: Result<Node, ParseError>)
      requires pos < |tokens| && (tokens[pos].kind == EndTag || tokens[pos].kind == CloseEndTag)
      modifies this`pos
      decreases |tokens| - pos, 3
      ensures old(pos) <= pos <= |tokens|
      ensures r.Ok? ==> r.value.payload.Children? && |r.value.payload.nodes| >= 2 && ElementTail(r.value, tokens, old(pos), pos)
      ensures r.Ok? ==> r.value == Node(Element, open, Children([tag, attributesNode] + r.value.payload.nodes[2..]))
    {
      if tokens[pos].kind == CloseEndTag {
        pos := pos + 1;
        return Ok(Node(Element, open, Children([tag, attributesNode])));
      }
      // The attribute loop stopped at `>`: the check at src/parse.js:74-78 cannot fail.
      pos := pos + 1;
      var body :- ParseBody(CloseStartTag);
      pos := pos + 1;
      var endTagName :- ParseValue();
      if endTagName.payload != tag.payload {
        return Err(TagMismatch(endTagName.token, attributesNode.token));
      }
      var err := Expect(EndTag);
      if err.Some? {
        return Err(err.value);
      }
      ClosedTailIntro(open, tag, attributesNode, body, tokens, old(pos), pos);
      var n := Node(Element, open, Children([tag, attributesNode] + body));
      assert n.payload.nodes[2..] == body;
      return Ok(n);
    }

    /** `parseDirective` (src/parse.js:132-177): `{{#`, the name, the header and `}}`. */
    method ParseDirective() returns (r: Result<Node, ParseError>)
      requires pos < |tokens| && tokens[pos].kind == OpenStartDirective
      modifies this`pos
      decreases |tokens| - pos, 0
      ensures old(pos) <= pos <= |tokens|
      ensures r.Ok? ==> old(pos) < pos && DirectiveAt(r.value, tokens, old(pos), pos)
    {
      var open := tokens[pos];
      pos := pos + 1;
      var name :- ParseValue();
      var header :- ParseValue();
      var err := Expect(EndBrace);
      if err.Some? {
        return Err(err.value);
      }
      var body :- ParseDirectiveTail(name);
      DirectiveIntro(open, name, header, body, tokens, old(pos), pos);
      return Ok(Node(Directive, open, Children([name, header] + body)));
    }

    /** The rest of `parseDirective` (src/parse.js:146-176): the body, `{{/`, a closing
        name equal to the opening one, and `}}`. */
    method ParseDirectiveTail(name: Node) returns (r: Result<seq<Node>, ParseError>)
      requires pos <= |tokens| && name.kind == Value && name.payload.Literal?
      modifies this`pos
      decreases |tokens| - pos, 3
      ensures old(pos) <= pos <= |tokens|
      ensures r.Ok? ==> old(pos) + 3 <= pos && BodyAt(r.value, tokens, old(pos), pos - 3)
      ensures r.Ok? ==> tokens[pos - 3].kind == OpenEndDirective && tokens[pos - 1].kind == EndBrace
      ensures r.Ok? ==> tokens[pos - 2].value == Some(name.payload.text)
    {
      var body :- ParseBody(OpenEndDirective);
      pos := pos + 1;
      var endName :- ParseValue();
      if endName.payload != name.payload {
        return Err(DirectiveMismatch(endName.token, name.token));
      }
      var err := Expect(EndBrace);
      if err.Some? {
        return Err(err.value);
      }
      return Ok(body);
    }
  }

  /** `parse` (src/parse.js:4-18): nodes until the tokens run out.  Every node is derived
      by the grammar, together they cover the whole token list, and so all are well formed. */
  method Parse(tokens: seq<Token>) returns (r: Result<seq<Node>, ParseError>)
    ensures r.Ok? ==> BodyAt(r.value, tokens, 0, |tokens|) && AllWellFormed(r.value)
    ensures tokens == [] ==> r == Ok([])
    ensures tokens != [] && !StartsNode(tokens[0].kind) ==> r == Err(UnexpectedToken(tokens[0]))
    ensures |tokens| == 1 && tokens[0].kind == Text && tokens[0].value.Some?
            ==> r == Ok([Node(TextNode, tokens[0], Children([ValueNode(tokens[0])]))])
  {
    var p := new Parser(tokens);
    var nodes: seq<Node> := [];
    while p.pos < |p.tokens|
      invariant p.tokens == tokens && p.pos <= |tokens|
      invariant BodyAt(nodes, tokens, 0, p.pos)
      invariant nodes == [] <==> p.pos == 0
      invariant p.pos > 0 ==> StartsNode(tokens[0].kind)
      decreases |tokens| - p.pos
    {
      ghost var k := p.pos;
      var n := p.NextNode();
      if n.Err? {
        return Err(n.error);
      }
      BodySnoc(nodes, n.value, tokens, 0, k, p.pos);
      nodes := nodes + [n.value];
    }
    BodyWellFormed(nodes, tokens, 0, |tokens|);
    if |tokens| == 1 {
      SingleNode(nodes, tokens);
      if tokens[0].kind == Text {
        TextTokenDerivesText(nodes[0], tokens, 0, 1);
        assert nodes == [nodes[0]];
      }
    }
    return Ok(nodes);
  }
}

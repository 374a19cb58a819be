/** Tokens (src/TokenType.js) and nodes (src/NodeType.js): the values passed from
    the lexer to the parser and from the parser to the compiler. */
module Syntax {
  import opened Wrappers
  import opened Escaping

  datatype TokenType =
    | OpenStartTag        // <
    | CloseStartTag       // </
    | EndTag              // >
    | CloseEndTag         // />
    | OpenOutput          // {{
    | OpenStartDirective  // {{#
    | OpenEndDirective    // {{/
    | OpenComment         // {{!
    | EndBrace            // }}
    | Text
    | Equals              // =

  /** The source text a marker token stands for (none for TEXT). */
  function MarkerText(kind: TokenType): string
  {
    match kind
    case OpenStartTag => "<"
    case CloseStartTag => "</"
    case EndTag => ">"
    case CloseEndTag => "/>"
    case OpenOutput => "{{"
    case OpenStartDirective => "{{#"
    case OpenEndDirective => "{{/"
    case OpenComment => "{{!"
    case EndBrace => "}}"
    case Text => ""
    case Equals => "="
  }

  /** A token: its kind, its text (only TEXT tokens carry one), its offset in the source,
      its line (from 1) and its column (from 0). */
  datatype Token = Token(kind: TokenType, value: Option<string>, pos: nat, line: nat, linePos: nat)

  datatype NodeType = TextNode | Element | Directive | Output | Attribute | Value | Attributes | Comment

  /** A VALUE node carries a literal string, every other node a list of children. */
  datatype Payload = Literal(text: string) | Children(nodes: seq<Node>)

  datatype Node = Node(kind: NodeType, token: Token, payload: Payload)

  predicate IsValue(n: Node)
  {
    n.kind == Value && n.payload.Literal?
  }

  /** `{{ expr }}`: one VALUE child holding the expression. */
  predicate IsOutput(n: Node)
  {
    n.kind == Output && n.payload.Children? && |n.payload.nodes| == 1 && IsValue(n.payload.nodes[0])
  }

  /** A bare flag (one child) or `name=value` (a name, then a VALUE or an OUTPUT). */
  predicate IsAttribute(n: Node)
  {
    n.kind == Attribute && n.payload.Children?
    && (|n.payload.nodes| == 1 || |n.payload.nodes| == 2)
    && IsValue(n.payload.nodes[0])
    && (|n.payload.nodes| == 2 ==> IsValue(n.payload.nodes[1]) || IsOutput(n.payload.nodes[1]))
  }

  predicate IsAttributes(n: Node)
  {
    n.kind == Attributes && n.payload.Children?
    && forall i :: 0 <= i < |n.payload.nodes| ==> IsAttribute(n.payload.nodes[i])
  }

  /** The shape of every node the parser returns from `nextNode`:
      TEXT wraps one VALUE; OUTPUT and COMMENT hold one VALUE;
      ELEMENT is [tag (VALUE or OUTPUT), ATTRIBUTES, ...body];
      DIRECTIVE is [name VALUE, header VALUE, ...body]. */
  predicate WellFormed(n: Node)
    decreases n
  {
    match n.kind
    case TextNode =>
      n.payload.Children? && |n.payload.nodes| == 1 && IsValue(n.payload.nodes[0])
    case Output =>
      IsOutput(n)
    case Comment =>
      n.payload.Children? && |n.payload.nodes| == 1 && IsValue(n.payload.nodes[0])
    case Element =>
      n.payload.Children? && |n.payload.nodes| >= 2
      && (IsValue(n.payload.nodes[0]) || IsOutput(n.payload.nodes[0]))
      && IsAttributes(n.payload.nodes[1])
      && forall i :: 2 <= i < |n.payload.nodes| ==> WellFormed(n.payload.nodes[i])
    case Directive =>
      n.payload.Children? && |n.payload.nodes| >= 2
      && IsValue(n.payload.nodes[0]) && IsValue(n.payload.nodes[1])
      && forall i :: 2 <= i < |n.payload.nodes| ==> WellFormed(n.payload.nodes[i])
    case _ => false
  }

  /** A compiled attribute value: `true` for a bare flag, otherwise the literal text or
      the expression text. */
  datatype AttrValue = FlagValue | StringValue(s: string)

  /** How a template string interpolates the value (`${value}`). */
  function ValueText(v: AttrValue): string
  {
    match v
    case FlagValue => "true"
    case StringValue(s) => s
  }

  /** `escapeString(value)`: `Array.from(true)` is empty, so a flag escapes to "". */
  function EscapedValue(v: AttrValue): string
  {
    match v
    case FlagValue => ""
    case StringValue(s) => Escape(s)
  }

  predicate AllWellFormed(ns: seq<Node>)
  {
    forall i :: 0 <= i < |ns| ==> WellFormed(ns[i])
  }
}

/** The scanner (src/lex.js): a cursor over the source with a line and a column, a
    stack of scanning states and a brace counter, all updated in place while tokens
    are appended. The source is taken as a sequence of characters, one per byte. */
module Lexer {
  import opened Wrappers
  import Escaping
  import opened Syntax

  datatype LexState = InMain | InTagName | InAttributes | InBrace | InString

  /** `throwUnexpected` and `throwUnexpectedEof`, with the line and column reported;
      `TypeError` is `throwUnexpected` at the end of input, where its message reads
      `code(state).toString(16)` of `undefined` and fails before reporting anything. */
  datatype LexError = Unexpected(line: nat, col: nat) | UnexpectedEof(line: nat, col: nat) | TypeError

  // ---------------------------------------------------------------------------
  // Character classes and marker predicates (`is*`), all at offset 0.

  /** The `WHITESPACE` set: tab, CR, LF, vertical tab and space (not form feed). */
  predicate IsWhite(c: char)
  {
    c == '\t' || c == '\r' || c == '\n' || c == Escaping.VerticalTab || c == ' '
  }

  predicate IsQuote(c: char)
  {
    c == '\'' || c == '"'
  }

  /** `BRACE_SPECIAL`: the characters that turn `{{` into a directive or a comment. */
  predicate IsBraceSpecial(c: char)
  {
    c == '#' || c == '/' || c == '!'
  }

  /** The marker `m` occurs at `p`. */
  predicate Match(s: string, p: nat, m: string)
  {
    |m| == 0 || (p + |m| <= |s| && s[p..p + |m|] == m)
  }

  predicate CharAt(s: string, p: nat, c: char)
  {
    p < |s| && s[p] == c
  }

  predicate IsCloseStartTag(s: string, p: nat)
  {
    CharAt(s, p, '<') && CharAt(s, p + 1, '/')
  }

  /** `<` is an open start tag only when it does not begin `</`. */
  predicate IsOpenStartTag(s: string, p: nat)
  {
    CharAt(s, p, '<') && !IsCloseStartTag(s, p)
  }

  predicate IsEndTag(s: string, p: nat)
  {
    CharAt(s, p, '>')
  }

  predicate IsCloseEndTag(s: string, p: nat)
  {
    CharAt(s, p, '/') && CharAt(s, p + 1, '>')
  }

  /** `isOpenBrace`: any `{{`. */
  predicate IsOpenBrace(s: string, p: nat)
  {
    CharAt(s, p, '{') && CharAt(s, p + 1, '{')
  }

  /** `isOpenOutput`: `{{` not followed by `#`, `/` or `!` (true at the end of input). */
  predicate IsOpenOutput(s: string, p: nat)
  {
    IsOpenBrace(s, p) && !(p + 2 < |s| && IsBraceSpecial(s[p + 2]))
  }

  predicate IsOpenStartDirective(s: string, p: nat)
  {
    IsOpenBrace(s, p) && CharAt(s, p + 2, '#')
  }

  predicate IsOpenEndDirective(s: string, p: nat)
  {
    IsOpenBrace(s, p) && CharAt(s, p + 2, '/')
  }

  predicate IsOpenComment(s: string, p: nat)
  {
    IsOpenBrace(s, p) && CharAt(s, p + 2, '!')
  }

  predicate IsEndBrace(s: string, p: nat)
  {
    CharAt(s, p, '}') && CharAt(s, p + 1, '}')
  }

  /** `isSpecial`: any marker starts at `p`. */
  predicate IsSpecial(s: string, p: nat)
  {
    IsOpenStartTag(s, p) || IsCloseStartTag(s, p) || IsEndTag(s, p) || IsCloseEndTag(s, p)
    || IsOpenOutput(s, p) || IsOpenStartDirective(s, p) || IsOpenEndDirective(s, p)
    || IsOpenComment(s, p) || IsEndBrace(s, p)
  }

  predicate IsWhiteAt(s: string, p: nat)
  {
    p < |s| && IsWhite(s[p])
  }

  predicate IsQuoteAt(s: string, p: nat)
  {
    p < |s| && IsQuote(s[p])
  }

  predicate IsEqualsAt(s: string, p: nat)
  {
    CharAt(s, p, '=')
  }

  /** A marker token of this kind may start at `p`: its text is there, and no marker of
      higher precedence is (`</` before `<`; `{{#`, `{{/`, `{{!` before `{{`). */
  predicate MarkerAt(s: string, p: nat, kind: TokenType)
  {
    match kind
    case OpenStartTag => IsOpenStartTag(s, p)
    case CloseStartTag => IsCloseStartTag(s, p)
    case EndTag => IsEndTag(s, p)
    case CloseEndTag => IsCloseEndTag(s, p)
    case OpenOutput => IsOpenOutput(s, p)
    case OpenStartDirective => IsOpenStartDirective(s, p)
    case OpenEndDirective => IsOpenEndDirective(s, p)
    case OpenComment => IsOpenComment(s, p)
    case EndBrace => IsEndBrace(s, p)
    case Equals => IsEqualsAt(s, p)
    case Text => false
  }

  /** Every marker predicate is `matchSequence` of the marker's text. */
  lemma MarkerAtMatches(s: string, p: nat, kind: TokenType)
    requires MarkerAt(s, p, kind)
    ensures Match(s, p, MarkerText(kind))
  {
    var m := MarkerText(kind);
    forall k | 0 <= k < |m|
      ensures s[p..p + |m|][k] == m[k]
    {
    }
  }

  /** A marker holds no line feed, so moving over it stays on the line. */
  lemma MarkerHasNoNewline(s: string, p: nat, kind: TokenType)
    requires MarkerAt(s, p, kind)
    ensures p + |MarkerText(kind)| <= |s| && NoNewline(s, p, p + |MarkerText(kind)|)
  {
    MarkerAtMatches(s, p, kind);
    var m := MarkerText(kind);
    forall k | p <= k < p + |m|
      ensures s[k] != '\n'
    {
      assert s[k] == m[k - p];
    }
  }

  /** The brace marker at `p`, by precedence (the token `brace` pushes first). */
  function BraceKind(s: string, p: nat): TokenType
  {
    if IsOpenStartDirective(s, p) then OpenStartDirective
    else if IsOpenEndDirective(s, p) then OpenEndDirective
    else if IsOpenComment(s, p) then OpenComment
    else OpenOutput
  }

  /** One differing character is enough for the marker not to match. */
  lemma MismatchAt(s: string, p: nat, m: string, k: nat)
    requires k < |m| && !(p + k < |s| && s[p + k] == m[k])
    ensures !Match(s, p, m)
  {
    if p + |m| <= |s| {
      assert s[p..p + |m|][k] == s[p + k];
    }
  }

  /** `matchSequence(state, sequence)`: compares the marker with the source byte by byte;
      a marker running past the end does not match. */
  method MatchSequence(s: string, p: nat, m: string) returns (r: bool)
    ensures r == Match(s, p, m)
  {
    var idx := 0;
    while idx < |m|
      invariant 0 <= idx <= |m|
      invariant idx == 0 || (p + idx <= |s| && s[p..p + idx] == m[..idx])
    {
      if p + idx >= |s| || m[idx] != s[p + idx] {
        MismatchAt(s, p, m, idx);
        return false;
      }
      assert s[p..p + idx + 1] == s[p..p + idx] + [s[p + idx]];
      assert m[..idx + 1] == m[..idx] + [m[idx]];
      idx := idx + 1;
    }
    assert m[..idx] == m;
    return true;
  }

  // ---------------------------------------------------------------------------
  // Lines and columns.

  /** The line of offset `p`: one plus the line feeds before it. */
  function LineAt(s: string, p: nat): nat
    requires p <= |s|
  {
    if p == 0 then 1 else LineAt(s, p - 1) + (if s[p - 1] == '\n' then 1 else 0)
  }

  /** The column of offset `p`: the characters since the last line feed before it. */
  function ColAt(s: string, p: nat): nat
    requires p <= |s|
  {
    if p == 0 then 0 else if s[p - 1] == '\n' then 0 else ColAt(s, p - 1) + 1
  }

  predicate NoNewline(s: string, a: nat, b: nat)
    requires a <= b <= |s|
  {
    forall k :: a <= k < b ==> s[k] != '\n'
  }

  /** Moving over characters that are not line feeds keeps the line and adds to the column. */
  lemma {:induction false} StepOverLine(s: string, p: nat, n: nat)
    requires p + n <= |s| && NoNewline(s, p, p + n)
    ensures LineAt(s, p + n) == LineAt(s, p) && ColAt(s, p + n) == ColAt(s, p) + n
    decreases n
  {
    if n > 0 {
      StepOverLine(s, p, n - 1);
    }
  }

  // ---------------------------------------------------------------------------
  // What the emitted tokens say about the source.

  predicate AllWhite(s: string, a: nat, b: nat)
    requires a <= b <= |s|
  {
    forall k :: a <= k < b ==> IsWhite(s[k])
  }

  /** The text occurs at `k`, which is `p` after only whitespace (trimmed brace content)
      or right after a quote at `p` (a quoted attribute value). */
  predicate TextFromAt(s: string, p: nat, k: nat, v: string)
  {
    p <= k && k + |v| <= |s| && s[k..k + |v|] == v
    && (AllWhite(s, p, k) || (k == p + 1 && IsQuote(s[p])))
  }

  ghost predicate TextFrom(s: string, p: nat, v: string)
  {
    exists k :: TextFromAt(s, p, k, v)
  }

  /** A token tells the truth about the source: its line and column are those of its
      offset; a TEXT token carries a text taken from the source at that offset; a marker
      token carries no text and its marker starts there. */
  ghost predicate TokenSound(s: string, t: Token)
  {
    t.pos <= |s| && t.line == LineAt(s, t.pos) && t.linePos == ColAt(s, t.pos)
    && if t.kind == Text then t.value.Some? && TextFrom(s, t.pos, t.value.value)
       else t.value == None && MarkerAt(s, t.pos, t.kind)
  }

  /** The tokens that must be followed by a particular token. */
  predicate NeedsFollower(kind: TokenType)
  {
    kind == Equals || kind == OpenStartDirective || kind == OpenEndDirective
  }

  /** A directive name: non-empty and without whitespace. */
  predicate IsName(v: string)
  {
    |v| > 0 && forall k :: 0 <= k < |v| ==> !IsWhite(v[k])
  }

  /** `=` is followed by a quoted value or by `{{`; `{{#` and `{{/` by a directive name. */
  predicate FollowOk(a: Token, b: Token)
  {
    (a.kind == Equals ==> b.kind == Text || b.kind == OpenOutput)
    && (a.kind == OpenStartDirective || a.kind == OpenEndDirective ==>
          b.kind == Text && b.value.Some? && IsName(b.value.value))
  }

  /** Every token is sound, starts no earlier than the one before it, and follows it as
      `FollowOk` allows; stated one token at a time from the end (`TokensOkMeans` gives
      the quantified form). */
  ghost predicate TokensOk(s: string, toks: seq<Token>)
    decreases |toks|
  {
    toks == [] ||
    (TokensOk(s, toks[..|toks| - 1]) && TokenSound(s, toks[|toks| - 1])
     && (|toks| > 1 ==> toks[|toks| - 2].pos <= toks[|toks| - 1].pos && FollowOk(toks[|toks| - 2], toks[|toks| - 1])))
  }

  /** Every token that needs a follower has one. */
  ghost predicate Complete(toks: seq<Token>)
  {
    |toks| > 0 ==> !NeedsFollower(toks[|toks| - 1].kind)
  }

  lemma AppendToken(s: string, toks: seq<Token>, t: Token)
    requires TokensOk(s, toks) && TokenSound(s, t)
    requires |toks| > 0 ==> toks[|toks| - 1].pos <= t.pos && FollowOk(toks[|toks| - 1], t)
    ensures TokensOk(s, toks + [t])
  {
    assert (toks + [t])[..|toks|] == toks;
  }

  /** What `TokensOk` says of the whole sequence: every token is sound, the offsets never
      decrease, and each token follows its predecessor as `FollowOk` allows. */
  lemma {:induction false} TokensOkMeans(s: string, toks: seq<Token>)
    requires TokensOk(s, toks)
    ensures forall i :: 0 <= i < |toks| ==> TokenSound(s, toks[i])
    ensures forall i, j :: 0 <= i < j < |toks| ==> toks[i].pos <= toks[j].pos
    ensures forall i :: 0 < i < |toks| ==> FollowOk(toks[i - 1], toks[i])
  {
    TokensAllSound(s, toks);
    TokensOrdered(s, toks);
    TokensFollow(s, toks);
  }

  lemma {:induction false} TokensAllSound(s: string, toks: seq<Token>)
    requires TokensOk(s, toks)
    ensures forall i :: 0 <= i < |toks| ==> TokenSound(s, toks[i])
    decreases |toks|
  {
    if toks != [] {
      var init := toks[..|toks| - 1];
      TokensAllSound(s, init);
      assert forall i :: 0 <= i < |init| ==> toks[i] == init[i];
    }
  }

  lemma {:induction false} TokensOrdered(s: string, toks: seq<Token>)
    requires TokensOk(s, toks)
    ensures forall i, j :: 0 <= i < j < |toks| ==> toks[i].pos <= toks[j].pos
    decreases |toks|
  {
    if toks != [] {
      var init := toks[..|toks| - 1];
      TokensOrdered(s, init);
      forall i, j | 0 <= i < j < |toks|
        ensures toks[i].pos <= toks[j].pos
      {
        if j == |toks| - 1 && i < j - 1 {
          assert init[i].pos <= init[j - 1].pos;
        }
      }
    }
  }

  lemma {:induction false} TokensFollow(s: string, toks: seq<Token>)
    requires TokensOk(s, toks)
    ensures forall i :: 0 < i < |toks| ==> FollowOk(toks[i - 1], toks[i])
    decreases |toks|
  {
    if toks != [] {
      var init := toks[..|toks| - 1];
      TokensFollow(s, init);
      assert forall i :: 0 <= i < |init| ==> toks[i] == init[i];
    }
  }

  // ---------------------------------------------------------------------------
  // Brace nesting.

  function Delta(c: char): int
  {
    if c == '{' then 1 else if c == '}' then -1 else 0
  }

  /** Opening minus closing braces in `s[a..b]`. */
  function Nesting(s: string, a: nat, b: nat): int
    requires a <= b <= |s|
    decreases b - a
  {
    if b == a then 0 else Nesting(s, a, b - 1) + Delta(s[b - 1])
  }

  /** Braces balance in `s[a..b]`: no prefix closes more than it opened, and the whole
      closes all. */
  ghost predicate Balanced(s: string, a: nat, b: nat)
    requires a <= b <= |s|
  {
    Nesting(s, a, b) == 0 && forall k :: a <= k <= b ==> Nesting(s, a, k) >= 0
  }

  /** The trimmed content of `s[c..e]` is text found after whitespace at `c`. */
  lemma TrimmedTextFrom(s: string, c: nat, e: nat, a: nat, b: nat)
    requires c <= e <= |s| && a <= b <= e - c
    requires forall k :: 0 <= k < a ==> IsWhite(s[c..e][k])
    ensures TextFromAt(s, c, c + a, s[c..e][a..b])
  {
    forall i | 0 <= i < b - a
      ensures s[c..e][a..b][i] == s[c + a..c + b][i]
    {
    }
    forall k | c <= k < c + a
      ensures IsWhite(s[k])
    {
      assert s[k] == s[c..e][k - c];
    }
  }

  // ---------------------------------------------------------------------------
  // `trimBuffer`.

  function TrimStart(s: string): string
    decreases |s|
  {
    if |s| > 0 && IsWhite(s[0]) then TrimStart(s[1..]) else s
  }

  function TrimEnd(s: string): string
    decreases |s|
  {
    if |s| > 0 && IsWhite(s[|s| - 1]) then TrimEnd(s[..|s| - 1]) else s
  }

  /** The text with its leading and trailing whitespace removed. */
  function Trim(s: string): string
  {
    TrimEnd(TrimStart(s))
  }

  /** Dropping leading whitespace stops at the first character that is not whitespace. */
  lemma {:induction false} TrimStartAt(s: string, a: nat)
    requires a <= |s| && (forall k :: 0 <= k < a ==> IsWhite(s[k])) && (a < |s| ==> !IsWhite(s[a]))
    ensures TrimStart(s) == s[a..]
    decreases a
  {
    if a > 0 {
      TrimStartAt(s[1..], a - 1);
      assert s[1..][a - 1..] == s[a..];
    }
  }

  /** Dropping trailing whitespace stops after the last character that is not whitespace. */
  lemma {:induction false} TrimEndAt(s: string, b: nat)
    requires b <= |s| && (forall k :: b <= k < |s| ==> IsWhite(s[k])) && (b > 0 ==> !IsWhite(s[b - 1]))
    ensures TrimEnd(s) == s[..b]
    decreases |s| - b
  {
    if b < |s| {
      TrimEndAt(s[..|s| - 1], b);
      assert s[..|s| - 1][..b] == s[..b];
    }
  }

  /** `trimBuffer(buf)`: drops leading and trailing whitespace. When the buffer is all
      whitespace the start index passes the end index and the slice is empty. */
  method TrimBuffer(buf: string) returns (r: string, ghost a: nat, ghost b: nat)
    ensures r == Trim(buf)
    ensures a <= b <= |buf| && r == buf[a..b]
    ensures forall k :: 0 <= k < a ==> IsWhite(buf[k])
    ensures forall k :: b <= k < |buf| ==> IsWhite(buf[k])
    ensures |r| > 0 ==> !IsWhite(r[0]) && !IsWhite(r[|r| - 1])
  {
    var startIdx := 0;
    while startIdx < |buf| && IsWhite(buf[startIdx])
      invariant 0 <= startIdx <= |buf|
      invariant forall k :: 0 <= k < startIdx ==> IsWhite(buf[k])
    {
      startIdx := startIdx + 1;
    }
    var endIdx := |buf|;
    while endIdx > 0 && IsWhite(buf[endIdx - 1])
      invariant 0 <= endIdx <= |buf|
      invariant forall k :: endIdx <= k < |buf| ==> IsWhite(buf[k])
    {
      endIdx := endIdx - 1;
    }
    TrimStartAt(buf, startIdx);
    if startIdx <= endIdx {
      TrimEndAt(buf[startIdx..], endIdx - startIdx);
      assert buf[startIdx..][..endIdx - startIdx] == buf[startIdx..endIdx];
      r, a, b := buf[startIdx..endIdx], startIdx, endIdx;
    } else {
      assert buf[startIdx..] == [];
      r, a, b := [], |buf|, |buf|;
    }
  }

  /** The TEXT token `brace` pushes for the content `s[c..e]`: the trimmed content,
      recorded where the content starts, and no token when nothing is left. */
  function ContentToken(s: string, c: nat, e: nat): seq<Token>
    requires c <= e <= |s|
  {
    var v := Trim(s[c..e]);
    if v == [] then [] else [Token(Text, Some(v), c, LineAt(s, c), ColAt(s, c))]
  }

  // ---------------------------------------------------------------------------
  // Names: the run after the skipped whitespace.

  /** The first offset from `p` on that holds no whitespace, or the end. */
  function SkipWhite(s: string, p: nat): (r: nat)
    requires p <= |s|
    ensures p <= r <= |s|
    decreases |s| - p
  {
    if p < |s| && IsWhite(s[p]) then SkipWhite(s, p + 1) else p
  }

  /** Where a name starting at `p` ends: at the end, at a marker or at whitespace. */
  function NameEnd(s: string, p: nat): (r: nat)
    requires p <= |s|
    ensures p <= r <= |s|
    decreases |s| - p
  {
    if p < |s| && !IsSpecial(s, p) && !IsWhite(s[p]) then NameEnd(s, p + 1) else p
  }

  /** The markers `tagname` rejects where a name belongs. */
  predicate MisplacedInTag(s: string, p: nat)
  {
    IsOpenStartTag(s, p) || IsCloseStartTag(s, p) || IsOpenStartDirective(s, p) || IsOpenEndDirective(s, p)
    || IsEndTag(s, p) || IsCloseEndTag(s, p) || IsEndBrace(s, p)
  }

  /** The TEXT token of the name found after the whitespace from `p`. */
  function NameToken(s: string, p: nat): Token
    requires p <= |s|
  {
    var q := SkipWhite(s, p);
    Token(Text, Some(s[q..NameEnd(s, q)]), q, LineAt(s, q), ColAt(s, q))
  }

  /** The error `brace` raises for a directive name scanned from `p`: the end of input
      where the name stops, or an empty name; none otherwise. */
  function NameError(s: string, p: nat): Option<LexError>
    requires p <= |s|
  {
    var q := SkipWhite(s, p);
    var e := NameEnd(s, q);
    if e == |s| then Some(UnexpectedEof(LineAt(s, e), ColAt(s, e)))
    else if e == q then Some(Unexpected(LineAt(s, e), ColAt(s, e)))
    else None
  }

  predicate IsDirectiveKind(k: TokenType)
  {
    k == OpenStartDirective || k == OpenEndDirective
  }

  /** The tokens `brace` pushes before the content: the opening marker and, after `{{#`
      or `{{/`, the directive's name. */
  function OpenTokens(s: string, p: nat): seq<Token>
    requires p <= |s|
  {
    var k := BraceKind(s, p);
    [Token(k, None, p, LineAt(s, p), ColAt(s, p))] + (if IsDirectiveKind(k) then [NameToken(s, p + 3)] else [])
  }

  /** Where a brace construct's content starts: after a directive's name, or after the
      comment or output marker. */
  function ContentStart(s: string, p: nat): nat
    requires p <= |s|
  {
    if IsDirectiveKind(BraceKind(s, p)) then NameEnd(s, SkipWhite(s, p + 3))
    else p + |MarkerText(BraceKind(s, p))|
  }

  /** Brace content from `a` reaches a `}}` at which its braces balance. */
  ghost predicate BraceCloses(s: string, a: nat)
  {
    exists e :: a <= e < |s| && IsEndBrace(s, e) && Balanced(s, a, e)
  }

  /** A quoted value from `p` reaches its terminator `t` before any marker. */
  predicate QuotedCloses(s: string, p: nat, t: char)
  {
    exists q :: p <= q < |s| && s[q] == t && forall k :: p <= k < q ==> s[k] != t && !IsSpecial(s, k)
  }

  lemma {:induction false} SkipWhiteAt(s: string, p: nat, q: nat)
    requires p <= q <= |s| && AllWhite(s, p, q) && !IsWhiteAt(s, q)
    ensures SkipWhite(s, p) == q
    decreases q - p
  {
    if p < q {
      SkipWhiteAt(s, p + 1, q);
    }
  }

  lemma {:induction false} NameEndAt(s: string, p: nat, q: nat)
    requires p <= q <= |s| && forall k :: p <= k < q ==> !IsSpecial(s, k) && !IsWhite(s[k])
    requires q == |s| || IsSpecial(s, q) || IsWhiteAt(s, q)
    ensures NameEnd(s, p) == q
    decreases q - p
  {
    if p < q {
      NameEndAt(s, p + 1, q);
    }
  }

  // ---------------------------------------------------------------------------
  // The scanner.

  /** The shapes the state stack takes: MAIN at the bottom, a tag state above it, and a
      brace or string state on top. */
  predicate StackShape(st: seq<LexState>)
  {
    1 <= |st| <= 3 && st[0] == InMain
    && (|st| >= 2 ==> st[1] == InTagName || st[1] == InAttributes || st[1] == InBrace)
    && (|st| == 3 ==> (st[1] != InBrace && st[2] == InBrace) || (st[1] == InAttributes && st[2] == InString))
  }

  class Lexer {
    const src: string
    var pos: nat
    var line: nat
    var linePos: nat
    var tokens: seq<Token>
    var states: seq<LexState>
    var braces: nat

    predicate Position()
      reads this`pos, this`line, this`linePos
    {
      pos <= |src| && line == LineAt(src, pos) && linePos == ColAt(src, pos)
    }

    /** The cursor is where its line and column say, and the tokens so far tell the truth
        about the source and all start at or before the cursor. */
    ghost predicate Core()
      reads this`pos, this`line, this`linePos, this`tokens
    {
      Position() && TokensOk(src, tokens) && (|tokens| > 0 ==> tokens[|tokens| - 1].pos <= pos)
    }

    /** The last token, if any, needs no follower. */
    predicate Settled()
      reads this`tokens
    {
      |tokens| > 0 ==> !NeedsFollower(tokens[|tokens| - 1].kind)
    }

    function Top(): LexState
      reads this`states
      requires |states| > 0
    {
      states[|states| - 1]
    }

    /** The stack has one of its shapes, a brace state is entered only at `{{` and a
        string state only at a quote. */
    predicate StackOk()
      reads this`states, this`pos
    {
      StackShape(states)
      && (Top() == InBrace ==> IsOpenBrace(src, pos))
      && (Top() == InString ==> IsQuoteAt(src, pos))
    }

    /** The last token waits for its follower only in the state that pushes it. */
    predicate Pending()
      reads this`tokens, this`states, this`pos
      requires |states| > 0
    {
      |tokens| > 0 ==>
        (tokens[|tokens| - 1].kind == Equals ==> Top() == InString || (Top() == InBrace && IsOpenOutput(src, pos)))
        && tokens[|tokens| - 1].kind != OpenStartDirective && tokens[|tokens| - 1].kind != OpenEndDirective
    }

    ghost predicate Valid()
      reads this
    {
      Core() && StackOk() && braces == 0 && Pending()
    }

    /** Twice the input left, plus one unless a brace state is about to run. */
    ghost function Measure(): nat
      reads this
      requires Valid()
    {
      2 * (|src| - pos) + (if Top() == InBrace then 0 else 1)
    }

    constructor (source: string)
      ensures src == source && pos == 0 && line == 1 && linePos == 0
      ensures tokens == [] && states == [InMain] && braces == 0
      ensures Valid()
    {
      src := source;
      pos, line, linePos := 0, 1, 0;
      tokens, states, braces := [], [InMain], 0;
    }

    /** `advance(state, amount)`: a line feed at the cursor starts a new line, otherwise the
        column grows by the amount; markers hold no line feed. */
    method Advance(amount: nat)
      requires Core() && amount >= 1 && pos + amount <= |src|
      requires amount == 1 || NoNewline(src, pos, pos + amount)
      modifies this`pos, this`line, this`linePos
      ensures pos == old(pos) + amount && Core()
      ensures line == old(line) + (if src[old(pos)] == '\n' then 1 else 0)
      ensures tokens == old(tokens) && states == old(states) && braces == old(braces)
    {
      if src[pos] == '\n' {
        line := line + 1;
        linePos := amount - 1;
      } else {
        linePos := linePos + amount;
      }
      pos := pos + amount;
      if amount > 1 {
        StepOverLine(src, old(pos), amount);
      }
    }

    /** `pushToken(state, marker.length, kind)`: records a marker token at the cursor and
        moves past the marker. */
    method PushToken(kind: TokenType)
      requires Core() && MarkerAt(src, pos, kind)
      requires |tokens| > 0 ==> FollowOk(tokens[|tokens| - 1], Token(kind, None, pos, line, linePos))
      modifies this`tokens, this`pos, this`line, this`linePos
      ensures tokens == old(tokens) + [Token(kind, None, old(pos), old(line), old(linePos))]
      ensures pos == old(pos) + |MarkerText(kind)| && Core()
      ensures states == old(states) && braces == old(braces)
    {
      var t := Token(kind, None, pos, line, linePos);
      AppendToken(src, tokens, t);
      MarkerHasNoNewline(src, pos, kind);
      tokens := tokens + [t];
      Advance(|MarkerText(kind)|);
    }

    /** `pushToken({...state, pos, line, linePos}, n, TEXT, value)`: records a TEXT token at
        a saved position; the copy's advance is discarded, so the cursor stays. */
    method PushTokenAt(value: string, p: nat, l: nat, c: nat)
      requires Core() && p <= pos && l == LineAt(src, p) && c == ColAt(src, p) && TextFrom(src, p, value)
      requires |tokens| > 0 ==> tokens[|tokens| - 1].pos <= p && FollowOk(tokens[|tokens| - 1], Token(Text, Some(value), p, l, c))
      modifies this`tokens
      ensures tokens == old(tokens) + [Token(Text, Some(value), p, l, c)] && Core()
      ensures pos == old(pos) && line == old(line) && linePos == old(linePos)
      ensures states == old(states) && braces == old(braces)
    {
      var t := Token(Text, Some(value), p, l, c);
      AppendToken(src, tokens, t);
      tokens := tokens + [t];
    }

    /** `consumeWhiteSpace`. */
    method ConsumeWhiteSpace()
      requires Core()
      modifies this`pos, this`line, this`linePos
      ensures Core() && old(pos) <= pos && !IsWhiteAt(src, pos)
      ensures AllWhite(src, old(pos), pos)
      ensures tokens == old(tokens) && states == old(states) && braces == old(braces)
    {
      while IsWhiteAt(src, pos)
        invariant Core() && old(pos) <= pos
        invariant AllWhite(src, old(pos), pos)
        invariant tokens == old(tokens) && states == old(states) && braces == old(braces)
        decreases |src| - pos
      {
        Advance(1);
      }
    }

    /** The text loop shared by the states: moves to the end of input, to a marker or,
        when `stopAtWhite`, to whitespace, or, when `stopAtEquals`, to `=`. */
    method ScanText(stopAtWhite: bool, stopAtEquals: bool)
      requires Core()
      modifies this`pos, this`line, this`linePos
      ensures Core() && old(pos) <= pos
      ensures forall k :: old(pos) <= k < pos ==>
                !IsSpecial(src, k) && !(stopAtWhite && IsWhite(src[k])) && !(stopAtEquals && src[k] == '=')
      ensures pos == |src| || IsSpecial(src, pos) || (stopAtWhite && IsWhiteAt(src, pos))
              || (stopAtEquals && IsEqualsAt(src, pos))
      ensures tokens == old(tokens) && states == old(states) && braces == old(braces)
    {
      while pos < |src| && !IsSpecial(src, pos) && !(stopAtWhite && IsWhiteAt(src, pos))
            && !(stopAtEquals && IsEqualsAt(src, pos))
        invariant Core() && old(pos) <= pos
        invariant forall k :: old(pos) <= k < pos ==>
                    !IsSpecial(src, k) && !(stopAtWhite && IsWhite(src[k])) && !(stopAtEquals && src[k] == '=')
        invariant tokens == old(tokens) && states == old(states) && braces == old(braces)
        decreases |src| - pos
      {
        Advance(1);
      }
    }

    /** The text loop followed by a TEXT token for what it moved over, recorded at the
        position where it started. */
    method PushTextRun(stopAtWhite: bool, stopAtEquals: bool)
      requires Core() && Settled()
      modifies this`tokens, this`pos, this`line, this`linePos
      ensures Core() && old(pos) <= pos
      ensures forall k :: old(pos) <= k < pos ==>
                !IsSpecial(src, k) && !(stopAtWhite && IsWhite(src[k])) && !(stopAtEquals && src[k] == '=')
      ensures pos == |src| || IsSpecial(src, pos) || (stopAtWhite && IsWhiteAt(src, pos))
              || (stopAtEquals && IsEqualsAt(src, pos))
      ensures tokens == old(tokens) + [Token(Text, Some(src[old(pos)..pos]), old(pos), old(line), old(linePos))]
      ensures states == old(states) && braces == old(braces)
    {
      var p0, l0, c0 := pos, line, linePos;
      ScanText(stopAtWhite, stopAtEquals);
      assert TextFromAt(src, p0, p0, src[p0..pos]);
      PushTokenAt(src[p0..pos], p0, l0, c0);
    }

    /** `main(state)`. */
    method ScanMain() returns (err: Option<LexError>)
      requires Valid() && Top() == InMain
      modifies this
      ensures err.None? ==> Valid() && old(tokens) <= tokens
      ensures err.None? && old(pos) < |src| ==> Measure() < old(Measure())
      ensures IsCloseStartTag(src, old(pos)) ==>
                err.None? && tokens == old(tokens) + [Token(CloseStartTag, None, old(pos), old(line), old(linePos))]
                && states == old(states) + [InTagName]
      ensures IsOpenStartTag(src, old(pos)) ==>
                err.None? && tokens == old(tokens) + [Token(OpenStartTag, None, old(pos), old(line), old(linePos))]
                && states == old(states) + [InTagName] && pos == old(pos) + 1
      ensures IsOpenBrace(src, old(pos)) ==>
                err.None? && tokens == old(tokens) && pos == old(pos) && states == old(states) + [InBrace]
      ensures IsEndTag(src, old(pos)) || IsCloseEndTag(src, old(pos)) || IsEndBrace(src, old(pos)) ==>
                err == Some(Unexpected(old(line), old(linePos)))
      ensures old(pos) < |src| && !IsSpecial(src, old(pos)) ==>
                err.None? && old(pos) < pos && states == old(states)
                && (forall k :: old(pos) <= k < pos ==> !IsSpecial(src, k))
                && (pos == |src| || IsSpecial(src, pos))
                && tokens == old(tokens) + [Token(Text, Some(src[old(pos)..pos]), old(pos), old(line), old(linePos))]
    {
      if pos == |src| {
        return None;
      }
      if IsCloseStartTag(src, pos) {
        EnterTagName(CloseStartTag);
      } else if IsOpenStartTag(src, pos) {
        EnterTagName(OpenStartTag);
      } else if IsOpenBrace(src, pos) {
        EnterBrace();
      } else if IsEndTag(src, pos) || IsCloseEndTag(src, pos) || IsEndBrace(src, pos) {
        return Some(Unexpected(line, linePos));
      } else {
        PushTextRun(false, false);
      }
      return None;
    }

    /** `pushState(BRACE)` at `{{`, from MAIN or a tag state. */
    method EnterBrace()
      requires Valid() && IsOpenBrace(src, pos) && |states| <= 2 && Top() != InBrace
      modifies this`states
      ensures Valid() && states == old(states) + [InBrace]
    {
      states := states + [InBrace];
    }

    /** The start of a tag in MAIN: its marker token, then the tag name state. */
    method EnterTagName(kind: TokenType)
      requires Valid() && states == [InMain] && (kind == OpenStartTag || kind == CloseStartTag)
      requires MarkerAt(src, pos, kind)
      modifies this
      ensures Valid() && states == [InMain, InTagName]
      ensures tokens == old(tokens) + [Token(kind, None, old(pos), old(line), old(linePos))]
      ensures pos == old(pos) + |MarkerText(kind)|
    {
      PushToken(kind);
      states := states + [InTagName];
    }

    /** `tagname(state)`: a tag name is a TEXT token or a brace construct; at whitespace,
        `>` or `/>` the state becomes ATTRIBUTES. */
    method ScanTagName() returns (err: Option<LexError>)
      requires Valid() && Top() == InTagName
      modifies this
      ensures err.None? ==> Valid() && old(tokens) < tokens && old(pos) < pos
      ensures err.None? ==>
                if IsWhiteAt(src, pos) || IsEndTag(src, pos) || IsCloseEndTag(src, pos)
                then states == [InMain, InAttributes]
                else states == [InMain, InTagName]
      ensures old(pos) < |src| && (forall k :: old(pos) <= k < |src| ==> IsNameChar(src[k])) ==>
                err.None? && pos == |src| && states == old(states)
      ensures var p := SkipWhite(src, old(pos));
              && (p == |src| ==> err == Some(UnexpectedEof(LineAt(src, p), ColAt(src, p))))
              && (MisplacedInTag(src, p) ==> err == Some(Unexpected(LineAt(src, p), ColAt(src, p))))
              && (p < |src| && !MisplacedInTag(src, p) && !IsOpenBrace(src, p) ==>
                    err.None? && pos == NameEnd(src, p) && tokens == old(tokens) + [NameToken(src, old(pos))])
    {
      ghost var named := pos < |src| && forall k :: pos <= k < |src| ==> IsNameChar(src[k]);
      if named {
        NameCharIsPlain(src, pos);
      }
      ConsumeWhiteSpace();
      SkipWhiteAt(src, old(pos), pos);
      SkipWhiteAt(src, pos, pos);
      if named {
        assert pos == old(pos);
      }
      err := ScanTagNameAt();
    }

    /** The tag name from a cursor past the whitespace: the end of input or a misplaced
        marker is an error; otherwise the name, and the switch to ATTRIBUTES after it. */
    method ScanTagNameAt() returns (err: Option<LexError>)
      requires Valid() && Top() == InTagName && !IsWhiteAt(src, pos)
      modifies this
      ensures err.None? ==> Valid() && old(tokens) < tokens && old(pos) < pos
      ensures err.None? ==>
                if IsWhiteAt(src, pos) || IsEndTag(src, pos) || IsCloseEndTag(src, pos)
                then states == [InMain, InAttributes]
                else states == [InMain, InTagName]
      ensures old(pos) < |src| && (forall k :: old(pos) <= k < |src| ==> IsNameChar(src[k])) ==>
                err.None? && pos == |src| && states == old(states)
      ensures old(pos) == |src| ==> err == Some(UnexpectedEof(old(line), old(linePos)))
      ensures MisplacedInTag(src, old(pos)) ==> err == Some(Unexpected(old(line), old(linePos)))
      ensures old(pos) < |src| && !MisplacedInTag(src, old(pos)) && !IsOpenBrace(src, old(pos)) ==>
                err.None? && pos == NameEnd(src, old(pos)) && tokens == old(tokens) + [NameToken(src, old(pos))]
    {
      if pos == |src| {
        return Some(UnexpectedEof(line, linePos));
      }
      err := ScanTagNamePart();
      if err.Some? {
        return;
      }
      if IsWhiteAt(src, pos) || IsEndTag(src, pos) || IsCloseEndTag(src, pos) {
        EnterAttributes();
      }
      return None;
    }

    /** `popState` then `pushState(ATTRIBUTES)`: the tag name is done. */
    method EnterAttributes()
      requires Valid() && states == [InMain, InTagName]
      modifies this`states
      ensures Valid() && states == [InMain, InAttributes]
    {
      states := states[..|states| - 1] + [InAttributes];
    }

    /** The tag name itself: a tag marker, `}}` or a directive is an error; a brace
        construct at `{{`, otherwise a TEXT token up to whitespace or a marker. */
    method ScanTagNamePart() returns (err: Option<LexError>)
      requires Valid() && states == [InMain, InTagName] && pos < |src| && !IsWhiteAt(src, pos)
      modifies this
      ensures err.None? ==> Valid() && states == [InMain, InTagName] && old(tokens) < tokens && old(pos) < pos
      ensures (forall k :: old(pos) <= k < |src| ==> IsNameChar(src[k])) ==> err.None? && pos == |src|
      ensures MisplacedInTag(src, old(pos)) ==> err == Some(Unexpected(old(line), old(linePos)))
      ensures !MisplacedInTag(src, old(pos)) && IsOpenBrace(src, old(pos)) && err.None? ==>
                tokens[|old(tokens)|] == Token(BraceKind(src, old(pos)), None, old(pos), old(line), old(linePos))
      ensures !MisplacedInTag(src, old(pos)) && !IsOpenBrace(src, old(pos)) ==>
                err.None? && pos == NameEnd(src, old(pos)) && tokens == old(tokens) + [NameToken(src, old(pos))]
    {
      if IsNameChar(src[pos]) {
        NameCharIsPlain(src, pos);
      }
      if IsOpenStartTag(src, pos) || IsCloseStartTag(src, pos) || IsOpenStartDirective(src, pos)
         || IsOpenEndDirective(src, pos) || IsEndTag(src, pos) || IsCloseEndTag(src, pos) || IsEndBrace(src, pos)
      {
        err := Some(Unexpected(line, linePos));
      } else if IsOpenBrace(src, pos) {
        EnterBrace();
        ghost var contentStart;
        err, contentStart := ScanBrace();
      } else {
        ScanTagText();
        err := None;
      }
    }

    /** The TEXT token of a tag name: the run up to whitespace or a marker. */
    method ScanTagText()
      requires Valid() && states == [InMain, InTagName] && pos < |src| && !IsWhiteAt(src, pos)
      requires !MisplacedInTag(src, pos) && !IsOpenBrace(src, pos)
      modifies this`tokens, this`pos, this`line, this`linePos
      ensures Valid() && states == old(states) && old(pos) < pos
      ensures pos == NameEnd(src, old(pos)) && tokens == old(tokens) + [NameToken(src, old(pos))]
      ensures (forall k :: old(pos) <= k < |src| ==> IsNameChar(src[k])) ==> pos == |src|
    {
      NotSpecialHere(src, pos);
      SkipWhiteAt(src, pos, pos);
      PushTextRun(true, false);
      NameEndAt(src, old(pos), pos);
      if pos < |src| && IsNameChar(src[pos]) {
        NameCharIsPlain(src, pos);
      }
    }

    /** `attributes(state)`: `>` or `/>` ends the tag; `{{` opens a brace state;
        otherwise an attribute follows. */
    method ScanAttributes() returns (err: Option<LexError>)
      requires Valid() && states == [InMain, InAttributes]
      modifies this
      ensures err.None? ==> Valid() && old(tokens) <= tokens && Measure() < old(Measure())
    {
      ConsumeWhiteSpace();
      if pos == |src| {
        return Some(UnexpectedEof(line, linePos));
      }
      if IsOpenStartTag(src, pos) || IsCloseStartTag(src, pos) || IsOpenStartDirective(src, pos)
         || IsOpenEndDirective(src, pos) || IsEndBrace(src, pos)
      {
        return Some(Unexpected(line, linePos));
      } else if IsOpenBrace(src, pos) {
        EnterBrace();
      } else if IsEndTag(src, pos) {
        LeaveTag(EndTag);
      } else if IsCloseEndTag(src, pos) {
        LeaveTag(CloseEndTag);
      } else {
        NotSpecialHere(src, pos);
        err := ScanAttribute();
        return;
      }
      return None;
    }

    /** The end of a tag: its marker token, then back to MAIN. */
    method LeaveTag(kind: TokenType)
      requires Valid() && states == [InMain, InAttributes] && (kind == EndTag || kind == CloseEndTag)
      requires MarkerAt(src, pos, kind)
      modifies this
      ensures Valid() && states == [InMain]
      ensures tokens == old(tokens) + [Token(kind, None, old(pos), old(line), old(linePos))]
      ensures pos == old(pos) + |MarkerText(kind)|
    {
      PushToken(kind);
      states := states[..|states| - 1];
    }

    /** An attribute: its name as a TEXT token (empty when `=` comes first), then
        optionally `=`, after which only a quote or `{{` may come. */
    method ScanAttribute() returns (err: Option<LexError>)
      requires Valid() && states == [InMain, InAttributes]
      requires pos < |src| && !IsSpecial(src, pos) && !IsWhiteAt(src, pos)
      modifies this
      ensures err.None? ==> Valid() && old(tokens) < tokens && old(pos) < pos
      ensures err.None? ==> states == [InMain, InAttributes] || states == [InMain, InAttributes, InString]
                            || states == [InMain, InAttributes, InBrace]
    {
      PushTextRun(true, true);
      ConsumeWhiteSpace();
      if IsEqualsAt(src, pos) {
        err := ScanEquals();
      } else {
        err := None;
      }
    }

    /** `=`, then whitespace, then a quote opens a string state and `{{` (an output) a
        brace state; anything else is an error. */
    method ScanEquals() returns (err: Option<LexError>)
      requires Core() && Settled() && braces == 0 && states == [InMain, InAttributes] && IsEqualsAt(src, pos)
      modifies this`tokens, this`pos, this`line, this`linePos, this`states
      ensures err.None? ==> Valid() && old(tokens) < tokens && old(pos) < pos
      ensures err.None? ==> states == [InMain, InAttributes, InString] || states == [InMain, InAttributes, InBrace]
      ensures var p := SkipWhite(src, old(pos) + 1);
              (err.None? <==> IsQuoteAt(src, p) || IsOpenOutput(src, p))
              && (p == |src| ==> err == Some(TypeError))
              && (err.Some? && p < |src| ==> err == Some(Unexpected(LineAt(src, p), ColAt(src, p))))
    {
      PushToken(Equals);
      ConsumeWhiteSpace();
      SkipWhiteAt(src, old(pos) + 1, pos);
      err := EnterValue();
    }

    /** After `=` and its whitespace: a quote enters STRING, `{{` enters BRACE, and
        anything else is unexpected at the cursor; at the end of input the error report
        itself fails (src/lex.js:407-410 reads the missing character). */
    method EnterValue() returns (err: Option<LexError>)
      requires Core() && braces == 0 && states == [InMain, InAttributes]
      requires |tokens| > 0 && tokens[|tokens| - 1].kind == Equals
      modifies this`states
      ensures err.None? <==> IsQuoteAt(src, pos) || IsOpenOutput(src, pos)
      ensures err.None? ==> Valid() && (states == [InMain, InAttributes, InString] || states == [InMain, InAttributes, InBrace])
      ensures pos == |src| ==> err == Some(TypeError)
      ensures err.Some? && pos < |src| ==> err == Some(Unexpected(line, linePos))
    {
      if IsQuoteAt(src, pos) {
        states := states + [InString];
      } else if IsOpenOutput(src, pos) {
        states := states + [InBrace];
      } else if pos == |src| {
        return Some(TypeError);
      } else {
        return Some(Unexpected(line, linePos));
      }
      return None;
    }

    /** `brace(state)`: the opening marker and a directive's name, then the content up to
        the `}}` that closes it. */
    method ScanBrace() returns (err: Option<LexError>, ghost contentStart: nat)
      requires Valid() && Top() == InBrace
      modifies this
      ensures err.None? ==> Valid() && states == old(states)[..|old(states)| - 1]
      ensures err.None? ==> pos >= old(pos) + 4 && old(tokens) < tokens
      ensures err.None? ==> tokens[|old(tokens)|].kind == BraceKind(src, old(pos))
      ensures err.None? ==> old(pos) + 2 <= contentStart <= pos - 2 && IsEndBrace(src, pos - 2)
                            && Balanced(src, contentStart, pos - 2)
      ensures err.None? ==> tokens[|tokens| - 1] == Token(EndBrace, None, pos - 2, LineAt(src, pos - 2), ColAt(src, pos - 2))
      ensures IsDirectiveKind(BraceKind(src, old(pos))) && NameError(src, old(pos) + 3).Some? ==> err == NameError(src, old(pos) + 3)
      ensures err.None? ==> contentStart == ContentStart(src, old(pos))
      ensures err.None? ==> tokens == old(tokens) + OpenTokens(src, old(pos)) + ContentToken(src, contentStart, pos - 2)
                                      + [Token(EndBrace, None, pos - 2, LineAt(src, pos - 2), ColAt(src, pos - 2))]
      ensures ((IsDirectiveKind(BraceKind(src, old(pos))) ==> NameError(src, old(pos) + 3).None?)
               && BraceCloses(src, ContentStart(src, old(pos)))) ==> err.None?
    {
      contentStart := pos;
      err := ScanBraceOpen();
      if err.Some? {
        return;
      }
      err, contentStart := ScanBraceContent();
    }

    /** The opening marker, chosen by precedence (the source's last `else`, unexpected,
        cannot fire: this state starts at `{{`), and a directive's name. */
    method ScanBraceOpen() returns (err: Option<LexError>)
      requires Valid() && Top() == InBrace
      modifies this`tokens, this`pos, this`line, this`linePos
      ensures states == old(states) && braces == 0
      ensures err.None? ==> Core() && Settled() && pos >= old(pos) + 2 && old(tokens) < tokens
      ensures err == if IsDirectiveKind(BraceKind(src, old(pos))) then NameError(src, old(pos) + 3) else None
      ensures err.None? ==> tokens == old(tokens) + OpenTokens(src, old(pos))
      ensures err.None? ==> pos == ContentStart(src, old(pos))
    {
      ghost var kind := BraceKind(src, pos);
      if IsOpenStartDirective(src, pos) {
        assert kind == OpenStartDirective;
        err := OpenDirective(OpenStartDirective);
      } else if IsOpenEndDirective(src, pos) {
        assert kind == OpenEndDirective;
        err := OpenDirective(OpenEndDirective);
      } else {
        assert !IsDirectiveKind(kind);
        OpenPlain();
        err := None;
      }
    }

    /** `{{!` or `{{`: the marker only. */
    method OpenPlain()
      requires Valid() && Top() == InBrace && !IsDirectiveKind(BraceKind(src, pos))
      modifies this`tokens, this`pos, this`line, this`linePos
      ensures Core() && Settled() && states == old(states) && braces == old(braces)
      ensures pos == ContentStart(src, old(pos)) && pos >= old(pos) + 2
      ensures tokens == old(tokens) + OpenTokens(src, old(pos))
    {
      if IsOpenComment(src, pos) {
        PushToken(OpenComment);
      } else {
        PushToken(OpenOutput);
      }
    }

    /** `{{#` or `{{/`, then the directive's name. */
    method OpenDirective(kind: TokenType) returns (err: Option<LexError>)
      requires Valid() && Top() == InBrace && IsDirectiveKind(kind) && kind == BraceKind(src, pos)
      modifies this`tokens, this`pos, this`line, this`linePos
      ensures states == old(states) && braces == 0
      ensures err == NameError(src, old(pos) + 3)
      ensures err.None? ==> Core() && Settled() && pos >= old(pos) + 3
      ensures err.None? ==> pos == ContentStart(src, old(pos))
      ensures err.None? ==> tokens == old(tokens) + OpenTokens(src, old(pos))
    {
      PushToken(kind);
      err := ScanDirectiveName();
    }

    /** A directive's name: whitespace, then a non-empty run up to whitespace or a marker,
        which must not be the end of input. */
    method ScanDirectiveName() returns (err: Option<LexError>)
      requires Core() && |tokens| > 0 && NeedsFollower(tokens[|tokens| - 1].kind) && tokens[|tokens| - 1].kind != Equals
      modifies this`tokens, this`pos, this`line, this`linePos
      ensures states == old(states) && braces == old(braces) && old(pos) <= pos
      ensures err == NameError(src, old(pos))
      ensures err.None? ==> pos == NameEnd(src, SkipWhite(src, old(pos)))
      ensures err.None? ==> Core() && Settled() && tokens == old(tokens) + [NameToken(src, old(pos))]
    {
      ConsumeWhiteSpace();
      SkipWhiteAt(src, old(pos), pos);
      var p0, l0, c0 := pos, line, linePos;
      ScanText(true, false);
      NameEndAt(src, p0, pos);
      if pos == |src| {
        return Some(UnexpectedEof(line, linePos));
      }
      if pos == p0 {
        return Some(Unexpected(line, linePos));
      }
      assert TextFromAt(src, p0, p0, src[p0..pos]);
      assert IsName(src[p0..pos]);
      PushTokenAt(src[p0..pos], p0, l0, c0);
      return None;
    }

    /** The content up to the `}}` that closes it; the trimmed content, when not empty,
        becomes a TEXT token recorded where the content starts; then `}}` and the state
        is left. */
    method ScanBraceContent() returns (err: Option<LexError>, ghost contentStart: nat)
      requires Core() && Settled() && braces == 0 && StackShape(states) && Top() == InBrace
      modifies this
      ensures err.None? ==> Valid() && states == old(states)[..|old(states)| - 1]
      ensures err.None? ==> contentStart == old(pos) && contentStart + 2 <= pos && IsEndBrace(src, pos - 2)
                            && Balanced(src, contentStart, pos - 2)
      ensures err.None? ==> tokens == old(tokens) + ContentToken(src, contentStart, pos - 2)
                                      + [Token(EndBrace, None, pos - 2, LineAt(src, pos - 2), ColAt(src, pos - 2))]
      ensures BraceCloses(src, old(pos)) ==> err.None?
    {
      contentStart := pos;
      var c0, cl, cc := pos, line, linePos;
      err := CountBraces();
      if err.Some? {
        return;
      }
      FinishBrace(c0, cl, cc);
    }

    /** The content's TEXT token, if any, then `}}`. */
    method FinishBrace(c0: nat, cl: nat, cc: nat)
      requires Core() && Settled() && braces == 0 && StackShape(states) && Top() == InBrace && IsEndBrace(src, pos)
      requires c0 <= pos && cl == LineAt(src, c0) && cc == ColAt(src, c0)
      requires |tokens| > 0 ==> tokens[|tokens| - 1].pos <= c0
      modifies this`tokens, this`pos, this`line, this`linePos, this`states
      ensures Valid() && states == old(states)[..|old(states)| - 1] && pos == old(pos) + 2
      ensures tokens == old(tokens) + ContentToken(src, c0, old(pos)) + [Token(EndBrace, None, old(pos), old(line), old(linePos))]
    {
      PushContent(c0, cl, cc);
      assert Core() && Settled() && StackShape(states) && Top() == InBrace && IsEndBrace(src, pos);
      CloseBrace();
    }

    /** `}}`, then the brace state is left. */
    method CloseBrace()
      requires Core() && Settled() && braces == 0 && StackShape(states) && Top() == InBrace && IsEndBrace(src, pos)
      modifies this`tokens, this`pos, this`line, this`linePos, this`states
      ensures Valid() && states == old(states)[..|old(states)| - 1] && pos == old(pos) + 2
      ensures tokens == old(tokens) + [Token(EndBrace, None, old(pos), old(line), old(linePos))]
    {
      PushToken(EndBrace);
      states := states[..|states| - 1];
    }

    /** `trimBuffer` of the content from `c0` to the cursor; when something is left it
        becomes a TEXT token recorded at `c0`. */
    method PushContent(c0: nat, cl: nat, cc: nat)
      requires Core() && Settled() && c0 <= pos && cl == LineAt(src, c0) && cc == ColAt(src, c0)
      requires |tokens| > 0 ==> tokens[|tokens| - 1].pos <= c0
      modifies this`tokens
      ensures Core() && Settled() && tokens == old(tokens) + ContentToken(src, c0, pos)
    {
      var content, a, b := TrimBuffer(src[c0..pos]);
      if |content| > 0 {
        TrimmedTextFrom(src, c0, pos, a, b);
        PushTokenAt(content, c0, cl, cc);
      }
    }

    /** The loop over the content, counting nested braces: a `}` that closes more than
        was opened is an error, and so is the end of input. */
    method CountBraces() returns (err: Option<LexError>)
      requires Core() && braces == 0
      modifies this`braces, this`pos, this`line, this`linePos
      ensures tokens == old(tokens) && states == old(states) && old(pos) <= pos
      ensures err.None? ==> Core() && braces == 0 && IsEndBrace(src, pos) && Balanced(src, old(pos), pos)
      ensures BraceCloses(src, old(pos)) ==> err.None?
    {
      var c0 := pos;
      // when a balanced `}}` exists, the loop never passes the one chosen here
      ghost var closes := BraceCloses(src, c0);
      ghost var e: nat := |src|;
      if closes {
        e :| c0 <= e < |src| && IsEndBrace(src, e) && Balanced(src, c0, e);
      }
      while pos < |src| && (braces > 0 || !IsEndBrace(src, pos))
        invariant Core() && c0 <= pos
        invariant closes ==> pos <= e < |src| && IsEndBrace(src, e) && Balanced(src, c0, e)
        invariant braces == Nesting(src, c0, pos)
        invariant forall k :: c0 <= k <= pos ==> Nesting(src, c0, k) >= 0
        invariant tokens == old(tokens) && states == old(states)
        decreases |src| - pos
      {
        if src[pos] == '{' {
          braces := braces + 1;
        } else if src[pos] == '}' && (braces > 0 || !IsEndBrace(src, pos)) {
          if braces == 0 {
            // a `}` that takes the nesting below zero: no balanced `}}` lies ahead
            assert Nesting(src, c0, pos + 1) == -1;
            return Some(Unexpected(line, linePos));
          }
          braces := braces - 1;
        }
        Advance(1);
      }
      if pos == |src| {
        return Some(UnexpectedEof(line, linePos));
      }
      return None;
    }

    /** `string(state)`: a quoted attribute value; any marker or the end of input before
        the closing quote is an error. */
    method ScanString() returns (err: Option<LexError>)
      requires Valid() && Top() == InString
      modifies this
      ensures err.None? ==> Valid() && states == old(states)[..|old(states)| - 1] && pos >= old(pos) + 2
      ensures err.None? ==> src[pos - 1] == src[old(pos)]
                            && (forall k :: old(pos) < k < pos - 1 ==> src[k] != src[old(pos)] && !IsSpecial(src, k))
                            && tokens == old(tokens) + [Token(Text, Some(src[old(pos) + 1..pos - 1]), old(pos), old(line), old(linePos))]
      ensures QuotedCloses(src, old(pos) + 1, src[old(pos)]) ==> err.None?
    {
      // the source's opening check (not a quote: unexpected) cannot fire: this state
      // starts at a quote
      var p0, l0, c0 := pos, line, linePos;
      var terminator := src[pos];
      Advance(1);
      err := ScanQuoted(terminator);
      if err.Some? {
        return;
      }
      CloseString(p0, l0, c0);
    }

    /** The value between the quote at `p0` and the closing quote at the cursor becomes a
        TEXT token recorded at `p0`; then past the closing quote and out of the string
        state. */
    method CloseString(p0: nat, l0: nat, c0: nat)
      requires Core() && braces == 0 && states == [InMain, InAttributes, InString]
      requires p0 < pos < |src| && IsQuote(src[p0]) && l0 == LineAt(src, p0) && c0 == ColAt(src, p0)
      requires |tokens| > 0 ==> tokens[|tokens| - 1].pos <= p0
                                && tokens[|tokens| - 1].kind != OpenStartDirective && tokens[|tokens| - 1].kind != OpenEndDirective
      modifies this`tokens, this`pos, this`line, this`linePos, this`states
      ensures Valid() && states == [InMain, InAttributes] && pos == old(pos) + 1
      ensures tokens == old(tokens) + [Token(Text, Some(src[p0 + 1..old(pos)]), p0, l0, c0)]
    {
      assert TextFromAt(src, p0, p0 + 1, src[p0 + 1..pos]);
      PushTokenAt(src[p0 + 1..pos], p0, l0, c0);
      Advance(1);
      states := states[..|states| - 1];
    }

    /** The loop inside a quoted value: up to the terminator, which must come before any
        marker and before the end of input. */
    method ScanQuoted(terminator: char) returns (err: Option<LexError>)
      requires Core()
      modifies this`pos, this`line, this`linePos
      ensures err.None? ==> Core() && old(pos) <= pos < |src| && src[pos] == terminator
      ensures err.None? ==> forall k :: old(pos) <= k < pos ==> src[k] != terminator && !IsSpecial(src, k)
      ensures QuotedCloses(src, old(pos), terminator) ==> err.None?
    {
      while pos < |src| && src[pos] != terminator && !IsSpecial(src, pos)
        invariant Core() && old(pos) <= pos
        invariant forall k :: old(pos) <= k < pos ==> src[k] != terminator && !IsSpecial(src, k)
        decreases |src| - pos
      {
        Advance(1);
      }
      if pos == |src| {
        return Some(UnexpectedEof(line, linePos));
      }
      if src[pos] != terminator {
        return Some(Unexpected(line, linePos));
      }
      return None;
    }

    /** `nextToken(state)`: dispatch on the state on top of the stack. */
    method NextToken() returns (err: Option<LexError>)
      requires Valid() && pos < |src|
      modifies this
      ensures err.None? ==> Valid() && old(tokens) <= tokens && Measure() < old(Measure())
      ensures old(Top()) == InMain && !IsSpecial(src, old(pos)) ==>
                err.None? && states == old(states) && (pos == |src| || IsSpecial(src, pos))
                && (forall k :: old(pos) <= k < pos ==> !IsSpecial(src, k))
                && tokens == old(tokens) + [Token(Text, Some(src[old(pos)..pos]), old(pos), old(line), old(linePos))]
      ensures old(Top()) == InMain && (IsEndTag(src, old(pos)) || IsCloseEndTag(src, old(pos)) || IsEndBrace(src, old(pos))) ==>
                err == Some(Unexpected(old(line), old(linePos)))
      ensures old(Top()) == InMain && IsOpenStartTag(src, old(pos)) ==>
                err.None? && states == old(states) + [InTagName] && pos == old(pos) + 1
      ensures old(Top()) == InTagName && (forall k :: old(pos) <= k < |src| ==> IsNameChar(src[k])) ==>
                err.None? && pos == |src| && states == old(states)
    {
      match Top()
      case InMain => err := ScanMain();
      case InTagName => err := ScanTagName();
      case InAttributes => err := ScanAttributes();
      case InBrace => ghost var c; err, c := ScanBrace();
      case InString => err := ScanString();
    }

    /** The loop of `lex`: tokens until the end of input. */
    method Run() returns (err: Option<LexError>)
      requires Valid() && pos == 0 && states == [InMain] && tokens == []
      modifies this
      ensures err.None? ==> Valid() && pos == |src|
      ensures src == [] ==> err.None? && states == [InMain] && tokens == []
      ensures |src| > 0 && NoMarkers(src) ==> err.None? && states == [InMain] && tokens == [Token(Text, Some(src), 0, 1, 0)]
      ensures |src| > 0 && (IsEndTag(src, 0) || IsCloseEndTag(src, 0) || IsEndBrace(src, 0)) ==> err == Some(Unexpected(1, 0))
      ensures |src| >= 2 && src[0] == '<' && (forall k :: 1 <= k < |src| ==> IsNameChar(src[k])) ==>
                err.None? && states == [InMain, InTagName]
    {
      ghost var plain := |src| > 0 && NoMarkers(src);
      ghost var bad := |src| > 0 && (IsEndTag(src, 0) || IsCloseEndTag(src, 0) || IsEndBrace(src, 0));
      ghost var openTag := |src| >= 2 && src[0] == '<' && (forall k :: 1 <= k < |src| ==> IsNameChar(src[k]));
      while pos < |src|
        invariant Valid()
        invariant src == [] ==> states == [InMain] && tokens == []
        invariant plain ==> states == [InMain] && ((pos == 0 && tokens == [])
                              || (pos == |src| && tokens == [Token(Text, Some(src), 0, 1, 0)]))
        invariant bad ==> pos == 0 && states == [InMain]
        invariant openTag ==> (pos == 0 && states == [InMain]) || (pos == 1 && states == [InMain, InTagName])
                              || (pos == |src| && states == [InMain, InTagName])
        decreases Measure()
      {
        err := NextToken();
        if err.Some? {
          return;
        }
        if plain {
          assert src[0..|src|] == src;
        }
      }
      return None;
    }
  }

  /** Letters, digits and `-`: none is whitespace or starts a marker. */
  predicate IsNameChar(c: char)
  {
    'a' <= c <= 'z' || 'A' <= c <= 'Z' || '0' <= c <= '9' || c == '-'
  }

  /** Where no tag marker, no `}}` and no `{{` starts, no marker starts. */
  lemma NotSpecialHere(s: string, p: nat)
    requires !IsOpenStartTag(s, p) && !IsCloseStartTag(s, p) && !IsEndTag(s, p) && !IsCloseEndTag(s, p)
    requires !IsEndBrace(s, p) && !IsOpenBrace(s, p)
    ensures !IsSpecial(s, p)
  {
  }

  /** A name character is not whitespace and starts no marker. */
  lemma NameCharIsPlain(s: string, p: nat)
    requires p < |s| && IsNameChar(s[p])
    ensures !IsWhiteAt(s, p) && !IsSpecial(s, p) && !IsOpenBrace(s, p)
  {
  }

  /** No marker anywhere in the source. */
  predicate NoMarkers(s: string)
  {
    forall p :: 0 <= p < |s| ==> !IsSpecial(s, p)
  }

  lemma {:induction false} NoNewlinePosition(s: string, p: nat)
    requires p <= |s| && NoNewline(s, 0, |s|)
    ensures LineAt(s, p) == 1 && ColAt(s, p) == p
  {
    StepOverLine(s, 0, p);
  }

  /** `lex(src)`: scans until the end of input, then fails unless the state stack is back
      to MAIN alone. */
  method Lex(src: string) returns (r: Result<seq<Token>, LexError>)
    ensures r.Ok? ==> TokensOk(src, r.value) && Complete(r.value)
    ensures src == [] ==> r == Ok([])
    ensures |src| > 0 && NoMarkers(src) ==> r == Ok([Token(Text, Some(src), 0, 1, 0)])
    ensures |src| > 0 && (IsEndTag(src, 0) || IsCloseEndTag(src, 0) || IsEndBrace(src, 0)) ==>
              r == Err(Unexpected(1, 0))
    ensures |src| >= 2 && src[0] == '<' && (forall k :: 1 <= k < |src| ==> IsNameChar(src[k])) ==>
              r == Err(UnexpectedEof(1, |src|))
  {
    var lx := new Lexer(src);
    var err := lx.Run();
    if err.Some? {
      return Err(err.value);
    }
    if |src| >= 2 && src[0] == '<' && (forall k :: 1 <= k < |src| ==> IsNameChar(src[k])) {
      NoNewlinePosition(src, |src|);
    }
    if |lx.states| != 1 {
      return Err(UnexpectedEof(lx.line, lx.linePos));
    }
    return Ok(lx.tokens);
  }
}

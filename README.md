# A verified model of the aurelius template compiler

aurelius compiles an HTML-like template language into JavaScript source. A template holds:

- elements (`<div a="x" b={{ expr }} *={{ rest }}>…</div>`, where `*=` spreads an object of attributes);
- outputs (`{{ expr }}`);
- directives (`{{#if cond}}…{{/if}}`, `{{#for x of xs}}…{{/for}}`);
- comments (`{{! … }}`).

The compiler runs in three stages, and this project models each one the way the JavaScript does it.

1. **Lexer** (`lexer.dfy`, module `Lexer`). This is `src/lex.js`: a class whose methods update a cursor, a line and a column, a stack of scanning states (MAIN, TAGNAME, ATTRIBUTES, BRACE, STRING), a brace counter and the token list in place. The proofs show that:
   - every token tells the truth about the source: its line and column, the text it carries, and the marker that starts at its offset;
   - the offsets never decrease;
   - a `=` is followed by a quote or `{{`, and a directive marker by a non-empty name;
   - braces inside `{{…}}` balance;
   - brace content becomes one TEXT token holding exactly the trimmed content, at the content's start, and only when that is non-empty; quoted values are the characters between the quotes;
   - a tag name or directive name token is exactly the characters after the skipped whitespace;
   - the unexpected-character and unexpected-end errors of the MAIN, tag-name, `=`, brace and string states are raised where the source raises them, and those states accept what the source accepts: a quote or `{{` after `=`, a quoted value whose closing quote comes before any marker, and brace content followed by a `}}` at which its braces balance; the attribute state's errors and whole-run errors are pinned only for the cases the "## Left out" lines name.
2. **Parser** (`parser.dfy`, module `Parser`). This is `src/parse.js`: a class with a token cursor and recursive-descent methods. A grammar of ghost predicates (`Derives`, `ElementAt`, `DirectiveAt`, …) states which node the parser must build from which span of tokens. Every parse method is proved to build exactly such a node, so `Parse` returns a forest that:
   - covers the whole token list;
   - is well formed in the shape the compiler expects.
3. **Emitter** (`emit.dfy`, `emit_facts.dfy`, `compiler.dfy`). This is `src/compile.js` and the `if`/`for` directive writers.
   - Module `Emit` states, as functions, the text emitted for each node, for an attribute table and for a whole compile.
   - Module `EmitFacts` proves what those texts promise: distinct synthetic names, the attribute table's insertion order and last write wins, the spread detection, the grouping of literal attributes, the element and directive layouts, and the error cases.
   - Module `Compiler` is the imperative emitter: a shared id counter, a state record whose cursor and depth are updated in place, copies of it for bodies, and loops pushing parts. Each method is proved to produce exactly what `Emit` specifies.
4. **Writers and escaping** (`html_writer.dfy`, `incremental_dom_writer.dfy`, `escape.dfy`, `js_values.dfy`). These are pure functions for:
   - the two writers' code fragments;
   - the generated `__writeattr__` rule, over a small model of JavaScript values;
   - the character escaper.

   The escaper is proved to:
   - distribute over concatenation;
   - add exactly one character per special character;
   - be the identity exactly on texts without special characters;
   - be injective, with a decoder that reads every escaped text back.

Source text is a `seq<char>`, one character per byte. `strings.dfy` supplies `Array.prototype.join`, `String.prototype.repeat`, number printing and ASCII `toLowerCase`. `syntax.dfy` holds the token and node types of `src/TokenType.js` and `src/NodeType.js`.

### Behaviour modelled as written

The model follows the code where it differs from what its authors evidently meant.

- **Closing-tag check.** It compares the tag node's `children` with the closing name and reads a `value` field that no node has (src/parse.js:98). So `</?>` is never a wildcard, and an element whose tag is an output can never have a body.
- **Key argument.** The key passed to `writeElementOpenStart` is always `null`. The inner `const key` at src/compile.js:186 shadows the one at line 170.
- **User directives.** The user's directive table is stored under the name `directives` (src/compile.js:51-54). Only `if` and `for` resolve, and a directive named `directives` fails, because its value has no callable `write`.
- **Element body depth.** Element bodies are written at the element's own depth (src/compile.js:230-241). Directive bodies are one level deeper.
- **COMMENT nodes.** They reach the `default` throw of `nextPart`.
- **`HtmlWriter.writeElementOpenEnd` arity.** It is declared with `(selfClosing, ws)` but called with `(tag, isOutput, selfClosing, ws)`. So the tag decides between `/>` and `>`, and `isOutput` is used as the indentation (printed `true`/`false`).
- **`HtmlWriter.writeElementClose`.** It quotes even a computed tag literally.
- **Literal runs in `writeDynamicAttributes`.** A run flushed before a spread is written `" {…}"`. The final run is written `"  {…}"`.
- **The spread test `key.indexOf('__*') === 0`.** It also treats a user attribute whose name starts with `__*` as a spread.
- **Unused `offset` argument.** `isOpenEndDirective`, `isOpenComment` and `isEndBrace` ignore it. `isOpenOutput` passes it to `matchSequence` but tests the character after `{{` at `code(state, OPEN_OUTPUT.length)`, without the offset (src/lex.js:504-508). Every call passes 0, so the model drops the argument.

## Model

| member | source | states |
|---|---|---|
| Lexer.MatchSequence | src/lex.js:427-440 | returns true exactly when the marker's characters all occur at the position; a marker running past the end of input does not match |
| Lexer.MarkerAtMatches | src/lex.js:479-531 | every marker predicate, precedence included (`</` before `<`, `{{#`/`{{/`/`{{!` before `{{`), implies that the marker's text occurs there |
| Lexer.MarkerHasNoNewline | src/lex.js:17-25 | no marker contains a line feed, so stepping over a marker stays on the line |
| Lexer.StepOverLine | src/lex.js:450-463 | moving over characters without a line feed keeps the line and adds the distance to the column |
| Lexer.TokensOkMeans | src/lex.js:394-405 | the token invariant means every token is sound (line/column of its offset, its text from the source, its marker at the offset), offsets never decrease, and each token follows its predecessor as the grammar of followers allows |
| Lexer.TrimmedTextFrom | src/lex.js:340-344 | trimmed brace content is text of the source found after only whitespace from the content's start |
| Lexer.TrimBuffer | src/lex.js:568-584 | the two index loops compute `Trim`, the buffer with its leading and trailing whitespace dropped one character at a time; the result is a slice with only whitespace cut from either end and none left at its ends; an all-white buffer trims to empty |
| Lexer.Lexer.constructor | src/lex.js:36-49 | the lexer starts at offset 0, line 1, column 0, with no tokens, the stack `[MAIN]` and no open braces |
| Lexer.Lexer.Advance | src/lex.js:450-463 | the cursor moves by the amount; a line feed at the cursor adds a line; the tokens, stack and brace count are kept |
| Lexer.Lexer.PushToken | src/lex.js:394-405 | appends a marker token at the cursor's offset, line and column and moves past the marker |
| Lexer.Lexer.PushTokenAt | src/lex.js:114-126 | appends a TEXT token at a saved offset, line and column; the cursor stays, as the copy's advance is discarded |
| Lexer.Lexer.ConsumeWhiteSpace | src/lex.js:442-448 | skips exactly the whitespace at the cursor and stops at a non-white character or the end |
| Lexer.Lexer.ScanText | src/lex.js:120-123 | moves over characters that start no marker (and no whitespace or `=` when asked) and stops at the end, at a marker or at the stop character |
| Lexer.Lexer.PushTextRun | src/lex.js:114-126 | the text loop, then one TEXT token holding exactly the characters moved over, recorded where the run began |
| Lexer.Lexer.ScanMain | src/lex.js:83-130 | `</` and `<` push their token and enter TAGNAME; `{{` enters BRACE without a token; `>`, `/>` or `}}` is an unexpected-token error at the cursor; other text becomes one TEXT token up to the next marker |
| Lexer.Lexer.EnterBrace | src/lex.js:100-103 | pushes the BRACE state at `{{` |
| Lexer.Lexer.EnterTagName | src/lex.js:90-99 | pushes the tag marker token and the TAGNAME state |
| Lexer.Lexer.ScanTagName | src/lex.js:132-181 | after the skipped whitespace: the end of input is an unexpected-end error there; `<`, `</`, `{{#`, `{{/`, `>`, `/>` or `}}` is an unexpected-token error there; otherwise a plain name becomes exactly one TEXT token of the characters up to whitespace or a marker, recorded where it starts; after the name, whitespace, `>` or `/>` switches the state to ATTRIBUTES; a name running to the end of input stays in TAGNAME |
| Lexer.Lexer.ScanTagNameAt | src/lex.js:136-178 | at a cursor past the whitespace: the end of input is an unexpected-end error and a misplaced marker an unexpected-token error, both at the cursor; otherwise a plain name becomes exactly its TEXT token, and whitespace, `>` or `/>` after it switches to ATTRIBUTES |
| Lexer.Lexer.EnterAttributes | src/lex.js:174-178 | replaces TAGNAME by ATTRIBUTES |
| Lexer.Lexer.ScanTagNamePart | src/lex.js:141-172 | a misplaced marker is an unexpected-token error at the cursor; `{{` starts a brace construct whose first token is its marker; otherwise the one TEXT token is `src[start..end]`, ending at whitespace, a marker or the end of input |
| Lexer.Lexer.ScanAttributes | src/lex.js:183-253 | each step keeps the invariant, adds tokens and makes progress |
| Lexer.Lexer.LeaveTag | src/lex.js:204-213 | `>` or `/>` is pushed and the state returns to MAIN |
| Lexer.Lexer.ScanAttribute | src/lex.js:214-250 | an attribute name token is pushed and the cursor moves forward |
| Lexer.Lexer.ScanEquals | src/lex.js:231-249 | succeeds exactly when a quote (entering STRING) or `{{` (entering BRACE) follows `=` and its whitespace; the end of input there is a TypeError, because the error report reads the missing character; any other character is an unexpected-token error at its position |
| Lexer.Lexer.EnterValue | src/lex.js:237-248 | after `=` and its whitespace, succeeds exactly at a quote (pushing STRING) or an output `{{` (pushing BRACE); at the end of input it is a TypeError (src/lex.js:407-410 formats `code(state)`, which is `undefined` there); any other character is an unexpected-token error at the cursor |
| Lexer.Lexer.ScanBrace | src/lex.js:255-351 | the tokens added are exactly the marker chosen by precedence, a directive's name, the trimmed content as one TEXT token when it is not empty, and `}}` at its own position; the content starts after the marker or the name and its braces balance; a directive name's errors propagate; the BRACE state is left; and when the name is well formed and a balanced `}}` follows the content start, it succeeds |
| Lexer.Lexer.ScanBraceOpen | src/lex.js:257-308 | the opening token is the highest-precedence brace marker at the cursor; after `{{#` or `{{/` comes the name token, or that name's error; `{{!` and `{{` add the marker only |
| Lexer.Lexer.ScanDirectiveName | src/lex.js:282-308 | after the skipped whitespace the name runs to whitespace, a marker or the end; reaching the end of input is an unexpected-end error there, an empty name an unexpected-token error there; otherwise exactly one TEXT token of the name, recorded where it starts, and the cursor stops after it |
| Lexer.Lexer.ScanBraceContent | src/lex.js:310-350 | the content up to the closing `}}` is balanced; the tokens added are the trimmed content as one TEXT token at the content's start when it is not empty, then `}}`; the state is left; when a balanced `}}` lies ahead it succeeds |
| Lexer.Lexer.CloseBrace | src/lex.js:346-348 | pushes `}}` and pops BRACE |
| Lexer.Lexer.PushContent | src/lex.js:340-344 | adds exactly one TEXT token holding the trimmed content, at the content's offset, line and column, when the trimmed content is not empty, and nothing otherwise |
| Lexer.Lexer.CountBraces | src/lex.js:316-338 | stops at a `}}` with the counter back at 0, and the braces of the scanned content balance; a `}` closing more than was opened is an error, and so is the end of input; when a `}}` at which the braces balance lies ahead, it succeeds |
| Lexer.Lexer.ScanString | src/lex.js:353-392 | succeeds when the matching quote comes before any marker, and on success the value between the quotes, with no marker inside, becomes a TEXT token positioned at the opening quote, and STRING is left |
| Lexer.Lexer.CloseString | src/lex.js:386-389 | the quoted value without its quotes becomes a TEXT token at the opening quote; the closing quote is passed |
| Lexer.Lexer.ScanQuoted | src/lex.js:369-384 | succeeds exactly when the terminator comes before any marker and before the end, stopping at it; reaching a marker or the end first is an error |
| Lexer.Lexer.NextToken | src/lex.js:64-81 | each step keeps the invariant and decreases the measure; in MAIN, plain text becomes one TEXT token, a stray `>`/`/>`/`}}` is an error and `<` enters TAGNAME |
| Lexer.Lexer.Run | src/lex.js:51-54 | the loop reaches the end of input; marker-free input yields one TEXT token at offset 0, line 1, column 0 |
| Lexer.Lex | src/lex.js:28-62 | a successful result satisfies the token invariant and leaves no token waiting for its follower; empty input gives no tokens; marker-free input gives one TEXT token holding it all at line 1, column 0; a leading `>`, `/>` or `}}` is an unexpected-token error at 1:0; an unclosed `<name` is an unexpected-end error |
| Parser.Parser.constructor | src/parse.js:6-9 | the cursor starts at the first token |
| Parser.Parser.ParseValue | src/parse.js:216-221 | succeeds exactly when a token with text is there, and wraps that text unchanged in a VALUE node; otherwise a TypeError |
| Parser.Parser.Expect | src/parse.js:121-127 | succeeds exactly when the current token has the expected kind and then pops it; otherwise a TypeError at the end of tokens or an unexpected-token error naming the token |
| Parser.Parser.ParseOutput | src/parse.js:116-130 | succeeds exactly when a text token and `}}` follow, building an OUTPUT node with one VALUE; a different closing token is an unexpected-token error |
| Parser.Parser.ParseComment | src/parse.js:179-193 | succeeds exactly when a text token and `}}` follow, building a COMMENT node with one VALUE; a different closing token is an unexpected-token error |
| Parser.Parser.ParseText | src/parse.js:195-200 | a TEXT node wraps its own token as a single VALUE carrying the token's text |
| Parser.Parser.ParseValueOrOutput | src/parse.js:202-214 | succeeds exactly on a TEXT token with text or a whole `{{ text }}`, consuming one or three tokens, and yields the VALUE or OUTPUT derived from them; the end of the list is a TypeError and any other kind an unexpected-token error |
| Parser.Parser.ParseAttribute | src/parse.js:223-237 | succeeds exactly when a name with text is followed by some token, and, when that token is `=`, by a whole value or output; it builds the ATTRIBUTE the grammar derives and stops after it; a name that is the last token is a TypeError |
| Parser.Parser.ParseAttributes | src/parse.js:46-58 | the attributes in source order cover the tokens up to a `>` or `/>`; whole attributes running to the end of the tokens are an unexpected-end error, and whole attributes followed by a bare name as the last token a TypeError |
| Parser.Parser.NextNode | src/parse.js:20-37 | the node built is the one the grammar derives from exactly the tokens consumed; a leading token that starts no node is an unexpected-token error; a TEXT token with text and a whole `{{ text }}` or `{{! text }}` always parse, over one and three tokens |
| Parser.Parser.ParseBody | src/parse.js:83-91 | body nodes in order cover the tokens up to the closing marker; when whole TEXT, output and comment nodes run to the end of the tokens, the result is an unexpected-end error |
| Parser.Parser.ParseElement | src/parse.js:39-114 | a successful element is derived by the grammar from exactly the tokens consumed |
| Parser.Parser.ParseElementTail | src/parse.js:60-113 | `/>` gives no body; otherwise the body, `</`, a closing name equal to the tag's text, and `>` |
| Parser.Parser.ParseDirective | src/parse.js:132-145 | a successful directive is derived by the grammar from exactly the tokens consumed |
| Parser.Parser.ParseDirectiveTail | src/parse.js:146-177 | the body is followed by `{{/`, a closing name identical (case-sensitively) to the opening one, and `}}` |
| Parser.Parse | src/parse.js:4-18 | a successful result covers the whole token list with nodes derived in order and all well formed; no tokens give no nodes; a leading token that starts no node is an error; a single TEXT token gives a single TEXT node |
| Parser.DerivesWellFormed | src/parse.js:39-114 | every derived node has the shape the compiler expects: an ELEMENT's first child is a VALUE or OUTPUT tag and its second the ATTRIBUTES node; an ATTRIBUTE has one or two children; a DIRECTIVE has a name and a header |
| Parser.ElementWellFormed | src/parse.js:39-114 | a derived element is well formed |
| Parser.HeadWellFormed | src/parse.js:44-65 | the tag is a VALUE or OUTPUT and the second child is an ATTRIBUTES node |
| Parser.TailWellFormed | src/parse.js:62-111 | the body nodes of a derived element are well formed |
| Parser.BodyWellFormed | src/parse.js:83-91 | every node of a derived body is well formed |
| Parser.AttrsAttributes | src/parse.js:46-53 | every derived attribute is an ATTRIBUTE node |
| Parser.ClosedElementNamesTag | src/parse.js:96-101 | an element with a body was closed by `</name>` whose text equals its static tag, so an element with an output tag never has a body |
| Parser.SelfClosingHasNoBody | src/parse.js:67-71 | an element closed by `/>` has exactly its tag and its ATTRIBUTES node |
| Parser.DerivesStarts | src/parse.js:20-37 | every derived node starts at a token kind `nextNode` dispatches on, and that token is the node's token |
| Parser.TextTokenDerivesText | src/parse.js:195-200 | a TEXT token derives only the TEXT node wrapping it |
| Parser.SingleNode | src/parse.js:12-15 | one token derives at most one node |
| Parser.EmptySpanNoNodes | src/parse.js:12-15 | no tokens derive no nodes |
| Escaping.EscapeEach | src/writers/HtmlWriter.js:15 | the mapped list escapes each element in place |
| Escaping.EscapeAppend | src/helpers/escapeString.js:3-32 | escaping distributes over concatenation |
| Escaping.EscapeLength | src/helpers/escapeString.js:5-30 | the escaped length is the input length plus the number of special characters |
| Escaping.CountSpecialZero | src/helpers/escapeString.js:5-30 | no special character is counted exactly when the text has none |
| Escaping.EscapeIdentity | src/helpers/escapeString.js:29-30 | escaping leaves a text unchanged if and only if it holds none of the eleven special characters |
| Escaping.EscapeIdentityPlain | src/helpers/escapeString.js:29-30 | a text without special characters escapes to itself |
| Escaping.EscapeHasNoControl | src/helpers/escapeString.js:7-28 | the escaped text holds no raw line feed, carriage return, tab, NUL, `\v`, `\b` or `\f` |
| Escaping.UnescapeEscape | src/helpers/escapeString.js:5-32 | the escaped text reads back as the original and is safe inside a quoted literal: it is made of backslash pairs and characters that are not special |
| Escaping.EscapeInjective | src/helpers/escapeString.js:15-16 | distinct texts have distinct escapes |
| JsValues.TruthyKeysAppend | src/writers/HtmlWriter.js:17 | filtering the truthy keys keeps their order: it distributes over concatenation |
| JsValues.TruthyKeysMember | src/writers/HtmlWriter.js:17 | a key is listed exactly when some entry with that key has a truthy value |
| JsValues.EscapeAllStrings | src/writers/HtmlWriter.js:15 | escaping an array of strings never throws and escapes each string |
| HtmlWriter.StaticTextIsLiteral | src/writers/HtmlWriter.js:26-31 | static text is pushed as one single-quoted literal that reads back as the text and is safe to quote |
| HtmlWriter.DynamicTextCopiesExpression | src/writers/HtmlWriter.js:26-31 | an output expression is pushed unquoted and copied verbatim exactly when it holds no special character (it is escaped too) |
| HtmlWriter.OpenEndSelfCloses | src/writers/HtmlWriter.js:53-57 | the open end pushes `/>` if and only if its first parameter is true, and `>` otherwise |
| HtmlWriter.CloseIgnoresDynamicFlag | src/writers/HtmlWriter.js:59-62 | the close call is `'</tag>'` whether or not the tag is computed |
| HtmlWriter.OpenStartWithoutKey | src/writers/HtmlWriter.js:38-51 | without a key, a static tag is pushed as `'<tag'` and a computed one as `` `<${tag}` `` |
| HtmlWriter.FlagAttributePushesName | src/writers/HtmlWriter.js:64-72 | a bare flag pushes ` name` |
| HtmlWriter.DynamicAttributeCallsRule | src/writers/HtmlWriter.js:74-85 | a dynamic value calls `__writeattr__` with the escaped quoted name and the expression itself |
| HtmlWriter.StaticAttributeCallsRule | src/writers/HtmlWriter.js:87-88 | a static value calls `__writeattr__` with the escaped name in single quotes and the escaped value in double quotes |
| HtmlWriter.ClassObjectListsTruthyKeys | src/writers/HtmlWriter.js:17 | `class` given an object lists the escaped keys with truthy values, in key order, joined by spaces |
| HtmlWriter.ClassArrayJoinsEntries | src/writers/HtmlWriter.js:14-15 | `class` given an array of strings lists the escaped entries joined by spaces |
| HtmlWriter.AttrRuleScalars | src/writers/HtmlWriter.js:10-21 | `true` pushes the bare name, `null`/`undefined` push nothing, and a string pushes `name="escaped"` |
| HtmlWriter.ClassObjectPlainKeys | src/writers/HtmlWriter.js:17 | when no key needs escaping, the class text is the truthy keys themselves |
| IncrementalDomWriter.OpenAndCloseAgree | src/writers/IncrementalDomWriter.js:41-69 | the open, self-closing and close calls name the same tag argument, and a static tag is a quoted literal reading back as the tag |
| IncrementalDomWriter.TextNodeArgument | src/writers/IncrementalDomWriter.js:34-39 | static text is passed as a safe quoted literal reading back as the text; an expression is passed raw |
| IncrementalDomWriter.AttributeArguments | src/writers/IncrementalDomWriter.js:71-77 | a static name and a static value are each passed as a quoted literal that reads back as the original |
| IncrementalDomWriter.FlagAttributeArgument | src/writers/IncrementalDomWriter.js:71-77 | a bare flag passes `''` as its value, since escaping `true` yields the empty text |
| IncrementalDomWriter.ClassObjectListsTruthyKeys | src/writers/IncrementalDomWriter.js:20 | `class` given an object passes exactly the keys with truthy values, joined by spaces |
| IncrementalDomWriter.AttrRulePassesScalars | src/writers/IncrementalDomWriter.js:22-24 | any value other than a `class` object or array reaches `attr` unchanged |
| Strings.NatToStringInjective | src/compile.js:183-192 | different ids print differently |
| Strings.LowerIsIf | src/compile.js:250-257 | a directive name selects `if` exactly when it is `if` in any mix of upper and lower case |
| Strings.LowerIsFor | src/compile.js:250-257 | a directive name selects `for` exactly when it is `for` in any mix of upper and lower case |
| EmitFacts.IndentNests | src/compile.js:380-400 | one level deeper indents by two more spaces; a level's indentation is a prefix of another's exactly when that level is at least as deep |
| Emit.StaticAttrLines | src/compile.js:211-219 | a static attribute set gives one attribute call per table entry |
| EmitFacts.PrefixesDiffer | src/compile.js:183-192 | names drawn with different prefixes (`__atts_`, `__key_`, `__tag_`, `__buildatts_`) never coincide |
| EmitFacts.SyntheticNamesDistinct | src/compile.js:352 | two synthetic names are equal only with the same prefix and the same id |
| EmitFacts.HeadIds | src/compile.js:183-192 | an element's head draws three ids for a dynamic attribute set and one more for a computed tag |
| EmitFacts.EmitNodeIds | src/compile.js:46-50 | the names a node draws carry exactly the ids after the counter up to the counter it leaves, one each and in order, so the counter never moves back |
| EmitFacts.EmitSeqIds | src/compile.js:46-50 | the names a list of nodes draws carry exactly the ids after the counter up to the counter it leaves, one each and in order |
| EmitFacts.DrawnNamesDistinct | src/compile.js:183-192 | every `__atts_`, `__key_`, `__tag_` and `__buildatts_` name drawn while emitting a list of nodes differs from every other one drawn |
| EmitFacts.PutExistingKeys | src/compile.js:303-306 | assigning an existing key keeps the key order |
| EmitFacts.PutNewAppends | src/compile.js:303-306 | assigning a new key appends it last |
| EmitFacts.PutKeepsOthers | src/compile.js:303-306 | assigning one key leaves every other slot unchanged |
| EmitFacts.PutStores | src/compile.js:303-306 | after the assignment the key holds the new entry |
| EmitFacts.PutUnique | src/compile.js:303-306 | assignment keeps the keys distinct |
| EmitFacts.PutKeys | src/compile.js:303-306 | the keys after an assignment are the old keys plus the assigned one |
| EmitFacts.AttributeTableUnique | src/compile.js:273-311 | the attribute table never holds a key twice |
| EmitFacts.AttributeTableKeys | src/compile.js:273-311 | a key is in the table exactly when some attribute, after spread renaming, has that name |
| EmitFacts.LastWriteWins | src/compile.js:297-306 | the last attribute's entry is stored under its (renamed) key, overriding earlier ones |
| EmitFacts.SpreadNamesDistinct | src/compile.js:297-301 | spreads get distinct names `__*0__`, `__*1__`, … |
| EmitFacts.SpreadsExist | src/compile.js:297-301 | a positive spread count means a `*` attribute exists |
| EmitFacts.FirstSpreadKey | src/compile.js:297-301 | `__*0__` is a key exactly when some attribute is `*` or literally named `__*0__` |
| EmitFacts.DynamicIffSpread | src/compile.js:169 | the attribute set is treated as dynamic if and only if it holds a `*` attribute or one literally named `__*0__` |
| EmitFacts.ScanAppend | src/compile.js:320-345 | scanning after a flushed prefix appends the scan of the rest |
| EmitFacts.ScanLiterals | src/compile.js:339-344 | literal entries only are collected as pending texts, in entry order |
| EmitFacts.ScanThroughSpread | src/compile.js:325-337 | a spread flushes the pending literals as one object and then appends itself raw |
| EmitFacts.DynamicPartsAppend | src/compile.js:315-350 | the arguments after a flushed prefix are that prefix's arguments followed by the rest's |
| EmitFacts.DynamicPartsSplit | src/compile.js:325-337 | a run of literals before a spread becomes one ` {…}` group (none if empty), then the spread's value raw, then the rest |
| EmitFacts.DynamicPartsLiteralsOnly | src/compile.js:347-350 | a table of literals only becomes one `  {…}` group of its entry texts |
| EmitFacts.EntryTexts | src/compile.js:339-344 | each literal entry text is the escaped key and the value, escaped and double-quoted when static |
| EmitFacts.ElementShape | src/compile.js:222-245 | an element without body nodes ends with the self-closing open end and has no close call; with a body, the open end, the body parts in order and the close call |
| EmitFacts.StaticHead | src/compile.js:164-220 | a static element writes the computed tag's line if any, the open start with no key, then one attribute call per entry in entry order |
| EmitFacts.DirectiveLines | src/directives/ifDirective.js:5-19 | only `if` and `for` succeed; the first line is `ws + "if (" + header + ") {"` (or `for (const …`) and the last is `ws + "}"` at the caller's indentation |
| EmitFacts.EmitSeqPart | src/compile.js:68-71 | the q-th part of a list is the q-th node's own text at the list's depth, written with a counter no earlier than the list's |
| EmitFacts.DirectiveBodyDeeper | src/directives/forDirective.js:10-16 | between the header and the closing line, a directive holds one part per body node in body order, each that node's own text one level deeper than the directive |
| EmitFacts.EmitSeqFails | src/compile.js:68-71 | a list that holds a node the emitter always rejects fails |
| EmitFacts.EmitSeqLength | src/compile.js:68-71 | one part per node |
| EmitFacts.TopLevelText | src/compile.js:151-155 | top-level text is written at 4 spaces with `with` and 2 without, static text quoted and output copied |
| EmitFacts.CompileUnknownWriter | src/compile.js:21-34 | an unknown writer name is an error naming it |
| EmitFacts.CompileRejectsComment | src/compile.js:145-147 | a template with a top-level COMMENT does not compile |
| EmitFacts.ExportOptions | src/compile.js:88-111 | `cjs`/`commonjs` give `module.exports = `, `es6`/`module` give `export default `, none gives the empty text, and anything else is rejected (both directions) |
| EmitFacts.CompileInvalidOutput | src/compile.js:79 | an invalid `output` option is reported with its value once the nodes are written |
| EmitFacts.CompileLayout | src/compile.js:79-85 | a compiled unit starts with the export prefix and the writer's intro and ends with the writer's outro |
| Compiler.IdCounter.constructor | src/compile.js:36 | the counter starts at 0 |
| Compiler.IdCounter.NextId | src/compile.js:46-50 | increments the counter and returns the new value |
| Compiler.CompileAttributes | src/compile.js:273-311 | the loop builds exactly the attribute table specified, with spreads renamed in source order |
| Compiler.DynamicArguments | src/compile.js:315-350 | the loop produces exactly the specified argument list of `Object.assign` |
| Compiler.WriteDynamicAttributes | src/compile.js:313-361 | draws one id and returns the builder's name with that id and its source |
| Compiler.WriteStaticAttributes | src/compile.js:211-219 | the loop writes one attribute call per entry, in entry order |
| Compiler.State.constructor | src/compile.js:38-59 | a state starts at the first node with `ws` matching its depth |
| Compiler.State.IncreaseDepth | src/compile.js:380-384 | the depth grows by one and `ws` stays 2·depth spaces |
| Compiler.State.DecreaseDepth | src/compile.js:386-390 | the depth shrinks by one and `ws` stays 2·depth spaces |
| Compiler.State.NextPart | src/compile.js:133-155 | pops one node, leaves the depth alone, and returns that node's specified part, advancing the counter as specified |
| Compiler.State.WriteAll | src/compile.js:67-71 | the loop writes the parts of all nodes in order, or the first error, and restores the depth |
| Compiler.State.WriteDynamicPrelude | src/compile.js:173-188 | draws three ids and writes the builder function, the attribute object and the key lines |
| Compiler.State.WriteTag | src/compile.js:190-199 | an output tag draws an id and binds `__tag_N__` to the expression; a static tag is its text |
| Compiler.State.WriteAttributeLoop | src/compile.js:203-210 | the loop over the attribute object, its call one level deeper, with the depth restored |
| Compiler.State.WriteAttributeCalls | src/compile.js:203-220 | the dynamic loop or one call per static entry, with the depth restored |
| Compiler.State.WriteElementStart | src/compile.js:173-199 | the prelude exactly when the attributes are dynamic, then the tag, with the id arithmetic specified |
| Compiler.State.WriteElementHead | src/compile.js:157-220 | the lines before the open end, the tag, and the counter are exactly the specified head |
| Compiler.State.WriteElement | src/compile.js:157-246 | writes exactly the specified element text from a copy of the state for the body, leaving the depth unchanged |
| Compiler.State.WriteDirective | src/compile.js:248-260 | `if`/`for` (case-insensitively) write their block; `directives` and any other name are errors |
| Compiler.State.IfWrite | src/directives/ifDirective.js:3-20 | writes exactly the specified `if` block and restores the depth |
| Compiler.State.ForWrite | src/directives/forDirective.js:3-20 | writes exactly the specified `for` block and restores the depth |
| Compiler.State.WriteBlock | src/directives/ifDirective.js:5-19 | the header, the body written one level deeper from a copy of the state, and `}` at the original indentation; the depth is restored |
| Compiler.Compile | src/compile.js:9-86 | the compile returns exactly the specified unit or error |

## Left out

- **Bytes.** The UTF-8 `Buffer` conversion of the source is not modelled. One character stands for one byte, and a multi-byte character is not split.
- **Custom writers.** Writer objects passed by the caller are foreign code. Only the built-in names `html` and `incremental-dom` and the default are modelled.
- **`preserveComments`.** The option is read but never used by the source.
- **The user directive table.** It is never reachable (see above). A call into its `write` would be foreign code.
- **The lifted-helper table.** It is never filled, so its interpolation is modelled as the empty text between the intro and the parts.
- **The printed escape helper.** The HTML writer's intro embeds `escapeString.toString()`; the model uses a fixed placeholder text for it.
- **Non-ASCII `toLowerCase`.** Only ASCII letters are lower-cased in directive names.
- **Integer-like keys.** `Object.keys` lists integer-like keys first in JavaScript. The attribute table keeps plain insertion order for every key.
- **Attribute names that are `Object.prototype` members.** The attribute table is a plain JavaScript object. An attribute named `hasOwnProperty` replaces that method, so the static-attribute loop of src/compile.js:211-218 throws a TypeError when it calls it. An attribute named `__proto__` sets the prototype instead of adding a key, so neither `for…in` with `hasOwnProperty` nor `Object.keys` lists it. The model treats both names as ordinary keys and emits them.
- **The emitted code's behaviour.** Running the emitted code is modelled only for `__writeattr__`, over a small model of JavaScript values. Numbers are integers.
- **Error messages.** Their texts are not modelled. Errors are datatype values carrying the same data: line and column, token or name. A JavaScript TypeError carries nothing: the lexer's `throwUnexpected` at the end of input (after `=`, src/lex.js:247) and the parser's dereferences of a missing or text-less token.
- **The source's `END_TAG` test (src/parse.js:74-78).** It cannot fail after the attribute loop, so it is not modelled as a separate branch.
- **State copies.** The object spread `{...state, pos: 0, nodes}` is modelled as a new `State` sharing the writer and the id counter. Its depth and indentation are the caller's at the time of the copy, as in the source.
- Lexer.Lexer.ScanAttributes: states only that each step keeps the lexer invariant and makes progress. The attribute token shapes it produces are stated by the members it calls (LeaveTag, ScanAttribute, ScanEquals).
- Lexer.Lexer.ScanAttribute: states progress and validity only. The name token's text is not characterised.
- Lexer.Lexer.Run: characterises the result only for empty input, marker-free input, a leading stray close and an unclosed tag name. Other inputs are covered by the token invariant alone.
- Lexer.Lex: errors are characterised only for a leading stray `>`, `/>` or `}}` and for an unclosed tag name. Other errors are not pinned to their position.
- Parser.Parser.ParseElement: characterises success by the grammar. Which error an ill-formed element gives is not stated.
- Parser.Parser.ParseDirective: characterises success by the grammar. Which error an ill-formed directive gives is not stated.
- Parser.Parser.ParseAttribute: states which error a name without text or a malformed value gives only through ParseValueOrOutput's contract, not in its own.
- Parser.Parser.ParseAttributes: pins the unexpected-end error only when whole attributes run to the end, and the TypeError only for a bare last name. An attribute whose value is cut short is not stated here.
- Parser.Parser.ParseBody: pins the unexpected-end error only when the remaining tokens are whole TEXT, output and comment nodes. A body that runs out after whole elements or directives is not stated, because that would need the completeness of ParseElement and ParseDirective against the grammar.

/** What the emitted text promises, proved about the emission functions of module Emit. */
module EmitFacts {
  import opened Wrappers
  import opened Strings
  import opened Syntax
  import opened Emit
  import H = HtmlWriter

  // ---------------------------------------------------------------------------
  // Synthetic names and the id counter.
  // ---------------------------------------------------------------------------

  /** Names drawn with different prefixes differ already in their third character. */
  lemma PrefixesDiffer(p: string, a: nat, q: string, b: nat)
    requires IsNamePrefix(p) && IsNamePrefix(q) && p != q
    ensures SyntheticName(p, a) != SyntheticName(q, b)
  {
    assert AttsPrefix[2] == 'a' && KeyPrefix[2] == 'k' && TagPrefix[2] == 't' && BuildPrefix[2] == 'b';
    assert SyntheticName(p, a)[2] == p[2] && SyntheticName(q, b)[2] == q[2];
  }

  /** Two synthetic names are equal only when they share the prefix and the id, so names
      drawn with different ids never clash (src/compile.js:183, 186, 192, 352). */
  lemma SyntheticNamesDistinct(p: string, a: nat, q: string, b: nat)
    requires IsNamePrefix(p) && IsNamePrefix(q) && SyntheticName(p, a) == SyntheticName(q, b)
    ensures p == q && a == b
  {
    var x, y := SyntheticName(p, a), SyntheticName(q, b);
    if p != q {
      PrefixesDiffer(p, a, q, b);
    }
    assert x[|p|..|x| - 2] == NatToString(a);
    assert y[|q|..|y| - 2] == NatToString(b);
    NatToStringInjective(a, b);
  }

  /** The id an element's head leaves behind: three more ids for a dynamic attribute set,
      one more for a computed tag. */
  lemma HeadIds(w: Writer, n: Node, depth: nat, id: nat)
    requires WellFormed(n) && n.kind == Element
    ensures ElementHead(w, n, depth, id).id
            == id + (if IsDynamicTable(AttributeTable(n.payload.nodes[1].payload.nodes)) then 3 else 0)
               + (if n.payload.nodes[0].kind == Output then 1 else 0)
  {
  }

  /** The (prefix, id) pairs of the names an element head draws, in drawing order: the
      builder, the object and the key of a dynamic attribute set (src/compile.js:352, 183,
      186), then a computed tag (src/compile.js:192). */
  function HeadDrawn(dynamic: bool, computedTag: bool, id: nat): seq<(string, nat)>
  {
    var id1 := if dynamic then id + 3 else id;
    (if dynamic then [(BuildPrefix, id + 1), (AttsPrefix, id + 2), (KeyPrefix, id + 3)] else [])
    + (if computedTag then [(TagPrefix, id1 + 1)] else [])
  }

  /** The head's names of an element. */
  function ElementHeadDrawn(n: Node, id: nat): seq<(string, nat)>
    requires WellFormed(n) && n.kind == Element
  {
    HeadDrawn(IsDynamicTable(AttributeTable(n.payload.nodes[1].payload.nodes)), n.payload.nodes[0].kind == Output, id)
  }

  /** The names a node draws while it is emitted: its head's, then its body's. */
  function NodeDrawn(w: Writer, n: Node, depth: nat, id: nat): seq<(string, nat)>
    requires WellFormed(n)
    decreases n, 1
  {
    match n.kind
    case Element =>
      if |n.payload.nodes| == 2 then ElementHeadDrawn(n, id)
      else
        BodyWellFormed(n);
        ElementHeadDrawn(n, id) + SeqDrawn(w, n.payload.nodes[2..], depth, ElementHead(w, n, depth, id).id)
    case Directive =>
      BodyWellFormed(n);
      SeqDrawn(w, n.payload.nodes[2..], depth + 1, id)
    case _ => []
  }

  /** The names a list of nodes draws, node after node, the counter threaded as `EmitSeq`
      threads it. */
  function SeqDrawn(w: Writer, ns: seq<Node>, depth: nat, id: nat): seq<(string, nat)>
    requires AllWellFormed(ns)
    decreases ns, 0
  {
    if ns == [] then []
    else
      var init := ns[..|ns| - 1];
      match EmitSeq(w, init, depth, id)
      case Err(_) => SeqDrawn(w, init, depth, id)
      case Ok((_, id1)) => SeqDrawn(w, init, depth, id) + NodeDrawn(w, ns[|ns| - 1], depth, id1)
  }

  /** The ids a drawn list carries are the ones after `id`, one each and in order. */
  predicate DrawsFrom(d: seq<(string, nat)>, id: nat)
  {
    forall k :: 0 <= k < |d| ==> IsNamePrefix(d[k].0) && d[k].1 == id + 1 + k
  }

  lemma DrawsFromAppend(a: seq<(string, nat)>, b: seq<(string, nat)>, id: nat)
    requires DrawsFrom(a, id) && DrawsFrom(b, id + |a|)
    ensures DrawsFrom(a + b, id)
  {
    forall k | 0 <= k < |a + b| ensures IsNamePrefix((a + b)[k].0) && (a + b)[k].1 == id + 1 + k {
      if k >= |a| {
        assert (a + b)[k] == b[k - |a|];
      }
    }
  }

  lemma HeadDrawsFrom(dynamic: bool, computedTag: bool, id: nat)
    ensures |HeadDrawn(dynamic, computedTag, id)| == (if dynamic then 3 else 0) + (if computedTag then 1 else 0)
    ensures DrawsFrom(HeadDrawn(dynamic, computedTag, id), id)
  {
  }

  /** A node draws exactly the ids after the counter up to the counter it leaves, each once
      and in order, so the counter never moves back. */
  lemma {:induction false} EmitNodeIds(w: Writer, n: Node, depth: nat, id: nat)
    requires WellFormed(n) && EmitNode(w, n, depth, id).Ok?
    ensures EmitNode(w, n, depth, id).value.1 >= id
    ensures var d := NodeDrawn(w, n, depth, id);
            |d| == EmitNode(w, n, depth, id).value.1 - id && DrawsFrom(d, id)
    decreases n, 1
  {
    match n.kind
    case Element =>
      ElementIds(w, n, depth, id);
    case Directive =>
      BodyWellFormed(n);
      EmitSeqIds(w, n.payload.nodes[2..], depth + 1, id);
    case _ =>
  }

  lemma {:induction false} ElementIds(w: Writer, n: Node, depth: nat, id: nat)
    requires WellFormed(n) && n.kind == Element && EmitElement(w, n, depth, id).Ok?
    ensures var d := NodeDrawn(w, n, depth, id);
            |d| == EmitElement(w, n, depth, id).value.1 - id && DrawsFrom(d, id)
    decreases n, 0
  {
    var h := ElementHead(w, n, depth, id);
    HeadIds(w, n, depth, id);
    HeadDrawsFrom(IsDynamicTable(AttributeTable(n.payload.nodes[1].payload.nodes)), n.payload.nodes[0].kind == Output, id);
    if |n.payload.nodes| > 2 {
      BodyWellFormed(n);
      EmitSeqIds(w, n.payload.nodes[2..], depth, h.id);
      DrawsFromAppend(ElementHeadDrawn(n, id), SeqDrawn(w, n.payload.nodes[2..], depth, h.id), id);
    }
  }

  /** A list draws exactly the ids after the counter up to the counter it leaves, each once
      and in order. */
  lemma {:induction false} EmitSeqIds(w: Writer, ns: seq<Node>, depth: nat, id: nat)
    requires AllWellFormed(ns) && EmitSeq(w, ns, depth, id).Ok?
    ensures EmitSeq(w, ns, depth, id).value.1 >= id
    ensures var d := SeqDrawn(w, ns, depth, id);
            |d| == EmitSeq(w, ns, depth, id).value.1 - id && DrawsFrom(d, id)
    decreases ns, 0
  {
    if ns != [] {
      var init := ns[..|ns| - 1];
      var id1 := EmitSeq(w, init, depth, id).value.1;
      EmitSeqIds(w, init, depth, id);
      EmitNodeIds(w, ns[|ns| - 1], depth, id1);
      DrawsFromAppend(SeqDrawn(w, init, depth, id), NodeDrawn(w, ns[|ns| - 1], depth, id1), id);
    }
  }

  /** Every synthetic name (`__atts_`, `__key_`, `__tag_`, `__buildatts_`) a list of nodes
      draws differs from every other one it draws (src/compile.js:36-50, 183-192, 352). */
  lemma DrawnNamesDistinct(w: Writer, ns: seq<Node>, depth: nat, id: nat)
    requires AllWellFormed(ns) && EmitSeq(w, ns, depth, id).Ok?
    ensures var d := SeqDrawn(w, ns, depth, id);
            forall i, j :: 0 <= i < j < |d| ==> SyntheticName(d[i].0, d[i].1) != SyntheticName(d[j].0, d[j].1)
  {
    EmitSeqIds(w, ns, depth, id);
    var d := SeqDrawn(w, ns, depth, id);
    forall i, j | 0 <= i < j < |d| ensures SyntheticName(d[i].0, d[i].1) != SyntheticName(d[j].0, d[j].1) {
      if SyntheticName(d[i].0, d[i].1) == SyntheticName(d[j].0, d[j].1) {
        SyntheticNamesDistinct(d[i].0, d[i].1, d[j].0, d[j].1);
      }
    }
  }

  /** One level deeper indents by two more spaces, and a shallower level's indentation is
      a prefix of a deeper one's and of no shallower one's (src/compile.js:380-400). */
  lemma IndentNests(a: nat, b: nat)
    ensures Ws(a + 1) == Ws(a) + "  "
    ensures Ws(a) <= Ws(b) <==> a <= b
  {
    assert |Ws(a) + "  "| == |Ws(a + 1)|;
    if a <= b {
      assert Ws(b)[..|Ws(a)|] == Ws(a);
    }
  }

  // ---------------------------------------------------------------------------
  // The attribute table.
  // ---------------------------------------------------------------------------

  /** Storing under an existing key keeps every key in its slot. */
  lemma {:induction false} PutExistingKeys(t: Table, key: string, e: AttEntry)
    requires key in Keys(t)
    ensures Keys(Put(t, key, e)) == Keys(t)
  {
    if t[0].0 != key {
      assert key in Keys(t[1..]);
      PutExistingKeys(t[1..], key, e);
    }
  }

  /** A new key is appended after the existing entries. */
  lemma {:induction false} PutNewAppends(t: Table, key: string, e: AttEntry)
    requires key !in Keys(t)
    ensures Put(t, key, e) == t + [(key, e)]
  {
    if t != [] {
      assert key !in Keys(t[1..]);
      PutNewAppends(t[1..], key, e);
    }
  }

  /** Entries under other keys are untouched. */
  lemma {:induction false} PutKeepsOthers(t: Table, key: string, e: AttEntry, i: nat)
    requires i < |t| && t[i].0 != key
    ensures i < |Put(t, key, e)| && Put(t, key, e)[i] == t[i]
  {
    if i > 0 && t[0].0 != key {
      PutKeepsOthers(t[1..], key, e, i - 1);
    }
  }

  /** Afterwards the key holds the new entry. */
  lemma {:induction false} PutStores(t: Table, key: string, e: AttEntry) returns (i: nat)
    ensures i < |Put(t, key, e)| && Put(t, key, e)[i] == (key, e)
  {
    if t == [] || t[0].0 == key {
      i := 0;
    } else {
      var j := PutStores(t[1..], key, e);
      i := j + 1;
    }
  }

  /** Keys stay unique. */
  lemma PutUnique(t: Table, key: string, e: AttEntry)
    requires UniqueKeys(t)
    ensures UniqueKeys(Put(t, key, e))
  {
    var r := Put(t, key, e);
    if key in Keys(t) {
      PutExistingKeys(t, key, e);
      forall i, j | 0 <= i < j < |r| ensures r[i].0 != r[j].0 {
        assert Keys(r)[i] == Keys(t)[i] && Keys(r)[j] == Keys(t)[j];
      }
    } else {
      PutNewAppends(t, key, e);
      forall i | 0 <= i < |t| ensures t[i].0 != key {
        assert Keys(t)[i] == t[i].0;
      }
    }
  }

  /** The keys after a store are the keys before it and the stored key. */
  lemma PutKeys(t: Table, key: string, e: AttEntry, x: string)
    ensures x in Keys(Put(t, key, e)) <==> x in Keys(t) || x == key
  {
    var r := Put(t, key, e);
    if key in Keys(t) {
      PutExistingKeys(t, key, e);
    } else {
      PutNewAppends(t, key, e);
      assert Keys(r) == Keys(t) + [key];
    }
  }

  /** The table of `compileAttributes` holds each key once. */
  lemma {:induction false} AttributeTableUnique(attrs: seq<Node>)
    requires AllAttributes(attrs)
    ensures UniqueKeys(AttributeTable(attrs))
  {
    if attrs != [] {
      var init := attrs[..|attrs| - 1];
      AttributeTableUnique(init);
      PutUnique(AttributeTable(init), TableKey(attrs[|attrs| - 1], SpreadCount(init)), AttrEntryOf(attrs[|attrs| - 1]));
    }
  }

  /** The key each attribute is stored under, in source order. */
  function AttrKeys(attrs: seq<Node>): (r: seq<string>)
    requires AllAttributes(attrs)
    ensures |r| == |attrs|
  {
    if attrs == [] then []
    else AttrKeys(attrs[..|attrs| - 1]) + [TableKey(attrs[|attrs| - 1], SpreadCount(attrs[..|attrs| - 1]))]
  }

  /** The table's keys are exactly the attributes' keys: `*` attributes under `__*0__`,
      `__*1__`, ... in source order, every other attribute under its own name. */
  lemma {:induction false} AttributeTableKeys(attrs: seq<Node>, key: string)
    requires AllAttributes(attrs)
    ensures key in Keys(AttributeTable(attrs)) <==> key in AttrKeys(attrs)
  {
    if attrs != [] {
      var init := attrs[..|attrs| - 1];
      AttributeTableKeys(init, key);
      PutKeys(AttributeTable(init), TableKey(attrs[|attrs| - 1], SpreadCount(init)), AttrEntryOf(attrs[|attrs| - 1]), key);
    }
  }

  /** The last attribute stored under a key decides its entry. */
  lemma LastWriteWins(attrs: seq<Node>, a: Node)
    requires AllAttributes(attrs) && IsAttribute(a)
    ensures AllAttributes(attrs + [a])
    ensures (TableKey(a, SpreadCount(attrs)), AttrEntryOf(a)) in AttributeTable(attrs + [a])
  {
    var all := attrs + [a];
    assert all[..|all| - 1] == attrs;
    var i := PutStores(AttributeTable(attrs), TableKey(a, SpreadCount(attrs)), AttrEntryOf(a));
  }

  /** Spread names differ from each other, and only the first spread is named `__*0__`. */
  lemma SpreadNamesDistinct(a: nat, b: nat)
    requires SpreadName(a) == SpreadName(b)
    ensures a == b
  {
    var x, y := SpreadName(a), SpreadName(b);
    assert x[3..|x| - 2] == NatToString(a);
    assert y[3..|y| - 2] == NatToString(b);
    NatToStringInjective(a, b);
  }

  /** A positive spread count has a `*` attribute behind it. */
  lemma {:induction false} SpreadsExist(attrs: seq<Node>)
    requires AllAttributes(attrs) && SpreadCount(attrs) > 0
    ensures exists q :: 0 <= q < |attrs| && AttrName(attrs[q]) == "*"
  {
    var init := attrs[..|attrs| - 1];
    if AttrName(attrs[|attrs| - 1]) != "*" {
      SpreadsExist(init);
      var q :| 0 <= q < |init| && AttrName(init[q]) == "*";
      assert attrs[q] == init[q];
    }
  }

  /** `__*0__` is among the keys exactly when some attribute is `*` or literally
      `__*0__`. */
  lemma {:induction false} FirstSpreadKey(attrs: seq<Node>)
    requires AllAttributes(attrs)
    ensures SpreadName(0) in AttrKeys(attrs)
            <==> exists q :: 0 <= q < |attrs| && (AttrName(attrs[q]) == "*" || AttrName(attrs[q]) == SpreadName(0))
  {
    if attrs != [] {
      var init := attrs[..|attrs| - 1];
      var a := attrs[|attrs| - 1];
      FirstSpreadKey(init);
      assert AttrKeys(attrs) == AttrKeys(init) + [TableKey(a, SpreadCount(init))];
      forall q | 0 <= q < |init| ensures attrs[q] == init[q] {
      }
      if AttrName(a) == "*" {
        if SpreadCount(init) > 0 {
          SpreadsExist(init);
          assert SpreadName(SpreadCount(init)) != SpreadName(0) by {
            if SpreadName(SpreadCount(init)) == SpreadName(0) {
              SpreadNamesDistinct(SpreadCount(init), 0);
            }
          }
        }
      }
    }
  }

  /** The attribute set is dynamic exactly when it has a `*` attribute, or an attribute
      literally named `__*0__` (src/compile.js:169, 297-301). */
  lemma DynamicIffSpread(attrs: seq<Node>)
    requires AllAttributes(attrs)
    ensures IsDynamicTable(AttributeTable(attrs))
            <==> exists q :: 0 <= q < |attrs| && (AttrName(attrs[q]) == "*" || AttrName(attrs[q]) == SpreadName(0))
  {
    AttributeTableKeys(attrs, SpreadName(0));
    FirstSpreadKey(attrs);
  }

  // ---------------------------------------------------------------------------
  // Dynamic attributes.
  // ---------------------------------------------------------------------------

  /** A step acts on the finished segments only by appending. */
  lemma StepShift(done: seq<string>, s: Scan, key: string, e: AttEntry)
    ensures ScanStep(Scan(done + s.parts, s.pending), key, e)
            == Scan(done + ScanStep(s, key, e).parts, ScanStep(s, key, e).pending)
  {
    if IsSpreadKey(key) && |s.pending| > 0 {
      var f := " {" + Join(s.pending, ", ") + "}";
      var v := "  " + ValueText(e.value);
      assert (done + s.parts) + [f] + [v] == done + (s.parts + [f] + [v]);
    } else if IsSpreadKey(key) {
      var v := "  " + ValueText(e.value);
      assert (done + s.parts) + [v] == done + (s.parts + [v]);
    }
  }

  /** Scanning a table that starts right after a spread (nothing pending) appends that
      table's own scan. */
  lemma {:induction false} ScanAppend(a: Table, b: Table)
    requires ScanTable(a).pending == []
    ensures ScanTable(a + b) == Scan(ScanTable(a).parts + ScanTable(b).parts, ScanTable(b).pending)
    decreases |b|
  {
    if b == [] {
      assert a + b == a;
    } else {
      var b0 := b[..|b| - 1];
      assert (a + b)[..|a + b| - 1] == a + b0;
      ScanAppend(a, b0);
      StepShift(ScanTable(a).parts, ScanTable(b0), b[|b| - 1].0, b[|b| - 1].1);
    }
  }

  /** The ` "key": value` texts of a table's entries, in order. */
  function EntryTexts(t: Table): (r: seq<string>)
    ensures |r| == |t| && forall i :: 0 <= i < |t| ==> r[i] == EntryText(t[i].0, t[i].1)
  {
    if t == [] then [] else EntryTexts(t[..|t| - 1]) + [EntryText(t[|t| - 1].0, t[|t| - 1].1)]
  }

  /** Literal entries only: the pending list grows, nothing is finished. */
  lemma {:induction false} ScanLiterals(t: Table)
    requires forall i :: 0 <= i < |t| ==> !IsSpreadKey(t[i].0)
    ensures ScanTable(t) == Scan([], EntryTexts(t))
  {
    if t != [] {
      ScanLiterals(t[..|t| - 1]);
    }
  }

  /** A spread finishes the pending literals as one object literal (when there are any)
      and then passes its own expression. */
  lemma FlushAtSpread(pending: seq<string>, key: string, e: AttEntry)
    requires IsSpreadKey(key)
    ensures ScanStep(Scan([], pending), key, e)
            == Scan((if |pending| == 0 then [] else [" {" + Join(pending, ", ") + "}"]) + ["  " + ValueText(e.value)], [])
  {
  }

  /** A spread after a run of literals finishes the run as one object literal (when there
      is one) and then passes the spread's expression. */
  lemma ScanThroughSpread(lits: Table, key: string, e: AttEntry)
    requires forall i :: 0 <= i < |lits| ==> !IsSpreadKey(lits[i].0)
    requires IsSpreadKey(key)
    ensures ScanTable(lits + [(key, e)])
            == Scan((if |lits| == 0 then [] else [" {" + Join(EntryTexts(lits), ", ") + "}"]) + ["  " + ValueText(e.value)], [])
  {
    var head := lits + [(key, e)];
    ScanLiterals(lits);
    assert head[..|head| - 1] == lits;
    FlushAtSpread(EntryTexts(lits), key, e);
  }

  /** After a spread the remaining entries form their own arguments. */
  lemma DynamicPartsAppend(a: Table, b: Table)
    requires ScanTable(a).pending == []
    ensures DynamicParts(a + b) == ScanTable(a).parts + DynamicParts(b)
  {
    ScanAppend(a, b);
    var r := ScanTable(b);
    if |r.pending| > 0 {
      var f := "  {" + Join(r.pending, ", ") + "}";
      assert (ScanTable(a).parts + r.parts) + [f] == ScanTable(a).parts + (r.parts + [f]);
    }
  }

  /** `Object.assign({}, ...)` receives, in source order: each maximal run of literal
      entries as one object literal, and each spread's expression as is.  Here: a run of
      literals, one spread, then whatever follows, scanned afresh. */
  lemma DynamicPartsSplit(lits: Table, key: string, e: AttEntry, rest: Table)
    requires forall i :: 0 <= i < |lits| ==> !IsSpreadKey(lits[i].0)
    requires IsSpreadKey(key)
    ensures DynamicParts(lits + [(key, e)] + rest)
            == (if |lits| == 0 then [] else [" {" + Join(EntryTexts(lits), ", ") + "}"]) + ["  " + ValueText(e.value)] + DynamicParts(rest)
  {
    ScanThroughSpread(lits, key, e);
    DynamicPartsAppend(lits + [(key, e)], rest);
  }

  /** With no spread at all, the entries form a single object literal. */
  lemma DynamicPartsLiteralsOnly(t: Table)
    requires t != [] && forall i :: 0 <= i < |t| ==> !IsSpreadKey(t[i].0)
    ensures DynamicParts(t) == ["  {" + Join(EntryTexts(t), ", ") + "}"]
  {
    ScanLiterals(t);
  }

  // ---------------------------------------------------------------------------
  // Elements and directives.
  // ---------------------------------------------------------------------------

  /** An element without body nodes ends with the self-closing open end and has no close
      call; one with a body ends with the close call, and its body parts come right after
      the open end (src/compile.js:222-245). */
  lemma ElementShape(w: Writer, n: Node, depth: nat, id: nat)
    requires WellFormed(n) && n.kind == Element && EmitElement(w, n, depth, id).Ok?
    ensures AllWellFormed(n.payload.nodes[2..])
    ensures var h := ElementHead(w, n, depth, id);
            var text := EmitElement(w, n, depth, id).value.0;
            if |n.payload.nodes| == 2 then
              text == Join(h.lines + [OpenEndLine(w, h.tag, h.isOutput, true, Ws(depth))], "\n")
            else
              var body := EmitSeq(w, n.payload.nodes[2..], depth, h.id).value.0;
              text == Join(h.lines + [OpenEndLine(w, h.tag, h.isOutput, false, Ws(depth))] + body, "\n")
                      + "\n" + CloseLine(w, h.tag, h.isOutput, Ws(depth))
  {
    BodyWellFormed(n);
    var h := ElementHead(w, n, depth, id);
    if |n.payload.nodes| > 2 {
      var body := EmitSeq(w, n.payload.nodes[2..], depth, h.id).value.0;
      var front := h.lines + [OpenEndLine(w, h.tag, h.isOutput, false, Ws(depth))] + body;
      JoinSnoc(front, CloseLine(w, h.tag, h.isOutput, Ws(depth)), "\n");
    }
  }

  /** A static element: the computed tag's line if any, the open-start call without a
      key, then one attribute call per table entry in entry order (src/compile.js:164-220). */
  lemma StaticHead(w: Writer, n: Node, depth: nat, id: nat)
    requires WellFormed(n) && n.kind == Element
    requires !IsDynamicTable(AttributeTable(n.payload.nodes[1].payload.nodes))
    ensures var h := ElementHead(w, n, depth, id);
            var table := AttributeTable(n.payload.nodes[1].payload.nodes);
            h.lines == TagLines(n.payload.nodes[0], h.tag, Ws(depth)) + [OpenStartLine(w, h.tag, h.isOutput, false, Ws(depth))]
                       + StaticAttrLines(w, table, Ws(depth))
            && |StaticAttrLines(w, table, Ws(depth))| == |table|
  {
  }

  /** The directive's text starts with its header line at the caller's indentation, holds
      the body parts written one level deeper, and ends with `}` at the caller's
      indentation (src/directives/ifDirective.js:5-19, src/directives/forDirective.js:5-19). */
  lemma DirectiveLines(w: Writer, n: Node, depth: nat, id: nat)
    requires WellFormed(n) && n.kind == Directive && EmitDirective(w, n, depth, id).Ok?
    ensures var name := Lower(n.payload.nodes[0].payload.text);
            var content := n.payload.nodes[1].payload.text;
            var text := EmitDirective(w, n, depth, id).value.0;
            (name == "if" || name == "for")
            && (name == "if" ==> Ws(depth) + "if (" + content + ") {" + "\n" <= text)
            && (name == "for" ==> Ws(depth) + "for (const " + content + ") {" + "\n" <= text)
            && EndsWith(text, "\n" + Ws(depth) + "}")
  {
    var name := Lower(n.payload.nodes[0].payload.text);
    var content := n.payload.nodes[1].payload.text;
    BodyWellFormed(n);
    var parts := EmitSeq(w, n.payload.nodes[2..], depth + 1, id).value.0;
    var lines := [DirectiveHeader(name, content, Ws(depth))] + parts + [Ws(depth) + "}"];
    assert lines[0] == DirectiveHeader(name, content, Ws(depth));
    assert lines[|lines| - 1] == Ws(depth) + "}";
    FirstAndLastPart(lines, "\n");
  }

  /** The q-th part of a list is the q-th node's own text at the list's depth, emitted
      with the counter some earlier nodes have moved on from `id`. */
  lemma {:induction false} EmitSeqPart(w: Writer, ns: seq<Node>, depth: nat, id: nat, q: nat) returns (i: nat)
    requires AllWellFormed(ns) && EmitSeq(w, ns, depth, id).Ok? && q < |ns|
    ensures |EmitSeq(w, ns, depth, id).value.0| == |ns|
    ensures id <= i && EmitNode(w, ns[q], depth, i).Ok?
            && EmitSeq(w, ns, depth, id).value.0[q] == EmitNode(w, ns[q], depth, i).value.0
    decreases |ns|
  {
    var init := ns[..|ns| - 1];
    EmitSeqLength(w, ns, depth, id);
    EmitSeqIds(w, init, depth, id);
    if q == |ns| - 1 {
      i := EmitSeq(w, init, depth, id).value.1;
    } else {
      assert init[q] == ns[q];
      i := EmitSeqPart(w, init, depth, id, q);
    }
  }

  /** Each body node of a directive is written one level deeper than the directive, in
      body order, between the header line and the closing line. */
  lemma DirectiveBodyDeeper(w: Writer, n: Node, depth: nat, id: nat, q: nat) returns (i: nat)
    requires WellFormed(n) && n.kind == Directive && EmitDirective(w, n, depth, id).Ok?
    requires 2 <= q < |n.payload.nodes|
    ensures AllWellFormed(n.payload.nodes[2..])
    ensures var parts := EmitSeq(w, n.payload.nodes[2..], depth + 1, id);
            parts.Ok? && EmitDirective(w, n, depth, id).value
                         == (DirectiveText(Lower(n.payload.nodes[0].payload.text), n.payload.nodes[1].payload.text, parts.value.0, depth), parts.value.1)
    ensures id <= i && EmitNode(w, n.payload.nodes[q], depth + 1, i).Ok?
    ensures var parts := EmitSeq(w, n.payload.nodes[2..], depth + 1, id).value.0;
            |parts| == |n.payload.nodes| - 2 && parts[q - 2] == EmitNode(w, n.payload.nodes[q], depth + 1, i).value.0
  {
    BodyWellFormed(n);
    assert n.payload.nodes[2..][q - 2] == n.payload.nodes[q];
    i := EmitSeqPart(w, n.payload.nodes[2..], depth + 1, id, q - 2);
  }

  // ---------------------------------------------------------------------------
  // Whole lists and the compile.
  // ---------------------------------------------------------------------------

  /** A list that holds a node the emitter rejects (a COMMENT, say) fails. */
  lemma {:induction false} EmitSeqFails(w: Writer, ns: seq<Node>, depth: nat, id: nat, q: nat)
    requires AllWellFormed(ns) && q < |ns|
    requires forall d: nat, i: nat :: EmitNode(w, ns[q], d, i).Err?
    ensures EmitSeq(w, ns, depth, id).Err?
    decreases |ns|
  {
    var init := ns[..|ns| - 1];
    if q < |ns| - 1 {
      assert init[q] == ns[q];
      EmitSeqFails(w, init, depth, id, q);
    }
  }

  /** Parts come one per node, in order. */
  lemma {:induction false} EmitSeqLength(w: Writer, ns: seq<Node>, depth: nat, id: nat)
    requires AllWellFormed(ns) && EmitSeq(w, ns, depth, id).Ok?
    ensures |EmitSeq(w, ns, depth, id).value.0| == |ns|
  {
    if ns != [] {
      EmitSeqLength(w, ns[..|ns| - 1], depth, id);
    }
  }

  /** Text and output nodes at the top level are written at depth 2 inside `with` and at
      depth 1 without it, static text quoted and output copied. */
  lemma TopLevelText(w: Writer, n: Node, opts: Options)
    requires WellFormed(n) && (n.kind == TextNode || n.kind == Output)
    ensures EmitNode(w, n, StartDepth(opts.useWith), 0)
            == Ok((TextLine(w, n.payload.nodes[0].payload.text, n.kind == Output, Spaces(if opts.useWith then 4 else 2)), 0))
  {
  }

  /** An unknown writer name is the first error `compile` reports (src/compile.js:21-34). */
  lemma CompileUnknownWriter(nodes: seq<Node>, opts: Options)
    requires AllWellFormed(nodes)
    requires opts.writer.Some? && opts.writer.value != "html" && opts.writer.value != "incremental-dom"
    ensures CompileSpec(nodes, opts) == Err(UnknownWriter(opts.writer.value))
  {
  }

  /** A template that holds a COMMENT node at the top level does not compile
      (src/compile.js:146-147). */
  lemma CompileRejectsComment(nodes: seq<Node>, opts: Options, q: nat)
    requires AllWellFormed(nodes) && q < |nodes| && nodes[q].kind == Comment
    ensures CompileSpec(nodes, opts).Err?
  {
    match SelectWriter(opts.writer)
    case Err(_) =>
    case Ok(w) =>
      forall d: nat, i: nat ensures EmitNode(w, nodes[q], d, i).Err? {
      }
      EmitSeqFails(w, nodes, StartDepth(opts.useWith), 0, q);
  }

  /** `writeExport` accepts `cjs` and `commonjs` (CommonJS), `es6` and `module` (an ES
      module) and no option at all, and rejects everything else (src/compile.js:88-111). */
  lemma ExportOptions(output: Option<string>)
    ensures WriteExport(output).Ok?
            <==> output.None? || output.value in ["cjs", "commonjs", "es6", "module"]
    ensures output.Some? && output.value in ["cjs", "commonjs"] ==> WriteExport(output) == Ok("module.exports = ")
    ensures output.Some? && output.value in ["es6", "module"] ==> WriteExport(output) == Ok("export default ")
    ensures output.None? ==> WriteExport(output) == Ok("")
  {
  }

  /** An unknown `output` option is reported after the nodes are written
      (src/compile.js:88-111). */
  lemma CompileInvalidOutput(nodes: seq<Node>, opts: Options)
    requires AllWellFormed(nodes)
    requires SelectWriter(opts.writer).Ok? && EmitSeq(SelectWriter(opts.writer).value, nodes, StartDepth(opts.useWith), 0).Ok?
    requires WriteExport(opts.output).Err?
    ensures CompileSpec(nodes, opts) == Err(InvalidOutput(opts.output.value))
  {
  }

  /** A successful compile is the export prefix and the writer's intro first, one part
      and the writer's outro last (src/compile.js:57-86). */
  lemma CompileLayout(nodes: seq<Node>, opts: Options)
    requires AllWellFormed(nodes) && CompileSpec(nodes, opts).Ok?
    ensures var w := SelectWriter(opts.writer).value;
            WriteExport(opts.output).value + IntroText(w, opts.name) + "\n" <= CompileSpec(nodes, opts).value
            && EndsWith(CompileSpec(nodes, opts).value, "\n" + OutroText(w) + "\n")
  {
    var w := SelectWriter(opts.writer).value;
    var parts := EmitSeq(w, nodes, StartDepth(opts.useWith), 0).value.0;
    Framed(WriteExport(opts.output).value + IntroText(w, opts.name) + "\n",
           WithIntro(opts.useWith) + "\n" + "" + "\n" + Join(parts, "\n") + "\n" + WithOutro(opts.useWith),
           "\n" + OutroText(w) + "\n");
  }
}

/** The string-literal escaper shared by the compiler and both writers
    (src/helpers/escapeString.js): every character is mapped on its own and the
    results are concatenated. */
module Escaping {

  const VerticalTab: char := '\U{000B}'
  const Backspace: char := '\U{0008}'
  const FormFeed: char := '\U{000C}'

  /** The eleven characters the escaper rewrites. */
  predicate IsSpecial(c: char)
  {
    c == '\0' || c == '"' || c == '\'' || c == '`' || c == '\\' || c == '\n'
    || c == '\r' || c == VerticalTab || c == '\t' || c == Backspace || c == FormFeed
  }

  /** Characters that end a line or are otherwise invisible in generated source. */
  predicate IsControl(c: char)
  {
    c == '\0' || c == '\n' || c == '\r' || c == VerticalTab || c == '\t' || c == Backspace || c == FormFeed
  }

  /** The letter written after the backslash for a special character. */
  function EscapeLetter(c: char): char
    requires IsSpecial(c)
  {
    if c == '\0' then '0'
    else if c == '\n' then 'n'
    else if c == '\r' then 'r'
    else if c == VerticalTab then 'v'
    else if c == '\t' then 't'
    else if c == Backspace then 'b'
    else if c == FormFeed then 'f'
    else c  // the three quotes and the backslash stand for themselves
  }

  /** The `switch` applied to one character. */
  function EscapeChar(c: char): string
  {
    if IsSpecial(c) then ['\\', EscapeLetter(c)] else [c]
  }

  /** `escapeString(s)`. */
  function Escape(s: string): string
  {
    if s == [] then [] else EscapeChar(s[0]) + Escape(s[1..])
  }

  /** `texts.map(escapeString)` over strings. */
  function EscapeEach(texts: seq<string>): (r: seq<string>)
    ensures |r| == |texts| && forall i :: 0 <= i < |texts| ==> r[i] == Escape(texts[i])
  {
    if texts == [] then [] else [Escape(texts[0])] + EscapeEach(texts[1..])
  }

  function CountSpecial(s: string): nat
  {
    if s == [] then 0 else (if IsSpecial(s[0]) then 1 else 0) + CountSpecial(s[1..])
  }

  predicate NoSpecial(s: string)
  {
    forall k :: 0 <= k < |s| ==> !IsSpecial(s[k])
  }

  /** Escaping distributes over concatenation. */
  lemma {:induction false} EscapeAppend(a: string, b: string)
    ensures Escape(a + b) == Escape(a) + Escape(b)
  {
    if a != [] {
      assert (a + b)[0] == a[0];
      assert (a + b)[1..] == a[1..] + b;
      EscapeAppend(a[1..], b);
    } else {
      assert a + b == b;
    }
  }

  /** Each special character costs exactly one extra character. */
  lemma {:induction false} EscapeLength(s: string)
    ensures |Escape(s)| == |s| + CountSpecial(s)
  {
    if s != [] {
      EscapeLength(s[1..]);
    }
  }

  /** A text has no special character when its head is not special and neither is
      anything in its tail. */
  lemma NoSpecialCons(s: string)
    requires s != []
    ensures NoSpecial(s) <==> !IsSpecial(s[0]) && NoSpecial(s[1..])
  {
    if NoSpecial(s) {
      forall k | 0 <= k < |s[1..]|
        ensures !IsSpecial(s[1..][k])
      {
        assert s[1..][k] == s[k + 1];
      }
    }
    if !IsSpecial(s[0]) && NoSpecial(s[1..]) {
      forall k | 0 <= k < |s|
        ensures !IsSpecial(s[k])
      {
        if k > 0 {
          assert s[k] == s[1..][k - 1];
        }
      }
    }
  }

  lemma {:induction false} CountSpecialZero(s: string)
    ensures CountSpecial(s) == 0 <==> NoSpecial(s)
  {
    if s != [] {
      CountSpecialZero(s[1..]);
      NoSpecialCons(s);
    }
  }

  /** Escaping leaves a text unchanged exactly when it holds no special character. */
  lemma EscapeIdentity(s: string)
    ensures Escape(s) == s <==> NoSpecial(s)
  {
    EscapeLength(s);
    CountSpecialZero(s);
    if NoSpecial(s) {
      EscapeIdentityPlain(s);
    }
  }

  lemma {:induction false} EscapeIdentityPlain(s: string)
    requires NoSpecial(s)
    ensures Escape(s) == s
  {
    if s != [] {
      NoSpecialCons(s);
      EscapeIdentityPlain(s[1..]);
      assert s == [s[0]] + s[1..];
    }
  }

  /** The escaped text never holds a raw line break, tab, NUL, `\v`, `\b` or `\f`. */
  lemma {:induction false} EscapeHasNoControl(s: string)
    ensures forall k :: 0 <= k < |Escape(s)| ==> !IsControl(Escape(s)[k])
  {
    if s != [] {
      EscapeHasNoControl(s[1..]);
      var head, tail := EscapeChar(s[0]), Escape(s[1..]);
      forall k | 0 <= k < |head + tail|
        ensures !IsControl((head + tail)[k])
      {
        if k >= |head| { assert (head + tail)[k] == tail[k - |head|]; }
      }
    }
  }

  /** Reading an escaped text back: a backslash pair stands for the character whose
      escape letter follows it, any other character for itself. */
  function Unescape(e: string): string
  {
    if e == [] then []
    else if e[0] == '\\' && |e| >= 2 then [Unletter(e[1])] + Unescape(e[2..])
    else [e[0]] + Unescape(e[1..])
  }

  function Unletter(l: char): char
  {
    if l == '0' then '\0'
    else if l == 'n' then '\n'
    else if l == 'r' then '\r'
    else if l == 'v' then VerticalTab
    else if l == 't' then '\t'
    else if l == 'b' then Backspace
    else if l == 'f' then FormFeed
    else l
  }

  /** The text, read as the inside of a quoted literal, is a sequence of backslash pairs
      and ordinary characters: no quote or backslash stands alone and no line breaks. */
  predicate LiteralSafe(e: string)
  {
    if e == [] then true
    else if e[0] == '\\' then |e| >= 2 && LiteralSafe(e[2..])
    else !IsSpecial(e[0]) && LiteralSafe(e[1..])
  }

  /** Reading the escaped text back gives the original, and the escaped text is safe to
      place between quotes. */
  lemma {:induction false} UnescapeEscape(s: string)
    ensures Unescape(Escape(s)) == s
    ensures LiteralSafe(Escape(s))
  {
    if s != [] {
      UnescapeEscape(s[1..]);
      var head, tail := EscapeChar(s[0]), Escape(s[1..]);
      assert Escape(s) == head + tail;
      if IsSpecial(s[0]) {
        assert (head + tail)[2..] == tail;
      } else {
        assert (head + tail)[1..] == tail;
      }
    }
  }

  /** Distinct texts have distinct escapes. */
  lemma EscapeInjective(a: string, b: string)
    requires Escape(a) == Escape(b)
    ensures a == b
  {
    UnescapeEscape(a);
    UnescapeEscape(b);
  }
}

/** Text helpers the JavaScript gets from its runtime: `Array.prototype.join`,
    `String.prototype.repeat`, number-to-decimal conversion and `toLowerCase`. */
module Strings {

  /** `parts.join(sep)`: the parts in order with `sep` between neighbours. */
  function Join(parts: seq<string>, sep: string): string
  {
    if |parts| == 0 then ""
    else if |parts| == 1 then parts[0]
    else parts[0] + sep + Join(parts[1..], sep)
  }

  /** `t` is a suffix of `s`. */
  predicate EndsWith(s: string, t: string)
  {
    |t| <= |s| && s[|s| - |t|..] == t
  }

  /** Joining splits at the last part: everything before it, the separator, then it. */
  lemma {:induction false} JoinSnoc(parts: seq<string>, last: string, sep: string)
    requires |parts| >= 1
    ensures Join(parts + [last], sep) == Join(parts, sep) + sep + last
  {
    if |parts| == 1 {
      assert parts + [last] == [parts[0], last];
      assert [parts[0], last][1..] == [last];
    } else {
      assert (parts + [last])[1..] == parts[1..] + [last];
      JoinSnoc(parts[1..], last, sep);
    }
  }

  /** The joined text of two non-empty lists is the two joined texts glued by one separator. */
  lemma {:induction false} JoinAppend(a: seq<string>, b: seq<string>, sep: string)
    requires |a| >= 1 && |b| >= 1
    ensures Join(a + b, sep) == Join(a, sep) + sep + Join(b, sep)
  {
    if |a| == 1 {
      assert a + b == [a[0]] + b;
      assert (a + b)[1..] == b;
    } else {
      assert (a + b)[1..] == a[1..] + b;
      JoinAppend(a[1..], b, sep);
    }
  }

  /** The first part followed by the separator starts the joined text, and the separator
      followed by the last part ends it, whenever there are at least two parts. */
  lemma FirstAndLastPart(parts: seq<string>, sep: string)
    requires |parts| >= 2
    ensures parts[0] + sep <= Join(parts, sep)
    ensures EndsWith(Join(parts, sep), sep + parts[|parts| - 1])
  {
    var init := parts[..|parts| - 1];
    assert parts == init + [parts[|parts| - 1]];
    JoinSnoc(init, parts[|parts| - 1], sep);
  }

  /** A text framed by a head and a tail starts with the head and ends with the tail. */
  lemma Framed(head: string, body: string, tail: string)
    ensures head <= head + body + tail
    ensures EndsWith(head + body + tail, tail)
  {
    assert (head + body + tail)[..|head|] == head;
    assert (head + body + tail)[|head + body|..] == tail;
  }

  /** `' '.repeat(n)`. */
  function Spaces(n: nat): (r: string)
    ensures |r| == n && forall k :: 0 <= k < n ==> r[k] == ' '
  {
    seq(n, _ => ' ')
  }

  function DigitChar(d: nat): (c: char)
    requires d < 10
    ensures '0' <= c <= '9'
  {
    (48 + d) as char
  }

  /** The decimal text of a natural number, as JavaScript prints it in a template string. */
  function NatToString(n: nat): (r: string)
    ensures |r| >= 1 && (n >= 10 ==> |r| >= 2)
    ensures forall k :: 0 <= k < |r| ==> '0' <= r[k] <= '9'
    decreases n
  {
    if n < 10 then [DigitChar(n)] else NatToString(n / 10) + [DigitChar(n % 10)]
  }

  /** Different numbers print differently. */
  lemma {:induction false} NatToStringInjective(a: nat, b: nat)
    requires NatToString(a) == NatToString(b)
    ensures a == b
    decreases a
  {
    var ra, rb := NatToString(a), NatToString(b);
    if a < 10 && b < 10 {
      assert ra[0] == DigitChar(a) && rb[0] == DigitChar(b);
    } else if a >= 10 && b >= 10 {
      assert ra[|ra| - 1] == DigitChar(a % 10);
      assert rb[|rb| - 1] == DigitChar(b % 10);
      assert ra[..|ra| - 1] == NatToString(a / 10);
      assert rb[..|rb| - 1] == NatToString(b / 10);
      NatToStringInjective(a / 10, b / 10);
    } else {
      // one text has a single digit and the other at least two
      assert false;
    }
  }

  /** ASCII part of `String.prototype.toLowerCase`. */
  function LowerChar(c: char): char
  {
    if 'A' <= c <= 'Z' then (c as int + 32) as char else c
  }

  function Lower(s: string): (r: string)
    ensures |r| == |s| && forall k :: 0 <= k < |s| ==> r[k] == LowerChar(s[k])
  {
    seq(|s|, k requires 0 <= k < |s| => LowerChar(s[k]))
  }

  /** A name lower-cases to `if` exactly when it is `if` in any mix of cases. */
  lemma LowerIsIf(s: string)
    ensures Lower(s) == "if" <==> |s| == 2 && s[0] in "iI" && s[1] in "fF"
  {
    if |s| == 2 && s[0] in "iI" && s[1] in "fF" {
      assert Lower(s)[0] == 'i' && Lower(s)[1] == 'f';
    }
    if Lower(s) == "if" {
      assert LowerChar(s[0]) == 'i' && LowerChar(s[1]) == 'f';
    }
  }

  /** A name lower-cases to `for` exactly when it is `for` in any mix of cases. */
  lemma LowerIsFor(s: string)
    ensures Lower(s) == "for" <==> |s| == 3 && s[0] in "fF" && s[1] in "oO" && s[2] in "rR"
  {
    if |s| == 3 && s[0] in "fF" && s[1] in "oO" && s[2] in "rR" {
      assert Lower(s)[0] == 'f' && Lower(s)[1] == 'o' && Lower(s)[2] == 'r';
    }
    if Lower(s) == "for" {
      assert LowerChar(s[0]) == 'f' && LowerChar(s[1]) == 'o' && LowerChar(s[2]) == 'r';
    }
  }
}

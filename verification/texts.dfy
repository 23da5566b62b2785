/**
 * The parts of Go's `strings` package and of Go's byte-oriented string
 * length that the bot relies on.
 *
 * Text is a sequence of Unicode code points. Go strings are UTF-8 byte
 * sequences: Go's `len` is modelled as `ByteLen`, the length of the UTF-8
 * encoding. Prefix, containment, replacement and splitting work on code
 * points, which for valid UTF-8 text finds exactly the matches the byte-level
 * Go functions find (UTF-8 is self-synchronising).
 */
module Texts {

  newtype byte = b: int | 0 <= b < 0x100

  // ---------------------------------------------------------------------
  // UTF-8 and Go's len
  // ---------------------------------------------------------------------

  /** The UTF-8 encoding of one code point. */
  function EncodeRune(c: char): (bs: seq<byte>)
    ensures 1 <= |bs| <= 4
    ensures |bs| == 1 <==> (c as int) < 0x80
    ensures |bs| > 1 ==> bs[0] >= 0xC0
    ensures forall i :: 1 <= i < |bs| ==> 0x80 <= bs[i] < 0xC0
  {
    var v := c as int;
    if v < 0x80 then
      [v as byte]
    else if v < 0x800 then
      [(0xC0 + v / 0x40) as byte, (0x80 + v % 0x40) as byte]
    else if v < 0x10000 then
      [(0xE0 + v / 0x1000) as byte, (0x80 + v / 0x40 % 0x40) as byte, (0x80 + v % 0x40) as byte]
    else
      [(0xF0 + v / 0x40000) as byte, (0x80 + v / 0x1000 % 0x40) as byte,
       (0x80 + v / 0x40 % 0x40) as byte, (0x80 + v % 0x40) as byte]
  }

  /** Reads back the code point of one well-formed UTF-8 sequence. */
  function DecodeRune(bs: seq<byte>): int
    requires 1 <= |bs| <= 4
  {
    if |bs| == 1 then
      bs[0] as int
    else if |bs| == 2 then
      (bs[0] as int - 0xC0) * 0x40 + (bs[1] as int - 0x80)
    else if |bs| == 3 then
      (bs[0] as int - 0xE0) * 0x1000 + (bs[1] as int - 0x80) * 0x40 + (bs[2] as int - 0x80)
    else
      (bs[0] as int - 0xF0) * 0x40000 + (bs[1] as int - 0x80) * 0x1000
      + (bs[2] as int - 0x80) * 0x40 + (bs[3] as int - 0x80)
  }

  /** Decoding undoes encoding, so the byte length below is that of a faithful encoding. */
  lemma DecodeEncodeRune(c: char)
    ensures DecodeRune(EncodeRune(c)) == c as int
  {
    var v := c as int;
    if v < 0x80 {
    } else if v < 0x800 {
      DecodeEncodeTwo(v);
    } else if v < 0x10000 {
      DecodeEncodeThree(v);
    } else {
      DecodeEncodeFour(v);
    }
  }

  lemma DecodeEncodeTwo(v: int)
    requires 0x80 <= v < 0x800
    ensures (v / 0x40) * 0x40 + v % 0x40 == v
  {
  }

  lemma DecodeEncodeThree(v: int)
    requires 0x800 <= v < 0x10000
    ensures (v / 0x1000) * 0x1000 + (v / 0x40 % 0x40) * 0x40 + v % 0x40 == v
  {
    var q := v / 0x40;
    assert q * 0x40 + v % 0x40 == v;
    assert (q / 0x40) * 0x40 + q % 0x40 == q;
    assert q / 0x40 == v / 0x1000;
  }

  lemma DecodeEncodeFour(v: int)
    requires 0x10000 <= v < 0x110000
    ensures (v / 0x40000) * 0x40000 + (v / 0x1000 % 0x40) * 0x1000 + (v / 0x40 % 0x40) * 0x40 + v % 0x40 == v
  {
    var q := v / 0x40;
    var q2 := q / 0x40;
    assert q * 0x40 + v % 0x40 == v;
    assert q2 * 0x40 + q % 0x40 == q;
    assert (q2 / 0x40) * 0x40 + q2 % 0x40 == q2;
    assert q2 == v / 0x1000;
    assert q2 / 0x40 == v / 0x40000;
  }

  /** The UTF-8 encoding of a text: the bytes a Go string holds. */
  function Encode(s: string): seq<byte>
  {
    if |s| == 0 then [] else EncodeRune(s[0]) + Encode(s[1..])
  }

  /** Go's `len(s)`: the number of bytes, not of characters. */
  function ByteLen(s: string): (n: nat)
    ensures n == |Encode(s)|
    ensures |s| <= n <= 4 * |s|
  {
    if |s| == 0 then 0 else |EncodeRune(s[0])| + ByteLen(s[1..])
  }

  lemma {:induction false} ByteLenAppend(a: string, b: string)
    ensures ByteLen(a + b) == ByteLen(a) + ByteLen(b)
    decreases |a|
  {
    if |a| == 0 {
      assert a + b == b;
    } else {
      assert (a + b)[1..] == a[1..] + b;
      ByteLenAppend(a[1..], b);
    }
  }

  /** On ASCII text bytes and characters coincide. */
  lemma {:induction false} ByteLenAscii(s: string)
    requires forall i :: 0 <= i < |s| ==> (s[i] as int) < 0x80
    ensures ByteLen(s) == |s|
    decreases |s|
  {
    if |s| > 0 {
      ByteLenAscii(s[1..]);
    }
  }

  /** Text in the two-byte range (Cyrillic among it) takes two bytes per character. */
  lemma {:induction false} ByteLenTwoByte(s: string)
    requires forall i :: 0 <= i < |s| ==> 0x80 <= (s[i] as int) < 0x800
    ensures ByteLen(s) == 2 * |s|
    decreases |s|
  {
    if |s| > 0 {
      ByteLenTwoByte(s[1..]);
    }
  }

  // ---------------------------------------------------------------------
  // Searching
  // ---------------------------------------------------------------------

  /** Go's `strings.HasPrefix(s, p)`. */
  predicate HasPrefix(s: string, p: string)
  {
    |p| <= |s| && s[..|p|] == p
  }

  /** Go's `strings.Contains(s, p)`: `p` occurs at some position of `s`. */
  function Contains(s: string, p: string): (r: bool)
    ensures r <==> exists i :: 0 <= i <= |s| && HasPrefix(s[i..], p)
    decreases |s|
  {
    if HasPrefix(s, p) then
      assert HasPrefix(s[0..], p);
      true
    else if |s| == 0 then
      false
    else
      assert forall i :: 1 <= i <= |s| ==> s[i..] == s[1..][i - 1..];
      Contains(s[1..], p)
  }

  /** Whoever contains a pattern contains every prefix of it. */
  lemma ContainsPrefixOfPattern(s: string, p: string, q: string)
    requires Contains(s, p)
    requires HasPrefix(p, q)
    ensures Contains(s, q)
  {
    var i :| 0 <= i <= |s| && HasPrefix(s[i..], p);
    assert s[i..][..|q|] == p[..|q|];
    assert HasPrefix(s[i..], q);
  }

  /**
   * When the first character of `p` does not occur in `a`, an occurrence of
   * `p` in `a + b` lies entirely in `b`.
   */
  lemma {:induction false} ContainsPastHeadless(a: string, b: string, p: string)
    requires |p| > 0
    requires forall i :: 0 <= i < |a| ==> a[i] != p[0]
    ensures Contains(a + b, p) == Contains(b, p)
    decreases |a|
  {
    if |a| == 0 {
      assert a + b == b;
    } else {
      assert (a + b)[0] == a[0];
      assert !HasPrefix(a + b, p);
      assert (a + b)[1..] == a[1..] + b;
      ContainsPastHeadless(a[1..], b, p);
    }
  }

  /**
   * When `p[0]` occurs in `a` only at its head, an occurrence of `p` in
   * `a + b` either starts at position 0 or lies entirely in `b`.
   */
  lemma ContainsAfterHead(a: string, b: string, p: string)
    requires |a| > 0 && |p| > 0
    requires forall i :: 1 <= i < |a| ==> a[i] != p[0]
    ensures Contains(a + b, p) <==> HasPrefix(a + b, p) || Contains(b, p)
  {
    assert (a + b)[1..] == a[1..] + b;
    ContainsPastHeadless(a[1..], b, p);
  }

  // ---------------------------------------------------------------------
  // Replacing
  // ---------------------------------------------------------------------

  /**
   * Go's `strings.ReplaceAll(s, pat, repl)`: every leftmost, non-overlapping
   * occurrence of `pat` becomes `repl`; an empty `pat` matches before every
   * character and at the end.
   */
  function ReplaceAll(s: string, pat: string, repl: string): (r: string)
    ensures |pat| > 0 && !Contains(s, pat) ==> r == s
    decreases |s|
  {
    if |pat| == 0 then
      if |s| == 0 then repl else repl + [s[0]] + ReplaceAll(s[1..], pat, repl)
    else if |s| == 0 then
      []
    else if HasPrefix(s, pat) then
      repl + ReplaceAll(s[|pat|..], pat, repl)
    else
      [s[0]] + ReplaceAll(s[1..], pat, repl)
  }

  /** A text that starts with the pattern gets the replacement at its head. */
  lemma ReplaceAllAtHead(p: string, rest: string, q: string)
    requires |p| > 0
    ensures ReplaceAll(p + rest, p, q) == q + ReplaceAll(rest, p, q)
  {
    assert HasPrefix(p + rest, p);
    assert (p + rest)[|p|..] == rest;
  }

  // ---------------------------------------------------------------------
  // Splitting and joining
  // ---------------------------------------------------------------------

  /** Go's `strings.Split(s, sep)`. */
  function Split(s: string, sep: string): (parts: seq<string>)
    ensures |sep| > 0 ==> |parts| > 0
  {
    if |sep| == 0 then Explode(s) else SplitFrom(s, sep, [])
  }

  /** With an empty separator Go splits into single characters. */
  function Explode(s: string): (parts: seq<string>)
    ensures |parts| == |s|
  {
    if |s| == 0 then [] else [[s[0]]] + Explode(s[1..])
  }

  /** Splitting `s` when `field` has already been read into the current field. */
  function SplitFrom(s: string, sep: string, field: string): (parts: seq<string>)
    requires |sep| > 0
    ensures |parts| > 0
    decreases |s|
  {
    if |s| == 0 then
      [field]
    else if HasPrefix(s, sep) then
      [field] + SplitFrom(s[|sep|..], sep, [])
    else
      SplitFrom(s[1..], sep, field + [s[0]])
  }

  /** Go's `strings.Join(parts, sep)`. */
  function Join(parts: seq<string>, sep: string): string
  {
    if |parts| == 0 then []
    else if |parts| == 1 then parts[0]
    else parts[0] + sep + Join(parts[1..], sep)
  }

  lemma {:induction false} JoinExplode(s: string)
    ensures Join(Explode(s), []) == s
    decreases |s|
  {
    if |s| > 1 {
      JoinExplode(s[1..]);
      assert Explode(s)[1..] == Explode(s[1..]);
    }
  }

  lemma {:induction false} JoinSplitFrom(s: string, sep: string, field: string, glue: string)
    requires |sep| > 0
    ensures Join(SplitFrom(s, sep, field), glue) == field + ReplaceAll(s, sep, glue)
    decreases |s|
  {
    if |s| == 0 {
    } else if HasPrefix(s, sep) {
      JoinSplitFrom(s[|sep|..], sep, [], glue);
      assert ([field] + SplitFrom(s[|sep|..], sep, []))[1..] == SplitFrom(s[|sep|..], sep, []);
    } else {
      JoinSplitFrom(s[1..], sep, field + [s[0]], glue);
    }
  }

  /** Joining the pieces of a split with the same separator restores the text. */
  lemma SplitJoinRoundTrip(s: string, sep: string)
    ensures Join(Split(s, sep), sep) == s
  {
    if |sep| == 0 {
      JoinExplode(s);
    } else {
      JoinSplitFrom(s, sep, [], sep);
      ReplaceAllIdentity(s, sep);
    }
  }

  /** Replacing a non-empty pattern with itself changes nothing. */
  lemma {:induction false} ReplaceAllIdentity(s: string, p: string)
    requires |p| > 0
    ensures ReplaceAll(s, p, p) == s
    decreases |s|
  {
    if |s| > 0 {
      if HasPrefix(s, p) {
        ReplaceAllIdentity(s[|p|..], p);
        assert s == s[..|p|] + s[|p|..];
      } else {
        ReplaceAllIdentity(s[1..], p);
      }
    }
  }

  /** Replacing a non-empty pattern is splitting on it and joining with the replacement. */
  lemma ReplaceAllIsSplitJoin(s: string, pat: string, repl: string)
    requires |pat| > 0
    ensures ReplaceAll(s, pat, repl) == Join(Split(s, pat), repl)
  {
    JoinSplitFrom(s, pat, [], repl);
  }

  // ---------------------------------------------------------------------
  // Counting fields
  // ---------------------------------------------------------------------

  /** The number of occurrences of character `c` in `s`. */
  function CountChar(s: string, c: char): (n: nat)
    ensures n == multiset(s)[c]
  {
    if |s| == 0 then 0
    else
      assert s == [s[0]] + s[1..];
      (if s[0] == c then 1 else 0) + CountChar(s[1..], c)
  }

  lemma {:induction false} SplitFromCount(s: string, c: char, field: string)
    ensures |SplitFrom(s, [c], field)| == CountChar(s, c) + 1
    decreases |s|
  {
    if |s| > 0 {
      if HasPrefix(s, [c]) {
        SplitFromCount(s[1..], c, []);
      } else {
        SplitFromCount(s[1..], c, field + [s[0]]);
      }
    }
  }

  /**
   * `len(strings.Split(text, " "))`, the bot's word count, is the number of
   * spaces plus one.
   */
  lemma SplitCountIsSpacesPlusOne(s: string)
    ensures |Split(s, " ")| == CountChar(s, ' ') + 1
  {
    SplitFromCount(s, ' ', []);
  }

  lemma {:induction false} SplitFromSkipsWord(a: string, rest: string, field: string)
    requires ' ' !in a
    ensures SplitFrom(a + rest, " ", field) == SplitFrom(rest, " ", field + a)
    decreases |a|
  {
    if |a| == 0 {
      assert a + rest == rest;
      assert field + a == field;
    } else {
      assert (a + rest)[0] == a[0];
      assert (a + rest)[1..] == a[1..] + rest;
      SplitFromSkipsWord(a[1..], rest, field + [a[0]]);
      assert field + [a[0]] + a[1..] == field + a;
    }
  }

  /** Two space-free words joined by one space split back into exactly those words. */
  lemma SplitTwoWords(a: string, b: string)
    requires ' ' !in a && ' ' !in b
    ensures Split(a + " " + b, " ") == [a, b]
  {
    assert a + " " + b == a + (" " + b);
    SplitFromSkipsWord(a, " " + b, []);
    assert [] + a == a;
    assert HasPrefix(" " + b, " ");
    assert (" " + b)[1..] == b;
    assert SplitFrom(" " + b, " ", a) == [a] + SplitFrom(b, " ", []);
    SplitFromSkipsWord(b, [], []);
    assert b + [] == b && [] + b == b;
    assert SplitFrom([], " ", b) == [b];
  }
}

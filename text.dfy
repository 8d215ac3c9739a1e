/** The JavaScript string built-ins the core relies on: `String.prototype.split`
    with a literal separator, `Array.prototype.join`, the whitespace test behind
    `trim()`, and `toUpperCase` on ASCII letters. */
module Text {

  /** `s.split(sep)` for a non-empty literal separator: scanning from the left,
      each occurrence of `sep` ends one part, occurrences do not overlap, and the
      text after the last occurrence is the last part. */
  function Split(s: string, sep: string): (parts: seq<string>)
    requires sep != []
    ensures |parts| >= 1
    decreases |s|
  {
    if |s| < |sep| then [s]
    else if s[..|sep|] == sep then [[]] + Split(s[|sep|..], sep)
    else
      var rest := Split(s[1..], sep);
      [[s[0]] + rest[0]] + rest[1..]
  }

  /** `parts.join(sep)`; joining no parts gives the empty string. */
  function Join(parts: seq<string>, sep: string): string
  {
    if |parts| == 0 then []
    else if |parts| == 1 then parts[0]
    else parts[0] + sep + Join(parts[1..], sep)
  }

  lemma JoinPrependToHead(x: string, parts: seq<string>, sep: string)
    requires |parts| >= 1
    ensures Join([x + parts[0]] + parts[1..], sep) == x + Join(parts, sep)
  {
    var q := [x + parts[0]] + parts[1..];
    assert q[1..] == parts[1..];
  }

  /** Joining the parts of a split with the same separator gives back the text. */
  lemma {:induction false} JoinSplit(s: string, sep: string)
    requires sep != []
    ensures Join(Split(s, sep), sep) == s
    decreases |s|
  {
    if |s| < |sep| {
    } else if s[..|sep|] == sep {
      var rest := Split(s[|sep|..], sep);
      JoinSplit(s[|sep|..], sep);
      assert ([[]] + rest)[1..] == rest;
      calc {
        Join([[]] + rest, sep);
        [] + sep + Join(rest, sep);
        s[..|sep|] + s[|sep|..];
        s;
      }
    } else {
      var rest := Split(s[1..], sep);
      JoinSplit(s[1..], sep);
      JoinPrependToHead([s[0]], rest, sep);
      assert [s[0]] + s[1..] == s;
    }
  }

  /** No part of a split on a one-character separator contains that character. */
  lemma {:induction false} SplitPartsFree(s: string, c: char)
    ensures forall i :: 0 <= i < |Split(s, [c])| ==> c !in Split(s, [c])[i]
    decreases |s|
  {
    if |s| < 1 {
    } else if s[..1] == [c] {
      SplitPartsFree(s[1..], c);
    } else {
      SplitPartsFree(s[1..], c);
      assert s[0] != c by { assert s[..1] == [s[0]]; }
    }
  }

  /** Splitting text that starts with a piece free of the separator character
      glues that piece onto the first part. */
  lemma {:induction false} SplitFreePrefix(x: string, rest: string, c: char)
    requires c !in x
    ensures Split(x + rest, [c]) == [x + Split(rest, [c])[0]] + Split(rest, [c])[1..]
    decreases |x|
  {
    if x == [] {
      var r := Split(rest, [c]);
      assert x + rest == rest && x + r[0] == r[0];
      assert [r[0]] + r[1..] == r;
    } else {
      var s := x + rest;
      assert s[..1] == [x[0]] && x[0] != c;
      assert s[1..] == x[1..] + rest;
      SplitFreePrefix(x[1..], rest, c);
      assert [x[0]] + (x[1..] + Split(rest, [c])[0]) == x + Split(rest, [c])[0];
    }
  }

  /** Splitting a join on a one-character separator gives back the parts, as
      long as no part contains that character. */
  lemma {:induction false} SplitJoin(parts: seq<string>, c: char)
    requires |parts| >= 1
    requires forall i :: 0 <= i < |parts| ==> c !in parts[i]
    ensures Split(Join(parts, [c]), [c]) == parts
    decreases |parts|
  {
    if |parts| == 1 {
      SplitFreePrefix(parts[0], [], c);
      assert parts[0] + [] == parts[0];
    } else {
      var tail := Join(parts[1..], [c]);
      SplitJoin(parts[1..], c);
      var after := [c] + tail;
      assert after[..1] == [c] && after[1..] == tail;
      assert Split(after, [c]) == [[]] + parts[1..];
      assert Join(parts, [c]) == parts[0] + after;
      SplitFreePrefix(parts[0], after, c);
      assert parts[0] + [] == parts[0];
      assert [parts[0]] + parts[1..] == parts;
    }
  }

  /** The characters `String.prototype.trim` removes: ECMAScript WhiteSpace
      (tab, vertical tab, form feed, space, no-break space, byte order mark and
      the Unicode space separators) and LineTerminator. */
  predicate IsJsWhitespace(ch: char) {
    ch == '\t' || ch == '\n' || ch == '\U{B}' || ch == '\U{C}' || ch == '\r' ||
    ch == ' ' || ch == '\U{A0}' || ch == '\U{1680}' ||
    ('\U{2000}' <= ch <= '\U{200A}') ||
    ch == '\U{2028}' || ch == '\U{2029}' || ch == '\U{202F}' || ch == '\U{205F}' ||
    ch == '\U{3000}' || ch == '\U{FEFF}'
  }

  /** `s.trim() === ''`: every character is whitespace. */
  predicate IsBlank(s: string) {
    forall i :: 0 <= i < |s| ==> IsJsWhitespace(s[i])
  }

  /** `toUpperCase` restricted to the ASCII letters a-z. */
  function AsciiUpper(s: string): (r: string)
    ensures |r| == |s|
    ensures forall i :: 0 <= i < |s| ==>
      if 'a' <= s[i] <= 'z' then r[i] as int == s[i] as int - 32 else r[i] == s[i]
  {
    if s == [] then []
    else
      var c := s[0];
      [if 'a' <= c <= 'z' then (c as int - 32) as char else c] + AsciiUpper(s[1..])
  }
}

/** The string operations the core relies on: whitespace trimming, ASCII
    lower-casing, splitting on a separator character and joining. */
module Strings {

  /** Whose whitespace rule applies: Python's `str.strip()` (the legacy
      server) or ECMAScript's `String.prototype.trim()` (the player). */
  datatype Runtime = Python | JavaScript

  /** The characters both runtimes treat as whitespace: the controls tab to
      carriage return, the space separators of Unicode, and the line and
      paragraph separators. */
  predicate SharedSpace(c: char) {
    || ('\t' <= c <= '\r')
    || c == ' ' || c == '\U{00A0}' || c == '\U{1680}'
    || ('\U{2000}' <= c <= '\U{200A}')
    || c == '\U{2028}' || c == '\U{2029}' || c == '\U{202F}' || c == '\U{205F}' || c == '\U{3000}'
  }

  /** `str.isspace()` also holds for the four information separators
      U+001C..U+001F and for NEXT LINE U+0085; ECMAScript instead counts the
      byte order mark U+FEFF as white space. */
  predicate IsSpace(rt: Runtime, c: char) {
    match rt
    case Python => SharedSpace(c) || ('\U{001C}' <= c <= '\U{001F}') || c == '\U{0085}'
    case JavaScript => SharedSpace(c) || c == '\U{FEFF}'
  }

  predicate AllSpace(rt: Runtime, s: string) {
    forall i :: 0 <= i < |s| ==> IsSpace(rt, s[i])
  }

  function TrimStart(rt: Runtime, s: string): (r: string)
    ensures |r| <= |s|
    ensures r == s[|s| - |r|..]
    ensures r != [] ==> !IsSpace(rt, r[0])
    ensures AllSpace(rt, s[..|s| - |r|])
  {
    if s != [] && IsSpace(rt, s[0]) then TrimStart(rt, s[1..]) else s
  }

  function TrimEnd(rt: Runtime, s: string): (r: string)
    ensures |r| <= |s|
    ensures r == s[..|r|]
    ensures r != [] ==> !IsSpace(rt, r[|r| - 1])
    ensures AllSpace(rt, s[|r|..])
  {
    if s != [] && IsSpace(rt, s[|s| - 1]) then TrimEnd(rt, s[..|s| - 1]) else s
  }

  /** `s.strip()` under Python, `s.trim()` under JavaScript. */
  function Trim(rt: Runtime, s: string): string {
    TrimEnd(rt, TrimStart(rt, s))
  }

  /** A trimmed string neither starts nor ends with whitespace. */
  lemma TrimHasNoOuterSpace(rt: Runtime, s: string)
    ensures Trim(rt, s) != [] ==> !IsSpace(rt, Trim(rt, s)[0]) && !IsSpace(rt, Trim(rt, s)[|Trim(rt, s)| - 1])
  {
    var t := TrimStart(rt, s);
    var r := TrimEnd(rt, t);
    if r != [] {
      assert r[0] == t[0];
    }
  }

  /** Trimming a trimmed string changes nothing. */
  lemma TrimIdempotent(rt: Runtime, s: string)
    ensures Trim(rt, Trim(rt, s)) == Trim(rt, s)
  {
    var r := Trim(rt, s);
    TrimHasNoOuterSpace(rt, s);
    if r != [] {
      assert TrimStart(rt, r) == r;
      assert TrimEnd(rt, r) == r;
    }
  }

  /** Trimming only removes characters: every character of the result occurs in the input. */
  lemma TrimKeepsCharacters(rt: Runtime, s: string)
    ensures forall c :: c in Trim(rt, s) ==> c in s
  {
    var t := TrimStart(rt, s);
    var r := TrimEnd(rt, t);
    forall c | c in r ensures c in s {
      var i :| 0 <= i < |r| && r[i] == c;
      assert t[i] == c;
      assert s[|s| - |t| + i] == c;
    }
  }

  /** `!s.trim()`: the trimmed string is empty exactly when every character is whitespace. */
  lemma TrimEmptyIffAllSpace(rt: Runtime, s: string)
    ensures Trim(rt, s) == [] <==> AllSpace(rt, s)
  {
    var t := TrimStart(rt, s);
    assert s[..|s|] == s;
    assert t[0..] == t;
  }

  /** The two rules differ in both directions: a lone information separator
      is blank to Python and not to JavaScript, a lone byte order mark the
      other way round. */
  lemma RuntimesDiffer()
    ensures Trim(Python, "\U{001F}") == "" && Trim(JavaScript, "\U{001F}") == "\U{001F}"
    ensures Trim(JavaScript, "\U{FEFF}") == "" && Trim(Python, "\U{FEFF}") == "\U{FEFF}"
  {
    assert TrimStart(Python, "\U{001F}") == TrimStart(Python, "\U{001F}"[1..]);
    assert TrimStart(JavaScript, "\U{FEFF}") == TrimStart(JavaScript, "\U{FEFF}"[1..]);
  }

  /** ASCII lower-casing of one character; other characters are kept. */
  function LowerChar(c: char): (r: char)
    ensures 'A' <= c <= 'Z' ==> r as int == c as int + 32
    ensures !('A' <= c <= 'Z') ==> r == c
  {
    if 'A' <= c <= 'Z' then (c as int + 32) as char else c
  }

  /** `s.lower()` / `s.toLowerCase()`, restricted to ASCII letters. */
  function Lower(s: string): (r: string)
    ensures |r| == |s|
    ensures forall i :: 0 <= i < |s| ==> r[i] == LowerChar(s[i])
  {
    if s == [] then [] else [LowerChar(s[0])] + Lower(s[1..])
  }

  lemma LowerIdempotent(s: string)
    ensures Lower(Lower(s)) == Lower(s)
  {
    assert forall i :: 0 <= i < |s| ==> LowerChar(LowerChar(s[i])) == LowerChar(s[i]);
  }

  /** A string without upper-case ASCII letters is its own lower-case form. */
  lemma LowerOfLowerCase(s: string)
    requires forall i :: 0 <= i < |s| ==> !('A' <= s[i] <= 'Z')
    ensures Lower(s) == s
  {
  }

  /** `s.replace(' ', '_')`, one character at a time. */
  function SpacesToUnderscores(s: string): (r: string)
    ensures |r| == |s|
    ensures forall i :: 0 <= i < |s| ==> r[i] == if s[i] == ' ' then '_' else s[i]
  {
    if s == [] then [] else [if s[0] == ' ' then '_' else s[0]] + SpacesToUnderscores(s[1..])
  }

  /** `s.split(sep)` with a one-character separator: the segments between
      separators, always at least one. */
  function Split(s: string, sep: char): (r: seq<string>)
    ensures |r| >= 1
    ensures forall k, i :: 0 <= k < |r| && 0 <= i < |r[k]| ==> r[k][i] != sep
  {
    if s == [] then [""]
    else
      var rest := Split(s[1..], sep);
      if s[0] == sep then [""] + rest
      else [[s[0]] + rest[0]] + rest[1..]
  }

  /** `parts.join(sep)`. */
  function Join(parts: seq<string>, sep: char): string {
    if parts == [] then ""
    else if |parts| == 1 then parts[0]
    else parts[0] + [sep] + Join(parts[1..], sep)
  }

  /** Joining the segments of a split gives back the string. */
  lemma {:induction false} JoinSplit(s: string, sep: char)
    ensures Join(Split(s, sep), sep) == s
  {
    if s != [] {
      var rest := Split(s[1..], sep);
      JoinSplit(s[1..], sep);
      if s[0] == sep {
        assert s == [sep] + s[1..];
      } else {
        var parts := [[s[0]] + rest[0]] + rest[1..];
        if |rest| == 1 {
          assert s == [s[0]] + s[1..];
        } else {
          assert parts[1..] == rest[1..];
          assert Join(rest, sep) == rest[0] + [sep] + Join(rest[1..], sep);
          assert s == [s[0]] + s[1..];
        }
      }
    }
  }

  /** A string without the separator is a single segment. */
  lemma {:induction false} SplitNoSep(s: string, sep: char)
    requires forall i :: 0 <= i < |s| ==> s[i] != sep
    ensures Split(s, sep) == [s]
  {
    if s != [] {
      SplitNoSep(s[1..], sep);
      assert s == [s[0]] + s[1..];
    }
  }

  /** The segments of `a + [sep] + b` when `a` holds no separator: `a` first,
      then the segments of `b`. */
  lemma {:induction false} SplitAfterFirst(a: string, sep: char, b: string)
    requires forall i :: 0 <= i < |a| ==> a[i] != sep
    ensures Split(a + [sep] + b, sep) == [a] + Split(b, sep)
  {
    if a == [] {
      assert a + [sep] + b == [sep] + b;
      assert ([sep] + b)[1..] == b;
    } else {
      var s := a + [sep] + b;
      assert s[0] == a[0];
      assert s[1..] == a[1..] + [sep] + b;
      SplitAfterFirst(a[1..], sep, b);
      assert [a[0]] + a[1..] == a;
    }
  }
}

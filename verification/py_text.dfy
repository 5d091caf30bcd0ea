/** The string operations the modelled code takes from Python: strip, lower, join and splitting at blank lines. */
module PyText {
  /** str.isspace on one character. */
  predicate IsSpace(c: char) {
    || '\t' <= c <= '\r' || '\U{1C}' <= c <= ' ' || c == '\U{85}' || c == '\U{A0}' || c == '\U{1680}'
    || '\U{2000}' <= c <= '\U{200A}' || c == '\U{2028}' || c == '\U{2029}' || c == '\U{202F}'
    || c == '\U{205F}' || c == '\U{3000}'
  }

  function StripLeft(s: string): (t: string)
    ensures |t| <= |s| && t == s[|s| - |t|..] && (t != [] ==> !IsSpace(t[0]))
    ensures s != [] && !IsSpace(s[0]) ==> t == s
  {
    if s != [] && IsSpace(s[0]) then StripLeft(s[1..]) else s
  }

  function StripRight(s: string): (t: string)
    ensures |t| <= |s| && t == s[..|t|] && (t != [] ==> !IsSpace(t[|t| - 1]))
    ensures s != [] && !IsSpace(s[|s| - 1]) ==> t == s
  {
    if s != [] && IsSpace(s[|s| - 1]) then StripRight(s[..|s| - 1]) else s
  }

  /** Nothing to trim at either end. */
  predicate IsTrim(s: string) {
    s != [] ==> !IsSpace(s[0]) && !IsSpace(s[|s| - 1])
  }

  /** The result is a contiguous part of the string without white space at its ends. */
  function Strip(s: string): (t: string)
    ensures IsTrim(t) && (IsTrim(s) ==> t == s)
  {
    StripRight(StripLeft(s))
  }

  predicate IsBlank(s: string) { forall i :: 0 <= i < |s| ==> IsSpace(s[i]) }

  lemma {:induction false} LeftIsSpace(s: string)
    ensures IsBlank(s[..|s| - |StripLeft(s)|])
  {
    if s != [] && IsSpace(s[0]) {
      LeftIsSpace(s[1..]);
      assert s[..|s| - |StripLeft(s)|] == [s[0]] + s[1..][..|s| - 1 - |StripLeft(s)|];
    }
  }

  lemma {:induction false} RightIsSpace(s: string)
    ensures IsBlank(s[|StripRight(s)|..])
  {
    if s != [] && IsSpace(s[|s| - 1]) {
      RightIsSpace(s[..|s| - 1]);
      assert s[|StripRight(s)|..] == s[..|s| - 1][|StripRight(s)|..] + [s[|s| - 1]];
    }
  }

  /** Stripping drops white space at both ends and nothing else. */
  lemma StripDropsOnlySpace(s: string)
    ensures exists i, j :: 0 <= i <= j <= |s| && Strip(s) == s[i..j] && IsBlank(s[..i]) && IsBlank(s[j..])
    ensures Strip(s) == "" <==> IsBlank(s)
  {
    var left := StripLeft(s);
    var i := |s| - |left|;
    var j := i + |Strip(s)|;
    LeftIsSpace(s);
    RightIsSpace(left);
    assert s[j..] == left[|Strip(s)|..];
    assert Strip(s) == s[i..j] && IsBlank(s[..i]) && IsBlank(s[j..]) && (i < j ==> !IsSpace(s[i]));
    if Strip(s) == "" { assert s == s[..i] + s[j..]; }
  }

  /** Lower case for the letters of ASCII; no other character has a lower case among the ASCII digits, hexadecimal
      letters and dashes. */
  function LowerChar(c: char): char { if 'A' <= c <= 'Z' then c + 32 as char else c }

  function Lower(s: string): (t: string)
    ensures |t| == |s| && forall i :: 0 <= i < |s| ==> t[i] == LowerChar(s[i])
  {
    if s == [] then [] else [LowerChar(s[0])] + Lower(s[1..])
  }

  /** separator.join(parts) */
  function Join(parts: seq<string>, separator: string): string {
    if parts == [] then ""
    else if |parts| == 1 then parts[0]
    else parts[0] + separator + Join(parts[1..], separator)
  }

  lemma {:induction false} JoinAppend(xs: seq<string>, ys: seq<string>, separator: string)
    requires xs != [] && ys != []
    ensures Join(xs + ys, separator) == Join(xs, separator) + separator + Join(ys, separator)
  {
    if |xs| == 1 {
      assert (xs + ys)[1..] == ys;
    } else {
      JoinAppend(xs[1..], ys, separator);
      assert (xs + ys)[1..] == xs[1..] + ys;
    }
  }

  /** s.split(separator) for a separator of one character. */
  function SplitOn(s: string, separator: char): (parts: seq<string>)
    ensures parts != [] && forall i :: 0 <= i < |parts| ==> separator !in parts[i]
  {
    if s == [] then [""]
    else if s[0] == separator then [""] + SplitOn(s[1..], separator)
    else
      var rest := SplitOn(s[1..], separator);
      [[s[0]] + rest[0]] + rest[1..]
  }

  lemma {:induction false} SplitOne(s: string, separator: char)
    requires separator !in s
    ensures SplitOn(s, separator) == [s]
  {
    if s != [] {
      SplitOne(s[1..], separator);
      assert s == [s[0]] + s[1..];
    }
  }

  lemma {:induction false} SplitFirst(s: string, separator: char, rest: string)
    requires separator !in s
    ensures SplitOn(s + [separator] + rest, separator) == [s] + SplitOn(rest, separator)
  {
    if s == [] {
      assert (s + [separator] + rest)[1..] == rest;
    } else {
      SplitFirst(s[1..], separator, rest);
      assert (s + [separator] + rest)[1..] == s[1..] + [separator] + rest;
      assert s == [s[0]] + s[1..];
    }
  }

  lemma {:induction false} JoinOfSplit(s: string, separator: char)
    ensures Join(SplitOn(s, separator), [separator]) == s
  {
    if s != [] {
      JoinOfSplit(s[1..], separator);
      var rest := SplitOn(s[1..], separator);
      assert s == [s[0]] + s[1..];
      if s[0] != separator && |rest| > 1 { assert ([[s[0]] + rest[0]] + rest[1..])[1..] == rest[1..]; }
    }
  }

  lemma {:induction false} SplitOfJoin(parts: seq<string>, separator: char)
    requires parts != [] && forall i :: 0 <= i < |parts| ==> separator !in parts[i]
    ensures SplitOn(Join(parts, [separator]), separator) == parts
  {
    if |parts| == 1 {
      SplitOne(parts[0], separator);
    } else {
      SplitFirst(parts[0], separator, Join(parts[1..], [separator]));
      SplitOfJoin(parts[1..], separator);
    }
  }
}

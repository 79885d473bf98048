/** The string methods the screens call: `trim`, `toUpperCase`, `replace` of a
    one-character pattern, and the `charAt(0).toUpperCase() + slice(1)` idiom. */
module JsText {

  /** The code points `String.prototype.trim` removes: ECMAScript's
      WhiteSpace (tab, vertical tab, form feed, the byte order mark and every
      space separator) and LineTerminator (LF, CR, LS, PS). */
  predicate IsWhitespace(c: char) {
    || c == '\t' || c == '\n' || c == '\U{000B}' || c == '\U{000C}' || c == '\r'
    || c == ' ' || c == '\U{00A0}' || c == '\U{1680}'
    || ('\U{2000}' <= c <= '\U{200A}')
    || c == '\U{2028}' || c == '\U{2029}' || c == '\U{202F}' || c == '\U{205F}'
    || c == '\U{3000}' || c == '\U{FEFF}'
  }

  ghost predicate AllWhitespace(s: string) {
    forall i | 0 <= i < |s| :: IsWhitespace(s[i])
  }

  /** `s.trimStart()`. */
  function TrimStart(s: string): (r: string)
    ensures |r| <= |s|
  {
    if s != [] && IsWhitespace(s[0]) then TrimStart(s[1..]) else s
  }

  /** `s.trimEnd()`. */
  function TrimEnd(s: string): (r: string)
    ensures |r| <= |s|
  {
    if s != [] && IsWhitespace(s[|s| - 1]) then TrimEnd(s[..|s| - 1]) else s
  }

  /** `s.trim()`. */
  function Trim(s: string): (r: string)
    ensures |r| <= |s|
  {
    TrimEnd(TrimStart(s))
  }

  /** `trimStart` leaves the suffix of `s` that follows its leading
      whitespace: what it drops is all whitespace, and what it keeps does
      not start with whitespace. */
  lemma {:induction false} TrimStartSpec(s: string)
    ensures var r := TrimStart(s);
      && |r| <= |s| && r == s[|s| - |r|..]
      && AllWhitespace(s[..|s| - |r|])
      && (r != [] ==> !IsWhitespace(r[0]))
  {
    if s != [] && IsWhitespace(s[0]) {
      TrimStartSpec(s[1..]);
      var r := TrimStart(s[1..]);
      assert s[..|s| - |r|] == [s[0]] + s[1..][..|s| - 1 - |r|];
    }
  }

  /** `trimEnd` leaves the prefix of `s` before its trailing whitespace. */
  lemma {:induction false} TrimEndSpec(s: string)
    ensures var r := TrimEnd(s);
      && |r| <= |s| && r == s[..|r|]
      && AllWhitespace(s[|r|..])
      && (r != [] ==> !IsWhitespace(r[|r| - 1]))
  {
    if s != [] && IsWhitespace(s[|s| - 1]) {
      var t := s[..|s| - 1];
      TrimEndSpec(t);
      var r := TrimEnd(t);
      assert s[|r|..] == t[|r|..] + [s[|s| - 1]];
    }
  }

  /** The result of `trim` neither starts nor ends with whitespace. */
  lemma {:induction false} TrimEnds(s: string)
    ensures Trim(s) != [] ==> !IsWhitespace(Trim(s)[0]) && !IsWhitespace(Trim(s)[|Trim(s)| - 1])
  {
    TrimStartSpec(s);
    TrimEndSpec(TrimStart(s));
  }

  /** Trimming removes a whitespace-only prefix and a whitespace-only suffix
      and nothing else: `s` is that prefix, the result, and that suffix. */
  lemma {:induction false} TrimDecomposition(s: string)
    ensures var p := |s| - |TrimStart(s)|;
      && p + |Trim(s)| <= |s|
      && s == s[..p] + Trim(s) + s[p + |Trim(s)|..]
      && AllWhitespace(s[..p])
      && AllWhitespace(s[p + |Trim(s)|..])
  {
    var t := TrimStart(s);
    var p := |s| - |t|;
    var r := TrimEnd(t);
    TrimStartSpec(s);
    TrimEndSpec(t);
    assert t == s[p..];
    assert t[|r|..] == s[p + |r|..];
    assert r == t[..|r|];
    assert s[p..][..|r|] == s[p..p + |r|];
    assert s[..p] + s[p..p + |r|] == s[..p + |r|];
    assert s == s[..p + |r|] + s[p + |r|..];
  }

  /** `!s.trim()`: the field is empty once trimmed. */
  predicate IsBlank(s: string)
    ensures IsBlank(s) <==> AllWhitespace(s)
  {
    BlankIffAllWhitespace(s);
    Trim(s) == ""
  }

  lemma {:induction false} BlankIffAllWhitespace(s: string)
    ensures Trim(s) == "" <==> AllWhitespace(s)
  {
    TrimDecomposition(s);
    TrimEnds(s);
    var p := |s| - |TrimStart(s)|;
    var q := p + |Trim(s)|;
    if Trim(s) == "" {
      forall i | 0 <= i < |s| ensures IsWhitespace(s[i]) {
        if i < p {
          assert s[i] == s[..p][i];
        } else {
          assert s[i] == s[q..][i - q];
        }
      }
    } else {
      assert s[p] == Trim(s)[0];
    }
  }

  /** Trimming twice is trimming once. */
  lemma {:induction false} TrimIdempotent(s: string)
    ensures Trim(Trim(s)) == Trim(s)
  {
    TrimEnds(s);
    TrimOfUntrimmable(Trim(s));
  }

  /** A string with no whitespace at either end is its own trim. */
  lemma {:induction false} TrimOfUntrimmable(s: string)
    requires s != [] ==> !IsWhitespace(s[0]) && !IsWhitespace(s[|s| - 1])
    ensures Trim(s) == s
  {
    assert TrimStart(s) == s;
    assert TrimEnd(s) == s;
  }

  /** `toUpperCase` on one character, for the ASCII letters. */
  function UpperChar(c: char): (u: char)
    ensures 'a' <= c <= 'z' ==> 'A' <= u <= 'Z' && u as int == c as int - 32
    ensures !('a' <= c <= 'z') ==> u == c
  {
    if 'a' <= c <= 'z' then (c as int - 32) as char else c
  }

  /** `s.toUpperCase()`, character by character. */
  function ToUpperCase(s: string): (r: string)
    ensures |r| == |s|
    ensures forall i | 0 <= i < |s| :: r[i] == UpperChar(s[i])
  {
    seq(|s|, i requires 0 <= i < |s| => UpperChar(s[i]))
  }

  /** Position of the first occurrence of `c` in `s`, or -1 (`indexOf`). */
  function IndexOf(s: string, c: char): (i: int)
    ensures -1 <= i < |s|
    ensures 0 <= i ==> s[i] == c
    ensures forall k | 0 <= k < |s| && (i == -1 || k < i) :: s[k] != c
  {
    if s == [] then -1
    else if s[0] == c then 0
    else
      var j := IndexOf(s[1..], c);
      if j == -1 then -1 else j + 1
  }

  /** `s.replace(from, to)` with one-character strings: only the FIRST
      occurrence of `from` is replaced. */
  function ReplaceFirst(s: string, from: char, to: char): (r: string)
    ensures |r| == |s|
  {
    var i := IndexOf(s, from);
    if i == -1 then s else s[i := to]
  }

  /** The replacement keeps everything before and after the first
      occurrence, and changes nothing when there is none. */
  lemma {:induction false} ReplaceFirstSpec(s: string, from: char, to: char)
    ensures var i := IndexOf(s, from);
      && (i == -1 ==> ReplaceFirst(s, from, to) == s)
      && (i != -1 ==> ReplaceFirst(s, from, to) == s[..i] + [to] + s[i + 1..])
  {
    var i := IndexOf(s, from);
    if i != -1 {
      assert s[i := to] == s[..i] + [to] + s[i + 1..];
    }
  }

  /** `s.charAt(0).toUpperCase() + s.slice(1)`; `charAt(0)` of the empty
      string is the empty string. */
  function Capitalize(s: string): (r: string)
    ensures |r| == |s|
    ensures s != [] ==> r[0] == UpperChar(s[0]) && r[1..] == s[1..]
  {
    if s == [] then [] else ToUpperCase([s[0]]) + s[1..]
  }
}

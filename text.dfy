/**
 * The JavaScript string operations the parsers, the library and the asset
 * resolver rely on: trim, split, startsWith/endsWith, indexOf, includes,
 * toLowerCase/toUpperCase and parseInt.
 */
module Text {
  import opened Wrappers

  /** The characters that String.prototype.trim removes and that `\s` matches in a regular expression. */
  predicate IsSpace(c: char) {
    || c == '\t' || c == '\n' || c == '\U{B}' || c == '\U{C}' || c == '\r' || c == ' '
    || c == '\U{A0}' || c == '\U{1680}' || '\U{2000}' <= c <= '\U{200A}'
    || c == '\U{2028}' || c == '\U{2029}' || c == '\U{202F}' || c == '\U{205F}'
    || c == '\U{3000}' || c == '\U{FEFF}'
  }

  /** `\d` */
  predicate IsDigit(c: char) {
    '0' <= c <= '9'
  }

  /** `\w` */
  predicate IsWordChar(c: char) {
    'a' <= c <= 'z' || 'A' <= c <= 'Z' || IsDigit(c) || c == '_'
  }

  predicate StartsWith(s: string, prefix: string) {
    |prefix| <= |s| && s[..|prefix|] == prefix
  }

  predicate EndsWith(s: string, suffix: string) {
    |suffix| <= |s| && s[|s| - |suffix|..] == suffix
  }

  /** String.prototype.includes */
  predicate Includes(s: string, t: string) {
    exists i | 0 <= i <= |s| - |t| :: InfixAt(s, t, i)
  }

  predicate InfixAt(s: string, t: string, i: int) {
    0 <= i <= |s| - |t| && s[i..i + |t|] == t
  }

  function TrimStart(s: string): (r: string)
    ensures |r| <= |s| && r == s[|s| - |r|..]
    ensures r == [] || !IsSpace(r[0])
    ensures forall i :: 0 <= i < |s| - |r| ==> IsSpace(s[i])
  {
    if s != [] && IsSpace(s[0]) then TrimStart(s[1..]) else s
  }

  function TrimEnd(s: string): (r: string)
    ensures |r| <= |s| && r == s[..|r|]
    ensures r == [] || !IsSpace(r[|r| - 1])
    ensures forall i :: |r| <= i < |s| ==> IsSpace(s[i])
  {
    if s != [] && IsSpace(s[|s| - 1]) then TrimEnd(s[..|s| - 1]) else s
  }

  /** r is s with its surrounding spaces removed: no space at either end, and only spaces removed. */
  predicate Trimmed(s: string, r: string) {
    && |r| <= |s|
    && (r == [] || (!IsSpace(r[0]) && !IsSpace(r[|r| - 1])))
    && (forall c :: c in s && !IsSpace(c) ==> c in r)
  }

  /** String.prototype.trim */
  function Trim(s: string): (r: string)
    ensures |r| <= |s|
    ensures r == [] || (!IsSpace(r[0]) && !IsSpace(r[|r| - 1]))
  {
    var r := TrimEnd(TrimStart(s));
    assert Trimmed(s, r) by { TrimEnds(s); }
    r
  }

  /** r is the infix s[i..j], and everything of s outside it is space. */
  predicate SpaceFramed(s: string, r: string, i: int, j: int) {
    && 0 <= i <= j <= |s| && r == s[i..j]
    && (forall k :: 0 <= k < i ==> IsSpace(s[k]))
    && (forall k :: j <= k < |s| ==> IsSpace(s[k]))
  }

  /**
   * Trimming removes spaces only, and only at the ends: the result is the
   * infix of s between a run of leading spaces and a run of trailing spaces,
   * so every other character of s is still in it, in order.
   */
  lemma TrimKeeps(s: string)
    ensures exists i, j :: SpaceFramed(s, Trim(s), i, j)
    ensures forall c :: c in s && !IsSpace(c) ==> c in Trim(s)
  {
    TrimEnds(s);
    var t := TrimStart(s);
    var r := TrimEnd(t);
    assert Trim(s) == r;
    var i, j := TrimFrame(s, t, r);
    assert SpaceFramed(s, Trim(s), i, j);
  }

  /** The bounds of the trimmed infix: past the leading spaces, and before the trailing ones. */
  lemma TrimFrame(s: string, t: string, r: string) returns (i: int, j: int)
    requires |t| <= |s| && t == s[|s| - |t|..]
    requires forall k :: 0 <= k < |s| - |t| ==> IsSpace(s[k])
    requires |r| <= |t| && r == t[..|r|]
    requires forall k :: |r| <= k < |t| ==> IsSpace(t[k])
    ensures SpaceFramed(s, r, i, j)
  {
    i := |s| - |t|;
    j := i + |r|;
    assert r == s[i..j];
    forall k | j <= k < |s| ensures IsSpace(s[k]) {
      assert s[k] == t[k - i];
    }
  }

  lemma TrimEnds(s: string)
    ensures Trimmed(s, TrimEnd(TrimStart(s)))
  {
    var t := TrimStart(s);
    var r := TrimEnd(t);
    assert r == [] || !IsSpace(r[0]) by {
      if r != [] { assert r[0] == t[0]; }
    }
    DropStartKeeps(s, t);
    DropEndKeeps(t, r);
  }

  /** Dropping leading spaces loses no other character. */
  lemma DropStartKeeps(s: string, t: string)
    requires |t| <= |s| && t == s[|s| - |t|..]
    requires forall i :: 0 <= i < |s| - |t| ==> IsSpace(s[i])
    ensures forall c :: c in s && !IsSpace(c) ==> c in t
  {
    forall c | c in s && !IsSpace(c) ensures c in t {
      var i :| 0 <= i < |s| && s[i] == c;
      assert t[i - (|s| - |t|)] == c;
    }
  }

  /** Dropping trailing spaces loses no other character. */
  lemma DropEndKeeps(s: string, t: string)
    requires |t| <= |s| && t == s[..|t|]
    requires forall i :: |t| <= i < |s| ==> IsSpace(s[i])
    ensures forall c :: c in s && !IsSpace(c) ==> c in t
  {
    forall c | c in s && !IsSpace(c) ensures c in t {
      var i :| 0 <= i < |s| && s[i] == c;
      assert t[i] == c;
    }
  }

  /** String.prototype.indexOf(c, from) for a single character; -1 when absent. */
  function IndexOf(s: string, c: char, from: nat): (r: int)
    ensures r == -1 || (from <= r < |s| && s[r] == c)
    ensures r == -1 ==> forall j :: from <= j < |s| ==> s[j] != c
    ensures r != -1 ==> forall j :: from <= j < r ==> s[j] != c
    decreases |s| - from
  {
    if from >= |s| then -1 else if s[from] == c then from else IndexOf(s, c, from + 1)
  }

  /** Searching from `from` in s is searching from 0 in the suffix s[from..]. */
  lemma IndexOfSuffix(s: string, c: char, from: nat)
    requires from <= |s|
    ensures IndexOf(s, c, from) == -1 <==> IndexOf(s[from..], c, 0) == -1
    ensures IndexOf(s, c, from) != -1 ==> IndexOf(s, c, from) == from + IndexOf(s[from..], c, 0)
  {
    forall j | from <= j < |s| ensures s[from..][j - from] == s[j] {}
  }

  /** String.prototype.split with a one-character separator. */
  function Split(s: string, sep: char): (r: seq<string>)
    ensures |r| >= 1
    decreases |s|
  {
    var k := IndexOf(s, sep, 0);
    if k == -1 then [s] else [s[..k]] + Split(s[k + 1..], sep)
  }

  /** No piece of a split holds the separator. */
  lemma {:induction false} SplitPieces(s: string, sep: char)
    ensures forall piece :: piece in Split(s, sep) ==> sep !in piece
    decreases |s|
  {
    var k := IndexOf(s, sep, 0);
    if k != -1 {
      SplitPieces(s[k + 1..], sep);
    }
  }

  /** The last piece of a split is the text after the last separator. */
  lemma {:induction false} SplitLastPiece(s: string, sep: char, t: string)
    requires sep !in t
    ensures var parts := Split(s + [sep] + t, sep); parts[|parts| - 1] == t
    decreases |s|
  {
    var w := s + [sep] + t;
    assert w[|s|] == sep;
    var k := IndexOf(w, sep, 0);
    if k == |s| {
      assert w[k + 1..] == t;
      assert IndexOf(t, sep, 0) == -1;
    } else {
      assert w[k + 1..] == s[k + 1..] + [sep] + t;
      SplitLastPiece(s[k + 1..], sep, t);
    }
  }

  /** Array.prototype.join with a one-character separator. */
  function Join(parts: seq<string>, sep: char): string {
    if |parts| == 0 then [] else if |parts| == 1 then parts[0] else parts[0] + [sep] + Join(parts[1..], sep)
  }

  /** Splitting loses nothing: joining the pieces gives back the text. */
  lemma {:induction false} SplitJoin(s: string, sep: char)
    ensures Join(Split(s, sep), sep) == s
    decreases |s|
  {
    var k := IndexOf(s, sep, 0);
    if k != -1 {
      var rest := Split(s[k + 1..], sep);
      SplitJoin(s[k + 1..], sep);
      assert Split(s, sep) == [s[..k]] + rest;
      JoinCons(s[..k], rest, sep);
      assert s == s[..k] + [sep] + s[k + 1..];
    }
  }

  lemma JoinCons(first: string, rest: seq<string>, sep: char)
    requires |rest| >= 1
    ensures Join([first] + rest, sep) == first + [sep] + Join(rest, sep)
  {
    assert ([first] + rest)[1..] == rest;
  }

  function LowerChar(c: char): char {
    if 'A' <= c <= 'Z' then (c as int + 32) as char else c
  }

  function UpperChar(c: char): char {
    if 'a' <= c <= 'z' then (c as int - 32) as char else c
  }

  /** String.prototype.toLowerCase, on the ASCII letters. */
  function Lower(s: string): (r: string)
    ensures |r| == |s|
    ensures forall i :: 0 <= i < |s| ==> r[i] == LowerChar(s[i])
  {
    seq(|s|, i requires 0 <= i < |s| => LowerChar(s[i]))
  }

  /** `s.charAt(0).toUpperCase() + s.slice(1)`, on the ASCII letters. */
  function Capitalize(s: string): (r: string)
    ensures |r| == |s| && (s != [] ==> r[1..] == s[1..] && r[0] == UpperChar(s[0]))
  {
    if s == [] then [] else [UpperChar(s[0])] + s[1..]
  }

  /** The longest prefix of s made of characters satisfying p. */
  function Run(s: string, p: char -> bool): (r: string)
    ensures |r| <= |s| && r == s[..|r|]
    ensures forall i :: 0 <= i < |r| ==> p(r[i])
    ensures |r| == |s| || !p(s[|r|])
  {
    if s == [] || !p(s[0]) then [] else [s[0]] + Run(s[1..], p)
  }

  function DigitValue(c: char): nat
    requires IsDigit(c)
  {
    c as int - '0' as int
  }

  /** The decimal value of a string of digits. */
  function DigitsValue(d: string): nat
    requires forall i :: 0 <= i < |d| ==> IsDigit(d[i])
  {
    if d == [] then 0 else DigitsValue(d[..|d| - 1]) * 10 + DigitValue(d[|d| - 1])
  }

  /** parseInt(s, 10): leading spaces, an optional sign, then at least one digit; None stands for NaN. */
  function ParseInt(s: string): (r: Option<int>)
  {
    var t := TrimStart(s);
    var signed := t != [] && (t[0] == '-' || t[0] == '+');
    var body := if signed then t[1..] else t;
    var d := Run(body, IsDigit);
    var v: int := DigitsValue(d);
    if d == [] then None
    else if signed && t[0] == '-' then Some(-v)
    else Some(v)
  }

  lemma DigitIsNotSign(c: char)
    requires IsDigit(c)
    ensures !IsSpace(c) && c != '-' && c != '+'
  {
  }

  /** A string that does not start with a space is its own TrimStart. */
  lemma TrimStartNoSpace(s: string)
    requires s == [] || !IsSpace(s[0])
    ensures TrimStart(s) == s
  {
  }

  /** Run takes the whole of a string whose every character qualifies. */
  lemma RunAll(s: string, p: char -> bool)
    requires forall i :: 0 <= i < |s| ==> p(s[i])
    ensures Run(s, p) == s
  {
    var r := Run(s, p);
    assert |r| == |s|;
  }

  /** Run stops at the first character that does not qualify. */
  lemma {:induction false} RunStops(s: string, t: string, p: char -> bool)
    requires forall i :: 0 <= i < |s| ==> p(s[i])
    requires t != [] && !p(t[0])
    ensures Run(s + t, p) == s
    decreases |s|
  {
    if s == [] {
      assert s + t == t;
    } else {
      assert (s + t)[0] == s[0];
      assert (s + t)[1..] == s[1..] + t;
      RunStops(s[1..], t, p);
    }
  }

  /** The first `c` of `s + [c]` is the appended one when s holds none. */
  lemma IndexOfAppended(s: string, c: char)
    requires c !in s
    ensures IndexOf(s + [c], c, 0) == |s|
  {
    var r := IndexOf(s + [c], c, 0);
    assert (s + [c])[|s|] == c;
  }

  /** parseInt reads the leading run of digits and ignores what follows it. */
  lemma ParseIntLeading(d: string, rest: string)
    requires d != [] && forall i :: 0 <= i < |d| ==> IsDigit(d[i])
    requires rest == [] || !IsDigit(rest[0])
    ensures ParseInt(d + rest) == Some(DigitsValue(d))
  {
    var s := d + rest;
    assert s[0] == d[0];
    DigitIsNotSign(d[0]);
    TrimStartNoSpace(s);
    if rest == [] {
      assert s == d;
      RunAll(d, IsDigit);
    } else {
      RunStops(d, rest, IsDigit);
    }
    var t := TrimStart(s);
    assert t == s && !(t[0] == '-' || t[0] == '+');
    assert Run(t, IsDigit) == d;
  }

  /** A string of digits parses to its decimal value. */
  lemma ParseIntDigits(d: string)
    requires d != [] && forall i :: 0 <= i < |d| ==> IsDigit(d[i])
    ensures ParseInt(d) == Some(DigitsValue(d))
  {
    assert TrimStart(d) == d && d[0] != '-' && d[0] != '+' by {
      DigitIsNotSign(d[0]);
      TrimStartNoSpace(d);
    }
    assert Run(d, IsDigit) == d by {
      RunAll(d, IsDigit);
    }
    var t := TrimStart(d);
    var signed := t != [] && (t[0] == '-' || t[0] == '+');
    assert !signed;
    assert ParseInt(d) == Some(DigitsValue(Run(t, IsDigit)));
  }
}

/**
 * The regular expressions the two parsers use to pull values out of
 * `{name: value}` directives, written out as explicit scanners. Each
 * `…At` function is the pattern anchored at the start of its argument;
 * `Leftmost` finds the first position where it matches, as
 * String.prototype.match does for a pattern without the `g` flag.
 */
module Directives {
  import opened Wrappers
  import opened Text

  /** The first match of `at` at any position 0..|s| of s, trying positions from the left. */
  function Leftmost<T>(s: string, at: string -> Option<T>): (r: Option<T>)
    ensures r.None? <==> forall p :: 0 <= p <= |s| ==> at(s[p..]).None?
    ensures r.Some? ==> exists p :: 0 <= p <= |s| && at(s[p..]) == r
    decreases |s|
  {
    assert s[0..] == s;
    if at(s).Some? then at(s)
    else if s == [] then None
    else
      var r := Leftmost(s[1..], at);
      assert forall p :: 1 <= p <= |s| ==> s[1..][p - 1..] == s[p..];
      r
  }

  /**
   * `\s*([^}]+)\}` anchored at the start of t, giving the captured group.
   * The group is everything up to the first `}` less its leading spaces;
   * when that leaves nothing, backtracking gives the group the last space.
   */
  function BodyCapture(t: string): (r: Option<string>)
    ensures r.Some? ==> r.value != [] && '}' !in r.value
    ensures r.Some? <==> IndexOf(t, '}', 0) > 0
  {
    var close := IndexOf(t, '}', 0);
    if close <= 0 then None
    else
      var body := t[..close];
      var rest := TrimStart(body);
      if rest != [] then Some(rest) else Some(body[|body| - 1..])
  }

  /** `\{(?:k1|k2|…):\s*([^}]+)\}` anchored at the start of t, alternatives tried in order. */
  function KeyedAt(t: string, keys: seq<string>): (r: Option<string>)
    ensures r.Some? ==> exists k :: k in keys && StartsWith(t, "{" + k + ":")
  {
    if keys == [] then None
    else
      var open := "{" + keys[0] + ":";
      var here := if StartsWith(t, open) then BodyCapture(t[|open|..]) else None;
      if here.Some? then here else KeyedAt(t, keys[1..])
  }

  /** `line.match(/\{(?:k1|k2|…):\s*([^}]+)\}/)?.[1]` */
  function Keyed(line: string, keys: seq<string>): Option<string> {
    Leftmost(line, t => KeyedAt(t, keys))
  }

  /**
   * `\{start_of_(\w+)(?::\s*([^}]+))?\}` anchored at the start of t,
   * giving group 1 and, when the optional part took part, group 2.
   */
  function StartOfAt(t: string): (r: Option<(string, Option<string>)>)
    ensures r.Some? ==> r.value.0 != [] && StartsWith(t, "{start_of_")
  {
    var open := "{start_of_";
    if !StartsWith(t, open) then None
    else
      var rest := t[|open|..];
      var name := Run(rest, IsWordChar);
      var after := rest[|name|..];
      if name == [] || after == [] then None
      else if after[0] == '}' then Some((name, None))
      else if after[0] == ':' then
        match BodyCapture(after[1..])
        case Some(caption) => Some((name, Some(caption)))
        case None => None
      else None
  }

  /** `\{start_of_(\w+)\}` anchored at the start of t, giving group 1. */
  function PlainStartOfAt(t: string): Option<string> {
    match StartOfAt(t)
    case Some((name, None)) => Some(name)
    case _ => None
  }

  /**
   * The title a `{start_of_…}` or `{soc…}` line gives its section:
   * the label of the first `{start_of_x: label}` match, else the name of the
   * first `{start_of_x}` match, else "Section"; then the first letter upper-cased.
   */
  function StartOfTitle(line: string): (r: string)
    ensures r != []
  {
    var labelled := Leftmost(line, StartOfAt);
    var name :=
      if labelled.Some? && labelled.value.1.Some? then labelled.value.1.value
      else match Leftmost(line, PlainStartOfAt)
        case Some(n) => n
        case None => "Section";
    assert name != [] by {
      var plain := Leftmost(line, PlainStartOfAt);
      if plain.Some? {
        var p :| 0 <= p <= |line| && PlainStartOfAt(line[p..]) == plain;
      }
    }
    Capitalize(name)
  }

  /** `\{tempo:\s*(\d+)\}` anchored at the start of t, giving the digits. */
  function TempoAt(t: string): (r: Option<string>)
    ensures r.Some? ==> r.value != [] && forall i :: 0 <= i < |r.value| ==> IsDigit(r.value[i])
  {
    var open := "{tempo:";
    if !StartsWith(t, open) then None
    else
      var rest := TrimStart(t[|open|..]);
      var digits := Run(rest, IsDigit);
      if digits != [] && |digits| < |rest| && rest[|digits|] == '}' then Some(digits) else None
  }

  /** `line.match(/\{tempo:\s*(\d+)\}/)?.[1]` */
  function Tempo(line: string): (r: Option<string>)
    ensures r.Some? ==> r.value != [] && forall i :: 0 <= i < |r.value| ==> IsDigit(r.value[i])
  {
    var r := Leftmost(line, TempoAt);
    assert r.Some? ==> r.value != [] && forall i :: 0 <= i < |r.value| ==> IsDigit(r.value[i]) by {
      if r.Some? {
        var p :| 0 <= p <= |line| && TempoAt(line[p..]) == r;
      }
    }
    r
  }

  /** A directive can only be found in a line that holds its opening text. */
  lemma {:induction false} KeyedNeedsOpening(line: string, keys: seq<string>)
    requires Keyed(line, keys).Some?
    ensures exists p, k :: 0 <= p <= |line| && k in keys && StartsWith(line[p..], "{" + k + ":")
  {
    var p :| 0 <= p <= |line| && KeyedAt(line[p..], keys) == Keyed(line, keys);
  }

  /** `{start_of_x: label}` titles its section by the label, first letter upper-cased. */
  lemma LabelledStart(name: string, caption: string)
    requires name != [] && forall i :: 0 <= i < |name| ==> IsWordChar(name[i])
    requires caption != [] && '}' !in caption && !IsSpace(caption[0])
    ensures StartOfTitle("{start_of_" + name + ":" + caption + "}") == Capitalize(caption)
  {
    var line := "{start_of_" + name + ":" + caption + "}";
    var rest := name + ":" + caption + "}";
    assert StartsWith(line, "{start_of_") && line[10..] == rest;
    assert rest == name + (":" + caption + "}");
    RunStops(name, ":" + caption + "}", IsWordChar);
    assert rest[|name|..] == ":" + caption + "}";
    assert (":" + caption + "}")[1..] == caption + "}";
    IndexOfAppended(caption, '}');
    assert (caption + "}")[..|caption|] == caption;
    TrimStartNoSpace(caption);
    assert StartOfAt(line) == Some((name, Some(caption)));
    assert line[0..] == line;
  }

  /** `{start_of_x}` titles its section by x, first letter upper-cased. */
  lemma PlainStart(name: string)
    requires name != [] && forall i :: 0 <= i < |name| ==> IsWordChar(name[i])
    ensures StartOfTitle("{start_of_" + name + "}") == Capitalize(name)
  {
    var line := "{start_of_" + name + "}";
    var rest := name + "}";
    assert StartsWith(line, "{start_of_") && line[10..] == rest;
    RunStops(name, "}", IsWordChar);
    assert rest[|name|..] == "}";
    assert StartOfAt(line) == Some((name, None));
    assert PlainStartOfAt(line) == Some(name);
    assert line[0..] == line;
  }
}

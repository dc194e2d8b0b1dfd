/**
 * The chord/lyric splitter shared by both song parsers: a line such as
 * `You're [C]rich in[G] love` becomes the pairs
 * ("", "You're "), ("C", "rich in"), ("G", " love").
 *
 * `LineSpec` is the reference meaning: the line cut into segments, one
 * before the first `[` and one opened by each `[`, keeping the non-empty
 * ones. `ParseLine` is the character loop of the source, proved to compute
 * it. `Strip` and `ClosedGroups` describe the same line character by
 * character, and the lemmas tie the pairs' lyrics and chords to them.
 */
module ChordLine {
  import opened Text

  datatype Pair = Pair(chord: string, lyric: string)

  predicate NonEmptyPair(p: Pair) {
    p.chord != [] || p.lyric != []
  }

  /** The pairs that are not both empty, in order. */
  function Keep(ps: seq<Pair>): (r: seq<Pair>)
  {
    if ps == [] then []
    else (if NonEmptyPair(ps[0]) then [ps[0]] else []) + Keep(ps[1..])
  }

  /**
   * What the `[` at the start of s opens: the chord up to the next `]` and
   * the text after it, or, when no `]` follows, an empty chord and the text
   * after the `[`.
   */
  function Group(s: string): (r: (string, string))
    requires s != [] && s[0] == '['
    ensures |r.1| < |s|
  {
    var close := IndexOf(s, ']', 0);
    if close == -1 then ([], s[1..]) else (s[1..close], s[close + 1..])
  }

  /**
   * The segments of s when the segment under construction has chord `chord`
   * and lyric `lyric` so far: a plain character extends its lyric, and each
   * `[` closes it and opens a new segment with the chord of its group.
   */
  function Segs(chord: string, lyric: string, s: string): (r: seq<Pair>)
    ensures r != []
    decreases |s|
  {
    if s == [] then [Pair(chord, lyric)]
    else if s[0] != '[' then Segs(chord, lyric + [s[0]], s[1..])
    else
      var (g, after) := Group(s);
      [Pair(chord, lyric)] + Segs(g, [], after)
  }

  /** Keep drops exactly the empty pairs. */
  lemma {:induction false} KeepFilters(ps: seq<Pair>)
    ensures forall p :: p in Keep(ps) <==> p in ps && NonEmptyPair(p)
  {
    if ps != [] {
      KeepFilters(ps[1..]);
      assert ps == [ps[0]] + ps[1..];
    }
  }

  /** What parseChordProLine / parseOnSongLine return for `line`. */
  function LineSpec(line: string): (r: seq<Pair>)
  {
    Keep(Segs([], [], line))
  }

  lemma {:induction false} KeepAppend(a: seq<Pair>, b: seq<Pair>)
    ensures Keep(a + b) == Keep(a) + Keep(b)
    decreases |a|
  {
    if a != [] {
      var head := if NonEmptyPair(a[0]) then [a[0]] else [];
      assert (a + b)[0] == a[0];
      assert (a + b)[1..] == a[1..] + b;
      KeepAppend(a[1..], b);
      calc {
        Keep(a + b);
        head + Keep(a[1..] + b);
        head + (Keep(a[1..]) + Keep(b));
        (head + Keep(a[1..])) + Keep(b);
        Keep(a) + Keep(b);
      }
    } else {
      assert a + b == b;
    }
  }

  lemma KeepOne(p: Pair)
    ensures Keep([p]) == if NonEmptyPair(p) then [p] else []
  {
    assert [p][1..] == [];
  }

  /** The loop's lyric step, stated on positions of the whole line. */
  lemma LyricAt(line: string, i: nat, chord: string, lyric: string)
    requires i < |line| && line[i] != '['
    ensures Segs(chord, lyric, line[i..]) == Segs(chord, lyric + [line[i]], line[i + 1..])
  {
    assert line[i..][1..] == line[i + 1..];
  }

  /** The group a `[` at position i opens, stated on positions of the whole line. */
  lemma GroupAt(line: string, i: nat)
    requires i < |line| && line[i] == '['
    ensures IndexOf(line, ']', i) == -1 ==> Group(line[i..]) == ([], line[i + 1..])
    ensures IndexOf(line, ']', i) != -1 ==>
      Group(line[i..]) == (line[i + 1..IndexOf(line, ']', i)], line[IndexOf(line, ']', i) + 1..])
  {
    IndexOfSuffix(line, ']', i);
    var close := IndexOf(line, ']', i);
    if close != -1 {
      var s := line[i..];
      assert IndexOf(s, ']', 0) == close - i;
      assert s[1..close - i] == line[i + 1..close];
      assert s[close - i + 1..] == line[close + 1..];
    }
  }

  /** The loop's `[` step, stated on positions of the whole line. */
  lemma OpenAt(line: string, i: nat, chord: string, lyric: string) returns (next: string, after: string)
    requires i < |line| && line[i] == '['
    ensures IndexOf(line, ']', i) == -1 ==> next == [] && after == line[i + 1..]
    ensures IndexOf(line, ']', i) != -1 ==>
      next == line[i + 1..IndexOf(line, ']', i)] && after == line[IndexOf(line, ']', i) + 1..]
    ensures Keep(Segs(chord, lyric, line[i..]))
      == (if lyric != [] || chord != [] then [Pair(chord, lyric)] else []) + Keep(Segs(next, [], after))
  {
    GroupAt(line, i);
    next, after := Group(line[i..]).0, Group(line[i..]).1;
    KeepAppend([Pair(chord, lyric)], Segs(next, [], after));
    KeepOne(Pair(chord, lyric));
  }

  /** The loop's `[` step keeps its invariant. */
  lemma OpenStep(line: string, i: nat, chord: string, lyric: string, result: seq<Pair>)
      returns (next: string, after: string, pushed: seq<Pair>)
    requires i < |line| && line[i] == '['
    requires result + Keep(Segs(chord, lyric, line[i..])) == LineSpec(line)
    ensures IndexOf(line, ']', i) == -1 ==> next == [] && after == line[i + 1..]
    ensures IndexOf(line, ']', i) != -1 ==>
      next == line[i + 1..IndexOf(line, ']', i)] && after == line[IndexOf(line, ']', i) + 1..]
    ensures pushed == if lyric != [] || chord != [] then result + [Pair(chord, lyric)] else result
    ensures pushed + Keep(Segs(next, [], after)) == LineSpec(line)
  {
    next, after := OpenAt(line, i, chord, lyric);
    var head := if lyric != [] || chord != [] then [Pair(chord, lyric)] else [];
    pushed := result + head;
    assert result + (head + Keep(Segs(next, [], after))) == pushed + Keep(Segs(next, [], after));
  }

  /** The character loop of parseChordProLine (and of the identical parseOnSongLine). */
  method ParseLine(line: string) returns (result: seq<Pair>)
    ensures result == LineSpec(line)
  {
    result := [];
    var chord: string, lyric: string := [], [];
    var i := 0;
    while i < |line|
      invariant 0 <= i <= |line|
      invariant result + Keep(Segs(chord, lyric, line[i..])) == LineSpec(line)
      decreases |line| - i
    {
      if line[i] == '[' {
        ghost var next, after, pushed := OpenStep(line, i, chord, lyric, result);
        if lyric != [] || chord != [] {
          result := result + [Pair(chord, lyric)];
          chord, lyric := [], [];
        }
        var chordEnd := IndexOf(line, ']', i);
        if chordEnd != -1 {
          chord := line[i + 1..chordEnd];
          i := chordEnd + 1;
        } else {
          i := i + 1;
        }
        assert result == pushed && chord == next && lyric == [] && line[i..] == after;
      } else {
        LyricAt(line, i, chord, lyric);
        lyric := lyric + [line[i]];
        i := i + 1;
      }
    }
    assert line[i..] == [];
    KeepOne(Pair(chord, lyric));
    if lyric != [] || chord != [] {
      result := result + [Pair(chord, lyric)];
    }
  }

  /** The line with every `[...]` group and every unclosed `[` removed, read character by character. */
  function Strip(s: string): string
    decreases |s|
  {
    if s == [] then []
    else if s[0] == '[' then
      var close := IndexOf(s, ']', 0);
      if close == -1 then Strip(s[1..]) else Strip(s[close + 1..])
    else [s[0]] + Strip(s[1..])
  }

  /** The contents of the closed `[...]` groups of s, left to right. */
  function ClosedGroups(s: string): seq<string>
    decreases |s|
  {
    if s == [] then []
    else if s[0] == '[' then
      var close := IndexOf(s, ']', 0);
      if close == -1 then ClosedGroups(s[1..]) else [s[1..close]] + ClosedGroups(s[close + 1..])
    else ClosedGroups(s[1..])
  }

  function Lyrics(ps: seq<Pair>): string {
    if ps == [] then [] else ps[0].lyric + Lyrics(ps[1..])
  }

  function Chords(ps: seq<Pair>): seq<string> {
    if ps == [] then [] else [ps[0].chord] + Chords(ps[1..])
  }

  /** The strings that are not empty, in order. */
  function NonEmpty(xs: seq<string>): (r: seq<string>)
    ensures forall i :: 0 <= i < |r| ==> r[i] != []
  {
    if xs == [] then [] else (if xs[0] != [] then [xs[0]] else []) + NonEmpty(xs[1..])
  }

  lemma {:induction false} NonEmptyAppend(a: seq<string>, b: seq<string>)
    ensures NonEmpty(a + b) == NonEmpty(a) + NonEmpty(b)
    decreases |a|
  {
    if a != [] {
      var head := if a[0] != [] then [a[0]] else [];
      assert (a + b)[0] == a[0];
      assert (a + b)[1..] == a[1..] + b;
      NonEmptyAppend(a[1..], b);
      calc {
        NonEmpty(a + b);
        head + NonEmpty(a[1..] + b);
        head + (NonEmpty(a[1..]) + NonEmpty(b));
        (head + NonEmpty(a[1..])) + NonEmpty(b);
        NonEmpty(a) + NonEmpty(b);
      }
    } else {
      assert a + b == b;
    }
  }

  lemma {:induction false} KeepKeepsLyrics(ps: seq<Pair>)
    ensures Lyrics(Keep(ps)) == Lyrics(ps)
  {
    if ps != [] {
      KeepKeepsLyrics(ps[1..]);
      if NonEmptyPair(ps[0]) {
        var k := [ps[0]] + Keep(ps[1..]);
        assert Keep(ps) == k;
        assert k[0] == ps[0] && k[1..] == Keep(ps[1..]);
        assert Lyrics(k) == ps[0].lyric + Lyrics(Keep(ps[1..]));
      } else {
        assert Keep(ps) == [] + Keep(ps[1..]) == Keep(ps[1..]);
        assert ps[0].lyric == [];
        assert Lyrics(ps) == [] + Lyrics(ps[1..]);
      }
    }
  }

  lemma {:induction false} KeepKeepsChords(ps: seq<Pair>)
    ensures NonEmpty(Chords(Keep(ps))) == NonEmpty(Chords(ps))
  {
    if ps != [] {
      KeepKeepsChords(ps[1..]);
      NonEmptyAppend([ps[0].chord], Chords(ps[1..]));
      assert Chords(ps) == [ps[0].chord] + Chords(ps[1..]);
      if NonEmptyPair(ps[0]) {
        var k := [ps[0]] + Keep(ps[1..]);
        assert Keep(ps) == k;
        assert k[0] == ps[0] && k[1..] == Keep(ps[1..]);
        assert Chords(k) == [ps[0].chord] + Chords(Keep(ps[1..]));
        NonEmptyAppend([ps[0].chord], Chords(Keep(ps[1..])));
      } else {
        assert Keep(ps) == [] + Keep(ps[1..]) == Keep(ps[1..]);
        assert ps[0].chord == [];
        assert NonEmpty([ps[0].chord]) == [];
      }
    }
  }

  lemma {:induction false} SegsLyrics(chord: string, lyric: string, s: string)
    ensures Lyrics(Segs(chord, lyric, s)) == lyric + Strip(s)
    decreases |s|
  {
    if s == [] {
      assert [Pair(chord, lyric)][1..] == [];
      assert lyric + [] == lyric;
    } else if s[0] != '[' {
      SegsLyrics(chord, lyric + [s[0]], s[1..]);
      assert Strip(s) == [s[0]] + Strip(s[1..]);
      assert (lyric + [s[0]]) + Strip(s[1..]) == lyric + ([s[0]] + Strip(s[1..]));
    } else {
      var g := Group(s);
      SegsLyrics(g.0, [], g.1);
      assert Strip(s) == Strip(g.1);
      var x := [Pair(chord, lyric)] + Segs(g.0, [], g.1);
      assert x[0] == Pair(chord, lyric) && x[1..] == Segs(g.0, [], g.1);
      assert Lyrics(x) == lyric + Lyrics(x[1..]);
      assert [] + Strip(g.1) == Strip(g.1);
    }
  }

  lemma {:induction false} SegsChords(chord: string, lyric: string, s: string)
    ensures NonEmpty(Chords(Segs(chord, lyric, s))) == NonEmpty([chord]) + NonEmpty(ClosedGroups(s))
    decreases |s|
  {
    if s == [] {
      assert Chords([Pair(chord, lyric)]) == [chord];
      assert NonEmpty(ClosedGroups(s)) == [];
    } else if s[0] != '[' {
      SegsChords(chord, lyric + [s[0]], s[1..]);
    } else {
      var g := Group(s);
      SegsChords(g.0, [], g.1);
      var x := [Pair(chord, lyric)] + Segs(g.0, [], g.1);
      assert x[1..] == Segs(g.0, [], g.1);
      assert Chords(x) == [chord] + Chords(Segs(g.0, [], g.1));
      NonEmptyAppend([chord], Chords(Segs(g.0, [], g.1)));
      var close := IndexOf(s, ']', 0);
      if close == -1 {
        assert NonEmpty([g.0]) == [];
      } else {
        NonEmptyAppend([g.0], ClosedGroups(g.1));
      }
    }
  }

  /** Concatenating the lyrics gives back the line without its chord groups and stray `[`s. */
  lemma LyricsAreStrippedLine(line: string)
    ensures Lyrics(LineSpec(line)) == Strip(line)
  {
    KeepKeepsLyrics(Segs([], [], line));
    SegsLyrics([], [], line);
    assert [] + Strip(line) == Strip(line);
  }

  /** The non-empty chords of the pairs are the non-empty `[...]` groups, in source order. */
  lemma ChordsInSourceOrder(line: string)
    ensures NonEmpty(Chords(LineSpec(line))) == NonEmpty(ClosedGroups(line))
  {
    KeepKeepsChords(Segs([], [], line));
    SegsChords([], [], line);
    assert NonEmpty([[]]) == [];
  }

  /** With no `]` in the line, every `[` is dropped and the rest is lyric. */
  lemma {:induction false} UnclosedBracketDropped(s: string)
    requires ']' !in s
    ensures Strip(s) == RemoveChar(s, '[')
    ensures ClosedGroups(s) == []
    decreases |s|
  {
    if s != [] {
      assert ']' !in s[1..];
      UnclosedBracketDropped(s[1..]);
    }
  }

  function RemoveChar(s: string, c: char): string {
    if s == [] then [] else (if s[0] == c then [] else [s[0]]) + RemoveChar(s[1..], c)
  }

  /** No pair of a parsed line has both an empty chord and an empty lyric. */
  lemma PairsNonEmpty(line: string)
    ensures forall p :: p in LineSpec(line) ==> NonEmptyPair(p)
  {
    KeepFilters(Segs([], [], line));
  }
}

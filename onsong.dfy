/**
 * parseOnSong: the lines before the first blank line are a metadata block of
 * `Key: Value` lines; after it, a line ending in `:` (without a chord) or a
 * `{c: …}` / `{comment: …}` line starts a section, and every other line is a
 * chord/lyric line. Only sections holding a line are kept, and the processed
 * sections frame them with an empty "Intro" and an empty "Outro".
 *
 * `Step` is what one line does to the parser's locals and `Fold` runs it over
 * the lines; `ParseOnSong` is the source's loop, proved to compute
 * `OnSongSong`. The id the source takes from the clock is a parameter.
 */
module OnSong {
  import opened Wrappers
  import opened Text
  import opened Directives
  import opened ChordLine
  import opened Songs

  /** The parser's locals between two lines. */
  datatype State = State(
    inMetadata: bool,
    title: string,
    artist: string,
    key: string,
    tempo: int,
    timeSignature: string,
    ccli: string,
    sections: seq<Section>,
    current: Option<Section>)

  function Start(filename: string): State {
    State(true, filename, "", "", 80, "4/4", "", [], None)
  }

  /** `parseInt(value, 10) || 80`: the parsed number, or 80 when it is NaN or 0. */
  function TempoValue(value: string): (r: int)
    ensures r != 0
    ensures ParseInt(value).None? || ParseInt(value) == Some(0) ==> r == 80
    ensures ParseInt(value).Some? && ParseInt(value) != Some(0) ==> r == ParseInt(value).value
  {
    match ParseInt(value)
    case Some(v) => if v != 0 then v else 80
    case None => 80
  }

  /** A metadata line: the value after a known `Key:` prefix, trimmed; other lines are ignored. */
  function Metadata(st: State, line: string): (r: State)
    ensures r.sections == st.sections && r.current == st.current && r.inMetadata == st.inMetadata
    ensures !StartsWith(line, "Key:") ==> r.key == st.key
  {
    if StartsWith(line, "Title:") then st.(title := Trim(line[6..]))
    else if StartsWith(line, "Artist:") then st.(artist := Trim(line[7..]))
    else if StartsWith(line, "Key:") then st.(key := Trim(line[4..]))
    else if StartsWith(line, "Tempo:") then st.(tempo := TempoValue(Trim(line[6..])))
    else if StartsWith(line, "Time:") then st.(timeSignature := Trim(line[5..]))
    else if StartsWith(line, "CCLI:") then st.(ccli := Trim(line[5..]))
    else st
  }

  /** The sections with the open one pushed when it holds at least one line. */
  function Flush(st: State): (r: seq<Section>)
    ensures r == st.sections || (st.current.Some? && st.current.value.lines != [] && r == st.sections + [st.current.value])
  {
    if st.current.Some? && |st.current.value.lines| > 0 then st.sections + [st.current.value] else st.sections
  }

  /** A section header: ends in `:` and holds no `[`. */
  predicate IsHeader(line: string) {
    EndsWith(line, ":") && '[' !in line
  }

  predicate IsComment(line: string) {
    StartsWith(line, "{c:") || StartsWith(line, "{comment:")
  }

  /**
   * One line of the input. In the metadata block sections are untouched;
   * afterwards sections only grow by pushing a non-empty open section.
   */
  function Step(st: State, raw: string): (r: State)
    ensures Trim(raw) == [] ==> r == st.(inMetadata := false)
    ensures st.inMetadata && Trim(raw) != [] ==> r.sections == st.sections && r.current == st.current
    ensures !st.inMetadata ==> !r.inMetadata
    ensures r.sections == st.sections
         || (st.current.Some? && st.current.value.lines != [] && r.sections == st.sections + [st.current.value])
  {
    var line := Trim(raw);
    if line == [] && st.inMetadata then st.(inMetadata := false)
    else if line == [] then st
    else if st.inMetadata then Metadata(st, line)
    else if IsHeader(line) then
      st.(sections := Flush(st), current := Some(Section(Trim(line[..|line| - 1]), [])))
    else if IsComment(line) then
      var name := Keyed(line, ["c", "comment"]).GetOr("Section");
      st.(sections := Flush(st), current := Some(Section(Trim(name), [])))
    else st.(current := Some(AddLine(st.current, line)))
  }

  /** The locals after the given lines, starting from `Start(filename)`. */
  function Fold(filename: string, lines: seq<string>): State
    decreases |lines|
  {
    if lines == [] then Start(filename)
    else Step(Fold(filename, lines[..|lines| - 1]), lines[|lines| - 1])
  }

  lemma FoldSnoc(filename: string, lines: seq<string>, i: nat)
    requires i < |lines|
    ensures Fold(filename, lines[..i + 1]) == Step(Fold(filename, lines[..i]), lines[i])
  {
    assert lines[..i + 1][..i] == lines[..i];
  }

  /**
   * The song built once every line is read: the processed sections are an
   * empty "Intro", the sections in order, and an empty "Outro".
   */
  function Finish(st: State, id: string): (r: Song)
    ensures r.key == (if st.key == [] then "C" else st.key) && r.currentKey == Some(r.key)
    ensures r.sections == Flush(st)
    ensures r.arrangement == Titles(r.sections)
    ensures r.processedSections.Some?
    ensures var p := r.processedSections.value;
      |p| == |r.sections| + 2 && p[0] == Section("Intro", []) && p[|p| - 1] == Section("Outro", [])
      && p[1..|p| - 1] == r.sections
  {
    var sections := Flush(st);
    var key := if st.key == [] then "C" else st.key;
    var processed := [Section("Intro", [])] + sections + [Section("Outro", [])];
    assert processed[1..|processed| - 1] == sections;
    Song(id, st.title, st.artist, key, Some(key), st.tempo, st.timeSignature, st.ccli,
         sections, Some(processed), Titles(sections), None)
  }

  /** What parseOnSong returns for `data`. */
  function OnSongSong(data: string, filename: string, id: string): Song {
    Finish(Fold(filename, Split(data, '\n')), id)
  }

  /** The `forEach` callback of parseOnSong: what one line does to the locals. */
  method HandleLine(st: State, raw: string) returns (r: State)
    ensures r == Step(st, raw)
  {
    r := st;
    var trimmed := Trim(raw);
    if trimmed == [] && r.inMetadata {
      r := r.(inMetadata := false);
      return;
    }
    if trimmed == [] {
      return;
    }
    if r.inMetadata {
      if StartsWith(trimmed, "Title:") {
        r := r.(title := Trim(trimmed[6..]));
      } else if StartsWith(trimmed, "Artist:") {
        r := r.(artist := Trim(trimmed[7..]));
      } else if StartsWith(trimmed, "Key:") {
        r := r.(key := Trim(trimmed[4..]));
      } else if StartsWith(trimmed, "Tempo:") {
        var tempoMatch := Trim(trimmed[6..]);
        r := r.(tempo := TempoValue(tempoMatch));
      } else if StartsWith(trimmed, "Time:") {
        r := r.(timeSignature := Trim(trimmed[5..]));
      } else if StartsWith(trimmed, "CCLI:") {
        r := r.(ccli := Trim(trimmed[5..]));
      }
      return;
    }
    if IsHeader(trimmed) {
      if r.current.Some? && |r.current.value.lines| > 0 {
        r := r.(sections := r.sections + [r.current.value]);
      }
      r := r.(current := Some(Section(Trim(trimmed[..|trimmed| - 1]), [])));
      return;
    }
    if IsComment(trimmed) {
      if r.current.Some? && |r.current.value.lines| > 0 {
        r := r.(sections := r.sections + [r.current.value]);
      }
      var sectionName := Keyed(trimmed, ["c", "comment"]).GetOr("Section");
      r := r.(current := Some(Section(Trim(sectionName), [])));
      return;
    }
    var open := if r.current.Some? then r.current.value else Section("Verse", []);
    var parsedLine := ParseLine(trimmed);
    if |parsedLine| > 0 {
      open := open.(lines := open.lines + [parsedLine]);
    }
    r := r.(current := Some(open));
  }

  /** `lines.forEach(…)`: the callback applied to each line in turn. */
  method HandleLines(filename: string, lines: seq<string>) returns (st: State)
    ensures st == Fold(filename, lines)
  {
    st := Start(filename);
    var i := 0;
    assert lines[..0] == [];
    while i < |lines|
      invariant 0 <= i <= |lines|
      invariant st == Fold(filename, lines[..i])
    {
      FoldSnoc(filename, lines, i);
      st := HandleLine(st, lines[i]);
      i := i + 1;
    }
    assert lines[..i] == lines;
  }

  /** parseOnSong: read every line, push the last section, then frame the processed sections. */
  method ParseOnSong(data: string, filename: string, id: string) returns (song: Song)
    ensures song == OnSongSong(data, filename, id)
  {
    var st := HandleLines(filename, Split(data, '\n'));
    var sections := st.sections;
    if st.current.Some? && |st.current.value.lines| > 0 {
      sections := sections + [st.current.value];
    }
    var processed := sections;
    processed := [Section("Intro", [])] + processed;
    processed := processed + [Section("Outro", [])];
    var key := if st.key == [] then "C" else st.key;
    song := Song(id, st.title, st.artist, key, Some(key), st.tempo, st.timeSignature, st.ccli,
                 sections, Some(processed), Titles(sections), None);
  }

  /** Whether some line is blank once trimmed. */
  predicate AnyBlank(lines: seq<string>)
    decreases |lines|
  {
    lines != [] && (AnyBlank(lines[..|lines| - 1]) || Trim(lines[|lines| - 1]) == [])
  }

  /** Until the first blank line the parser is in the metadata block and has no section. */
  lemma {:induction false} FoldNoBlank(filename: string, lines: seq<string>)
    requires !AnyBlank(lines)
    ensures Fold(filename, lines).inMetadata
    ensures Fold(filename, lines).sections == [] && Fold(filename, lines).current.None?
    decreases |lines|
  {
    if lines != [] {
      FoldNoBlank(filename, lines[..|lines| - 1]);
    }
  }

  /** A text without a blank line is all metadata: no sections, and the processed sections are only Intro and Outro. */
  lemma NoBlankNoSections(data: string, filename: string, id: string)
    requires !AnyBlank(Split(data, '\n'))
    ensures OnSongSong(data, filename, id).sections == []
    ensures OnSongSong(data, filename, id).processedSections == Some([Section("Intro", []), Section("Outro", [])])
  {
    var lines := Split(data, '\n');
    FoldNoBlank(filename, lines);
    FinishEmpty(Fold(filename, lines), id);
  }

  /** With no section pushed or open, the song has no sections and only Intro and Outro. */
  lemma FinishEmpty(st: State, id: string)
    requires st.sections == [] && st.current.None?
    ensures Finish(st, id).sections == []
    ensures Finish(st, id).processedSections == Some([Section("Intro", []), Section("Outro", [])])
  {
    var p := Finish(st, id).processedSections.value;
    assert p == [p[0], p[1]];
  }

  /** Every kept section holds at least one line, and every line is well formed. */
  predicate Kept(st: State) {
    AllWellFormed(st.sections)
    && (forall s :: s in st.sections ==> s.lines != [])
    && (st.current.Some? ==> WellFormedSection(st.current.value))
  }

  lemma StepKept(st: State, raw: string)
    requires Kept(st)
    ensures Kept(Step(st, raw))
  {
    var line := Trim(raw);
    var r := Step(st, raw);
    if line == [] || st.inMetadata {
      assert r.sections == st.sections && r.current == st.current;
      KeptParts(r, st.sections, st.current);
    } else if IsHeader(line) || IsComment(line) {
      FlushKept(st);
      assert r.sections == Flush(st) && r.current.Some? && r.current.value.lines == [];
      KeptParts(r, Flush(st), r.current);
    } else {
      AddLineWellFormed(st.current, line);
      assert r.sections == st.sections && r.current == Some(AddLine(st.current, line));
      KeptParts(r, st.sections, r.current);
    }
  }

  /** Kept only looks at the sections and the open section. */
  lemma KeptParts(r: State, sections: seq<Section>, current: Option<Section>)
    requires r.sections == sections && r.current == current
    requires AllWellFormed(sections) && forall s :: s in sections ==> s.lines != []
    requires current.Some? ==> WellFormedSection(current.value)
    ensures Kept(r)
  {
  }

  /** Closing the open section keeps every section non-empty and well formed. */
  lemma FlushKept(st: State)
    requires Kept(st)
    ensures AllWellFormed(Flush(st)) && forall s :: s in Flush(st) ==> s.lines != []
  {
    forall s | s in Flush(st) ensures WellFormedSection(s) && s.lines != [] {
      if s !in st.sections {
        assert s == st.current.value;
      }
    }
  }

  lemma {:induction false} FoldKept(filename: string, lines: seq<string>)
    ensures Kept(Fold(filename, lines))
    decreases |lines|
  {
    if lines != [] {
      FoldKept(filename, lines[..|lines| - 1]);
      StepKept(Fold(filename, lines[..|lines| - 1]), lines[|lines| - 1]);
    }
  }

  /** No section of the song is empty, and every line has a pair and no empty pair. */
  lemma SectionsHoldLines(data: string, filename: string, id: string)
    ensures forall s :: s in OnSongSong(data, filename, id).sections ==> s.lines != []
    ensures AllWellFormed(OnSongSong(data, filename, id).sections)
  {
    var st := Fold(filename, Split(data, '\n'));
    FoldKept(filename, Split(data, '\n'));
    var sections := Flush(st);
    forall s | s in sections ensures s.lines != [] && WellFormedSection(s) {
      if s !in st.sections {
        assert s == st.current.value;
      }
    }
  }

  /** `Tempo: n` with n a non-zero decimal number sets the tempo to n; a value without digits gives 80. */
  lemma TempoLine(value: string)
    ensures (value != [] && (forall i :: 0 <= i < |value| ==> IsDigit(value[i])) && DigitsValue(value) != 0)
            ==> TempoValue(value) == DigitsValue(value)
    ensures ParseInt(value).None? ==> TempoValue(value) == 80
  {
    if value != [] && (forall i :: 0 <= i < |value| ==> IsDigit(value[i])) {
      ParseIntDigits(value);
    }
  }

  /** A `Tempo:` value starting with a decimal number gives that number, or 80 when it is 0; what follows the digits is ignored. */
  lemma TempoLeading(d: string, rest: string)
    requires d != [] && forall i :: 0 <= i < |d| ==> IsDigit(d[i])
    requires rest == [] || !IsDigit(rest[0])
    ensures TempoValue(d + rest) == if DigitsValue(d) == 0 then 80 else DigitsValue(d)
  {
    ParseIntLeading(d, rest);
  }

  /** A header line closes the open section (kept only if it has a line) and opens an empty one named by the text before the colon. */
  lemma HeaderLine(st: State, raw: string)
    requires !st.inMetadata && Trim(raw) != [] && IsHeader(Trim(raw))
    ensures Step(st, raw).current == Some(Section(Trim(Trim(raw)[..|Trim(raw)| - 1]), []))
    ensures Step(st, raw).sections
         == if st.current.Some? && st.current.value.lines != [] then st.sections + [st.current.value] else st.sections
  {
  }

  /**
   * A `{c: name}` or `{comment: name}` line after the metadata block closes the
   * open section (kept only if it has a line) and opens an empty one named by
   * the trimmed capture, or "Section" when the pattern does not match.
   */
  lemma CommentLine(st: State, raw: string)
    requires !st.inMetadata && Trim(raw) != [] && !IsHeader(Trim(raw)) && IsComment(Trim(raw))
    ensures Step(st, raw).current == Some(Section(Trim(Keyed(Trim(raw), ["c", "comment"]).GetOr("Section")), []))
    ensures Step(st, raw).sections
         == if st.current.Some? && st.current.value.lines != [] then st.sections + [st.current.value] else st.sections
  {
  }

  /** After the metadata block any other line only adds to the open section (a new "Verse" when none is open). */
  lemma LyricLineStep(st: State, raw: string)
    requires !st.inMetadata && Trim(raw) != [] && !IsHeader(Trim(raw)) && !IsComment(Trim(raw))
    ensures Step(st, raw) == st.(current := Some(AddLine(st.current, Trim(raw))))
  {
  }

  /** A line that does not start with `Key:` once trimmed leaves the key alone. */
  lemma StepKeepsKey(st: State, raw: string)
    requires !StartsWith(Trim(raw), "Key:")
    ensures Step(st, raw).key == st.key
  {
    var line := Trim(raw);
    if line == [] {
    } else if st.inMetadata {
      assert Step(st, raw) == Metadata(st, line);
    } else if IsHeader(line) || IsComment(line) {
      assert Step(st, raw).key == st.key;
    } else {
      assert Step(st, raw) == st.(current := Some(AddLine(st.current, line)));
    }
  }

  /** Without a `Key:` line the key stays empty. */
  lemma {:induction false} FoldKeyDefault(filename: string, lines: seq<string>)
    requires forall l :: l in lines ==> !StartsWith(Trim(l), "Key:")
    ensures Fold(filename, lines).key == []
    decreases |lines|
  {
    if lines != [] {
      var prev := lines[..|lines| - 1];
      assert forall l :: l in prev ==> l in lines;
      FoldKeyDefault(filename, prev);
      assert lines[|lines| - 1] in lines;
      StepKeepsKey(Fold(filename, prev), lines[|lines| - 1]);
    }
  }

  /** Without a `Key:` line the song's key and current key are "C". */
  lemma KeyDefault(data: string, filename: string, id: string)
    requires forall l :: l in Split(data, '\n') ==> !StartsWith(Trim(l), "Key:")
    ensures OnSongSong(data, filename, id).key == "C"
    ensures OnSongSong(data, filename, id).currentKey == Some("C")
  {
    FoldKeyDefault(filename, Split(data, '\n'));
  }
}

/**
 * parseChordPro: the text is split into lines, each line is trimmed, and
 * directives (`{title: …}`, `{start_of_chorus}`, …) set metadata or open and
 * close sections while every other line is a chord/lyric line of the open
 * section.
 *
 * `Step` is what one line does to the parser's locals and `Fold` runs it over
 * the lines; `ParseChordPro` is the source's loop, proved to compute
 * `ChordProSong`. The id the source takes from the clock is a parameter.
 */
module ChordPro {
  import opened Wrappers
  import opened Text
  import opened Directives
  import opened ChordLine
  import opened Songs

  /** The parser's locals between two lines. */
  datatype State = State(
    title: string,
    artist: string,
    key: string,
    tempo: int,
    timeSignature: string,
    ccli: string,
    sections: seq<Section>,
    current: Option<Section>)

  function Start(filename: string): State {
    State(filename, "", "", 80, "4/4", "", [], None)
  }

  /** Which branch of the parser's if-chain a trimmed line takes, tried in the source's order. */
  datatype Kind = Blank | TitleDir | ArtistDir | KeyDir | TempoDir | TimeDir | CcliDir
                | StartDir | EndDir | LyricLine | OtherDir

  function Classify(line: string): (k: Kind)
    ensures k == Blank <==> line == []
    ensures k == LyricLine <==> line != [] && line[0] != '{'
    ensures k == OtherDir ==> line[0] == '{'
  {
    if line == [] then Blank
    else if StartsWith(line, "{title:") || StartsWith(line, "{t:") then TitleDir
    else if StartsWith(line, "{artist:") || StartsWith(line, "{a:") then ArtistDir
    else if StartsWith(line, "{key:") || StartsWith(line, "{k:") then KeyDir
    else if StartsWith(line, "{tempo:") then TempoDir
    else if StartsWith(line, "{time:") then TimeDir
    else if StartsWith(line, "{ccli:") then CcliDir
    else if StartsWith(line, "{start_of_") || StartsWith(line, "{soc") then StartDir
    else if StartsWith(line, "{end_of_") || StartsWith(line, "{eoc") then EndDir
    else if !StartsWith(line, "{") then LyricLine
    else OtherDir
  }

  /**
   * One line of the input. Sections only ever grow by pushing the open
   * section, and a blank line changes nothing.
   */
  function Step(st: State, raw: string): (r: State)
    ensures Trim(raw) == [] ==> r == st
    ensures r.sections == st.sections
         || (st.current.Some? && r.current.None? && r.sections == st.sections + [st.current.value])
  {
    var line := Trim(raw);
    match Classify(line)
    case Blank => st
    case TitleDir => st.(title := Keyed(line, ["title", "t"]).GetOr(st.title))
    case ArtistDir => st.(artist := Keyed(line, ["artist", "a"]).GetOr(""))
    case KeyDir => st.(key := Keyed(line, ["key", "k"]).GetOr(""))
    case TempoDir =>
      (match Tempo(line)
       case Some(digits) => st.(tempo := ParseInt(digits).GetOr(st.tempo))
       case None => st)
    case TimeDir => st.(timeSignature := Keyed(line, ["time"]).GetOr("4/4"))
    case CcliDir => st.(ccli := Keyed(line, ["ccli"]).GetOr(""))
    case StartDir => st.(current := Some(Section(StartOfTitle(line), [])))
    case EndDir =>
      if st.current.Some? then st.(sections := st.sections + [st.current.value], current := None) else st
    case LyricLine => st.(current := Some(AddLine(st.current, line)))
    case OtherDir => st
  }

  /** The locals after the given lines, starting from `Start(filename)`. */
  function Fold(filename: string, lines: seq<string>): State
    decreases |lines|
  {
    if lines == [] then Start(filename)
    else Step(Fold(filename, lines[..|lines| - 1]), lines[|lines| - 1])
  }

  /** The song built from the locals once every line is read. */
  function Finish(st: State, id: string): (r: Song)
    ensures r.key != [] && r.processedSections.None?
    ensures r.arrangement == Titles(r.sections)
  {
    var sections := st.sections + (if st.current.Some? then [st.current.value] else []);
    Song(id, st.title, st.artist, if st.key == [] then "C" else st.key, None, st.tempo,
         st.timeSignature, st.ccli, sections, None, Titles(sections), None)
  }

  /** What parseChordPro returns for `data`. */
  function ChordProSong(data: string, filename: string, id: string): Song {
    Finish(Fold(filename, Split(data, '\n')), id)
  }

  /** The `forEach` callback of parseChordPro: what one line does to the locals. */
  method HandleLine(st: State, raw: string) returns (r: State)
    ensures r == Step(st, raw)
  {
    r := st;
    var line := Trim(raw);
    match Classify(line) {
      case Blank =>
      case TitleDir => r := r.(title := Keyed(line, ["title", "t"]).GetOr(r.title));
      case ArtistDir => r := r.(artist := Keyed(line, ["artist", "a"]).GetOr(""));
      case KeyDir => r := r.(key := Keyed(line, ["key", "k"]).GetOr(""));
      case TempoDir =>
        var tempoMatch := Tempo(line);
        if tempoMatch.Some? {
          r := r.(tempo := ParseInt(tempoMatch.value).GetOr(r.tempo));
        }
      case TimeDir => r := r.(timeSignature := Keyed(line, ["time"]).GetOr("4/4"));
      case CcliDir => r := r.(ccli := Keyed(line, ["ccli"]).GetOr(""));
      case StartDir => r := r.(current := Some(Section(StartOfTitle(line), [])));
      case EndDir =>
        if r.current.Some? {
          r := r.(sections := r.sections + [r.current.value], current := None);
        }
      case LyricLine =>
        var open := if r.current.Some? then r.current.value else Section("Verse", []);
        var parsed := ParseLine(line);
        if |parsed| > 0 {
          open := open.(lines := open.lines + [parsed]);
        }
        r := r.(current := Some(open));
      case OtherDir =>
    }
  }

  lemma FoldSnoc(filename: string, lines: seq<string>, i: nat)
    requires i < |lines|
    ensures Fold(filename, lines[..i + 1]) == Step(Fold(filename, lines[..i]), lines[i])
  {
    assert lines[..i + 1][..i] == lines[..i];
  }

  /** `lines.forEach(…)`: the callback applied to each line in turn. */
  method HandleLines(filename: string, lines: seq<string>) returns (st: State)
    ensures st == Fold(filename, lines)
  {
    st := Start(filename);
    var i := 0;
    assert lines[..0] == [];
    while i < |lines|
      invariant 0 <= i <= |lines|
      invariant st == Fold(filename, lines[..i])
    {
      FoldSnoc(filename, lines, i);
      st := HandleLine(st, lines[i]);
      i := i + 1;
    }
    assert lines[..i] == lines;
  }

  /** parseChordPro: split, read every line, then push the open section and build the song. */
  method ParseChordPro(data: string, filename: string, id: string) returns (song: Song)
    ensures song == ChordProSong(data, filename, id)
  {
    var st := HandleLines(filename, Split(data, '\n'));
    song := BuildSong(st, id);
  }

  /** The tail of parseChordPro: push the section still open, then build the song object. */
  method BuildSong(st: State, id: string) returns (song: Song)
    ensures song == Finish(st, id)
  {
    var sections := st.sections;
    if st.current.Some? {
      sections := sections + [st.current.value];
    }
    assert sections == st.sections + (if st.current.Some? then [st.current.value] else []);
    song := Song(id, st.title, st.artist, if st.key == [] then "C" else st.key, None, st.tempo,
                 st.timeSignature, st.ccli, sections, None, Titles(sections), None);
  }

  predicate WellFormedState(st: State) {
    AllWellFormed(st.sections) && (st.current.Some? ==> WellFormedSection(st.current.value))
  }

  lemma StepWellFormed(st: State, raw: string)
    requires WellFormedState(st)
    ensures WellFormedState(Step(st, raw))
  {
    var line := Trim(raw);
    var r := Step(st, raw);
    var kind := Classify(line);
    if kind == LyricLine {
      AddLineWellFormed(st.current, line);
      assert r.sections == st.sections && r.current == Some(AddLine(st.current, line));
    } else if kind == EndDir && st.current.Some? {
      assert r.sections == st.sections + [st.current.value] && r.current.None?;
      AppendWellFormed(st.sections, st.current.value);
    } else if kind == StartDir {
      assert r.sections == st.sections && r.current.Some? && r.current.value.lines == [];
    } else {
      assert r.sections == st.sections && r.current == st.current;
    }
  }

  lemma AppendWellFormed(sections: seq<Section>, s: Section)
    requires AllWellFormed(sections) && WellFormedSection(s)
    ensures AllWellFormed(sections + [s])
  {
    forall t | t in sections + [s] ensures WellFormedSection(t) {
      if t != s {
        assert t in sections;
      }
    }
  }

  /** Every line the parser keeps has a pair, and no pair is empty on both sides. */
  lemma {:induction false} FoldWellFormed(filename: string, lines: seq<string>)
    ensures WellFormedState(Fold(filename, lines))
    decreases |lines|
  {
    if lines != [] {
      FoldWellFormed(filename, lines[..|lines| - 1]);
      StepWellFormed(Fold(filename, lines[..|lines| - 1]), lines[|lines| - 1]);
    }
  }

  lemma SongWellFormed(data: string, filename: string, id: string)
    ensures AllWellFormed(ChordProSong(data, filename, id).sections)
  {
    var st := Fold(filename, Split(data, '\n'));
    FoldWellFormed(filename, Split(data, '\n'));
    var sections := st.sections + (if st.current.Some? then [st.current.value] else []);
    forall s | s in sections ensures WellFormedSection(s) {
      if s !in st.sections {
        assert s == st.current.value;
      }
    }
  }

  /** A `{tempo: digits}` directive sets the tempo to the decimal value of the digits. */
  lemma TempoDirective(st: State, raw: string)
    requires Classify(Trim(raw)) == TempoDir && Tempo(Trim(raw)).Some?
    ensures Step(st, raw).tempo == DigitsValue(Tempo(Trim(raw)).value)
  {
    ParseIntDigits(Tempo(Trim(raw)).value);
  }

  /** A line changes the tempo only through a tempo directive with digits, the key and the title only through their own directives. */
  lemma StepKeepsMetadata(st: State, raw: string)
    ensures Tempo(Trim(raw)).None? ==> Step(st, raw).tempo == st.tempo
    ensures Classify(Trim(raw)) != KeyDir ==> Step(st, raw).key == st.key
    ensures Classify(Trim(raw)) != TitleDir ==> Step(st, raw).title == st.title
  {
    var line := Trim(raw);
    var r := Step(st, raw);
    match Classify(line)
    case TitleDir => assert r.tempo == st.tempo && r.key == st.key;
    case KeyDir => assert r.tempo == st.tempo && r.title == st.title;
    case TempoDir => assert r.key == st.key && r.title == st.title;
    case _ => assert r.tempo == st.tempo && r.key == st.key && r.title == st.title;
  }

  /** Without a `{tempo: digits}` directive the tempo stays 80. */
  lemma {:induction false} FoldTempoDefault(filename: string, lines: seq<string>)
    requires forall l :: l in lines ==> Tempo(Trim(l)).None?
    ensures Fold(filename, lines).tempo == 80
    decreases |lines|
  {
    if lines != [] {
      var prev := lines[..|lines| - 1];
      assert forall l :: l in prev ==> l in lines;
      FoldTempoDefault(filename, prev);
      assert lines[|lines| - 1] in lines;
      StepKeepsMetadata(Fold(filename, prev), lines[|lines| - 1]);
    }
  }

  lemma TempoDefault(data: string, filename: string, id: string)
    requires forall l :: l in Split(data, '\n') ==> Tempo(Trim(l)).None?
    ensures ChordProSong(data, filename, id).tempo == 80
  {
    FoldTempoDefault(filename, Split(data, '\n'));
  }

  /** Without a `{key: …}` or `{k: …}` line the key stays empty. */
  lemma {:induction false} FoldKeyDefault(filename: string, lines: seq<string>)
    requires forall l :: l in lines ==> Classify(Trim(l)) != KeyDir
    ensures Fold(filename, lines).key == []
    decreases |lines|
  {
    if lines != [] {
      var prev := lines[..|lines| - 1];
      assert forall l :: l in prev ==> l in lines;
      FoldKeyDefault(filename, prev);
      assert lines[|lines| - 1] in lines;
      StepKeepsMetadata(Fold(filename, prev), lines[|lines| - 1]);
    }
  }

  /** Without a key directive the song's key is "C". */
  lemma KeyDefault(data: string, filename: string, id: string)
    requires forall l :: l in Split(data, '\n') ==> Classify(Trim(l)) != KeyDir
    ensures ChordProSong(data, filename, id).key == "C"
  {
    FoldKeyDefault(filename, Split(data, '\n'));
  }

  /** Without a title directive the title is the file name. */
  lemma {:induction false} FoldTitleDefault(filename: string, lines: seq<string>)
    requires forall l :: l in lines ==> Classify(Trim(l)) != TitleDir
    ensures Fold(filename, lines).title == filename
    decreases |lines|
  {
    if lines != [] {
      var prev := lines[..|lines| - 1];
      assert forall l :: l in prev ==> l in lines;
      FoldTitleDefault(filename, prev);
      assert lines[|lines| - 1] in lines;
      StepKeepsMetadata(Fold(filename, prev), lines[|lines| - 1]);
    }
  }

  /** A lyric line: not blank and not a directive. */
  predicate IsLyricLine(raw: string) {
    Classify(Trim(raw)) == LyricLine
  }

  /** The parsed lines of a plain lyric text, blank lines and empty parses left out. */
  function ParsedLines(lines: seq<string>): seq<seq<Pair>>
    decreases |lines|
  {
    if lines == [] then []
    else
      var last := LineSpec(Trim(lines[|lines| - 1]));
      ParsedLines(lines[..|lines| - 1])
      + (if IsLyricLine(lines[|lines| - 1]) && |last| > 0 then [last] else [])
  }

  /** Whether some line is a lyric line. */
  predicate AnyLyric(lines: seq<string>)
    decreases |lines|
  {
    lines != [] && (AnyLyric(lines[..|lines| - 1]) || IsLyricLine(lines[|lines| - 1]))
  }

  /** Whether every line is blank or a lyric line. */
  predicate AllPlain(lines: seq<string>)
    decreases |lines|
  {
    lines == [] || (AllPlain(lines[..|lines| - 1]) && (Trim(lines[|lines| - 1]) == [] || IsLyricLine(lines[|lines| - 1])))
  }

  /** Lines without a lyric line parse to no lines. */
  lemma {:induction false} ParsedLinesNone(lines: seq<string>)
    requires !AnyLyric(lines)
    ensures ParsedLines(lines) == []
    decreases |lines|
  {
    if lines != [] {
      ParsedLinesNone(lines[..|lines| - 1]);
    }
  }

  /** One blank or lyric line of a text without directives. */
  lemma PlainStep(st: State, raw: string, parsed: seq<seq<Pair>>)
    requires Trim(raw) == [] || IsLyricLine(raw)
    requires st.sections == [] && (st.current.None? ==> parsed == [])
    requires st.current.Some? ==> st.current == Some(Section("Verse", parsed))
    ensures Step(st, raw).sections == []
    ensures Trim(raw) == [] ==> Step(st, raw) == st
    ensures IsLyricLine(raw) ==>
      Step(st, raw).current
      == Some(Section("Verse", parsed + (if |LineSpec(Trim(raw))| > 0 then [LineSpec(Trim(raw))] else [])))
  {
    var line := Trim(raw);
    if line == [] {
      assert Classify(line) == Blank;
    } else {
      assert Classify(line) == LyricLine;
      if |LineSpec(line)| == 0 {
        assert parsed + [] == parsed;
      }
    }
  }

  /**
   * A text without directives becomes one implicit "Verse" section holding
   * its parsed lines in order, opened by its first lyric line.
   */
  lemma {:induction false} FoldPlainText(filename: string, lines: seq<string>)
    requires AllPlain(lines)
    ensures Fold(filename, lines).sections == []
    ensures Fold(filename, lines).current
         == if AnyLyric(lines) then Some(Section("Verse", ParsedLines(lines))) else None
    decreases |lines|
  {
    if lines != [] {
      var prev := lines[..|lines| - 1];
      FoldPlainText(filename, prev);
      if !AnyLyric(prev) {
        ParsedLinesNone(prev);
      }
      var last := lines[|lines| - 1];
      PlainStep(Fold(filename, prev), last, ParsedLines(prev));
      assert Fold(filename, lines) == Step(Fold(filename, prev), last);
      if !IsLyricLine(last) {
        assert Trim(last) == [];
        assert Fold(filename, lines) == Fold(filename, prev);
        assert ParsedLines(lines) == ParsedLines(prev) + [];
        assert ParsedLines(lines) == ParsedLines(prev);
        assert AnyLyric(lines) == AnyLyric(prev);
      } else {
        var ext := if |LineSpec(Trim(last))| > 0 then [LineSpec(Trim(last))] else [];
        assert ParsedLines(lines) == ParsedLines(prev) + ext;
        assert AnyLyric(lines);
        assert Fold(filename, lines).current == Some(Section("Verse", ParsedLines(prev) + ext));
      }
    }
  }

  lemma PlainText(data: string, filename: string, id: string)
    requires AllPlain(Split(data, '\n')) && AnyLyric(Split(data, '\n'))
    ensures ChordProSong(data, filename, id).sections == [Section("Verse", ParsedLines(Split(data, '\n')))]
  {
    FoldPlainText(filename, Split(data, '\n'));
  }

  /**
   * A `{start_of_…}` line replaces the open section without pushing it: the
   * lines collected so far in that section are dropped.
   */
  lemma StartDropsOpenSection(st: State, raw: string)
    requires st.current.Some? && Classify(Trim(raw)) == StartDir
    ensures Step(st, raw).sections == st.sections
    ensures Step(st, raw).current == Some(Section(StartOfTitle(Trim(raw)), []))
  {
  }

  /** `{end_of_…}` pushes the open section and closes it; with no section open it does nothing. */
  lemma EndPushesOpenSection(st: State, raw: string)
    requires Classify(Trim(raw)) == EndDir
    ensures st.current.Some? ==> Step(st, raw) == st.(sections := st.sections + [st.current.value], current := None)
    ensures st.current.None? ==> Step(st, raw) == st
  {
  }

  /** A chord/lyric line only adds to the open section (a new "Verse" when none is open); the pushed sections stay. */
  lemma LyricLineStep(st: State, raw: string)
    requires IsLyricLine(raw)
    ensures Step(st, raw) == st.(current := Some(AddLine(st.current, Trim(raw))))
  {
    assert Classify(Trim(raw)) == LyricLine;
  }

  /** At the end of the input the section still open is pushed after the others. */
  lemma FinalSectionPushed(data: string, filename: string, id: string)
    ensures var st := Fold(filename, Split(data, '\n'));
      ChordProSong(data, filename, id).sections
      == st.sections + (if st.current.Some? then [st.current.value] else [])
  {
  }
}

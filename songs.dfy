/**
 * The song record both parsers produce and the library stores: metadata,
 * the sections of chord/lyric lines, the optional processed sections the
 * renderer uses, the arrangement and an optional background video.
 */
module Songs {
  import opened Wrappers
  import opened ChordLine

  /** A titled block of parsed lines; each line is a sequence of chord/lyric pairs. */
  datatype Section = Section(title: string, lines: seq<seq<Pair>>)

  /**
   * A song as the library stores it. `currentKey` is set by the OnSong parser
   * only; `processedSections` likewise. `backgroundVideo` is the song's
   * `presentation.backgroundVideo`, which the worship view reads and neither
   * parser sets.
   */
  datatype Song = Song(
    id: string,
    title: string,
    artist: string,
    key: string,
    currentKey: Option<string>,
    tempo: int,
    timeSignature: string,
    ccli: string,
    sections: seq<Section>,
    processedSections: Option<seq<Section>>,
    arrangement: seq<string>,
    backgroundVideo: Option<string>)

  /** `sections.map(s => s.title)` */
  function Titles(ss: seq<Section>): (r: seq<string>)
    ensures |r| == |ss| && forall i :: 0 <= i < |ss| ==> r[i] == ss[i].title
  {
    if ss == [] then [] else [ss[0].title] + Titles(ss[1..])
  }

  /** A line a parser keeps: at least one pair, and no pair with both parts empty. */
  predicate WellFormedLine(l: seq<Pair>) {
    l != [] && forall p :: p in l ==> NonEmptyPair(p)
  }

  predicate WellFormedSection(s: Section) {
    forall l :: l in s.lines ==> WellFormedLine(l)
  }

  predicate AllWellFormed(ss: seq<Section>) {
    forall s :: s in ss ==> WellFormedSection(s)
  }

  /** What a chord/lyric line does to the open section (opening "Verse" when none is open). */
  function AddLine(current: Option<Section>, line: string): (r: Section)
    ensures r.title == if current.Some? then current.value.title else "Verse"
  {
    var open := current.GetOr(Section("Verse", []));
    var parsed := LineSpec(line);
    if |parsed| > 0 then open.(lines := open.lines + [parsed]) else open
  }

  /** The open section stays well formed when a chord/lyric line is added to it. */
  lemma AddLineWellFormed(current: Option<Section>, line: string)
    requires current.Some? ==> WellFormedSection(current.value)
    ensures WellFormedSection(AddLine(current, line))
  {
    PairsNonEmpty(line);
    var open := current.GetOr(Section("Verse", []));
    var parsed := LineSpec(line);
    if |parsed| > 0 {
      forall l | l in open.lines + [parsed] ensures WellFormedLine(l) {
        if l != parsed {
          assert l in open.lines;
        }
      }
    }
  }
}

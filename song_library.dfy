/**
 * The in-memory song list of the song library: load, replace-by-id insert,
 * merge update, delete, lookup, case-insensitive search, and file import
 * dispatched by extension.
 *
 * The list operations are specified by functions on `seq<Song>`; the
 * `Library` class holds the two module-level refs (`songs`, `isLoaded`) and
 * its methods are proved to update them as those functions say. Persistence
 * and file reading are effects outside the model: their outcomes are
 * parameters (the save error, a `Read` value), and the clock-based id is `now`.
 */
module SongLibrary {
  import opened Wrappers
  import opened Text
  import opened Songs
  import ChordPro
  import OnSong

  // ----- lookup -----

  /** `songs.findIndex(s => s.id === id)` */
  function FindIndex(songs: seq<Song>, id: string): (r: int)
    ensures r == -1 <==> forall j :: 0 <= j < |songs| ==> songs[j].id != id
    ensures r != -1 ==> 0 <= r < |songs| && songs[r].id == id
    ensures r != -1 ==> forall j :: 0 <= j < r ==> songs[j].id != id
  {
    if songs == [] then -1
    else if songs[0].id == id then 0
    else
      var k := FindIndex(songs[1..], id);
      if k == -1 then -1 else k + 1
  }

  /** findSongById: the first song with the id, if any. */
  function FindSongById(songs: seq<Song>, id: string): (r: Option<Song>)
    ensures r.None? <==> forall s :: s in songs ==> s.id != id
    ensures r.Some? ==> r.value in songs && r.value.id == id
    ensures r.Some? ==> exists k :: 0 <= k < |songs| && songs[k] == r.value
                          && forall j :: 0 <= j < k ==> songs[j].id != id
  {
    var k := FindIndex(songs, id);
    if k == -1 then None else Some(songs[k])
  }

  /** How many songs carry the id. */
  function Count(songs: seq<Song>, id: string): nat {
    if songs == [] then 0 else (if songs[0].id == id then 1 else 0) + Count(songs[1..], id)
  }

  predicate UniqueIds(songs: seq<Song>) {
    forall i, j :: 0 <= i < j < |songs| ==> songs[i].id != songs[j].id
  }

  lemma {:induction false} CountAppend(a: seq<Song>, b: seq<Song>, id: string)
    ensures Count(a + b, id) == Count(a, id) + Count(b, id)
    decreases |a|
  {
    if a == [] {
      assert a + b == b;
    } else {
      assert (a + b)[1..] == a[1..] + b;
      CountAppend(a[1..], b, id);
    }
  }

  lemma {:induction false} CountZero(songs: seq<Song>, id: string)
    ensures Count(songs, id) == 0 <==> forall s :: s in songs ==> s.id != id
    decreases |songs|
  {
    if songs != [] {
      CountZero(songs[1..], id);
      assert songs == [songs[0]] + songs[1..];
    }
  }

  // ----- addSong -----

  /** `songs.splice(findIndex(...), 1)` when a song has the id; the list unchanged otherwise. */
  function RemoveFirst(songs: seq<Song>, id: string): (r: seq<Song>)
    ensures FindIndex(songs, id) == -1 ==> r == songs
    ensures FindIndex(songs, id) != -1 ==> |r| == |songs| - 1
  {
    var k := FindIndex(songs, id);
    if k == -1 then songs else songs[..k] + songs[k + 1..]
  }

  /** The id addSong gives the song: its own, or the clock's when it has none. */
  function AssignedId(song: Song, now: string): string {
    if song.id != [] then song.id else now
  }

  /** The list after addSong: any song with the id removed, then the song appended. */
  function Added(songs: seq<Song>, song: Song, now: string): seq<Song> {
    var id := AssignedId(song, now);
    RemoveFirst(songs, id) + [song.(id := id)]
  }

  /**
   * After addSong the song is last and one song with its id is gone: with at
   * most one song of that id before, exactly one has it afterwards.
   */
  lemma AddedReplaces(songs: seq<Song>, song: Song, now: string)
    ensures var r := Added(songs, song, now);
      var id := AssignedId(song, now);
      r != [] && r[|r| - 1] == song.(id := id)
      && Count(r, id) == (if Count(songs, id) == 0 then 1 else Count(songs, id))
      && (Count(songs, id) <= 1 ==> Count(r, id) == 1)
  {
    var id := AssignedId(song, now);
    var k := FindIndex(songs, id);
    CountZero(songs, id);
    CountAppend(RemoveFirst(songs, id), [song.(id := id)], id);
    assert Count([song.(id := id)], id) == 1;
    if k != -1 {
      assert songs == songs[..k] + ([songs[k]] + songs[k + 1..]);
      CountAppend(songs[..k], [songs[k]] + songs[k + 1..], id);
      CountAppend([songs[k]], songs[k + 1..], id);
      CountAppend(songs[..k], songs[k + 1..], id);
      assert Count([songs[k]], id) == 1;
    }
  }

  /** addSong keeps ids unique. */
  lemma AddedKeepsUnique(songs: seq<Song>, song: Song, now: string)
    requires UniqueIds(songs)
    ensures UniqueIds(Added(songs, song, now))
  {
    var id := AssignedId(song, now);
    var k := FindIndex(songs, id);
    var rest := RemoveFirst(songs, id);
    if k == -1 {
      assert rest == songs;
      assert forall s :: s in rest ==> s.id != id;
    } else {
      assert rest == songs[..k] + songs[k + 1..];
      RemoveAtUnique(songs, k);
    }
    AppendUnique(rest, song.(id := id));
  }

  /** Taking one song out of a list with unique ids leaves unique ids, none of them the removed song's. */
  lemma RemoveAtUnique(songs: seq<Song>, k: int)
    requires UniqueIds(songs) && 0 <= k < |songs|
    ensures var rest := songs[..k] + songs[k + 1..];
      UniqueIds(rest) && forall s :: s in rest ==> s.id != songs[k].id
  {
    var rest := songs[..k] + songs[k + 1..];
    assert forall m :: 0 <= m < |rest| ==> rest[m] == songs[if m < k then m else m + 1];
  }

  /** Appending a song whose id is new keeps ids unique. */
  lemma AppendUnique(rest: seq<Song>, x: Song)
    requires UniqueIds(rest) && forall s :: s in rest ==> s.id != x.id
    ensures UniqueIds(rest + [x])
  {
    var r := rest + [x];
    forall i, j | 0 <= i < j < |r| ensures r[i].id != r[j].id {
      if j == |r| - 1 {
        assert r[i] in rest;
      } else {
        assert r[i] == rest[i] && r[j] == rest[j];
      }
    }
  }

  // ----- updateSong -----

  /** The properties an update object may carry; an absent one keeps the song's value. */
  datatype SongPatch = SongPatch(
    id: Option<string>,
    title: Option<string>,
    artist: Option<string>,
    key: Option<string>,
    currentKey: Option<Option<string>>,
    tempo: Option<int>,
    timeSignature: Option<string>,
    ccli: Option<string>,
    sections: Option<seq<Section>>,
    processedSections: Option<Option<seq<Section>>>,
    arrangement: Option<seq<string>>,
    backgroundVideo: Option<Option<string>>)

  /** `{ ...song, ...updates }` */
  function Merge(s: Song, u: SongPatch): Song {
    Song(u.id.GetOr(s.id), u.title.GetOr(s.title), u.artist.GetOr(s.artist), u.key.GetOr(s.key),
         u.currentKey.GetOr(s.currentKey), u.tempo.GetOr(s.tempo), u.timeSignature.GetOr(s.timeSignature),
         u.ccli.GetOr(s.ccli), u.sections.GetOr(s.sections), u.processedSections.GetOr(s.processedSections),
         u.arrangement.GetOr(s.arrangement), u.backgroundVideo.GetOr(s.backgroundVideo))
  }

  /** The list after updateSong: the first song with the id merged in place. */
  function Updated(songs: seq<Song>, id: string, u: SongPatch): (r: seq<Song>)
    ensures |r| == |songs|
  {
    var k := FindIndex(songs, id);
    if k == -1 then songs else songs[k := Merge(songs[k], u)]
  }

  /** An update touches only the first song with the id, and keeps it at its position. */
  lemma UpdatedInPlace(songs: seq<Song>, id: string, u: SongPatch)
    ensures FindIndex(songs, id) == -1 ==> Updated(songs, id, u) == songs
    ensures var k := FindIndex(songs, id);
      k != -1 ==>
        Updated(songs, id, u)[k] == Merge(songs[k], u)
        && forall j :: 0 <= j < |songs| && j != k ==> Updated(songs, id, u)[j] == songs[j]
  {
  }

  /** An empty update object leaves the song as it was. */
  lemma EmptyPatch(s: Song)
    ensures Merge(s, SongPatch(None, None, None, None, None, None, None, None, None, None, None, None)) == s
  {
  }

  // ----- deleteSong -----

  /** deleteSong removes the first song with the id and nothing else. */
  lemma RemoveFirstSpec(songs: seq<Song>, id: string)
    ensures var k := FindIndex(songs, id);
      k != -1 ==>
        RemoveFirst(songs, id) == songs[..k] + songs[k + 1..]
        && Count(RemoveFirst(songs, id), id) == Count(songs, id) - 1
    ensures multiset(RemoveFirst(songs, id)) <= multiset(songs)
  {
    var k := FindIndex(songs, id);
    if k != -1 {
      SpliceCount(songs, k, id);
      SpliceMultiset(songs, k);
    }
  }

  /** Splicing out an entry with the id lowers its count by one. */
  lemma SpliceCount(songs: seq<Song>, k: int, id: string)
    requires 0 <= k < |songs| && songs[k].id == id
    ensures Count(songs[..k] + songs[k + 1..], id) == Count(songs, id) - 1
  {
    assert songs == songs[..k] + ([songs[k]] + songs[k + 1..]);
    CountAppend(songs[..k], [songs[k]] + songs[k + 1..], id);
    CountAppend([songs[k]], songs[k + 1..], id);
    CountAppend(songs[..k], songs[k + 1..], id);
    assert Count([songs[k]], id) == 1;
  }

  /** Splicing out an entry keeps a sub-multiset. */
  lemma SpliceMultiset(songs: seq<Song>, k: int)
    requires 0 <= k < |songs|
    ensures multiset(songs[..k] + songs[k + 1..]) <= multiset(songs)
  {
    assert songs == songs[..k] + [songs[k]] + songs[k + 1..];
    assert multiset(songs) == multiset(songs[..k]) + multiset{songs[k]} + multiset(songs[k + 1..]);
  }

  // ----- searchSongs -----

  /** `song.title?.toLowerCase().includes(q) || song.artist?.toLowerCase().includes(q)` for a lower-cased q. */
  predicate Matches(song: Song, lowerQuery: string) {
    Includes(Lower(song.title), lowerQuery) || Includes(Lower(song.artist), lowerQuery)
  }

  function Filter(songs: seq<Song>, lowerQuery: string): (r: seq<Song>)
    ensures |r| <= |songs|
  {
    if songs == [] then []
    else (if Matches(songs[0], lowerQuery) then [songs[0]] else []) + Filter(songs[1..], lowerQuery)
  }

  /** searchSongs */
  function SearchSongs(songs: seq<Song>, query: string): seq<Song> {
    Filter(songs, Lower(query))
  }

  /** A song is found exactly when it is in the library and its title or artist holds the query, ignoring case. */
  lemma {:induction false} FilterMembers(songs: seq<Song>, lowerQuery: string)
    ensures forall s :: s in Filter(songs, lowerQuery) <==> s in songs && Matches(s, lowerQuery)
    decreases |songs|
  {
    if songs != [] {
      FilterMembers(songs[1..], lowerQuery);
      assert songs == [songs[0]] + songs[1..];
    }
  }

  /** The results keep library order: they are the library with the non-matching songs left out. */
  predicate SubsequenceOf(r: seq<Song>, songs: seq<Song>)
    decreases |songs|
  {
    if r == [] then true
    else if songs == [] then false
    else if r[0] == songs[0] then SubsequenceOf(r[1..], songs[1..])
    else SubsequenceOf(r, songs[1..])
  }

  lemma {:induction false} SubsequenceOfAny(songs: seq<Song>)
    ensures SubsequenceOf([], songs)
  {
  }

  lemma {:induction false} FilterInOrder(songs: seq<Song>, lowerQuery: string)
    ensures SubsequenceOf(Filter(songs, lowerQuery), songs)
    decreases |songs|
  {
    if songs != [] {
      FilterInOrder(songs[1..], lowerQuery);
      FilterMembers(songs[1..], lowerQuery);
      var rest := Filter(songs[1..], lowerQuery);
      if Matches(songs[0], lowerQuery) {
        var r := [songs[0]] + rest;
        assert r[0] == songs[0] && r[1..] == rest;
      } else {
        assert Filter(songs, lowerQuery) == rest;
        assert rest != [] ==> rest[0] in rest;
      }
    }
  }

  lemma SearchSongsSpec(songs: seq<Song>, query: string)
    ensures forall s :: s in SearchSongs(songs, query) <==> s in songs && Matches(s, Lower(query))
    ensures SubsequenceOf(SearchSongs(songs, query), songs)
  {
    FilterMembers(songs, Lower(query));
    FilterInOrder(songs, Lower(query));
  }

  /** Every text includes the empty text, so the empty query returns the whole library. */
  lemma {:induction false} EmptyQueryFindsAll(songs: seq<Song>)
    ensures SearchSongs(songs, "") == songs
    decreases |songs|
  {
    if songs != [] {
      assert InfixAt(Lower(songs[0].title), "", 0);
      EmptyQueryFindsAll(songs[1..]);
      assert songs == [songs[0]] + songs[1..];
    }
  }

  // ----- import -----

  /** What `electronAPI.readSongFile` gives back: the file's name and content, or an error. */
  datatype Read = ReadOk(filename: string, content: string) | ReadFailed(error: string)

  datatype Format = ChordProFormat | OnSongFormat

  /** `filePath.split('.').pop().toLowerCase() === 'onsong'` */
  function FormatOf(path: string): Format {
    var parts := Split(path, '.');
    if Lower(parts[|parts| - 1]) == "onsong" then OnSongFormat else ChordProFormat
  }

  /** A path is imported as OnSong exactly when its last extension is "onsong" in any case. */
  lemma FormatByExtension(stem: string, ext: string)
    requires '.' !in ext
    ensures FormatOf(stem + "." + ext) == if Lower(ext) == "onsong" then OnSongFormat else ChordProFormat
  {
    assert stem + "." + ext == stem + ['.'] + ext;
    SplitLastPiece(stem, '.', ext);
  }

  /** `name.replace(/\.(e1|e2|…)$/i, '')` for lower-case extensions. */
  function StripExtension(name: string, exts: seq<string>): (r: string)
    ensures r == name || (|r| < |name| && r == name[..|r|] && name[|r|] == '.')
  {
    if exts == [] then name
    else if EndsWith(Lower(name), "." + exts[0]) then name[..|name| - |exts[0]| - 1]
    else StripExtension(name, exts[1..])
  }

  /**
   * The validated song of an import, before it is added: the read error, or
   * the parse, refused when it has no processed sections.
   */
  function Parsed(format: Format, read: Option<Read>, id: string): (r: Result<Song, string>)
    ensures r.Ok? ==> r.value.processedSections.Some? && r.value.processedSections.value != []
  {
    match read
    case None => Err("Electron API not available")
    case Some(ReadFailed(e)) => Err(e)
    case Some(ReadOk(filename, content)) =>
      var song :=
        if format == ChordProFormat then ChordPro.ChordProSong(content, StripExtension(filename, ["txt", "pro", "chordpro"]), id)
        else OnSong.OnSongSong(content, StripExtension(filename, ["onsong"]), id);
      if song.processedSections.None? || |song.processedSections.value| == 0 then Err("Failed to parse song sections")
      else Ok(song)
  }

  /** parseChordPro never sets processed sections, so a ChordPro import never gets past validation. */
  lemma ChordProImportFails(read: Option<Read>, id: string)
    ensures Parsed(ChordProFormat, read, id).Err?
  {
    match read
    case None =>
    case Some(ReadFailed(e)) =>
    case Some(ReadOk(filename, content)) =>
      var song := ChordPro.ChordProSong(content, StripExtension(filename, ["txt", "pro", "chordpro"]), id);
      assert song.processedSections.None?;
  }

  /** Every OnSong file that is read passes validation: its processed sections hold at least Intro and Outro. */
  lemma OnSongImportParses(filename: string, content: string, id: string)
    ensures Parsed(OnSongFormat, Some(ReadOk(filename, content)), id).Ok?
  {
    var song := OnSong.OnSongSong(content, StripExtension(filename, ["onsong"]), id);
    assert |song.processedSections.value| >= 2;
  }

  /** One file to import, with what the effects outside the model give for it. */
  datatype Attempt = Attempt(path: string, read: Option<Read>, id: string, now: string, saveError: Option<string>)

  /** What one import returns: no library, a failed read or parse, a failed save, or the song with its id. */
  function ImportOutcome(root: string, a: Attempt): Result<Song, string> {
    if root == [] then Err("No library open")
    else match Parsed(FormatOf(a.path), a.read, a.id)
      case Err(e) => Err(e)
      case Ok(song) => if a.saveError.None? then Ok(song.(id := AssignedId(song, a.now))) else Err(a.saveError.value)
  }

  /** The list after one import: the parsed song added when it passed validation (a failed save still leaves it added). */
  function Imported(songs: seq<Song>, root: string, a: Attempt): seq<Song> {
    if root == [] then songs
    else match Parsed(FormatOf(a.path), a.read, a.id)
      case Err(_) => songs
      case Ok(song) => Added(songs, song, a.now)
  }

  /** The result of importSongFiles. */
  datatype Report = Report(succeeded: seq<(string, Song)>, failed: seq<(string, string)>)

  /** Each file's path with what importing it returns, in input order. */
  function Outcomes(root: string, attempts: seq<Attempt>): (r: seq<(string, Result<Song, string>)>)
    ensures |r| == |attempts|
    ensures forall i :: 0 <= i < |attempts| ==> r[i] == (attempts[i].path, ImportOutcome(root, attempts[i]))
  {
    seq(|attempts|, i requires 0 <= i < |attempts| => (attempts[i].path, ImportOutcome(root, attempts[i])))
  }

  /** The report built from outcomes taken in turn: each goes at the end of its list. */
  function Tally(entries: seq<(string, Result<Song, string>)>): Report
    decreases |entries|
  {
    if entries == [] then Report([], [])
    else
      var last := |entries| - 1;
      Record(Tally(entries[..last]), entries[last].0, entries[last].1)
  }

  /** One file's outcome pushed onto the list it belongs to. */
  function Record(r: Report, path: string, outcome: Result<Song, string>): Report {
    match outcome
    case Ok(song) => r.(succeeded := r.succeeded + [(path, song)])
    case Err(e) => r.(failed := r.failed + [(path, e)])
  }

  /** The report after importing the files in turn. */
  function Reports(root: string, attempts: seq<Attempt>): Report {
    Tally(Outcomes(root, attempts))
  }

  lemma ImportSnoc(songs: seq<Song>, root: string, attempts: seq<Attempt>, i: nat)
    requires i < |attempts|
    ensures Reports(root, attempts[..i + 1]) == Record(Reports(root, attempts[..i]), attempts[i].path, ImportOutcome(root, attempts[i]))
    ensures ImportedAll(songs, root, attempts[..i + 1]) == Imported(ImportedAll(songs, root, attempts[..i]), root, attempts[i])
  {
    assert attempts[..i + 1][..i] == attempts[..i];
    var entries := Outcomes(root, attempts[..i + 1]);
    assert entries[..i] == Outcomes(root, attempts[..i]);
  }

  /** The list after importing the files in turn. */
  function ImportedAll(songs: seq<Song>, root: string, attempts: seq<Attempt>): seq<Song>
    decreases |attempts|
  {
    if attempts == [] then songs
    else
      var last := |attempts| - 1;
      Imported(ImportedAll(songs, root, attempts[..last]), root, attempts[last])
  }

  /** The two lists of a tally together are as long as its input. */
  lemma {:induction false} TallyLength(entries: seq<(string, Result<Song, string>)>)
    ensures |Tally(entries).succeeded| + |Tally(entries).failed| == |entries|
    decreases |entries|
  {
    if entries != [] {
      TallyLength(entries[..|entries| - 1]);
    }
  }

  /** Every file is reported once: the two lists together are as long as the input. */
  lemma ReportLength(root: string, attempts: seq<Attempt>)
    ensures |Reports(root, attempts).succeeded| + |Reports(root, attempts).failed| == |attempts|
  {
    TallyLength(Outcomes(root, attempts));
  }

  /** An outcome is in the list of the report it belongs to. */
  predicate Holds(r: Report, path: string, outcome: Result<Song, string>) {
    match outcome
    case Ok(song) => (path, song) in r.succeeded
    case Err(e) => (path, e) in r.failed
  }

  /** Every outcome of a tally's input is in the list it belongs to. */
  lemma {:induction false} TallyComplete(entries: seq<(string, Result<Song, string>)>)
    ensures forall i :: 0 <= i < |entries| ==> Holds(Tally(entries), entries[i].0, entries[i].1)
    decreases |entries|
  {
    if entries != [] {
      var last := |entries| - 1;
      var prev := entries[..last];
      TallyComplete(prev);
      forall i | 0 <= i < |entries| ensures Holds(Tally(entries), entries[i].0, entries[i].1) {
        if i < last {
          assert prev[i] == entries[i];
        }
      }
    }
  }

  /** Each file's outcome is in the list it belongs to. */
  lemma ReportComplete(root: string, attempts: seq<Attempt>)
    ensures forall i :: 0 <= i < |attempts| ==> Holds(Reports(root, attempts), attempts[i].path, ImportOutcome(root, attempts[i]))
  {
    TallyComplete(Outcomes(root, attempts));
  }

  /** Every entry of a tally comes from an outcome of its input. */
  lemma {:induction false} TallySound(entries: seq<(string, Result<Song, string>)>)
    ensures forall e :: e in Tally(entries).succeeded ==> exists i :: 0 <= i < |entries| && entries[i] == (e.0, Ok(e.1))
    ensures forall e :: e in Tally(entries).failed ==> exists i :: 0 <= i < |entries| && entries[i] == (e.0, Err(e.1))
    decreases |entries|
  {
    if entries != [] {
      var last := |entries| - 1;
      var prev := entries[..last];
      TallySound(prev);
      forall i | 0 <= i < last ensures prev[i] == entries[i] {}
    }
  }

  /** Every entry of the report comes from a file of the input with that outcome. */
  lemma ReportSound(root: string, attempts: seq<Attempt>)
    ensures var r := Reports(root, attempts);
      forall e :: e in r.succeeded ==> exists a :: a in attempts && a.path == e.0 && ImportOutcome(root, a) == Ok(e.1)
    ensures var r := Reports(root, attempts);
      forall e :: e in r.failed ==> exists a :: a in attempts && a.path == e.0 && ImportOutcome(root, a) == Err(e.1)
  {
    var entries := Outcomes(root, attempts);
    TallySound(entries);
    forall e | e in Tally(entries).succeeded
      ensures exists a :: a in attempts && a.path == e.0 && ImportOutcome(root, a) == Ok(e.1)
    {
      var i :| 0 <= i < |entries| && entries[i] == (e.0, Ok(e.1));
      var a := attempts[i];
      assert a in attempts && a.path == e.0 && ImportOutcome(root, a) == Ok(e.1);
    }
    forall e | e in Tally(entries).failed
      ensures exists a :: a in attempts && a.path == e.0 && ImportOutcome(root, a) == Err(e.1)
    {
      var i :| 0 <= i < |entries| && entries[i] == (e.0, Err(e.1));
      var a := attempts[i];
      assert a in attempts && a.path == e.0 && ImportOutcome(root, a) == Err(e.1);
    }
  }

  /** Outcomes that are all the same error tally to no successes and only that error. */
  lemma {:induction false} TallyAllFailed(entries: seq<(string, Result<Song, string>)>, message: string)
    requires forall i :: 0 <= i < |entries| ==> entries[i].1 == Err(message)
    ensures Tally(entries).succeeded == []
    ensures forall e :: e in Tally(entries).failed ==> e.1 == message
    decreases |entries|
  {
    if entries != [] {
      var prev := entries[..|entries| - 1];
      assert forall i :: 0 <= i < |prev| ==> prev[i] == entries[i];
      TallyAllFailed(prev, message);
    }
  }

  /** Without a library every file fails with "No library open" and the list is left alone. */
  lemma {:induction false} NoLibraryAllFail(songs: seq<Song>, attempts: seq<Attempt>)
    ensures Reports("", attempts).succeeded == []
    ensures forall e :: e in Reports("", attempts).failed ==> e.1 == "No library open"
    ensures ImportedAll(songs, "", attempts) == songs
    decreases |attempts|
  {
    TallyAllFailed(Outcomes("", attempts), "No library open");
    if attempts != [] {
      NoLibraryAllFail(songs, attempts[..|attempts| - 1]);
    }
  }

  /** The state the two module-level refs hold. */
  class Library {
    var songs: seq<Song>
    var isLoaded: bool

    constructor ()
      ensures songs == [] && !isLoaded
    {
      songs := [];
      isLoaded := false;
    }

    /**
     * loadSongs: nothing happens without a library root or the API; a
     * successful read replaces the list, any failure empties it; both mark
     * the list loaded.
     */
    method LoadSongs(root: string, hasApi: bool, result: Result<seq<Song>, string>)
      modifies this
      ensures root == [] || !hasApi ==> songs == old(songs) && isLoaded == old(isLoaded)
      ensures root != [] && hasApi ==> isLoaded
      ensures root != [] && hasApi ==> songs == if result.Ok? then result.value else []
    {
      if root == [] || !hasApi {
        return;
      }
      match result {
        case Ok(data) =>
          songs := data;
          isLoaded := true;
        case Err(_) =>
          songs := [];
          isLoaded := true;
      }
    }

    /**
     * addSong: refused without a library root; otherwise the song gets an id,
     * replaces the first song with that id and goes last. A failed save is
     * reported after the list has changed.
     */
    method AddSong(song: Song, root: string, now: string, saveError: Option<string>) returns (r: Result<Song, string>)
      modifies this`songs
      ensures root == [] ==> r == Err("No library open") && songs == old(songs)
      ensures root != [] ==> songs == Added(old(songs), song, now)
      ensures root != [] ==> r == if saveError.None? then Ok(song.(id := AssignedId(song, now))) else Err(saveError.value)
    {
      if root == [] {
        return Err("No library open");
      }
      var added := song.(id := if song.id != [] then song.id else now);
      var existingIndex := FindIndex(songs, added.id);
      if existingIndex != -1 {
        songs := songs[..existingIndex] + songs[existingIndex + 1..];
      }
      assert songs == RemoveFirst(old(songs), AssignedId(song, now));
      songs := songs + [added];
      if saveError.Some? {
        return Err(saveError.value);
      }
      return Ok(added);
    }

    /** updateSong: merges the update into the first song with the id, in place; None when no song has it. */
    method UpdateSong(id: string, u: SongPatch, root: string, saveError: Option<string>) returns (r: Result<Option<Song>, string>)
      modifies this`songs
      ensures root == [] ==> r == Err("No library open") && songs == old(songs)
      ensures root != [] ==> songs == Updated(old(songs), id, u)
      ensures root != [] && FindIndex(old(songs), id) == -1 ==> r == Ok(None)
      ensures root != [] && FindIndex(old(songs), id) != -1 ==>
        r == if saveError.None? then Ok(Some(Merge(old(songs)[FindIndex(old(songs), id)], u))) else Err(saveError.value)
    {
      if root == [] {
        return Err("No library open");
      }
      var index := FindIndex(songs, id);
      if index == -1 {
        return Ok(None);
      }
      songs := songs[index := Merge(songs[index], u)];
      if saveError.Some? {
        return Err(saveError.value);
      }
      return Ok(Some(songs[index]));
    }

    /** deleteSong: removes and returns the first song with the id; None when no song has it. */
    method DeleteSong(id: string, root: string, saveError: Option<string>) returns (r: Result<Option<Song>, string>)
      modifies this`songs
      ensures root == [] ==> r == Err("No library open") && songs == old(songs)
      ensures root != [] ==> songs == RemoveFirst(old(songs), id)
      ensures root != [] && FindIndex(old(songs), id) == -1 ==> r == Ok(None)
      ensures root != [] && FindIndex(old(songs), id) != -1 ==>
        r == if saveError.None? then Ok(Some(old(songs)[FindIndex(old(songs), id)])) else Err(saveError.value)
    {
      if root == [] {
        return Err("No library open");
      }
      var index := FindIndex(songs, id);
      if index == -1 {
        return Ok(None);
      }
      var deleted := songs[index];
      songs := songs[..index] + songs[index + 1..];
      if saveError.Some? {
        return Err(saveError.value);
      }
      return Ok(Some(deleted));
    }

    /** importChordProFile / importOnSongFile: read, parse, validate, then addSong. */
    method ImportFile(root: string, a: Attempt) returns (r: Result<Song, string>)
      modifies this`songs
      ensures r == ImportOutcome(root, a)
      ensures songs == Imported(old(songs), root, a)
    {
      if root == [] {
        return Err("No library open");
      }
      var parsed := Parsed(FormatOf(a.path), a.read, a.id);
      if parsed.Err? {
        return Err(parsed.error);
      }
      r := AddSong(parsed.value, root, a.now, a.saveError);
    }

    /**
     * importSongFiles: imports each file in turn, by the OnSong parser when
     * the path's last extension is "onsong" and by the ChordPro parser
     * otherwise, and reports each as succeeded or failed, in input order.
     */
    method ImportSongFiles(root: string, attempts: seq<Attempt>) returns (succeeded: seq<(string, Song)>, failed: seq<(string, string)>)
      modifies this`songs
      ensures Report(succeeded, failed) == Reports(root, attempts)
      ensures songs == ImportedAll(old(songs), root, attempts)
    {
      succeeded, failed := [], [];
      var i := 0;
      while i < |attempts|
        invariant 0 <= i <= |attempts|
        invariant Report(succeeded, failed) == Reports(root, attempts[..i])
        invariant songs == ImportedAll(old(songs), root, attempts[..i])
      {
        var a := attempts[i];
        ImportSnoc(old(songs), root, attempts, i);
        var result := ImportFile(root, a);
        if result.Ok? {
          succeeded := succeeded + [(a.path, result.value)];
        } else {
          failed := failed + [(a.path, result.error)];
        }
        i := i + 1;
      }
      assert attempts[..i] == attempts;
    }
  }
}

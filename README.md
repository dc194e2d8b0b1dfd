# Worship presentation core in Dafny

This project models the core of a desktop worship-presentation app. It covers five parts:

- **Song parsers.** The ChordPro parser and the OnSong parser turn song text into a song with sections of chord/lyric lines. Each chord/lyric line is a list of `[chord, lyric]` pairs.
- **Song library.** An in-memory song list with load, replace-by-id add, merge update, delete, lookup by id and case-insensitive search. Importing a batch of files sends each file to one of the two parsers by its extension.
- **Asset URL resolver.** It resolves `assets://` and `file://` URLs against the open library and memoises each answer.
- **Presentation controller.** Stacks of slides with a staged cursor and a live cursor. It adds auto-advance timers, a debounced projector update, a remote-control summary and remote commands.
- **Worship mode.** A setlist walked song by song and section by section, with a per-song or rotating background video.

Pure code is modelled as datatypes and functions. Code that updates module-level state is modelled as classes:

- `Library` (the song list);
- `AssetResolver` (the URL cache);
- `Controller` (the presentation refs and timers);
- `Sequencer` (the worship refs).

Each class method updates its fields as the source does, as one atomic step (see "Left out" for what that leaves out at `await`). Its postcondition ties the new state to a specification function of the old state. The properties are proved as lemmas about those functions.

The parsers' `forEach` loops and the chord-line scanner are methods with loops. They are proved to compute `ChordProSong`, `OnSongSong` and `LineSpec`.

Modules, in dependency order:

| module | file | what it holds |
|---|---|---|
| Wrappers | wrappers.dfy | `Option` and `Result` |
| Text | text.dfy | trim, split, startsWith/endsWith, indexOf, includes, case mapping, parseInt |
| Songs | songs.dfy | the song, section and chord/lyric pair values shared by the parsers and the library |
| ChordLine | chord_line.dfy | the `[chord]lyric` line scanner used by both parsers |
| Directives | directives.dfy | the regular expressions of the directive lines, as scanners |
| ChordPro | chordpro.dfy | parseChordPro |
| OnSong | onsong.dfy | parseOnSong |
| SongLibrary | song_library.dfy | the song list and file import |
| AssetResolver | asset_resolver.dfy | resolveAssetUrl and its cache |
| Presentation, PresentationController | presentation.dfy, presentation_controller.dfy | the presentation state and its controller |
| Worship, WorshipMode | worship.dfy, worship_mode.dfy | worship mode |

Effects the model cannot see are parameters:

- the clock-based ids (`id`, `now`);
- `Math.random` (`pick`);
- the host's answers: the library read, the file read, the save error, the asset path and the presence of the host API.

## Model

| member | source | states |
|---|---|---|
| Text.Trim | src/parsers/ChordProParser.js:22 | The trimmed line is no longer than the input and has no white space at either end. |
| Text.TrimKeeps | src/parsers/ChordProParser.js:22 | The trimmed line is the infix of the input left after removing a run of leading and a run of trailing white space. Every other character of the input is still in it. |
| Text.IndexOf | src/parsers/ChordProParser.js:101 | `indexOf(c, from)` gives the first position at or after `from` that holds `c`, or -1 exactly when there is none. |
| Text.SplitPieces | src/parsers/ChordProParser.js:11 | No piece of `split('\n')` contains the separator. |
| Text.SplitJoin | src/parsers/OnSongParser.js:11 | Joining the pieces of a split with the separator gives back the text (the partner of split). |
| Text.SplitLastPiece | src/library/SongLibrary.js:255 | `split('.').pop()` is the text after the last dot. |
| Text.ParseIntLeading | src/parsers/OnSongParser.js:47 | `parseInt(s, 10)` of a string that starts with decimal digits is the value of those digits; whatever follows them is ignored. |
| Text.ParseIntDigits | src/parsers/ChordProParser.js:34 | `parseInt` of a non-empty string of decimal digits is its decimal value. |
| ChordLine.ParseLine | src/parsers/ChordProParser.js:86-120 | The scanner loop computes `LineSpec`: a pair is pushed at each `[` and at the end only when its chord or lyric is non-empty. A `]` ends the chord. An unclosed `[` is skipped. parseOnSongLine (src/parsers/OnSongParser.js:142-176) is the same scanner, so both parsers use this member. |
| ChordLine.LyricsAreStrippedLine | src/parsers/ChordProParser.js:92-117 | The lyrics of a parsed line, concatenated, are the line with every closed `[chord]` group and every unclosed `[` removed. |
| ChordLine.ChordsInSourceOrder | src/parsers/ChordProParser.js:101-104 | The non-empty chords of a parsed line are the closed bracket groups of the line, in source order. |
| ChordLine.PairsNonEmpty | src/parsers/ChordProParser.js:95-99 | No parsed pair has both an empty chord and an empty lyric. |
| ChordLine.UnclosedBracketDropped | src/parsers/ChordProParser.js:101-107 | On a line without `]` there are no chords, and the lyrics are the line without its `[` characters. |
| ChordLine.KeepFilters | src/parsers/ChordProParser.js:115-117 | Dropping empty pairs keeps exactly the non-empty pairs. |
| Directives.Leftmost | src/parsers/ChordProParser.js:27 | An unanchored regular-expression match is found at the leftmost position where the anchored pattern matches, and is absent only when no position matches. |
| Directives.BodyCapture | src/parsers/ChordProParser.js:27 | The capture `([^}]+)\}` is non-empty, holds no `}`, and exists exactly when the first `}` is not the first character. |
| Directives.KeyedNeedsOpening | src/parsers/ChordProParser.js:27-38 | A directive value is found only where the line contains `{key:` for one of the directive's keys. |
| Directives.Tempo | src/parsers/ChordProParser.js:33 | A `{tempo: n}` capture is a non-empty run of decimal digits. |
| Directives.StartOfTitle | src/parsers/ChordProParser.js:40-43 | The title a `{start_of_…}` line gives its section is never empty (the label, the section name or "Section", capitalised). |
| Directives.LabelledStart | src/parsers/ChordProParser.js:40-43 | `{start_of_x: label}` titles its section by the label with its first letter upper-cased; the label wins over the section name. |
| Directives.PlainStart | src/parsers/ChordProParser.js:40-43 | `{start_of_x}` titles its section by x with its first letter upper-cased. |
| Songs.AddLineWellFormed | src/parsers/ChordProParser.js:53-60 | Adding a chord/lyric line to the open section (opening "Verse" when none is open) keeps every stored line non-empty with non-empty pairs. |
| ChordPro.Classify | src/parsers/ChordProParser.js:23-61 | A line is blank exactly when empty, and is a chord/lyric line exactly when it does not start with `{`. |
| ChordPro.Step | src/parsers/ChordProParser.js:21-62 | A blank line changes nothing. A line either leaves the sections alone or pushes the open section and closes it. |
| ChordPro.HandleLine | src/parsers/ChordProParser.js:21-62 | The `forEach` callback, as straight-line code, computes `Step`. |
| ChordPro.HandleLines | src/parsers/ChordProParser.js:11-62 | The loop over the split lines computes `Fold`. |
| ChordPro.Finish | src/parsers/ChordProParser.js:64-79 | The result has a non-empty key ("C" by default), no processed sections, and an arrangement listing the section titles in order. |
| ChordPro.ParseChordPro | src/parsers/ChordProParser.js:10-80 | parseChordPro computes `ChordProSong`: split, fold each line, push the open section, build the song. |
| ChordPro.BuildSong | src/parsers/ChordProParser.js:64-79 | Pushing the open section and building the result computes `Finish`: the key defaults to "C", there are no processed sections, and the arrangement lists the section titles. |
| ChordPro.SongWellFormed | src/parsers/ChordProParser.js:57-60 | Every line stored in a parsed song is non-empty and none of its pairs is empty. |
| ChordPro.TempoDirective | src/parsers/ChordProParser.js:32-34 | A `{tempo: n}` line sets the tempo to the decimal value of n. |
| ChordPro.StepKeepsMetadata | src/parsers/ChordProParser.js:26-38 | A line without a `{tempo: digits}` match keeps the tempo; only a key directive changes the key, and only a title directive the title. |
| ChordPro.TempoDefault | src/parsers/ChordProParser.js:17 | Without a `{tempo: n}` line the tempo is 80. |
| ChordPro.KeyDefault | src/parsers/ChordProParser.js:73 | Without a key directive the key is "C". |
| ChordPro.FoldTitleDefault | src/parsers/ChordProParser.js:14 | Without a title directive the title is the file name. |
| ChordPro.PlainText | src/parsers/ChordProParser.js:51-67 | Text without directives becomes a single "Verse" holding its non-empty parsed lines in order. |
| ChordPro.StartDropsOpenSection | src/parsers/ChordProParser.js:39-45 | A `{start_of_…}` line replaces the open section without pushing it, so the lines collected in that section are lost. |
| ChordPro.EndPushesOpenSection | src/parsers/ChordProParser.js:46-50 | `{end_of_…}` pushes the open section after the others and closes it; with no section open it changes nothing. |
| ChordPro.LyricLineStep | src/parsers/ChordProParser.js:51-60 | A line not starting with `{` changes only the open section, by adding the line to it (or to a new "Verse"). |
| ChordPro.FinalSectionPushed | src/parsers/ChordProParser.js:64-67 | The song's sections are the pushed sections followed by the section still open at the end of the input, if any. |
| OnSong.TempoValue | src/parsers/OnSongParser.js:45-47 | `parseInt(v) \|\| 80`: the parsed number when it is a non-zero number, 80 when it is NaN or 0; never 0. |
| OnSong.TempoLine | src/parsers/OnSongParser.js:45-47 | A `Tempo:` value of non-zero digits gives its value; a value with no number gives 80. |
| OnSong.TempoLeading | src/parsers/OnSongParser.js:45-47 | A `Tempo:` value that starts with decimal digits gives their value, or 80 when it is 0, whatever follows the digits. |
| OnSong.Metadata | src/parsers/OnSongParser.js:38-53 | A metadata line only sets metadata: it never touches the sections or the metadata flag. |
| OnSong.Flush | src/parsers/OnSongParser.js:60-62 | The open section is pushed only when it holds a line. |
| OnSong.Step | src/parsers/OnSongParser.js:26-97 | A blank line ends the metadata block and is otherwise skipped: it changes nothing but the metadata flag. In the metadata block the sections are untouched. The block never reopens. Sections grow only by pushing a non-empty open section. |
| OnSong.HeaderLine | src/parsers/OnSongParser.js:58-71 | A `Name:` line without `[` pushes the open section if it holds a line, and opens an empty section named by the trimmed text before the colon. |
| OnSong.CommentLine | src/parsers/OnSongParser.js:73-86 | A `{c: …}` or `{comment: …}` line pushes the open section only if it holds a line, and opens an empty section named by the trimmed capture or "Section". |
| OnSong.LyricLineStep | src/parsers/OnSongParser.js:88-96 | After the metadata block, any other non-blank line changes only the open section, by adding the line to it (or to a new "Verse"). |
| OnSong.HandleLine | src/parsers/OnSongParser.js:26-97 | The `forEach` callback computes `Step`. |
| OnSong.HandleLines | src/parsers/OnSongParser.js:11-97 | The loop over the split lines computes `Fold`. |
| OnSong.Finish | src/parsers/OnSongParser.js:99-135 | The sections are those pushed plus the open one when it holds a line. The processed sections are an empty "Intro", those sections in order, and an empty "Outro". The key and current key are the key read, or "C" when none was read. The arrangement lists the section titles. |
| OnSong.StepKeepsKey | src/parsers/OnSongParser.js:43-44 | Only a `Key:` line sets the key. |
| OnSong.KeyDefault | src/parsers/OnSongParser.js:125-126 | Without a `Key:` line the song's key and current key are "C". |
| OnSong.ParseOnSong | src/parsers/OnSongParser.js:10-136 | parseOnSong computes `OnSongSong`. |
| OnSong.SectionsHoldLines | src/parsers/OnSongParser.js:60-102 | Every section of a parsed OnSong song holds at least one line, and every line is well formed. |
| OnSong.NoBlankNoSections | src/parsers/OnSongParser.js:23-54 | Text without a blank line is all metadata: no sections, and the processed sections are just Intro and Outro. |
| SongLibrary.FindIndex | src/library/SongLibrary.js:88 | `findIndex` gives the first position holding the id, or -1 exactly when no song has it. |
| SongLibrary.FindSongById | src/library/SongLibrary.js:144-146 | `find` gives the first song with the id, and nothing exactly when no song has it. |
| SongLibrary.CountZero | src/library/SongLibrary.js:88 | No song has the id exactly when the id occurs zero times. |
| SongLibrary.SpliceCount | src/library/SongLibrary.js:132-134 | Splicing out a song with the id leaves one fewer song with that id. |
| SongLibrary.RemoveFirstSpec | src/library/SongLibrary.js:132-134 | `splice(index, 1)` at the first match removes exactly that song: one fewer song with the id, and nothing else added. |
| SongLibrary.AddedReplaces | src/library/SongLibrary.js:78-100 | After addSong the song, with its id filled from the clock when empty, is last. An id held at most once before is held exactly once after. |
| SongLibrary.AddedKeepsUnique | src/library/SongLibrary.js:84-95 | addSong keeps the ids of the list unique. |
| SongLibrary.UpdatedInPlace | src/library/SongLibrary.js:108-120 | updateSong merges the patch into the first song with the id and changes no other position; an unknown id changes nothing. |
| SongLibrary.EmptyPatch | src/library/SongLibrary.js:115 | Spreading an empty update leaves the song unchanged. |
| SongLibrary.FilterMembers | src/library/SongLibrary.js:153-156 | A song is kept exactly when it is in the list and its title or artist contains the lower-cased query. |
| SongLibrary.FilterInOrder | src/library/SongLibrary.js:153 | The filtered songs keep their order in the list. |
| SongLibrary.SearchSongsSpec | src/library/SongLibrary.js:151-157 | searchSongs returns, in order, exactly the songs whose lower-cased title or artist contains the lower-cased query. |
| SongLibrary.EmptyQueryFindsAll | src/library/SongLibrary.js:151-157 | The empty query finds every song. |
| SongLibrary.FormatByExtension | src/library/SongLibrary.js:255-264 | A path whose last extension is "onsong" in any case goes to the OnSong parser; every other path goes to ChordPro. |
| SongLibrary.StripExtension | src/library/SongLibrary.js:192 | Removing the extension leaves the name or a prefix of it that ends right before a dot. |
| SongLibrary.Parsed | src/library/SongLibrary.js:186-198 | A parse passes validation only when the song has non-empty processed sections. |
| SongLibrary.ChordProImportFails | src/library/SongLibrary.js:186-203 | A ChordPro import always fails: a failed read, or else the validation, because parseChordPro returns no processed sections. |
| SongLibrary.OnSongImportParses | src/library/SongLibrary.js:222-234 | An OnSong file that was read always passes validation (Intro and Outro at least). |
| SongLibrary.Outcomes | src/library/SongLibrary.js:254-274 | There is one outcome per path, in input order, and each is what importing that path returns. |
| SongLibrary.TallyComplete | src/library/SongLibrary.js:266-272 | Every outcome is recorded: a success in `succeeded`, a failure with its message in `failed`. |
| SongLibrary.TallySound | src/library/SongLibrary.js:266-272 | Every recorded entry comes from an outcome with the same path and result. |
| SongLibrary.ReportLength | src/library/SongLibrary.js:248-277 | importSongFiles reports each file exactly once: the two lists together are as long as the input. |
| SongLibrary.ReportComplete | src/library/SongLibrary.js:254-274 | Every file appears in `succeeded` with its song, or in `failed` with its error, according to what importing it returned. |
| SongLibrary.ReportSound | src/library/SongLibrary.js:254-274 | Every reported entry is a file of the input with exactly that import result. |
| SongLibrary.NoLibraryAllFail | src/library/SongLibrary.js:177-179 | With no library open every file fails with "No library open" and the list is unchanged. |
| SongLibrary.Library.constructor | src/library/SongLibrary.js:10-11 | The list starts empty and not loaded. |
| SongLibrary.Library.LoadSongs | src/library/SongLibrary.js:17-42 | Without a library or host API nothing changes. Otherwise the list is loaded, holding the songs read or nothing on failure. |
| SongLibrary.Library.AddSong | src/library/SongLibrary.js:78-100 | Without a library: "No library open" and no change. Otherwise the list becomes `Added`, and the result is the stored song or the save error. |
| SongLibrary.Library.UpdateSong | src/library/SongLibrary.js:108-120 | Without a library: an error. Otherwise the list becomes `Updated`; the result is the merged song, null for an unknown id, or the save error. |
| SongLibrary.Library.DeleteSong | src/library/SongLibrary.js:127-139 | Without a library: an error. Otherwise the first song with the id is spliced out and returned; null for an unknown id. |
| SongLibrary.Library.ImportFile | src/library/SongLibrary.js:176-241 | One import returns `ImportOutcome`. The list gains the parsed song when it passed validation, even when the save then failed. |
| SongLibrary.Library.ImportSongFiles | src/library/SongLibrary.js:248-277 | The loop returns exactly `Reports` and leaves the list after every import in turn. |
| AssetResolver.CacheKey | src/utils/assetResolver.js:30 | The cache key starts with the library root and ends with the URL. |
| AssetResolver.PassThrough | src/utils/assetResolver.js:9-27 | URLs other than `assets://` and `file://`, and any URL while no library or host API is there, come back unchanged and leave the cache alone. |
| AssetResolver.CacheGrowsAtKey | src/utils/assetResolver.js:30-41 | The cache only grows, only under the key of the URL being resolved, and existing entries never change. |
| AssetResolver.ResultNonEmpty | src/utils/assetResolver.js:38 | `resolved \|\| url` keeps cached values non-empty, and a non-empty URL never resolves to "". |
| AssetResolver.SecondCallHits | src/utils/assetResolver.js:31-33 | Once stored, a resolution is served from the cache whatever the host would answer, and nothing changes. |
| AssetResolver.CacheHit | src/utils/assetResolver.js:29-33 | With a library and a host API, a URL whose key is cached resolves to the cached value, and the cache is unchanged. |
| AssetResolver.CacheMiss | src/utils/assetResolver.js:35-43 | On a cache miss the host's answer, or the URL when the answer is empty, is returned and stored under the URL's key, and nothing else changes. |
| AssetResolver.ErrorNotCached | src/utils/assetResolver.js:44-47 | A host error returns the URL unchanged and is not cached, so the next call asks the host again. |
| AssetResolver.AssetResolver.constructor | src/utils/assetResolver.js:2 | The cache starts empty. |
| AssetResolver.AssetResolver.Resolve | src/utils/assetResolver.js:8-52 | resolveAssetUrl returns and caches exactly what `Resolution` says. |
| AssetResolver.AssetResolver.ClearCache | src/utils/assetResolver.js:57-59 | clearAssetCache empties the cache. |
| Presentation.At | src/composables/usePresentation.js:169 | `stacks[i]` exists exactly for an index in range. |
| Presentation.SlideAt | src/composables/usePresentation.js:170 | A slide exists exactly when the stack exists and the index is in range. |
| Presentation.Without | src/composables/usePresentation.js:379 | `splice(i, 1)` removes exactly position i and shifts the rest down by one. |
| Presentation.SlideNavigation | src/composables/usePresentation.js:314-324 | nextSlide/prevSlide move the staged slide by one exactly when their guard holds, keep the staged cursor in range, and change nothing else. |
| Presentation.StackNavigation | src/composables/usePresentation.js:327-339 | nextStack/prevStack move the staged stack by one and reset the slide to 0 exactly when their guard holds; the cursor stays in range. |
| Presentation.DirectStaging | src/composables/usePresentation.js:342-357 | stageStack and stageSlideInStack stage a valid target and ignore an out-of-range one; the cursor stays in range. |
| Presentation.GoLiveCopiesStaged | src/composables/usePresentation.js:299-302 | goLive copies the staged cursor into the live one and touches nothing else. |
| Presentation.ClearProjectionOnce | src/composables/usePresentation.js:304-311 | clearProjection cancels the timer and clears the live cursor, changes nothing else, and is idempotent. |
| Presentation.RemoveStackSpec | src/composables/usePresentation.js:377-394 | removeStack refuses to remove the last stack or an index out of range. It clamps the staged stack to the new last stack, clears the projection when the live stack was removed, and shifts a later live stack down. |
| Presentation.RemoveStackKeepsLiveStack | src/composables/usePresentation.js:386-392 | When another stack is removed, the live cursor still points at the same stack. |
| Presentation.RemoveStackStagedNotShifted | src/composables/usePresentation.js:380-384 | The staged stack index is only clamped, not shifted. Removing a stack before it can leave the staged slide outside the newly staged stack (a concrete three-stack case). |
| Presentation.RemoveSlideSpec | src/composables/usePresentation.js:409-428 | removeSlideFromStack splices out the slide and clamps the staged slide of that stack. It clears the projection exactly when the live cursor was on that slide. |
| Presentation.RemoveSlideLiveNotShifted | src/composables/usePresentation.js:421-427 | A live slide after the removed one keeps its index, so it now shows the next slide, or none at the end. |
| Presentation.ManagementKeepsStagedInRange | src/composables/usePresentation.js:360-428 | addStack, updateStackSettings, addSlideToStack and removeSlideFromStack keep the staged cursor in range. |
| Presentation.LoadSpec | src/composables/usePresentation.js:439-451 | Loading a document replaces the stacks, stages the first slide of the first stack and clears the projection; malformed JSON changes nothing. |
| Presentation.AutoAdvancePolicy | src/composables/usePresentation.js:190-220 | At most one timer is pending. Afterwards the stack's timer is pending exactly when auto-advance is on and the slide is not a video, or is a video set to "timer". |
| Presentation.LiveAdvance | src/composables/usePresentation.js:253-296 | The live slide advances by one. At the end it wraps to 0 when repeating, or stops and cancels the timer. It never touches the stacks or the staged cursor. |
| Presentation.ReloadAfterClear | src/composables/usePresentation.js:272-282 | A one-slide repeat reload that fires after clearProjection sets the live slide to 0 while no stack is live. |
| Presentation.SingleSlideRepeat | src/composables/usePresentation.js:274-283 | A repeating one-slide stack clears the live slide, and the 50 ms reload restores slide 0 and re-arms its timer. |
| Presentation.VideoEndGuard | src/composables/usePresentation.js:223-250 | onVideoComplete does nothing unless the live slide is a video of an enabled stack set to advance at the video's end. |
| Presentation.DebounceSendsLast | src/composables/usePresentation.js:43-66 | Of two projector updates within the debounce window only the last one is sent. |
| Presentation.AutoAdvanceKeepsStaged | src/composables/usePresentation.js:74-90 | The live watch, auto-advance timers and video completion never change the stacks or the staged cursor. |
| Presentation.SummaryListsStacks | src/composables/usePresentation.js:107-137 | The remote summary lists every stack with its id, title and slide count, and every slide with its title or "<type> slide". |
| Presentation.SummaryCursors | src/composables/usePresentation.js:107-137 | The summary's staged and live cursors carry the indices and titles of the staged and live positions, with no titles while nothing is live. |
| Presentation.RemoteCannotEdit | src/composables/usePresentation.js:140-166 | A remote command never edits the stacks and keeps the staged cursor in range; an unknown event does nothing. |
| PresentationController.Controller.constructor | src/composables/usePresentation.js:22-40 | The refs start with no stacks, cursors at 0 or null, no timers and text scale 100. |
| PresentationController.Controller.NextSlide | src/composables/usePresentation.js:314-318 | Computes `Presentation.NextSlide` on the fields. |
| PresentationController.Controller.PrevSlide | src/composables/usePresentation.js:320-324 | Computes `Presentation.PrevSlide`. |
| PresentationController.Controller.NextStack | src/composables/usePresentation.js:327-332 | Computes `Presentation.NextStack`. |
| PresentationController.Controller.PrevStack | src/composables/usePresentation.js:334-339 | Computes `Presentation.PrevStack`. |
| PresentationController.Controller.StageStack | src/composables/usePresentation.js:342-347 | Computes `Presentation.StageStack`. |
| PresentationController.Controller.StageSlideInStack | src/composables/usePresentation.js:349-357 | Computes `Presentation.StageSlideInStack`. |
| PresentationController.Controller.GoLive | src/composables/usePresentation.js:299-302 | Computes `Presentation.GoLive`. |
| PresentationController.Controller.ClearProjection | src/composables/usePresentation.js:304-311 | Computes `Presentation.ClearProjection`. |
| PresentationController.Controller.AddStack | src/composables/usePresentation.js:360-375 | Appends the new stack, with auto-advance off and no slides, and returns its id. The title has no default: the caller passes it, `'New Stack'` when the source's caller gives none. |
| PresentationController.Controller.RemoveStack | src/composables/usePresentation.js:377-394 | Computes `Presentation.RemoveStack`. |
| PresentationController.Controller.UpdateStackSettings | src/composables/usePresentation.js:396-400 | Computes `Presentation.UpdateStackSettings`. |
| PresentationController.Controller.AddSlideToStack | src/composables/usePresentation.js:403-407 | Computes `Presentation.AddSlideToStack`. |
| PresentationController.Controller.RemoveSlideFromStack | src/composables/usePresentation.js:409-428 | Computes `Presentation.RemoveSlideFromStack`. |
| PresentationController.Controller.LoadPresentation | src/composables/usePresentation.js:439-451 | Computes `Presentation.Load`. |
| PresentationController.Controller.SetLibraryRoot | src/composables/usePresentation.js:468 | Sets the library root and nothing else. |
| PresentationController.Controller.HandleAutoAdvance | src/composables/usePresentation.js:190-220 | Computes `Presentation.HandleAutoAdvance`. |
| PresentationController.Controller.GoNextSlideInLiveStack | src/composables/usePresentation.js:253-296 | Computes `Presentation.GoNextSlideInLiveStack`. |
| PresentationController.Controller.OnVideoComplete | src/composables/usePresentation.js:223-250 | Computes `Presentation.OnVideoComplete`. |
| PresentationController.Controller.FireAutoAdvance | src/composables/usePresentation.js:207-218 | The pending auto-advance timer fires: it advances the live slide with the `repeat` it was armed with. |
| PresentationController.Controller.FireReload | src/composables/usePresentation.js:278-282 | The single-slide reload fires: live slide 0 and auto-advance restarted. |
| PresentationController.Controller.UpdateProjector | src/composables/usePresentation.js:43-48 | A new frame replaces the pending one. |
| PresentationController.Controller.LiveChanged | src/composables/usePresentation.js:74-90 | The live-cursor watch computes `Presentation.LiveChanged`. |
| PresentationController.Controller.FireProjector | src/composables/usePresentation.js:48-65 | The debounce timer fires: it sends the pending frame with the current library root and text scale. |
| PresentationController.Controller.BroadcastState | src/composables/usePresentation.js:107-137 | Returns `Summary` of the state and changes nothing. |
| PresentationController.Controller.HandleRemoteCommand | src/composables/usePresentation.js:140-166 | Computes `Presentation.HandleRemoteCommand`. |
| Worship.Position | src/composables/useWorship.js:201 | `indexOf` gives the first position of the value, or -1 exactly when it is absent. |
| Worship.Successor | src/composables/useWorship.js:204 | The position after the current one (or after -1, none) is always a position of the list. |
| Worship.SuccessorIsModulo | src/composables/useWorship.js:204 | The successor is exactly `(index + 1) % length`: the next position, wrapping to 0 after the last. |
| Worship.RotateAfter | src/composables/useWorship.js:197-214 | Rotating from the k-th video stages video k+1 (0 after the last), and the swap makes it current and clears `next`. |
| Worship.RotateStart | src/composables/useWorship.js:198-204 | With no rotation list nothing happens. With no current video, or one not in the list, the first video is staged. |
| Worship.RotationsCycle | src/composables/useWorship.js:197-214 | m rotations with completed swaps move the current video m places along a list whose every video is first found at its own position, wrapping around. |
| Worship.DistinctFirstAtOwn | src/composables/useWorship.js:201 | In a rotation list without repeats, `indexOf` finds every video at its own position. |
| Worship.RotationsReturn | src/composables/useWorship.js:197-214 | With a rotation list without repeats, after as many rotations as there are videos the current video is back where it started. |
| Worship.OverlappingSwapsClearVideo | src/composables/useWorship.js:209-213 | Two rotations whose 3 s swaps overlap leave no current video: the second swap copies the `next` that the first swap cleared. |
| Worship.LoadSpec | src/composables/useWorship.js:21-37 | Loading a stack starts at song 0, section 0, nothing live. In auto-rotate mode with videos it picks one of them. |
| Worship.ExitSpec | src/composables/useWorship.js:42-49 | Exiting clears the stack, cursors, live section and both videos, so there is no current song. |
| Worship.GoToSongSpec | src/composables/useWorship.js:84-100 | goToSong moves to a valid song at section 0, keeps the live section, and ignores an invalid index or an inactive mode. |
| Worship.SongSteps | src/composables/useWorship.js:105-123 | nextSong/prevSong move by one exactly when their guard holds, and keep the song index in the setlist. |
| Worship.SectionSteps | src/composables/useWorship.js:129-159 | stageSection, nextSection and prevSection keep the staged section within the current song; each moves exactly when allowed. |
| Worship.LiveSpec | src/composables/useWorship.js:164-173 | goLive copies the staged section into the live one; clear empties it and is idempotent. |
| Worship.LoadBackgroundSpec | src/composables/useWorship.js:178-192 | The song's own background, else the first rotation video, else no change; only the current video changes. |
| Worship.Setlist | src/composables/useWorship.js:222-225 | There is one entry per setlist id, and none when worship mode is off. |
| Worship.SetlistMarksCurrent | src/composables/useWorship.js:226-236 | Exactly the current song's entry is marked current, entries keep the setlist ids, and an unknown id is titled "Unknown Song". |
| WorshipMode.Sequencer.constructor | src/composables/useWorship.js:8-15 | The refs start inactive, at song and section 0, with nothing live and no videos. |
| WorshipMode.Sequencer.LoadBackgroundVideoForCurrentSong | src/composables/useWorship.js:178-192 | Computes `Worship.LoadBackground` on the fields. |
| WorshipMode.Sequencer.RotateBackgroundVideo | src/composables/useWorship.js:197-214 | Computes `Worship.Rotate`. |
| WorshipMode.Sequencer.FireSwap | src/composables/useWorship.js:209-212 | The crossfade timer fires: `next` becomes current and `next` is cleared. |
| WorshipMode.Sequencer.LoadWorshipStack | src/composables/useWorship.js:21-37 | Computes `Worship.Load`. |
| WorshipMode.Sequencer.ExitWorshipMode | src/composables/useWorship.js:42-49 | Computes `Worship.Exit`. |
| WorshipMode.Sequencer.GoToSong | src/composables/useWorship.js:84-100 | Computes `Worship.GoToSong`. |
| WorshipMode.Sequencer.NextSong | src/composables/useWorship.js:105-112 | Computes `Worship.NextSong`. |
| WorshipMode.Sequencer.PrevSong | src/composables/useWorship.js:117-123 | Computes `Worship.PrevSong`. |
| WorshipMode.Sequencer.StageSection | src/composables/useWorship.js:129-137 | Computes `Worship.StageSection`. |
| WorshipMode.Sequencer.NextSection | src/composables/useWorship.js:142-150 | Computes `Worship.NextSection`. |
| WorshipMode.Sequencer.PrevSection | src/composables/useWorship.js:155-159 | Computes `Worship.PrevSection`. |
| WorshipMode.Sequencer.GoLive | src/composables/useWorship.js:164-166 | Computes `Worship.GoLive`. |
| WorshipMode.Sequencer.ClearProjection | src/composables/useWorship.js:171-173 | Computes `Worship.ClearProjection`. |

## Left out

- Ids from `Date.now()` are parameters (`id` for the parsers, `now` for addSong), and so is the `Math.random()` pick when a worship stack is loaded in auto-rotate mode.
- Regular expressions are hand-written scanners, one per pattern. `\s` and `trim` use the JavaScript white-space set. `toLowerCase`/`toUpperCase` map ASCII letters only.
- The OnSong song's `nashville` and `_renderKey` fields are not modelled. Its `time_signature` and `current_key` fields are the song's `timeSignature` and `currentKey`.
- The example in the doc comment of parseChordProLine does not match what its loop computes for that input. The model follows the loop.
- Persistence is not modelled: saveSongs, savePresentation and the JSON serialisation. A failed save is the `saveError` parameter. loadPresentation takes the parsed `stacks` array, or None for malformed JSON.
- browseSongFiles, the `useSongLibrary` wrapper and `areSongsAvailable` are not modelled. They only forward to the host or to other members.
- The file read (`readSongFile`), the song load, the asset path lookup and the presence of the host API are parameters. Console logging is left out.
- Vue reactivity is explicit. The live watch is `LiveChanged`, which the environment calls after the live cursor changes. The broadcast watch is `BroadcastState`. The computed `currentStack`, `liveSlide` and `canGo*` values are functions of the state.
- Timers are pending fields with fire methods: the auto-advance `setTimeout`, the 50 ms reloads, the 50 ms projector debounce and the 3000 ms crossfade. Delays and real time are not modelled; the order of firing is up to the caller.
- A slide holds only its `type` and `title`; its other content fields are carried by the app but never read by the core. `null` and missing values are `None` or "" as the source's truthiness tests treat them.
- Worship.LoadBackground: a song's own background is its `backgroundVideo` field. The source reads it from `presentation.backgroundVideo`.
- Worship.CurrentSong: the song library is a map from id to song, so a duplicated id in the list resolves to one song rather than the first found.
- Presentation.HandleAutoAdvance: a missing slide stops after cancelling the timer. The source throws there, reading `.type` of undefined. Presentation.OnVideoComplete does nothing in the same case.
- isWorshipModeActive is `active.Some?` in the model and has no member of its own.
- AssetResolver.AssetResolver.Resolve, SongLibrary.Library.AddSong, SongLibrary.Library.UpdateSong, SongLibrary.Library.DeleteSong, SongLibrary.Library.ImportFile: each `async` call is one atomic step, and interleavings at `await` are not modelled. Two concurrent cache misses for the same key both call the host, and the later answer overwrites the earlier one. A clearAssetCache during the host call is followed by a re-insert of the stale answer. updateSong returns `songs.value[index]` read after `await saveSongs`, so a concurrent change of the list in between can make it return another song or none.
- Text.ParseInt: values are exact unbounded integers. JavaScript's `parseInt` returns a double, so digit runs above 2^53 round there (`9007199254740993` reads as 9007199254740992). The tempo values this affects are far outside any real tempo.
- The live cursor (`liveStackIndex`, `liveSlideIndex`) is not kept both null or both set, because the source does not keep it so. The one-slide repeat leaves the live stack set with the live slide null until the reload. A reload that fires after clearProjection sets the live slide to 0 with no live stack (`Presentation.ReloadAfterClear`).

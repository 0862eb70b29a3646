# yoto-cli playlist editing, modelled in Dafny

yoto-cli is a command-line client for Yoto playlists, which the server calls cards. A card holds an ordered list of chapters, and each chapter holds an ordered list of tracks.

Each editing command follows the same pattern. It fetches the card, changes it in memory, and writes back its title, content and metadata. The commands are:

- `chapter add / edit / delete`
- `track add / edit / delete`
- `entry add / update / delete`
- `playlist edit`

Before editing, some commands also:

- upload an audio file and poll its transcode job, for at most 60 attempts;
- resolve an `--icon` argument, which may be a `yoto:#` reference, an image file or a media id.

The project models these pieces:

- the card, chapter, track, upload-slot and transcode-job shapes (`Schemas`);
- the string helpers:
  - JavaScript truthiness and prefix and suffix tests;
  - `String(n)` and `toString(16)`, with their inverse;
  - `padStart` and the two-digit keys;
  - POSIX `basename`;
  - the regular expression that strips an extension (`Text`);
- the hex form of the SHA-256 digest (`Hex`);
- the source and icon classifiers and the branch order of `track add` (`Sources`);
- the poll loop, the deduplicating upload and `track status` (`Transcode`);
- the fetched card as a mutable `CardDocument`, and the positional-key invariants (`Document`);
- each editing command. It is modelled twice:
  - as a function from the card to the edited card or an error (`ContentEdits`, `EntryEdits`);
  - as a method that makes the edit step by step on the document (`ContentCommands`, `EntryCommands`). Each method's contract ties it to the function through `Commits`: on an error nothing is written, and otherwise the edited card is written back.

Inputs from the outside world are parameters:

- Positions are `parseInt` results, so they can be `NaN` (`IndexArg`).
- What the file system and the icon upload report for an icon file is an `IconFile`.
- An `UploadServer` bundles:
  - the digest bytes;
  - the server's answer to the upload-slot request;
  - whether the PUT succeeds;
  - the job states reported on successive polls.

`process.exit(1)` becomes a `Failure` carrying an `Error`.

`resolveIcon` and `uploadAndTranscode` are repeated word for word in `src/commands/entry.ts` (lines 8-47 and 57-116). `Sources.ResolveIcon` and `Transcode.UploadAndTranscode` model both copies.

`addTrackSmart` tests `isFilePath` before `isYotoHash` (src/commands/content.ts:300-312), so `yoto:#x.mp3` is uploaded (`Sources.YotoSourcesUploadedIffAudioExtension`).

## Model

| member | source | states |
|---|---|---|
| Positions.RemoveAt | src/commands/content.ts:424 | `splice(i, 1)` at a valid position gives one element fewer: those before `i` keep their places, those after move down one, and the removed element is the only one missing as a multiset |
| Positions.DeleteAsWritten | src/commands/content.ts:419-424 | the delete guard `i < 0 \|\| i >= length` followed by `splice(i, 1)`, as written; `Positions.NaNIndexDeletesFirst` and `Positions.CheckedAgreesOnIntegers` state what it does |
| Positions.SpliceStart | src/commands/content.ts:424 | `splice`'s start conversion (NaN counts as 0, negatives count from the end, clamped) is the position itself for every valid integer position |
| Positions.NaNIndexDeletesFirst | src/commands/content.ts:419-424 | as written, a NaN position passes the `< 0 \|\| >= length` guard although `s[NaN]` finds nothing, and `splice(NaN, 1)` then removes the first element |
| Positions.DeleteChecked | src/commands/content.ts:419-424 | corrected delete: it succeeds exactly when the position finds an element, removes exactly that element (`s[..i] + s[i+1..]`), one fewer, the multiset minus that element |
| Positions.CheckedAgreesOnIntegers | src/commands/content.ts:419-424 | on integer positions the guard as written and the corrected delete give the same result |
| Text.ToRadix | src/commands/content.ts:189 | `String(n)` and `n.toString(base)` are non-empty and start with '0' only for zero |
| Text.RadixRoundTrip | src/commands/content.ts:189 | reading the digits of `n` back in the same base gives `n` |
| Text.PadStart | src/commands/content.ts:189 | `padStart(width, fill)` keeps a long enough string, otherwise pads it to exactly `width` with `fill` in front, and always ends in the original |
| Text.Key | src/commands/content.ts:189 | `String(n).padStart(2, "0")`; `Text.KeyRoundTrip`, `Text.KeyInjective`, `Text.KeyShape` and `Text.FirstKeys` state what it gives |
| Text.KeyRoundTrip | src/commands/content.ts:189 | a two-digit key reads back as the number it was made from, leading zeros included |
| Text.KeyInjective | src/commands/content.ts:248 | different counts never give the same key |
| Text.KeyShape | src/commands/content.ts:248 | keys below 100 have exactly two characters, and keys below 10 are '0' followed by the digit |
| Text.FirstKeys | src/commands/content.ts:180 | the keys of positions 0, 1 and 9 are "00", "01" and "09", so the hard-coded track key "01" is the key of position 1 |
| Text.Basename | src/commands/entry.ts:135 | `basename` contains no '/' and returns a path with no '/' unchanged |
| Text.BasenameIsLastSegment | src/commands/entry.ts:135 | `basename` is the last non-empty segment: it ends where the trailing slashes begin and reaches back to the '/' before it or to the start; it is empty exactly when the path is empty or all slashes |
| Text.BasenameExamples | src/commands/entry.ts:135 | "dir/song.mp3" gives "song.mp3", "a/b/" gives "b" and "/" gives "" |
| Text.StripExtension | src/commands/entry.ts:135 | `.replace(/\.[^/.]+$/, "")` cuts the string at the one dot that starts a non-empty final extension free of '.' and '/', leaves strings without one unchanged, and always returns a prefix |
| Text.StripExtensionExamples | src/commands/entry.ts:135 | "a.tar.gz" becomes "a.tar", "song.mp3" becomes "song", "song" and "song." are unchanged, ".hidden" becomes "" |
| Hex.HexByteDigits | src/commands/entry.ts:68 | `b.toString(16).padStart(2, "0")` is always the two lower-case hex digits of the byte, high nibble first |
| Hex.HexDigest | src/commands/entry.ts:66-68 | the hex digest has two characters per byte |
| Hex.HexDigestAt | src/commands/entry.ts:68 | byte `i` is written at positions `2i` and `2i+1` as its high and low nibble |
| Hex.HexDigestIsJoin | src/commands/entry.ts:68 | characters `2i..2i+2` of the digest string are exactly `bytes[i].toString(16).padStart(2, "0")` |
| Hex.Sha256HexLength | src/commands/entry.ts:66-68 | a 32-byte SHA-256 digest becomes 64 lower-case hex digits |
| Hex.HexRoundTrip | src/commands/entry.ts:68 | decoding the hex digest gives the bytes back |
| Hex.HexDigestInjective | src/commands/entry.ts:68 | different digests never share a hex form |
| Sources.EndsWithExtensionMeans | src/commands/content.ts:275-276 | the extension regular expression matches exactly when one listed extension, with its dot, ends the string ignoring case |
| Sources.IsFilePathMeans | src/commands/content.ts:269-280 | `isFilePath` holds exactly for a "./", "../" or "/" prefix, or an audio extension on a string not starting with "http" |
| Sources.IsFilePath | src/commands/content.ts:269-280 | `isFilePath`; `Sources.IsFilePathMeans` states when it holds |
| Sources.IsYotoHash | src/commands/content.ts:282-284 | `isYotoHash`, the `yoto:#` prefix test; `Sources.RouteSource` and `Sources.YotoSourcesUploadedIffAudioExtension` use it |
| Sources.IsUrl | src/commands/content.ts:286-288 | `isUrl`, the http:// or https:// prefix test; `Sources.UrlsAreNeverUploaded` states what it rules out |
| Sources.RouteSource | src/commands/content.ts:300-326 | a source is used as a yoto:# reference only if it is one, and as a URL only if it is one |
| Sources.VerbatimSources | src/commands/content.ts:300-326 | a source is used verbatim exactly when it is no file path and is a yoto:# or http(s) reference; every other source is uploaded |
| Sources.PathsAreUploaded | src/commands/content.ts:271-273 | a "./", "../" or "/" prefix always means upload |
| Sources.UrlsAreNeverUploaded | src/commands/content.ts:276 | an http:// or https:// source is never uploaded, whatever its extension |
| Sources.YotoSourcesUploadedIffAudioExtension | src/commands/content.ts:300-312 | because the file-path test comes first, a yoto:# source is uploaded exactly when it ends in an audio extension |
| Sources.NoDotNoExtension | src/commands/content.ts:275 | a string with no '.' never matches an extension test |
| Sources.LocalPathExample | src/commands/content.ts:300 | "./a.mp3" is uploaded as a path |
| Sources.YotoReferenceExample | src/commands/content.ts:310-312 | "yoto:#abc" is used as a reference |
| Sources.ExternalUrlExample | src/commands/content.ts:313-315 | "https://x/y.mp3" is used as an external URL |
| Sources.BareWordExample | src/commands/content.ts:316-325 | "abc123" falls through to upload |
| Sources.YotoWithAudioExtensionExample | src/commands/content.ts:300-312 | "yoto:#x.mp3" is uploaded, not used as a reference |
| Sources.ResolveIcon | src/commands/content.ts:8-47 | `resolveIcon`; `Sources.IconRefRoundTrip`, `Sources.PathLikeIcons` and `Sources.ResolveIconFailsOnlyForMissingFiles` state its three branches |
| Sources.IconRefRoundTrip | src/commands/content.ts:8-12 | resolving the reference `yoto:#m` that the commands write gives back `m`, whatever the file system says |
| Sources.ResolveIconIdempotent | src/commands/content.ts:8-47 | resolving the reference of a resolved icon gives the same media id again |
| Sources.YotoPrefixBeatsFileHeuristic | src/commands/content.ts:10-18 | the prefix test comes before the image-extension test: "yoto:#cover.png" names media id "cover.png" and uploads nothing |
| Sources.PathLikeIcons | src/commands/content.ts:14-43 | a path-like icon without the prefix fails exactly when its file is missing, and otherwise gives the uploaded media id |
| Sources.ResolveIconFailsOnlyForMissingFiles | src/commands/content.ts:8-47 | only a missing path-like icon file fails, with "icon file not found". Any other argument resolves without looking at the file system, and one that is neither a `yoto:#` reference nor path-like is returned unchanged |
| Sources.MediaIdOrDefault | src/commands/content.ts:159-160 | `options.icon ? await resolveIcon(options.icon) : DEFAULT_ICON`; `ContentEdits.AddChapterDefaultIcon` states the default branch |
| Sources.OptionalMediaId | src/commands/content.ts:233 | `options.icon ? await resolveIcon(options.icon) : undefined`; `ContentEdits.AddTrackAppendsToOneChapter` and `ContentEdits.EmptyMediaIdTrack` state its use |
| Transcode.AttemptRules | src/commands/content.ts:544-557 | for every job: an attempt succeeds exactly when the phase is "complete" or a transcoded hash is present, with that hash and duration. It fails exactly when neither holds and the phase is non-empty and not in progress, reporting that phase. Otherwise it keeps polling; a job with neither phase nor hash is pending |
| Transcode.PollTranscode | src/commands/content.ts:537-563 | the loop makes between 1 and 60 attempts and returns the outcome of the first attempt that finishes; every earlier attempt was pending, and a time-out means all 60 were pending |
| Transcode.TimesOutIffAllPending | src/commands/content.ts:539-562 | the loop times out exactly when every one of the 60 attempts is pending |
| Transcode.FirstFinishedDecides | src/commands/content.ts:539-557 | when attempts before `k` are pending and attempt `k` finishes, attempt `k` decides the outcome |
| Transcode.TolerantPollKeepsSuccess | src/commands/content.ts:554 | polling that tolerates more in-progress phases keeps every success, with the same hash and duration |
| Transcode.StatusSuccessIsUploadSuccess | src/commands/content.ts:633 | whenever `track status --wait` succeeds, the upload loop succeeds on the same responses |
| Transcode.TranscodingPhaseDiffers | src/commands/content.ts:633 | a job stuck in "transcoding" makes the upload loop time out and makes `track status --wait` fail with that phase |
| Transcode.CompletesOnThirdAttempt | src/commands/content.ts:544-551 | a job that completes on the third poll gives its hash and duration |
| Transcode.NeverLeavesProcessing | src/commands/content.ts:537-563 | a job that stays "processing" uses all 60 attempts and times out |
| Transcode.CompleteWithoutHash | src/commands/content.ts:544-550 | a "complete" job with no transcoded hash counts as success, and its reference is "yoto:#undefined" |
| Transcode.TimeoutIsFiveMinutes | src/commands/content.ts:562 | the time-out is reported as 300 seconds |
| Transcode.WaitedUpload | src/commands/content.ts:505-564 | `uploadAndTranscode(path, { wait: true })`; `Transcode.WaitedUploadHasTrackUrl` and `Transcode.DeduplicatedUploadIgnoresTransfer` state what it gives |
| Transcode.WaitedUploadHasTrackUrl | src/commands/content.ts:544-551 | after waiting, a successful upload always has a non-empty `yoto:#` reference and the slot's upload id, so the "Failed to get track URL" exits cannot be reached |
| Transcode.DeduplicatedUploadIgnoresTransfer | src/commands/entry.ts:74-80 | when the slot has no upload URL, the bytes are not sent and the PUT cannot fail the upload |
| Transcode.UploadAndTranscode | src/commands/entry.ts:57-116 | the slot is requested under the hex digest and base name, and the bytes are PUT only for a non-empty upload URL; without waiting only the upload id is returned, with no poll; with waiting the poll's outcome is returned after 1 to 60 attempts |
| Transcode.CheckOnce | src/commands/content.ts:646-670 | the single status check; `Transcode.CheckOnceAgreesWithPolling` ties it to one poll attempt |
| Transcode.CheckOnceAgreesWithPolling | src/commands/content.ts:645-670 | the single status check reports completion exactly when a poll attempt would succeed, with the same reference and duration, and shows a failed phase as in progress |
| Transcode.GetTranscodeStatus | src/commands/content.ts:599-671 | with `--wait` this is the poll with only "queued" and "processing" in progress, mapped to a reference or an error; without it, one request |
| Document.CanonicalChapterKeysDistinct | src/commands/content.ts:189 | chapter keys made from positions are pairwise distinct |
| Document.AppendKeepsChapterKeys | src/commands/content.ts:168-196 | appending a chapter keyed by the old chapter count keeps every key equal to its position |
| Document.AppendKeepsTrackKeys | src/commands/content.ts:246-257 | appending a track keyed by the new track count keeps every key equal to its 1-based position |
| Document.DeleteThenAppendRepeatsKey | src/commands/content.ts:168-189 | after deleting any chapter but the last, the next chapter added gets the same key as the one now last, so keys are no longer distinct |
| ContentEdits.ChapterAudioNeverLacksUrl | src/commands/content.ts:148-156 | the "Failed to get track URL from upload" exit of `chapter add` cannot be reached |
| ContentEdits.ChapterAdded | src/commands/content.ts:139-202 | `chapter add` as a function of the card; `ContentEdits.AddChapterAppendsOne`, `ContentEdits.AddChapterDefaultIcon` and `ContentEdits.AddChapterKeepsKeys` state what it does |
| ContentEdits.AddChapterAppendsOne | src/commands/content.ts:139-202 | `chapter add` fails only for a failed upload (checked first) or a missing icon file. Otherwise it appends exactly one chapter and changes nothing else. The new chapter is keyed by the old count and its display shows its own icon. It holds one track keyed "01" with the uploaded reference when a file is given, and none otherwise |
| ContentEdits.AddChapterDefaultIcon | src/commands/content.ts:159-161 | without `--icon` the chapter's icon is the default media id and its display is `yoto:#` plus it |
| ContentEdits.AddChapterKeepsKeys | src/commands/content.ts:168-196 | `chapter add` keeps chapter keys positional, and the new chapter's track keys too |
| ContentEdits.TrackAdded | src/commands/content.ts:225-263 | `track add` with a resolved source; `ContentEdits.AddTrackAppendsToOneChapter` and `ContentEdits.AddTrackKeepsTrackKeys` state what it does |
| ContentEdits.AddTrackAppendsToOneChapter | src/commands/content.ts:225-263 | `track add` fails only for a missing icon file or a position with no chapter. Otherwise it appends one track to that chapter alone, keyed by the new track count, with the given title, URL, duration and icon. The track has a display block exactly when the media id is non-empty |
| ContentEdits.AddTrackKeepsTrackKeys | src/commands/content.ts:246-257 | `track add` keeps the chapter's track keys positional |
| ContentEdits.EmptyMediaIdTrack | src/commands/content.ts:233-254 | `--icon yoto:#` gives the media id "": the track records icon "" but gets no display block |
| ContentEdits.SmartTrackAdded | src/commands/content.ts:290-333 | `track add` with source routing; `ContentEdits.SmartTrackRouting` and `ContentEdits.UploadedSourcesBecomeReferences` state what it does |
| ContentEdits.SmartTrackRouting | src/commands/content.ts:290-333 | a verbatim source is added as given with the given duration. An uploaded source is added with its transcoded reference and `options.duration ?? result.duration`. A failed upload is reported before the chapter is looked up |
| ContentEdits.UploadedSourcesBecomeReferences | src/commands/content.ts:300-326 | an uploaded source always becomes a `yoto:#` reference in the document |
| ContentEdits.EditedTrack | src/commands/content.ts:357-366 | the edits of `track edit` on one track; `ContentEdits.EditedTrackChangesOnlySupplied` and `ContentEdits.EditedTrackIdempotent` state them |
| ContentEdits.EditedTrackChangesOnlySupplied | src/commands/content.ts:357-366 | `track edit` changes only what is supplied: a non-empty title, the display icon for a given icon, a non-empty URL. `--on-end` replaces the events wholesale. The track's `icon` property and all other properties are kept |
| ContentEdits.EditedTrackIdempotent | src/commands/content.ts:357-366 | applying the same track edit twice is the same as applying it once |
| ContentEdits.TrackUpdated | src/commands/content.ts:335-372 | `track edit` as a function of the card; `ContentEdits.UpdateTrackEditsOneTrack` states what it does |
| ContentEdits.UpdateTrackEditsOneTrack | src/commands/content.ts:335-372 | `track edit` fails for a missing chapter, then a missing track, then a missing icon file. Otherwise it replaces exactly that track by its edit, and with no option it writes the card back unchanged |
| ContentEdits.UpdateTrackIconLeavesIconStale | src/commands/content.ts:358-361 | a track whose icon and display agreed disagrees after `--icon` names a different media id |
| ContentEdits.EditedChapter | src/commands/content.ts:481-486 | the edits of `chapter edit` on one chapter; `ContentEdits.EditedChapterChangesOnlySupplied` states them |
| ContentEdits.EditedChapterChangesOnlySupplied | src/commands/content.ts:481-486 | `chapter edit` changes only a non-empty title and, for a given icon, both `icon` and the display, which then agree. Tracks and other properties are kept, and the edit is idempotent |
| ContentEdits.ChapterUpdated | src/commands/content.ts:466-492 | `chapter edit` as a function of the card; `ContentEdits.UpdateChapterEditsOneChapter` states what it does |
| ContentEdits.UpdateChapterEditsOneChapter | src/commands/content.ts:466-492 | `chapter edit` fails exactly for a missing chapter or a missing icon file; otherwise only that chapter changes |
| ContentEdits.PlaylistEdited | src/commands/content.ts:391-401 | the card after `playlist edit`'s metadata and playback-type edits; `ContentEdits.PlaylistUpdateChangesOnlySupplied` states them |
| ContentEdits.PlaylistRequest | src/commands/content.ts:402-406 | the request `playlist edit` sends; `ContentEdits.PlaylistUpdateChangesOnlySupplied` and `ContentEdits.EmptyPlaylistTitleIsSent` state its title |
| ContentEdits.PlaylistUpdateChangesOnlySupplied | src/commands/content.ts:377-406 | `playlist edit` sends `title ?? card.title`. It sets description, author and playback type exactly when they are given, and an empty value counts as given. Category and chapters are kept, the card's own title is never changed, and the edit is idempotent |
| ContentEdits.EmptyPlaylistTitleIsSent | src/commands/content.ts:391 | `--title ""` sends an empty title |
| ContentEdits.ChapterDeleted | src/commands/content.ts:411-430 | `chapter delete` with the corrected position check (`Positions.DeleteChecked`); `ContentEdits.DeleteChapterRemovesOne` states what it does |
| ContentEdits.DeleteChapterRemovesOne | src/commands/content.ts:411-430 | with the corrected position check (`Positions.DeleteChecked`), `chapter delete` fails exactly for a position with no chapter. Otherwise it removes exactly that chapter, and the rest of the card is unchanged |
| ContentEdits.NonNumericChapterDelete | src/commands/content.ts:419-424 | as written, a non-numeric position deletes the first chapter; corrected, it is rejected as not found |
| ContentEdits.TrackDeleted | src/commands/content.ts:435-461 | `track delete` with the corrected position check (`Positions.DeleteChecked`); `ContentEdits.DeleteTrackRemovesOne` states what it does |
| ContentEdits.DeleteTrackRemovesOne | src/commands/content.ts:435-461 | with the corrected position check (`Positions.DeleteChecked`), `track delete` fails for a missing chapter and then for a position with no track. Otherwise it removes exactly that track from that chapter alone |
| ContentCommands.AddChapter | src/commands/content.ts:139-202 | carries out `chapter add` on the document: on an error nothing is written, otherwise the card described by `ChapterAdded` is written back |
| ContentCommands.AddTrack | src/commands/content.ts:225-263 | carries out `track add` on the document as `TrackAdded` describes |
| ContentCommands.AddTrackSmart | src/commands/content.ts:290-333 | classifies and maybe uploads the source, then adds the track, as `SmartTrackAdded` describes |
| ContentCommands.UpdateTrack | src/commands/content.ts:335-372 | carries out `track edit` on the document as `TrackUpdated` describes |
| ContentCommands.UpdateChapter | src/commands/content.ts:466-492 | carries out `chapter edit` on the document as `ChapterUpdated` describes |
| ContentCommands.UpdatePlaylist | src/commands/content.ts:377-406 | edits the document's metadata and playback type as `PlaylistEdited` describes, and sends the request with the new title |
| ContentCommands.DeleteChapter | src/commands/content.ts:411-430 | carries out `chapter delete`, with the corrected position check, as `ChapterDeleted` describes |
| ContentCommands.DeleteTrack | src/commands/content.ts:435-461 | carries out `track delete`, with the corrected position check, as `TrackDeleted` describes |
| EntryEdits.OriginalFileName | src/commands/entry.ts:135 | the recorded file name is a prefix of the base name and contains no '/' |
| EntryEdits.AddEntryRequiresFile | src/commands/entry.ts:127-130 | `entry add` fails with "--file is required" exactly when no file is given, before any upload |
| EntryEdits.EntryAdded | src/commands/entry.ts:122-192 | `entry add` as a function of the card; `EntryEdits.AddEntryRequiresFile`, `EntryEdits.AddEntryAppendsOne`, `EntryEdits.EntryLabelIsOneBased` and `EntryEdits.AddEntryKeepsKeys` state what it does |
| EntryEdits.AddEntryAppendsOne | src/commands/entry.ts:155-186 | `entry add` appends exactly one chapter with exactly one track, and changes nothing else. Chapter and track share the title, icon reference, file size, duration and overlay label. The chapter gets the old count as its key, the track gets "01", and the file name without its extension is recorded |
| EntryEdits.EntryLabelIsOneBased | src/commands/entry.ts:155-156 | the overlay label reads back as the entry's 1-based position |
| EntryEdits.AddEntryKeepsKeys | src/commands/entry.ts:155-186 | `entry add` keeps chapter keys positional, and the entry's track key too |
| EntryEdits.EditedEntry | src/commands/entry.ts:226-242 | the edits of `entry update` on one entry; `EntryEdits.EditedEntryPropagates` states them |
| EntryEdits.EditedEntryPropagates | src/commands/entry.ts:226-242 | a given title goes to the chapter and every track, and a given icon to the chapter's and every track's display. Without them, the titles or displays are untouched. The track count and all other properties are kept, and an entry in sync stays in sync |
| EntryEdits.EntryUpdated | src/commands/entry.ts:211-248 | `entry update` as a function of the card; `EntryEdits.UpdateEntryEditsOneEntry` states what it does |
| EntryEdits.UpdateEntryEditsOneEntry | src/commands/entry.ts:211-248 | `entry update` fails exactly for a missing entry or a missing icon file; otherwise only that entry changes |
| EntryEdits.EntryDeleted | src/commands/entry.ts:253-272 | `entry delete` with the corrected position check (`Positions.DeleteChecked`); `EntryEdits.DeleteEntryRemovesOne` states what it does |
| EntryEdits.DeleteEntryRemovesOne | src/commands/entry.ts:253-272 | with the corrected position check (`Positions.DeleteChecked`), `entry delete` fails exactly for a position with no entry; otherwise it removes exactly that chapter |
| EntryEdits.NonNumericEntryDelete | src/commands/entry.ts:261-266 | as written, a non-numeric position deletes the first entry; corrected, it is rejected as not found |
| EntryCommands.AddEntry | src/commands/entry.ts:122-192 | carries out `entry add` on the document as `EntryAdded` describes |
| EntryCommands.RetitleTracks | src/commands/entry.ts:229-231 | the loop computes `Retitled`: every track gets the new title and nothing else changes |
| EntryCommands.SetTrackIcons | src/commands/entry.ts:239-241 | the loop computes `Reiconed`: every track's display gets the new icon and nothing else changes |
| EntryCommands.UpdateEntry | src/commands/entry.ts:211-248 | carries out `entry update` on the document with the two loops, as `EntryUpdated` describes |
| EntryCommands.DeleteEntry | src/commands/entry.ts:253-272 | carries out `entry delete`, with the corrected position check, as `EntryDeleted` describes |

The shapes in `src/api/schemas.ts` are datatypes:

- `Track` (lines 41-55) and `Chapter` (lines 57-71) require only `key` and `title`, plus `tracks` for a chapter.
- In `Track`, `duration`, `fileSize` and `ambient` may be null.
- `Card` (lines 93-104) requires `cardId`, `title` and `content`.
- `UploadSlot` (lines 169-174) has a nullable `uploadUrl`.
- `TranscodeJob` (lines 176-196) has an optional `progress`, hash and duration.
- `UpdateContentRequest` (lines 266-271) requires only `title`.

## Left out

- HTTP and authentication: fetching, creating, writing and deleting cards; requesting slots; uploading bytes and icons; reading job states. Their results are parameters, and the write-back is the returned request.
- A write-back can overwrite a concurrent edit by another client. That is a property of the remote service, so it is not modelled.
- File system: reading files and `stat`. The existence of an icon file and the size of an audio file are parameters. A missing audio file makes `stat` or `readFile` throw, which is not modelled.
- SHA-256 itself. The digest bytes are a parameter, and only their hex form is modelled.
- The 5-second sleeps are empty steps. Which upload id is polled is not modelled, since the job states are given per attempt.
- Output: `success`, `info`, `table`, `json` and `console.log`. Also `listPlaylists`, `getPlaylist`, `createPlaylist`, `deletePlaylist` and `uploadAudio`, which only print or forward a server call.
- `formatDuration` and the inline duration printing, which use floating-point `Math.round` and `%`.
- Command wiring in `src/cli/*.ts`. Only its `parseInt` is modelled, as `IndexArg`.
- zod validation itself. Other display properties are not modelled, because the display schema keeps only `icon16x16`: `{ ...display, icon16x16 }` is therefore the same block as `{ icon16x16 }`.
- Transcode.UploadAndTranscode: a rejected PUT throws in the source. The model reports it as the error `UploadFailed`, and exceptions in general are not modelled.
- Text.ToRadix: JavaScript's `String(n)` switches to exponent notation from 10^21. The model writes plain digits, which matters only for cards with that many chapters.
- Strings are sequences of Unicode scalar values, while JavaScript strings are UTF-16 code units. The prefix, suffix and extension tests here look only at ASCII characters, where the two agree.
- Text.Basename: the model is POSIX `basename`. On Windows, Node's `path` module also splits at '\\', and that is not modelled.
- Responses are assumed to be parsed through the zod schemas of `src/api/schemas.ts`, so a display block holds only `icon16x16`. The API client that applies the schemas is not part of this model.
- Durations and file sizes are JSON numbers, modelled as `real`. NaN and infinities are not modelled.

## Findings

| source | as written | input that shows it | evidently intended | confidence | as-written member | corrected member |
|---|---|---|---|---|---|---|
| src/commands/content.ts:419-424 | `if (chapterIndex < 0 \|\| chapterIndex >= length)` exit, else `splice(chapterIndex, 1)` | `chapter delete <card> x` on a card with chapters: `parseInt("x")` is NaN, both comparisons are false, and `splice(NaN, 1)` removes chapter 0 | a position with no chapter is rejected as not found, as `chapter edit` does with `chapters[i]` | not executed | ContentEdits.NonNumericChapterDelete | Positions.DeleteChecked |
| src/commands/content.ts:450-455 | the same guard and `splice` on the chapter's tracks | `track delete <card> 0 x` on a chapter with tracks removes track 0 | reject the position as not found | not executed | Positions.NaNIndexDeletesFirst | Positions.DeleteChecked |
| src/commands/entry.ts:261-266 | the same guard and `splice` on the chapters | `entry delete <card> x` on a card with entries removes entry 0 | reject the position as not found | not executed | EntryEdits.NonNumericEntryDelete | Positions.DeleteChecked |

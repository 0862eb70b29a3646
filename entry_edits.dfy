/**
 * What the entry commands of `entry.ts` do to the fetched card.  An entry is a chapter that mirrors
 * its tracks: `entry add` builds a chapter holding exactly one track and copies title, icon, overlay
 * label, file size and duration onto both, and `entry update` copies a new title or icon onto the
 * chapter and every one of its tracks.
 */
module EntryEdits {
  import opened Wrappers
  import opened Positions
  import opened Errors
  import opened Schemas
  import opened Text
  import opened Sources
  import opened Transcode
  import opened Document

  // ---------------------------------------------------------------------------------------------
  // entry add
  // ---------------------------------------------------------------------------------------------

  /** The `_originalFileName` of an entry: the file's base name with a final extension removed. */
  function OriginalFileName(path: string): (r: string)
    ensures StartsWith(Basename(path), r)
    ensures forall k :: 0 <= k < |r| ==> r[k] != '/'
  {
    var name := StripExtension(Basename(path));
    assert forall k :: 0 <= k < |name| ==> name[k] == Basename(path)[k];
    name
  }

  /** The single track of an entry. */
  function EntryTrack(title: string, trackUrl: string, duration: Option<real>, fileSize: nat,
                      overlay: string, ref: string): Track {
    Track("01", title, FieldOf(duration), Some("aac"), None, Some("audio"), Some(trackUrl), None,
          Some(overlay), DisplayFor(ref), Value(fileSize as real), Null, None)
  }

  /** The chapter `entry add` appends at position `index`: its overlay label is the 1-based position. */
  function EntryChapter(index: nat, title: string, trackUrl: string, duration: Option<real>, fileSize: nat,
                        ref: string, originalFileName: string): Chapter {
    var overlay := NatToString(index + 1);
    Chapter(Key(index), title, duration, None, [EntryTrack(title, trackUrl, duration, fileSize, overlay, ref)],
            Some(overlay), DisplayFor(ref), Some(fileSize as real), Some(originalFileName), Null, Null, Null, Null)
  }

  /**
   * `addEntry`: `--file` is required; the file's size (as the file system reports it) and name are
   * taken, then it is uploaded and the icon resolved (or the default one taken), then the entry is
   * appended.
   */
  function EntryAdded(card: Card, title: string, icon: Option<string>, file: Option<string>, fileSize: nat,
                      server: UploadServer, iconFile: IconFile): Result<Card, Error> {
    if !Truthy(file) then Failure(FileRequired)
    else
      match WaitedUpload(file.value, server)
      case Failure(e) => Failure(e)
      case Success(audio) =>
        if !Truthy(audio.trackUrl) then Failure(NoTrackUrl)
        else
          match MediaIdOrDefault(icon, iconFile)
          case Failure(e) => Failure(e)
          case Success(mediaId) =>
            var chapters := card.content.chapters;
            var entry := EntryChapter(|chapters|, title, audio.trackUrl.value, audio.duration, fileSize,
                                      IconRef(mediaId), OriginalFileName(file.value));
            Success(WithChapters(card, chapters + [entry]))
  }

  /** Every track of an entry shows the entry's title and icon. */
  ghost predicate EntryInSync(chapter: Chapter) {
    |chapter.tracks| > 0 &&
    forall j :: 0 <= j < |chapter.tracks| ==>
      chapter.tracks[j].title == chapter.title && IconOf(chapter.tracks[j].display) == IconOf(chapter.display)
  }

  /** Without a file `entry add` fails before uploading anything or touching the card. */
  lemma AddEntryRequiresFile(card: Card, title: string, icon: Option<string>, file: Option<string>, fileSize: nat,
                             server: UploadServer, iconFile: IconFile)
    ensures EntryAdded(card, title, icon, file, fileSize, server, iconFile) == Failure(FileRequired) <==> !Truthy(file)
  {
    if Truthy(file) && WaitedUpload(file.value, server).Success? {
      WaitedUploadHasTrackUrl(file.value, server);
    }
  }

  /**
   * `entry add` appends exactly one chapter, holding exactly one track, and changes nothing else.
   * Chapter and track share the title, the icon reference, the file size, the duration and the
   * overlay label (the entry's 1-based position); the chapter is keyed by the old chapter count, the
   * track "01", and the chapter records the file's name without its extension.
   */
  lemma AddEntryAppendsOne(card: Card, title: string, icon: Option<string>, file: Option<string>, fileSize: nat,
                           server: UploadServer, iconFile: IconFile)
    requires EntryAdded(card, title, icon, file, fileSize, server, iconFile).Success?
    ensures var before := card.content.chapters;
            var after := EntryAdded(card, title, icon, file, fileSize, server, iconFile).value.content.chapters;
            var entry := after[|before|];
            var audio := WaitedUpload(file.value, server).value;
            && |after| == |before| + 1 && after[..|before|] == before
            && WithChapters(EntryAdded(card, title, icon, file, fileSize, server, iconFile).value, before) == card
            && |entry.tracks| == 1 && EntryInSync(entry)
            && entry.key == Key(|before|) && entry.tracks[0].key == "01"
            && entry.title == title
            && IconOf(entry.display) == Some(IconRef(MediaIdOrDefault(icon, iconFile).value))
            && entry.fileSize == Some(fileSize as real) && entry.tracks[0].fileSize == Value(fileSize as real)
            && entry.duration == audio.duration && entry.tracks[0].duration == FieldOf(audio.duration)
            && entry.overlayLabel == entry.tracks[0].overlayLabel == Some(NatToString(|before| + 1))
            && entry.tracks[0].trackUrl == audio.trackUrl
            && entry.originalFileName == Some(StripExtension(Basename(file.value)))
  {
    var before := card.content.chapters;
    var after := EntryAdded(card, title, icon, file, fileSize, server, iconFile).value.content.chapters;
    assert after[..|before|] == before;
  }

  /** The overlay label reads back as the entry's 1-based position. */
  lemma EntryLabelIsOneBased(card: Card, title: string, icon: Option<string>, file: Option<string>, fileSize: nat,
                             server: UploadServer, iconFile: IconFile)
    requires EntryAdded(card, title, icon, file, fileSize, server, iconFile).Success?
    ensures var after := EntryAdded(card, title, icon, file, fileSize, server, iconFile).value.content.chapters;
            var overlay := after[|after| - 1].overlayLabel;
            overlay.Some? && FromRadix(overlay.value, 10) == |after|
  {
    RadixRoundTrip(|card.content.chapters| + 1, 10);
  }

  /** Adding entries keeps chapter keys positional, and the new entry's track key too. */
  lemma AddEntryKeepsKeys(card: Card, title: string, icon: Option<string>, file: Option<string>, fileSize: nat,
                          server: UploadServer, iconFile: IconFile)
    requires ChapterKeysCanonical(card.content.chapters)
    requires EntryAdded(card, title, icon, file, fileSize, server, iconFile).Success?
    ensures var after := EntryAdded(card, title, icon, file, fileSize, server, iconFile).value.content.chapters;
            ChapterKeysCanonical(after) && TrackKeysCanonical(after[|after| - 1].tracks)
  {
    var chapters := card.content.chapters;
    var audio := WaitedUpload(file.value, server).value;
    var mediaId := MediaIdOrDefault(icon, iconFile).value;
    var entry := EntryChapter(|chapters|, title, audio.trackUrl.value, audio.duration, fileSize,
                              IconRef(mediaId), OriginalFileName(file.value));
    var after := EntryAdded(card, title, icon, file, fileSize, server, iconFile).value.content.chapters;
    assert after == chapters + [entry];
    AppendKeepsChapterKeys(chapters, entry);
    assert after[|after| - 1] == entry;
    SingleTrackKeyed(entry.tracks[0]);
    assert entry.tracks == [entry.tracks[0]];
  }

  // ---------------------------------------------------------------------------------------------
  // entry update
  // ---------------------------------------------------------------------------------------------

  /** Every track given the title `title`. */
  function Retitled(tracks: seq<Track>, title: string): (r: seq<Track>)
    ensures |r| == |tracks| && forall j :: 0 <= j < |r| ==> r[j] == tracks[j].(title := title)
  {
    seq(|tracks|, j requires 0 <= j < |tracks| => tracks[j].(title := title))
  }

  /** Every track given the display icon `ref`. */
  function Reiconed(tracks: seq<Track>, ref: string): (r: seq<Track>)
    ensures |r| == |tracks| && forall j :: 0 <= j < |r| ==> r[j] == tracks[j].(display := DisplayFor(ref))
  {
    seq(|tracks|, j requires 0 <= j < |tracks| => tracks[j].(display := DisplayFor(ref)))
  }

  /** The entry after `updateEntry`'s assignments; `ref` is the icon reference, if an icon was given. */
  function EditedEntry(chapter: Chapter, title: Option<string>, ref: Option<string>): Chapter {
    var c1 := if Truthy(title) then chapter.(title := title.value, tracks := Retitled(chapter.tracks, title.value)) else chapter;
    if ref.Some? then c1.(display := DisplayFor(ref.value), tracks := Reiconed(c1.tracks, ref.value)) else c1
  }

  /**
   * `entry update` copies a given title onto the chapter and every track and leaves every title
   * alone otherwise; it copies a given icon onto the chapter's and every track's display and leaves
   * every display alone otherwise; the track count and every other property are kept, and an entry
   * in sync stays in sync.
   */
  lemma EditedEntryPropagates(chapter: Chapter, title: Option<string>, ref: Option<string>)
    ensures var c := EditedEntry(chapter, title, ref);
            && |c.tracks| == |chapter.tracks|
            && c.title == (if Truthy(title) then title.value else chapter.title)
            && IconOf(c.display) == (if ref.Some? then ref else IconOf(chapter.display))
            && c.(title := chapter.title, display := chapter.display, tracks := chapter.tracks) == chapter
            && (forall j :: 0 <= j < |c.tracks| ==>
                  && c.tracks[j].title == (if Truthy(title) then title.value else chapter.tracks[j].title)
                  && (ref.Some? ==> IconOf(c.tracks[j].display) == ref)
                  && (ref.None? ==> c.tracks[j].display == chapter.tracks[j].display)
                  && c.tracks[j].(title := chapter.tracks[j].title, display := chapter.tracks[j].display) == chapter.tracks[j])
            && (EntryInSync(chapter) ==> EntryInSync(c))
  {
  }

  /** `updateEntry`: find the entry, resolve the icon if one is given, edit the entry. */
  function EntryUpdated(card: Card, entryIndex: IndexArg, title: Option<string>, icon: Option<string>,
                        iconFile: IconFile): Result<Card, Error> {
    var chapters := card.content.chapters;
    match Lookup(chapters, entryIndex)
    case None => Failure(EntryNotFound(entryIndex))
    case Some(chapter) =>
      match OptionalMediaId(icon, iconFile)
      case Failure(e) => Failure(e)
      case Success(mediaId) =>
        var ref := if mediaId.Some? then Some(IconRef(mediaId.value)) else None;
        Success(WithChapters(card, chapters[entryIndex.value := EditedEntry(chapter, title, ref)]))
  }

  /** `entry update` fails for a missing entry, then a missing icon file; otherwise only that entry changes. */
  lemma UpdateEntryEditsOneEntry(card: Card, entryIndex: IndexArg, title: Option<string>, icon: Option<string>,
                                 iconFile: IconFile)
    ensures var r := EntryUpdated(card, entryIndex, title, icon, iconFile);
            var chapters := card.content.chapters;
            && (!InRange(entryIndex, |chapters|) ==> r == Failure(EntryNotFound(entryIndex)))
            && (r.Failure? <==> !InRange(entryIndex, |chapters|) || OptionalMediaId(icon, iconFile).Failure?)
    ensures var r := EntryUpdated(card, entryIndex, title, icon, iconFile);
            var chapters := card.content.chapters;
            r.Success? ==>
              var i := entryIndex.value;
              var after := r.value.content.chapters;
              var mediaId := OptionalMediaId(icon, iconFile).value;
              && |after| == |chapters| && WithChapters(r.value, chapters) == card
              && (forall k :: 0 <= k < |after| && k != i ==> after[k] == chapters[k])
              && after[i] == EditedEntry(chapters[i], title, if mediaId.Some? then Some(IconRef(mediaId.value)) else None)
  {
  }

  // ---------------------------------------------------------------------------------------------
  // entry delete
  // ---------------------------------------------------------------------------------------------

  /** `deleteEntry`, with its position check corrected to reject every position with no entry. */
  function EntryDeleted(card: Card, entryIndex: IndexArg): Result<Card, Error> {
    match DeleteChecked(card.content.chapters, entryIndex)
    case None => Failure(EntryNotFound(entryIndex))
    case Some(rest) => Success(WithChapters(card, rest))
  }

  /** `entry delete` removes exactly the entry at a valid position and keeps everything else. */
  lemma DeleteEntryRemovesOne(card: Card, entryIndex: IndexArg)
    ensures var r := EntryDeleted(card, entryIndex);
            var chapters := card.content.chapters;
            && (r.Failure? <==> !InRange(entryIndex, |chapters|))
            && (r.Failure? ==> r.error == EntryNotFound(entryIndex))
            && (r.Success? ==>
                  var i := entryIndex.value;
                  && r.value.content.chapters == chapters[..i] + chapters[i + 1..]
                  && multiset(r.value.content.chapters) + multiset{chapters[i]} == multiset(chapters)
                  && WithChapters(r.value, chapters) == card)
  {
  }

  /** As written, `entry delete` on a non-numeric position deletes the first entry; corrected, it is rejected. */
  lemma NonNumericEntryDelete(card: Card)
    requires |card.content.chapters| > 0
    ensures DeleteAsWritten(card.content.chapters, NaN) == Some(card.content.chapters[1..])
    ensures EntryDeleted(card, NaN) == Failure(EntryNotFound(NaN))
  {
    NaNIndexDeletesFirst(card.content.chapters);
  }
}

/** The entry commands of `entry.ts`, carried out step by step on the fetched card. */
module EntryCommands {
  import opened Wrappers
  import opened Positions
  import opened Errors
  import opened Schemas
  import opened Text
  import opened Sources
  import opened Transcode
  import opened Document
  import opened EntryEdits

  /** `addEntry`; `fileSize` is the size the file system reports for the file. */
  method AddEntry(doc: CardDocument, title: string, icon: Option<string>, file: Option<string>, fileSize: nat,
                  server: UploadServer, iconFile: IconFile)
    returns (r: Result<UpdateContentRequest, Error>)
    modifies doc
    ensures Commits(old(doc.card), doc.card, r, EntryAdded(old(doc.card), title, icon, file, fileSize, server, iconFile))
  {
    if !Truthy(file) {
      return Failure(FileRequired);
    }
    var originalFileName := OriginalFileName(file.value);
    var upload, transferred, attempts := UploadAndTranscode(file.value, server, true);
    if upload.Failure? {
      return Failure(upload.error);
    }
    if !Truthy(upload.value.trackUrl) {
      return Failure(NoTrackUrl);
    }
    var trackUrl := upload.value.trackUrl.value;
    var duration := upload.value.duration;
    var mediaId := MediaIdOrDefault(icon, iconFile);
    if mediaId.Failure? {
      return Failure(mediaId.error);
    }
    var iconRef := IconRef(mediaId.value);
    var nextIndex := |doc.Chapters()|;
    var entry := EntryChapter(nextIndex, title, trackUrl, duration, fileSize, iconRef, originalFileName);
    doc.card := WithChapters(doc.card, doc.Chapters() + [entry]);
    r := Success(WriteBack(doc.card));
  }

  /** `for (const track of chapter.tracks) track.title = title` */
  method RetitleTracks(tracks: seq<Track>, title: string) returns (r: seq<Track>)
    ensures r == Retitled(tracks, title)
    ensures |r| == |tracks|
    ensures forall j :: 0 <= j < |r| ==> r[j] == tracks[j].(title := title)
  {
    r := tracks;
    for j := 0 to |r|
      invariant |r| == |tracks|
      invariant forall k :: 0 <= k < j ==> r[k] == tracks[k].(title := title)
      invariant forall k :: j <= k < |r| ==> r[k] == tracks[k]
    {
      r := r[j := r[j].(title := title)];
    }
  }

  /** `for (const track of chapter.tracks) track.display = { ...track.display, icon16x16: ref }` */
  method SetTrackIcons(tracks: seq<Track>, ref: string) returns (r: seq<Track>)
    ensures r == Reiconed(tracks, ref)
    ensures |r| == |tracks|
    ensures forall j :: 0 <= j < |r| ==> r[j] == tracks[j].(display := DisplayFor(ref))
  {
    r := tracks;
    for j := 0 to |r|
      invariant |r| == |tracks|
      invariant forall k :: 0 <= k < j ==> r[k] == tracks[k].(display := DisplayFor(ref))
      invariant forall k :: j <= k < |r| ==> r[k] == tracks[k]
    {
      r := r[j := r[j].(display := DisplayFor(ref))];
    }
  }

  /** `updateEntry` */
  method UpdateEntry(doc: CardDocument, entryIndex: IndexArg, title: Option<string>, icon: Option<string>,
                     iconFile: IconFile)
    returns (r: Result<UpdateContentRequest, Error>)
    modifies doc
    ensures Commits(old(doc.card), doc.card, r, EntryUpdated(old(doc.card), entryIndex, title, icon, iconFile))
  {
    var found := Lookup(doc.Chapters(), entryIndex);
    if found.None? {
      return Failure(EntryNotFound(entryIndex));
    }
    var chapter := found.value;
    if Truthy(title) {
      var tracks := RetitleTracks(chapter.tracks, title.value);
      chapter := chapter.(title := title.value, tracks := tracks);
    }
    var ref: Option<string> := None;
    if Truthy(icon) {
      var mediaId := ResolveIcon(icon.value, iconFile);
      if mediaId.Failure? {
        return Failure(mediaId.error);
      }
      ref := Some(IconRef(mediaId.value));
      var tracks := SetTrackIcons(chapter.tracks, ref.value);
      chapter := chapter.(display := DisplayFor(ref.value), tracks := tracks);
    }
    assert chapter == EditedEntry(found.value, title, ref);
    doc.card := WithChapters(doc.card, doc.Chapters()[entryIndex.value := chapter]);
    r := Success(WriteBack(doc.card));
  }

  /** `deleteEntry`, with the corrected position check. */
  method DeleteEntry(doc: CardDocument, entryIndex: IndexArg)
    returns (r: Result<UpdateContentRequest, Error>)
    modifies doc
    ensures Commits(old(doc.card), doc.card, r, EntryDeleted(old(doc.card), entryIndex))
  {
    if !InRange(entryIndex, |doc.Chapters()|) {
      return Failure(EntryNotFound(entryIndex));
    }
    doc.card := WithChapters(doc.card, RemoveAt(doc.Chapters(), entryIndex.value));
    r := Success(WriteBack(doc.card));
  }
}

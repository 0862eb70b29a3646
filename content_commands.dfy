/**
 * The playlist editing commands of `content.ts`, each carried out step by step on the fetched card.
 * Every command either exits with an error, writing nothing, or writes back the edited card; the
 * edit it makes is the one ContentEdits describes.
 */
module ContentCommands {
  import opened Wrappers
  import opened Positions
  import opened Errors
  import opened Schemas
  import opened Text
  import opened Sources
  import opened Transcode
  import opened Document
  import opened ContentEdits

  /** `addChapter` */
  method AddChapter(doc: CardDocument, title: string, icon: Option<string>, file: Option<string>,
                    server: UploadServer, iconFile: IconFile)
    returns (r: Result<UpdateContentRequest, Error>)
    modifies doc
    ensures Commits(old(doc.card), doc.card, r, ChapterAdded(old(doc.card), title, icon, file, server, iconFile))
  {
    var audio: Option<UploadResult> := None;
    if Truthy(file) {
      var upload, transferred, attempts := UploadAndTranscode(file.value, server, true);
      if upload.Failure? {
        return Failure(upload.error);
      }
      if !Truthy(upload.value.trackUrl) {
        return Failure(NoTrackUrl);
      }
      audio := Some(upload.value);
    }
    var mediaId := MediaIdOrDefault(icon, iconFile);
    if mediaId.Failure? {
      return Failure(mediaId.error);
    }
    var nextIndex := |doc.Chapters()|;
    var chapter := NewChapter(nextIndex, title, mediaId.value, audio);
    doc.card := WithChapters(doc.card, doc.Chapters() + [chapter]);
    r := Success(WriteBack(doc.card));
  }

  /** `addTrack` */
  method AddTrack(doc: CardDocument, chapterIndex: IndexArg, title: string, trackUrl: string,
                  icon: Option<string>, duration: Option<real>, iconFile: IconFile)
    returns (r: Result<UpdateContentRequest, Error>)
    modifies doc
    ensures Commits(old(doc.card), doc.card, r, TrackAdded(old(doc.card), chapterIndex, title, trackUrl, icon, duration, iconFile))
  {
    var mediaId := OptionalMediaId(icon, iconFile);
    if mediaId.Failure? {
      return Failure(mediaId.error);
    }
    var chapter := Lookup(doc.Chapters(), chapterIndex);
    if chapter.None? {
      return Failure(ChapterNotFound(chapterIndex));
    }
    var nextTrackIndex := |chapter.value.tracks| + 1;
    var track := NewTrack(Key(nextTrackIndex), title, trackUrl, duration, mediaId.value);
    var updated := chapter.value.(tracks := chapter.value.tracks + [track]);
    doc.card := WithChapters(doc.card, doc.Chapters()[chapterIndex.value := updated]);
    r := Success(WriteBack(doc.card));
  }

  /** `addTrackSmart`: classify the source, upload it when it is not used verbatim, then `addTrack`. */
  method AddTrackSmart(doc: CardDocument, chapterIndex: IndexArg, title: string, source: string,
                       icon: Option<string>, duration: Option<real>, server: UploadServer, iconFile: IconFile)
    returns (r: Result<UpdateContentRequest, Error>)
    modifies doc
    ensures Commits(old(doc.card), doc.card, r,
                    SmartTrackAdded(old(doc.card), chapterIndex, title, source, icon, duration, server, iconFile))
  {
    var trackUrl := source;
    var trackDuration := duration;
    if RouteSource(source).Uploads() {
      var upload, transferred, attempts := UploadAndTranscode(source, server, true);
      if upload.Failure? {
        return Failure(upload.error);
      }
      if !Truthy(upload.value.trackUrl) {
        return Failure(NoTrackUrl);
      }
      trackUrl := upload.value.trackUrl.value;
      trackDuration := trackDuration.Or(upload.value.duration);
    }
    r := AddTrack(doc, chapterIndex, title, trackUrl, icon, trackDuration, iconFile);
  }

  /** `updateTrack` */
  method UpdateTrack(doc: CardDocument, chapterIndex: IndexArg, trackIndex: IndexArg, title: Option<string>,
                     icon: Option<string>, url: Option<string>, onEnd: Option<string>, iconFile: IconFile)
    returns (r: Result<UpdateContentRequest, Error>)
    modifies doc
    ensures Commits(old(doc.card), doc.card, r,
                    TrackUpdated(old(doc.card), chapterIndex, trackIndex, title, icon, url, onEnd, iconFile))
  {
    var chapter := Lookup(doc.Chapters(), chapterIndex);
    if chapter.None? {
      return Failure(ChapterNotFound(chapterIndex));
    }
    var found := Lookup(chapter.value.tracks, trackIndex);
    if found.None? {
      return Failure(TrackNotFound(trackIndex));
    }
    var track := found.value;
    if Truthy(title) {
      track := track.(title := title.value);
    }
    if Truthy(icon) {
      var mediaId := ResolveIcon(icon.value, iconFile);
      if mediaId.Failure? {
        return Failure(mediaId.error);
      }
      track := track.(display := DisplayFor(IconRef(mediaId.value)));
    }
    if Truthy(url) {
      track := track.(trackUrl := url);
    }
    if onEnd.Some? {
      track := track.(events := Some(TrackEvents(Some(OnEnd(onEnd)))));
    }
    var updated := chapter.value.(tracks := chapter.value.tracks[trackIndex.value := track]);
    doc.card := WithChapters(doc.card, doc.Chapters()[chapterIndex.value := updated]);
    r := Success(WriteBack(doc.card));
  }

  /** `updateChapter` */
  method UpdateChapter(doc: CardDocument, chapterIndex: IndexArg, title: Option<string>, icon: Option<string>,
                       iconFile: IconFile)
    returns (r: Result<UpdateContentRequest, Error>)
    modifies doc
    ensures Commits(old(doc.card), doc.card, r, ChapterUpdated(old(doc.card), chapterIndex, title, icon, iconFile))
  {
    var found := Lookup(doc.Chapters(), chapterIndex);
    if found.None? {
      return Failure(ChapterNotFound(chapterIndex));
    }
    var chapter := found.value;
    if Truthy(title) {
      chapter := chapter.(title := title.value);
    }
    if Truthy(icon) {
      var mediaId := ResolveIcon(icon.value, iconFile);
      if mediaId.Failure? {
        return Failure(mediaId.error);
      }
      chapter := chapter.(icon := Some(mediaId.value), display := DisplayFor(IconRef(mediaId.value)));
    }
    doc.card := WithChapters(doc.card, doc.Chapters()[chapterIndex.value := chapter]);
    r := Success(WriteBack(doc.card));
  }

  /** `updatePlaylist`: never fails; the new title goes only into the request. */
  method UpdatePlaylist(doc: CardDocument, title: Option<string>, description: Option<string>, author: Option<string>,
                        playbackType: Option<string>)
    returns (r: UpdateContentRequest)
    modifies doc
    ensures doc.card == PlaylistEdited(old(doc.card), description, author, playbackType)
    ensures r == PlaylistRequest(old(doc.card), title, description, author, playbackType)
  {
    var newTitle := title.GetOr(doc.card.title);
    if description.Some? {
      doc.card := doc.card.(metadata := Some(doc.card.metadata.GetOr(NoMetadata).(description := description)));
    }
    if author.Some? {
      doc.card := doc.card.(metadata := Some(doc.card.metadata.GetOr(NoMetadata).(author := author)));
    }
    if playbackType.Some? {
      doc.card := doc.card.(content := doc.card.content.(playbackType := playbackType));
    }
    r := WriteBack(doc.card).(title := newTitle);
  }

  /** `deleteChapter`, with the corrected position check. */
  method DeleteChapter(doc: CardDocument, chapterIndex: IndexArg)
    returns (r: Result<UpdateContentRequest, Error>)
    modifies doc
    ensures Commits(old(doc.card), doc.card, r, ChapterDeleted(old(doc.card), chapterIndex))
  {
    if !InRange(chapterIndex, |doc.Chapters()|) {
      return Failure(ChapterNotFound(chapterIndex));
    }
    doc.card := WithChapters(doc.card, RemoveAt(doc.Chapters(), chapterIndex.value));
    r := Success(WriteBack(doc.card));
  }

  /** `deleteTrack`, with the corrected position check. */
  method DeleteTrack(doc: CardDocument, chapterIndex: IndexArg, trackIndex: IndexArg)
    returns (r: Result<UpdateContentRequest, Error>)
    modifies doc
    ensures Commits(old(doc.card), doc.card, r, TrackDeleted(old(doc.card), chapterIndex, trackIndex))
  {
    var chapter := Lookup(doc.Chapters(), chapterIndex);
    if chapter.None? {
      return Failure(ChapterNotFound(chapterIndex));
    }
    if !InRange(trackIndex, |chapter.value.tracks|) {
      return Failure(TrackNotFound(trackIndex));
    }
    var updated := chapter.value.(tracks := RemoveAt(chapter.value.tracks, trackIndex.value));
    doc.card := WithChapters(doc.card, doc.Chapters()[chapterIndex.value := updated]);
    r := Success(WriteBack(doc.card));
  }
}

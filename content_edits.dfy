/**
 * What each playlist editing command of `content.ts` does to the fetched card, as functions from the
 * card and the command's arguments to the edited card or the error the command exits with.  The
 * methods of ContentCommands carry out these edits step by step on a CardDocument.
 *
 * Positions are `parseInt` results (IndexArg); an `--icon` argument is resolved against what the
 * file system reports for it (IconFile); an upload against an UploadServer.
 */
module ContentEdits {
  import opened Wrappers
  import opened Positions
  import opened Errors
  import opened Schemas
  import opened Text
  import opened Sources
  import opened Transcode
  import opened Document

  // ---------------------------------------------------------------------------------------------
  // chapter add
  // ---------------------------------------------------------------------------------------------

  /** The audio of `chapter add --file`: none without a file, else the waited upload, which must give a reference. */
  function ChapterAudio(file: Option<string>, server: UploadServer): Result<Option<UploadResult>, Error> {
    if !Truthy(file) then Success(None)
    else
      match WaitedUpload(file.value, server)
      case Failure(e) => Failure(e)
      case Success(audio) => if Truthy(audio.trackUrl) then Success(Some(audio)) else Failure(NoTrackUrl)
  }

  /** The "Failed to get track URL from upload" exit cannot happen: a waited upload always has a reference. */
  lemma ChapterAudioNeverLacksUrl(file: Option<string>, server: UploadServer)
    ensures ChapterAudio(file, server) != Failure(NoTrackUrl)
  {
    if Truthy(file) && WaitedUpload(file.value, server).Success? {
      WaitedUploadHasTrackUrl(file.value, server);
    }
  }

  /** The only track of a chapter added with `--file`. */
  function ChapterTrack(title: string, audio: UploadResult): Track {
    BareTrack("01", title).(trackUrl := audio.trackUrl, trackType := Some("audio"), duration := FieldOf(audio.duration))
  }

  /** The chapter `chapter add` appends at position `index`. */
  function NewChapter(index: nat, title: string, mediaId: string, audio: Option<UploadResult>): Chapter {
    BareChapter(Key(index), title, if audio.Some? then [ChapterTrack(title, audio.value)] else [])
      .(icon := Some(mediaId), display := DisplayFor(IconRef(mediaId)))
  }

  /** `addChapter`: upload the file if any, resolve the icon (or take the default one), append the chapter. */
  function ChapterAdded(card: Card, title: string, icon: Option<string>, file: Option<string>,
                        server: UploadServer, iconFile: IconFile): Result<Card, Error> {
    match ChapterAudio(file, server)
    case Failure(e) => Failure(e)
    case Success(audio) =>
      match MediaIdOrDefault(icon, iconFile)
      case Failure(e) => Failure(e)
      case Success(mediaId) =>
        var chapters := card.content.chapters;
        Success(WithChapters(card, chapters + [NewChapter(|chapters|, title, mediaId, audio)]))
  }

  /** A chapter's icon and its display agree: the display names the icon's media id as a reference. */
  ghost predicate ChapterIconInSync(chapter: Chapter) {
    chapter.icon.Some? && IconOf(chapter.display) == Some(IconRef(chapter.icon.value))
  }

  /**
   * `chapter add` fails for an upload that fails (checked first) or an icon file that is missing;
   * otherwise it appends exactly one chapter and changes nothing else.  That chapter is keyed by the
   * old chapter count, shows the icon it names, and holds one track keyed "01" for the uploaded
   * audio when a file was given, and no track otherwise.
   */
  lemma AddChapterAppendsOne(card: Card, title: string, icon: Option<string>, file: Option<string>,
                             server: UploadServer, iconFile: IconFile)
    ensures var r := ChapterAdded(card, title, icon, file, server, iconFile);
            r.Failure? <==> (Truthy(file) && WaitedUpload(file.value, server).Failure?) || MediaIdOrDefault(icon, iconFile).Failure?
    ensures var r := ChapterAdded(card, title, icon, file, server, iconFile);
            Truthy(file) && WaitedUpload(file.value, server).Failure? ==> r == Failure(WaitedUpload(file.value, server).error)
    ensures var r := ChapterAdded(card, title, icon, file, server, iconFile);
            var before := card.content.chapters;
            r.Success? ==>
              var after := r.value.content.chapters;
              var added := after[|before|];
              && |after| == |before| + 1 && after[..|before|] == before
              && WithChapters(r.value, before) == card
              && added.key == Key(|before|) && added.title == title
              && added.icon == Some(MediaIdOrDefault(icon, iconFile).value) && ChapterIconInSync(added)
              && |added.tracks| == (if Truthy(file) then 1 else 0)
              && (Truthy(file) ==> added.tracks[0].key == "01" && added.tracks[0].title == title &&
                                   added.tracks[0].trackUrl == WaitedUpload(file.value, server).value.trackUrl)
  {
    ChapterAudioNeverLacksUrl(file, server);
    var r := ChapterAdded(card, title, icon, file, server, iconFile);
    if r.Success? {
      var before := card.content.chapters;
      assert r.value.content.chapters[..|before|] == before;
    }
  }

  /** Without `--icon` (or with an empty one) the new chapter shows the default icon. */
  lemma AddChapterDefaultIcon(card: Card, title: string, icon: Option<string>, file: Option<string>,
                              server: UploadServer, iconFile: IconFile)
    requires !Truthy(icon) && ChapterAdded(card, title, icon, file, server, iconFile).Success?
    ensures var after := ChapterAdded(card, title, icon, file, server, iconFile).value.content.chapters;
            after[|after| - 1].icon == Some(DefaultIcon) && IconOf(after[|after| - 1].display) == Some(YotoPrefix + DefaultIcon)
  {
    var chapters := card.content.chapters;
    var audio := ChapterAudio(file, server).value;
    assert MediaIdOrDefault(icon, iconFile) == Success(DefaultIcon);
    var after := ChapterAdded(card, title, icon, file, server, iconFile).value.content.chapters;
    assert after[|after| - 1] == NewChapter(|chapters|, title, DefaultIcon, audio);
  }

  /** Appending through `chapter add` keeps chapter keys positional, and the new chapter's track keys too. */
  lemma AddChapterKeepsKeys(card: Card, title: string, icon: Option<string>, file: Option<string>,
                            server: UploadServer, iconFile: IconFile)
    requires ChapterKeysCanonical(card.content.chapters)
    requires ChapterAdded(card, title, icon, file, server, iconFile).Success?
    ensures var after := ChapterAdded(card, title, icon, file, server, iconFile).value.content.chapters;
            ChapterKeysCanonical(after) && TrackKeysCanonical(after[|after| - 1].tracks)
  {
    var audio := ChapterAudio(file, server).value;
    var mediaId := MediaIdOrDefault(icon, iconFile).value;
    var chapters := card.content.chapters;
    var added := NewChapter(|chapters|, title, mediaId, audio);
    var after := ChapterAdded(card, title, icon, file, server, iconFile).value.content.chapters;
    assert after == chapters + [added];
    AppendKeepsChapterKeys(chapters, added);
    assert after[|after| - 1] == added;
    if audio.Some? {
      SingleTrackKeyed(ChapterTrack(title, audio.value));
      assert added.tracks == [ChapterTrack(title, audio.value)];
    } else {
      assert added.tracks == [];
    }
  }

  // ---------------------------------------------------------------------------------------------
  // track add
  // ---------------------------------------------------------------------------------------------

  /** The track `track add` appends: a display block only when the media id is non-empty. */
  function NewTrack(key: string, title: string, trackUrl: string, duration: Option<real>, mediaId: Option<string>): Track {
    BareTrack(key, title).(
      trackUrl := Some(trackUrl), trackType := Some("audio"), duration := FieldOf(duration), icon := mediaId,
      display := if Truthy(mediaId) then DisplayFor(IconRef(mediaId.value)) else Absent)
  }

  /** `addTrack`: resolve the icon if one is given, find the chapter, append the track to it. */
  function TrackAdded(card: Card, chapterIndex: IndexArg, title: string, trackUrl: string,
                      icon: Option<string>, duration: Option<real>, iconFile: IconFile): Result<Card, Error> {
    match OptionalMediaId(icon, iconFile)
    case Failure(e) => Failure(e)
    case Success(mediaId) =>
      var chapters := card.content.chapters;
      match Lookup(chapters, chapterIndex)
      case None => Failure(ChapterNotFound(chapterIndex))
      case Some(chapter) =>
        var track := NewTrack(Key(|chapter.tracks| + 1), title, trackUrl, duration, mediaId);
        Success(WithChapters(card, chapters[chapterIndex.value := chapter.(tracks := chapter.tracks + [track])]))
  }

  /** Appending `track` to chapter `i` of a card leaves every other chapter and property as it was. */
  lemma AppendTrackAt(card: Card, i: nat, track: Track)
    requires i < |card.content.chapters|
    ensures var before := card.content.chapters;
            var edited := WithChapters(card, before[i := before[i].(tracks := before[i].tracks + [track])]);
            var after := edited.content.chapters;
            && |after| == |before| && WithChapters(edited, before) == card
            && (forall k :: 0 <= k < |after| && k != i ==> after[k] == before[k])
            && after[i].(tracks := before[i].tracks) == before[i]
            && |after[i].tracks| == |before[i].tracks| + 1 && after[i].tracks[..|before[i].tracks|] == before[i].tracks
            && after[i].tracks[|before[i].tracks|] == track
  {
    var before := card.content.chapters;
    var tracks := before[i].tracks + [track];
    assert tracks[..|before[i].tracks|] == before[i].tracks;
  }

  /**
   * `track add` fails for a missing icon file (checked first) or a position with no chapter;
   * otherwise exactly one track is appended to that chapter alone, keyed by the new track count,
   * and it has a display block exactly when the resolved media id is non-empty.
   */
  lemma AddTrackAppendsToOneChapter(card: Card, chapterIndex: IndexArg, title: string, trackUrl: string,
                                    icon: Option<string>, duration: Option<real>, iconFile: IconFile)
    ensures var r := TrackAdded(card, chapterIndex, title, trackUrl, icon, duration, iconFile);
            r.Failure? <==> OptionalMediaId(icon, iconFile).Failure? || !InRange(chapterIndex, |card.content.chapters|)
    ensures var r := TrackAdded(card, chapterIndex, title, trackUrl, icon, duration, iconFile);
            OptionalMediaId(icon, iconFile).Success? && !InRange(chapterIndex, |card.content.chapters|) ==>
              r == Failure(ChapterNotFound(chapterIndex))
    ensures var r := TrackAdded(card, chapterIndex, title, trackUrl, icon, duration, iconFile);
            var before := card.content.chapters;
            r.Success? ==>
              var after := r.value.content.chapters;
              var i := chapterIndex.value;
              var old_tracks := before[i].tracks;
              var added := after[i].tracks[|old_tracks|];
              var mediaId := OptionalMediaId(icon, iconFile).value;
              && |after| == |before| && WithChapters(r.value, before) == card
              && (forall k :: 0 <= k < |after| && k != i ==> after[k] == before[k])
              && after[i].(tracks := old_tracks) == before[i]
              && |after[i].tracks| == |old_tracks| + 1 && after[i].tracks[..|old_tracks|] == old_tracks
              && added.key == Key(|old_tracks| + 1) && added.title == title && added.trackUrl == Some(trackUrl)
              && added.duration == FieldOf(duration) && added.icon == mediaId
              && (added.display.Value? <==> Truthy(mediaId))
              && (Truthy(mediaId) ==> IconOf(added.display) == Some(IconRef(mediaId.value)))
  {
    var r := TrackAdded(card, chapterIndex, title, trackUrl, icon, duration, iconFile);
    if r.Success? {
      var i := chapterIndex.value;
      var before := card.content.chapters;
      var chapter := before[i];
      var mediaId := OptionalMediaId(icon, iconFile).value;
      var track := NewTrack(Key(|chapter.tracks| + 1), title, trackUrl, duration, mediaId);
      assert r.value == WithChapters(card, before[i := chapter.(tracks := chapter.tracks + [track])]);
      AppendTrackAt(card, i, track);
    }
  }

  /** Appending through `track add` keeps the chapter's track keys positional. */
  lemma AddTrackKeepsTrackKeys(card: Card, chapterIndex: IndexArg, title: string, trackUrl: string,
                               icon: Option<string>, duration: Option<real>, iconFile: IconFile)
    requires TrackAdded(card, chapterIndex, title, trackUrl, icon, duration, iconFile).Success?
    requires TrackKeysCanonical(card.content.chapters[chapterIndex.value].tracks)
    ensures var after := TrackAdded(card, chapterIndex, title, trackUrl, icon, duration, iconFile).value;
            TrackKeysCanonical(after.content.chapters[chapterIndex.value].tracks)
  {
    var chapter := card.content.chapters[chapterIndex.value];
    var mediaId := OptionalMediaId(icon, iconFile).value;
    var track := NewTrack(Key(|chapter.tracks| + 1), title, trackUrl, duration, mediaId);
    var after := TrackAdded(card, chapterIndex, title, trackUrl, icon, duration, iconFile).value;
    assert after.content.chapters[chapterIndex.value].tracks == chapter.tracks + [track];
    AppendKeepsTrackKeys(chapter.tracks, track);
  }

  /** `--icon yoto:#` resolves to the empty media id: the track records icon "" but gets no display block. */
  lemma EmptyMediaIdTrack(trackUrl: string, iconFile: IconFile)
    ensures OptionalMediaId(Some("yoto:#"), iconFile) == Success(Some(""))
    ensures var t := NewTrack("01", "t", trackUrl, None, Some(""));
            t.icon == Some("") && t.display == Absent
  {
    IconRefRoundTrip("", iconFile);
    assert IconRef("") == "yoto:#";
  }

  // ---------------------------------------------------------------------------------------------
  // track add, with the source classified first
  // ---------------------------------------------------------------------------------------------

  /** The reference and duration `addTrackSmart` passes on: uploaded sources get the transcoded ones. */
  function SmartSource(source: string, duration: Option<real>, server: UploadServer): Result<(string, Option<real>), Error> {
    if RouteSource(source).Uploads() then
      match WaitedUpload(source, server)
      case Failure(e) => Failure(e)
      case Success(audio) =>
        if Truthy(audio.trackUrl) then Success((audio.trackUrl.value, duration.Or(audio.duration)))
        else Failure(NoTrackUrl)
    else Success((source, duration))
  }

  /** `addTrackSmart`: classify and maybe upload the source, then `addTrack` with the result. */
  function SmartTrackAdded(card: Card, chapterIndex: IndexArg, title: string, source: string, icon: Option<string>,
                           duration: Option<real>, server: UploadServer, iconFile: IconFile): Result<Card, Error> {
    match SmartSource(source, duration, server)
    case Failure(e) => Failure(e)
    case Success(resolved) => TrackAdded(card, chapterIndex, title, resolved.0, icon, resolved.1, iconFile)
  }

  /**
   * A yoto:# reference or an http(s) URL not taken for a file path is added verbatim with the given
   * duration; every other source is uploaded first, and then the reference is the transcoded one and
   * the duration is the given one, or else the transcoded one.  The upload happens before the chapter
   * is looked up, so a failing upload is reported even for a missing chapter.
   */
  lemma SmartTrackRouting(card: Card, chapterIndex: IndexArg, title: string, source: string, icon: Option<string>,
                          duration: Option<real>, server: UploadServer, iconFile: IconFile)
    ensures !RouteSource(source).Uploads() ==>
            SmartTrackAdded(card, chapterIndex, title, source, icon, duration, server, iconFile) ==
            TrackAdded(card, chapterIndex, title, source, icon, duration, iconFile)
    ensures RouteSource(source).Uploads() && WaitedUpload(source, server).Failure? ==>
            SmartTrackAdded(card, chapterIndex, title, source, icon, duration, server, iconFile) ==
            Failure(WaitedUpload(source, server).error)
    ensures RouteSource(source).Uploads() && WaitedUpload(source, server).Success? ==>
            var audio := WaitedUpload(source, server).value;
            SmartTrackAdded(card, chapterIndex, title, source, icon, duration, server, iconFile) ==
            TrackAdded(card, chapterIndex, title, audio.trackUrl.value, icon, duration.Or(audio.duration), iconFile)
  {
    if RouteSource(source).Uploads() && WaitedUpload(source, server).Success? {
      WaitedUploadHasTrackUrl(source, server);
    }
  }

  /** Uploaded sources always end up as a yoto:# reference in the document. */
  lemma UploadedSourcesBecomeReferences(source: string, duration: Option<real>, server: UploadServer)
    requires RouteSource(source).Uploads() && SmartSource(source, duration, server).Success?
    ensures StartsWith(SmartSource(source, duration, server).value.0, YotoPrefix)
  {
    WaitedUploadHasTrackUrl(source, server);
  }

  // ---------------------------------------------------------------------------------------------
  // track update
  // ---------------------------------------------------------------------------------------------

  /** The track after `updateTrack`'s assignments; `mediaId` is the resolved `--icon`, if one was given. */
  function EditedTrack(track: Track, title: Option<string>, mediaId: Option<string>, url: Option<string>,
                       onEnd: Option<string>): Track {
    var t1 := if Truthy(title) then track.(title := title.value) else track;
    var t2 := if mediaId.Some? then t1.(display := DisplayFor(IconRef(mediaId.value))) else t1;
    var t3 := if Truthy(url) then t2.(trackUrl := url) else t2;
    if onEnd.Some? then t3.(events := Some(TrackEvents(Some(OnEnd(onEnd))))) else t3
  }

  /**
   * Only the supplied properties change: the title when non-empty, the display icon when an icon is
   * given, the URL when non-empty, and the end-of-track events, which `--on-end` replaces wholesale
   * (an empty value included).  The track's own `icon` property is never touched.
   */
  lemma EditedTrackChangesOnlySupplied(track: Track, title: Option<string>, mediaId: Option<string>,
                                       url: Option<string>, onEnd: Option<string>)
    ensures var t := EditedTrack(track, title, mediaId, url, onEnd);
            && t.title == (if Truthy(title) then title.value else track.title)
            && (mediaId.Some? ==> IconOf(t.display) == Some(IconRef(mediaId.value)))
            && (mediaId.None? ==> t.display == track.display)
            && t.trackUrl == (if Truthy(url) then url else track.trackUrl)
            && t.events == (if onEnd.Some? then Some(TrackEvents(Some(OnEnd(onEnd))))  else track.events)
            && t.icon == track.icon
            && t.(title := track.title, display := track.display, trackUrl := track.trackUrl, events := track.events) == track
  {
  }

  /** Applying the same update twice is the same as applying it once. */
  lemma EditedTrackIdempotent(track: Track, title: Option<string>, mediaId: Option<string>,
                              url: Option<string>, onEnd: Option<string>)
    ensures var once := EditedTrack(track, title, mediaId, url, onEnd);
            EditedTrack(once, title, mediaId, url, onEnd) == once
  {
  }

  /** `updateTrack`: find the chapter, then the track, resolve the icon if one is given, edit the track. */
  function TrackUpdated(card: Card, chapterIndex: IndexArg, trackIndex: IndexArg, title: Option<string>,
                        icon: Option<string>, url: Option<string>, onEnd: Option<string>, iconFile: IconFile): Result<Card, Error> {
    var chapters := card.content.chapters;
    match Lookup(chapters, chapterIndex)
    case None => Failure(ChapterNotFound(chapterIndex))
    case Some(chapter) =>
      match Lookup(chapter.tracks, trackIndex)
      case None => Failure(TrackNotFound(trackIndex))
      case Some(track) =>
        match OptionalMediaId(icon, iconFile)
        case Failure(e) => Failure(e)
        case Success(mediaId) =>
          var edited := EditedTrack(track, title, mediaId, url, onEnd);
          Success(WithChapters(card, chapters[chapterIndex.value := chapter.(tracks := chapter.tracks[trackIndex.value := edited])]))
  }

  /**
   * `track edit` fails for a missing chapter, then a missing track, then a missing icon file;
   * otherwise it replaces exactly that track by its edit and changes nothing else, and with no
   * option given it writes back the card unchanged.
   */
  lemma UpdateTrackEditsOneTrack(card: Card, chapterIndex: IndexArg, trackIndex: IndexArg, title: Option<string>,
                                 icon: Option<string>, url: Option<string>, onEnd: Option<string>, iconFile: IconFile)
    ensures var r := TrackUpdated(card, chapterIndex, trackIndex, title, icon, url, onEnd, iconFile);
            var chapters := card.content.chapters;
            && (!InRange(chapterIndex, |chapters|) ==> r == Failure(ChapterNotFound(chapterIndex)))
            && (InRange(chapterIndex, |chapters|) && !InRange(trackIndex, |chapters[chapterIndex.value].tracks|) ==>
                  r == Failure(TrackNotFound(trackIndex)))
            && (r.Failure? && InRange(chapterIndex, |chapters|) && InRange(trackIndex, |chapters[chapterIndex.value].tracks|) ==>
                  OptionalMediaId(icon, iconFile).Failure?)
    ensures var r := TrackUpdated(card, chapterIndex, trackIndex, title, icon, url, onEnd, iconFile);
            var chapters := card.content.chapters;
            r.Success? ==>
              var i := chapterIndex.value;
              var j := trackIndex.value;
              var after := r.value.content.chapters;
              && |after| == |chapters| && WithChapters(r.value, chapters) == card
              && (forall k :: 0 <= k < |after| && k != i ==> after[k] == chapters[k])
              && after[i].(tracks := chapters[i].tracks) == chapters[i]
              && |after[i].tracks| == |chapters[i].tracks|
              && (forall k :: 0 <= k < |after[i].tracks| && k != j ==> after[i].tracks[k] == chapters[i].tracks[k])
              && after[i].tracks[j] == EditedTrack(chapters[i].tracks[j], title, OptionalMediaId(icon, iconFile).value, url, onEnd)
    ensures !Truthy(title) && !Truthy(icon) && !Truthy(url) && onEnd.None? &&
            TrackUpdated(card, chapterIndex, trackIndex, title, icon, url, onEnd, iconFile).Success? ==>
            TrackUpdated(card, chapterIndex, trackIndex, title, icon, url, onEnd, iconFile) == Success(card)
  {
    var r := TrackUpdated(card, chapterIndex, trackIndex, title, icon, url, onEnd, iconFile);
    if r.Success? && !Truthy(title) && !Truthy(icon) && !Truthy(url) && onEnd.None? {
      var chapters := card.content.chapters;
      var chapter := chapters[chapterIndex.value];
      assert chapter.tracks[trackIndex.value := chapter.tracks[trackIndex.value]] == chapter.tracks;
      assert chapters[chapterIndex.value := chapter] == chapters;
    }
  }

  /** A track's icon property and its display block agree. */
  ghost predicate TrackIconInSync(track: Track) {
    track.icon.Some? && IconOf(track.display) == Some(IconRef(track.icon.value))
  }

  /**
   * Unlike `chapter edit`, `track edit --icon` changes only the display block: a track whose
   * icon and display agreed no longer does after its icon is changed to a different media id.
   */
  lemma UpdateTrackIconLeavesIconStale(track: Track, mediaId: string)
    requires TrackIconInSync(track) && mediaId != track.icon.value
    ensures !TrackIconInSync(EditedTrack(track, None, Some(mediaId), None, None))
  {
    var t := EditedTrack(track, None, Some(mediaId), None, None);
    assert IconOf(t.display) == Some(IconRef(mediaId));
    assert IconRef(mediaId)[|YotoPrefix|..] == mediaId;
    assert IconRef(track.icon.value)[|YotoPrefix|..] == track.icon.value;
  }

  // ---------------------------------------------------------------------------------------------
  // chapter update
  // ---------------------------------------------------------------------------------------------

  /** The chapter after `updateChapter`'s assignments; an icon sets both `icon` and the display block. */
  function EditedChapter(chapter: Chapter, title: Option<string>, mediaId: Option<string>): Chapter {
    var c1 := if Truthy(title) then chapter.(title := title.value) else chapter;
    if mediaId.Some? then c1.(icon := mediaId, display := DisplayFor(IconRef(mediaId.value))) else c1
  }

  /**
   * Only the title (when non-empty) and, for a given icon, the icon and its display change; the
   * tracks are untouched.  A given icon leaves the chapter's icon and display in agreement; without
   * one, an agreement that held is kept.  Applying the edit twice is applying it once.
   */
  lemma EditedChapterChangesOnlySupplied(chapter: Chapter, title: Option<string>, mediaId: Option<string>)
    ensures var c := EditedChapter(chapter, title, mediaId);
            && c.title == (if Truthy(title) then title.value else chapter.title)
            && c.icon == (if mediaId.Some? then mediaId else chapter.icon)
            && (mediaId.None? ==> c.display == chapter.display)
            && c.(title := chapter.title, icon := chapter.icon, display := chapter.display) == chapter
            && c.tracks == chapter.tracks
            && (mediaId.Some? || ChapterIconInSync(chapter) ==> ChapterIconInSync(c))
            && EditedChapter(c, title, mediaId) == c
  {
  }

  /** `updateChapter`: find the chapter, resolve the icon if one is given, edit the chapter. */
  function ChapterUpdated(card: Card, chapterIndex: IndexArg, title: Option<string>, icon: Option<string>,
                          iconFile: IconFile): Result<Card, Error> {
    var chapters := card.content.chapters;
    match Lookup(chapters, chapterIndex)
    case None => Failure(ChapterNotFound(chapterIndex))
    case Some(chapter) =>
      match OptionalMediaId(icon, iconFile)
      case Failure(e) => Failure(e)
      case Success(mediaId) => Success(WithChapters(card, chapters[chapterIndex.value := EditedChapter(chapter, title, mediaId)]))
  }

  /** `chapter edit` fails for a missing chapter, then a missing icon file; otherwise only that chapter changes. */
  lemma UpdateChapterEditsOneChapter(card: Card, chapterIndex: IndexArg, title: Option<string>, icon: Option<string>,
                                     iconFile: IconFile)
    ensures var r := ChapterUpdated(card, chapterIndex, title, icon, iconFile);
            var chapters := card.content.chapters;
            && (!InRange(chapterIndex, |chapters|) ==> r == Failure(ChapterNotFound(chapterIndex)))
            && (r.Failure? <==> !InRange(chapterIndex, |chapters|) || OptionalMediaId(icon, iconFile).Failure?)
    ensures var r := ChapterUpdated(card, chapterIndex, title, icon, iconFile);
            var chapters := card.content.chapters;
            r.Success? ==>
              var i := chapterIndex.value;
              var after := r.value.content.chapters;
              && |after| == |chapters| && WithChapters(r.value, chapters) == card
              && (forall k :: 0 <= k < |after| && k != i ==> after[k] == chapters[k])
              && after[i] == EditedChapter(chapters[i], title, OptionalMediaId(icon, iconFile).value)
  {
  }

  // ---------------------------------------------------------------------------------------------
  // playlist update
  // ---------------------------------------------------------------------------------------------

  const NoMetadata := ContentMetadata(None, None, None)

  /** `{ ...card.metadata, description }` and then `{ ...card.metadata, author }`, each only when given. */
  function EditedMetadata(metadata: Option<ContentMetadata>, description: Option<string>, author: Option<string>): Option<ContentMetadata> {
    var m1 := if description.Some? then Some(metadata.GetOr(NoMetadata).(description := description)) else metadata;
    if author.Some? then Some(m1.GetOr(NoMetadata).(author := author)) else m1
  }

  /** The card after `updatePlaylist`'s assignments (the new title goes only into the request). */
  function PlaylistEdited(card: Card, description: Option<string>, author: Option<string>, playbackType: Option<string>): Card {
    var c1 := card.(metadata := EditedMetadata(card.metadata, description, author));
    if playbackType.Some? then c1.(content := c1.content.(playbackType := playbackType)) else c1
  }

  /** The request `updatePlaylist` sends: the edited card under `options.title ?? card.title`. */
  function PlaylistRequest(card: Card, title: Option<string>, description: Option<string>, author: Option<string>,
                           playbackType: Option<string>): UpdateContentRequest {
    WriteBack(PlaylistEdited(card, description, author, playbackType)).(title := title.GetOr(card.title))
  }

  /**
   * `playlist edit` sends the given title, an empty one included, and otherwise the card's; sets
   * description, author and playback type exactly when they are given (an empty value included);
   * keeps the metadata's category and every chapter; and is idempotent.
   */
  lemma PlaylistUpdateChangesOnlySupplied(card: Card, title: Option<string>, description: Option<string>,
                                          author: Option<string>, playbackType: Option<string>)
    ensures var q := PlaylistRequest(card, title, description, author, playbackType);
            && q.title == (if title.Some? then title.value else card.title)
            && q.content.Some? && q.content.value.chapters == card.content.chapters
            && q.content.value.playbackType == (if playbackType.Some? then playbackType else card.content.playbackType)
            && q.content.value.(playbackType := card.content.playbackType) == card.content
            && (description.Some? || author.Some? ==> q.metadata.Some?)
            && (description.None? && author.None? ==> q.metadata == card.metadata)
            && (q.metadata.Some? ==>
                  && q.metadata.value.description == (if description.Some? then description else card.metadata.GetOr(NoMetadata).description)
                  && q.metadata.value.author == (if author.Some? then author else card.metadata.GetOr(NoMetadata).author)
                  && q.metadata.value.category == card.metadata.GetOr(NoMetadata).category)
    ensures var edited := PlaylistEdited(card, description, author, playbackType);
            PlaylistEdited(edited, description, author, playbackType) == edited && edited.title == card.title
  {
  }

  /** `--title ""` empties the title (it is `??`, not a truthiness test as in the other commands). */
  lemma EmptyPlaylistTitleIsSent(card: Card)
    ensures PlaylistRequest(card, Some(""), None, None, None).title == ""
  {
  }

  // ---------------------------------------------------------------------------------------------
  // chapter delete, track delete
  // ---------------------------------------------------------------------------------------------

  /** `deleteChapter`, with its position check corrected to reject every position with no chapter. */
  function ChapterDeleted(card: Card, chapterIndex: IndexArg): Result<Card, Error> {
    match DeleteChecked(card.content.chapters, chapterIndex)
    case None => Failure(ChapterNotFound(chapterIndex))
    case Some(rest) => Success(WithChapters(card, rest))
  }

  /** `chapter delete` removes exactly the chapter at a valid position and keeps everything else. */
  lemma DeleteChapterRemovesOne(card: Card, chapterIndex: IndexArg)
    ensures var r := ChapterDeleted(card, chapterIndex);
            var chapters := card.content.chapters;
            && (r.Failure? <==> !InRange(chapterIndex, |chapters|))
            && (r.Failure? ==> r.error == ChapterNotFound(chapterIndex))
            && (r.Success? ==>
                  var i := chapterIndex.value;
                  && r.value.content.chapters == chapters[..i] + chapters[i + 1..]
                  && |r.value.content.chapters| == |chapters| - 1
                  && multiset(r.value.content.chapters) + multiset{chapters[i]} == multiset(chapters)
                  && WithChapters(r.value, chapters) == card)
  {
  }

  /** As written, `chapter delete` on a non-numeric position deletes the first chapter; corrected, it is rejected. */
  lemma NonNumericChapterDelete(card: Card)
    requires |card.content.chapters| > 0
    ensures DeleteAsWritten(card.content.chapters, NaN) == Some(card.content.chapters[1..])
    ensures ChapterDeleted(card, NaN) == Failure(ChapterNotFound(NaN))
  {
    NaNIndexDeletesFirst(card.content.chapters);
  }

  /** `deleteTrack`: find the chapter, then remove the track, the position check corrected as above. */
  function TrackDeleted(card: Card, chapterIndex: IndexArg, trackIndex: IndexArg): Result<Card, Error> {
    var chapters := card.content.chapters;
    match Lookup(chapters, chapterIndex)
    case None => Failure(ChapterNotFound(chapterIndex))
    case Some(chapter) =>
      match DeleteChecked(chapter.tracks, trackIndex)
      case None => Failure(TrackNotFound(trackIndex))
      case Some(rest) => Success(WithChapters(card, chapters[chapterIndex.value := chapter.(tracks := rest)]))
  }

  /** `track delete` removes exactly the track at a valid position, in that chapter alone. */
  lemma DeleteTrackRemovesOne(card: Card, chapterIndex: IndexArg, trackIndex: IndexArg)
    ensures var r := TrackDeleted(card, chapterIndex, trackIndex);
            var chapters := card.content.chapters;
            && (!InRange(chapterIndex, |chapters|) ==> r == Failure(ChapterNotFound(chapterIndex)))
            && (InRange(chapterIndex, |chapters|) ==>
                  (r.Failure? <==> !InRange(trackIndex, |chapters[chapterIndex.value].tracks|)) &&
                  (r.Failure? ==> r == Failure(TrackNotFound(trackIndex))))
            && (r.Success? ==>
                  var i := chapterIndex.value;
                  var j := trackIndex.value;
                  var after := r.value.content.chapters;
                  var tracks := chapters[i].tracks;
                  && |after| == |chapters| && WithChapters(r.value, chapters) == card
                  && (forall k :: 0 <= k < |after| && k != i ==> after[k] == chapters[k])
                  && after[i].(tracks := tracks) == chapters[i]
                  && after[i].tracks == tracks[..j] + tracks[j + 1..]
                  && multiset(after[i].tracks) + multiset{tracks[j]} == multiset(tracks))
  {
  }
}

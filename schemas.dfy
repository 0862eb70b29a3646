/**
 * The shapes of the documents and responses the commands work on, one datatype per object schema.
 *
 * A property the schema marks `.optional()` is an Option (None when it is absent); one marked
 * `.optional().nullable()` is a Field, which also tells an explicit JSON null apart.  A JSON number is a
 * `real`.  Values the schema leaves `unknown` are carried, uninspected, as Opaque.
 */
module Schemas {
  import opened Wrappers

  /** A JSON value this program never looks into, kept as its serialised text. */
  datatype Opaque = Opaque(json: string)

  /** A property that may be absent, explicitly null, or set. */
  datatype Field<+T> = Absent | Null | Value(value: T)

  /** An optional value as a property that is written only when present (`undefined` is dropped). */
  function FieldOf<T>(o: Option<T>): Field<T> {
    match o
    case Some(v) => Value(v)
    case None => Absent
  }

  /** The display block of a chapter or track; the schema knows only the 16x16 icon reference. */
  datatype Display = Display(icon16x16: Option<string>)

  /** The 16x16 icon reference of a display field, if there is one. */
  function IconOf(d: Field<Display>): Option<string> {
    if d.Value? then d.value.icon16x16 else None
  }

  /** What the player does when a track ends: `cmd` is "none", "stop" or "repeat" by convention. */
  datatype OnEnd = OnEnd(cmd: Option<string>)
  datatype TrackEvents = TrackEvents(onEnd: Option<OnEnd>)

  /** A track: `key` and `title` are required, everything else is optional. */
  datatype Track = Track(
    key: string,
    title: string,
    duration: Field<real>,
    format: Option<string>,
    channels: Option<string>,
    trackType: Option<string>,        // the JSON property `type`
    trackUrl: Option<string>,
    icon: Option<string>,
    overlayLabel: Option<string>,
    display: Field<Display>,
    fileSize: Field<real>,
    ambient: Field<Opaque>,
    events: Option<TrackEvents>)

  /** A track with only its required properties. */
  function BareTrack(key: string, title: string): Track {
    Track(key, title, Absent, None, None, None, None, None, None, Absent, Absent, Absent, None)
  }

  /** A chapter: `key`, `title` and the ordered, possibly empty, `tracks` are required. */
  datatype Chapter = Chapter(
    key: string,
    title: string,
    duration: Option<real>,
    icon: Option<string>,
    tracks: seq<Track>,
    overlayLabel: Option<string>,
    display: Field<Display>,
    fileSize: Option<real>,
    originalFileName: Option<string>, // the JSON property `_originalFileName`
    availableFrom: Field<Opaque>,
    ambient: Field<Opaque>,
    defaultTrackDisplay: Field<Opaque>,
    defaultTrackAmbient: Field<Opaque>)

  /** A chapter with only its required properties. */
  function BareChapter(key: string, title: string, tracks: seq<Track>): Chapter {
    Chapter(key, title, None, None, tracks, None, Absent, None, None, Absent, Absent, Absent, Absent)
  }

  datatype ContentConfig = ContentConfig(resumeTimeout: Option<real>)

  datatype ContentMetadata = ContentMetadata(
    author: Option<string>,
    category: Option<string>,
    description: Option<string>)

  /** The body of a card: the ordered chapters plus playback settings. */
  datatype Content = Content(
    chapters: seq<Chapter>,
    config: Option<ContentConfig>,
    playbackType: Option<string>,
    activity: Option<string>,
    version: Option<string>,
    hidden: Option<bool>,
    restricted: Option<bool>)

  /** A card (playlist document): `cardId`, `title` and `content` are required. */
  datatype Card = Card(
    id: Option<string>,               // the JSON property `_id`
    cardId: string,
    title: string,
    content: Content,
    metadata: Option<ContentMetadata>,
    createdAt: Option<string>,
    updatedAt: Option<string>,
    userId: Option<string>,
    availability: Option<string>,
    deleted: Option<bool>)

  /** The upload slot the server hands out; a null `uploadUrl` means it already stores the file. */
  datatype UploadSlot = UploadSlot(uploadId: string, uploadUrl: Option<string>)

  datatype Progress = Progress(phase: string, percent: Option<real>)
  datatype AudioMetadata = AudioMetadata(title: Option<string>, artist: Option<string>)
  datatype TranscodedInfo = TranscodedInfo(
    duration: Option<real>,
    codec: Option<string>,
    format: Option<string>,
    channels: Option<string>,
    metadata: Option<AudioMetadata>)

  /** The state of a transcode job as one status request reports it. */
  datatype TranscodeJob = TranscodeJob(
    uploadId: string,
    uploadSha256: string,
    progress: Option<Progress>,
    transcodedSha256: Option<string>,
    transcodedInfo: Option<TranscodedInfo>)

  /** `transcode.progress?.phase` */
  function PhaseOf(job: TranscodeJob): Option<string> {
    if job.progress.Some? then Some(job.progress.value.phase) else None
  }

  /** `transcode.transcodedInfo?.duration` */
  function TranscodedDuration(job: TranscodeJob): Option<real> {
    if job.transcodedInfo.Some? then job.transcodedInfo.value.duration else None
  }

  /** The write-back request: `title` is required, `content` and `metadata` are optional. */
  datatype UpdateContentRequest = UpdateContentRequest(
    cardId: Option<string>,
    title: string,
    content: Option<Content>,
    metadata: Option<ContentMetadata>)

  /** The request every editing command sends after its in-memory change: the card's title, content and metadata. */
  function WriteBack(card: Card): (r: UpdateContentRequest)
    ensures r.cardId.None? && r.title == card.title
    ensures r.content == Some(card.content) && r.metadata == card.metadata
  {
    UpdateContentRequest(None, card.title, Some(card.content), card.metadata)
  }
}

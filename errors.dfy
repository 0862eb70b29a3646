/** The conditions under which a command reports an error and exits with a non-zero status. */
module Errors {
  import opened Positions

  datatype Error =
    | FileRequired                    // `entry add` without `--file`
    | ChapterNotFound(chapter: IndexArg)
    | TrackNotFound(track: IndexArg)
    | EntryNotFound(entry: IndexArg)
    | IconFileNotFound(path: string)  // a path-like icon whose file does not exist
    | NoTrackUrl                      // "Failed to get track URL from upload"
    | UploadFailed                    // the PUT of the file bytes was rejected
    | TranscodeFailed(phase: string)
    | TranscodeTimedOut(seconds: nat)
}

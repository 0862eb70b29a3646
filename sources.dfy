/**
 * The string classifiers that decide where a track source or an icon argument comes from:
 * `isFilePath`, `isYotoHash` and `isUrl`, the branch order of `track add`, and `resolveIcon`.
 */
module Sources {
  import opened Wrappers
  import opened Text
  import opened Errors

  /** The scheme of content-addressed references, for audio and for icons alike. */
  const YotoPrefix := "yoto:#"

  /** The reference written into a document for a media id. */
  function IconRef(mediaId: string): string {
    YotoPrefix + mediaId
  }

  /** The media id used when a chapter or entry is added without `--icon`. */
  const DefaultIcon := "aUm9i3ex3qqAMYBv-i-O-pYMKuMJGICtR3Vhf289u2Q"

  const AudioExtensions := ["mp3", "m4a", "aac", "flac", "wav", "ogg", "wma", "opus"]
  const ImageExtensions := ["png", "jpg", "jpeg", "gif"]

  /** `/\.(e1|e2|...)$/i.test(s)` */
  predicate EndsWithExtension(s: string, extensions: seq<string>)
    decreases |extensions|
  {
    |extensions| > 0 &&
    (EndsWithIgnoringCase(s, "." + extensions[0]) || EndsWithExtension(s, extensions[1..]))
  }

  /** The regular expression matches exactly when one of the listed extensions ends the string, ignoring case. */
  lemma {:induction false} EndsWithExtensionMeans(s: string, extensions: seq<string>)
    ensures EndsWithExtension(s, extensions) <==>
            exists k :: 0 <= k < |extensions| && EndsWithIgnoringCase(s, "." + extensions[k])
    decreases |extensions|
  {
    if |extensions| > 0 {
      EndsWithExtensionMeans(s, extensions[1..]);
      if EndsWithExtension(s, extensions[1..]) {
        var k :| 0 <= k < |extensions| - 1 && EndsWithIgnoringCase(s, "." + extensions[1..][k]);
        assert EndsWithIgnoringCase(s, "." + extensions[k + 1]);
      }
      if k :| 0 <= k < |extensions| && EndsWithIgnoringCase(s, "." + extensions[k]) {
        if k > 0 {
          assert EndsWithIgnoringCase(s, "." + extensions[1..][k - 1]);
        }
      }
    }
  }

  predicate HasPathPrefix(s: string) {
    StartsWith(s, "./") || StartsWith(s, "../") || StartsWith(s, "/")
  }

  /** `isFilePath`: a path prefix, or an audio extension on something that does not start with "http". */
  predicate IsFilePath(source: string) {
    HasPathPrefix(source) || (EndsWithExtension(source, AudioExtensions) && !StartsWith(source, "http"))
  }

  /**
   * `isFilePath(s)` holds exactly when `s` starts with "./", "../" or "/", or ends, ignoring case,
   * in one of the audio extensions and does not start with "http".
   */
  lemma IsFilePathMeans(s: string)
    ensures IsFilePath(s) <==>
            (StartsWith(s, "./") || StartsWith(s, "../") || StartsWith(s, "/")) ||
            ((exists k :: 0 <= k < |AudioExtensions| && EndsWithIgnoringCase(s, "." + AudioExtensions[k])) &&
             !StartsWith(s, "http"))
  {
    EndsWithExtensionMeans(s, AudioExtensions);
  }

  predicate IsYotoHash(source: string) {
    StartsWith(source, YotoPrefix)
  }

  predicate IsUrl(source: string) {
    StartsWith(source, "http://") || StartsWith(source, "https://")
  }

  /** The four branches of `track add`, in the order the code tests them. */
  datatype SourceRoute = UploadPath | YotoReference | ExternalUrl | UploadFallback {
    predicate Uploads() { UploadPath? || UploadFallback? }
  }

  function RouteSource(source: string): (r: SourceRoute)
    ensures r.YotoReference? ==> IsYotoHash(source)
    ensures r.ExternalUrl? ==> IsUrl(source)
  {
    if IsFilePath(source) then UploadPath
    else if IsYotoHash(source) then YotoReference
    else if IsUrl(source) then ExternalUrl
    else UploadFallback
  }

  /** A source is used verbatim exactly when it is no file path and is a yoto:# or http(s) reference. */
  lemma VerbatimSources(source: string)
    ensures !RouteSource(source).Uploads() <==>
            !IsFilePath(source) && (IsYotoHash(source) || IsUrl(source))
  {
  }

  /** Anything that starts with "./", "../" or "/" is uploaded. */
  lemma PathsAreUploaded(source: string)
    requires HasPathPrefix(source)
    ensures RouteSource(source) == UploadPath
  {
  }

  /** An http:// or https:// source is never mistaken for a file, whatever its extension. */
  lemma UrlsAreNeverUploaded(source: string)
    requires IsUrl(source)
    ensures RouteSource(source) == ExternalUrl
  {
    assert source[..4] == "http" by {
      if StartsWith(source, "http://") {
        assert source[..4] == source[..7][..4];
      } else {
        assert source[..4] == source[..8][..4];
      }
    }
    assert source[0] == 'h' by { assert source[..4][0] == source[0]; }
    FirstCharRulesOut(source, "./");
    FirstCharRulesOut(source, "../");
    FirstCharRulesOut(source, "/");
    FirstCharRulesOut(source, YotoPrefix);
  }

  /** A string whose first character differs from a prefix's cannot start with it. */
  lemma FirstCharRulesOut(s: string, prefix: string)
    requires |s| > 0 && |prefix| > 0 && s[0] != prefix[0]
    ensures !StartsWith(s, prefix)
  {
    if |prefix| <= |s| {
      assert s[..|prefix|][0] == s[0];
    }
  }

  /** Because the file-path test comes first, a yoto:# source is uploaded iff it ends in an audio extension. */
  lemma YotoSourcesUploadedIffAudioExtension(source: string)
    requires IsYotoHash(source)
    ensures RouteSource(source).Uploads() <==> EndsWithExtension(source, AudioExtensions)
    ensures !RouteSource(source).Uploads() ==> RouteSource(source) == YotoReference
  {
    assert source[0] == 'y' by { assert source[..|YotoPrefix|][0] == source[0]; }
    FirstCharRulesOut(source, "./");
    FirstCharRulesOut(source, "../");
    FirstCharRulesOut(source, "/");
    FirstCharRulesOut(source, "http");
  }

  /** A string without a '.' cannot end in any ".ext". */
  lemma {:induction false} NoDotNoExtension(s: string, extensions: seq<string>)
    requires forall k :: 0 <= k < |s| ==> s[k] != '.'
    ensures !EndsWithExtension(s, extensions)
    decreases |extensions|
  {
    if |extensions| > 0 {
      var suffix := "." + extensions[0];
      if |suffix| <= |s| {
        assert Lower(suffix)[0] == '.';
        assert Lower(s[|s| - |suffix|..])[0] == LowerAscii(s[|s| - |suffix|]);
      }
      NoDotNoExtension(s, extensions[1..]);
    }
  }

  lemma LocalPathExample()
    ensures RouteSource("./a.mp3") == UploadPath
  {
    PathsAreUploaded("./a.mp3");
  }

  lemma YotoReferenceExample()
    ensures RouteSource("yoto:#abc") == YotoReference
  {
    NoDotNoExtension("yoto:#abc", AudioExtensions);
    YotoSourcesUploadedIffAudioExtension("yoto:#abc");
  }

  lemma ExternalUrlExample()
    ensures RouteSource("https://x/y.mp3") == ExternalUrl
  {
    UrlsAreNeverUploaded("https://x/y.mp3");
  }

  /** A bare word is not recognised as anything and falls through to the upload attempt. */
  lemma BareWordExample()
    ensures RouteSource("abc123") == UploadFallback
  {
    var s := "abc123";
    assert forall k :: 0 <= k < |s| ==> s[k] != '.';
    NoDotNoExtension(s, AudioExtensions);
    FirstCharRulesOut(s, "./");
    FirstCharRulesOut(s, "../");
    FirstCharRulesOut(s, "/");
    FirstCharRulesOut(s, YotoPrefix);
    FirstCharRulesOut(s, "http://");
    FirstCharRulesOut(s, "https://");
  }

  /** The file-path test runs before the yoto:# test, so "yoto:#x.mp3" is uploaded, not used verbatim. */
  lemma YotoWithAudioExtensionExample()
    ensures RouteSource("yoto:#x.mp3") == UploadPath
  {
    var s := "yoto:#x.mp3";
    assert EndsWithIgnoringCase(s, "." + AudioExtensions[0]) by {
      assert s[|s| - 4..] == ".mp3";
    }
    YotoSourcesUploadedIffAudioExtension(s);
  }

  // ---------------------------------------------------------------------------------------------
  // Icons
  // ---------------------------------------------------------------------------------------------

  /** The local-file heuristic of `resolveIcon`: a path prefix or an image extension. */
  predicate LooksLikeIconFile(icon: string) {
    HasPathPrefix(icon) || EndsWithExtension(icon, ImageExtensions)
  }

  /** What the file system and the icon upload report for a path-like icon argument. */
  datatype IconFile = IconFile(found: bool, uploadedMediaId: string)

  /**
   * `resolveIcon`: a yoto:# reference loses its prefix; a path-like argument must exist and is
   * uploaded, giving the server's media id; anything else is taken to be a media id already.
   */
  function ResolveIcon(icon: string, file: IconFile): Result<string, Error> {
    if StartsWith(icon, YotoPrefix) then Success(icon[|YotoPrefix|..])
    else if LooksLikeIconFile(icon) then
      if file.found then Success(file.uploadedMediaId) else Failure(IconFileNotFound(icon))
    else Success(icon)
  }

  /** The reference the commands write resolves back to the same media id, whatever the file system says. */
  lemma IconRefRoundTrip(mediaId: string, file: IconFile)
    ensures ResolveIcon(IconRef(mediaId), file) == Success(mediaId)
  {
    assert IconRef(mediaId)[..|YotoPrefix|] == YotoPrefix;
    assert IconRef(mediaId)[|YotoPrefix|..] == mediaId;
  }

  /** Resolving is idempotent on what it produces once that is written as a reference. */
  lemma ResolveIconIdempotent(icon: string, file: IconFile, other: IconFile)
    requires ResolveIcon(icon, file).Success?
    ensures ResolveIcon(IconRef(ResolveIcon(icon, file).value), other) == ResolveIcon(icon, file)
  {
    IconRefRoundTrip(ResolveIcon(icon, file).value, other);
  }

  /** The prefix test comes first: "yoto:#cover.png" names the media id "cover.png" and uploads nothing. */
  lemma YotoPrefixBeatsFileHeuristic(file: IconFile)
    ensures ResolveIcon("yoto:#cover.png", file) == Success("cover.png")
  {
    IconRefRoundTrip("cover.png", file);
    assert IconRef("cover.png") == "yoto:#cover.png";
  }

  /** A path-like icon is an error exactly when its file is missing, and otherwise uploaded. */
  lemma PathLikeIcons(icon: string, file: IconFile)
    requires !StartsWith(icon, YotoPrefix) && LooksLikeIconFile(icon)
    ensures ResolveIcon(icon, file).Failure? <==> !file.found
    ensures ResolveIcon(icon, file).Success? ==> ResolveIcon(icon, file).value == file.uploadedMediaId
  {
  }

  /** Only a path-like argument can fail; every other argument resolves without looking at the file system. */
  lemma ResolveIconFailsOnlyForMissingFiles(icon: string, file: IconFile)
    ensures ResolveIcon(icon, file).Failure? ==>
            LooksLikeIconFile(icon) && !file.found && ResolveIcon(icon, file).error == IconFileNotFound(icon)
    ensures !LooksLikeIconFile(icon) ==> ResolveIcon(icon, file) == ResolveIcon(icon, IconFile(true, ""))
    ensures !StartsWith(icon, YotoPrefix) && !LooksLikeIconFile(icon) ==> ResolveIcon(icon, file) == Success(icon)
  {
  }

  /** The media id a command uses: the resolved `--icon` when it is given (non-empty), else the default. */
  function MediaIdOrDefault(icon: Option<string>, file: IconFile): Result<string, Error> {
    if Truthy(icon) then ResolveIcon(icon.value, file) else Success(DefaultIcon)
  }

  /** The optional media id of `track add`: none without `--icon`. */
  function OptionalMediaId(icon: Option<string>, file: IconFile): Result<Option<string>, Error> {
    if !Truthy(icon) then Success(None)
    else
      match ResolveIcon(icon.value, file)
      case Success(m) => Success(Some(m))
      case Failure(e) => Failure(e)
  }
}

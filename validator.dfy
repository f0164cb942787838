/** Pre-download metadata validation: playlist size ceilings for a playlist,
    duration and file-size ceilings for a single item. */
module Validator {
  import opened Wrappers

  const MaxDurationSeconds: real := 1800.0
  const MaxFilesizeBytes: nat := 500 * 1024 * 1024
  const MaxVideoPlaylistItems: nat := 5
  const MaxImagePlaylistItems: nat := 10

  /** The descriptor fields the validator reads. `duration` is a number of
      seconds, `filesize` a number of bytes; a playlist has `entries`. */
  datatype MediaInfo = MediaInfo(
    mediaType: Option<string>,
    duration: Option<real>,
    filesize: Option<nat>,
    entries: Option<seq<MediaInfo>>)

  datatype ValidationError =
    | TooLong(foundMinutes: real, limitMinutes: real)
    | TooLarge(foundMb: nat, limitMb: nat)
    | TooManyItems(foundItems: nat, limitItems: nat)

  /** A playlist counts as a video playlist when its first entry is typed "video". */
  predicate IsVideoPlaylist(entries: seq<MediaInfo>)
  {
    |entries| > 0 && entries[0].mediaType == Some("video")
  }

  function PlaylistLimit(entries: seq<MediaInfo>): (limit: nat)
    ensures IsVideoPlaylist(entries) ==> limit == MaxVideoPlaylistItems
    ensures !IsVideoPlaylist(entries) ==> limit == MaxImagePlaylistItems
  {
    if IsVideoPlaylist(entries) then MaxVideoPlaylistItems else MaxImagePlaylistItems
  }

  predicate DurationBreached(info: MediaInfo)
  {
    info.duration.Some? && info.duration.value > MaxDurationSeconds
  }

  predicate FilesizeBreached(info: MediaInfo)
  {
    info.filesize.Some? && info.filesize.value > MaxFilesizeBytes
  }

  /** The acceptance rule stated declaratively: a playlist is judged only by
      its length, a single item only by its own duration and size, and an
      absent value never breaches anything. */
  predicate WithinLimits(info: MediaInfo)
  {
    match info.entries
    case Some(entries) => |entries| <= PlaylistLimit(entries)
    case None => !DurationBreached(info) && !FilesizeBreached(info)
  }

  /** validate_media_metadata. Ok(()) is modelled as None, Err(e) as Some(e). */
  function ValidateMediaMetadata(info: MediaInfo): (r: Option<ValidationError>)
    ensures r.None? <==> WithinLimits(info)
    ensures r.Some? && r.value.TooManyItems? ==>
      info.entries.Some? &&
      r.value == TooManyItems(|info.entries.value|, PlaylistLimit(info.entries.value)) &&
      r.value.foundItems > r.value.limitItems
    ensures r.Some? && r.value.TooLong? ==>
      info.entries.None? && DurationBreached(info) &&
      r.value == TooLong(info.duration.value / 60.0, 30.0)
    ensures r.Some? && r.value.TooLarge? ==>
      info.entries.None? && !DurationBreached(info) && FilesizeBreached(info) &&
      r.value == TooLarge(info.filesize.value / 1024 / 1024, 500)
  {
    if info.entries.Some? then
      var entries := info.entries.value;
      var limit := PlaylistLimit(entries);
      if |entries| > limit then Some(TooManyItems(|entries|, limit)) else None
    else if info.duration.Some? && info.duration.value > MaxDurationSeconds then
      Some(TooLong(info.duration.value / 60.0, MaxDurationSeconds / 60.0))
    else if info.filesize.Some? && info.filesize.value > MaxFilesizeBytes then
      Some(TooLarge(info.filesize.value / 1024 / 1024, MaxFilesizeBytes / 1024 / 1024))
    else
      None
  }

  /** A playlist whose parent carries breaching duration and size is judged
      by its entries alone: the parent's own values are never looked at. */
  lemma PlaylistIgnoresParentLimits(info: MediaInfo, d: Option<real>, f: Option<nat>)
    requires info.entries.Some?
    ensures ValidateMediaMetadata(info) == ValidateMediaMetadata(info.(duration := d, filesize := f))
  {
  }

  /** Whatever the entries are, a playlist is accepted exactly when it has at
      most 5 entries (first entry typed "video") or at most 10 (otherwise). */
  lemma PlaylistVerdict(info: MediaInfo)
    requires info.entries.Some?
    ensures var es := info.entries.value;
      ValidateMediaMetadata(info).None? <==>
        (if |es| > 0 && es[0].mediaType == Some("video") then |es| <= 5 else |es| <= 10)
  {
  }

  /** An item breaching both ceilings reports the duration breach. */
  lemma DurationCheckedBeforeSize(info: MediaInfo)
    requires info.entries.None? && DurationBreached(info) && FilesizeBreached(info)
    ensures ValidateMediaMetadata(info).Some? && ValidateMediaMetadata(info).value.TooLong?
  {
  }

  /** The duration comparison is strict: exactly 1800 seconds passes, and
      3000 seconds is reported as 50 minutes against a 30 minute limit. */
  lemma DurationBoundary()
    ensures ValidateMediaMetadata(MediaInfo(None, Some(1800.0), None, None)) == None
    ensures ValidateMediaMetadata(MediaInfo(None, Some(3000.0), None, None)) == Some(TooLong(50.0, 30.0))
  {
  }

  /** The size comparison is strict as well; one byte over reports 500 MB. */
  lemma FilesizeBoundary()
    ensures ValidateMediaMetadata(MediaInfo(None, None, Some(MaxFilesizeBytes), None)) == None
    ensures ValidateMediaMetadata(MediaInfo(None, None, Some(MaxFilesizeBytes + 1), None)) == Some(TooLarge(500, 500))
  {
  }

  /** Missing data never fails: no duration, no size, no entries is valid,
      and so is half the duration ceiling with one byte under the size ceiling. */
  lemma MissingOrSmallDataIsValid()
    ensures ValidateMediaMetadata(MediaInfo(None, None, None, None)) == None
    ensures ValidateMediaMetadata(MediaInfo(None, Some(900.0), Some(MaxFilesizeBytes - 1), None)) == None
  {
  }

  /** Six entries typed "video" are rejected against the limit of 5, while
      six untyped entries or six entries typed "image" pass under the limit of 10. */
  lemma SixEntryPlaylists()
    ensures var v := MediaInfo(Some("video"), None, None, None);
      ValidateMediaMetadata(MediaInfo(None, None, None, Some([v, v, v, v, v, v]))) == Some(TooManyItems(6, 5))
    ensures var u := MediaInfo(None, None, None, None);
      ValidateMediaMetadata(MediaInfo(None, None, None, Some([u, u, u, u, u, u]))) == None
    ensures var p := MediaInfo(Some("image"), None, None, None);
      ValidateMediaMetadata(MediaInfo(None, None, None, Some([p, p, p, p, p, p]))) == None
  {
  }
}

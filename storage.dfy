/** The media cache: a table of cache rows keyed by source URL and a table
    of file rows keyed by cache id, read back as CachedMedia and written by
    an upsert that replaces the whole file list. */
module Storage {
  import opened Wrappers

  datatype MediaType = Video | Photo

  datatype CachedFile = CachedFile(telegramFileId: string, mediaType: MediaType)

  datatype CachedMedia = CachedMedia(caption: string, files: seq<CachedFile>)

  /** A row of media_cache (its key, source_url, is the map key). */
  datatype CacheRow = CacheRow(id: int, caption: string)

  /** A row of cached_files (its cache_id is the map key). */
  datatype FileRow = FileRow(telegramFileId: string, mediaType: string, position: int)

  /** A row of requests, the audit log. */
  datatype RequestRow = RequestRow(chatId: int, sourceUrl: string, status: string, processingTimeMs: int)

  // ---------------------------------------------------------------------
  // The media type codec
  // ---------------------------------------------------------------------

  function MediaTypeToStr(m: MediaType): (s: string)
    ensures s == "video" || s == "photo"
  {
    match m
    case Video => "video"
    case Photo => "photo"
  }

  function StrToMediaType(s: string): (r: Option<MediaType>)
    ensures r.Some? <==> s == "video" || s == "photo"
  {
    if s == "video" then Some(Video)
    else if s == "photo" then Some(Photo)
    else None
  }

  /** The codec round-trips in both directions, and every other string is rejected. */
  lemma MediaTypeRoundTrip(m: MediaType, s: string)
    ensures StrToMediaType(MediaTypeToStr(m)) == Some(m)
    ensures StrToMediaType(s) == Some(m) ==> MediaTypeToStr(m) == s
    ensures s != "video" && s != "photo" ==> StrToMediaType(s) == None
  {
  }

  // ---------------------------------------------------------------------
  // Reading: file rows to CachedMedia
  // ---------------------------------------------------------------------

  predicate Decodable(row: FileRow)
  {
    StrToMediaType(row.mediaType).Some?
  }

  /** The filter_map over the file rows: rows whose type string is not
      recognised are dropped, the others keep their order. */
  function DecodeRows(rows: seq<FileRow>): (files: seq<CachedFile>)
    ensures |files| <= |rows|
    ensures files == [] <==> forall i :: 0 <= i < |rows| ==> !Decodable(rows[i])
  {
    if rows == [] then []
    else
      var rest := DecodeRows(rows[1..]);
      match StrToMediaType(rows[0].mediaType)
      case Some(m) => [CachedFile(rows[0].telegramFileId, m)] + rest
      case None =>
        assert forall i :: 1 <= i < |rows| ==> rows[i] == rows[1..][i - 1];
        rest
  }

  lemma {:induction false} DecodeRowsAppend(a: seq<FileRow>, b: seq<FileRow>)
    ensures DecodeRows(a + b) == DecodeRows(a) + DecodeRows(b)
  {
    if a != [] {
      assert (a + b)[0] == a[0];
      assert (a + b)[1..] == a[1..] + b;
      DecodeRowsAppend(a[1..], b);
    } else {
      assert a + b == b;
    }
  }

  /** The tail of get_cached_media: no file rows, or none that decode, is a
      miss; otherwise the stored caption with the decoded files in order. */
  function RowsToCachedMedia(caption: string, rows: seq<FileRow>): (r: Option<CachedMedia>)
    ensures r.None? <==> forall i :: 0 <= i < |rows| ==> !Decodable(rows[i])
    ensures r.Some? ==> r.value.caption == caption && r.value.files == DecodeRows(rows) && r.value.files != []
  {
    if rows == [] then None
    else
      var files := DecodeRows(rows);
      if files == [] then None else Some(CachedMedia(caption, files))
  }

  // ---------------------------------------------------------------------
  // Writing: the rows the insert loop produces
  // ---------------------------------------------------------------------

  /** The file rows inserted for `files`: row i carries position i, except
      that the insert of every position in `failed` errs and is skipped. */
  function InsertedRows(files: seq<(string, MediaType)>, failed: set<nat>): (rows: seq<FileRow>)
    ensures |rows| <= |files|
    ensures forall i :: 0 <= i < |rows| ==> 0 <= rows[i].position < |files|
    ensures OrderedByPosition(rows)
  {
    if files == [] then []
    else
      var n := |files| - 1;
      var rows := InsertedRows(files[..n], failed);
      if n in failed then rows
      else rows + [FileRow(files[n].0, MediaTypeToStr(files[n].1), n)]
  }

  function ToCachedFiles(files: seq<(string, MediaType)>): (r: seq<CachedFile>)
    ensures |r| == |files|
    ensures forall i :: 0 <= i < |files| ==> r[i] == CachedFile(files[i].0, files[i].1)
  {
    seq(|files|, i requires 0 <= i < |files| => CachedFile(files[i].0, files[i].1))
  }

  /** The row stored for the file at `position`. */
  function RowOf(files: seq<(string, MediaType)>, position: nat): FileRow
    requires position < |files|
  {
    FileRow(files[position].0, MediaTypeToStr(files[position].1), position)
  }

  /** With no failed insert, the last file adds its row at the end. */
  lemma InsertedRowsSnoc(files: seq<(string, MediaType)>)
    requires files != []
    ensures InsertedRows(files, {}) == InsertedRows(files[..|files| - 1], {}) + [RowOf(files, |files| - 1)]
  {
  }

  /** A row written for a file decodes back to that file. */
  lemma DecodeRowOf(files: seq<(string, MediaType)>, position: nat)
    requires position < |files|
    ensures DecodeRows([RowOf(files, position)]) == [CachedFile(files[position].0, files[position].1)]
  {
    var m := files[position].1;
    MediaTypeRoundTrip(m, MediaTypeToStr(m));
  }

  lemma ToCachedFilesSnoc(files: seq<(string, MediaType)>)
    requires files != []
    ensures var n := |files| - 1;
      ToCachedFiles(files) == ToCachedFiles(files[..n]) + [CachedFile(files[n].0, files[n].1)]
  {
    var n := |files| - 1;
    assert ToCachedFiles(files)[..n] == ToCachedFiles(files[..n]);
  }

  /** Reading back the rows of a store in which no insert failed gives the
      stored files, in order, with their types. */
  lemma {:induction false} DecodeInsertedRows(files: seq<(string, MediaType)>)
    ensures DecodeRows(InsertedRows(files, {})) == ToCachedFiles(files)
  {
    if files != [] {
      var n := |files| - 1;
      DecodeInsertedRows(files[..n]);
      InsertedRowsSnoc(files);
      DecodeRowsAppend(InsertedRows(files[..n], {}), [RowOf(files, n)]);
      DecodeRowOf(files, n);
      ToCachedFilesSnoc(files);
    }
  }

  /** Row positions strictly increase, so ORDER BY position is the stored order. */
  ghost predicate OrderedByPosition(rows: seq<FileRow>)
  {
    forall i, j :: 0 <= i < j < |rows| ==> rows[i].position < rows[j].position
  }

  /** processing_time_ms as i32: two's-complement truncation of an i64. */
  function AsI32(x: int): (r: int)
    ensures -0x8000_0000 <= r < 0x8000_0000
    ensures (r - x) % 0x1_0000_0000 == 0
    ensures -0x8000_0000 <= x < 0x8000_0000 ==> r == x
  {
    var m := x % 0x1_0000_0000;
    if m < 0x8000_0000 then m else m - 0x1_0000_0000
  }

  /** PostgresStorage over its three tables. */
  class PostgresStorage {
    var mediaCache: map<string, CacheRow>
    var cachedFiles: map<int, seq<FileRow>>
    var requests: seq<RequestRow>
    var nextId: int

    /** Ids are allocated from a serial counter and are unique per URL, and
        each id's file rows are kept in position order. */
    ghost predicate Valid()
      reads this
    {
      (forall u :: u in mediaCache ==> mediaCache[u].id < nextId) &&
      (forall u, v :: u in mediaCache && v in mediaCache && u != v ==> mediaCache[u].id != mediaCache[v].id) &&
      (forall id :: id in cachedFiles ==> OrderedByPosition(cachedFiles[id]))
    }

    constructor ()
      ensures Valid()
      ensures mediaCache == map[] && cachedFiles == map[] && requests == []
    {
      mediaCache, cachedFiles, requests, nextId := map[], map[], [], 1;
    }

    /** SELECT ... FROM cached_files WHERE cache_id = id ORDER BY position. */
    function FileRowsOf(id: int): seq<FileRow>
      reads this
    {
      if id in cachedFiles then cachedFiles[id] else []
    }

    /** get_cached_media: a URL with no cache row, with no file rows, or
        whose file rows all carry unknown types reads as a miss. */
    function GetCachedMedia(sourceUrl: string): (r: Option<CachedMedia>)
      reads this
      ensures r.None? <==>
        sourceUrl !in mediaCache || DecodeRows(FileRowsOf(mediaCache[sourceUrl].id)) == []
      ensures r.Some? ==>
        r.value.caption == mediaCache[sourceUrl].caption &&
        r.value.files == DecodeRows(FileRowsOf(mediaCache[sourceUrl].id)) &&
        r.value.files != []
    {
      if sourceUrl !in mediaCache then None
      else
        var row := mediaCache[sourceUrl];
        RowsToCachedMedia(row.caption, FileRowsOf(row.id))
    }

    /** store_cached_media. The upsert either fails, leaving both tables as
        they were, or yields the URL's id (the existing one, or a new serial
        id); the old file rows of that id are deleted and one row per file
        is inserted, skipping positions whose insert fails. */
    method StoreCachedMedia(sourceUrl: string, caption: string, files: seq<(string, MediaType)>,
                            upsertFails: bool, failedInserts: set<nat>)
      requires Valid()
      modifies this
      ensures Valid()
      ensures requests == old(requests)
      ensures upsertFails ==> mediaCache == old(mediaCache) && cachedFiles == old(cachedFiles)
      ensures !upsertFails ==>
        var id := if sourceUrl in old(mediaCache) then old(mediaCache)[sourceUrl].id else old(nextId);
        mediaCache == old(mediaCache)[sourceUrl := CacheRow(id, caption)] &&
        cachedFiles == old(cachedFiles)[id := InsertedRows(files, failedInserts)]
      ensures forall u :: u != sourceUrl ==> GetCachedMedia(u) == old(GetCachedMedia(u))
      ensures !upsertFails ==> GetCachedMedia(sourceUrl) == RowsToCachedMedia(caption, InsertedRows(files, failedInserts))
    {
      if upsertFails {
        return;
      }
      var id: int;
      if sourceUrl in mediaCache {
        id := mediaCache[sourceUrl].id;
      } else {
        id := nextId;
        nextId := nextId + 1;
      }
      mediaCache := mediaCache[sourceUrl := CacheRow(id, caption)];
      ReplaceFileRows(id, files, failedInserts);
    }

    /** The file-table half of store_cached_media: delete every row of cache
        id `id`, then insert one row per file, in order, with position i for
        the i-th file; an insert that fails is logged and skipped. */
    method ReplaceFileRows(id: int, files: seq<(string, MediaType)>, failedInserts: set<nat>)
      modifies this`cachedFiles
      ensures cachedFiles == old(cachedFiles)[id := InsertedRows(files, failedInserts)]
    {
      // DELETE FROM cached_files WHERE cache_id = id
      cachedFiles := cachedFiles[id := []];
      for position := 0 to |files|
        invariant cachedFiles == old(cachedFiles)[id := InsertedRows(files[..position], failedInserts)]
      {
        assert files[..position + 1][..position] == files[..position];
        if position !in failedInserts {
          var (fileId, mediaType) := files[position];
          cachedFiles := cachedFiles[id := cachedFiles[id] + [FileRow(fileId, MediaTypeToStr(mediaType), position)]];
        }
      }
      assert files[..|files|] == files;
    }

    /** log_request: appends one row; a failed insert is logged and swallowed. */
    method LogRequest(chatId: int, sourceUrl: string, status: string, processingTimeMs: int, insertFails: bool)
      modifies this
      ensures mediaCache == old(mediaCache) && cachedFiles == old(cachedFiles) && nextId == old(nextId)
      ensures requests == if insertFails then old(requests)
        else old(requests) + [RequestRow(chatId, sourceUrl, status, AsI32(processingTimeMs))]
    {
      if !insertFails {
        requests := requests + [RequestRow(chatId, sourceUrl, status, AsI32(processingTimeMs))];
      }
    }
  }

  /** Store followed by read, on the pure tables: a non-empty file list whose
      inserts all succeed reads back as exactly that caption and those files. */
  lemma StoredFilesReadBack(caption: string, files: seq<(string, MediaType)>)
    requires files != []
    ensures RowsToCachedMedia(caption, InsertedRows(files, {})) == Some(CachedMedia(caption, ToCachedFiles(files)))
  {
    DecodeInsertedRows(files);
  }
}

/** A caller's view of the cache: a store whose upsert and inserts succeed,
    then a read of the same URL, returns the stored caption and files. */
module StorageClient {
  import opened Wrappers
  import opened Storage

  method StoreThenRead(db: PostgresStorage, sourceUrl: string, caption: string, files: seq<(string, MediaType)>)
    returns (r: Option<CachedMedia>)
    requires db.Valid() && files != []
    modifies db
    ensures db.Valid()
    ensures r == Some(CachedMedia(caption, ToCachedFiles(files)))
  {
    db.StoreCachedMedia(sourceUrl, caption, files, false, {});
    StoredFilesReadBack(caption, files);
    r := db.GetCachedMedia(sourceUrl);
  }
}

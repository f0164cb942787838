/** The message handler: ignores text that is not a link, otherwise asks the
    downloader for the link and sends every returned file by its extension,
    or one error message when the download failed. The collaborators are
    observed through the trace of calls the handler makes. */
module Handler {
  import opened Wrappers
  import Downloader

  /** A call the handler makes on the downloader or the Telegram API. */
  datatype Call =
    | DownloadMedia(url: string)
    | SendVideo(chatId: int, messageId: int, filePath: string, caption: string)
    | SendPhoto(chatId: int, messageId: int, filePath: string, caption: string)
    | SendErrorMessage(chatId: int, message: string)

  /** What the downloader hands back: a caption and the downloaded file paths. */
  type DownloadResult = Result<(string, seq<string>), Downloader.DownloadError>

  predicate StartsWith(s: string, prefix: string)
  {
    |prefix| <= |s| && s[..|prefix|] == prefix
  }

  predicate EndsWith(s: string, suffix: string)
  {
    |suffix| <= |s| && s[|s| - |suffix|..] == suffix
  }

  /** How a path is sent, decided by its extension. */
  datatype Route = AsVideo | AsPhoto | NotSent

  function RouteOf(path: string): Route
  {
    if EndsWith(path, ".mp4") then AsVideo
    else if EndsWith(path, ".jpg") || EndsWith(path, ".png") then AsPhoto
    else NotSent
  }

  /** The route a recorded call took, if it is a send of a file. */
  function RouteOfCall(c: Call): Route
  {
    match c
    case SendVideo(_, _, _, _) => AsVideo
    case SendPhoto(_, _, _, _) => AsPhoto
    case _ => NotSent
  }

  function ErrorMessage(e: Downloader.DownloadError): string
  {
    "Sorry, I could not process that link: " + Downloader.ErrorText(e)
  }

  /** The sends for `paths`, one per path that has a route, in path order;
      every send replies to the message in the chat with the same caption. */
  function SendCalls(chatId: int, messageId: int, paths: seq<string>, caption: string): (calls: seq<Call>)
    ensures |calls| <= |paths|
    ensures forall i :: 0 <= i < |calls| ==>
      (calls[i].SendVideo? || calls[i].SendPhoto?) &&
      calls[i].chatId == chatId && calls[i].messageId == messageId && calls[i].caption == caption &&
      RouteOf(calls[i].filePath) == RouteOfCall(calls[i])
  {
    if paths == [] then []
    else
      var path := paths[0];
      var rest := SendCalls(chatId, messageId, paths[1..], caption);
      match RouteOf(path)
      case AsVideo => [SendVideo(chatId, messageId, path, caption)] + rest
      case AsPhoto => [SendPhoto(chatId, messageId, path, caption)] + rest
      case NotSent => rest
  }

  lemma {:induction false} SendCallsAppend(chatId: int, messageId: int, a: seq<string>, b: seq<string>, caption: string)
    ensures SendCalls(chatId, messageId, a + b, caption) ==
      SendCalls(chatId, messageId, a, caption) + SendCalls(chatId, messageId, b, caption)
  {
    if a != [] {
      assert (a + b)[0] == a[0];
      assert (a + b)[1..] == a[1..] + b;
      SendCallsAppend(chatId, messageId, a[1..], b, caption);
    } else {
      assert a + b == b;
    }
  }

  /** The paths that `route` sends, in order. */
  function PathsRoutedTo(paths: seq<string>, route: Route): seq<string>
  {
    if paths == [] then []
    else (if RouteOf(paths[0]) == route then [paths[0]] else []) + PathsRoutedTo(paths[1..], route)
  }

  /** The file paths of the recorded sends that took `route`, in order. */
  function SentPaths(calls: seq<Call>, route: Route): seq<string>
  {
    if calls == [] then []
    else
      (if (calls[0].SendVideo? || calls[0].SendPhoto?) && RouteOfCall(calls[0]) == route
       then [calls[0].filePath] else []) + SentPaths(calls[1..], route)
  }

  /** Every ".mp4" path is sent exactly once as a video, every ".jpg" or
      ".png" path exactly once as a photo, in the order of the paths, and
      nothing else is sent. */
  lemma {:induction false} SendsFollowPaths(chatId: int, messageId: int, paths: seq<string>, caption: string, route: Route)
    requires route != NotSent
    ensures SentPaths(SendCalls(chatId, messageId, paths, caption), route) == PathsRoutedTo(paths, route)
  {
    if paths != [] {
      SendsFollowPaths(chatId, messageId, paths[1..], caption, route);
      var rest := SendCalls(chatId, messageId, paths[1..], caption);
      var calls := SendCalls(chatId, messageId, paths, caption);
      if RouteOf(paths[0]) != NotSent {
        assert calls[1..] == rest;
      }
    }
  }

  /** After the download call, a run of media sends holds no error message. */
  lemma SuccessSendsNoError(text: string, sends: seq<Call>)
    requires forall i :: 0 <= i < |sends| ==> sends[i].SendVideo? || sends[i].SendPhoto?
    ensures var trace := [DownloadMedia(text)] + sends;
      forall i :: 0 <= i < |trace| ==> !trace[i].SendErrorMessage?
  {
    var trace := [DownloadMedia(text)] + sends;
    assert forall i :: 1 <= i < |trace| ==> trace[i] == sends[i - 1];
  }

  /** message_handler. `download` is what the downloader returns when asked
      for `text`; the result of every send is discarded, so a failed send
      does not stop the sends after it. */
  method MessageHandler(text: string, chatId: int, messageId: int, download: DownloadResult)
    returns (trace: seq<Call>)
    ensures !StartsWith(text, "http") ==> trace == []
    ensures StartsWith(text, "http") && download.Err? ==>
      trace == [DownloadMedia(text), SendErrorMessage(chatId, ErrorMessage(download.error))]
    ensures StartsWith(text, "http") && download.Ok? ==>
      trace == [DownloadMedia(text)] + SendCalls(chatId, messageId, download.value.1, download.value.0)
    ensures download.Err? ==> forall i :: 0 <= i < |trace| ==> !trace[i].SendVideo? && !trace[i].SendPhoto?
    ensures forall i :: 0 <= i < |trace| ==> trace[i].SendErrorMessage? ==> download.Err?
  {
    if !StartsWith(text, "http") {
      return [];
    }
    trace := [DownloadMedia(text)];
    match download
    case Ok((caption, filePaths)) =>
      for i := 0 to |filePaths|
        invariant trace == [DownloadMedia(text)] + SendCalls(chatId, messageId, filePaths[..i], caption)
      {
        var path := filePaths[i];
        SendCallsAppend(chatId, messageId, filePaths[..i], [path], caption);
        assert filePaths[..i + 1] == filePaths[..i] + [path];
        if EndsWith(path, ".mp4") {
          trace := trace + [SendVideo(chatId, messageId, path, caption)];
        } else if EndsWith(path, ".jpg") || EndsWith(path, ".png") {
          trace := trace + [SendPhoto(chatId, messageId, path, caption)];
        }
      }
      assert filePaths[..|filePaths|] == filePaths;
      SuccessSendsNoError(text, SendCalls(chatId, messageId, filePaths, caption));
    case Err(e) =>
      var errorMessage := ErrorMessage(e);
      trace := trace + [SendErrorMessage(chatId, errorMessage)];
  }

  /** A failed download sends nothing but the one error message: no video
      and no photo reaches the chat. */
  lemma ErrorSendsNoMedia(text: string, chatId: int, e: Downloader.DownloadError, trace: seq<Call>)
    requires StartsWith(text, "http")
    requires trace == [DownloadMedia(text), SendErrorMessage(chatId, ErrorMessage(e))]
    ensures forall i :: 0 <= i < |trace| ==> !trace[i].SendVideo? && !trace[i].SendPhoto?
    ensures |set i | 0 <= i < |trace| && trace[i].SendErrorMessage?| == 1
  {
    assert (set i | 0 <= i < |trace| && trace[i].SendErrorMessage?) == {1};
  }

  /** The handler's own test scenario: one ".mp4" path leads to exactly one
      send_video with the downloader's caption. */
  lemma OneVideoScenario()
    ensures SendCalls(123, 456, ["/tmp/video.mp4"], "A great video!") ==
      [SendVideo(123, 456, "/tmp/video.mp4", "A great video!")]
  {
    assert EndsWith("/tmp/video.mp4", ".mp4");
  }
}

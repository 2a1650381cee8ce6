/**
 * What downloadAndTranscode and monitorAndPrioritizePieces decide
 * (backend/torrent/client.go): which file of the torrent is the video, which
 * pieces are fetched first, and when transcoding may begin. Torrent state
 * (file list, piece completion, bytes completed) and the file system
 * (os.Stat size, ffprobe readability) are inputs.
 */
module DownloadPolicy {
  import opened Common
  import opened StreamRegistry

  const MiB: int := 1024 * 1024
  const GiB: int := 1024 * 1024 * 1024

  /** The extensions tried, compared against the lower-cased path. */
  const VideoExtensions: seq<string> := [".mp4", ".mkv", ".avi", ".mov", ".wmv", ".webm"]

  const NoVideoFileMessage: string := "Nenhum arquivo de v\U{00ED}deo encontrado no torrent"

  datatype TorrentFile = TorrentFile(path: string, length: int)

  predicate IsVideoPath(path: string) {
    exists x :: 0 <= x < |VideoExtensions| && EndsWith(Lower(path), VideoExtensions[x])
  }

  /** The choice after the files [0, n) have been scanned. */
  ghost predicate BestAmong(files: seq<TorrentFile>, n: nat, chosen: Option<nat>)
    requires n <= |files|
  {
    (chosen.None? <==> forall j :: 0 <= j < n ==> !IsVideoPath(files[j].path))
    && (chosen.Some? ==>
      chosen.value < n && IsVideoPath(files[chosen.value].path)
      && (forall j :: 0 <= j < n && IsVideoPath(files[j].path) ==>
            files[j].length <= files[chosen.value].length)
      && (forall j :: 0 <= j < chosen.value && IsVideoPath(files[j].path) ==>
            files[j].length < files[chosen.value].length))
  }

  lemma BestSkipsNonVideo(files: seq<TorrentFile>, i: nat, chosen: Option<nat>)
    requires i < |files| && BestAmong(files, i, chosen) && !IsVideoPath(files[i].path)
    ensures BestAmong(files, i + 1, chosen)
  {
  }

  lemma BestTakesVideo(files: seq<TorrentFile>, i: nat, chosen: Option<nat>)
    requires i < |files| && BestAmong(files, i, chosen) && IsVideoPath(files[i].path)
    ensures BestAmong(files, i + 1,
      if chosen.None? || files[i].length > files[chosen.value].length then Some(i) else chosen)
  {
  }

  /**
   * The file-selection loop: for every file and every extension, a matching file
   * replaces the current choice when there is none or when it is strictly longer.
   * The result is the first of the longest video files, or None when there is none.
   */
  method SelectVideoFile(files: seq<TorrentFile>) returns (chosen: Option<nat>)
    ensures chosen.None? <==> forall j :: 0 <= j < |files| ==> !IsVideoPath(files[j].path)
    ensures chosen.Some? ==> chosen.value < |files| && IsVideoPath(files[chosen.value].path)
    ensures chosen.Some? ==> forall j :: 0 <= j < |files| && IsVideoPath(files[j].path) ==>
      files[j].length <= files[chosen.value].length
    ensures chosen.Some? ==> forall j :: 0 <= j < chosen.value && IsVideoPath(files[j].path) ==>
      files[j].length < files[chosen.value].length
  {
    chosen := None;
    var i := 0;
    while i < |files|
      invariant 0 <= i <= |files|
      invariant BestAmong(files, i, chosen)
    {
      var lowered := Lower(files[i].path);
      ghost var matched := false;
      var e := 0;
      while e < |VideoExtensions|
        invariant 0 <= e <= |VideoExtensions|
        invariant matched <==> exists x :: 0 <= x < e && EndsWith(lowered, VideoExtensions[x])
        invariant matched ==> BestAmong(files, i + 1, chosen)
        invariant !matched ==> BestAmong(files, i, chosen)
      {
        if EndsWith(lowered, VideoExtensions[e]) {
          assert IsVideoPath(files[i].path);
          if !matched {
            BestTakesVideo(files, i, chosen);
          } else {
            assert chosen.Some? && files[i].length <= files[chosen.value].length;
          }
          if chosen.None? || files[i].length > files[chosen.value].length {
            chosen := Some(i);
          }
          matched := true;
        }
        e := e + 1;
      }
      if !matched {
        BestSkipsNonVideo(files, i, chosen);
      }
      i := i + 1;
    }
  }

  /** filepath.Base for the relative, slash-separated paths a torrent lists. */
  function BaseName(path: string): (r: string)
    ensures '/' !in r && EndsWith(path, r)
    ensures '/' !in path ==> r == path
    ensures '/' in path ==> |r| < |path| && path[|path| - |r| - 1] == '/'
    decreases |path|
  {
    if path == [] then []
    else if path[|path| - 1] == '/' then []
    else
      var front := path[..|path| - 1];
      var r := BaseName(front) + [path[|path| - 1]];
      assert front[|path| - |r|..] + [path[|path| - 1]] == path[|path| - |r|..];
      assert '/' in path ==> '/' in front by {
        assert path == front + [path[|path| - 1]];
      }
      r
  }

  /** The stream after the selection: an error when there is no video file,
   *  otherwise the file name and the path under ./downloads recorded. */
  function ApplySelection(s: StreamInfo, choice: Option<TorrentFile>): (t: StreamInfo)
    ensures t.id == s.id && t.magnetLink == s.magnetLink && t.createdAt == s.createdAt
    ensures choice.None? ==>
      t.status == Error && t.errorText == NoVideoFileMessage && t.videoFile == s.videoFile
    ensures choice.Some? ==>
      var path := choice.value.path;
      t.status == s.status && EndsWith(path, t.fileName) && '/' !in t.fileName
      && ('/' !in path ==> t.fileName == path)
      && ('/' in path ==> |t.fileName| < |path| && path[|path| - |t.fileName| - 1] == '/')
      && t.videoFile == "downloads/" + path
  {
    match choice
    case None => s.(status := Error, errorText := NoVideoFileMessage)
    case Some(f) => s.(fileName := BaseName(f.path), videoFile := "downloads/" + f.path)
  }

  // ---------------------------------------------------------------------
  // Piece arithmetic

  /** Go's integer division, which truncates toward zero. */
  function GoDiv(a: int, b: int): (q: int)
    requires b > 0
    ensures a >= 0 ==> q >= 0 && q * b <= a < (q + 1) * b
    ensures a < 0 ==> q <= 0 && (q - 1) * b < a <= q * b
  {
    if a >= 0 then
      DivBounds(a, b);
      a / b
    else
      var m := (-a) / b;
      DivBounds(-a, b);
      assert (-m) * b == -(m * b) && (-m - 1) * b == -((m + 1) * b);
      -m
  }

  /** initialPieces: about 60 MiB worth of pieces, clamped to [10, 2000]. */
  function InitialPieces(pieceLength: int): (n: int)
    requires pieceLength > 0
    ensures 10 <= n <= 2000
    ensures 10 <= (60 * MiB) / pieceLength <= 2000 ==> n == (60 * MiB) / pieceLength
    ensures (60 * MiB) / pieceLength < 10 ==> n == 10
    ensures (60 * MiB) / pieceLength > 2000 ==> n == 2000
  {
    var n := (60 * MiB) / pieceLength;
    if n < 10 then 10 else if n > 2000 then 2000 else n
  }

  function FirstPieceIndex(offset: int, pieceLength: int): (i: int)
    requires offset >= 0 && pieceLength > 0
    ensures i >= 0 && i * pieceLength <= offset < (i + 1) * pieceLength
  {
    DivBounds(offset, pieceLength);
    offset / pieceLength
  }

  lemma DivBounds(a: int, b: int)
    requires a >= 0 && b > 0
    ensures a / b >= 0 && (a / b) * b <= a < (a / b + 1) * b
  {
    assert a == (a / b) * b + a % b;
    assert (a / b + 1) * b == (a / b) * b + b;
  }

  lemma DivMonotone(a: int, c: int, b: int)
    requires 0 <= a <= c && b > 0
    ensures a / b <= c / b
  {
    DivBounds(a, b);
    DivBounds(c, b);
    assert (a / b) * b < (c / b + 1) * b;
    MulCancel(a / b, c / b + 1, b);
  }

  lemma MulCancel(x: int, y: int, b: int)
    requires b > 0 && x * b < y * b
    ensures x < y
  {
    assert y * b - x * b == (y - x) * b;
  }

  /** The piece holding the last byte of the file (offset + length - 1), with Go's division. */
  function LastPieceIndex(offset: int, length: int, pieceLength: int): (i: int)
    requires offset >= 0 && length >= 0 && pieceLength > 0
    ensures length >= 1 ==>
      i * pieceLength <= offset + length - 1 < (i + 1) * pieceLength
      && i >= FirstPieceIndex(offset, pieceLength)
    ensures offset == 0 && length == 0 && pieceLength > 1 ==> i == 0
    ensures offset == 0 && length == 0 && pieceLength == 1 ==> i == -1
  {
    if length >= 1 then
      LastPieceBounds(offset, length, pieceLength);
      GoDiv(offset + length - 1, pieceLength)
    else
      EmptyLastPiece(pieceLength);
      GoDiv(offset + length - 1, pieceLength)
  }

  lemma LastPieceBounds(offset: int, length: int, pieceLength: int)
    requires offset >= 0 && length >= 1 && pieceLength > 0
    ensures var i := GoDiv(offset + length - 1, pieceLength);
      i * pieceLength <= offset + length - 1 < (i + 1) * pieceLength
      && i >= FirstPieceIndex(offset, pieceLength)
  {
    DivBounds(offset + length - 1, pieceLength);
    DivMonotone(offset, offset + length - 1, pieceLength);
  }

  /** At offset 0 an empty file "ends" at byte -1, which Go's division puts in piece 0
   *  unless pieces are one byte long. */
  lemma EmptyLastPiece(pieceLength: int)
    requires pieceLength > 0
    ensures pieceLength > 1 ==> GoDiv(-1, pieceLength) == 0
    ensures pieceLength == 1 ==> GoDiv(-1, pieceLength) == -1
  {
    if pieceLength > 1 {
      DivBounds(1, pieceLength);
    }
  }

  /** The indices lo, lo+1, ... below hi that are also below numPieces: the pieces
   *  a SetPriority loop with a `pieceIndex < NumPieces()` guard touches. */
  method PiecesToPrioritise(lo: int, hi: int, numPieces: int) returns (ps: seq<int>)
    ensures |ps| == if Min(hi, numPieces) > lo then Min(hi, numPieces) - lo else 0
    ensures forall k :: 0 <= k < |ps| ==> ps[k] == lo + k
    ensures forall p :: p in ps <==> lo <= p < hi && p < numPieces
  {
    ps := [];
    var i := lo;
    while i < hi
      invariant lo <= i || hi <= lo
      invariant i == lo || lo <= i <= hi
      invariant |ps| == if Min(i, numPieces) > lo then Min(i, numPieces) - lo else 0
      invariant forall k :: 0 <= k < |ps| ==> ps[k] == lo + k
      invariant forall p :: p in ps <==> lo <= p < i && p < numPieces
    {
      if i < numPieces {
        ps := ps + [i];
      }
      i := i + 1;
    }
  }

  function Min(a: int, b: int): int { if a < b then a else b }

  /** Piece i exists and is not yet complete. */
  predicate Incomplete(complete: seq<bool>, i: int) {
    0 <= i < |complete| && !complete[i]
  }

  /** Every piece of the head block [first, first + count) that exists is complete. */
  ghost predicate HeadBlockDone(first: int, count: int, complete: seq<bool>) {
    forall i :: first <= i < first + count ==> !Incomplete(complete, i)
  }

  /** The headers check: scans the head block and stops at the first incomplete piece. */
  method HeadersComplete(first: int, count: int, complete: seq<bool>) returns (ok: bool)
    requires first >= 0
    ensures ok <==> HeadBlockDone(first, count, complete)
  {
    ok := true;
    var i := 0;
    while i < count
      invariant 0 <= i <= count || count <= 0
      invariant ok ==> forall j :: first <= j < first + i ==> !Incomplete(complete, j)
      invariant !ok ==> exists j :: first <= j < first + count && Incomplete(complete, j)
    {
      var pieceIndex := first + i;
      if pieceIndex < |complete| {
        if !complete[pieceIndex] {
          assert Incomplete(complete, pieceIndex);
          ok := false;
          break;
        }
      }
      i := i + 1;
    }
  }

  /** piecesToPrioritize: 30 MiB worth of pieces, at least 5. */
  function WindowPieces(pieceLength: int): (n: int)
    requires pieceLength > 0
    ensures n >= 5 && n >= (30 * MiB) / pieceLength
    ensures n == 5 || n == (30 * MiB) / pieceLength
  {
    var n := (30 * MiB) / pieceLength;
    if n < 5 then 5 else n
  }

  /** The window a monitor tick prioritises: pieces start..end, both inclusive. */
  datatype Window = Window(start: int, end: int)

  /**
   * One tick of monitorAndPrioritizePieces: the first incomplete piece of the
   * file's range is the window start; None (every piece complete, or the range
   * runs past the torrent) ends the monitor.
   */
  method PriorityWindow(first: int, last: int, pieceLength: int, complete: seq<bool>)
    returns (w: Option<Window>)
    requires first >= 0 && pieceLength > 0
    ensures w.None? <==> forall i :: first <= i <= last ==> !Incomplete(complete, i)
    ensures w.Some? ==>
      first <= w.value.start <= last && Incomplete(complete, w.value.start)
      && forall i :: first <= i < w.value.start ==> !Incomplete(complete, i)
    ensures w.Some? ==>
      w.value.start <= w.value.end <= last
      && w.value.end == Min(w.value.start + WindowPieces(pieceLength), last)
  {
    var start := -1;
    var i := first;
    while i <= last
      invariant first <= i
      invariant i <= last + 1 || i == first
      invariant start == -1 ==> forall j :: first <= j < i ==> !Incomplete(complete, j)
      invariant start != -1 ==>
        first <= start <= last && Incomplete(complete, start)
        && (forall j :: first <= j < start ==> !Incomplete(complete, j))
      decreases last - i + 1
    {
      if i >= |complete| {
        assert forall j :: i <= j <= last ==> !Incomplete(complete, j);
        break;
      }
      if !complete[i] {
        assert Incomplete(complete, i);
        start := i;
        break;
      }
      i := i + 1;
    }
    if start == -1 {
      w := None;
    } else {
      var end := start + WindowPieces(pieceLength);
      if end > last {
        end := last;
      }
      w := Some(Window(start, end));
    }
  }

  // ---------------------------------------------------------------------
  // Transcode start

  datatype Threshold = Threshold(minBytes: int, minPercent: real)

  /** minBytes / minPercent: smaller for files over 5 GiB, smaller again over 15 GiB. */
  function TranscodeThreshold(totalBytes: int): (t: Threshold)
    ensures totalBytes <= 5 * GiB ==> t == Threshold(20 * MiB, 1.0)
    ensures 5 * GiB < totalBytes <= 15 * GiB ==> t == Threshold(15 * MiB, 0.3)
    ensures totalBytes > 15 * GiB ==> t == Threshold(10 * MiB, 0.1)
  {
    var t := Threshold(20 * MiB, 1.0);
    var t := if totalBytes > 5 * GiB then Threshold(15 * MiB, 0.3) else t;
    if totalBytes > 15 * GiB then Threshold(10 * MiB, 0.1) else t
  }

  /** A larger file never needs more data before transcoding starts. */
  lemma ThresholdMonotone(a: int, b: int)
    requires a <= b
    ensures TranscodeThreshold(b).minBytes <= TranscodeThreshold(a).minBytes
    ensures TranscodeThreshold(b).minPercent <= TranscodeThreshold(a).minPercent
  {
  }

  /** minFileSize: the on-disk size the video file must exceed. */
  function MinFileSize(totalBytes: int): (n: int)
    ensures n == 8 * MiB || n == 10 * MiB
    ensures n == 8 * MiB <==> totalBytes > 10 * GiB
  {
    if totalBytes > 10 * GiB then 8 * MiB else 10 * MiB
  }

  /** A larger file never needs a larger file on disk. */
  lemma MinFileSizeMonotone(a: int, b: int)
    requires a <= b
    ensures MinFileSize(b) <= MinFileSize(a)
  {
  }

  /** The on-disk size to exceed is always below the bytes-downloaded threshold of the same file. */
  lemma MinFileSizeBelowMinBytes(totalBytes: int)
    ensures MinFileSize(totalBytes) < TranscodeThreshold(totalBytes).minBytes
  {
  }

  /** progress = bytes / total * 100 as a float: None for the 0/0 and x/0 cases. */
  function Progress(bytes: int, total: int): (p: Option<real>)
    ensures p.None? <==> total == 0
    ensures p.Some? && 0 <= bytes <= total ==> 0.0 <= p.value <= 100.0
    ensures p.Some? && bytes == total ==> p.value == 100.0
  {
    if total == 0 then None else Some(bytes as real / total as real * 100.0)
  }

  /** progress >= minPercent, with IEEE semantics for a zero total: x/0 is +Inf
   *  (always enough) when x > 0 and NaN (never enough) when x == 0. */
  predicate PercentReached(bytes: int, total: int, minPercent: real) {
    match Progress(bytes, total)
    case None => bytes > 0
    case Some(p) => p >= minPercent
  }

  /** The condition under which a tick starts transcoding. */
  predicate ShouldStartTranscode(headersReady: bool, started: bool, status: Status,
                                 bytes: int, total: int, fileSize: Option<int>, canRead: bool)
  {
    var t := TranscodeThreshold(total);
    headersReady && !started && status == Downloading
    && (PercentReached(bytes, total, t.minPercent) || bytes >= t.minBytes)
    && fileSize.Some? && fileSize.value > MinFileSize(total)
    && canRead
  }

  /** The state downloadAndTranscode's ticker loop keeps. */
  class DownloadMonitor {
    var headersReady: bool
    var transcodeStarted: bool
    var status: Status
    var progress: Option<real>

    constructor ()
      ensures !headersReady && !transcodeStarted && status == Downloading && progress == Some(0.0)
    {
      headersReady := false;
      transcodeStarted := false;
      status := Downloading;
      progress := Some(0.0);
    }

    /** The stream may be marked as failed by another part of the program. */
    method Fail()
      modifies this`status
      ensures status == Error
    {
      status := Error;
    }

    /**
     * One tick: record progress, latch headersReady once the head block is complete,
     * start transcoding when ShouldStartTranscode holds, and report whether the
     * download is finished (the loop then returns).
     */
    method Tick(bytes: int, total: int, first: int, initialPieces: int, complete: seq<bool>,
                fileSize: Option<int>, canRead: bool) returns (done: bool)
      requires first >= 0
      modifies this
      ensures progress == Progress(bytes, total)
      ensures headersReady == (old(headersReady) || HeadBlockDone(first, initialPieces, complete))
      ensures transcodeStarted == (old(transcodeStarted) ||
        ShouldStartTranscode(headersReady, old(transcodeStarted), old(status), bytes, total, fileSize, canRead))
      ensures status == (if transcodeStarted && !old(transcodeStarted) then Transcoding else old(status))
      ensures transcodeStarted && !old(transcodeStarted) ==>
        headersReady && old(status) == Downloading && canRead
      ensures done <==> bytes >= total
    {
      progress := Progress(bytes, total);
      if !headersReady {
        var ok := HeadersComplete(first, initialPieces, complete);
        if ok {
          headersReady := true;
        }
      }
      var t := TranscodeThreshold(total);
      if headersReady && (PercentReached(bytes, total, t.minPercent) || bytes >= t.minBytes)
        && !transcodeStarted && status == Downloading
      {
        if fileSize.Some? && fileSize.value > MinFileSize(total) {
          if canRead {
            transcodeStarted := true;
            status := Transcoding;
          }
        }
      }
      done := bytes >= total;
    }
  }
}

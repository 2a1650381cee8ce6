/**
 * The HTTP handlers of the streaming API (backend/handlers/stream.go).
 * A handler's answer is a Reply: a JSON body with its status code, a file
 * served with its headers, or nothing when the client has gone away.
 * Clock readings are integers in milliseconds. The two waiting loops see
 * the outside world only through a sequence of probes: one per iteration,
 * holding what that iteration observed (the file system, the stream's
 * status, the clock and whether the request was cancelled).
 */
module StreamHandlers {
  import opened Common
  import opened TorrentInput
  import opened StreamRegistry
  import MetadataCache

  // ---------------------------------------------------------------------
  // Replies

  const OK: nat := 200
  const BadRequest: nat := 400
  const NotFound: nat := 404
  const InternalError: nat := 500
  const Unavailable: nat := 503
  const GatewayTimeout: nat := 504

  const InputRequired: string := "Input é obrigatório (magnet link ou hash)"
  const StreamStarted: string := "Stream iniciado com sucesso"
  const StreamNotFound: string := "Stream não encontrado"
  const StreamNotReady: string := "Stream ainda não está pronto"
  const PlaylistNotGenerated: string := "Playlist ainda não gerada"
  const StreamInError: string := "Stream em erro"
  const QualityNotGenerated: string := "Playlist da qualidade ainda não foi gerada"
  const SegmentNotFound: string := "Segmento não encontrado"
  const SegmentAccessError: string := "Erro ao acessar segmento"
  const SegmentTimeout: string := "Timeout aguardando segmento"
  const AlreadyRemoved: string := "Stream já foi removido ou não existe"
  const StreamRemoved: string := "Stream removido com sucesso"

  const PlaylistType: string := "application/vnd.apple.mpegurl"
  const SegmentType: string := "video/mp2t"
  const NoCache: string := "no-cache"
  const SegmentCache: string := "max-age=3600"

  /** The fields of the status endpoint's JSON object. */
  datatype StatusBody = StatusBody(
    id: string,
    status: string,
    progress: Option<real>,
    fileName: string,
    error: string,
    peers: int,
    downloaded: real,
    speed: real,
    qualities: seq<string>,
    sourceWidth: int,
    sourceHeight: int,
    hlsUrl: string)

  datatype Body = Message(text: string) | Created(id: string, message: string) | StreamStatus(info: StatusBody)

  datatype Reply =
    | Json(code: nat, body: Body)
    | File(path: string, contentType: string, cacheControl: string)
    | NoReply

  /** What os.Stat reports about a path. */
  datatype Stat = Present(size: nat) | Missing | StatError

  /** filepath.Join of two elements, without the lexical clean-up of "." and "..". */
  function JoinPath(dir: string, name: string): (p: string)
    ensures dir == "" ==> p == name
    ensures dir != "" ==> StartsWith(p, dir + "/") && EndsWith(p, name) && |p| == |dir| + 1 + |name|
  {
    if dir == "" then name else (dir + "/") + name
  }

  // ---------------------------------------------------------------------
  // StartStream and StopStream

  /**
   * StartStream: a body whose input is missing or empty is refused with 400;
   * otherwise the input is normalised by ParseInput and registered under a fresh id.
   */
  method StartStreamHandler(reg: Registry, cache: MetadataCache.Cache, sha: string -> MetadataCache.Digest,
                            input: Option<string>, id: string, now: int)
    returns (reply: Reply, started: Option<StreamInfo>)
    requires reg.Valid() && cache.Valid() && id != ""
    modifies reg, cache
    ensures reg.Valid() && cache.Valid()
    ensures input.None? || input == Some("") ==>
      reply == Json(BadRequest, Message(InputRequired)) && started.None?
      && reg.streams == old(reg.streams) && cache.entries == old(cache.entries)
    ensures input.Some? && input.value != "" ==>
      started == Some(NewStream(id, ParseInput(input.value), now))
      && reply == Json(OK, Created(id, StreamStarted))
      && cache.entries == MetadataCache.AfterLookup(old(cache.entries),
                                                    MetadataCache.HashMagnetLink(ParseInput(input.value), sha), now)
      && (|old(reg.streams)| < MaxStreams ==> reg.streams == old(reg.streams)[id := started.value])
      && (|old(reg.streams)| >= MaxStreams ==>
            exists k :: Oldest(old(reg.streams), k) && reg.streams == (old(reg.streams) - {k})[id := started.value])
  {
    if input.None? || input.value == "" {
      return Json(BadRequest, Message(InputRequired)), None;
    }
    var magnet := ParseInput(input.value);
    var s := reg.StartStream(cache, sha, id, magnet, now);
    return Json(OK, Created(s.id, StreamStarted)), Some(s);
  }

  /** A non-empty input made only of white space passes the binding and starts a stream with an empty link. */
  lemma BlankInputStartsEmptyLink(input: string)
    requires input != [] && forall i :: 0 <= i < |input| ==> GoIsSpace(input[i])
    ensures ParseInput(input) == ""
  {
    TrimBlank(input, GoIsSpace);
  }

  /** StopStream answers 200 whether or not the stream existed, after which the id is gone. */
  method StopStreamHandler(reg: Registry, id: string) returns (reply: Reply)
    requires reg.Valid()
    modifies reg
    ensures reg.Valid()
    ensures reg.streams == old(reg.streams) - {id} && id !in reg.streams
    ensures reply == Json(OK, Message(if id in old(reg.streams) then StreamRemoved else AlreadyRemoved))
  {
    var found := reg.StopStream(id);
    if !found {
      return Json(OK, Message(AlreadyRemoved));
    }
    return Json(OK, Message(StreamRemoved));
  }

  // ---------------------------------------------------------------------
  // GetStreamStatus

  const ApiPrefix: string := "/api/stream/"
  const MasterName: string := "master.m3u8"

  /** The master playlist URL handed to the player. */
  function HlsUrl(id: string): string {
    ApiPrefix + id + "/" + MasterName
  }

  /** The id the route /api/stream/:id/master.m3u8 extracts from a path, if it matches. */
  function MasterRoute(url: string): (r: Option<string>)
    ensures r.Some? ==> r.value != "" && '/' !in r.value && url == HlsUrl(r.value)
  {
    var tail := "/" + MasterName;
    if |url| > |ApiPrefix| + |tail| && StartsWith(url, ApiPrefix) && EndsWith(url, tail) then
      var id := url[|ApiPrefix|..|url| - |tail|];
      assert url == url[..|ApiPrefix|] + id + url[|url| - |tail|..];
      if '/' in id then None else Some(id)
    else None
  }

  /** The route gives back exactly the ids that contain no slash. */
  lemma MasterRouteOfHlsUrl(id: string)
    ensures MasterRoute(HlsUrl(id)) == Some(id) <==> id != "" && '/' !in id
  {
    var url := HlsUrl(id);
    if id != "" && '/' !in id {
      assert url[|ApiPrefix|..|url| - |"/" + MasterName|] == id;
      assert url[..|ApiPrefix|] == ApiPrefix;
    }
  }

  /**
   * GetStreamStatus: 404 for an unknown id; otherwise 200 with the record's fields, the
   * sampler's statistics and the master playlist URL, whatever the stream's status.
   */
  function GetStreamStatus(stream: Option<StreamInfo>, peers: int, downloaded: real, speed: real): (r: Reply)
    ensures stream.None? <==> r == Json(NotFound, Message(StreamNotFound))
    ensures stream.Some? ==> r.Json? && r.code == OK && r.body.StreamStatus?
    ensures stream.Some? ==> var b := r.body.info;
      b.id == stream.value.id && b.hlsUrl == HlsUrl(stream.value.id)
      && b.status == StatusName(stream.value.status)
      && b.peers == peers && b.downloaded == downloaded && b.speed == speed
  {
    match stream
    case None => Json(NotFound, Message(StreamNotFound))
    case Some(s) =>
      Json(OK, StreamStatus(StatusBody(s.id, StatusName(s.status), s.progress, s.fileName, s.errorText,
        peers, downloaded, speed, s.qualities, s.sourceWidth, s.sourceHeight, HlsUrl(s.id))))
  }

  /**
   * For a registered stream whose id has no slash, the URL the status endpoint hands out
   * routes back to that same stream, and the reported status names its status.
   */
  lemma StatusUrlLeadsBack(reg: Registry, id: string, peers: int, downloaded: real, speed: real)
    requires reg.Valid() && id in reg.streams && '/' !in id
    ensures var r := GetStreamStatus(reg.GetStream(id), peers, downloaded, speed);
      r.Json? && r.body.StreamStatus?
      && MasterRoute(r.body.info.hlsUrl) == Some(id)
      && (forall st :: StatusName(st) == r.body.info.status ==> st == reg.streams[id].status)
  {
    MasterRouteOfHlsUrl(id);
    forall st | StatusName(st) == StatusName(reg.streams[id].status) {
      StatusNameInjective(st, reg.streams[id].status);
    }
  }

  // ---------------------------------------------------------------------
  // GetPlaylist

  /** The statuses in which playlists are served. */
  predicate Servable(s: Status) {
    s == Ready || s == Transcoding
  }

  /**
   * GetPlaylist: 404 for an unknown id, 503 unless the stream is ready or transcoding,
   * 503 when the master playlist does not exist yet; otherwise the file is served (a stat
   * error other than non-existence also reaches the file server).
   */
  function GetPlaylist(stream: Option<StreamInfo>, master: Stat): (r: Reply)
    ensures stream.None? <==> r == Json(NotFound, Message(StreamNotFound))
    ensures r.File? <==> stream.Some? && Servable(stream.value.status) && !master.Missing?
    ensures r.File? ==> r == File(JoinPath(stream.value.hlsPath, MasterName), PlaylistType, NoCache)
    ensures r.Json? && r.code == Unavailable <==>
      stream.Some? && (!Servable(stream.value.status) || master.Missing?)
  {
    match stream
    case None => Json(NotFound, Message(StreamNotFound))
    case Some(s) =>
      if !Servable(s.status) then Json(Unavailable, Message(StreamNotReady))
      else if master.Missing? then Json(Unavailable, Message(PlaylistNotGenerated))
      else File(JoinPath(s.hlsPath, MasterName), PlaylistType, NoCache)
  }

  /** A stream just started is still downloading, so its playlist is refused with 503. */
  lemma NewStreamNotServed(id: string, magnet: string, now: int, master: Stat)
    ensures GetPlaylist(Some(NewStream(id, magnet, now)), master) == Json(Unavailable, Message(StreamNotReady))
  {
  }

  // ---------------------------------------------------------------------
  // GetQualityPlaylist: waiting for a variant playlist

  const QualityWaitMs: nat := 90_000
  const QualityPollMs: nat := 500

  /** One iteration of the wait loop: whether the file exists, the stream's status then, the clock, and whether the request was cancelled during the following pause. */
  datatype QualityProbe = QualityProbe(found: bool, status: Status, now: int, cancelled: bool)

  /** The decision one iteration takes, or None to go on waiting. */
  function QualityStep(p: QualityProbe, deadline: int, path: string): (r: Option<Reply>)
    ensures p.found <==> r == Some(File(path, PlaylistType, NoCache))
    ensures !p.found && p.status == Error <==> r == Some(Json(Unavailable, Message(StreamInError)))
    ensures !p.found && p.status != Error && p.now > deadline <==> r == Some(Json(NotFound, Message(QualityNotGenerated)))
    ensures r.None? <==> !p.found && p.status != Error && p.now <= deadline && !p.cancelled
  {
    if p.found then Some(File(path, PlaylistType, NoCache))
    else if p.status == Error then Some(Json(Unavailable, Message(StreamInError)))
    else if p.now > deadline then Some(Json(NotFound, Message(QualityNotGenerated)))
    else if p.cancelled then Some(NoReply)
    else None
  }

  /** The outcome of a waiting loop: still waiting when the probes run out, or the reply and the iteration that gave it. */
  datatype Wait = Waiting | Done(reply: Reply, at: nat)

  /** The loop from iteration i on: the first iteration that decides gives the reply. */
  function QualityRun(probes: seq<QualityProbe>, deadline: int, path: string, i: nat): (r: Wait)
    requires i <= |probes|
    ensures r.Done? ==> i <= r.at < |probes| && QualityStep(probes[r.at], deadline, path) == Some(r.reply)
    ensures r.Done? ==> forall j :: i <= j < r.at ==> QualityStep(probes[j], deadline, path).None?
    ensures r.Waiting? ==> forall j :: i <= j < |probes| ==> QualityStep(probes[j], deadline, path).None?
    decreases |probes| - i
  {
    if i == |probes| then Waiting
    else match QualityStep(probes[i], deadline, path)
      case Some(reply) => Done(reply, i)
      case None => QualityRun(probes, deadline, path, i + 1)
  }

  /** The wait loop of GetQualityPlaylist. */
  method WaitForQualityPlaylist(probes: seq<QualityProbe>, deadline: int, path: string) returns (w: Wait)
    ensures w == QualityRun(probes, deadline, path, 0)
  {
    var i := 0;
    while i < |probes|
      invariant 0 <= i <= |probes|
      invariant QualityRun(probes, deadline, path, i) == QualityRun(probes, deadline, path, 0)
    {
      var p := probes[i];
      if p.found {
        return Done(File(path, PlaylistType, NoCache), i);
      }
      if p.status == Error {
        return Done(Json(Unavailable, Message(StreamInError)), i);
      }
      if p.now > deadline {
        return Done(Json(NotFound, Message(QualityNotGenerated)), i);
      }
      if p.cancelled {
        return Done(NoReply, i);
      }
      i := i + 1;
    }
    return Waiting;
  }

  /**
   * GetQualityPlaylist: 404 for an unknown id; otherwise the wait loop, with a deadline
   * 90 seconds after the request arrived. None means the loop is still waiting.
   */
  method GetQualityPlaylist(stream: Option<StreamInfo>, quality: string, probes: seq<QualityProbe>, start: int)
    returns (reply: Option<Reply>)
    ensures stream.None? ==> reply == Some(Json(NotFound, Message(StreamNotFound)))
    ensures stream.Some? ==>
      var w := QualityRun(probes, start + QualityWaitMs, JoinPath(JoinPath(stream.value.hlsPath, quality), "playlist.m3u8"), 0);
      (w.Waiting? ==> reply.None?) && (w.Done? ==> reply == Some(w.reply))
  {
    if stream.None? {
      return Some(Json(NotFound, Message(StreamNotFound)));
    }
    var path := JoinPath(JoinPath(stream.value.hlsPath, quality), "playlist.m3u8");
    var w := WaitForQualityPlaylist(probes, start + QualityWaitMs, path);
    if w.Waiting? {
      return None;
    }
    return Some(w.reply);
  }

  /** If iteration k is the first that decides, the loop answers with its decision at k. */
  lemma {:induction false} QualityRunFirst(probes: seq<QualityProbe>, deadline: int, path: string, i: nat, k: nat)
    requires i <= k < |probes|
    requires forall j :: i <= j < k ==> QualityStep(probes[j], deadline, path).None?
    requires QualityStep(probes[k], deadline, path).Some?
    ensures QualityRun(probes, deadline, path, i) == Done(QualityStep(probes[k], deadline, path).value, k)
    decreases k - i
  {
    if i < k {
      QualityRunFirst(probes, deadline, path, i + 1, k);
    }
  }

  /** While the playlist is missing, a stream that turned to error is answered with 503 at once. */
  lemma ErrorAnswers503(probes: seq<QualityProbe>, deadline: int, path: string, k: nat)
    requires k < |probes| && !probes[k].found && probes[k].status == Error
    requires forall j :: 0 <= j < k ==> QualityStep(probes[j], deadline, path).None?
    ensures QualityRun(probes, deadline, path, 0) == Done(Json(Unavailable, Message(StreamInError)), k)
  {
    QualityRunFirst(probes, deadline, path, 0, k);
  }

  /** If iteration b decides whatever came before, the loop has answered by iteration b. */
  lemma {:induction false} QualityRunBy(probes: seq<QualityProbe>, deadline: int, path: string, i: nat, b: nat)
    requires i <= b < |probes|
    requires QualityStep(probes[b], deadline, path).Some?
    ensures QualityRun(probes, deadline, path, i).Done? && QualityRun(probes, deadline, path, i).at <= b
    decreases b - i
  {
    if QualityStep(probes[i], deadline, path).None? {
      QualityRunBy(probes, deadline, path, i + 1, b);
    }
  }

  /**
   * The wait is bounded: when each iteration starts at least 500 ms after the previous one,
   * the loop has answered by its 182nd iteration, the first one past the 90 s deadline.
   */
  lemma QualityWaitEnds(probes: seq<QualityProbe>, start: int, path: string)
    requires |probes| > QualityWaitMs / QualityPollMs + 1
    requires forall k :: 0 <= k < |probes| ==> probes[k].now >= start + QualityPollMs * k
    ensures var w := QualityRun(probes, start + QualityWaitMs, path, 0);
      w.Done? && w.at <= QualityWaitMs / QualityPollMs + 1
  {
    var b := QualityWaitMs / QualityPollMs + 1;
    assert probes[b].now > start + QualityWaitMs;
    QualityRunBy(probes, start + QualityWaitMs, path, 0, b);
  }

  // ---------------------------------------------------------------------
  // waitForStableFile

  const SegmentWaitMs: nat := 30_000
  const StableWindowMs: nat := 200
  const StatPollMs: nat := 100

  /** lastSize (-1 before any observation) and lastStableAt (None for Go's zero time). */
  datatype Tracker = Tracker(lastSize: int, lastStableAt: Option<int>)

  const Untracked: Tracker := Tracker(-1, None)

  /**
   * One iteration of waitForStableFile: whether the request was already cancelled,
   * what os.Stat reported, the clock, and whether the request was cancelled during
   * the following pause.
   */
  datatype SegmentProbe = SegmentProbe(cancelledBefore: bool, stat: Stat, now: int, cancelledAfter: bool)

  datatype SegmentStep = Next(tracker: Tracker) | Settle | GiveUp(reply: Reply)

  /** Why a wait may give up at a probe: the reply matches the observation that caused it. */
  predicate GiveUpCause(p: SegmentProbe, reply: Reply, deadline: int) {
    (reply == Json(NotFound, Message(SegmentNotFound)) ==> p.stat.Missing? && p.now > deadline)
    && (reply == Json(InternalError, Message(SegmentAccessError)) ==> p.stat.StatError?)
    && (reply == Json(GatewayTimeout, Message(SegmentTimeout)) ==> p.stat.Present? && p.now > deadline)
    && (reply == NoReply ==> p.cancelledBefore || p.cancelledAfter)
    && (reply == NoReply || reply == Json(NotFound, Message(SegmentNotFound))
        || reply == Json(InternalError, Message(SegmentAccessError))
        || reply == Json(GatewayTimeout, Message(SegmentTimeout)))
  }

  /** The end of an iteration that observed a size: the deadline, then the pause. */
  function AfterObservation(p: SegmentProbe, t: Tracker, deadline: int): SegmentStep {
    if p.now > deadline then GiveUp(Json(GatewayTimeout, Message(SegmentTimeout)))
    else if p.cancelledAfter then GiveUp(NoReply)
    else Next(t)
  }

  /** One iteration of waitForStableFile from the tracker t. */
  function StableStep(p: SegmentProbe, t: Tracker, deadline: int, window: int): (r: SegmentStep)
    ensures r.GiveUp? ==> GiveUpCause(p, r.reply, deadline)
    ensures !p.cancelledBefore && p.stat.Missing? && p.now > deadline ==>
      r == GiveUp(Json(NotFound, Message(SegmentNotFound)))
    ensures !p.cancelledBefore && p.stat.StatError? ==> r == GiveUp(Json(InternalError, Message(SegmentAccessError)))
    ensures !p.cancelledBefore && p.stat.Present? && p.now > deadline && !r.Settle? ==>
      r == GiveUp(Json(GatewayTimeout, Message(SegmentTimeout)))
  {
    if p.cancelledBefore then GiveUp(NoReply)
    else match p.stat
      case Missing =>
        if p.now > deadline then GiveUp(Json(NotFound, Message(SegmentNotFound)))
        else if p.cancelledAfter then GiveUp(NoReply)
        else Next(t)
      case StatError => GiveUp(Json(InternalError, Message(SegmentAccessError)))
      case Present(size) =>
        if size == t.lastSize then
          var since := if t.lastStableAt.None? then p.now else t.lastStableAt.value;
          if p.now - since >= window then Settle
          else AfterObservation(p, Tracker(t.lastSize, Some(since)), deadline)
        else AfterObservation(p, Tracker(size, None), deadline)
  }

  /** A file is declared stable only when its size repeats one already being timed and the window has passed. */
  lemma StepSettles(p: SegmentProbe, t: Tracker, deadline: int, window: int)
    requires window > 0
    ensures StableStep(p, t, deadline, window) == Settle <==>
      !p.cancelledBefore && p.stat.Present? && p.stat.size == t.lastSize
      && t.lastStableAt.Some? && p.now - t.lastStableAt.value >= window
  {
  }

  /**
   * How an iteration that goes on moves the tracker: a missing file leaves it alone, a new
   * size resets the stability timer, and a repeated size starts the timer if it was not running.
   */
  lemma StepTracking(p: SegmentProbe, t: Tracker, deadline: int, window: int)
    requires StableStep(p, t, deadline, window).Next?
    ensures var u := StableStep(p, t, deadline, window).tracker;
      (!p.stat.Present? ==> u == t)
      && (p.stat.Present? && p.stat.size != t.lastSize ==> u == Tracker(p.stat.size, None))
      && (p.stat.Present? && p.stat.size == t.lastSize ==>
            u.lastSize == t.lastSize && u.lastStableAt == Some(if t.lastStableAt.None? then p.now else t.lastStableAt.value))
  {
  }

  datatype SegmentRun = Watching(tracker: Tracker) | Settled(at: nat) | GaveUp(reply: Reply, at: nat)

  /** The loop from iteration i on with tracker t. */
  function StableRun(probes: seq<SegmentProbe>, deadline: int, window: int, i: nat, t: Tracker): (r: SegmentRun)
    requires i <= |probes|
    ensures r.Settled? ==> i <= r.at < |probes| && probes[r.at].stat.Present?
    ensures r.GaveUp? ==> i <= r.at < |probes| && GiveUpCause(probes[r.at], r.reply, deadline)
    decreases |probes| - i
  {
    if i == |probes| then Watching(t)
    else match StableStep(probes[i], t, deadline, window)
      case Next(u) => StableRun(probes, deadline, window, i + 1, u)
      case Settle => Settled(i)
      case GiveUp(reply) => GaveUp(reply, i)
  }

  /** waitForStableFile: lastSize and lastStableAt are updated probe by probe. */
  method WaitForStableFile(probes: seq<SegmentProbe>, start: int, timeout: int, window: int) returns (r: SegmentRun)
    ensures r == StableRun(probes, start + timeout, window, 0, Untracked)
  {
    var deadline := start + timeout;
    var lastSize: int := -1;
    var lastStableAt: Option<int> := None;
    var i := 0;
    while i < |probes|
      invariant 0 <= i <= |probes|
      invariant StableRun(probes, deadline, window, i, Tracker(lastSize, lastStableAt))
        == StableRun(probes, deadline, window, 0, Untracked)
    {
      var p := probes[i];
      if p.cancelledBefore {
        return GaveUp(NoReply, i);
      }
      if p.stat.StatError? {
        return GaveUp(Json(InternalError, Message(SegmentAccessError)), i);
      }
      if p.stat.Missing? {
        if p.now > deadline {
          return GaveUp(Json(NotFound, Message(SegmentNotFound)), i);
        }
      } else {
        var size := p.stat.size;
        if size == lastSize {
          if lastStableAt.None? {
            lastStableAt := Some(p.now);
          }
          if p.now - lastStableAt.value >= window {
            return Settled(i);
          }
        } else {
          lastSize := size;
          lastStableAt := None;
        }
        if p.now > deadline {
          return GaveUp(Json(GatewayTimeout, Message(SegmentTimeout)), i);
        }
      }
      if p.cancelledAfter {
        return GaveUp(NoReply, i);
      }
      i := i + 1;
    }
    return Watching(Tracker(lastSize, lastStableAt));
  }

  /**
   * GetSegment and GetQualitySegment: 404 for an unknown id; otherwise the segment at the
   * given path below the stream's HLS directory is served once waitForStableFile (30 s,
   * 200 ms window) declares it stable. None means the wait is still going on.
   */
  method ServeSegment(stream: Option<StreamInfo>, relative: string, probes: seq<SegmentProbe>, start: int)
    returns (reply: Option<Reply>)
    ensures stream.None? ==> reply == Some(Json(NotFound, Message(StreamNotFound)))
    ensures stream.Some? ==>
      var w := StableRun(probes, start + SegmentWaitMs, StableWindowMs, 0, Untracked);
      (w.Watching? ==> reply.None?)
      && (w.Settled? ==> reply == Some(File(JoinPath(stream.value.hlsPath, relative), SegmentType, SegmentCache)))
      && (w.GaveUp? ==> reply == Some(w.reply))
  {
    if stream.None? {
      return Some(Json(NotFound, Message(StreamNotFound)));
    }
    var w := WaitForStableFile(probes, start, SegmentWaitMs, StableWindowMs);
    match w {
      case Watching(_) => return None;
      case Settled(_) => return Some(File(JoinPath(stream.value.hlsPath, relative), SegmentType, SegmentCache));
      case GaveUp(r, _) => return Some(r);
    }
  }

  /** Every size observed at positions a through b (inclusive) is s. */
  ghost predicate SameSize(probes: seq<SegmentProbe>, a: int, b: int, s: nat) {
    forall x :: a <= x <= b && 0 <= x < |probes| && probes[x].stat.Present? ==> probes[x].stat.size == s
  }

  /** No size is observed at positions a up to, not including, b. */
  ghost predicate NoSize(probes: seq<SegmentProbe>, a: int, b: int) {
    forall x :: a <= x < b && 0 <= x < |probes| ==> !probes[x].stat.Present?
  }

  /** The timer started before position i and was still running at k. */
  ghost predicate TimedBefore(probes: seq<SegmentProbe>, window: int, i: nat, t: Tracker, k: nat)
    requires k < |probes| && probes[k].stat.Present?
  {
    var s := probes[k].stat.size;
    t.lastStableAt.Some? && t.lastSize == s && SameSize(probes, i, k, s)
    && probes[k].now - t.lastStableAt.value >= window
  }

  /** The timer started at position j (the first repeat), whose size was seen before it at m or in t. */
  ghost predicate TimedFrom(probes: seq<SegmentProbe>, window: int, i: nat, t: Tracker, j: nat, k: nat)
    requires k < |probes| && probes[k].stat.Present?
  {
    var s := probes[k].stat.size;
    i <= j < k && probes[j].stat == probes[k].stat && SameSize(probes, j, k, s)
    && probes[k].now - probes[j].now >= window
    && ((t.lastSize == s && NoSize(probes, i, j))
        || exists m :: i <= m < j && probes[m].stat == probes[k].stat && NoSize(probes, m + 1, j))
  }

  lemma {:induction false} SettledHistory(probes: seq<SegmentProbe>, deadline: int, window: int, i: nat, t: Tracker)
    requires window > 0 && i <= |probes|
    requires StableRun(probes, deadline, window, i, t).Settled?
    ensures var k := StableRun(probes, deadline, window, i, t).at;
      i <= k < |probes| && probes[k].stat.Present?
      && (TimedBefore(probes, window, i, t, k) || exists j: nat :: TimedFrom(probes, window, i, t, j, k))
    decreases |probes| - i
  {
    var k := StableRun(probes, deadline, window, i, t).at;
    var p := probes[i];
    var step := StableStep(p, t, deadline, window);
    if step == Settle {
      StepSettles(p, t, deadline, window);
      assert TimedBefore(probes, window, i, t, k);
    } else {
      var u := step.tracker;
      StepTracking(p, t, deadline, window);
      SettledHistory(probes, deadline, window, i + 1, u);
      var s := probes[k].stat.size;
      if TimedBefore(probes, window, i + 1, u, k) {
        if p.stat.Present? && t.lastStableAt.None? {
          assert TimedFrom(probes, window, i, t, i, k);
        } else {
          assert TimedBefore(probes, window, i, t, k);
        }
      } else {
        var j: nat :| TimedFrom(probes, window, i + 1, u, j, k);
        if u.lastSize == s && NoSize(probes, i + 1, j) && p.stat.Present? {
          assert TimedFrom(probes, window, i, t, j, k) by {
            assert i <= i < j && probes[i].stat == probes[k].stat && NoSize(probes, i + 1, j);
          }
        } else if u.lastSize == s && NoSize(probes, i + 1, j) {
          assert TimedFrom(probes, window, i, t, j, k);
        } else {
          var m :| i + 1 <= m < j && probes[m].stat == probes[k].stat && NoSize(probes, m + 1, j);
          assert TimedFrom(probes, window, i, t, j, k);
        }
      }
    }
  }

  /**
   * waitForStableFile returns true only after the same size has been observed at least three
   * times (at m, j and k, with no other size in between) and the stable window has elapsed
   * between the first repeat j and the final observation k.
   */
  lemma SettledAfterRepeats(probes: seq<SegmentProbe>, deadline: int, window: int)
    requires window > 0
    requires StableRun(probes, deadline, window, 0, Untracked).Settled?
    ensures var k := StableRun(probes, deadline, window, 0, Untracked).at;
      k < |probes| && probes[k].stat.Present?
      && (exists m, j :: 0 <= m < j < k && probes[m].stat == probes[k].stat && probes[j].stat == probes[k].stat
            && SameSize(probes, m, k, probes[k].stat.size) && probes[k].now - probes[j].now >= window)
  {
    var k := StableRun(probes, deadline, window, 0, Untracked).at;
    SettledHistory(probes, deadline, window, 0, Untracked);
    var j: nat :| TimedFrom(probes, window, 0, Untracked, j, k);
    var m :| 0 <= m < j && probes[m].stat == probes[k].stat && NoSize(probes, m + 1, j);
    assert SameSize(probes, m, k, probes[k].stat.size);
  }

  /** A probe at which the loop stops whatever the tracker says. */
  predicate Halts(p: SegmentProbe, deadline: int) {
    p.cancelledBefore || p.stat.StatError? || p.now > deadline
  }

  lemma {:induction false} StableRunBy(probes: seq<SegmentProbe>, deadline: int, window: int, i: nat, t: Tracker, b: nat)
    requires i <= b < |probes| && Halts(probes[b], deadline)
    ensures var r := StableRun(probes, deadline, window, i, t); !r.Watching? && r.at <= b
    decreases b - i
  {
    var step := StableStep(probes[i], t, deadline, window);
    if step.Next? {
      StableRunBy(probes, deadline, window, i + 1, step.tracker, b);
    }
  }

  /**
   * The wait is bounded: when each iteration starts at least 100 ms after the previous one,
   * waitForStableFile has returned by the first iteration past its deadline.
   */
  lemma StableWaitEnds(probes: seq<SegmentProbe>, start: int, timeout: nat, window: int)
    requires |probes| > timeout / StatPollMs + 1
    requires forall k :: 0 <= k < |probes| ==> probes[k].now >= start + StatPollMs * k
    ensures var r := StableRun(probes, start + timeout, window, 0, Untracked);
      !r.Watching? && r.at <= timeout / StatPollMs + 1
  {
    var b := timeout / StatPollMs + 1;
    assert probes[b].now > start + timeout;
    StableRunBy(probes, start + timeout, window, 0, Untracked, b);
  }
}

/**
 * The player page (frontend/src/pages/PlayerPage.jsx): the status poller that keeps
 * asking the backend about a stream until it is told to stop, the start and stop
 * actions, and the helpers that classify speeds, sizes and statuses for display.
 *
 * Each poll is one event: whether the effect had been cancelled when the poll began,
 * what the request produced, and whether it had been cancelled when the answer came.
 * Delays are returned instead of scheduled.
 */
module PlayerPage {
  import opened Common
  import opened StreamRegistry
  import ShakaPlayer

  // ---------------------------------------------------------------------
  // Polling the stream status

  const PollDelayMs: nat := 1000
  const RetryDelayMs: nat := 3000

  /**
   * The fields of a status reply the page reads. A field the reply does not carry is
   * None (speed, downloaded) or "" (status, hlsUrl, where only truthiness matters).
   */
  datatype StatusRecord = StatusRecord(status: string, speed: Option<real>, downloaded: Option<real>, hlsUrl: string)

  /** What a status request produces: a 404, a decoded body, or an exception from fetch or from decoding. */
  datatype Response = NotFound | Body(record: StatusRecord) | Threw

  datatype PollEvent = PollEvent(cancelledBefore: bool, response: Response, cancelledAfter: bool)

  /** Whether another poll is scheduled, and after how long. */
  datatype Next = Stop | After(ms: nat)

  /** The page state the poller writes; hlsUrl "" stands for null. */
  datatype Poll = Poll(status: Option<StatusRecord>, downloadSpeed: real, peakSpeed: real, downloaded: real, hlsUrl: string)

  datatype Step = Step(poll: Poll, next: Next)

  /** A poll whose reply reaches the state setters. */
  predicate Applied(e: PollEvent) {
    !e.cancelledBefore && e.response.Body? && !e.cancelledAfter
  }

  /** A poll after which nothing more is scheduled, whatever the state. */
  predicate Terminal(e: PollEvent) {
    e.cancelledBefore || e.response.NotFound?
    || (e.response.Body? && (e.cancelledAfter || e.response.record.status == "error"))
    || (e.response.Threw? && e.cancelledAfter)
  }

  /** One run of pollStatus. */
  function PollStep(p: Poll, e: PollEvent): (r: Step)
    ensures !Applied(e) ==> r.poll == p
    ensures Applied(e) ==> r.poll.status == Some(e.response.record)
    ensures r.next.Stop? <==> Terminal(e)
    ensures r.next.After? ==> r.next.ms == (if e.response.Threw? then RetryDelayMs else PollDelayMs)
    // the stream URL is adopted once, only from a ready record that carries one
    ensures p.hlsUrl != "" ==> r.poll.hlsUrl == p.hlsUrl
    ensures r.poll.hlsUrl != p.hlsUrl ==>
      Applied(e) && e.response.record.status == "ready" && r.poll.hlsUrl == e.response.record.hlsUrl
    ensures Applied(e) && e.response.record.status == "ready" && p.hlsUrl == "" ==> r.poll.hlsUrl == e.response.record.hlsUrl
    // the peak is the largest speed seen
    ensures r.poll.peakSpeed >= p.peakSpeed
    ensures Applied(e) && e.response.record.speed.Some? ==>
      r.poll.peakSpeed >= e.response.record.speed.value && r.poll.downloadSpeed == e.response.record.speed.value
    ensures r.poll.peakSpeed == p.peakSpeed || (Applied(e) && e.response.record.speed == Some(r.poll.peakSpeed))
  {
    if e.cancelledBefore then Step(p, Stop)
    else
      match e.response
      case NotFound => Step(p, Stop)
      case Threw => Step(p, if e.cancelledAfter then Stop else After(RetryDelayMs))
      case Body(data) =>
        if e.cancelledAfter then Step(p, Stop)
        else
          var speed := if data.speed.Some? then data.speed.value else p.downloadSpeed;
          var peak := if data.speed.Some? && data.speed.value > p.peakSpeed then data.speed.value else p.peakSpeed;
          var downloaded := if data.downloaded.Some? then data.downloaded.value else p.downloaded;
          var url := if data.status == "ready" && data.hlsUrl != "" && p.hlsUrl == "" then data.hlsUrl else p.hlsUrl;
          Step(Poll(Some(data), speed, peak, downloaded, url), if data.status != "error" then After(PollDelayMs) else Stop)
  }

  /** The outcome of a chain of polls: the final state, how many polls ran, and whether the chain stopped. */
  datatype PollRun = PollRun(poll: Poll, polls: nat, stopped: bool)

  /** The polls from event i on, each scheduled by the one before, until one schedules nothing. */
  function Chain(events: seq<PollEvent>, i: nat, p: Poll): (r: PollRun)
    requires i <= |events|
    ensures r.polls <= |events| - i
    ensures !r.stopped ==> r.polls == |events| - i
    ensures r.stopped ==> r.polls >= 1 && Terminal(events[i + r.polls - 1])
    ensures forall j :: i <= j < i + r.polls - 1 ==> !Terminal(events[j])
    decreases |events| - i
  {
    if i == |events| then PollRun(p, 0, false)
    else
      var s := PollStep(p, events[i]);
      if s.next.Stop? then PollRun(s.poll, 1, true)
      else
        var rest := Chain(events, i + 1, s.poll);
        PollRun(rest.poll, rest.polls + 1, rest.stopped)
  }

  /** A 404, an error status or a cancellation ends the chain there: no later poll runs. */
  lemma {:induction false} ChainStopsAtTerminal(events: seq<PollEvent>, i: nat, p: Poll, k: nat)
    requires i <= k < |events| && Terminal(events[k])
    ensures Chain(events, i, p).stopped && Chain(events, i, p).polls <= k - i + 1
    decreases k - i
  {
    var s := PollStep(p, events[i]);
    if i < k && s.next.After? {
      ChainStopsAtTerminal(events, i + 1, s.poll, k);
    }
  }

  /** Once the stream URL is set, no chain of polls changes it. */
  lemma {:induction false} ChainKeepsHlsUrl(events: seq<PollEvent>, i: nat, p: Poll)
    requires i <= |events| && p.hlsUrl != ""
    ensures Chain(events, i, p).poll.hlsUrl == p.hlsUrl
    decreases |events| - i
  {
    if i < |events| {
      var s := PollStep(p, events[i]);
      if s.next.After? {
        ChainKeepsHlsUrl(events, i + 1, s.poll);
      }
    }
  }

  /** The speed a poll reports, if its reply is applied and carries one. */
  predicate ReportsSpeed(e: PollEvent) {
    Applied(e) && e.response.record.speed.Some?
  }

  /**
   * The peak of a run starting from p at event i is at least p's peak and every speed
   * the run applied, and it is p's peak or one of those speeds.
   */
  ghost predicate PeakBounds(r: PollRun, p: Poll, events: seq<PollEvent>, i: nat)
    requires i + r.polls <= |events|
  {
    r.poll.peakSpeed >= p.peakSpeed
    && (forall j :: i <= j < i + r.polls && ReportsSpeed(events[j]) ==> r.poll.peakSpeed >= events[j].response.record.speed.value)
    && (r.poll.peakSpeed == p.peakSpeed
        || exists j: nat :: i <= j < i + r.polls && ReportsSpeed(events[j]) && events[j].response.record.speed.value == r.poll.peakSpeed)
  }

  /** After a chain of polls the peak speed is the largest of the earlier peak and every speed applied. */
  lemma {:induction false} ChainPeak(events: seq<PollEvent>, i: nat, p: Poll)
    requires i <= |events|
    ensures PeakBounds(Chain(events, i, p), p, events, i)
    decreases |events| - i
  {
    if i < |events| {
      var s := PollStep(p, events[i]);
      if s.next.After? {
        ChainPeak(events, i + 1, s.poll);
        var rest := Chain(events, i + 1, s.poll);
        assert PeakBounds(rest, s.poll, events, i + 1);
        var r := Chain(events, i, p);
        assert r.poll == rest.poll && r.polls == rest.polls + 1;
        forall j | i <= j < i + r.polls && ReportsSpeed(events[j])
          ensures r.poll.peakSpeed >= events[j].response.record.speed.value
        {
          if j > i {
            assert i + 1 <= j < i + 1 + rest.polls;
          }
        }
        if r.poll.peakSpeed != p.peakSpeed {
          if rest.poll.peakSpeed == s.poll.peakSpeed {
            assert ReportsSpeed(events[i]) && events[i].response.record.speed.value == r.poll.peakSpeed;
          } else {
            var j: nat :| i + 1 <= j < i + 1 + rest.polls && ReportsSpeed(events[j])
              && events[j].response.record.speed.value == rest.poll.peakSpeed;
            assert i <= j < i + r.polls;
          }
        }
      }
    }
  }

  // ---------------------------------------------------------------------
  // The page

  /** What the start request produces: an id, an error reply (its message, "" when absent), or an exception. */
  datatype StartReply = Started(id: string) | Rejected(message: string) | Unreachable(message: string)

  const StartFailed := "Erro ao iniciar stream"

  class PlayerPageState {
    var streamId: Option<string>
    var status: Option<StatusRecord>
    var loading: bool
    var error: Option<string>
    /** The stream URL handed to the player; "" stands for null. */
    var hlsUrl: string
    var downloadSpeed: real
    var downloaded: real
    var peakSpeed: real

    constructor ()
      ensures streamId.None? && status.None? && !loading && error.None? && hlsUrl == ""
      ensures downloadSpeed == 0.0 && downloaded == 0.0 && peakSpeed == 0.0
    {
      streamId := None;
      status := None;
      loading := false;
      error := None;
      hlsUrl := "";
      downloadSpeed := 0.0;
      downloaded := 0.0;
      peakSpeed := 0.0;
    }

    function Polled(): Poll
      reads this
    {
      Poll(status, downloadSpeed, peakSpeed, downloaded, hlsUrl)
    }

    /** pollStatus: one poll, through the state setters, returning the delay it schedules. */
    method PollStatus(e: PollEvent) returns (next: Next)
      modifies this`status, this`downloadSpeed, this`peakSpeed, this`downloaded, this`hlsUrl
      ensures Polled() == PollStep(old(Polled()), e).poll && next == PollStep(old(Polled()), e).next
    {
      if e.cancelledBefore {
        return Stop;
      }
      match e.response {
        case NotFound =>
          return Stop;
        case Threw =>
          next := if e.cancelledAfter then Stop else After(RetryDelayMs);
        case Body(data) =>
          if e.cancelledAfter {
            return Stop;
          }
          status := Some(data);
          if data.speed.Some? {
            downloadSpeed := data.speed.value;
            if data.speed.value > peakSpeed {
              peakSpeed := data.speed.value;
            }
          }
          if data.downloaded.Some? {
            downloaded := data.downloaded.value;
          }
          if data.status == "ready" && data.hlsUrl != "" && hlsUrl == "" {
            hlsUrl := data.hlsUrl;
          }
          next := if data.status != "error" then After(PollDelayMs) else Stop;
      }
    }

    /** The self-rescheduling poller: polls run one after another until one schedules nothing or the events end. */
    method RunPoller(events: seq<PollEvent>) returns (polls: nat, stopped: bool)
      modifies this`status, this`downloadSpeed, this`peakSpeed, this`downloaded, this`hlsUrl
      ensures PollRun(Polled(), polls, stopped) == Chain(events, 0, old(Polled()))
    {
      var i := 0;
      stopped := false;
      while i < |events| && !stopped
        invariant 0 <= i <= |events|
        invariant !stopped ==> Chain(events, 0, old(Polled())) == Shifted(Chain(events, i, Polled()), i)
        invariant stopped ==> Chain(events, 0, old(Polled())) == PollRun(Polled(), i, true)
        decreases |events| - i
      {
        ghost var before := Polled();
        var next := PollStatus(events[i]);
        ChainUnfold(events, i, before);
        stopped := next.Stop?;
        i := i + 1;
      }
      polls := i;
    }

    /**
     * startStream, up to the request: nothing happens for blank input; otherwise the
     * stream, status, URL and counters are cleared, the player destroyed, and the trimmed
     * input becomes the request.
     */
    method BeginStart(magnetLink: string, player: ShakaPlayer.PlayerComponent?) returns (request: Option<string>)
      requires player != null ==> player.Valid()
      modifies this`loading, this`error, this`status, this`streamId, this`hlsUrl
      modifies this`downloadSpeed, this`peakSpeed, this`downloaded, player
      ensures Trim(magnetLink, JsIsSpace) == [] ==>
        request.None? && unchanged(this) && (player != null ==> unchanged(player))
      ensures Trim(magnetLink, JsIsSpace) != [] ==>
        request == Some(Trim(magnetLink, JsIsSpace)) && loading && error.None? && status.None? && streamId.None?
        && hlsUrl == "" && downloadSpeed == 0.0 && peakSpeed == 0.0 && downloaded == 0.0
      ensures Trim(magnetLink, JsIsSpace) != [] && player != null ==>
        (player.Valid() && player.player.None? && player.engines == old(player.engines) - ShakaPlayer.Bound(old(player.player))
         && player.currentSrc == old(player.currentSrc))
    {
      var input := Trim(magnetLink, JsIsSpace);
      if input == [] {
        return None;
      }
      Reset(player);
      return Some(input);
    }

    /** What startStream clears before sending its request. */
    method Reset(player: ShakaPlayer.PlayerComponent?)
      requires player != null ==> player.Valid()
      modifies this`loading, this`error, this`status, this`streamId, this`hlsUrl
      modifies this`downloadSpeed, this`peakSpeed, this`downloaded, player
      ensures loading && error.None? && status.None? && streamId.None?
      ensures hlsUrl == "" && downloadSpeed == 0.0 && peakSpeed == 0.0 && downloaded == 0.0
      ensures player != null ==>
        (player.Valid() && player.player.None? && player.engines == old(player.engines) - ShakaPlayer.Bound(old(player.player))
         && player.currentSrc == old(player.currentSrc))
    {
      loading := true;
      error := None;
      status := None;
      streamId := None;
      hlsUrl := "";
      downloadSpeed := 0.0;
      peakSpeed := 0.0;
      downloaded := 0.0;
      if player != null {
        player.Destroy();
      }
    }

    /** startStream, after the request: the id is kept, or the error shown; loading ends either way. */
    method FinishStart(reply: StartReply)
      modifies this`streamId, this`error, this`loading
      ensures !loading
      ensures reply.Started? ==> streamId == Some(reply.id) && error == old(error)
      ensures reply.Rejected? ==>
        streamId == old(streamId) && error == Some(if reply.message == "" then StartFailed else reply.message)
      ensures reply.Unreachable? ==> streamId == old(streamId) && error == Some(reply.message)
    {
      match reply {
        case Started(id) =>
          streamId := Some(id);
        case Rejected(message) =>
          error := Some(if message == "" then StartFailed else message);
        case Unreachable(message) =>
          error := Some(message);
      }
      loading := false;
    }

    /** handleStop: with a stream, the player is destroyed and the stream, status and URL are cleared. */
    method HandleStop(player: ShakaPlayer.PlayerComponent?)
      requires player != null ==> player.Valid()
      modifies this`streamId, this`status, this`hlsUrl, player
      ensures old(streamId).None? ==> unchanged(this) && (player != null ==> unchanged(player))
      ensures old(streamId).Some? ==> streamId.None? && status.None? && hlsUrl == ""
      ensures old(streamId).Some? && player != null ==>
        (player.Valid() && player.player.None? && player.engines == old(player.engines) - ShakaPlayer.Bound(old(player.player)))
    {
      if streamId.None? {
        return;
      }
      if player != null {
        player.Destroy();
      }
      streamId := None;
      status := None;
      hlsUrl := "";
    }
  }

  /** A chain result seen from i polls earlier. */
  function Shifted(r: PollRun, i: nat): PollRun {
    PollRun(r.poll, r.polls + i, r.stopped)
  }

  lemma ChainUnfold(events: seq<PollEvent>, i: nat, p: Poll)
    requires i < |events|
    ensures var s := PollStep(p, events[i]);
      Chain(events, i, p) == if s.next.Stop? then PollRun(s.poll, 1, true) else Shifted(Chain(events, i + 1, s.poll), 1)
  {
  }

  // ---------------------------------------------------------------------
  // Display helpers

  datatype Tint = Green | Yellow | Orange | Gray

  /** A figure before toFixed, with its unit and colour. */
  datatype Reading = Reading(amount: real, unit: string, tint: Tint)

  /** formatSpeed on a speed in MB/s. */
  function FormatSpeed(mbps: real): (r: Reading)
    ensures r.unit == "MB/s" <==> mbps >= 1.0
    ensures r.unit != "MB/s" ==> r.unit == "KB/s" && 0.0 <= r.amount < 1024.0
    ensures r.tint == Green <==> mbps >= 1.0
    ensures r.tint == Yellow <==> 0.1 <= mbps < 1.0
    ensures r.tint == Orange <==> 0.0 < mbps < 0.1
    ensures r.tint == Gray <==> mbps <= 0.0
    ensures r.tint != Gray ==> r.amount == (if r.unit == "MB/s" then mbps else mbps * 1024.0)
    ensures r.tint == Gray ==> r.amount == 0.0
  {
    if mbps >= 1.0 then Reading(mbps, "MB/s", Green)
    else if mbps >= 0.1 then Reading(mbps * 1024.0, "KB/s", Yellow)
    else if mbps > 0.0 then Reading(mbps * 1024.0, "KB/s", Orange)
    else Reading(0.0, "KB/s", Gray)
  }

  function TintRank(t: Tint): nat {
    match t
    case Gray => 0
    case Orange => 1
    case Yellow => 2
    case Green => 3
  }

  /** A faster speed never gets a colour lower in the gray, orange, yellow, green order. */
  lemma SpeedTintMonotone(a: real, b: real)
    requires a <= b
    ensures TintRank(FormatSpeed(a).tint) <= TintRank(FormatSpeed(b).tint)
  {
  }

  /** formatSize on a size in MB: gigabytes from 1024 MB on. */
  /** A size as formatSize shows it: an amount and its unit. */
  datatype Size = Size(amount: real, unit: string)

  function FormatSize(mb: real): (r: Size)
    ensures r.unit == "GB" <==> mb >= 1024.0
    ensures r.unit != "GB" ==> r.unit == "MB" && r.amount == mb && r.amount < 1024.0
    ensures r.unit == "GB" ==> r.amount * 1024.0 == mb && r.amount >= 1.0
  {
    if mb >= 1024.0 then Size(mb / 1024.0, "GB") else Size(mb, "MB")
  }

  datatype StatusInfo = StatusInfo(icon: string, caption: string, gradient: string)

  predicate KnownStatus(st: string) {
    st == "downloading" || st == "transcoding" || st == "ready" || st == "error"
  }

  /** getStatusInfo: an entry per known status, otherwise an hourglass labelled with the raw status. */
  function GetStatusInfo(st: string): (r: StatusInfo)
    ensures !KnownStatus(st) ==> r == StatusInfo("\U{23F3}", st, "from-gray-500 to-gray-600")
  {
    if st == "downloading" then StatusInfo("\U{1F4E5}", "Baixando...", "from-blue-500 to-cyan-500")
    else if st == "transcoding" then StatusInfo("\U{26A1}", "Transcodificando...", "from-amber-500 to-orange-500")
    else if st == "ready" then StatusInfo("\U{25B6}\U{FE0F}", "Reproduzindo", "from-green-500 to-emerald-500")
    else if st == "error" then StatusInfo("\U{274C}", "Erro", "from-red-500 to-rose-500")
    else StatusInfo("\U{23F3}", st, "from-gray-500 to-gray-600")
  }

  /** Every status the backend reports has its own entry: none falls back to the hourglass. */
  lemma BackendStatusesKnown(s: Status)
    ensures KnownStatus(StatusName(s))
    ensures GetStatusInfo(StatusName(s)).icon != "\U{23F3}"
  {
  }

  /** Distinct backend statuses are shown with distinct labels. */
  lemma StatusLabelsDistinct(a: Status, b: Status)
    requires GetStatusInfo(StatusName(a)).caption == GetStatusInfo(StatusName(b)).caption
    ensures a == b
  {
    match a {
      case Downloading => assert GetStatusInfo(StatusName(a)).caption[0] == 'B';
      case Transcoding => assert GetStatusInfo(StatusName(a)).caption[0] == 'T';
      case Ready => assert GetStatusInfo(StatusName(a)).caption[0] == 'R';
      case Error => assert GetStatusInfo(StatusName(a)).caption[0] == 'E';
    }
  }
}

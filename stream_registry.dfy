/**
 * The process-wide registry of active streams (backend/torrent/client.go):
 * a map from stream id to stream record bounded by maxStreams, where starting
 * a stream on a full registry first evicts the stream created earliest.
 * Timestamps are integers (nanoseconds); the clock and the uuid generator
 * are parameters.
 */
module StreamRegistry {
  import opened Common
  import MetadataCache

  /** maxStreams in client.go. */
  const MaxStreams: nat := 2

  /** The four values the source stores in StreamInfo.Status. */
  datatype Status = Downloading | Transcoding | Ready | Error

  function StatusName(s: Status): (name: string)
    ensures name != []
  {
    match s
    case Downloading => "downloading"
    case Transcoding => "transcoding"
    case Ready => "ready"
    case Error => "error"
  }

  lemma StatusNameInjective(a: Status, b: Status)
    requires StatusName(a) == StatusName(b)
    ensures a == b
  {
    match a {
      case Downloading => assert StatusName(a)[0] == 'd';
      case Transcoding => assert StatusName(a)[0] == 't';
      case Ready => assert StatusName(a)[0] == 'r';
      case Error => assert StatusName(a)[0] == 'e';
    }
  }

  /** The reported fields of a stream record (progress as a percentage; progress is
   *  None while the video file has length 0, where the source divides 0 by 0). */
  datatype StreamInfo = StreamInfo(
    id: string,
    magnetLink: string,
    status: Status,
    progress: Option<real>,
    createdAt: int,
    fileName: string,
    videoFile: string,
    hlsPath: string,
    errorText: string,
    qualities: seq<string>,
    sourceWidth: int,
    sourceHeight: int)

  /** The record StartStream creates: downloading, progress 0, created now. */
  function NewStream(id: string, magnet: string, now: int): (s: StreamInfo)
    ensures s.id == id && s.magnetLink == magnet && s.createdAt == now
    ensures s.status == Downloading && s.progress == Some(0.0)
    ensures s.fileName == "" && s.videoFile == "" && s.hlsPath == "" && s.errorText == ""
    ensures s.qualities == [] && s.sourceWidth == 0 && s.sourceHeight == 0
  {
    StreamInfo(id, magnet, Downloading, Some(0.0), now, "", "", "", "", [], 0, 0)
  }

  /** k is a key of m whose record was created no later than any other. */
  ghost predicate Oldest(m: map<string, StreamInfo>, k: string) {
    k in m && forall j :: j in m ==> m[k].createdAt <= m[j].createdAt
  }

  /** Every non-empty registry has an oldest entry, so eviction always finds a victim. */
  lemma {:induction false} OldestExists(m: map<string, StreamInfo>)
    requires m != map[]
    ensures exists k :: Oldest(m, k)
    decreases |m|
  {
    var k :| k in m;
    var rest := m - {k};
    if rest == map[] {
      assert m.Keys - {k} == rest.Keys == {};
      assert m.Keys == {k};
      assert Oldest(m, k);
    } else {
      assert |rest| < |m| by {
        assert rest.Keys == m.Keys - {k};
      }
      OldestExists(rest);
      var o :| Oldest(rest, o);
      assert forall j :: j in m ==> j == k || j in rest;
      if m[k].createdAt < m[o].createdAt {
        assert Oldest(m, k);
      } else {
        assert Oldest(m, o);
      }
    }
  }

  class Registry {
    var streams: map<string, StreamInfo>

    /** At most maxStreams entries, each stored under its own id; uuids are never empty. */
    ghost predicate Valid()
      reads this
    {
      |streams| <= MaxStreams
      && "" !in streams
      && forall k :: k in streams ==> streams[k].id == k
    }

    constructor ()
      ensures Valid() && streams == map[]
    {
      streams := map[];
    }

    /**
     * StartStream: first looks the link up in the metadata cache (a hit records an
     * access there); then creates the record; when the registry is full, scans every entry
     * (in an order the caller does not control) keeping the first one whose creation
     * time is strictly earlier than the best so far, removes it, then inserts.
     */
    method StartStream(cache: MetadataCache.Cache, sha: string -> MetadataCache.Digest,
                       id: string, magnet: string, now: int) returns (s: StreamInfo)
      requires Valid() && cache.Valid() && id != ""
      modifies this, cache
      ensures Valid() && cache.Valid()
      ensures cache.entries == MetadataCache.AfterLookup(old(cache.entries), MetadataCache.HashMagnetLink(magnet, sha), now)
      ensures s == NewStream(id, magnet, now)
      ensures |old(streams)| < MaxStreams ==> streams == old(streams)[id := s]
      ensures |old(streams)| >= MaxStreams ==>
        exists k :: Oldest(old(streams), k) && streams == (old(streams) - {k})[id := s]
    {
      var cached := cache.Get(magnet, now, sha);
      s := NewStream(id, magnet, now);
      Insert(s);
    }

    /** Registers s under its id, evicting first, on a full registry, one entry created earliest. */
    method Insert(s: StreamInfo)
      requires Valid() && s.id != ""
      modifies this
      ensures Valid()
      ensures |old(streams)| < MaxStreams ==> streams == old(streams)[s.id := s]
      ensures |old(streams)| >= MaxStreams ==>
        exists k :: Oldest(old(streams), k) && streams == (old(streams) - {k})[s.id := s]
    {
      if |streams| >= MaxStreams {
        var oldestId := "";
        var oldestTime := 0;
        var rest := streams.Keys;
        while rest != {}
          invariant rest <= streams.Keys
          invariant oldestId == "" <==> rest == streams.Keys
          invariant oldestId != "" ==>
            oldestId in streams && oldestId !in rest && oldestTime == streams[oldestId].createdAt
          invariant forall j :: j in streams && j !in rest ==> oldestTime <= streams[j].createdAt
          decreases |rest|
        {
          var k :| k in rest;
          if oldestId == "" || streams[k].createdAt < oldestTime {
            oldestId := k;
            oldestTime := streams[k].createdAt;
          }
          rest := rest - {k};
        }
        if oldestId != "" {
          assert Oldest(streams, oldestId);
          RemoveOne(streams, oldestId);
          streams := streams - {oldestId};
        }
      }
      streams := streams[s.id := s];
    }

    /** GetStream: the record stored under id, if any. */
    function GetStream(id: string): (r: Option<StreamInfo>)
      requires Valid()
      reads this
      ensures r.Some? <==> id in streams
      ensures r.Some? ==> r.value == streams[id] && r.value.id == id
    {
      if id in streams then Some(streams[id]) else None
    }

    /** StopStream: an unknown id is an error and changes nothing; a known id is removed alone. */
    method StopStream(id: string) returns (found: bool)
      requires Valid()
      modifies this
      ensures Valid()
      ensures found <==> id in old(streams)
      ensures !found ==> streams == old(streams)
      ensures found ==> streams == old(streams) - {id} && |streams| == |old(streams)| - 1
    {
      found := id in streams;
      if found {
        RemoveOne(streams, id);
        streams := streams - {id};
      }
    }
  }

  /**
   * The speed-tracking state GetPeerStats keeps on a stream: the byte count and
   * time of the last speed sample (None models Go's zero time) and the last
   * computed speed in MB/s.
   */
  class PeerSampler {
    var hasTorrent: bool
    var lastBytes: int
    var lastSpeedCheck: Option<int>
    var currentSpeed: real

    constructor ()
      ensures !hasTorrent && lastBytes == 0 && lastSpeedCheck == None && currentSpeed == 0.0
    {
      hasTorrent := false;
      lastBytes := 0;
      lastSpeedCheck := None;
      currentSpeed := 0.0;
    }

    /** The torrent is attached once its magnet link has been added to the client. */
    method AttachTorrent()
      modifies this`hasTorrent
      ensures hasTorrent
    {
      hasTorrent := true;
    }

    /**
     * GetPeerStats with the torrent's active peers and bytes read and the clock
     * reading (ns) as inputs. The first sample only records a baseline; later
     * samples recompute the speed when more than half a second has elapsed.
     */
    method GetPeerStats(activePeers: int, currentBytes: int, now: int)
      returns (peers: int, downloaded: real, speed: real)
      modifies this
      ensures hasTorrent == old(hasTorrent)
      ensures !old(hasTorrent) ==>
        peers == 0 && downloaded == 0.0 && speed == 0.0
        && lastBytes == old(lastBytes) && lastSpeedCheck == old(lastSpeedCheck)
        && currentSpeed == old(currentSpeed)
      ensures old(hasTorrent) ==>
        peers == activePeers && downloaded == currentBytes as real / 1048576.0 && speed == currentSpeed
      ensures old(hasTorrent) && old(lastSpeedCheck).None? ==>
        lastBytes == currentBytes && lastSpeedCheck == Some(now) && currentSpeed == old(currentSpeed)
      ensures old(hasTorrent) && old(lastSpeedCheck).Some? && now - old(lastSpeedCheck).value <= 500_000_000 ==>
        lastBytes == old(lastBytes) && lastSpeedCheck == old(lastSpeedCheck) && currentSpeed == old(currentSpeed)
      ensures old(hasTorrent) && old(lastSpeedCheck).Some? && now - old(lastSpeedCheck).value > 500_000_000 ==>
        lastBytes == currentBytes && lastSpeedCheck == Some(now)
        && currentSpeed == SpeedMBps(currentBytes - old(lastBytes), now - old(lastSpeedCheck).value)
    {
      if !hasTorrent {
        return 0, 0.0, 0.0;
      }
      downloaded := currentBytes as real / 1048576.0;
      if lastSpeedCheck.Some? {
        var elapsed := now - lastSpeedCheck.value;
        if elapsed > 500_000_000 {
          currentSpeed := SpeedMBps(currentBytes - lastBytes, elapsed);
          lastBytes := currentBytes;
          lastSpeedCheck := Some(now);
        }
      } else {
        lastBytes := currentBytes;
        lastSpeedCheck := Some(now);
      }
      peers := activePeers;
      speed := currentSpeed;
    }
  }

  /** MB/s over an interval given in nanoseconds. */
  function SpeedMBps(bytesDiff: int, elapsedNs: int): (r: real)
    requires elapsedNs > 0
    ensures bytesDiff >= 0 ==> r >= 0.0
    ensures bytesDiff == 0 ==> r == 0.0
    ensures r * (elapsedNs as real / 1_000_000_000.0) == bytesDiff as real / 1048576.0
  {
    bytesDiff as real / 1048576.0 / (elapsedNs as real / 1_000_000_000.0)
  }
}

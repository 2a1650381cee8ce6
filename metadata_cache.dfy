/**
 * The torrent metadata cache (backend/torrent/cache.go): entries keyed by
 * the torrent's info-hash (or, for links without one, by a SHA-256 prefix of
 * the whole link), lookup statistics, expiry, and the normalisation of the
 * audio tracks ffprobe reports. SHA-256 and the clock are parameters; the
 * JSON file the cache is persisted to is not modelled.
 */
module MetadataCache {
  import opened Common

  // ---------------------------------------------------------------------
  // Keys

  /** A SHA-256 digest: 32 bytes. */
  type Digest = d: seq<byte> | |d| == 32 witness seq(32, _ => 0)

  /**
   * extractInfoHash: the 40 characters after the 20-character
   * "magnet:?xt=urn:btih:" prefix when they are all hexadecimal. The prefix
   * itself is not checked; a link shorter than 60 characters has no hash.
   */
  function ExtractInfoHash(m: string): (h: string)
    ensures |m| < 60 ==> h == ""
    ensures |m| >= 60 && IsHex(m[20..60]) ==> h == m[20..60]
    ensures |m| >= 60 && !IsHex(m[20..60]) ==> h == ""
    ensures h == "" || (|h| == 40 && IsHex(h))
  {
    if |m| < 60 then ""
    else if IsHex(m[20..60]) then m[20..60]
    else ""
  }

  function HexDigit(d: int): (c: char)
    requires 0 <= d < 16
    ensures IsHexChar(c) && !('A' <= c <= 'F')
  {
    if d < 10 then ('0' as int + d) as char else ('a' as int + d - 10) as char
  }

  lemma HexDigitInjective(a: int, b: int)
    requires 0 <= a < 16 && 0 <= b < 16 && HexDigit(a) == HexDigit(b)
    ensures a == b
  {
  }

  /** One byte as two lower-case hexadecimal digits, high nibble first. */
  function HexByte(x: byte): (r: string)
    ensures |r| == 2 && IsHex(r)
  {
    [HexDigit(x / 16), HexDigit(x % 16)]
  }

  /** encoding/hex.EncodeToString: each byte as two lower-case digits. */
  function HexEncode(b: seq<byte>): (r: string)
    ensures |r| == 2 * |b| && IsHex(r)
  {
    if b == [] then "" else HexEncode(b[..|b| - 1]) + HexByte(b[|b| - 1])
  }

  /** Byte i is encoded at offsets 2i and 2i + 1. */
  lemma {:induction false} HexEncodeAt(b: seq<byte>, i: nat)
    requires i < |b|
    ensures HexEncode(b)[2 * i] == HexDigit(b[i] / 16) && HexEncode(b)[2 * i + 1] == HexDigit(b[i] % 16)
  {
    var init := b[..|b| - 1];
    if i < |b| - 1 {
      HexEncodeAt(init, i);
      assert init[i] == b[i];
    }
  }

  /** Distinct byte strings have distinct encodings. */
  lemma HexEncodeInjective(a: seq<byte>, b: seq<byte>)
    requires HexEncode(a) == HexEncode(b)
    ensures a == b
  {
    assert |a| == |b|;
    forall i | 0 <= i < |a| ensures a[i] == b[i] {
      HexEncodeAt(a, i);
      HexEncodeAt(b, i);
      HexDigitInjective(a[i] / 16, b[i] / 16);
      HexDigitInjective(a[i] % 16, b[i] % 16);
    }
  }

  /**
   * HashMagnetLink: the extracted info-hash when there is one, otherwise the hex
   * encoding of the first 16 bytes of the link's SHA-256 digest.
   */
  function HashMagnetLink(m: string, sha: string -> Digest): (key: string)
    ensures ExtractInfoHash(m) != "" ==> key == ExtractInfoHash(m) && |key| == 40
    ensures ExtractInfoHash(m) == "" ==> key == HexEncode(sha(m)[..16]) && |key| == 32
    ensures IsHex(key)
  {
    var h := ExtractInfoHash(m);
    if h != "" then h else HexEncode(sha(m)[..16])
  }

  /**
   * The two kinds of key never collide: links that share a key either carry the
   * same info-hash, or both lack one and share the digest prefix.
   */
  lemma SameKeySameIdentity(a: string, b: string, sha: string -> Digest)
    requires HashMagnetLink(a, sha) == HashMagnetLink(b, sha)
    ensures (ExtractInfoHash(a) != "") <==> (ExtractInfoHash(b) != "")
    ensures ExtractInfoHash(a) != "" ==> ExtractInfoHash(a) == ExtractInfoHash(b)
    ensures ExtractInfoHash(a) == "" ==> sha(a)[..16] == sha(b)[..16]
  {
    if ExtractInfoHash(a) == "" && ExtractInfoHash(b) == "" {
      HexEncodeInjective(sha(a)[..16], sha(b)[..16]);
    }
  }

  // ---------------------------------------------------------------------
  // Languages and audio tracks

  const Languages: map<string, string> := map[
    "por" := "Portugu\U{00EA}s", "pt" := "Portugu\U{00EA}s",
    "eng" := "English", "en" := "English",
    "spa" := "Espa\U{00F1}ol", "es" := "Espa\U{00F1}ol",
    "jpn" := "\U{65E5}\U{672C}\U{8A9E}", "ja" := "\U{65E5}\U{672C}\U{8A9E}",
    "ger" := "Deutsch", "de" := "Deutsch",
    "fre" := "Fran\U{00E7}ais", "fr" := "Fran\U{00E7}ais",
    "ita" := "Italiano", "it" := "Italiano",
    "rus" := "\U{0420}\U{0443}\U{0441}\U{0441}\U{043A}\U{0438}\U{0439}",
    "ru" := "\U{0420}\U{0443}\U{0441}\U{0441}\U{043A}\U{0438}\U{0439}",
    "kor" := "\U{D55C}\U{AD6D}\U{C5B4}", "ko" := "\U{D55C}\U{AD6D}\U{C5B4}",
    "chi" := "\U{4E2D}\U{6587}", "zh" := "\U{4E2D}\U{6587}",
    "ara" := "\U{0627}\U{0644}\U{0639}\U{0631}\U{0628}\U{064A}\U{0629}",
    "ar" := "\U{0627}\U{0644}\U{0639}\U{0631}\U{0628}\U{064A}\U{0629}",
    "hin" := "\U{0939}\U{093F}\U{0928}\U{094D}\U{0926}\U{0940}",
    "hi" := "\U{0939}\U{093F}\U{0928}\U{094D}\U{0926}\U{0940}",
    "und" := "Unknown"
  ]

  /** getLanguageName: the table's name for a known code, the code upper-cased otherwise. */
  function GetLanguageName(code: string): (name: string)
    ensures code in Languages ==> name == Languages[code]
    ensures code !in Languages ==> name == Upper(code)
    ensures code != "" ==> name != ""
  {
    if code in Languages then Languages[code] else Upper(code)
  }

  /** One audio stream of ffprobe's JSON output (index, codec_name, channels, tags). */
  datatype ProbeStream = ProbeStream(index: int, codecName: string, channels: int,
                                     language: string, title: string)

  datatype AudioTrackInfo = AudioTrackInfo(
    index: int,
    streamIndex: int,
    language: string,
    title: string,
    codec: string,
    channels: int,
    isDefault: bool)

  /**
   * The track-building loop of GetAudioTracksInfo. `probe` is None when ffprobe
   * fails or its output does not decode, in which case the function returns nil.
   */
  method NormaliseTracks(probe: Option<seq<ProbeStream>>) returns (tracks: seq<AudioTrackInfo>)
    ensures probe.None? ==> tracks == []
    ensures probe.Some? ==> |tracks| == |probe.value|
    ensures probe.Some? ==> forall i :: 0 <= i < |tracks| ==>
      var s, t := probe.value[i], tracks[i];
      t.index == i && t.streamIndex == s.index && t.codec == s.codecName && t.channels == s.channels
      && t.language == (if s.language == "" then "und" else s.language)
      && t.title == (if s.title == "" then GetLanguageName(t.language) else s.title)
      && (t.isDefault <==> i == 0)
    ensures forall i :: 0 <= i < |tracks| ==> tracks[i].language != "" && tracks[i].title != ""
  {
    if probe.None? {
      return [];
    }
    var streams := probe.value;
    tracks := [];
    var i := 0;
    while i < |streams|
      invariant 0 <= i <= |streams| && |tracks| == i
      invariant forall j :: 0 <= j < i ==>
        var s, t := streams[j], tracks[j];
        t.index == j && t.streamIndex == s.index && t.codec == s.codecName && t.channels == s.channels
        && t.language == (if s.language == "" then "und" else s.language)
        && t.title == (if s.title == "" then GetLanguageName(t.language) else s.title)
        && (t.isDefault <==> j == 0)
      invariant forall j :: 0 <= j < i ==> tracks[j].language != "" && tracks[j].title != ""
    {
      var stream := streams[i];
      var lang := stream.language;
      if lang == "" {
        lang := "und";
      }
      var title := stream.title;
      if title == "" {
        title := GetLanguageName(lang);
      }
      tracks := tracks + [AudioTrackInfo(i, stream.index, lang, title, stream.codecName,
                                         stream.channels, i == 0)];
      i := i + 1;
    }
  }

  // ---------------------------------------------------------------------
  // The cache

  /** A cached record; createdAt None is Go's zero time. Times are nanoseconds. */
  datatype CacheEntry = CacheEntry(
    infoHash: string,
    name: string,
    fileName: string,
    fileSize: int,
    duration: real,
    width: int,
    height: int,
    videoCodec: string,
    audioCodec: string,
    audioTracks: int,
    subtitleTracks: int,
    createdAt: Option<int>,
    lastAccess: int,
    accessCount: int)

  /** An entry has expired when more than maxAge has passed since its last access. */
  predicate Expired(e: CacheEntry, now: int, maxAge: int) {
    now - e.lastAccess > maxAge
  }

  /** The sum of the access counters of the entries of m. */
  ghost function SumAccess(m: map<string, CacheEntry>): int
    decreases |m|
  {
    if m == map[] then 0
    else
      var k :| k in m;
      RemoveOne(m, k);
      m[k].accessCount + SumAccess(m - {k})
  }

  /** SumAccess may peel off any key, not just the one its definition chooses. */
  lemma {:induction false} SumAccessRemove(m: map<string, CacheEntry>, k: string)
    requires k in m
    ensures SumAccess(m) == m[k].accessCount + SumAccess(m - {k})
    decreases |m|
  {
    var j :| j in m && SumAccess(m) == m[j].accessCount + SumAccess(m - {j});
    if j != k {
      RemoveOne(m, j);
      RemoveOne(m, k);
      SumAccessRemove(m - {j}, k);
      SumAccessRemove(m - {k}, j);
      assert m - {j} - {k} == m - {k} - {j};
    }
  }

  /** The entries Cleanup has kept once only the keys in rest remain to be visited. */
  ghost function KeptAfter(m: map<string, CacheEntry>, rest: set<string>, now: int, maxAge: int)
    : map<string, CacheEntry>
  {
    map k | k in m && (k in rest || !Expired(m[k], now, maxAge)) :: m[k]
  }

  /** The keys Cleanup has deleted once only the keys in rest remain to be visited. */
  ghost function GoneAfter(m: map<string, CacheEntry>, rest: set<string>, now: int, maxAge: int)
    : set<string>
  {
    set k | k in m && k !in rest && Expired(m[k], now, maxAge)
  }

  lemma CleanupStep(m: map<string, CacheEntry>, rest: set<string>, k: string, now: int, maxAge: int)
    requires k in rest && rest <= m.Keys
    ensures k in KeptAfter(m, rest, now, maxAge) && KeptAfter(m, rest, now, maxAge)[k] == m[k]
    ensures k !in GoneAfter(m, rest, now, maxAge)
    ensures Expired(m[k], now, maxAge) ==>
      KeptAfter(m, rest - {k}, now, maxAge) == KeptAfter(m, rest, now, maxAge) - {k}
      && GoneAfter(m, rest - {k}, now, maxAge) == GoneAfter(m, rest, now, maxAge) + {k}
    ensures !Expired(m[k], now, maxAge) ==>
      KeptAfter(m, rest - {k}, now, maxAge) == KeptAfter(m, rest, now, maxAge)
      && GoneAfter(m, rest - {k}, now, maxAge) == GoneAfter(m, rest, now, maxAge)
  {
  }

  lemma CleanupDone(m: map<string, CacheEntry>, now: int, maxAge: int)
    ensures KeptAfter(m, {}, now, maxAge)
      == map k | k in m && !Expired(m[k], now, maxAge) :: m[k]
    ensures GoneAfter(m, {}, now, maxAge)
      == set k | k in m && Expired(m[k], now, maxAge)
  {
  }

  /** The entries after a lookup of key at time now: a present key's access count
   *  grows by one and its last access becomes now; nothing else changes. */
  function AfterLookup(entries: map<string, CacheEntry>, key: string, now: int): (r: map<string, CacheEntry>)
    ensures r.Keys == entries.Keys
    ensures forall k :: k in entries && k != key ==> r[k] == entries[k]
    ensures key in entries ==>
      r[key] == entries[key].(lastAccess := now, accessCount := entries[key].accessCount + 1)
  {
    if key in entries
    then entries[key := entries[key].(lastAccess := now, accessCount := entries[key].accessCount + 1)]
    else entries
  }

  class Cache {
    var entries: map<string, CacheEntry>

    /** Every entry is stored under the key recorded in its infoHash field. */
    ghost predicate Valid()
      reads this
    {
      forall k :: k in entries ==> entries[k].infoHash == k
    }

    constructor ()
      ensures Valid() && entries == map[]
    {
      entries := map[];
    }

    /**
     * Get: a hit iff the link's key is present. A hit returns the entry and
     * records the access (counter incremented, last access set to now); the
     * source does that update in a goroutine after returning.
     */
    method Get(magnet: string, now: int, sha: string -> Digest) returns (entry: Option<CacheEntry>)
      requires Valid()
      modifies this
      ensures Valid()
      ensures entry.Some? <==> HashMagnetLink(magnet, sha) in old(entries)
      ensures entry.None? ==> entries == old(entries)
      ensures entry.Some? ==>
        var key := HashMagnetLink(magnet, sha);
        entry.value == old(entries)[key]
        && entries == old(entries)[key := entry.value.(lastAccess := now,
                                                       accessCount := entry.value.accessCount + 1)]
    {
      var key := HashMagnetLink(magnet, sha);
      if key in entries {
        var e := entries[key];
        entry := Some(e);
        entries := entries[key := e.(lastAccess := now, accessCount := e.accessCount + 1)];
      } else {
        entry := None;
      }
    }

    /**
     * Set: stores the entry under the link's key with infoHash set to that key,
     * last access set to now, and creation time set to now only if it was unset.
     */
    method Set(magnet: string, entry: CacheEntry, now: int, sha: string -> Digest)
      requires Valid()
      modifies this
      ensures Valid()
      ensures var key := HashMagnetLink(magnet, sha);
        entries == old(entries)[key := entry.(infoHash := key, lastAccess := now,
          createdAt := if entry.createdAt.None? then Some(now) else entry.createdAt)]
    {
      var key := HashMagnetLink(magnet, sha);
      var e := entry.(infoHash := key, lastAccess := now);
      if e.createdAt.None? {
        e := e.(createdAt := Some(now));
      }
      entries := entries[key := e];
    }

    /**
     * Cleanup: deletes, while ranging over the map, every entry not accessed for
     * more than maxAge, and returns how many it deleted.
     */
    method Cleanup(now: int, maxAge: int) returns (removed: nat)
      requires Valid()
      modifies this
      ensures Valid()
      ensures entries == map k | k in old(entries) && !Expired(old(entries)[k], now, maxAge) :: old(entries)[k]
      ensures removed == |old(entries)| - |entries|
      ensures removed == |set k | k in old(entries) && Expired(old(entries)[k], now, maxAge)|
    {
      ghost var m := entries;
      removed := 0;
      var rest := entries.Keys;
      while rest != {}
        invariant rest <= m.Keys
        invariant entries == KeptAfter(m, rest, now, maxAge)
        invariant removed == |GoneAfter(m, rest, now, maxAge)|
        invariant |entries| == |m| - removed
        decreases |rest|
      {
        var k :| k in rest;
        CleanupStep(m, rest, k, now, maxAge);
        if Expired(entries[k], now, maxAge) {
          RemoveOne(entries, k);
          entries := entries - {k};
          removed := removed + 1;
        }
        rest := rest - {k};
      }
      CleanupDone(m, now, maxAge);
    }

    /** Stats: the number of entries, the sum of their access counters, and the mean. */
    method Stats() returns (total: int, hits: int, avgAccess: real)
      ensures total == |entries| && hits == SumAccess(entries)
      ensures avgAccess == if total > 0 then hits as real / total as real else 0.0
    {
      total := |entries|;
      var totalAccess := 0;
      var rest := entries;
      while rest != map[]
        invariant totalAccess + SumAccess(rest) == SumAccess(entries)
        decreases |rest|
      {
        var k :| k in rest;
        SumAccessRemove(rest, k);
        RemoveOne(rest, k);
        totalAccess := totalAccess + rest[k].accessCount;
        rest := rest - {k};
      }
      hits := totalAccess;
      avgAccess := if total > 0 then totalAccess as real / total as real else 0.0;
    }
  }
}

/**
 * The catalog page (frontend/src/pages/HomePage.jsx): searching titles, gathering the
 * torrent streams the addons offer for a title, ranking them, building the magnet link
 * a chosen stream is played from, and switching addons on and off.
 *
 * Network replies are parameters; encodeURIComponent is a parameter left uninterpreted.
 */
module HomePage {
  import opened Common
  import opened TorrentInput
  import MetadataCache

  // ---------------------------------------------------------------------
  // Stable sorting by a key, largest key first (Array.prototype.sort is stable)

  ghost predicate DescendingBy<T>(s: seq<T>, key: T -> real) {
    forall i, j :: 0 <= i < j < |s| ==> key(s[i]) >= key(s[j])
  }

  /** Inserts x after every element whose key is at least x's. */
  function InsertBy<T>(x: T, s: seq<T>, key: T -> real): (r: seq<T>)
    requires DescendingBy(s, key)
    ensures multiset(r) == multiset(s) + multiset{x} && |r| == |s| + 1
    ensures DescendingBy(r, key)
    decreases |s|
  {
    if s == [] then [x]
    else if key(s[0]) < key(x) then [x] + s
    else
      var rest := InsertBy(x, s[1..], key);
      assert s == [s[0]] + s[1..];
      KeyBelowHead(s, x, rest, key);
      [s[0]] + rest
  }

  lemma KeyBelowHead<T>(s: seq<T>, x: T, rest: seq<T>, key: T -> real)
    requires s != [] && DescendingBy(s, key) && key(x) <= key(s[0]) && DescendingBy(rest, key)
    requires multiset(rest) == multiset(s[1..]) + multiset{x}
    ensures DescendingBy([s[0]] + rest, key)
  {
    forall k | 0 <= k < |rest|
      ensures key(rest[k]) <= key(s[0])
    {
      assert rest[k] in multiset(rest);
      if rest[k] != x {
        assert rest[k] in multiset(s[1..]);
        var m :| 0 <= m < |s[1..]| && s[1..][m] == rest[k];
        assert s[m + 1] == rest[k];
      }
    }
    var r := [s[0]] + rest;
    forall i, j | 0 <= i < j < |r|
      ensures key(r[i]) >= key(r[j])
    {
      if i > 0 {
        assert r[i] == rest[i - 1] && r[j] == rest[j - 1];
      }
    }
  }

  /** An insertion sort that keeps equal keys in their input order. */
  function SortBy<T>(s: seq<T>, key: T -> real): (r: seq<T>)
    ensures multiset(r) == multiset(s) && |r| == |s|
    ensures DescendingBy(r, key)
  {
    if s == [] then []
    else
      var prefix := s[..|s| - 1];
      assert s == prefix + [s[|s| - 1]];
      InsertBy(s[|s| - 1], SortBy(prefix, key), key)
  }

  function Take<T>(s: seq<T>, n: nat): (r: seq<T>)
    ensures |r| == if |s| < n then |s| else n
    ensures r == s[..|r|]
  {
    if |s| < n then s else s[..n]
  }

  // ---------------------------------------------------------------------
  // Searching titles

  /** A catalog title: its ids and its rating (parseFloat of the IMDB rating, 0 when absent or NaN). */
  datatype Title = Title(id: string, imdbId: string, rating: real, isMovie: bool)

  const MaxResults: nat := 20

  datatype SearchOutcome = Ignored | SearchFailed | NoResults | Results(titles: seq<Title>)

  function Rating(t: Title): real { t.rating }

  /**
   * handleSearch: blank queries are ignored; a failed catalog request reports an error;
   * otherwise films then series, ordered by rating from the highest, the first twenty
   * shown, and a message when there are none. A catalog reply is None when its request failed.
   */
  function Search(query: string, movies: Option<seq<Title>>, series: Option<seq<Title>>): (r: SearchOutcome)
    ensures r.Ignored? <==> Trim(query, JsIsSpace) == []
    ensures r.SearchFailed? <==> Trim(query, JsIsSpace) != [] && (movies.None? || series.None?)
    ensures r.NoResults? <==> Trim(query, JsIsSpace) != [] && movies.Some? && series.Some? && movies.value + series.value == []
    ensures r.Results? ==>
      var all := movies.value + series.value;
      1 <= |r.titles| <= MaxResults && DescendingBy(r.titles, Rating)
      && |r.titles| == (if |all| < MaxResults then |all| else MaxResults)
      && multiset(r.titles) <= multiset(all)
      && (|all| <= MaxResults ==> multiset(r.titles) == multiset(all))
      && (forall x, y :: x in multiset(all) - multiset(r.titles) && y in multiset(r.titles) ==> Rating(x) <= Rating(y))
  {
    if Trim(query, JsIsSpace) == [] then Ignored
    else if movies.None? || series.None? then SearchFailed
    else
      var sorted := SortBy(movies.value + series.value, Rating);
      var shown := Take(sorted, MaxResults);
      if shown == [] then NoResults
      else
        TakeOfSorted(sorted, MaxResults, Rating);
        Results(shown)
  }

  /** The first n elements of a descending list are descending, and drawn from it. */
  lemma TakeOfSorted<T>(s: seq<T>, n: nat, key: T -> real)
    requires DescendingBy(s, key)
    ensures DescendingBy(Take(s, n), key)
    ensures multiset(Take(s, n)) <= multiset(s)
    ensures |s| <= n ==> Take(s, n) == s
    ensures forall x, y :: x in multiset(s) - multiset(Take(s, n)) && y in multiset(Take(s, n)) ==> key(x) <= key(y)
  {
    var r := Take(s, n);
    var rest := s[|r|..];
    assert s == r + rest;
    assert multiset(s) == multiset(r) + multiset(rest);
    TailBelowHead(s, |r|, key);
    forall x, y | x in multiset(s) - multiset(r) && y in multiset(r)
      ensures key(x) <= key(y)
    {
      assert x in multiset(rest);
      assert x in rest && y in r;
    }
  }

  lemma TailBelowHead<T>(s: seq<T>, m: nat, key: T -> real)
    requires DescendingBy(s, key) && m <= |s|
    ensures forall x, y :: x in s[m..] && y in s[..m] ==> key(x) <= key(y)
  {
    forall x, y | x in s[m..] && y in s[..m]
      ensures key(x) <= key(y)
    {
      var a :| 0 <= a < |s[m..]| && s[m..][a] == x;
      var b :| 0 <= b < m && s[..m][b] == y;
      assert s[b] == y && s[m + a] == x;
    }
  }

  // ---------------------------------------------------------------------
  // Gathering streams

  /** A stream as an addon lists it; an absent field is "" or, for sources, []. */
  datatype RawStream = RawStream(infoHash: string, url: string, title: string, name: string, sources: seq<string>)

  /** A kept stream, tagged with the addon that listed it. */
  datatype Stream = Stream(raw: RawStream, addonId: string)

  /** What an addon's stream request produces: a listing, or nothing (a non-2xx reply, a timeout or another error). */
  datatype AddonReply = Listed(streams: seq<RawStream>) | NoListing

  const Brazuca := "brazuca"
  const MaxStreams: nat := 30

  predicate KnownAddon(id: string) {
    id == "brazuca" || id == "torrentio" || id == "piratebay"
  }

  /** A stream that can be played: it has an info-hash or a URL mentioning a magnet link. */
  predicate Playable(s: RawStream) {
    s.infoHash != "" || Contains(s.url, "magnet")
  }

  /** The playable streams of one addon's reply, tagged with the addon, in listing order. */
  function AddonStreams(addonId: string, reply: AddonReply): (r: seq<Stream>)
    ensures !KnownAddon(addonId) || reply.NoListing? ==> r == []
    ensures forall k :: 0 <= k < |r| ==>
      r[k].addonId == addonId && Playable(r[k].raw) && reply.Listed? && r[k].raw in reply.streams
    ensures KnownAddon(addonId) && reply.Listed? ==>
      forall k :: 0 <= k < |reply.streams| && Playable(reply.streams[k]) ==> Stream(reply.streams[k], addonId) in r
  {
    if !KnownAddon(addonId) || reply.NoListing? then []
    else Tagged(reply.streams, addonId)
  }

  /** filter then map: the playable listed streams, each as often as listed, tagged with the addon. */
  function Tagged(raw: seq<RawStream>, addonId: string): (r: seq<Stream>)
    ensures |r| <= |raw|
    ensures forall k :: 0 <= k < |r| ==> r[k].addonId == addonId && Playable(r[k].raw) && r[k].raw in raw
    ensures forall k :: 0 <= k < |raw| && Playable(raw[k]) ==> Stream(raw[k], addonId) in r
  {
    if raw == [] then []
    else
      var rest := Tagged(raw[1..], addonId);
      assert forall k :: 1 <= k < |raw| ==> raw[k] == raw[1..][k - 1];
      if Playable(raw[0]) then [Stream(raw[0], addonId)] + rest else rest
  }

  /** The filter keeps listing order: tagging a concatenation concatenates the tagged parts. */
  lemma {:induction false} TaggedConcat(a: seq<RawStream>, b: seq<RawStream>, addonId: string)
    ensures Tagged(a + b, addonId) == Tagged(a, addonId) + Tagged(b, addonId)
  {
    if a != [] {
      var ab := a + b;
      assert ab[0] == a[0] && ab[1..] == a[1..] + b;
      TaggedConcat(a[1..], b, addonId);
      var head := if Playable(a[0]) then [Stream(a[0], addonId)] else [];
      assert Tagged(ab, addonId) == head + Tagged(ab[1..], addonId);
      assert Tagged(a, addonId) == head + Tagged(a[1..], addonId);
    } else {
      assert a + b == b;
    }
  }

  /** Each playable stream is kept exactly as often as it is listed, and nothing else is kept. */
  lemma {:induction false} TaggedCount(raw: seq<RawStream>, addonId: string, x: RawStream)
    ensures multiset(Tagged(raw, addonId))[Stream(x, addonId)] == if Playable(x) then multiset(raw)[x] else 0
  {
    if raw != [] {
      TaggedCount(raw[1..], addonId, x);
      assert raw == [raw[0]] + raw[1..];
      assert multiset(raw)[x] == multiset([raw[0]])[x] + multiset(raw[1..])[x];
      var rest := Tagged(raw[1..], addonId);
      if Playable(raw[0]) {
        assert Tagged(raw, addonId) == [Stream(raw[0], addonId)] + rest;
        assert multiset(Tagged(raw, addonId))[Stream(x, addonId)]
          == multiset([Stream(raw[0], addonId)])[Stream(x, addonId)] + multiset(rest)[Stream(x, addonId)];
      } else {
        assert Tagged(raw, addonId) == rest;
        assert raw[0] == x ==> !Playable(x);
      }
    }
  }

  /** The streams of a known addon's listing: each playable one exactly as often as listed. */
  lemma AddonStreamsCount(addonId: string, streams: seq<RawStream>, x: RawStream)
    requires KnownAddon(addonId)
    ensures multiset(AddonStreams(addonId, Listed(streams)))[Stream(x, addonId)]
      == if Playable(x) then multiset(streams)[x] else 0
  {
    TaggedCount(streams, addonId, x);
  }

  /** An addon's streams come in the order it listed them. */
  lemma AddonStreamsConcat(addonId: string, a: seq<RawStream>, b: seq<RawStream>)
    ensures AddonStreams(addonId, Listed(a + b)) == AddonStreams(addonId, Listed(a)) + AddonStreams(addonId, Listed(b))
  {
    TaggedConcat(a, b, addonId);
  }

  /** The streams of every addon's reply, in the order the addons are listed. */
  function Gathered(addons: seq<string>, replies: seq<AddonReply>): seq<Stream>
    requires |replies| == |addons|
  {
    if addons == [] then []
    else Gathered(addons[..|addons| - 1], replies[..|replies| - 1]) + AddonStreams(addons[|addons| - 1], replies[|replies| - 1])
  }

  /** The title lower-cased for ranking: its title, else its name, else "". */
  function RankedText(s: Stream): string {
    Lower(if s.raw.title != "" then s.raw.title else s.raw.name)
  }

  /** The quality labels with their ranks, in the order they are tried. */
  const QualityOrder: seq<(string, nat)> := [("4k", 4), ("2160p", 4), ("1080p", 3), ("720p", 2), ("480p", 1)]

  /** getQuality: the rank of the first label the text contains, or 0 when it contains none. */
  function QualityRank(text: string): (r: nat)
    ensures r <= 4
    ensures r == 4 <==> Contains(text, "4k") || Contains(text, "2160p")
    ensures r == 3 <==> !Contains(text, "4k") && !Contains(text, "2160p") && Contains(text, "1080p")
    ensures r == 2 <==> !Contains(text, "4k") && !Contains(text, "2160p") && !Contains(text, "1080p") && Contains(text, "720p")
    ensures r == 0 <==> forall q :: 0 <= q < |QualityOrder| ==> !Contains(text, QualityOrder[q].0)
  {
    RankFrom(text, 0)
  }

  function RankFrom(text: string, i: nat): (r: nat)
    requires i <= |QualityOrder|
    ensures r == 0 <==> forall q :: i <= q < |QualityOrder| ==> !Contains(text, QualityOrder[q].0)
    ensures r != 0 ==> exists q :: (i <= q < |QualityOrder| && Contains(text, QualityOrder[q].0) && r == QualityOrder[q].1
        && forall p :: i <= p < q ==> !Contains(text, QualityOrder[p].0))
    decreases |QualityOrder| - i
  {
    if i == |QualityOrder| then 0
    else if Contains(text, QualityOrder[i].0) then QualityOrder[i].1
    else RankFrom(text, i + 1)
  }

  function Rank(s: Stream): nat {
    QualityRank(RankedText(s))
  }

  /** The comparator passed to sort: brazuca streams first, then the higher rank first. */
  function Compare(a: Stream, b: Stream): int {
    if a.addonId == Brazuca && b.addonId != Brazuca then -1
    else if b.addonId == Brazuca && a.addonId != Brazuca then 1
    else Rank(b) - Rank(a)
  }

  /** A single key that orders streams as the comparator does. */
  function Score(s: Stream): real {
    (if s.addonId == Brazuca then 5 else 0) as real + Rank(s) as real
  }

  /** The comparator puts a first exactly when a scores higher, so sorting by it is sorting by score. */
  lemma CompareIsScoreOrder(a: Stream, b: Stream)
    ensures Compare(a, b) < 0 <==> Score(a) > Score(b)
    ensures Compare(a, b) == 0 <==> Score(a) == Score(b)
  {
    assert Rank(a) <= 4 && Rank(b) <= 4;
  }

  /** Stream listings ordered as sort with the comparator orders them, capped at thirty. */
  function Ranked(all: seq<Stream>): (r: seq<Stream>)
    ensures |r| == if |all| < MaxStreams then |all| else MaxStreams
    ensures multiset(r) <= multiset(all)
    ensures |all| <= MaxStreams ==> multiset(r) == multiset(all)
    ensures DescendingBy(r, Score)
    ensures forall x, y :: x in multiset(all) - multiset(r) && y in multiset(r) ==> Score(x) <= Score(y)
  {
    var sorted := SortBy(all, Score);
    TakeOfSorted(sorted, MaxStreams, Score);
    Take(sorted, MaxStreams)
  }

  /** In the ranked list every brazuca stream comes before every other stream. */
  lemma BrazucaFirst(all: seq<Stream>, i: nat, j: nat)
    requires i < j < |Ranked(all)| && Ranked(all)[j].addonId == Brazuca
    ensures Ranked(all)[i].addonId == Brazuca
  {
    var r := Ranked(all);
    assert Rank(r[i]) <= 4;
  }

  /** Among streams of the same group, a higher rank comes first. */
  lemma HigherRankFirst(all: seq<Stream>, i: nat, j: nat)
    requires i < j < |Ranked(all)|
    requires (Ranked(all)[i].addonId == Brazuca) == (Ranked(all)[j].addonId == Brazuca)
    ensures Rank(Ranked(all)[i]) >= Rank(Ranked(all)[j])
  {
    var r := Ranked(all);
    assert Score(r[i]) >= Score(r[j]);
  }

  /** An item whose IMDB id (imdb_id, else id) leads to the addons: present and starting with "tt". */
  function ImdbIdOf(imdbIdField: string, id: string): (r: Option<string>)
    ensures r.Some? <==> StartsWith(if imdbIdField != "" then imdbIdField else id, "tt")
    ensures r.Some? ==> r.value == (if imdbIdField != "" then imdbIdField else id)
  {
    var imdbId := if imdbIdField != "" then imdbIdField else id;
    if StartsWith(imdbId, "tt") then Some(imdbId) else None
  }

  datatype StreamsOutcome = NoImdbId | NoneFound | Found(streams: seq<Stream>)

  /**
   * fetchStreams: without an IMDB id starting with "tt" no addon is asked; otherwise the
   * replies of the active addons (in their order) are pushed into one list, which is
   * ranked and capped, or reported empty.
   */
  method FetchStreams(imdbIdField: string, id: string, activeAddons: seq<string>, replies: seq<AddonReply>)
    returns (outcome: StreamsOutcome)
    requires |replies| == |activeAddons|
    ensures ImdbIdOf(imdbIdField, id).None? <==> outcome.NoImdbId?
    ensures ImdbIdOf(imdbIdField, id).Some? ==>
      outcome == (if Gathered(activeAddons, replies) == [] then NoneFound else Found(Ranked(Gathered(activeAddons, replies))))
  {
    if ImdbIdOf(imdbIdField, id).None? {
      return NoImdbId;
    }
    var allStreams: seq<Stream> := [];
    for i := 0 to |activeAddons|
      invariant allStreams == Gathered(activeAddons[..i], replies[..i])
    {
      assert activeAddons[..i + 1][..i] == activeAddons[..i];
      assert replies[..i + 1][..i] == replies[..i];
      allStreams := allStreams + AddonStreams(activeAddons[i], replies[i]);
    }
    assert activeAddons[..|activeAddons|] == activeAddons && replies[..|replies|] == replies;
    assert allStreams == Gathered(activeAddons, replies);
    if |allStreams| > 0 {
      outcome := Found(Ranked(allStreams));
    } else {
      outcome := NoneFound;
    }
  }

  /** Every stream gathered was listed by one of the active addons and is playable. */
  lemma {:induction false} GatheredFromActive(addons: seq<string>, replies: seq<AddonReply>, k: nat)
    requires |replies| == |addons| && k < |Gathered(addons, replies)|
    ensures Gathered(addons, replies)[k].addonId in addons && KnownAddon(Gathered(addons, replies)[k].addonId)
    ensures Playable(Gathered(addons, replies)[k].raw)
    ensures exists a :: (0 <= a < |addons| && addons[a] == Gathered(addons, replies)[k].addonId
      && replies[a].Listed? && Gathered(addons, replies)[k].raw in replies[a].streams)
    decreases |addons|
  {
    var front := Gathered(addons[..|addons| - 1], replies[..|replies| - 1]);
    var g := Gathered(addons, replies)[k];
    if k < |front| {
      GatheredFromActive(addons[..|addons| - 1], replies[..|replies| - 1], k);
      var a :| (0 <= a < |addons| - 1 && addons[..|addons| - 1][a] == g.addonId
        && replies[..|replies| - 1][a].Listed? && g.raw in replies[..|replies| - 1][a].streams);
      assert addons[a] == g.addonId && replies[a] == replies[..|replies| - 1][a];
    } else {
      assert g == AddonStreams(addons[|addons| - 1], replies[|replies| - 1])[k - |front|];
    }
  }

  // ---------------------------------------------------------------------
  // Playing a stream

  /** The trackers' "&tr=" parameters, each source encoded. */
  function Encoded(sources: seq<string>, encode: string -> string): (r: seq<string>)
    ensures |r| == |sources| && forall k :: 0 <= k < |sources| ==> r[k] == encode(sources[k])
  {
    seq(|sources|, k requires 0 <= k < |sources| => encode(sources[k]))
  }

  lemma EncodedPush(sources: seq<string>, i: nat, encode: string -> string)
    requires i < |sources|
    ensures Encoded(sources[..i + 1], encode) == Encoded(sources[..i], encode) + [encode(sources[i])]
  {
  }

  lemma {:induction false} TrackerParamsAppend(ts: seq<string>, t: string)
    ensures TrackerParams(ts + [t]) == TrackerParams(ts) + "&tr=" + t
  {
    if ts == [] {
      assert [] + [t] == [t];
    } else {
      assert (ts + [t])[1..] == ts[1..] + [t];
      TrackerParamsAppend(ts[1..], t);
    }
  }

  /** The link a stream is played from: a magnet link from its info-hash and sources, else its URL. */
  function PlayLink(s: RawStream, encode: string -> string): string {
    if s.infoHash != "" then BtihPrefix + s.infoHash + TrackerParams(Encoded(s.sources, encode))
    else s.url
  }

  /** playStream: the magnet link is built piece by piece; with a link the player page is opened on it. */
  method PlayStream(s: RawStream, encode: string -> string) returns (navigation: Option<string>)
    ensures navigation.Some? <==> PlayLink(s, encode) != ""
    ensures navigation.Some? ==> navigation.value == "/player?magnet=" + encode(PlayLink(s, encode))
  {
    var magnetLink := "";
    if s.infoHash != "" {
      magnetLink := BtihPrefix + s.infoHash;
      for i := 0 to |s.sources|
        invariant magnetLink == BtihPrefix + s.infoHash + TrackerParams(Encoded(s.sources[..i], encode))
      {
        EncodedPush(s.sources, i, encode);
        TrackerParamsAppend(Encoded(s.sources[..i], encode), encode(s.sources[i]));
        magnetLink := magnetLink + "&tr=" + encode(s.sources[i]);
      }
      assert s.sources[..|s.sources|] == s.sources;
    } else if s.url != "" {
      magnetLink := s.url;
    }
    if magnetLink != "" {
      navigation := Some("/player?magnet=" + encode(magnetLink));
    } else {
      navigation := None;
    }
  }

  /**
   * A link built from a 40-digit hexadecimal info-hash is a magnet link whose hash the
   * backend's extractInfoHash finds, so the metadata cache keys it by that hash.
   */
  lemma PlayLinkCarriesHash(s: RawStream, encode: string -> string)
    requires IsInfoHash(s.infoHash)
    ensures StartsWith(PlayLink(s, encode), MagnetScheme)
    ensures MetadataCache.ExtractInfoHash(PlayLink(s, encode)) == s.infoHash
  {
    var m := PlayLink(s, encode);
    assert m[20..60] == s.infoHash;
    assert m[..7] == MagnetScheme;
  }

  // ---------------------------------------------------------------------
  // Switching addons

  /** The toggle: an active addon is removed (every occurrence), an inactive one appended. */
  function Toggle(active: seq<string>, id: string): (r: seq<string>)
    ensures id in r <==> id !in active
    ensures forall x :: x != id ==> (x in r <==> x in active)
    ensures id !in active ==> r == active + [id]
    ensures id in active ==> multiset(r) == multiset(active)[id := 0]
  {
    if id in active then Without(active, id) else active + [id]
  }

  /** filter(a => a !== id): every other entry kept, as often as it occurs. */
  function Without(s: seq<string>, id: string): (r: seq<string>)
    ensures id !in r && forall x :: x != id ==> (x in r <==> x in s)
    ensures multiset(r) == multiset(s)[id := 0]
    ensures id !in s ==> r == s
  {
    if s == [] then []
    else
      assert s == [s[0]] + s[1..];
      if s[0] == id then Without(s[1..], id)
      else [s[0]] + Without(s[1..], id)
  }

  /** The filter keeps the order of the remaining entries. */
  lemma {:induction false} WithoutConcat(a: seq<string>, b: seq<string>, id: string)
    ensures Without(a + b, id) == Without(a, id) + Without(b, id)
  {
    if a != [] {
      var ab := a + b;
      assert ab[0] == a[0] && ab[1..] == a[1..] + b;
      WithoutConcat(a[1..], b, id);
      if a[0] == id {
        assert Without(ab, id) == Without(ab[1..], id);
        assert Without(a, id) == Without(a[1..], id);
      } else {
        assert Without(ab, id) == [a[0]] + Without(ab[1..], id);
        assert Without(a, id) == [a[0]] + Without(a[1..], id);
      }
    } else {
      assert a + b == b;
    }
  }

  /** Toggling an addon twice restores the set of active addons. */
  lemma ToggleTwiceSameSet(active: seq<string>, id: string)
    ensures forall x :: x in Toggle(Toggle(active, id), id) <==> x in active
  {
  }

  /** Toggling an inactive addon twice restores the list exactly. */
  lemma ToggleTwiceInactive(active: seq<string>, id: string)
    requires id !in active
    ensures Toggle(Toggle(active, id), id) == active
  {
    WithoutAppended(active, id);
  }

  lemma {:induction false} WithoutAppended(s: seq<string>, id: string)
    requires id !in s
    ensures Without(s + [id], id) == s
  {
    if s == [] {
      assert [] + [id] == [id];
    } else {
      assert (s + [id])[1..] == s[1..] + [id];
      WithoutAppended(s[1..], id);
    }
  }

  predicate NoDuplicates(s: seq<string>) {
    forall i, j :: 0 <= i < j < |s| ==> s[i] != s[j]
  }

  /** A list of active addons without duplicates keeps none after a toggle. */
  lemma ToggleKeepsNoDuplicates(active: seq<string>, id: string)
    requires NoDuplicates(active)
    ensures NoDuplicates(Toggle(active, id))
  {
    if id in active {
      WithoutKeepsNoDuplicates(active, id);
    }
  }

  lemma {:induction false} WithoutKeepsNoDuplicates(s: seq<string>, id: string)
    requires NoDuplicates(s)
    ensures NoDuplicates(Without(s, id))
  {
    if s != [] {
      assert NoDuplicates(s[1..]) by {
        forall i, j | 0 <= i < j < |s[1..]| ensures s[1..][i] != s[1..][j] {
          assert s[1..][i] == s[i + 1] && s[1..][j] == s[j + 1];
        }
      }
      WithoutKeepsNoDuplicates(s[1..], id);
      if s[0] != id {
        var rest := Without(s[1..], id);
        assert s[0] !in s[1..] by {
          forall k | 0 <= k < |s[1..]| ensures s[1..][k] != s[0] {
            assert s[1..][k] == s[k + 1];
          }
        }
        assert s[0] !in rest;
        var r := [s[0]] + rest;
        forall i, j | 0 <= i < j < |r| ensures r[i] != r[j] {
          if i == 0 {
            assert r[j] == rest[j - 1];
          } else {
            assert r[i] == rest[i - 1] && r[j] == rest[j - 1];
          }
        }
      }
    }
  }

  /** An active addon toggled off and on again moves to the end of the list. */
  lemma ToggleTwiceMovesToEnd()
    ensures Toggle(Toggle(["brazuca", "torrentio", "piratebay"], "brazuca"), "brazuca") == ["torrentio", "piratebay", "brazuca"]
  {
    var start := ["brazuca", "torrentio", "piratebay"];
    assert "brazuca" in start;
    assert "torrentio" != "brazuca" && "piratebay" != "brazuca";
    assert Without(start, "brazuca") == ["torrentio", "piratebay"] by {
      assert start[1..] == ["torrentio", "piratebay"];
      assert Without(["piratebay"], "brazuca") == ["piratebay"];
    }
  }
}

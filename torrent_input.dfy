/**
 * Input normalisation of the torrent client (backend/torrent/client.go):
 * a user may paste either a magnet URI or a bare 40-character BitTorrent
 * info-hash; the latter is turned into a magnet URI of the form given by
 * BEP 9 ("xt=urn:btih:" exact topic followed by "tr=" tracker parameters).
 */
module TorrentInput {
  import opened Common

  const MagnetScheme: string := "magnet:"

  /** Exactly 20 characters: the info-hash of a normalised link starts at offset 20. */
  const BtihPrefix: string := "magnet:?xt=urn:btih:"

  /** The trackers appended to a bare info-hash, in the order they are appended. */
  const Trackers: seq<string> := [
    "udp://tracker.opentrackr.org:1337/announce",
    "udp://open.demonii.com:1337/announce",
    "udp://tracker.openbittorrent.com:6969/announce",
    "udp://exodus.desync.com:6969/announce"
  ]

  /** A bare info-hash: 40 hexadecimal characters (isHex plus the length test). */
  predicate IsInfoHash(s: string) {
    |s| == 40 && IsHex(s)
  }

  /** One "&tr=" parameter per tracker, in list order. */
  function TrackerParams(trackers: seq<string>): (r: string)
    ensures r == "" <==> trackers == []
  {
    if trackers == [] then "" else "&tr=" + trackers[0] + TrackerParams(trackers[1..])
  }

  /** At least four characters per tracker, starting with the first tracker's parameter. */
  lemma {:induction false} TrackerParamsShape(trackers: seq<string>)
    ensures |TrackerParams(trackers)| >= 4 * |trackers|
    ensures trackers != [] ==> StartsWith(TrackerParams(trackers), "&tr=" + trackers[0])
  {
    if trackers != [] {
      TrackerParamsShape(trackers[1..]);
      var rest := TrackerParams(trackers[1..]);
      assert TrackerParams(trackers) == ("&tr=" + trackers[0]) + rest;
    }
  }

  /**
   * ParseInput trims the input with Go's white-space class; a trimmed input that is a bare
   * info-hash becomes a magnet link, anything else (including every magnet link) is
   * returned trimmed and otherwise unchanged.
   */
  function ParseInput(input: string): (r: string)
    ensures !IsInfoHash(Trim(input, GoIsSpace)) ==> r == Trim(input, GoIsSpace)
    ensures StartsWith(Trim(input, GoIsSpace), MagnetScheme) ==> r == Trim(input, GoIsSpace)
    ensures IsInfoHash(Trim(input, GoIsSpace)) ==>
      r == BtihPrefix + Trim(input, GoIsSpace) + TrackerParams(Trackers)
  {
    var t := Trim(input, GoIsSpace);
    if StartsWith(t, MagnetScheme) then MagnetIsNoHash(t); t
    else if IsInfoHash(t) then BtihPrefix + t + TrackerParams(Trackers)
    else t
  }

  /** "m" is no hexadecimal digit, so no magnet link is a bare hash. */
  lemma MagnetIsNoHash(t: string)
    requires StartsWith(t, MagnetScheme)
    ensures !IsInfoHash(t)
  {
    assert t[0] == t[..7][0] == 'm';
  }

  /** The exact suffix ParseInput appends to a bare hash: the four trackers, in list order. */
  lemma TrackerSuffixSpelledOut()
    ensures TrackerParams(Trackers) ==
      "&tr=" + Trackers[0] + "&tr=" + Trackers[1] + "&tr=" + Trackers[2] + "&tr=" + Trackers[3]
  {
    assert Trackers[3..][1..] == [];
    assert Trackers[2..][1..] == Trackers[3..];
    assert TrackerParams(Trackers[2..]) == "&tr=" + Trackers[2] + "&tr=" + Trackers[3];
    assert Trackers[1..][1..] == Trackers[2..];
  }

  /** The last character of the "&tr=" parameters is that of the last tracker. */
  lemma {:induction false} TrackerParamsLast(trackers: seq<string>)
    requires trackers != [] && trackers[|trackers| - 1] != []
    ensures var r := TrackerParams(trackers);
      r != [] && r[|r| - 1] == trackers[|trackers| - 1][|trackers[|trackers| - 1]| - 1]
    decreases |trackers|
  {
    if |trackers| > 1 {
      TrackerParamsLast(trackers[1..]);
    }
  }

  /** The magnet link built from a bare hash carries the hash at offsets [20, 60). */
  lemma HashMagnetLayout(hash: string)
    requires IsInfoHash(hash)
    ensures var m := ParseInput(hash);
      |m| >= 60 && StartsWith(m, BtihPrefix) && m[20..60] == hash
  {
    assert hash == [] || (!GoIsSpace(hash[0]) && !GoIsSpace(hash[|hash| - 1]));
    TrimOfTrimmed(hash, GoIsSpace);
    var m := BtihPrefix + hash + TrackerParams(Trackers);
    assert m[20..60] == hash;
  }

  /** A magnet link with no surrounding white space is returned as it is. */
  lemma MagnetFixed(m: string)
    requires StartsWith(m, MagnetScheme) && !GoIsSpace(m[|m| - 1])
    ensures ParseInput(m) == m
  {
    assert m[0] == m[..7][0];
    TrimOfTrimmed(m, GoIsSpace);
  }

  /** The link built from a bare hash starts with the scheme and ends in the last tracker's last character. */
  lemma HashLinkEnds(t: string)
    requires IsInfoHash(t)
    ensures var m := BtihPrefix + t + TrackerParams(Trackers);
      StartsWith(m, MagnetScheme) && !GoIsSpace(m[|m| - 1])
  {
    var p := TrackerParams(Trackers);
    TrackerParamsLast(Trackers);
    var m := BtihPrefix + t + p;
    assert m[|m| - 1] == p[|p| - 1];
    assert m[..7] == MagnetScheme;
  }

  /** A magnet link ParseInput produced is itself left alone: ParseInput is idempotent. */
  lemma {:induction false} ParseInputIdempotent(input: string)
    ensures ParseInput(ParseInput(input)) == ParseInput(input)
  {
    var t := Trim(input, GoIsSpace);
    TrimIdempotent(input, GoIsSpace);
    if IsInfoHash(t) {
      HashLinkEnds(t);
      MagnetFixed(BtihPrefix + t + TrackerParams(Trackers));
    }
  }
}

/**
 * The HLS outputs of the transcoder (backend/torrent/client.go): the quality
 * ladder filtered by the source height, the master playlist (RFC 8216,
 * sections 4.3.1.1 EXTM3U, 4.3.1.2 EXT-X-VERSION, 4.3.4.1 EXT-X-MEDIA and
 * 4.3.4.2 EXT-X-STREAM-INF) as a sequence of lines.
 */
module HlsOutput {
  import opened Common
  import opened MetadataCache

  datatype QualityLevel = QualityLevel(
    name: string,
    width: nat,
    height: nat,
    bitrate: string,
    maxBitrate: string,
    bufSize: string,
    audioRate: string,
    crf: nat,
    preset: string)

  /** qualityLevels, lowest first. */
  const QualityLevels: seq<QualityLevel> := [
    QualityLevel("240p", 426, 240, "400k", "428k", "600k", "64k", 30, "ultrafast"),
    QualityLevel("360p", 640, 360, "800k", "856k", "1200k", "96k", 28, "ultrafast"),
    QualityLevel("480p", 854, 480, "1400k", "1498k", "2100k", "128k", 26, "veryfast"),
    QualityLevel("720p", 1280, 720, "2800k", "2996k", "4200k", "128k", 24, "fast"),
    QualityLevel("1080p", 1920, 1080, "5000k", "5350k", "7500k", "192k", 22, "fast"),
    QualityLevel("1440p", 2560, 1440, "9000k", "9630k", "13500k", "192k", 21, "fast"),
    QualityLevel("2160p", 3840, 2160, "16000k", "17120k", "24000k", "256k", 20, "fast")
  ]

  // ---------------------------------------------------------------------
  // The ladder

  /** Each level is strictly taller than the one before it. */
  predicate AscendingHeights(qs: seq<QualityLevel>) {
    forall i :: 0 <= i < |qs| - 1 ==> qs[i].height < qs[i + 1].height
  }

  lemma TableAscending()
    ensures AscendingHeights(QualityLevels)
  {
  }

  /** No table entry is shorter than 240p, the first one. */
  lemma TableMinHeight()
    ensures forall q :: q in QualityLevels ==> q.height >= QualityLevels[0].height == 240
  {
  }

  /** The levels of qs no taller than h, in the order of qs. */
  function FilterByHeight(qs: seq<QualityLevel>, h: int): (r: seq<QualityLevel>)
    ensures |r| <= |qs|
  {
    if qs == [] then []
    else (if qs[0].height <= h then [qs[0]] else []) + FilterByHeight(qs[1..], h)
  }

  /** The filter keeps exactly the levels no taller than h. */
  lemma {:induction false} FilterMembers(qs: seq<QualityLevel>, h: int)
    ensures forall q :: q in FilterByHeight(qs, h) <==> q in qs && q.height <= h
  {
    if qs != [] {
      FilterMembers(qs[1..], h);
      assert forall q :: q in qs <==> q == qs[0] || q in qs[1..];
    }
  }

  /** The number of leading levels of qs no taller than h. */
  function LeadingAtMost(qs: seq<QualityLevel>, h: int): (n: nat)
    ensures n <= |qs|
  {
    if qs == [] || qs[0].height > h then 0 else 1 + LeadingAtMost(qs[1..], h)
  }

  lemma AscendingTail(qs: seq<QualityLevel>)
    requires qs != [] && AscendingHeights(qs)
    ensures AscendingHeights(qs[1..])
  {
    var tail := qs[1..];
    forall i | 0 <= i < |tail| - 1 ensures tail[i].height < tail[i + 1].height {
      assert tail[i] == qs[i + 1] && tail[i + 1] == qs[i + 2];
    }
  }

  /** On an ascending ladder whose first level is taller than h, the filter keeps nothing. */
  lemma {:induction false} FilterAllTaller(qs: seq<QualityLevel>, h: int)
    requires AscendingHeights(qs) && qs != [] && qs[0].height > h
    ensures FilterByHeight(qs, h) == []
  {
    if |qs| > 1 {
      AscendingTail(qs);
      assert qs[1..][0] == qs[1];
      FilterAllTaller(qs[1..], h);
    }
  }

  /** On an ascending ladder the filter keeps the prefix of the levels no taller than h. */
  lemma {:induction false} FilterAscendingIsPrefix(qs: seq<QualityLevel>, h: int)
    requires AscendingHeights(qs)
    ensures FilterByHeight(qs, h) == qs[..LeadingAtMost(qs, h)]
  {
    if qs == [] {
    } else if qs[0].height <= h {
      var tail := qs[1..];
      AscendingTail(qs);
      FilterAscendingIsPrefix(tail, h);
      var n := LeadingAtMost(tail, h);
      assert [qs[0]] + tail[..n] == qs[..n + 1];
    } else {
      FilterAllTaller(qs, h);
    }
  }

  /** The qualities transcodeToHLS generates: the table entries no taller than the
   *  source, or 240p alone when the source is shorter than every entry. */
  function AvailableQualities(sourceHeight: int): (r: seq<QualityLevel>)
    ensures r != []
    ensures forall q :: q in r ==> q in QualityLevels
    ensures sourceHeight >= 240 ==> forall q :: q in r <==> q in QualityLevels && q.height <= sourceHeight
    ensures sourceHeight < 240 ==> r == [QualityLevels[0]]
  {
    var r := FilterByHeight(QualityLevels, sourceHeight);
    FilterMembers(QualityLevels, sourceHeight);
    TableMinHeight();
    assert QualityLevels[0] in QualityLevels;
    assert |r| != 0 ==> r[0] in r;
    if |r| == 0 then
      [QualityLevels[0]]
    else
      r
  }

  /** The ladder is a non-empty prefix of the table, so it keeps table order and
   *  always starts with 240p, the quality that unblocks the player. */
  lemma AvailableIsPrefix(sourceHeight: int)
    ensures exists n :: 1 <= n <= |QualityLevels| && AvailableQualities(sourceHeight) == QualityLevels[..n]
    ensures AvailableQualities(sourceHeight)[0] == QualityLevels[0]
  {
    TableAscending();
    FilterAscendingIsPrefix(QualityLevels, sourceHeight);
    var n := LeadingAtMost(QualityLevels, sourceHeight);
    if n == 0 {
      assert AvailableQualities(sourceHeight) == QualityLevels[..1];
    } else {
      assert AvailableQualities(sourceHeight) == QualityLevels[..n];
    }
  }

  /** getVideoResolution's fallback: a zero width or height means 1920x1080. */
  function ResolutionOrDefault(width: int, height: int): (r: (int, int))
    ensures width != 0 && height != 0 ==> r == (width, height)
    ensures width == 0 || height == 0 ==> r == (1920, 1080)
  {
    if width == 0 || height == 0 then (1920, 1080) else (width, height)
  }

  // ---------------------------------------------------------------------
  // The master playlist

  function TrimSuffix(s: string, suffix: string): (r: string)
    ensures EndsWith(s, suffix) ==> r + suffix == s
    ensures !EndsWith(s, suffix) ==> r == s
  {
    if EndsWith(s, suffix) then s[..|s| - |suffix|] else s
  }

  /** The BANDWIDTH attribute: the number before the "k" of Bitrate (0 when none
   *  parses, Sscanf leaving the variable untouched), times 1000. */
  function Bandwidth(bitrate: string): nat {
    match ScanNat(TrimSuffix(bitrate, "k"))
    case None => 0
    case Some(n) => n * 1000
  }

  /** A bitrate written as a decimal number of kilobits reads back as that many thousand bits. */
  lemma BandwidthOfKilobits(n: nat)
    ensures Bandwidth(NatToString(n) + "k") == n * 1000
  {
    var s := NatToString(n) + "k";
    assert s[..|s| - 1] == NatToString(n);
    assert TrimSuffix(s, "k") == NatToString(n);
    ScanNatOfRendered(n, "");
    assert NatToString(n) + "" == NatToString(n);
  }

  const AudioGroup: string := "audio"

  function Quote(s: string): string { "\"" + s + "\"" }

  /** DEFAULT and AUTOSELECT: YES for a default track and always for the first one. */
  function YesNo(b: bool): string { if b then "YES" else "NO" }

  /** NAME of an audio rendition: its title, or the language's name when untitled. */
  function TrackName(t: AudioTrackInfo): (name: string)
    ensures t.title != "" ==> name == t.title
    ensures t.title == "" ==> name == GetLanguageName(t.language)
  {
    if t.title != "" then t.title else GetLanguageName(t.language)
  }

  /** The CHANNELS attribute, given only for a positive channel count. */
  function ChannelsAttr(channels: int): string {
    if channels > 0 then ",CHANNELS=" + Quote(NatToString(channels)) else ""
  }

  /** The EXT-X-MEDIA format string of generateMasterPlaylist. */
  function MediaTag(group: string, name: string, language: string, isDefault: string, channels: string): string {
    "#EXT-X-MEDIA:TYPE=AUDIO,GROUP-ID=" + Quote(group) + ",NAME=" + Quote(name)
    + ",LANGUAGE=" + Quote(language) + ",DEFAULT=" + isDefault + ",AUTOSELECT=" + isDefault + channels
  }

  /** The two EXT-X-STREAM-INF format strings: with an AUDIO attribute when there is an audio group. */
  function StreamInfTag(bandwidth: nat, width: nat, height: nat, name: string, group: string): string {
    "#EXT-X-STREAM-INF:BANDWIDTH=" + NatToString(bandwidth)
    + ",RESOLUTION=" + NatToString(width) + "x" + NatToString(height) + ",NAME=" + Quote(name)
    + (if group != "" then ",AUDIO=" + Quote(group) else "")
  }

  function VariantUri(name: string): string { name + "/playlist.m3u8" }

  const ExtM3U: string := "#EXTM3U"
  const ExtVersion: string := "#EXT-X-VERSION:4"

  /** The lines of master.m3u8, each written by one WriteString. */
  datatype Line =
    | Header
    | Version
    | Media(track: AudioTrackInfo, index: nat)
    | Blank
    | StreamInf(quality: QualityLevel, withAudio: bool)
    | Uri(quality: QualityLevel)

  function LineText(l: Line): string {
    match l
    case Header => ExtM3U
    case Version => ExtVersion
    case Media(t, i) =>
      MediaTag(AudioGroup, TrackName(t), t.language, YesNo(t.isDefault || i == 0), ChannelsAttr(t.channels))
    case Blank => ""
    case StreamInf(q, withAudio) =>
      StreamInfTag(Bandwidth(q.bitrate), q.width, q.height, q.name, if withAudio then AudioGroup else "")
    case Uri(q) => VariantUri(q.name)
  }

  /** The text of each line, in order. */
  function Texts(lines: seq<Line>): (r: seq<string>)
    ensures |r| == |lines|
  {
    if lines == [] then [] else Texts(lines[..|lines| - 1]) + [LineText(lines[|lines| - 1])]
  }

  lemma {:induction false} TextsAt(lines: seq<Line>, k: nat)
    requires k < |lines|
    ensures Texts(lines)[k] == LineText(lines[k])
  {
    var init := lines[..|lines| - 1];
    if k < |lines| - 1 {
      TextsAt(init, k);
      assert init[k] == lines[k];
    }
  }

  lemma {:induction false} TextsConcat(a: seq<Line>, b: seq<Line>)
    ensures Texts(a + b) == Texts(a) + Texts(b)
    decreases |b|
  {
    if b == [] {
      assert a + b == a;
    } else {
      var init := b[..|b| - 1];
      assert (a + b)[..|a + b| - 1] == a + init;
      assert (a + b)[|a + b| - 1] == b[|b| - 1];
      TextsConcat(a, init);
    }
  }

  lemma TextsSnoc(lines: seq<Line>, l: Line)
    ensures Texts(lines + [l]) == Texts(lines) + [LineText(l)]
  {
    assert (lines + [l])[..|lines|] == lines;
  }

  /** The EXT-X-MEDIA lines of the first n tracks. */
  function MediaLines(tracks: seq<AudioTrackInfo>, n: nat): (lines: seq<Line>)
    requires n <= |tracks|
    ensures |lines| == n
  {
    if n == 0 then [] else MediaLines(tracks, n - 1) + [Media(tracks[n - 1], n - 1)]
  }

  lemma {:induction false} MediaLinesAt(tracks: seq<AudioTrackInfo>, n: nat, i: nat)
    requires i < n <= |tracks|
    ensures MediaLines(tracks, n)[i] == Media(tracks[i], i)
  {
    if i < n - 1 {
      MediaLinesAt(tracks, n - 1, i);
    }
  }

  /** The EXT-X-MEDIA block: one line per track and a blank line, only for several tracks. */
  function MediaSection(tracks: seq<AudioTrackInfo>): (lines: seq<Line>)
    ensures |tracks| <= 1 ==> lines == []
    ensures |tracks| > 1 ==> |lines| == |tracks| + 1 && lines[|tracks|] == Blank
  {
    if |tracks| > 1 then MediaLines(tracks, |tracks|) + [Blank] else []
  }

  /** The two lines of each quality, in order: the EXT-X-STREAM-INF tag and the variant URI. */
  function QualitySection(qs: seq<QualityLevel>, withAudio: bool): (lines: seq<Line>)
    ensures |lines| == 2 * |qs|
  {
    if qs == [] then []
    else
      var q := qs[|qs| - 1];
      QualitySection(qs[..|qs| - 1], withAudio) + [StreamInf(q, withAudio), Uri(q)]
  }

  lemma {:induction false} QualitySectionAt(qs: seq<QualityLevel>, withAudio: bool, k: nat)
    requires k < |qs|
    ensures QualitySection(qs, withAudio)[2 * k] == StreamInf(qs[k], withAudio)
    ensures QualitySection(qs, withAudio)[2 * k + 1] == Uri(qs[k])
  {
    var init := qs[..|qs| - 1];
    if k < |qs| - 1 {
      QualitySectionAt(init, withAudio, k);
      assert init[k] == qs[k];
    }
  }

  /** master.m3u8: the header, the media block, then the qualities, which name the
   *  audio group exactly when there is a media block. */
  function MasterPlaylist(tracks: seq<AudioTrackInfo>, qs: seq<QualityLevel>): seq<Line> {
    [Header, Version] + MediaSection(tracks) + QualitySection(qs, |tracks| > 1)
  }

  /**
   * generateMasterPlaylist's writes, one line per WriteString: the header, the
   * EXT-X-MEDIA lines when there is more than one audio track, then each quality.
   */
  method GenerateMasterPlaylist(tracks: seq<AudioTrackInfo>, qs: seq<QualityLevel>)
    returns (lines: seq<string>)
    ensures lines == Texts(MasterPlaylist(tracks, qs))
  {
    lines := [ExtM3U];
    lines := lines + [ExtVersion];
    assert lines == Texts([Header, Version]) by {
      TextsSnoc([Header], Version);
      assert [Header] == [] + [Header];
    }
    var audioGroup := "";
    if |tracks| > 1 {
      audioGroup := AudioGroup;
      var media := WriteMediaLines(tracks, audioGroup);
      lines := lines + (media + [""]);
      TextsSnoc(MediaLines(tracks, |tracks|), Blank);
    }
    TextsConcat([Header, Version], MediaSection(tracks));
    var variants := WriteVariants(qs, audioGroup);
    lines := lines + variants;
    TextsConcat([Header, Version] + MediaSection(tracks), QualitySection(qs, |tracks| > 1));
  }

  /** The EXT-X-MEDIA loop of generateMasterPlaylist. */
  method WriteMediaLines(tracks: seq<AudioTrackInfo>, audioGroup: string) returns (lines: seq<string>)
    requires audioGroup == AudioGroup
    ensures lines == Texts(MediaLines(tracks, |tracks|))
  {
    lines := [];
    var i := 0;
    while i < |tracks|
      invariant 0 <= i <= |tracks|
      invariant lines == Texts(MediaLines(tracks, i))
    {
      var track := tracks[i];
      var isDefault := "NO";
      if track.isDefault || i == 0 {
        isDefault := "YES";
      }
      var name := track.title;
      if name == "" {
        name := GetLanguageName(track.language);
      }
      var channels := "";
      if track.channels > 0 {
        channels := ",CHANNELS=" + Quote(NatToString(track.channels));
      }
      MediaStep(tracks, i);
      lines := lines + [MediaTag(audioGroup, name, track.language, isDefault, channels)];
      i := i + 1;
    }
  }

  /** One more track adds its EXT-X-MEDIA line. */
  lemma MediaStep(tracks: seq<AudioTrackInfo>, i: nat)
    requires i < |tracks|
    ensures Texts(MediaLines(tracks, i + 1)) == Texts(MediaLines(tracks, i))
      + [MediaTag(AudioGroup, TrackName(tracks[i]), tracks[i].language,
                  YesNo(tracks[i].isDefault || i == 0), ChannelsAttr(tracks[i].channels))]
  {
    TextsSnoc(MediaLines(tracks, i), Media(tracks[i], i));
  }

  /** One more quality adds its tag and its URI. */
  lemma VariantStep(qs: seq<QualityLevel>, k: nat, audioGroup: string)
    requires k < |qs| && (audioGroup == "" || audioGroup == AudioGroup)
    ensures Texts(QualitySection(qs[..k + 1], audioGroup != "")) == Texts(QualitySection(qs[..k], audioGroup != ""))
      + [StreamInfTag(Bandwidth(qs[k].bitrate), qs[k].width, qs[k].height, qs[k].name, audioGroup),
         VariantUri(qs[k].name)]
  {
    var q := qs[k];
    var w := audioGroup != "";
    QualityStep(qs, k, w);
    TextsSnoc2(QualitySection(qs[..k], w), StreamInf(q, w), Uri(q));
    VariantText(q, audioGroup);
  }

  lemma QualityStep(qs: seq<QualityLevel>, k: nat, w: bool)
    requires k < |qs|
    ensures QualitySection(qs[..k + 1], w) == QualitySection(qs[..k], w) + [StreamInf(qs[k], w), Uri(qs[k])]
  {
    assert qs[..k + 1][..k] == qs[..k] && qs[..k + 1][k] == qs[k];
  }

  lemma TextsSnoc2(lines: seq<Line>, a: Line, b: Line)
    ensures Texts(lines + [a, b]) == Texts(lines) + [LineText(a), LineText(b)]
  {
    TextsSnoc(lines, a);
    TextsSnoc(lines + [a], b);
    assert lines + [a] + [b] == lines + [a, b];
  }

  /** A quality's two lines as the loop formats them. */
  lemma VariantText(q: QualityLevel, audioGroup: string)
    requires audioGroup == "" || audioGroup == AudioGroup
    ensures LineText(StreamInf(q, audioGroup != ""))
      == StreamInfTag(Bandwidth(q.bitrate), q.width, q.height, q.name, audioGroup)
    ensures LineText(Uri(q)) == VariantUri(q.name)
  {
    assert AudioGroup != "";
    assert (if audioGroup != "" then AudioGroup else "") == audioGroup;
  }

  /** The variant loop of generateMasterPlaylist. */
  method WriteVariants(qs: seq<QualityLevel>, audioGroup: string) returns (lines: seq<string>)
    requires audioGroup == "" || audioGroup == AudioGroup
    ensures lines == Texts(QualitySection(qs, audioGroup != ""))
  {
    lines := [];
    var k := 0;
    while k < |qs|
      invariant 0 <= k <= |qs|
      invariant lines == Texts(QualitySection(qs[..k], audioGroup != ""))
    {
      var q := qs[k];
      var bitrate := Bandwidth(q.bitrate);
      VariantStep(qs, k, audioGroup);
      lines := lines + [StreamInfTag(bitrate, q.width, q.height, q.name, audioGroup), VariantUri(q.name)];
      k := k + 1;
    }
    assert qs[..k] == qs;
  }

  /** The playlist's length and header: two header lines, the media block only for
   *  several tracks, then two lines per quality. */
  lemma MasterPlaylistHeader(tracks: seq<AudioTrackInfo>, qs: seq<QualityLevel>)
    ensures var lines := MasterPlaylist(tracks, qs);
      |lines| == 2 + (if |tracks| > 1 then |tracks| + 1 else 0) + 2 * |qs|
      && lines[0] == Header && lines[1] == Version
  {
  }

  /** With several tracks, line 2 + i renders track i and a blank line closes the block. */
  lemma MasterPlaylistMedia(tracks: seq<AudioTrackInfo>, qs: seq<QualityLevel>, i: nat)
    requires |tracks| > 1 && i < |tracks|
    ensures MasterPlaylist(tracks, qs)[2 + i] == Media(tracks[i], i)
    ensures MasterPlaylist(tracks, qs)[2 + |tracks|] == Blank
  {
    MediaLinesAt(tracks, |tracks|, i);
    var media := MediaSection(tracks);
    assert MasterPlaylist(tracks, qs)[2 + i] == media[i];
    assert MasterPlaylist(tracks, qs)[2 + |tracks|] == media[|tracks|];
  }

  /** After the header and the media block, quality k takes two lines: its tag
   *  (naming the audio group exactly when there are several tracks) and its URI. */
  lemma MasterPlaylistVariant(tracks: seq<AudioTrackInfo>, qs: seq<QualityLevel>, k: nat)
    requires k < |qs|
    ensures var m := if |tracks| > 1 then |tracks| + 1 else 0;
      MasterPlaylist(tracks, qs)[2 + m + 2 * k] == StreamInf(qs[k], |tracks| > 1)
      && MasterPlaylist(tracks, qs)[2 + m + 2 * k + 1] == Uri(qs[k])
  {
    var quality := QualitySection(qs, |tracks| > 1);
    var m := |MediaSection(tracks)|;
    QualitySectionAt(qs, |tracks| > 1, k);
    assert MasterPlaylist(tracks, qs)[2 + m + 2 * k] == quality[2 * k];
    assert MasterPlaylist(tracks, qs)[2 + m + 2 * k + 1] == quality[2 * k + 1];
  }

  /** The first audio rendition is always marked DEFAULT=YES and AUTOSELECT=YES. */
  lemma FirstTrackIsDefault(t: AudioTrackInfo)
    ensures Contains(LineText(Media(t, 0)), ",DEFAULT=YES,AUTOSELECT=YES")
  {
    MediaTagMarked(AudioGroup, TrackName(t), t.language, YesNo(t.isDefault || 0 == 0), ChannelsAttr(t.channels));
    MarkerOfYes();
  }

  lemma MarkerOfYes()
    ensures ",DEFAULT=" + YesNo(true) + ",AUTOSELECT=" + YesNo(true) == ",DEFAULT=YES,AUTOSELECT=YES"
  {
  }

  /** The marker a rendition's DEFAULT and AUTOSELECT attributes form together. */
  lemma MediaTagMarked(group: string, name: string, language: string, isDefault: string, channels: string)
    ensures Contains(MediaTag(group, name, language, isDefault, channels),
                     ",DEFAULT=" + isDefault + ",AUTOSELECT=" + isDefault)
  {
    var a := "#EXT-X-MEDIA:TYPE=AUDIO,GROUP-ID=" + Quote(group) + ",NAME=" + Quote(name) + ",LANGUAGE=" + Quote(language);
    var marker := ",DEFAULT=" + isDefault + ",AUTOSELECT=" + isDefault;
    var line := MediaTag(group, name, language, isDefault, channels);
    assert line == a + marker + channels;
    assert OccursAt(line, marker, |a|);
  }

  /** A quality's tag ends with the audio group exactly when the playlist has one, and
   *  with its quoted name otherwise. */
  lemma StreamInfEnding(q: QualityLevel, withAudio: bool)
    ensures withAudio ==> EndsWith(LineText(StreamInf(q, withAudio)), ",AUDIO=\"audio\"")
    ensures !withAudio ==> EndsWith(LineText(StreamInf(q, withAudio)), Quote(q.name))
  {
    var head := "#EXT-X-STREAM-INF:BANDWIDTH=" + NatToString(Bandwidth(q.bitrate))
      + ",RESOLUTION=" + NatToString(q.width) + "x" + NatToString(q.height) + ",NAME=" + Quote(q.name);
    var line := LineText(StreamInf(q, withAudio));
    if withAudio {
      assert line == head + ",AUDIO=\"audio\"";
    } else {
      var prefix := "#EXT-X-STREAM-INF:BANDWIDTH=" + NatToString(Bandwidth(q.bitrate))
        + ",RESOLUTION=" + NatToString(q.width) + "x" + NatToString(q.height) + ",NAME=";
      assert line == prefix + Quote(q.name);
    }
  }
}

/**
 * The ffmpeg command line transcodeQuality runs for one quality
 * (buildFFmpegArgs in backend/torrent/client.go). The detected hardware
 * accelerator is a parameter. Apart from the leading "-y" and the trailing
 * output path, every argument is a flag followed by its value; the
 * specification is that list of options, with the flags drawn from the
 * fixed set the function uses.
 */
module FFmpegCommand {
  import opened Common
  import opened MetadataCache
  import opened HlsOutput

  /** The accelerators the switch statements distinguish; any other name encodes in software. */
  datatype HwAccel = Vaapi | Nvenc | Qsv | Software

  function HwAccelOf(name: string): (hw: HwAccel)
    ensures hw == Vaapi <==> name == "vaapi"
    ensures hw == Nvenc <==> name == "nvenc"
    ensures hw == Qsv <==> name == "qsv"
  {
    if name == "vaapi" then Vaapi
    else if name == "nvenc" then Nvenc
    else if name == "qsv" then Qsv
    else Software
  }

  /** The flags buildFFmpegArgs passes a value to, grouped by the part of the
   *  command that gives them: input tuning, hardware decoding, input and stream
   *  selection, the video encoder, keyframes, the audio encoder, per-track
   *  metadata and the HLS muxer. */
  datatype TuningFlag = FFlags | CodecFlags | Strict | ErrDetect | AnalyzeDuration | ProbeSize | MaxDelay | ThreadQueueSize
  datatype DecodeFlag = HwAccelFlag | HwAccelDevice | HwAccelOutputFormat
  datatype SourceFlag = Input | MapStream
  datatype EncodeFlag = VideoFilterFlag | VideoCodec | Qp | Preset | RateControl | Cq | GlobalQuality | Tune | Crf | MaxRate | BufSize | Profile | Level
  datatype KeyframeFlag = Gop | KeyintMin | ScThreshold
  datatype AudioFlag = AudioCodec | AudioBitrate | AudioChannels | AudioSampleRate
  datatype MuxerFlag = HlsTime | HlsListSize | HlsFlags | HlsSegmentType | HlsSegmentFilename | Format

  datatype Flag =
    | Tuning(tuning: TuningFlag)
    | Decode(decode: DecodeFlag)
    | Source(source: SourceFlag)
    | Encode(encode: EncodeFlag)
    | Keyframe(keyframe: KeyframeFlag)
    | Audio(audio: AudioFlag)
    | AudioMetadata(stream: nat)
    | Muxer(muxer: MuxerFlag)

  function TuningFlagName(f: TuningFlag): string {
    match f
    case FFlags => "-fflags"
    case CodecFlags => "-flags"
    case Strict => "-strict"
    case ErrDetect => "-err_detect"
    case AnalyzeDuration => "-analyzeduration"
    case ProbeSize => "-probesize"
    case MaxDelay => "-max_delay"
    case ThreadQueueSize => "-thread_queue_size"
  }

  function DecodeFlagName(f: DecodeFlag): string {
    match f
    case HwAccelFlag => "-hwaccel"
    case HwAccelDevice => "-hwaccel_device"
    case HwAccelOutputFormat => "-hwaccel_output_format"
  }

  function SourceFlagName(f: SourceFlag): string {
    match f
    case Input => "-i"
    case MapStream => "-map"
  }

  function EncodeFlagName(f: EncodeFlag): string {
    match f
    case VideoFilterFlag => "-vf"
    case VideoCodec => "-c:v"
    case Qp => "-qp"
    case Preset => "-preset"
    case RateControl => "-rc"
    case Cq => "-cq"
    case GlobalQuality => "-global_quality"
    case Tune => "-tune"
    case Crf => "-crf"
    case MaxRate => "-maxrate"
    case BufSize => "-bufsize"
    case Profile => "-profile:v"
    case Level => "-level"
  }

  function KeyframeFlagName(f: KeyframeFlag): string {
    match f
    case Gop => "-g"
    case KeyintMin => "-keyint_min"
    case ScThreshold => "-sc_threshold"
  }

  function AudioFlagName(f: AudioFlag): string {
    match f
    case AudioCodec => "-c:a"
    case AudioBitrate => "-b:a"
    case AudioChannels => "-ac"
    case AudioSampleRate => "-ar"
  }

  function MuxerFlagName(f: MuxerFlag): string {
    match f
    case HlsTime => "-hls_time"
    case HlsListSize => "-hls_list_size"
    case HlsFlags => "-hls_flags"
    case HlsSegmentType => "-hls_segment_type"
    case HlsSegmentFilename => "-hls_segment_filename"
    case Format => "-f"
  }

  /** A flag as written on the command line. */
  function FlagName(f: Flag): (name: string)
    ensures |name| >= 2 && name[0] == '-'
  {
    match f
    case Tuning(t) => TuningFlagName(t)
    case Decode(d) => DecodeFlagName(d)
    case Source(s) => SourceFlagName(s)
    case Encode(e) => EncodeFlagName(e)
    case Keyframe(k) => KeyframeFlagName(k)
    case Audio(a) => AudioFlagName(a)
    case AudioMetadata(i) => "-metadata:s:a:" + NatToString(i)
    case Muxer(m) => MuxerFlagName(m)
  }

  /** An option value: text, a decimal integer (%d), a scale filter around the two
   *  dimensions, or an audio-stream selector "0:a:<i>". */
  datatype Arg =
    | Text(text: string)
    | Int(n: nat)
    | ScaleFilter(prefix: string, width: nat, height: nat, suffix: string)
    | AudioStream(index: nat)

  function ArgText(a: Arg): string {
    match a
    case Text(t) => t
    case Int(n) => NatToString(n)
    case ScaleFilter(p, w, h, x) => p + NatToString(w) + ":" + NatToString(h) + x
    case AudioStream(i) => "0:a:" + NatToString(i)
  }

  /** One flag and its value. */
  datatype Opt = Opt(flag: Flag, value: Arg)

  /** The arguments of an option list, each flag followed by its value. */
  function Render(opts: seq<Opt>): (args: seq<string>)
    ensures |args| == 2 * |opts|
  {
    if opts == [] then []
    else Render(opts[..|opts| - 1]) + [FlagName(opts[|opts| - 1].flag), ArgText(opts[|opts| - 1].value)]
  }

  lemma {:induction false} RenderConcat(a: seq<Opt>, b: seq<Opt>)
    ensures Render(a + b) == Render(a) + Render(b)
    decreases |b|
  {
    if b == [] {
      assert a + b == a;
    } else {
      var init := b[..|b| - 1];
      assert (a + b)[..|a + b| - 1] == a + init;
      assert (a + b)[|a + b| - 1] == b[|b| - 1];
      RenderConcat(a, init);
    }
  }

  lemma RenderSnoc(opts: seq<Opt>, o: Opt)
    ensures Render(opts + [o]) == Render(opts) + [FlagName(o.flag), ArgText(o.value)]
  {
    assert (opts + [o])[..|opts|] == opts;
  }

  /** The options as (flag name, value) pairs. */
  function Named(opts: seq<Opt>): (pairs: seq<(string, string)>)
    ensures |pairs| == |opts|
  {
    if opts == [] then []
    else Named(opts[..|opts| - 1]) + [(FlagName(opts[|opts| - 1].flag), ArgText(opts[|opts| - 1].value))]
  }

  /** How ffmpeg reads an option list back: consecutive flag/value pairs. */
  function Unrender(args: seq<string>): (pairs: seq<(string, string)>)
    requires |args| % 2 == 0
    ensures |pairs| == |args| / 2
  {
    if args == [] then []
    else Unrender(args[..|args| - 2]) + [(args[|args| - 2], args[|args| - 1])]
  }

  lemma {:induction false} UnrenderRender(opts: seq<Opt>)
    ensures Unrender(Render(opts)) == Named(opts)
  {
    if opts != [] {
      var init := opts[..|opts| - 1];
      var r := Render(opts);
      assert r[..|r| - 2] == Render(init);
      UnrenderRender(init);
    }
  }

  /** The values given to a flag, in order. */
  function ValuesOf(opts: seq<Opt>, flag: Flag): (vs: seq<Arg>)
    ensures |vs| <= |opts|
  {
    if opts == [] then []
    else
      var last := opts[|opts| - 1];
      ValuesOf(opts[..|opts| - 1], flag) + (if last.flag == flag then [last.value] else [])
  }

  lemma {:induction false} ValuesOfConcat(a: seq<Opt>, b: seq<Opt>, flag: Flag)
    ensures ValuesOf(a + b, flag) == ValuesOf(a, flag) + ValuesOf(b, flag)
    decreases |b|
  {
    if b == [] {
      assert a + b == a;
    } else {
      var init := b[..|b| - 1];
      assert (a + b)[..|a + b| - 1] == a + init;
      assert (a + b)[|a + b| - 1] == b[|b| - 1];
      ValuesOfConcat(a, init, flag);
    }
  }

  lemma {:induction false} ValuesOfAbsent(opts: seq<Opt>, flag: Flag)
    requires forall o :: o in opts ==> o.flag != flag
    ensures ValuesOf(opts, flag) == []
  {
    if opts != [] {
      ValuesOfAbsent(opts[..|opts| - 1], flag);
    }
  }

  // ---------------------------------------------------------------------
  // The option groups, in the order buildFFmpegArgs appends them

  /** Input options for partially downloaded files (after the leading "-y"). */
  const BaseOpts: seq<Opt> := [
    Opt(Tuning(FFlags), Text("+genpts+igndts+discardcorrupt+nobuffer")),
    Opt(Tuning(CodecFlags), Text("low_delay")),
    Opt(Tuning(Strict), Text("experimental")),
    Opt(Tuning(ErrDetect), Text("ignore_err")),
    Opt(Tuning(AnalyzeDuration), Text("2000000")),
    Opt(Tuning(ProbeSize), Text("10000000")),
    Opt(Tuning(MaxDelay), Text("0")),
    Opt(Tuning(ThreadQueueSize), Text("512"))
  ]

  /** Hardware-accelerated decoding options; none in software. */
  function HwInputOpts(hw: HwAccel): seq<Opt> {
    match hw
    case Vaapi =>
      [Opt(Decode(HwAccelFlag), Text("vaapi")), Opt(Decode(HwAccelDevice), Text("/dev/dri/renderD128")),
       Opt(Decode(HwAccelOutputFormat), Text("vaapi"))]
    case Nvenc => [Opt(Decode(HwAccelFlag), Text("cuda")), Opt(Decode(HwAccelOutputFormat), Text("cuda"))]
    case Qsv => [Opt(Decode(HwAccelFlag), Text("qsv"))]
    case Software => []
  }

  /** The input file and the first video stream. */
  function InputOpts(inputFile: string): seq<Opt> {
    [Opt(Source(Input), Text(inputFile)), Opt(Source(MapStream), Text("0:v:0"))]
  }

  /** "-map 0:a:i" for each of the first n audio streams. */
  function AudioMaps(n: nat): (opts: seq<Opt>)
    ensures |opts| == n
    ensures forall i :: 0 <= i < n ==> opts[i] == Opt(Source(MapStream), AudioStream(i))
  {
    if n == 0 then [] else AudioMaps(n - 1) + [Opt(Source(MapStream), AudioStream(n - 1))]
  }

  /** Every detected track mapped explicitly when there are several, else every audio stream, if any. */
  function AudioMapOpts(n: nat): seq<Opt> {
    if n > 1 then AudioMaps(n) else [Opt(Source(MapStream), Text("0:a?"))]
  }

  /** The scaling filter: uploaded to the GPU surface for VAAPI, bilinear in software. */
  function VideoFilter(hw: HwAccel, q: QualityLevel): Arg {
    match hw
    case Vaapi => ScaleFilter("format=nv12|vaapi,hwupload,scale_vaapi=", q.width, q.height, "")
    case Nvenc => ScaleFilter("scale=", q.width, q.height, "")
    case Qsv => ScaleFilter("scale=", q.width, q.height, "")
    case Software => ScaleFilter("scale=", q.width, q.height, ":flags=bilinear")
  }

  /** The encoder each accelerator selects. */
  function EncoderName(hw: HwAccel): string {
    match hw
    case Vaapi => "h264_vaapi"
    case Nvenc => "h264_nvenc"
    case Qsv => "h264_qsv"
    case Software => "libx264"
  }

  /** The rate-control flag each encoder takes the quality's CRF under. */
  function QualityFlag(hw: HwAccel): Flag {
    match hw
    case Vaapi => Encode(Qp)
    case Nvenc => Encode(Cq)
    case Qsv => Encode(GlobalQuality)
    case Software => Encode(Crf)
  }

  /** VAAPI takes a QP five above the CRF; the others take the CRF itself. */
  function QualityValue(hw: HwAccel, q: QualityLevel): nat {
    if hw == Vaapi then q.crf + 5 else q.crf
  }

  /** The encoder's preset and rate-control options. */
  function EncoderTuning(hw: HwAccel, q: QualityLevel): seq<Opt> {
    match hw
    case Vaapi => [Opt(Encode(Qp), Int(q.crf + 5))]
    case Nvenc => [Opt(Encode(Preset), Text("p4")), Opt(Encode(RateControl), Text("vbr")), Opt(Encode(Cq), Int(q.crf))]
    case Qsv => [Opt(Encode(Preset), Text("faster")), Opt(Encode(GlobalQuality), Int(q.crf))]
    case Software => [Opt(Encode(Preset), Text(q.preset)), Opt(Encode(Tune), Text("zerolatency")), Opt(Encode(Crf), Int(q.crf))]
  }

  function RateOpts(q: QualityLevel): seq<Opt> {
    [Opt(Encode(MaxRate), Text(q.maxBitrate)), Opt(Encode(BufSize), Text(q.bufSize))]
  }

  /** Only libx264 is pinned to the Main profile at level 4.0. */
  function ProfileOpts(hw: HwAccel): seq<Opt> {
    if hw == Software then [Opt(Encode(Profile), Text("main")), Opt(Encode(Level), Text("4.0"))] else []
  }

  /** The scaling filter, then the encoder. */
  function EncoderHead(hw: HwAccel, q: QualityLevel): seq<Opt> {
    [Opt(Encode(VideoFilterFlag), VideoFilter(hw, q)), Opt(Encode(VideoCodec), Text(EncoderName(hw)))]
  }

  function EncoderOpts(hw: HwAccel, q: QualityLevel): seq<Opt> {
    EncoderHead(hw, q) + EncoderTuning(hw, q) + RateOpts(q) + ProfileOpts(hw)
  }

  /** A keyframe every 48 frames and no scene-cut keyframes. */
  const KeyframeOpts: seq<Opt> := [Opt(Keyframe(Gop), Text("48")), Opt(Keyframe(KeyintMin), Text("48")), Opt(Keyframe(ScThreshold), Text("0"))]

  /** AAC stereo at 48 kHz for every mapped audio stream. */
  function AudioCodecOpts(q: QualityLevel): seq<Opt> {
    [Opt(Audio(AudioCodec), Text("aac")), Opt(Audio(AudioBitrate), Text(q.audioRate)),
     Opt(Audio(AudioChannels), Text("2")), Opt(Audio(AudioSampleRate), Text("48000"))]
  }

  /** Track i's language, then its title when it has one. */
  function TrackMetadata(t: AudioTrackInfo, i: nat): seq<Opt> {
    [Opt(AudioMetadata(i), Text("language=" + t.language))]
    + (if t.title != "" then [Opt(AudioMetadata(i), Text("title=" + t.title))] else [])
  }

  function MetadataOpts(tracks: seq<AudioTrackInfo>): seq<Opt> {
    if tracks == [] then []
    else MetadataOpts(tracks[..|tracks| - 1]) + TrackMetadata(tracks[|tracks| - 1], |tracks| - 1)
  }

  /** Two-second MPEG-TS segments written through temporary files, playlist kept whole. */
  function HlsOpts(segmentPath: string): seq<Opt> {
    [Opt(Muxer(HlsTime), Text("2")),
     Opt(Muxer(HlsListSize), Text("0")),
     Opt(Muxer(HlsFlags), Text("independent_segments+append_list+temp_file")),
     Opt(Muxer(HlsSegmentType), Text("mpegts")),
     Opt(Muxer(HlsSegmentFilename), Text(segmentPath)),
     Opt(Muxer(Format), Text("hls"))]
  }

  function FFmpegOptions(hw: HwAccel, inputFile: string, q: QualityLevel, segmentPath: string,
                         tracks: seq<AudioTrackInfo>): seq<Opt> {
    BaseOpts + HwInputOpts(hw) + InputOpts(inputFile) + AudioMapOpts(|tracks|)
    + EncoderOpts(hw, q) + KeyframeOpts + AudioCodecOpts(q) + MetadataOpts(tracks)
    + HlsOpts(segmentPath)
  }

  /** The whole command line: overwrite, the options, the playlist as the output. */
  function FFmpegArgs(hw: HwAccel, inputFile: string, q: QualityLevel, playlistPath: string,
                      segmentPath: string, tracks: seq<AudioTrackInfo>): seq<string> {
    ["-y"] + Render(FFmpegOptions(hw, inputFile, q, segmentPath, tracks)) + [playlistPath]
  }

  // ---------------------------------------------------------------------
  // Building the command line

  /**
   * buildFFmpegArgs: the fixed option groups appended in order, with a loop for
   * the explicit audio maps and one for the per-track metadata.
   */
  method BuildFFmpegArgs(inputFile: string, q: QualityLevel, playlistPath: string, segmentPath: string,
                         tracks: seq<AudioTrackInfo>, hwAccel: string) returns (args: seq<string>)
    ensures args == FFmpegArgs(HwAccelOf(hwAccel), inputFile, q, playlistPath, segmentPath, tracks)
  {
    var hw := HwAccelOf(hwAccel);
    var options := Render(BaseOpts);
    options := options + Render(HwInputOpts(hw));
    options := options + Render(InputOpts(inputFile));
    var maps := AudioMapArgs(|tracks|);
    options := options + maps;
    options := options + Render(EncoderOpts(hw, q));
    options := options + Render(KeyframeOpts);
    options := options + Render(AudioCodecOpts(q));
    var metadata := MetadataArgs(tracks);
    options := options + metadata;
    options := options + Render(HlsOpts(segmentPath));
    RenderOptions(hw, inputFile, q, segmentPath, tracks);
    args := ["-y"] + options + [playlistPath];
  }

  /** Rendering the options renders the nine groups one after the other. */
  lemma RenderOptions(hw: HwAccel, inputFile: string, q: QualityLevel, segmentPath: string,
                      tracks: seq<AudioTrackInfo>)
    ensures Render(FFmpegOptions(hw, inputFile, q, segmentPath, tracks))
      == Render(BaseOpts) + Render(HwInputOpts(hw)) + Render(InputOpts(inputFile))
         + Render(AudioMapOpts(|tracks|)) + Render(EncoderOpts(hw, q))
         + Render(KeyframeOpts) + Render(AudioCodecOpts(q))
         + Render(MetadataOpts(tracks)) + Render(HlsOpts(segmentPath))
  {
    var g1 := BaseOpts;
    var g2 := g1 + HwInputOpts(hw);
    var g3 := g2 + InputOpts(inputFile);
    var g4 := g3 + AudioMapOpts(|tracks|);
    var g5 := g4 + EncoderOpts(hw, q);
    var g6 := g5 + KeyframeOpts;
    var g7 := g6 + AudioCodecOpts(q);
    var g8 := g7 + MetadataOpts(tracks);
    RenderConcat(g1, HwInputOpts(hw));
    RenderConcat(g2, InputOpts(inputFile));
    RenderConcat(g3, AudioMapOpts(|tracks|));
    RenderConcat(g4, EncoderOpts(hw, q));
    RenderConcat(g5, KeyframeOpts);
    RenderConcat(g6, AudioCodecOpts(q));
    RenderConcat(g7, MetadataOpts(tracks));
    RenderConcat(g8, HlsOpts(segmentPath));
  }

  /** One more audio map renders "-map 0:a:i". */
  lemma AudioMapStep(i: nat)
    ensures Render(AudioMaps(i + 1)) == Render(AudioMaps(i)) + ["-map", "0:a:" + NatToString(i)]
  {
    RenderSnoc(AudioMaps(i), Opt(Source(MapStream), AudioStream(i)));
  }

  /** The audio-map step of buildFFmpegArgs: one "-map" per track when there are several. */
  method AudioMapArgs(n: nat) returns (args: seq<string>)
    ensures args == Render(AudioMapOpts(n))
  {
    args := [];
    if n > 1 {
      var i := 0;
      while i < n
        invariant 0 <= i <= n
        invariant args == Render(AudioMaps(i))
      {
        AudioMapStep(i);
        args := args + ["-map", "0:a:" + NatToString(i)];
        i := i + 1;
      }
    } else {
      RenderSnoc([], Opt(Source(MapStream), Text("0:a?")));
      args := args + ["-map", "0:a?"];
    }
  }

  /** The metadata flag of track i as written. */
  lemma MetadataFlagName(i: nat)
    ensures FlagName(AudioMetadata(i)) == "-metadata:s:a:" + NatToString(i)
  {
  }

  /** One more track renders its language pair, then its title pair if it has one. */
  lemma MetadataStep(tracks: seq<AudioTrackInfo>, i: nat)
    requires i < |tracks|
    ensures Render(MetadataOpts(tracks[..i + 1]))
      == Render(MetadataOpts(tracks[..i])) + [FlagName(AudioMetadata(i)), "language=" + tracks[i].language]
         + (if tracks[i].title != "" then [FlagName(AudioMetadata(i)), "title=" + tracks[i].title] else [])
  {
    var track := tracks[i];
    var before := MetadataOpts(tracks[..i]);
    var language := Opt(AudioMetadata(i), Text("language=" + track.language));
    var title := Opt(AudioMetadata(i), Text("title=" + track.title));
    assert tracks[..i + 1][..i] == tracks[..i] && tracks[..i + 1][i] == track;
    assert MetadataOpts(tracks[..i + 1]) == before + TrackMetadata(track, i);
    RenderSnoc(before, language);
    if track.title != "" {
      RenderSnoc(before + [language], title);
      assert before + [language] + [title] == before + TrackMetadata(track, i);
    } else {
      assert before + [language] == before + TrackMetadata(track, i);
    }
  }

  /** The metadata loop of buildFFmpegArgs: each track's language, then its title if any. */
  method MetadataArgs(tracks: seq<AudioTrackInfo>) returns (args: seq<string>)
    ensures args == Render(MetadataOpts(tracks))
  {
    args := [];
    var i := 0;
    while i < |tracks|
      invariant 0 <= i <= |tracks|
      invariant args == Render(MetadataOpts(tracks[..i]))
    {
      var track := tracks[i];
      var flag := "-metadata:s:a:" + NatToString(i);
      MetadataFlagName(i);
      MetadataStep(tracks, i);
      args := args + [flag, "language=" + track.language];
      if track.title != "" {
        args := args + [flag, "title=" + track.title];
      }
      i := i + 1;
    }
    assert tracks[..i] == tracks;
  }

  // ---------------------------------------------------------------------
  // How ffmpeg reads the command line back

  /** "-y", then flag/value pairs, then the output path. */
  function ParseCommand(args: seq<string>): (r: Option<(seq<(string, string)>, string)>)
    ensures r.Some? ==> |args| >= 2 && args[0] == "-y" && r.value.1 == args[|args| - 1]
  {
    if |args| >= 2 && args[0] == "-y" && |args| % 2 == 0 then
      Some((Unrender(args[1..|args| - 1]), args[|args| - 1]))
    else None
  }

  lemma ParseRendered(opts: seq<Opt>, output: string)
    ensures ParseCommand(["-y"] + Render(opts) + [output]) == Some((Named(opts), output))
  {
    var args := ["-y"] + Render(opts) + [output];
    var n := |opts|;
    assert |args| == 2 * (n + 1);
    Even(n + 1);
    Even(n);
    assert args[1..|args| - 1] == Render(opts);
    UnrenderRender(opts);
  }

  lemma Even(n: nat)
    ensures (2 * n) % 2 == 0 && (2 * n) / 2 == n
  {
  }

  /** The command line reads back as exactly the specified options and output path. */
  lemma CommandRoundTrip(hw: HwAccel, inputFile: string, q: QualityLevel, playlistPath: string,
                         segmentPath: string, tracks: seq<AudioTrackInfo>)
    ensures ParseCommand(FFmpegArgs(hw, inputFile, q, playlistPath, segmentPath, tracks))
      == Some((Named(FFmpegOptions(hw, inputFile, q, segmentPath, tracks)), playlistPath))
  {
    ParseRendered(FFmpegOptions(hw, inputFile, q, segmentPath, tracks), playlistPath);
  }

  /** The values of a flag split over the nine option groups. */
  lemma ValuesOfOptions(hw: HwAccel, inputFile: string, q: QualityLevel, segmentPath: string,
                        tracks: seq<AudioTrackInfo>, flag: Flag)
    ensures ValuesOf(FFmpegOptions(hw, inputFile, q, segmentPath, tracks), flag)
      == ValuesOf(BaseOpts, flag) + ValuesOf(HwInputOpts(hw), flag) + ValuesOf(InputOpts(inputFile), flag)
         + ValuesOf(AudioMapOpts(|tracks|), flag) + ValuesOf(EncoderOpts(hw, q), flag)
         + ValuesOf(KeyframeOpts, flag) + ValuesOf(AudioCodecOpts(q), flag)
         + ValuesOf(MetadataOpts(tracks), flag) + ValuesOf(HlsOpts(segmentPath), flag)
  {
    var g1 := BaseOpts;
    var g2 := g1 + HwInputOpts(hw);
    var g3 := g2 + InputOpts(inputFile);
    var g4 := g3 + AudioMapOpts(|tracks|);
    var g5 := g4 + EncoderOpts(hw, q);
    var g6 := g5 + KeyframeOpts;
    var g7 := g6 + AudioCodecOpts(q);
    var g8 := g7 + MetadataOpts(tracks);
    ValuesOfConcat(g1, HwInputOpts(hw), flag);
    ValuesOfConcat(g2, InputOpts(inputFile), flag);
    ValuesOfConcat(g3, AudioMapOpts(|tracks|), flag);
    ValuesOfConcat(g4, EncoderOpts(hw, q), flag);
    ValuesOfConcat(g5, KeyframeOpts, flag);
    ValuesOfConcat(g6, AudioCodecOpts(q), flag);
    ValuesOfConcat(g7, MetadataOpts(tracks), flag);
    ValuesOfConcat(g8, HlsOpts(segmentPath), flag);
  }

  /** Nine value lists of which all but the named ones are empty. */
  lemma Collapse(a: seq<Arg>, b: seq<Arg>, c: seq<Arg>, d: seq<Arg>, e: seq<Arg>,
                 f: seq<Arg>, g: seq<Arg>, h: seq<Arg>, i: seq<Arg>)
    ensures a == b == d == e == f == g == h == i == [] ==> a + b + c + d + e + f + g + h + i == c
    ensures a == b == e == f == g == h == i == [] ==> a + b + c + d + e + f + g + h + i == c + d
    ensures a == b == c == d == f == g == h == i == [] ==> a + b + c + d + e + f + g + h + i == e
    ensures a == b == c == d == e == f == g == i == [] ==> a + b + c + d + e + f + g + h + i == h
  {
  }

  /** Every metadata option is given under some track's metadata flag. */
  lemma {:induction false} MetadataFlags(tracks: seq<AudioTrackInfo>)
    ensures forall o :: o in MetadataOpts(tracks) ==> o.flag.AudioMetadata? && o.flag.stream < |tracks|
  {
    if tracks != [] {
      MetadataFlags(tracks[..|tracks| - 1]);
    }
  }

  /** A flag that is no metadata flag gets nothing from the metadata group. */
  lemma MetadataAbsent(tracks: seq<AudioTrackInfo>, flag: Flag)
    requires !flag.AudioMetadata?
    ensures ValuesOf(MetadataOpts(tracks), flag) == []
  {
    MetadataFlags(tracks);
    ValuesOfAbsent(MetadataOpts(tracks), flag);
  }

  /** Every audio-map option is a "-map". */
  lemma AudioMapAbsent(n: nat, flag: Flag)
    requires flag != Source(MapStream)
    ensures ValuesOf(AudioMapOpts(n), flag) == []
  {
    forall o | o in AudioMapOpts(n) ensures o.flag != flag {
      if n > 1 {
        var i :| 0 <= i < n && AudioMaps(n)[i] == o;
      }
    }
    ValuesOfAbsent(AudioMapOpts(n), flag);
  }

  /** The encoder group's values of a flag, split over its parts. */
  lemma ValuesOfEncoder(hw: HwAccel, q: QualityLevel, flag: Flag)
    ensures ValuesOf(EncoderOpts(hw, q), flag)
      == ValuesOf(EncoderHead(hw, q), flag)
         + ValuesOf(EncoderTuning(hw, q), flag) + ValuesOf(RateOpts(q), flag) + ValuesOf(ProfileOpts(hw), flag)
  {
    var head := EncoderHead(hw, q);
    ValuesOfConcat(head, EncoderTuning(hw, q), flag);
    ValuesOfConcat(head + EncoderTuning(hw, q), RateOpts(q), flag);
    ValuesOfConcat(head + EncoderTuning(hw, q) + RateOpts(q), ProfileOpts(hw), flag);
  }

  // A flag of another group gets nothing from a group.

  lemma BaseAbsent(flag: Flag)
    requires !flag.Tuning?
    ensures ValuesOf(BaseOpts, flag) == []
  {
    ValuesOfAbsent(BaseOpts, flag);
  }

  lemma HwInputAbsent(hw: HwAccel, flag: Flag)
    requires !flag.Decode?
    ensures ValuesOf(HwInputOpts(hw), flag) == []
  {
    ValuesOfAbsent(HwInputOpts(hw), flag);
  }

  lemma InputAbsent(inputFile: string, flag: Flag)
    requires !flag.Source?
    ensures ValuesOf(InputOpts(inputFile), flag) == []
  {
    ValuesOfAbsent(InputOpts(inputFile), flag);
  }

  lemma EncoderAbsent(hw: HwAccel, q: QualityLevel, flag: Flag)
    requires !flag.Encode?
    ensures ValuesOf(EncoderOpts(hw, q), flag) == []
  {
    EncoderFlags(hw, q);
    ValuesOfAbsent(EncoderOpts(hw, q), flag);
  }

  /** Every option of the encoder group takes an encoder flag. */
  lemma EncoderFlags(hw: HwAccel, q: QualityLevel)
    ensures forall o :: o in EncoderOpts(hw, q) ==> o.flag.Encode?
  {
    TuningFlags(hw, q);
    var head, tuning, rest := EncoderHead(hw, q), EncoderTuning(hw, q), RateOpts(q) + ProfileOpts(hw);
    assert EncoderOpts(hw, q) == head + tuning + rest;
    forall o | o in EncoderOpts(hw, q) ensures o.flag.Encode? {
      assert o in head || o in tuning || o in rest;
    }
  }

  lemma KeyframeAbsent(flag: Flag)
    requires !flag.Keyframe?
    ensures ValuesOf(KeyframeOpts, flag) == []
  {
    ValuesOfAbsent(KeyframeOpts, flag);
  }

  lemma AudioCodecAbsent(q: QualityLevel, flag: Flag)
    requires !flag.Audio?
    ensures ValuesOf(AudioCodecOpts(q), flag) == []
  {
    ValuesOfAbsent(AudioCodecOpts(q), flag);
  }

  lemma HlsAbsent(segmentPath: string, flag: Flag)
    requires !flag.Muxer?
    ensures ValuesOf(HlsOpts(segmentPath), flag) == []
  {
    ValuesOfAbsent(HlsOpts(segmentPath), flag);
  }

  /** A flag used only by the encoder group: its values are that group's. */
  lemma EncoderOnly(hw: HwAccel, inputFile: string, q: QualityLevel, segmentPath: string,
                    tracks: seq<AudioTrackInfo>, flag: Flag)
    requires flag.Encode?
    ensures ValuesOf(FFmpegOptions(hw, inputFile, q, segmentPath, tracks), flag)
      == ValuesOf(EncoderOpts(hw, q), flag)
  {
    ValuesOfOptions(hw, inputFile, q, segmentPath, tracks, flag);
    BaseAbsent(flag);
    HwInputAbsent(hw, flag);
    InputAbsent(inputFile, flag);
    AudioMapAbsent(|tracks|, flag);
    KeyframeAbsent(flag);
    AudioCodecAbsent(q, flag);
    HlsAbsent(segmentPath, flag);
    MetadataAbsent(tracks, flag);
    Collapse(ValuesOf(BaseOpts, flag), ValuesOf(HwInputOpts(hw), flag), ValuesOf(InputOpts(inputFile), flag),
      ValuesOf(AudioMapOpts(|tracks|), flag), ValuesOf(EncoderOpts(hw, q), flag), ValuesOf(KeyframeOpts, flag),
      ValuesOf(AudioCodecOpts(q), flag), ValuesOf(MetadataOpts(tracks), flag), ValuesOf(HlsOpts(segmentPath), flag));
  }

  /** The flags each encoder's own options take. */
  lemma {:induction false} TuningFlags(hw: HwAccel, q: QualityLevel)
    ensures forall o :: o in EncoderTuning(hw, q) ==> o.flag.Encode? && o.flag.encode != VideoCodec
    ensures forall o :: o in EncoderTuning(hw, q) && o.flag != QualityFlag(hw) ==> o.flag.encode != Qp
    ensures forall o :: o in RateOpts(q) + ProfileOpts(hw) ==> o.flag.Encode? && o.flag != QualityFlag(hw)
  {
    match hw {
      case Vaapi =>
      case Nvenc =>
      case Qsv =>
      case Software =>
    }
  }

  /** The encoder's tuning gives the quality once, under the encoder's flag. */
  lemma {:induction false} TuningQuality(hw: HwAccel, q: QualityLevel)
    ensures ValuesOf(EncoderTuning(hw, q), QualityFlag(hw)) == [Int(QualityValue(hw, q))]
  {
    var t := EncoderTuning(hw, q);
    match hw {
      case Vaapi =>
        assert t[..0] == [];
      case Nvenc =>
        ValuesOfAbsent(t[..2], QualityFlag(hw));
      case Qsv =>
        ValuesOfAbsent(t[..1], QualityFlag(hw));
      case Software =>
        ValuesOfAbsent(t[..2], QualityFlag(hw));
    }
  }

  /** The head of the encoder group names the codec and nothing else. */
  lemma HeadValues(hw: HwAccel, q: QualityLevel, flag: Flag)
    ensures flag == Encode(VideoCodec) ==> ValuesOf(EncoderHead(hw, q), flag) == [Text(EncoderName(hw))]
    ensures flag != Encode(VideoCodec) && flag != Encode(VideoFilterFlag) ==> ValuesOf(EncoderHead(hw, q), flag) == []
  {
    var head := EncoderHead(hw, q);
    ValuesOfAbsent(head[..1], Encode(VideoCodec));
    assert head[..1][..0] == [];
  }

  /** The encoder group names the accelerator's codec once. */
  lemma CodecInGroup(hw: HwAccel, q: QualityLevel)
    ensures ValuesOf(EncoderOpts(hw, q), Encode(VideoCodec)) == [Text(EncoderName(hw))]
  {
    ValuesOfEncoder(hw, q, Encode(VideoCodec));
    HeadValues(hw, q, Encode(VideoCodec));
    CodecNotInTail(hw, q);
  }

  /** Past the head, the encoder group names no codec. */
  lemma CodecNotInTail(hw: HwAccel, q: QualityLevel)
    ensures ValuesOf(EncoderTuning(hw, q), Encode(VideoCodec)) == []
    ensures ValuesOf(RateOpts(q), Encode(VideoCodec)) == []
    ensures ValuesOf(ProfileOpts(hw), Encode(VideoCodec)) == []
  {
    TuningFlags(hw, q);
    ValuesOfAbsent(EncoderTuning(hw, q), Encode(VideoCodec));
    ValuesOfAbsent(RateOpts(q), Encode(VideoCodec));
    ValuesOfAbsent(ProfileOpts(hw), Encode(VideoCodec));
  }

  /** The encoder group gives the quality once, under the encoder's flag. */
  lemma QualityInGroup(hw: HwAccel, q: QualityLevel)
    ensures ValuesOf(EncoderOpts(hw, q), QualityFlag(hw)) == [Int(QualityValue(hw, q))]
  {
    var flag := QualityFlag(hw);
    ValuesOfEncoder(hw, q, flag);
    TuningFlags(hw, q);
    TuningQuality(hw, q);
    HeadValues(hw, q, flag);
    ValuesOfAbsent(RateOpts(q), flag);
    ValuesOfAbsent(ProfileOpts(hw), flag);
  }

  /** The command names exactly one video encoder, the accelerator's. */
  lemma EncoderSelected(hw: HwAccel, inputFile: string, q: QualityLevel, segmentPath: string,
                        tracks: seq<AudioTrackInfo>)
    ensures ValuesOf(FFmpegOptions(hw, inputFile, q, segmentPath, tracks), Encode(VideoCodec)) == [Text(EncoderName(hw))]
  {
    EncoderOnly(hw, inputFile, q, segmentPath, tracks, Encode(VideoCodec));
    CodecInGroup(hw, q);
  }

  /** The quality is set once, under the encoder's own rate-control flag; VAAPI gets CRF + 5. */
  lemma RateControlSet(hw: HwAccel, inputFile: string, q: QualityLevel, segmentPath: string,
                       tracks: seq<AudioTrackInfo>)
    ensures ValuesOf(FFmpegOptions(hw, inputFile, q, segmentPath, tracks), QualityFlag(hw))
      == [Int(QualityValue(hw, q))]
  {
    EncoderOnly(hw, inputFile, q, segmentPath, tracks, QualityFlag(hw));
    QualityInGroup(hw, q);
  }

  /** The input file is given once. */
  lemma InputGivenOnce(hw: HwAccel, inputFile: string, q: QualityLevel, segmentPath: string,
                       tracks: seq<AudioTrackInfo>)
    ensures ValuesOf(FFmpegOptions(hw, inputFile, q, segmentPath, tracks), Source(Input)) == [Text(inputFile)]
  {
    var flag := Source(Input);
    ValuesOfOptions(hw, inputFile, q, segmentPath, tracks, flag);
    InputValues(inputFile);
    BaseAbsent(flag);
    HwInputAbsent(hw, flag);
    AudioMapAbsent(|tracks|, flag);
    EncoderAbsent(hw, q, flag);
    KeyframeAbsent(flag);
    AudioCodecAbsent(q, flag);
    HlsAbsent(segmentPath, flag);
    MetadataAbsent(tracks, flag);
    Collapse(ValuesOf(BaseOpts, flag), ValuesOf(HwInputOpts(hw), flag), ValuesOf(InputOpts(inputFile), flag),
      ValuesOf(AudioMapOpts(|tracks|), flag), ValuesOf(EncoderOpts(hw, q), flag), ValuesOf(KeyframeOpts, flag),
      ValuesOf(AudioCodecOpts(q), flag), ValuesOf(MetadataOpts(tracks), flag), ValuesOf(HlsOpts(segmentPath), flag));
  }

  /** When every option has the flag, its values are the options' values in order. */
  lemma {:induction false} ValuesOfAll(opts: seq<Opt>, flag: Flag)
    requires forall o :: o in opts ==> o.flag == flag
    ensures var vs := ValuesOf(opts, flag);
      |vs| == |opts| && forall i :: 0 <= i < |opts| ==> vs[i] == opts[i].value
  {
    if opts != [] {
      ValuesOfAll(opts[..|opts| - 1], flag);
    }
  }

  lemma AudioMapValues(n: nat)
    ensures var vs := ValuesOf(AudioMaps(n), Source(MapStream));
      |vs| == n && forall i :: 0 <= i < n ==> vs[i] == AudioStream(i)
  {
    var m := AudioMaps(n);
    forall o | o in m ensures o.flag == Source(MapStream) {
      var i :| 0 <= i < n && m[i] == o;
    }
    ValuesOfAll(m, Source(MapStream));
  }

  /** The input group gives the input file and the first video stream's map. */
  lemma InputValues(inputFile: string)
    ensures ValuesOf(InputOpts(inputFile), Source(Input)) == [Text(inputFile)]
    ensures ValuesOf(InputOpts(inputFile), Source(MapStream)) == [Text("0:v:0")]
  {
    var g := InputOpts(inputFile);
    assert g[..1] == [g[0]] && g[..1][..0] == [];
  }

  /** Without several tracks, one optional map takes every audio stream. */
  lemma EveryAudioStream(n: nat)
    requires n <= 1
    ensures ValuesOf(AudioMapOpts(n), Source(MapStream)) == [Text("0:a?")]
  {
    var m := AudioMapOpts(n);
    assert m[..0] == [];
  }

  /** The maps come from the input group's video map and the audio maps alone. */
  lemma MapsSplit(hw: HwAccel, inputFile: string, q: QualityLevel, segmentPath: string,
                  tracks: seq<AudioTrackInfo>)
    ensures ValuesOf(FFmpegOptions(hw, inputFile, q, segmentPath, tracks), Source(MapStream))
      == [Text("0:v:0")] + ValuesOf(AudioMapOpts(|tracks|), Source(MapStream))
  {
    var flag := Source(MapStream);
    ValuesOfOptions(hw, inputFile, q, segmentPath, tracks, flag);
    InputValues(inputFile);
    BaseAbsent(flag);
    HwInputAbsent(hw, flag);
    EncoderAbsent(hw, q, flag);
    KeyframeAbsent(flag);
    AudioCodecAbsent(q, flag);
    HlsAbsent(segmentPath, flag);
    MetadataAbsent(tracks, flag);
    Collapse(ValuesOf(BaseOpts, flag), ValuesOf(HwInputOpts(hw), flag), ValuesOf(InputOpts(inputFile), flag),
      ValuesOf(AudioMapOpts(|tracks|), flag), ValuesOf(EncoderOpts(hw, q), flag), ValuesOf(KeyframeOpts, flag),
      ValuesOf(AudioCodecOpts(q), flag), ValuesOf(MetadataOpts(tracks), flag), ValuesOf(HlsOpts(segmentPath), flag));
  }

  /** The maps, in order: the first video stream, then audio stream i for each of
   *  several tracks, or every audio stream there is. */
  lemma MapsInOrder(hw: HwAccel, inputFile: string, q: QualityLevel, segmentPath: string,
                    tracks: seq<AudioTrackInfo>)
    ensures |tracks| <= 1 ==>
      ValuesOf(FFmpegOptions(hw, inputFile, q, segmentPath, tracks), Source(MapStream))
      == [Text("0:v:0"), Text("0:a?")]
    ensures |tracks| > 1 ==>
      var vs := ValuesOf(FFmpegOptions(hw, inputFile, q, segmentPath, tracks), Source(MapStream));
      |vs| == |tracks| + 1 && vs[0] == Text("0:v:0")
      && forall i :: 0 <= i < |tracks| ==> vs[i + 1] == AudioStream(i)
  {
    MapsSplit(hw, inputFile, q, segmentPath, tracks);
    var n := |tracks|;
    if n > 1 {
      var audio := ValuesOf(AudioMaps(n), Source(MapStream));
      AudioMapValues(n);
      assert AudioMapOpts(n) == AudioMaps(n);
      var vs := [Text("0:v:0")] + audio;
      assert forall i :: 0 <= i < n ==> vs[i + 1] == audio[i];
    } else {
      EveryAudioStream(n);
    }
  }

  /** Track i's metadata: its language, then its title exactly when it has one. */
  lemma {:induction false} MetadataValues(tracks: seq<AudioTrackInfo>, i: nat)
    requires i < |tracks|
    ensures ValuesOf(MetadataOpts(tracks), AudioMetadata(i))
      == [Text("language=" + tracks[i].language)]
         + (if tracks[i].title != "" then [Text("title=" + tracks[i].title)] else [])
  {
    var n := |tracks| - 1;
    var init := tracks[..n];
    var flag := AudioMetadata(i);
    ValuesOfConcat(MetadataOpts(init), TrackMetadata(tracks[n], n), flag);
    if i < n {
      MetadataValues(init, i);
      assert init[i] == tracks[i];
      TrackMetadataValues(tracks[n], n, flag);
    } else {
      MetadataFlags(init);
      ValuesOfAbsent(MetadataOpts(init), flag);
      TrackMetadataValues(tracks[n], n, flag);
    }
  }

  /** A track's metadata options give its language and title to its own flag and nothing to another. */
  lemma TrackMetadataValues(t: AudioTrackInfo, i: nat, flag: Flag)
    ensures flag == AudioMetadata(i) ==>
      ValuesOf(TrackMetadata(t, i), flag)
      == [Text("language=" + t.language)] + (if t.title != "" then [Text("title=" + t.title)] else [])
    ensures flag != AudioMetadata(i) ==> ValuesOf(TrackMetadata(t, i), flag) == []
  {
    var m := TrackMetadata(t, i);
    assert m[..1] == [m[0]] && m[..1][..0] == [];
  }

  /** In the whole command, each track's metadata flag carries its language and title only. */
  lemma TrackLabelled(hw: HwAccel, inputFile: string, q: QualityLevel, segmentPath: string,
                      tracks: seq<AudioTrackInfo>, i: nat)
    requires i < |tracks|
    ensures ValuesOf(FFmpegOptions(hw, inputFile, q, segmentPath, tracks), AudioMetadata(i))
      == [Text("language=" + tracks[i].language)]
         + (if tracks[i].title != "" then [Text("title=" + tracks[i].title)] else [])
  {
    var flag := AudioMetadata(i);
    ValuesOfOptions(hw, inputFile, q, segmentPath, tracks, flag);
    BaseAbsent(flag);
    HwInputAbsent(hw, flag);
    InputAbsent(inputFile, flag);
    AudioMapAbsent(|tracks|, flag);
    EncoderAbsent(hw, q, flag);
    KeyframeAbsent(flag);
    AudioCodecAbsent(q, flag);
    HlsAbsent(segmentPath, flag);
    MetadataValues(tracks, i);
    Collapse(ValuesOf(BaseOpts, flag), ValuesOf(HwInputOpts(hw), flag), ValuesOf(InputOpts(inputFile), flag),
      ValuesOf(AudioMapOpts(|tracks|), flag), ValuesOf(EncoderOpts(hw, q), flag), ValuesOf(KeyframeOpts, flag),
      ValuesOf(AudioCodecOpts(q), flag), ValuesOf(MetadataOpts(tracks), flag), ValuesOf(HlsOpts(segmentPath), flag));
  }
}

/**
 * The video player component (frontend/src/components/player/ShakaVideoPlayer.jsx):
 * the effect that binds a source to a Shaka Player engine and its cleanup, the
 * quality ladder and quality switching, the seek and volume controls, the
 * keyboard shortcuts and the time display.
 *
 * Engines are abstract handles numbered in creation order. What an engine does
 * with a manifest is summarised by the outcome of an initialisation and by the
 * variant tracks it reports. The asynchronous initialisation is split into the
 * synchronous guard (Bind) and the rest of initPlayer (Complete), so that other
 * calls may fall in between.
 */
module ShakaPlayer {
  import opened Common

  // ---------------------------------------------------------------------
  // JavaScript numbers

  /** A JavaScript number: a finite value, NaN or an infinity. */
  datatype JsNumber = Num(value: real) | NaN | Infinity | NegInfinity

  /** k * d, with IEEE results for the non-finite cases. */
  function Times(k: real, d: JsNumber): JsNumber {
    match d
    case Num(v) => Num(k * v)
    case NaN => NaN
    case Infinity => if k > 0.0 then Infinity else if k < 0.0 then NegInfinity else NaN
    case NegInfinity => if k > 0.0 then NegInfinity else if k < 0.0 then Infinity else NaN
  }

  function Min(a: real, b: real): real { if a <= b then a else b }
  function Max(a: real, b: real): real { if a >= b then a else b }

  // ---------------------------------------------------------------------
  // formatTime

  /** Math.trunc. */
  function Trunc(y: real): int {
    if y >= 0.0 then y.Floor else -((-y).Floor)
  }

  /** JavaScript's % on numbers: the remainder has the sign of the dividend. */
  function JsRem(x: real, k: real): real
    requires k > 0.0
  {
    x - k * Trunc(x / k) as real
  }

  /** String() of an integral number. */
  function IntText(i: int): string {
    if i < 0 then "-" + NatToString(-i) else NatToString(i)
  }

  /**
   * formatTime: "0:00" for 0 and NaN; otherwise hours, minutes and seconds by floor,
   * division and remainder, shown as h:mm:ss when the hours are positive and m:ss otherwise.
   */
  function FormatTime(t: JsNumber): string {
    match t
    case NaN => "0:00"
    case Num(x) =>
      if x == 0.0 then "0:00"
      else
        var h := (x / 3600.0).Floor;
        var m := (JsRem(x, 3600.0) / 60.0).Floor;
        var s := JsRem(x, 60.0).Floor;
        if h > 0 then IntText(h) + ":" + PadStart2(IntText(m)) + ":" + PadStart2(IntText(s))
        else IntText(m) + ":" + PadStart2(IntText(s))
    // Infinity / 3600 is positive and Infinity % 3600 is NaN.
    case Infinity => "Infinity:" + PadStart2("NaN") + ":" + PadStart2("NaN")
    // -Infinity / 3600 is not positive and the minutes and seconds are NaN.
    case NegInfinity => "NaN:" + PadStart2("NaN")
  }

  /** A whole number of seconds as h:mm:ss from one hour on and as m:ss below it. */
  function Clock(n: nat): string {
    if n >= 3600 then NatToString(n / 3600) + ":" + Pad2(n % 3600 / 60) + ":" + Pad2(n % 60)
    else NatToString(n / 60) + ":" + Pad2(n % 60)
  }

  /** Reads a displayed time back: m:ss or h:mm:ss with two-digit minutes and seconds after the first field. */
  function ParseClock(s: string): Option<nat> {
    ClockFieldsValue(SplitOn(s, ':'))
  }

  function ClockFieldsValue(parts: seq<string>): Option<nat> {
    if |parts| == 2 && ClockFields2(parts[0], parts[1]) then Some(Seconds2(parts[0], parts[1]))
    else if |parts| == 3 && ClockFields3(parts[0], parts[1], parts[2]) then Some(Seconds3(parts[0], parts[1], parts[2]))
    else None
  }

  /** A leading field of digits and a field of exactly two digits. */
  predicate ClockFields2(m: string, sec: string) {
    |m| > 0 && AllDigits(m) && |sec| == 2 && AllDigits(sec)
  }

  predicate ClockFields3(h: string, m: string, sec: string) {
    |h| > 0 && AllDigits(h) && |m| == 2 && AllDigits(m) && |sec| == 2 && AllDigits(sec)
  }

  function Seconds2(m: string, sec: string): nat
    requires ClockFields2(m, sec)
  {
    ParseDigits(m) * 60 + ParseDigits(sec)
  }

  function Seconds3(h: string, m: string, sec: string): nat
    requires ClockFields3(h, m, sec)
  {
    ParseDigits(h) * 3600 + ParseDigits(m) * 60 + ParseDigits(sec)
  }

  lemma FloorDiv60(x: real)
    requires x >= 0.0
    ensures (x / 60.0).Floor == x.Floor / 60
  {
  }

  lemma FloorDiv3600(x: real)
    requires x >= 0.0
    ensures (x / 3600.0).Floor == x.Floor / 3600
  {
  }

  lemma ClockOfZero()
    ensures Clock(0) == "0:00"
  {
    assert NatToString(0) == "0";
    assert Pad2(0) == "00";
  }

  /** The hour, minute and second fields formatTime computes from a positive time. */
  lemma TimeFields(x: real)
    requires x > 0.0
    ensures (x / 3600.0).Floor == x.Floor / 3600
    ensures (JsRem(x, 3600.0) / 60.0).Floor == x.Floor % 3600 / 60
    ensures JsRem(x, 60.0).Floor == x.Floor % 60
  {
    var n := x.Floor;
    FloorDiv3600(x);
    FloorDiv60(x);
    var r1 := JsRem(x, 3600.0);
    assert r1 == x - (3600 * (n / 3600)) as real;
    assert r1.Floor == n % 3600;
    FloorDiv60(r1);
    assert JsRem(x, 60.0) == x - (60 * (n / 60)) as real;
  }

  /** A non-negative time is shown as its whole seconds on a clock. */
  lemma FormatTimeWhole(x: real)
    requires x >= 0.0
    ensures FormatTime(Num(x)) == Clock(x.Floor as nat)
  {
    var n := x.Floor as nat;
    if x == 0.0 {
      ClockOfZero();
    } else {
      TimeFields(x);
      var h, m, sec := (x / 3600.0).Floor, (JsRem(x, 3600.0) / 60.0).Floor, JsRem(x, 60.0).Floor;
      assert IntText(h) == NatToString(n / 3600);
      assert PadStart2(IntText(m)) == Pad2(n % 3600 / 60);
      assert PadStart2(IntText(sec)) == Pad2(n % 60);
      if h <= 0 {
        assert n % 3600 / 60 == n / 60;
      }
    }
  }

  lemma ParseTwoFields(a: string, b: string)
    requires ClockFields2(a, b)
    ensures ParseClock(a + ":" + b) == Some(Seconds2(a, b))
  {
    var parts := [a, b];
    assert |parts| == 2 && parts[0] == a && parts[1] == b;
    assert SplitOn(a + ":" + b, ':') == parts by {
      DigitsHaveNoColon(a);
      DigitsHaveNoColon(b);
      SplitWithoutSep(b, ':');
      assert a + ":" + b == a + [':'] + b;
      SplitAtSep(a, b, ':');
    }
  }

  lemma ParseThreeFields(a: string, b: string, c: string)
    requires ClockFields3(a, b, c)
    ensures ParseClock(a + ":" + b + ":" + c) == Some(Seconds3(a, b, c))
  {
    SplitThree(a, b, c);
    var parts := [a, b, c];
    assert |parts| == 3 && parts[0] == a && parts[1] == b && parts[2] == c;
  }

  lemma SplitThree(a: string, b: string, c: string)
    requires AllDigits(a) && AllDigits(b) && AllDigits(c)
    ensures SplitOn(a + ":" + b + ":" + c, ':') == [a, b, c]
  {
    DigitsHaveNoColon(a);
    DigitsHaveNoColon(b);
    DigitsHaveNoColon(c);
    SplitWithoutSep(c, ':');
    SplitAtSep(b, c, ':');
    assert a + ":" + b + ":" + c == a + [':'] + (b + [':'] + c);
    SplitAtSep(a, b + [':'] + c, ':');
  }

  lemma ModUnique60(n: int, q: int, r: int)
    requires 0 <= r < 60 && n == 60 * q + r
    ensures n % 60 == r && n / 60 == q
  {
  }

  lemma ClockFields(n: nat)
    ensures n == n / 3600 * 3600 + n % 3600 / 60 * 60 + n % 60
    ensures n < 3600 ==> n == n / 60 * 60 + n % 60
  {
    var h, r := n / 3600, n % 3600;
    var q, sec := r / 60, r % 60;
    assert n == 60 * (60 * h + q) + sec;
    ModUnique60(n, 60 * h + q, sec);
  }

  lemma ClockRoundTrip(n: nat)
    ensures ParseClock(Clock(n)) == Some(n)
  {
    ClockFields(n);
    if n >= 3600 {
      HoursRoundTrip(n);
    } else {
      MinutesRoundTrip(n);
    }
  }

  lemma HoursRoundTrip(n: nat)
    requires n >= 3600 && n == n / 3600 * 3600 + n % 3600 / 60 * 60 + n % 60
    ensures ParseClock(Clock(n)) == Some(n)
  {
    var a, b, c := NatToString(n / 3600), Pad2(n % 3600 / 60), Pad2(n % 60);
    assert Clock(n) == a + ":" + b + ":" + c;
    assert ClockFields3(a, b, c);
    ParseThreeFields(a, b, c);
    ParseNatToString(n / 3600);
    ParsePad2(n % 3600 / 60);
    ParsePad2(n % 60);
    assert Seconds3(a, b, c) == n / 3600 * 3600 + n % 3600 / 60 * 60 + n % 60;
  }

  lemma MinutesRoundTrip(n: nat)
    requires n < 3600 && n == n / 60 * 60 + n % 60
    ensures ParseClock(Clock(n)) == Some(n)
  {
    var a, c := NatToString(n / 60), Pad2(n % 60);
    assert Clock(n) == a + ":" + c;
    assert ClockFields2(a, c);
    ParseTwoFields(a, c);
    ParseNatToString(n / 60);
    ParsePad2(n % 60);
    assert Seconds2(a, c) == n / 60 * 60 + n % 60;
  }

  /** The time display loses only the fraction of a second: it reads back as the whole seconds shown. */
  lemma FormatTimeRoundTrip(x: real)
    requires x >= 0.0
    ensures ParseClock(FormatTime(Num(x))) == Some(x.Floor as nat)
  {
    FormatTimeWhole(x);
    ClockRoundTrip(x.Floor as nat);
  }

  // ---------------------------------------------------------------------
  // The quality ladder

  /** A variant track as the engine reports it: its height and whether it is playing. */
  datatype Track = Track(height: nat, active: bool)

  function Heights(tracks: seq<Track>): (hs: seq<nat>)
    ensures |hs| == |tracks| && forall i :: 0 <= i < |tracks| ==> hs[i] == tracks[i].height
  {
    seq(|tracks|, i requires 0 <= i < |tracks| => tracks[i].height)
  }

  predicate StrictlyDescending(s: seq<nat>) {
    forall i, j :: 0 <= i < j < |s| ==> s[i] > s[j]
  }

  /** Adds x to a strictly descending sequence, keeping it strictly descending. */
  function InsertDescending(x: nat, s: seq<nat>): (r: seq<nat>)
    requires StrictlyDescending(s)
    ensures StrictlyDescending(r)
    ensures forall v :: v in r <==> v == x || v in s
    decreases |s|
  {
    if s == [] || x > s[0] then [x] + s
    else if x == s[0] then s
    else
      var rest := InsertDescending(x, s[1..]);
      HeadAbove(s, x, rest);
      [s[0]] + rest
  }

  lemma HeadAbove(s: seq<nat>, x: nat, rest: seq<nat>)
    requires StrictlyDescending(s) && s != [] && x < s[0] && StrictlyDescending(rest)
    requires forall v :: v in rest <==> v == x || v in s[1..]
    ensures StrictlyDescending([s[0]] + rest)
  {
    forall k | 0 <= k < |rest|
      ensures rest[k] < s[0]
    {
      assert rest[k] in rest;
      if rest[k] != x {
        var m :| 0 <= m < |s[1..]| && s[1..][m] == rest[k];
        assert s[m + 1] == rest[k];
      }
    }
    var r := [s[0]] + rest;
    forall i, j | 0 <= i < j < |r|
      ensures r[i] > r[j]
    {
      if i > 0 {
        assert r[i] == rest[i - 1] && r[j] == rest[j - 1];
      }
    }
  }

  /** The distinct values of hs from the largest down: [...new Set(hs)].sort((a, b) => b - a). */
  function DistinctDescending(hs: seq<nat>): (r: seq<nat>)
    ensures StrictlyDescending(r)
    ensures forall v :: v in r <==> v in hs
  {
    if hs == [] then [] else InsertDescending(hs[|hs| - 1], DistinctDescending(hs[..|hs| - 1]))
  }

  /** A strictly descending sequence is determined by its elements, so the ladder does not depend on how it is sorted. */
  lemma {:induction false} DescendingUnique(a: seq<nat>, b: seq<nat>)
    requires StrictlyDescending(a) && StrictlyDescending(b)
    requires forall v :: v in a <==> v in b
    ensures a == b
    decreases |a|
  {
    if b != [] {
      assert b[0] in a;
    }
    if a != [] {
      assert a[0] in b;
      var j :| 0 <= j < |b| && b[j] == a[0];
      var i :| 0 <= i < |a| && a[i] == b[0];
      assert a[0] == b[0] by {
        assert a[0] >= a[i];
        assert b[0] >= b[j];
      }
      TailElements(a, b);
      TailElements(b, a);
      DescendingUnique(a[1..], b[1..]);
    }
  }

  /** With equal heads, an element of one tail is an element of the other's. */
  lemma TailElements(a: seq<nat>, b: seq<nat>)
    requires StrictlyDescending(a) && StrictlyDescending(b)
    requires forall v :: v in a <==> v in b
    requires a != [] && b != [] && a[0] == b[0]
    ensures forall v :: v in a[1..] ==> v in b[1..]
  {
    forall v | v in a[1..]
      ensures v in b[1..]
    {
      var x :| 1 <= x < |a| && a[x] == v;
      assert v in a;
      var y :| 0 <= y < |b| && b[y] == v;
      assert y != 0;
      assert b[1..][y - 1] == v;
    }
  }

  /** The label of a height: `${h}p`. */
  function HeightLabel(h: nat): string {
    NatToString(h) + "p"
  }

  function Labels(hs: seq<nat>): (q: seq<string>)
    ensures |q| == |hs| && forall k :: 0 <= k < |hs| ==> q[k] == HeightLabel(hs[k])
  {
    seq(|hs|, k requires 0 <= k < |hs| => HeightLabel(hs[k]))
  }

  /** The quality menu: 'auto', then one label per distinct track height, highest first. */
  function Ladder(tracks: seq<Track>): (q: seq<string>)
    ensures |q| >= 1 && q[0] == "auto"
  {
    ["auto"] + Labels(DistinctDescending(Heights(tracks)))
  }

  /** parseInt on a quality label: leading white space is skipped, then the leading decimal digits are read. */
  function ParseQuality(q: string): Option<nat> {
    ScanNat(TrimLeft(q, JsIsSpace))
  }

  lemma ParseHeightLabel(h: nat)
    ensures ParseQuality(HeightLabel(h)) == Some(h)
  {
    var d := NatToString(h);
    var text := HeightLabel(h);
    assert text[0] == d[0];
    DigitIsNotJsSpace(d[0]);
    assert TrimLeft(text, JsIsSpace) == text;
    ScanNatOfRendered(h, "p");
  }

  /**
   * The ladder reads back as the distinct track heights in strictly descending order:
   * every label after 'auto' names a height some track has, and every height has a label.
   */
  lemma LadderHeights(tracks: seq<Track>)
    ensures var q := Ladder(tracks);
      (forall i :: 1 <= i < |q| ==>
        (ParseQuality(q[i]).Some? && exists t :: 0 <= t < |tracks| && tracks[t].height == ParseQuality(q[i]).value))
      && (forall i, j :: 1 <= i < j < |q| ==> ParseQuality(q[i]).value > ParseQuality(q[j]).value)
      && (forall t :: 0 <= t < |tracks| ==> HeightLabel(tracks[t].height) in q)
  {
    LadderNamesHeights(tracks);
    LadderDescending(tracks);
    LadderCoversTracks(tracks);
  }

  lemma LadderNamesHeights(tracks: seq<Track>)
    ensures var q := Ladder(tracks);
      forall i :: 1 <= i < |q| ==>
        (ParseQuality(q[i]).Some? && exists t :: 0 <= t < |tracks| && tracks[t].height == ParseQuality(q[i]).value)
  {
    var hs := DistinctDescending(Heights(tracks));
    LabelsReadBack(hs);
    forall k | 0 <= k < |hs|
      ensures exists t :: 0 <= t < |tracks| && tracks[t].height == hs[k]
    {
      assert hs[k] in Heights(tracks);
    }
    LadderIndexes(tracks);
  }

  lemma LadderDescending(tracks: seq<Track>)
    ensures var q := Ladder(tracks);
      forall i :: 1 <= i < |q| ==> ParseQuality(q[i]).Some?
    ensures var q := Ladder(tracks);
      forall i, j :: 1 <= i < j < |q| ==> ParseQuality(q[i]).value > ParseQuality(q[j]).value
  {
    var hs := DistinctDescending(Heights(tracks));
    LabelsReadBack(hs);
    LadderIndexes(tracks);
  }

  lemma LadderCoversTracks(tracks: seq<Track>)
    ensures forall t :: 0 <= t < |tracks| ==> HeightLabel(tracks[t].height) in Ladder(tracks)
  {
    var hs := DistinctDescending(Heights(tracks));
    var labels := Labels(hs);
    forall t | 0 <= t < |tracks|
      ensures HeightLabel(tracks[t].height) in Ladder(tracks)
    {
      assert tracks[t].height in Heights(tracks);
      var k :| 0 <= k < |hs| && hs[k] == tracks[t].height;
      assert Ladder(tracks)[k + 1] == labels[k] == HeightLabel(tracks[t].height);
    }
  }

  lemma LabelsReadBack(hs: seq<nat>)
    ensures forall k :: 0 <= k < |hs| ==> ParseQuality(Labels(hs)[k]) == Some(hs[k])
  {
    forall k | 0 <= k < |hs|
      ensures ParseQuality(Labels(hs)[k]) == Some(hs[k])
    {
      ParseHeightLabel(hs[k]);
    }
  }

  lemma LadderIndexes(tracks: seq<Track>)
    ensures var q := Ladder(tracks);
      var labels := Labels(DistinctDescending(Heights(tracks)));
      forall i :: 1 <= i < |q| ==> q[i] == labels[i - 1]
  {
  }

  /** Array.prototype.find from position i on: the first track satisfying p. */
  function FindFirst(tracks: seq<Track>, p: Track -> bool, i: nat): (r: Option<nat>)
    requires i <= |tracks|
    ensures r.Some? ==>
      (i <= r.value < |tracks| && p(tracks[r.value]) && forall j :: i <= j < r.value ==> !p(tracks[j]))
    ensures r.None? ==> forall j :: i <= j < |tracks| ==> !p(tracks[j])
    decreases |tracks| - i
  {
    if i == |tracks| then None
    else if p(tracks[i]) then Some(i)
    else FindFirst(tracks, p, i + 1)
  }

  function HeightIs(h: nat): Track -> bool {
    (t: Track) => t.height == h
  }

  predicate IsActive(t: Track) {
    t.active
  }

  /** The track changeQuality selects for a label: the first with that height, if the label has a height. */
  function Chosen(quality: string, tracks: seq<Track>): (r: Option<Track>)
    ensures r.Some? ==> r.value in tracks && ParseQuality(quality) == Some(r.value.height)
    ensures r.Some? ==> exists i :: (0 <= i < |tracks| && tracks[i] == r.value
      && forall j :: 0 <= j < i ==> tracks[j].height != r.value.height)
    ensures ParseQuality(quality).None? ==> r.None?
    ensures ParseQuality(quality).Some? ==>
      (r.None? <==> forall t :: t in tracks ==> t.height != ParseQuality(quality).value)
  {
    match ParseQuality(quality)
    case None => None
    case Some(h) =>
      match FindFirst(tracks, HeightIs(h), 0)
      case None => None
      case Some(i) => Some(tracks[i])
  }

  /** Every quality the menu offers besides 'auto' selects a track of that height. */
  lemma OfferedQualitySelectable(tracks: seq<Track>, i: nat)
    requires 1 <= i < |Ladder(tracks)|
    ensures var c := Chosen(Ladder(tracks)[i], tracks);
      c.Some? && HeightLabel(c.value.height) == Ladder(tracks)[i]
  {
    var hs := DistinctDescending(Heights(tracks));
    var h := hs[i - 1];
    LadderIndexes(tracks);
    var q := Ladder(tracks)[i];
    assert q == HeightLabel(h);
    ParseHeightLabel(h);
    assert h in Heights(tracks);
    var t :| 0 <= t < |tracks| && tracks[t].height == h;
    assert HeightIs(h)(tracks[t]);
    assert FindFirst(tracks, HeightIs(h), 0).Some?;
    assert Chosen(q, tracks).Some?;
  }

  // ---------------------------------------------------------------------
  // Binding a source to an engine

  /** How the asynchronous part of initPlayer ends. */
  datatype InitOutcome =
    | Unsupported    // isBrowserSupported() is false
    | AttachFailed   // attach() threw
    | LoadFailed     // load() threw
    | Loaded

  function Bound(player: Option<nat>): set<nat> {
    if player.Some? then {player.value} else {}
  }

  class PlayerComponent {
    /** initializingRef. */
    var initializing: bool
    /** currentSrcRef (None for null). */
    var currentSrc: Option<string>
    /** playerRef: the handle of the engine in use. */
    var player: Option<nat>
    /** The engines created and not destroyed yet. */
    var engines: set<nat>
    /** The handle the next engine created gets. */
    var nextEngine: nat
    var qualities: seq<string>
    var currentQuality: string
    var showSettings: bool
    /** The engine's adaptive-bitrate switch and the variant last selected by hand. */
    var abrEnabled: bool
    var selected: Option<Track>

    /** Handles are issued in order and the engine in use is alive. */
    ghost predicate Valid()
      reads this
    {
      (forall e :: e in engines ==> e < nextEngine) && Bound(player) <= engines
    }

    /** No engine is alive except the one in playerRef, so at most one exists. */
    ghost predicate NoLeak()
      reads this
    {
      engines == Bound(player)
    }

    constructor ()
      ensures Valid() && NoLeak()
      ensures !initializing && currentSrc.None? && player.None? && engines == {} && nextEngine == 0
      ensures qualities == [] && currentQuality == "auto" && !showSettings && abrEnabled && selected.None?
    {
      initializing := false;
      currentSrc := None;
      player := None;
      engines := {};
      nextEngine := 0;
      qualities := [];
      currentQuality := "auto";
      showSettings := false;
      abrEnabled := true;
      selected := None;
    }

    /**
     * The synchronous part of the effect: nothing happens without a source ("" stands for
     * null and the empty string) or a video element, while an initialisation is in flight,
     * or when the source is the one already bound; otherwise the initializing flag is set.
     */
    method Bind(src: string, hasVideo: bool) returns (started: bool)
      modifies this`initializing
      ensures started <==> src != "" && hasVideo && !old(initializing) && old(currentSrc) != Some(src)
      ensures initializing == (old(initializing) || started)
    {
      if src == "" || !hasVideo || initializing || currentSrc == Some(src) {
        return false;
      }
      initializing := true;
      return true;
    }

    /** Destroys the engine in use, if any (errors swallowed), and creates a new one, whose adaptive bitrate is on. */
    method ReplaceEngine() returns (engine: nat)
      requires Valid()
      modifies this`player, this`engines, this`nextEngine, this`abrEnabled, this`selected
      ensures engine == old(nextEngine) && nextEngine == engine + 1
      ensures player.None? && engines == old(engines) - Bound(old(player)) + {engine}
      ensures abrEnabled && selected.None?
      ensures forall e :: e in engines ==> e < nextEngine
    {
      if player.Some? {
        engines := engines - {player.value};
        player := None;
      }
      engine := nextEngine;
      nextEngine := nextEngine + 1;
      engines := engines + {engine};
      abrEnabled := true;
      selected := None;
    }

    /**
     * The rest of initPlayer, as written: an unsupported browser changes nothing; otherwise
     * the previous engine is destroyed (errors swallowed) and a new one created. If attach
     * throws, the new engine is neither kept nor destroyed. The flag is cleared on every path.
     */
    method Complete(src: string, outcome: InitOutcome, tracks: seq<Track>)
      requires Valid() && initializing
      modifies this`initializing, this`currentSrc, this`player, this`engines, this`nextEngine
      modifies this`qualities, this`abrEnabled, this`selected
      ensures Valid() && !initializing
      ensures outcome == Unsupported ==>
        player == old(player) && engines == old(engines) && nextEngine == old(nextEngine)
        && currentSrc == old(currentSrc) && qualities == old(qualities)
        && abrEnabled == old(abrEnabled) && selected == old(selected)
      ensures outcome != Unsupported ==>
        nextEngine == old(nextEngine) + 1
        && engines == old(engines) - Bound(old(player)) + {old(nextEngine)}
        && abrEnabled && selected.None?
      ensures outcome == AttachFailed ==>
        player.None? && currentSrc.None? && qualities == old(qualities) && old(nextEngine) in engines && !NoLeak()
      ensures outcome == LoadFailed ==> player == Some(old(nextEngine)) && currentSrc.None? && qualities == old(qualities)
      ensures outcome == Loaded ==> player == Some(old(nextEngine)) && currentSrc == Some(src) && qualities == Ladder(tracks)
      ensures old(NoLeak()) && outcome != AttachFailed ==> NoLeak()
    {
      if outcome == Unsupported {
        initializing := false;
        return;
      }
      var engine := ReplaceEngine();
      if outcome == AttachFailed {
        currentSrc := None;
      } else {
        player := Some(engine);
        currentSrc := Some(src);
        if outcome == Loaded {
          qualities := Ladder(tracks);
        } else {
          currentSrc := None;
        }
      }
      initializing := false;
    }

    /** initPlayer corrected: an engine whose attach fails is destroyed, so no engine is ever leaked. */
    method CompleteReleasing(src: string, outcome: InitOutcome, tracks: seq<Track>)
      requires Valid() && initializing
      modifies this`initializing, this`currentSrc, this`player, this`engines, this`nextEngine
      modifies this`qualities, this`abrEnabled, this`selected
      ensures Valid() && !initializing
      ensures outcome == Unsupported ==>
        player == old(player) && engines == old(engines) && nextEngine == old(nextEngine)
        && currentSrc == old(currentSrc) && qualities == old(qualities)
        && abrEnabled == old(abrEnabled) && selected == old(selected)
      ensures outcome != Unsupported ==> nextEngine == old(nextEngine) + 1
      ensures outcome == AttachFailed ==>
        player.None? && currentSrc.None? && qualities == old(qualities) && engines == old(engines) - Bound(old(player))
      ensures outcome == LoadFailed ==> player == Some(old(nextEngine)) && currentSrc.None? && qualities == old(qualities)
      ensures outcome == Loaded ==> player == Some(old(nextEngine)) && currentSrc == Some(src) && qualities == Ladder(tracks)
      ensures outcome == LoadFailed || outcome == Loaded ==> engines == old(engines) - Bound(old(player)) + {old(nextEngine)}
      ensures old(NoLeak()) ==> NoLeak()
    {
      if outcome == Unsupported {
        initializing := false;
        return;
      }
      var engine := ReplaceEngine();
      if outcome == AttachFailed {
        engines := engines - {engine};
        currentSrc := None;
      } else {
        player := Some(engine);
        currentSrc := Some(src);
        if outcome == Loaded {
          qualities := Ladder(tracks);
        } else {
          currentSrc := None;
        }
      }
      initializing := false;
    }

    /** The destroy method of the component's imperative handle: the engine in use is destroyed and cleared. */
    method Destroy()
      requires Valid()
      modifies this`player, this`engines
      ensures Valid()
      ensures player.None? && engines == old(engines) - Bound(old(player))
      ensures old(NoLeak()) ==> NoLeak() && engines == {}
    {
      if player.Some? {
        engines := engines - {player.value};
        player := None;
      }
    }

    /** The effect's cleanup: the engine in use is destroyed (errors ignored) and the bound source forgotten. */
    method Cleanup()
      requires Valid()
      modifies this`player, this`engines, this`currentSrc
      ensures Valid()
      ensures player.None? && currentSrc.None? && engines == old(engines) - Bound(old(player))
      ensures old(NoLeak()) ==> NoLeak() && engines == {}
    {
      Destroy();
      currentSrc := None;
    }

    /**
     * changeQuality: without an engine nothing happens; otherwise the label becomes the current
     * quality and the menu closes; 'auto' turns ABR on, any other label turns it off and selects
     * the first track whose height parseInt reads from the label, when there is one.
     */
    method ChangeQuality(quality: string, tracks: seq<Track>)
      modifies this`currentQuality, this`showSettings, this`abrEnabled, this`selected
      ensures player.None? ==>
        currentQuality == old(currentQuality) && showSettings == old(showSettings)
        && abrEnabled == old(abrEnabled) && selected == old(selected)
      ensures player.Some? ==> currentQuality == quality && !showSettings
      ensures player.Some? && quality == "auto" ==> abrEnabled && selected == old(selected)
      ensures player.Some? && quality != "auto" ==>
        !abrEnabled && selected == (if Chosen(quality, tracks).Some? then Chosen(quality, tracks) else old(selected))
    {
      if player.None? {
        return;
      }
      currentQuality := quality;
      showSettings := false;
      if quality == "auto" {
        abrEnabled := true;
      } else {
        var h := ParseQuality(quality);
        abrEnabled := false;
        if h.Some? {
          var found := FindFirst(tracks, HeightIs(h.value), 0);
          if found.Some? {
            selected := Some(tracks[found.value]);
          }
        }
      }
    }

    /** The 'trackschanged' listener: the menu is rebuilt from the engine's tracks. */
    method OnTracksChanged(tracks: seq<Track>)
      modifies this`qualities
      ensures qualities == Ladder(tracks)
    {
      qualities := Ladder(tracks);
    }

    /** The 'adaptation' listener: the current quality becomes the label of the first active track, if any. */
    method OnAdaptation(tracks: seq<Track>)
      modifies this`currentQuality
      ensures FindFirst(tracks, IsActive, 0).None? ==> currentQuality == old(currentQuality)
      ensures FindFirst(tracks, IsActive, 0).Some? ==>
        currentQuality == HeightLabel(tracks[FindFirst(tracks, IsActive, 0).value].height)
    {
      var active := FindFirst(tracks, IsActive, 0);
      if active.Some? {
        currentQuality := HeightLabel(tracks[active.value].height);
      }
    }
  }

  /** As written: after a failed attach, a retry of the same source leaves two engines alive. */
  method AttachFailureLeaks() returns (p: PlayerComponent)
    ensures p.player == Some(1) && p.engines == {0, 1}
  {
    var src := "/api/stream/s/master.m3u8";
    p := new PlayerComponent();
    var started := p.Bind(src, true);
    p.Complete(src, AttachFailed, []);
    started := p.Bind(src, true);
    p.Complete(src, Loaded, []);
  }

  /** Corrected: the same calls leave only the engine in use alive. */
  method AttachFailureReleased() returns (p: PlayerComponent)
    ensures p.player == Some(1) && p.engines == {1}
  {
    var src := "/api/stream/s/master.m3u8";
    p := new PlayerComponent();
    var started := p.Bind(src, true);
    p.CompleteReleasing(src, AttachFailed, []);
    started := p.Bind(src, true);
    p.CompleteReleasing(src, Loaded, []);
  }

  /**
   * A source that arrives while another is initialising is dropped: the cleanup clears the
   * bound source, the effect for the new source returns early, and the earlier initialisation
   * then binds the old source.
   */
  method StaleSourceWins() returns (p: PlayerComponent, startedNew: bool)
    ensures !startedNew && p.currentSrc == Some("a") && !p.initializing && p.player.Some?
  {
    p := new PlayerComponent();
    var started := p.Bind("a", true);
    p.Cleanup();
    startedNew := p.Bind("b", true);
    p.Complete("a", Loaded, []);
  }

  // ---------------------------------------------------------------------
  // The video element's controls

  class VideoElement {
    var currentTime: real
    /** video.duration, which the component's duration state mirrors. */
    var duration: JsNumber
    var volume: real
    var muted: bool
    var paused: bool
    /** Whether the player's container is the document's fullscreen element. */
    var fullscreen: bool

    /** The media element keeps its volume in [0, 1]. */
    ghost predicate Valid()
      reads this
    {
      0.0 <= volume <= 1.0
    }

    constructor (duration: JsNumber, muted: bool)
      ensures Valid()
      ensures currentTime == 0.0 && this.duration == duration && volume == 1.0
      ensures this.muted == muted && paused && !fullscreen
    {
      currentTime := 0.0;
      this.duration := duration;
      volume := 1.0;
      this.muted := muted;
      paused := true;
      fullscreen := false;
    }

    /** Assigning currentTime: a non-finite value throws and leaves the position alone. */
    method SetCurrentTime(t: JsNumber)
      modifies this`currentTime
      ensures t.Num? ==> currentTime == t.value
      ensures !t.Num? ==> currentTime == old(currentTime)
    {
      if t.Num? {
        currentTime := t.value;
      }
    }

    /** handleVolumeSlider: the volume becomes the slider's value and the element is muted exactly when it is 0. */
    method SetVolumeFromSlider(newVolume: real)
      requires Valid()
      modifies this`volume, this`muted
      ensures Valid()
      ensures 0.0 <= newVolume <= 1.0 ==> volume == newVolume && muted == (newVolume == 0.0)
      ensures !(0.0 <= newVolume <= 1.0) ==> volume == old(volume) && muted == old(muted)
    {
      // Outside [0, 1] the volume setter throws before muted is assigned.
      if 0.0 <= newVolume <= 1.0 {
        volume := newVolume;
        muted := newVolume == 0.0;
      }
    }

    /**
     * handleSeek: ignored while the duration is 0 or NaN; otherwise the position becomes the
     * clicked fraction of the bar times the duration (which throws, changing nothing, when
     * the product is not finite).
     */
    method Seek(clientX: real, left: real, width: real)
      modifies this`currentTime
      ensures duration == NaN || duration == Num(0.0) ==> currentTime == old(currentTime)
      ensures duration.Num? && duration.value != 0.0 && width != 0.0 ==>
        currentTime == (clientX - left) / width * duration.value
      ensures width == 0.0 || duration.Infinity? || duration.NegInfinity? ==> currentTime == old(currentTime)
    {
      if duration == NaN || duration == Num(0.0) {
        return;
      }
      if width == 0.0 {
        // The fraction is infinite or NaN, and so is its product with the duration.
        return;
      }
      SetCurrentTime(Times((clientX - left) / width, duration));
    }

    method TogglePlay()
      modifies this`paused
      ensures paused == !old(paused)
    {
      paused := !paused;
    }

    method ToggleMute()
      modifies this`muted
      ensures muted == !old(muted)
    {
      muted := !muted;
    }

    method ToggleFullscreen()
      modifies this`fullscreen
      ensures fullscreen == !old(fullscreen)
    {
      fullscreen := !fullscreen;
    }
  }

  // ---------------------------------------------------------------------
  // Keyboard shortcuts

  datatype KeyAction =
    | NoAction
    | PlayPause
    | FullscreenToggle
    | MuteToggle
    | SeekBy(seconds: real)
    | VolumeUp
    | VolumeDown
    | SeekToTenths(tenths: nat)

  /** The keydown dispatcher: keys typed into an INPUT are ignored; key names are compared lower-cased. */
  function ActionFor(key: string, targetTag: string): (a: KeyAction)
    ensures targetTag == "INPUT" ==> a == NoAction
    ensures a.SeekToTenths? ==> a.tenths < 10 && key == [DigitChar(a.tenths)]
  {
    if targetTag == "INPUT" then NoAction
    else
      var k := Lower(key);
      if k == " " || k == "k" then PlayPause
      else if k == "f" then FullscreenToggle
      else if k == "m" then MuteToggle
      else if k == "arrowleft" then SeekBy(-10.0)
      else if k == "arrowright" then SeekBy(10.0)
      else if k == "arrowup" then VolumeUp
      else if k == "arrowdown" then VolumeDown
      else if |key| == 1 && IsDigit(key[0]) then SeekToTenths(DigitValue(key[0]))
      else NoAction
  }

  lemma LowerIdempotent(s: string)
    ensures Lower(Lower(s)) == Lower(s)
  {
    assert forall i :: 0 <= i < |s| ==> AsciiLower(AsciiLower(s[i])) == AsciiLower(s[i]);
  }

  /** The shortcuts do not depend on letter case. */
  lemma ActionCaseInsensitive(key: string, targetTag: string)
    ensures ActionFor(Lower(key), targetTag) == ActionFor(key, targetTag)
  {
    LowerIdempotent(key);
    if |key| == 1 {
      assert IsDigit(Lower(key)[0]) <==> IsDigit(key[0]);
      assert IsDigit(key[0]) ==> Lower(key) == key;
    }
  }

  /** Digit d jumps to d tenths of the duration, outside text inputs. */
  lemma DigitKeySeeks(d: nat, targetTag: string)
    requires d < 10 && targetTag != "INPUT"
    ensures ActionFor([DigitChar(d)], targetTag) == SeekToTenths(d)
  {
    var k := [DigitChar(d)];
    assert Lower(k) == k;
  }

  lemma ArrowKeys(targetTag: string)
    requires targetTag != "INPUT"
    ensures ActionFor("ArrowLeft", targetTag) == SeekBy(-10.0)
    ensures ActionFor("ArrowRight", targetTag) == SeekBy(10.0)
    ensures ActionFor("ArrowUp", targetTag) == VolumeUp
    ensures ActionFor("ArrowDown", targetTag) == VolumeDown
  {
    assert Lower("ArrowLeft") == "arrowleft";
    assert Lower("ArrowRight") == "arrowright";
    assert Lower("ArrowUp") == "arrowup";
    assert Lower("ArrowDown") == "arrowdown";
  }

  /**
   * handleKeydown: without a video element nothing happens; otherwise the action for the key
   * is applied and the key is consumed (preventDefault) exactly when it has one. The volume
   * keys move by 0.1 and stay within [0, 1].
   */
  method HandleKey(video: VideoElement?, key: string, targetTag: string) returns (handled: bool)
    requires video != null ==> video.Valid()
    modifies video
    ensures video != null ==> video.Valid()
    ensures handled <==> video != null && ActionFor(key, targetTag) != NoAction
    ensures video != null ==>
      var a := ActionFor(key, targetTag);
      video.duration == old(video.duration)
      && video.paused == (if a == PlayPause then !old(video.paused) else old(video.paused))
      && video.muted == (if a == MuteToggle then !old(video.muted) else old(video.muted))
      && video.fullscreen == (if a == FullscreenToggle then !old(video.fullscreen) else old(video.fullscreen))
      && video.volume == (if a == VolumeUp then Min(1.0, old(video.volume) + 0.1)
                          else if a == VolumeDown then Max(0.0, old(video.volume) - 0.1)
                          else old(video.volume))
      && video.currentTime == (if a.SeekBy? then old(video.currentTime) + a.seconds
                               else if a.SeekToTenths? && Times(a.tenths as real / 10.0, old(video.duration)).Num?
                               then Times(a.tenths as real / 10.0, old(video.duration)).value
                               else old(video.currentTime))
  {
    if video == null {
      return false;
    }
    var a := ActionFor(key, targetTag);
    match a {
      case NoAction => return false;
      case PlayPause => video.TogglePlay();
      case FullscreenToggle => video.ToggleFullscreen();
      case MuteToggle => video.ToggleMute();
      case SeekBy(d) => video.currentTime := video.currentTime + d;
      case VolumeUp => video.volume := Min(1.0, video.volume + 0.1);
      case VolumeDown => video.volume := Max(0.0, video.volume - 0.1);
      case SeekToTenths(d) => video.SetCurrentTime(Times(d as real / 10.0, video.duration));
    }
    return true;
  }
}

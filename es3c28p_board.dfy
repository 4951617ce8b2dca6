/** The board object of the Shenzhen ES3C28P variant: the arithmetic that
    turns an RGB colour into a PWM duty for its single-channel status LED,
    the battery-level report built on the ADC reading, and the boot button's
    click dispatch. Driver bring-up is reduced to the fields it sets. */
module Es3c28pBoard {
  import opened CInt

  // ---------------------------------------------------------------------
  // Status LED: RGB colour to LEDC duty
  // ---------------------------------------------------------------------

  /** The LEDC timer runs at 13-bit duty resolution. */
  const DutyResolutionBits: nat := 13
  /** Largest duty at 13-bit resolution, 2^13 - 1. */
  const MaxDuty: nat := 8191
  /** Largest value of one colour channel. */
  const MaxChannel: nat := 255

  function Min3(a: int, b: int, c: int): (m: int) {
    if a <= b && a <= c then a else if b <= c then b else c
  }

  function Max3(a: int, b: int, c: int): (m: int) {
    if a >= b && a >= c then a else if b >= c then b else c
  }

  /** The channel average, computed in `int` and stored into a `uint8_t`.
      The sum does not overflow a 32-bit `int`, the store never truncates,
      and the average lies between the darkest and the brightest channel. */
  function AverageBrightness(red: uint8, green: uint8, blue: uint8): (avg: uint8)
    ensures red + green + blue <= Int32Max
    ensures avg == (red + green + blue) / 3
    ensures Min3(red, green, blue) <= avg <= Max3(red, green, blue)
  {
    ToUint8((red + green + blue) / 3)
  }

  /** A brightness 0..255 scaled onto the duty range 0..MaxDuty, computed in
      `int` with truncating division and stored into a `uint32_t`. The result
      is the largest duty whose share of MaxDuty does not exceed the share of
      the brightness in MaxChannel. The product does not overflow a 32-bit
      `int`. */
  function BrightnessToDuty(avg: uint8): (duty: uint32)
    ensures avg * MaxDuty <= Int32Max
    ensures duty <= MaxDuty
    ensures duty * MaxChannel <= avg * MaxDuty < (duty + 1) * MaxChannel
  {
    ToUint32((avg * 8191) / 255)
  }

  /** The duty that `SetRgbLedColor` writes to LEDC channel 0. */
  function RgbToDuty(red: uint8, green: uint8, blue: uint8): (duty: uint32)
    ensures duty <= MaxDuty
  {
    BrightnessToDuty(AverageBrightness(red, green, blue))
  }

  /** The brightness a duty stands for: the smallest brightness whose
      scaled value reaches the duty. */
  function DutyToBrightness(duty: nat): (avg: nat)
    ensures avg * MaxDuty >= duty * MaxChannel
    ensures forall a: nat :: a * MaxDuty >= duty * MaxChannel ==> avg <= a
  {
    (duty * 255 + 8190) / 8191
  }

  /** Black turns the LED off; white drives it at full duty. */
  lemma RgbToDutyExtremes()
    ensures RgbToDuty(0, 0, 0) == 0
    ensures RgbToDuty(255, 255, 255) == MaxDuty
  {
  }

  /** Each brightness step raises the duty by at least 32, since
      MaxDuty >= 32 * MaxChannel. */
  lemma BrightnessToDutyStrictlyMonotone(a: uint8, b: uint8)
    requires a < b
    ensures BrightnessToDuty(a) + 32 <= BrightnessToDuty(b)
  {
  }

  /** No two brightness levels share a duty: the scaled duty gives back the
      brightness it came from. */
  lemma DutyToBrightnessRoundTrip(avg: uint8)
    ensures DutyToBrightness(BrightnessToDuty(avg)) == avg
  {
    // d * 255 lies in (avg * 8191 - 255, avg * 8191], so adding 8190 and
    // dividing by 8191 lands back on avg.
  }

  /** The duty never decreases when any channel grows; in particular it is
      monotone in each of red, green and blue with the other two fixed. */
  lemma RgbToDutyMonotone(r1: uint8, g1: uint8, b1: uint8, r2: uint8, g2: uint8, b2: uint8)
    requires r1 <= r2 && g1 <= g2 && b1 <= b2
    ensures RgbToDuty(r1, g1, b1) <= RgbToDuty(r2, g2, b2)
  {
  }

  /** A grey colour drives the LED at exactly its own level. */
  lemma RgbToDutyGrey(v: uint8)
    ensures RgbToDuty(v, v, v) == BrightnessToDuty(v)
    ensures DutyToBrightness(RgbToDuty(v, v, v)) == v
  {
  }

  /** Every duty `SetRgbLedColor` can write, over all colours. */
  ghost function LedDutyLevels(): set<int> {
    set r: uint8, g: uint8, b: uint8 :: RgbToDuty(r, g, b)
  }

  /** The duties of the brightness levels 0..n-1. */
  function DutiesBelow(n: nat): (ds: set<int>)
    requires n <= MaxChannel + 1
  {
    if n == 0 then {} else DutiesBelow(n - 1) + {BrightnessToDuty(n - 1)}
  }

  lemma {:induction false} DutiesBelowShape(n: nat)
    requires n <= MaxChannel + 1
    ensures |DutiesBelow(n)| == n
    ensures forall a: uint8 :: a < n ==> BrightnessToDuty(a) in DutiesBelow(n)
    ensures forall d :: d in DutiesBelow(n) ==> exists a: uint8 :: a < n && d == BrightnessToDuty(a)
    ensures n > 0 ==> forall d :: d in DutiesBelow(n) ==> d <= BrightnessToDuty(n - 1)
  {
    if n > 0 {
      DutiesBelowShape(n - 1);
      if n > 1 {
        BrightnessToDutyStrictlyMonotone(n - 2, n - 1);
      }
      assert BrightnessToDuty(n - 1) !in DutiesBelow(n - 1);
    }
  }

  /** The status LED shows exactly 256 distinct duties, one per brightness
      level, although the 13-bit timer resolves MaxDuty + 1 of them. */
  lemma LedDutyLevelsCount()
    ensures LedDutyLevels() == DutiesBelow(MaxChannel + 1)
    ensures |LedDutyLevels()| == MaxChannel + 1
  {
    DutiesBelowShape(MaxChannel + 1);
    forall d | d in DutiesBelow(MaxChannel + 1)
      ensures d in LedDutyLevels()
    {
      var v: uint8 :| d == BrightnessToDuty(v);
      assert d == RgbToDuty(v, v, v);
    }
  }

  // ---------------------------------------------------------------------
  // Battery level
  // ---------------------------------------------------------------------

  /** The level reported on success: the pre-clamp level limited to a
      percentage 0..100. */
  function ClampPercent(x: int): (p: int)
    ensures 0 <= p <= 100
    ensures 0 <= x <= 100 ==> p == x
  {
    if x > 100 then 100 else if x < 0 then 0 else x
  }

  function Distance(a: int, b: int): (d: nat) {
    if a <= b then b - a else a - b
  }

  /** The clamped level is the percentage closest to the pre-clamp level. */
  lemma ClampPercentIsNearest(x: int, q: int)
    requires 0 <= q <= 100
    ensures Distance(ClampPercent(x), x) <= Distance(q, x)
  {
  }

  /** Clamping keeps the order of levels and changes nothing the second time. */
  lemma ClampPercentMonotoneIdempotent(x: int, y: int)
    requires x <= y
    ensures ClampPercent(x) <= ClampPercent(y)
    ensures ClampPercent(ClampPercent(x)) == ClampPercent(x)
  {
  }

  // ---------------------------------------------------------------------
  // Boot button
  // ---------------------------------------------------------------------

  /** The application's device states (declared outside this board file);
      the click handler only distinguishes Starting from the rest. */
  datatype DeviceState =
    | Unknown | Starting | WifiConfiguring | Idle | Connecting | Listening
    | Speaking | Upgrading | Activating | AudioTesting | FatalError

  /** The calls the click handler can make. */
  datatype ClickCall = EnterWifiConfigMode | ToggleChatState

  /** The calls one click of the boot button makes, in order: while the
      device is starting it enters Wi-Fi configuration and returns early;
      otherwise it toggles the chat state. */
  function OnBootButtonClick(state: DeviceState): (calls: seq<ClickCall>)
    ensures |calls| == 1
    ensures EnterWifiConfigMode in calls <==> state == Starting
    ensures ToggleChatState in calls <==> state != Starting
  {
    if state == Starting then [EnterWifiConfigMode] else [ToggleChatState]
  }

  /** Two states get the same response exactly when both or neither are
      Starting. */
  lemma OnBootButtonClickDependsOnlyOnStarting(s1: DeviceState, s2: DeviceState)
    ensures OnBootButtonClick(s1) == OnBootButtonClick(s2) <==> (s1 == Starting <==> s2 == Starting)
  {
  }

  // ---------------------------------------------------------------------
  // The board object
  // ---------------------------------------------------------------------

  class Board {
    /** Whether the ADC unit for battery sensing exists (a non-null handle). */
    var hasAdc: bool
    /** The duty last written to LEDC channel 0. */
    var duty: uint32

    /** Board construction, reduced to its effect on these fields: the
        battery ADC unit is created and the LED channel is configured with
        duty 0; the backlight set-up that follows is taken not to write
        that channel. */
    constructor ()
      ensures hasAdc && duty == 0
    {
      hasAdc := true;
      duty := 0;
    }

    /** Reports the battery level. `preClampLevel` is the percentage the
        source derives from the raw ADC reading in floating point.
        Without an ADC unit the report fails with level -1 and both flags
        clear; otherwise it succeeds with the level clamped to 0..100,
        not charging and discharging. */
    method GetBatteryLevel(preClampLevel: int)
      returns (ok: bool, level: int, charging: bool, discharging: bool)
      ensures ok == hasAdc
      ensures !hasAdc ==> level == -1 && !charging && !discharging
      ensures hasAdc ==> 0 <= level <= 100 && level == ClampPercent(preClampLevel)
      ensures hasAdc ==> !charging && discharging
    {
      if !hasAdc {
        level := -1;
        charging := false;
        discharging := false;
        return false, level, charging, discharging;
      }
      level := preClampLevel;
      if level > 100 { level := 100; }
      if level < 0 { level := 0; }
      charging := false;
      discharging := true;
      ok := true;
    }

    /** Sets the LED to the average of the three channels; only the duty
        changes. */
    method SetRgbLedColor(red: uint8, green: uint8, blue: uint8)
      modifies this`duty
      ensures duty == RgbToDuty(red, green, blue)
      ensures duty <= MaxDuty
    {
      var sum: int32 := red + green + blue;
      var avgBrightness: uint8 := ToUint8(sum / 3);
      var scaled: int32 := avgBrightness * 8191;
      var d: uint32 := ToUint32(scaled / 255);
      duty := d;
    }
  }
}

/** The graphics tab of the per-app settings panel: the window size that a
    resolution mode, an aspect ratio and the custom size fields produce, the
    size controls shown for each mode, and the steppers of the custom size. */
module Graphics {
  import opened Bindings

  /** Bounds of Swift's 64-bit `Int`; arithmetic beyond them traps. */
  const INT64_MIN: int := -0x8000_0000_0000_0000
  const INT64_MAX: int := 0x7fff_ffff_ffff_ffff

  predicate IsInt64(x: int)
  {
    INT64_MIN <= x <= INT64_MAX
  }

  datatype Option<T> = None | Some(value: T)
  {
    function GetOr(default: T): T
    {
      match this
      case Some(v) => v
      case None => default
    }
  }

  /** The per-app settings record that the graphics tab edits in place. */
  datatype Settings = Settings(
    keymapping: bool,
    mouseMapping: bool,
    sensitivity: real,
    iosDeviceModel: string,
    resolution: int,
    aspectRatio: int,
    windowWidth: int,
    windowHeight: int,
    refreshRate: int,
    disableTimeout: bool,
    bypass: bool)

  /** Swift's integer division, which truncates towards zero. */
  function TruncDiv(a: int, b: int): int
    requires b > 0
  {
    if a >= 0 then a / b else -((-a) / b)
  }

  /** A width:height ratio. */
  datatype Ratio = Ratio(widthRatio: int, heightRatio: int)

  /** The aspect ratio picker's table: 0 is 4:3, 1 is 16:9, 2 is 16:10, and
      any other index falls back to 16:9. */
  function AspectRatio(aspectRatio: int): (r: Ratio)
    ensures 0 < r.heightRatio < r.widthRatio
    ensures !(0 <= aspectRatio <= 2) ==> r == Ratio(16, 9)
  {
    match aspectRatio
    case 0 => Ratio(4, 3)
    case 1 => Ratio(16, 9)
    case 2 => Ratio(16, 10)
    case _ => Ratio(16, 9)
  }

  /** The width that goes with `height` under the selected aspect ratio:
      the height in whole ratio units, times the width ratio. */
  function WidthFromAspectRatio(aspectRatio: int, height: int): (w: int)
    ensures w % AspectRatio(aspectRatio).widthRatio == 0
    ensures 0 <= height ==> 0 <= w
    ensures height <= 0 ==> w <= 0
  {
    var r := AspectRatio(aspectRatio);
    ScaledWidthBounds(height, r.widthRatio, r.heightRatio);
    TruncDiv(height, r.heightRatio) * r.widthRatio
  }

  /** Rounding the height down to whole ratio units gives a width that is
      a whole number of width units, never wider than the exact ratio and short of it by less than one width
      unit; it is exact precisely when the height is a whole number of
      height units. Negative heights round towards zero, so there the width
      is never narrower than the exact ratio. */
  lemma {:induction false} ScaledWidthBounds(height: int, widthRatio: int, heightRatio: int)
    requires widthRatio > 0 && heightRatio > 0
    ensures var w := TruncDiv(height, heightRatio) * widthRatio;
      && w % widthRatio == 0
      && (0 <= height ==> 0 <= height * widthRatio - w * heightRatio < widthRatio * heightRatio)
      && (height < 0 ==> 0 <= w * heightRatio - height * widthRatio < widthRatio * heightRatio)
      && (0 <= height ==> (height * widthRatio == w * heightRatio <==> height % heightRatio == 0))
  {
    var q := TruncDiv(height, heightRatio);
    var w := q * widthRatio;
    var a := if height >= 0 then height else -height;
    var rem := a % heightRatio;
    MultipleHasNoRemainder(q, widthRatio);
    RemainderScales(rem, heightRatio, widthRatio);
    Reassociate(q, heightRatio, widthRatio);
    if height >= 0 {
      assert height == q * heightRatio + rem;
      Distribute(q * heightRatio, rem, widthRatio);
      assert height * widthRatio - w * heightRatio == rem * widthRatio;
    } else {
      assert height == q * heightRatio - rem;
      Distribute(q * heightRatio, -rem, widthRatio);
      assert w * heightRatio - height * widthRatio == rem * widthRatio;
    }
  }

  /** A multiple of `d` leaves no remainder. */
  lemma {:induction false} MultipleHasNoRemainder(q: int, d: int)
    requires d > 0
    ensures (q * d) % d == 0
  {
    var m := q * d;
    var k := q - m / d;
    Distribute(q, -(m / d), d);
    assert k * d == m % d;
    if k > 0 {
      if k > 1 {
        MulPositive(k - 1, d);
      }
      Distribute(k - 1, 1, d);
      assert false;
    } else if k < 0 {
      MulPositive(-k, d);
      Distribute(-k, 0, d);
      assert false;
    }
  }

  /** A remainder below `d`, scaled by `k`, stays below `k * d` and is zero
      only when the remainder is. */
  lemma RemainderScales(rem: int, d: int, k: int)
    requires 0 <= rem < d && k > 0
    ensures 0 <= rem * k < k * d
    ensures rem * k == 0 <==> rem == 0
  {
    MulPositive(d - rem, k);
    Distribute(d, -rem, k);
    if rem > 0 {
      MulPositive(rem, k);
    }
  }

  lemma MulPositive(a: int, b: int)
    requires a > 0 && b > 0
    ensures a * b > 0
  {
  }

  lemma Distribute(a: int, b: int, c: int)
    ensures (a + b) * c == a * c + b * c
  {
  }

  lemma Reassociate(q: int, x: int, y: int)
    ensures q * x * y == q * y * x
  {
  }

  /** The selected aspect ratio's width for `height` is a whole number of
      width units and keeps the ratio to within one width unit, and exactly for heights that are whole numbers
      of height units. */
  lemma WidthKeepsAspectRatio(aspectRatio: int, height: int)
    requires 0 <= height
    ensures var r := AspectRatio(aspectRatio);
            var w := WidthFromAspectRatio(aspectRatio, height);
      && w % r.widthRatio == 0
      && 0 <= height * r.widthRatio - w * r.heightRatio < r.widthRatio * r.heightRatio
      && (height * r.widthRatio == w * r.heightRatio <==> height % r.heightRatio == 0)
  {
    var r := AspectRatio(aspectRatio);
    ScaledWidthBounds(height, r.widthRatio, r.heightRatio);
  }

  /** A taller window never gets a narrower width. */
  lemma WidthIsMonotone(aspectRatio: int, h1: int, h2: int)
    requires h1 <= h2
    ensures WidthFromAspectRatio(aspectRatio, h1) <= WidthFromAspectRatio(aspectRatio, h2)
  {
  }

  /** A window size in points. */
  datatype Size = Size(width: int, height: int)

  /** The window size for a resolution mode. Mode 1 sizes the window from
      the main screen's visible frame (`screenWidth`, absent when there is
      no main screen) and uses that width for both dimensions; modes 2 to 4
      take a fixed height and the width for the selected aspect ratio; mode
      5 takes the custom fields; every other mode gives 1920 x 1080. */
  function Resolution(resolution: int, aspectRatio: int, customWidth: int, customHeight: int,
                      screenWidth: Option<int>): (s: Size)
    ensures resolution == 1 ==>
              s == if screenWidth.Some? then Size(screenWidth.value, screenWidth.value) else Size(1920, 1080)
    ensures resolution == 2 ==> s.height == 1080
    ensures resolution == 3 ==> s.height == 1440
    ensures resolution == 4 ==> s.height == 2160
    ensures 2 <= resolution <= 4 ==>
              && s.width == WidthFromAspectRatio(aspectRatio, s.height)
              && s.width * AspectRatio(aspectRatio).heightRatio == s.height * AspectRatio(aspectRatio).widthRatio
              && s.height < s.width <= 3840
    ensures resolution == 5 ==> s == Size(customWidth, customHeight)
    ensures !(1 <= resolution <= 5) ==> s == Size(1920, 1080)
  {
    match resolution
    case 1 => Size(screenWidth.GetOr(1920), screenWidth.GetOr(1080))
    case 2 => Size(WidthFromAspectRatio(aspectRatio, 1080), 1080)
    case 3 => Size(WidthFromAspectRatio(aspectRatio, 1440), 1440)
    case 4 => Size(WidthFromAspectRatio(aspectRatio, 2160), 2160)
    case 5 => Size(customWidth, customHeight)
    case _ => Size(1920, 1080)
  }

  /** The fixed modes at every aspect ratio of the picker. */
  lemma PresetSizes(customWidth: int, customHeight: int, screenWidth: Option<int>)
    ensures Resolution(2, 0, customWidth, customHeight, screenWidth) == Size(1440, 1080)
    ensures Resolution(3, 0, customWidth, customHeight, screenWidth) == Size(1920, 1440)
    ensures Resolution(4, 0, customWidth, customHeight, screenWidth) == Size(2880, 2160)
    ensures Resolution(2, 1, customWidth, customHeight, screenWidth) == Size(1920, 1080)
    ensures Resolution(3, 1, customWidth, customHeight, screenWidth) == Size(2560, 1440)
    ensures Resolution(4, 1, customWidth, customHeight, screenWidth) == Size(3840, 2160)
    ensures Resolution(2, 2, customWidth, customHeight, screenWidth) == Size(1728, 1080)
    ensures Resolution(3, 2, customWidth, customHeight, screenWidth) == Size(2304, 1440)
    ensures Resolution(4, 2, customWidth, customHeight, screenWidth) == Size(3456, 2160)
  {
  }

  /** Which size controls the graphics tab shows under the mode picker. */
  datatype SizeControls = CustomSizeFields | AspectRatioPicker | NoSizeControls

  /** The custom width and height fields for the custom mode; otherwise the
      aspect ratio picker for the fixed modes; otherwise nothing. */
  function SizeControlsFor(resolution: int): (c: SizeControls)
    ensures c == CustomSizeFields <==> resolution == 5
    ensures c == AspectRatioPicker <==> 2 <= resolution <= 4
  {
    if resolution == 5 then CustomSizeFields
    else if resolution >= 2 && resolution <= 4 then AspectRatioPicker
    else NoSizeControls
  }

  /** Each control is shown exactly when its value can matter: outside the
      modes that show the aspect ratio picker, the aspect ratio never
      changes the window size, and inside them 4:3 and 16:9 always differ;
      outside the custom mode, the custom fields never change it, and in
      the custom mode they are the size. */
  lemma ControlsShownExactlyWhenTheyMatter(resolution: int, aspect1: int, aspect2: int,
                                          w1: int, h1: int, w2: int, h2: int, screenWidth: Option<int>)
    ensures SizeControlsFor(resolution) != AspectRatioPicker ==>
              Resolution(resolution, aspect1, w1, h1, screenWidth) == Resolution(resolution, aspect2, w1, h1, screenWidth)
    ensures SizeControlsFor(resolution) == AspectRatioPicker ==>
              Resolution(resolution, 0, w1, h1, screenWidth) != Resolution(resolution, 1, w1, h1, screenWidth)
    ensures SizeControlsFor(resolution) != CustomSizeFields ==>
              Resolution(resolution, aspect1, w1, h1, screenWidth) == Resolution(resolution, aspect1, w2, h2, screenWidth)
    ensures SizeControlsFor(resolution) == CustomSizeFields ==>
              (Resolution(resolution, aspect1, w1, h1, screenWidth) == Resolution(resolution, aspect1, w2, h2, screenWidth)
               <==> w1 == w2 && h1 == h2)
  {
  }

  /** The graphics tab: it edits the app's settings through a binding and
      keeps the custom width and height as its own view state. */
  class GraphicsView {
    const settings: Binding<Settings>
    var customWidth: int
    var customHeight: int

    /** The custom fields hold Swift `Int` values. */
    ghost predicate Valid()
      reads this
    {
      IsInt64(customWidth) && IsInt64(customHeight)
    }

    constructor (settings: Binding<Settings>)
      ensures this.settings == settings && Valid()
      ensures customWidth == 1920 && customHeight == 1080
    {
      this.settings := settings;
      customWidth := 1920;
      customHeight := 1080;
    }

    /** Writes the size for the current mode, aspect ratio and custom fields
        into the settings' window width and height; no other setting and
        no view state changes. */
    method SetResolution(screenWidth: Option<int>)
      modifies settings
      ensures var old_ := old(settings.value);
              var s := Resolution(old_.resolution, old_.aspectRatio, customWidth, customHeight, screenWidth);
              settings.value == old_.(windowWidth := s.width, windowHeight := s.height)
    {
      var width: int;
      var height: int;
      match settings.value.resolution {
        case 1 =>
          width := screenWidth.GetOr(1920);
          height := screenWidth.GetOr(1080);
        case 2 =>
          height := 1080;
          width := WidthFromAspectRatio(settings.value.aspectRatio, height);
        case 3 =>
          height := 1440;
          width := WidthFromAspectRatio(settings.value.aspectRatio, height);
        case 4 =>
          height := 2160;
          width := WidthFromAspectRatio(settings.value.aspectRatio, height);
        case 5 =>
          width := customWidth;
          height := customHeight;
        case _ =>
          width := 1920;
          height := 1080;
      }
      settings.value := settings.value.(windowWidth := width);
      settings.value := settings.value.(windowHeight := height);
    }

    /** The width stepper's increment; `+= 1` traps at `Int.max`. */
    method IncrementCustomWidth()
      requires Valid() && customWidth < INT64_MAX
      modifies this`customWidth
      ensures Valid() && customWidth == old(customWidth) + 1
    {
      customWidth := customWidth + 1;
    }

    /** The width stepper's decrement; `-= 1` traps at `Int.min`. */
    method DecrementCustomWidth()
      requires Valid() && customWidth > INT64_MIN
      modifies this`customWidth
      ensures Valid() && customWidth == old(customWidth) - 1
    {
      customWidth := customWidth - 1;
    }

    /** The height stepper's increment; `+= 1` traps at `Int.max`. */
    method IncrementCustomHeight()
      requires Valid() && customHeight < INT64_MAX
      modifies this`customHeight
      ensures Valid() && customHeight == old(customHeight) + 1
    {
      customHeight := customHeight + 1;
    }

    /** The height stepper's decrement; `-= 1` traps at `Int.min`. */
    method DecrementCustomHeight()
      requires Valid() && customHeight > INT64_MIN
      modifies this`customHeight
      ensures Valid() && customHeight == old(customHeight) - 1
    {
      customHeight := customHeight - 1;
    }
  }

  /** Stepping a custom field up and then down restores it, and the window
      size written in custom mode is then the one typed in. */
  method StepperRoundTrip(initial: Settings, width: int, height: int) returns (size: Size, controls: SizeControls)
    requires IsInt64(width) && IsInt64(height) && width < INT64_MAX && height > INT64_MIN
    ensures size == Size(width, height)
    ensures controls == CustomSizeFields
  {
    var binding := new Binding(initial.(resolution := 5));
    var view := new GraphicsView(binding);
    view.customWidth, view.customHeight := width, height;
    view.IncrementCustomWidth();
    view.DecrementCustomWidth();
    view.DecrementCustomHeight();
    view.IncrementCustomHeight();
    view.SetResolution(None);
    size := Size(binding.value.windowWidth, binding.value.windowHeight);
    controls := SizeControlsFor(binding.value.resolution);
  }
}

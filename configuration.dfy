/** The configuration records the pipeline reads, and the two pieces of logic they carry. */
module Configuration {
  import opened Errors
  import opened Unity

  // ---------------------------------------------------------------------------
  // Colour, background and outline settings (read, never changed, by the recolourer)

  datatype ColorConfig = ColorConfig(
    colorEnabled: bool,
    paletteIndex: Int32,
    colorCountPerSprite: Int32,
    usePaletteColors: bool,
    colorLocked: bool)

  datatype BackgroundColorConfig = BackgroundColorConfig(
    randomPaletteColorForBackground: bool,
    paletteColorIndexForBackground: Int32,
    overrideBackgroundColor: bool,
    backgroundColorOverride: Color)

  datatype OutlineConfig = OutlineConfig(
    outlineEnabled: bool,
    applyOutlineAfterScaling: bool,
    randomPaletteColorForOutline: bool,
    paletteColorIndexForOutline: Int32,
    overrideOutlineColor: bool,
    outlineColorOverride: Color)

  // ---------------------------------------------------------------------------
  // The ScalingMode enum: none = 0, then x2, x4, x10, eagle2, eagle3 numbered on.
  // A C# enum variable can hold any int; `Unnamed` is such a value naming no member.

  type UnnamedScalingValue = v: Int32 | !(0 <= v <= 5) witness 6

  datatype ScalingMode = none | x2 | x4 | x10 | eagle2 | eagle3 | Unnamed(value: UnnamedScalingValue)

  /** The integer behind a scaling mode. */
  function ScalingModeValue(m: ScalingMode): (v: Int32)
    ensures m.Unnamed? <==> !(0 <= v <= 5)
  {
    match m
    case none => 0
    case x2 => 1
    case x4 => 2
    case x10 => 3
    case eagle2 => 4
    case eagle3 => 5
    case Unnamed(v) => v
  }

  /** The scaling mode an integer casts to; `default(ScalingMode)` is `ScalingModeOf(0)`. */
  function ScalingModeOf(v: Int32): ScalingMode {
    if v == 0 then none
    else if v == 1 then x2
    else if v == 2 then x4
    else if v == 3 then x10
    else if v == 4 then eagle2
    else if v == 5 then eagle3
    else Unnamed(v)
  }

  lemma ScalingModeOfValue(m: ScalingMode)
    ensures ScalingModeOf(ScalingModeValue(m)) == m
  {
  }

  lemma ScalingModeValueOf(v: Int32)
    ensures ScalingModeValue(ScalingModeOf(v)) == v
  {
  }

  /** The slots of a freshly allocated `ScalingMode[]` hold `none`. */
  lemma DefaultScalingModeIsNone()
    ensures ScalingModeOf(0) == none && ScalingModeValue(none) == 0
  {
  }

  // ---------------------------------------------------------------------------
  // ScalingConfig.ResizeScalingMode

  /** `s` resized to `n` slots: the common prefix is kept, extra slots are dropped, new slots hold the default mode. */
  function Resized(s: seq<ScalingMode>, n: nat): (r: seq<ScalingMode>)
    ensures |r| == n
    ensures forall i :: 0 <= i < n && i < |s| ==> r[i] == s[i]
    ensures forall i :: |s| <= i < n ==> r[i] == ScalingModeOf(0)
  {
    if n <= |s| then s[..n] else s + seq(n - |s|, _ => ScalingModeOf(0))
  }

  /** Growing and then shrinking back to the old length restores the old modes. */
  lemma {:induction false} ResizedGrowShrink(s: seq<ScalingMode>, n: nat)
    requires |s| <= n
    ensures Resized(Resized(s, n), |s|) == s
  {
    var r := Resized(Resized(s, n), |s|);
    assert forall i :: 0 <= i < |s| ==> r[i] == s[i];
  }

  /** Two shrinks in a row are one shrink to the smaller size. */
  lemma {:induction false} ResizedShrinkShrink(s: seq<ScalingMode>, m: nat, n: nat)
    requires n <= m <= |s|
    ensures Resized(Resized(s, m), n) == Resized(s, n)
  {
    var r, t := Resized(Resized(s, m), n), Resized(s, n);
    assert forall i :: 0 <= i < n ==> r[i] == t[i];
  }

  class ScalingConfig {
    var scalingModes: array<ScalingMode>
    var filterMode: FilterMode

    constructor (scalingModes: seq<ScalingMode>, filterMode: FilterMode)
      ensures this.scalingModes[..] == scalingModes && this.filterMode == filterMode
    {
      this.scalingModes := new ScalingMode[|scalingModes|](i requires 0 <= i < |scalingModes| => scalingModes[i]);
      this.filterMode := filterMode;
    }

    /**
     * Resizes the list of scaling passes. Asking for the current length keeps the very same array;
     * a negative size makes the allocation throw before anything changes.
     */
    method ResizeScalingMode(newSize: Int32) returns (outcome: Outcome)
      modifies this
      ensures filterMode == old(filterMode)
      ensures newSize == old(scalingModes.Length) ==> outcome == Pass && scalingModes == old(scalingModes)
      ensures newSize != old(scalingModes.Length) && newSize < 0 ==>
                outcome == Fail(Overflow) && scalingModes == old(scalingModes)
      ensures newSize != old(scalingModes.Length) && newSize >= 0 ==>
                outcome == Pass && fresh(scalingModes) && scalingModes[..] == Resized(old(scalingModes[..]), newSize)
    {
      if newSize == scalingModes.Length {
        return Pass;
      }
      if newSize < 0 {
        return Fail(Overflow);
      }
      var newScalingModes := new ScalingMode[newSize](_ => ScalingModeOf(0));
      for i := 0 to scalingModes.Length
        modifies newScalingModes
        invariant forall j :: 0 <= j < i && j < newSize ==> newScalingModes[j] == scalingModes[j]
        invariant forall j :: i <= j < newSize ==> newScalingModes[j] == ScalingModeOf(0)
      {
        if i >= newSize {
          continue;
        }
        newScalingModes[i] := scalingModes[i];
      }
      scalingModes := newScalingModes;
      outcome := Pass;
    }
  }

  // ---------------------------------------------------------------------------
  // SymmetryConfig3D.ChanceOf

  /**
   * An integer a `SymmetryDirection3D` variable can hold that names none of the nine planes,
   * taking the members to be numbered 0 .. 8 in the order listed, as C# numbers an enum whose
   * declaration gives no values.
   */
  type UnlistedDirectionValue = v: Int32 | !(0 <= v <= 8) witness 9

  /** The nine 3D symmetry planes; `Unlisted` is any other value of the enum's underlying integer. */
  datatype SymmetryDirection3D =
    | TopLeftToBottomRight
    | FrontBottomToTopBack
    | BottomLeftToTopRight
    | FrontTopToBottomBack
    | FrontRightToBackLeft
    | FrontLeftToBackRight
    | FrontCenterToBackCenterVertical
    | FrontCenterToBackCenterHorizontal
    | MiddleTopToMiddleBottomVertical
    | Unlisted(value: UnlistedDirectionValue)

  datatype SymmetryConfig3D = SymmetryConfig3D(
    allowMultipleSymmetryTypes: bool,
    enforceSomeTypeOfSymmetry: bool,
    topLeftToBottomRightChance: real,
    frontBottomToTopBackChance: real,
    bottomLeftToTopRightChance: real,
    frontTopToBottomBackChance: real,
    frontRightToBackLeftChance: real,
    frontLeftToBackRightChance: real,
    frontCenterToBackCenterVerticalChance: real,
    frontCenterToBackCenterHorizontalChance: real,
    middleTopToMiddleBottomChance: real)
  {
    /** The configured chance of symmetry across `direction`; an unlisted direction has none. */
    function ChanceOf(direction: SymmetryDirection3D): (chance: real)
      ensures direction.Unlisted? ==> chance == 0.0
    {
      match direction
      case TopLeftToBottomRight => topLeftToBottomRightChance
      case FrontBottomToTopBack => frontBottomToTopBackChance
      case BottomLeftToTopRight => bottomLeftToTopRightChance
      case FrontTopToBottomBack => frontTopToBottomBackChance
      case FrontRightToBackLeft => frontRightToBackLeftChance
      case FrontLeftToBackRight => frontLeftToBackRightChance
      case FrontCenterToBackCenterVertical => frontCenterToBackCenterVerticalChance
      case FrontCenterToBackCenterHorizontal => frontCenterToBackCenterHorizontalChance
      case MiddleTopToMiddleBottomVertical => middleTopToMiddleBottomChance
      case Unlisted(_) => 0.0
    }

    /** This configuration with the chance field that belongs to `direction` set, as the inspector sets one field. */
    function WithChance(direction: SymmetryDirection3D, chance: real): SymmetryConfig3D {
      match direction
      case TopLeftToBottomRight => this.(topLeftToBottomRightChance := chance)
      case FrontBottomToTopBack => this.(frontBottomToTopBackChance := chance)
      case BottomLeftToTopRight => this.(bottomLeftToTopRightChance := chance)
      case FrontTopToBottomBack => this.(frontTopToBottomBackChance := chance)
      case FrontRightToBackLeft => this.(frontRightToBackLeftChance := chance)
      case FrontLeftToBackRight => this.(frontLeftToBackRightChance := chance)
      case FrontCenterToBackCenterVertical => this.(frontCenterToBackCenterVerticalChance := chance)
      case FrontCenterToBackCenterHorizontal => this.(frontCenterToBackCenterHorizontalChance := chance)
      case MiddleTopToMiddleBottomVertical => this.(middleTopToMiddleBottomChance := chance)
      case Unlisted(_) => this
    }
  }

  /**
   * Each listed direction reads its own field and no other: setting the field of `d` changes
   * `ChanceOf(d)` to the new value and leaves every other direction's chance as it was.
   */
  lemma ChanceOfOwnField(c: SymmetryConfig3D, d: SymmetryDirection3D, e: SymmetryDirection3D, p: real)
    requires !d.Unlisted?
    ensures c.WithChance(d, p).ChanceOf(d) == p
    ensures e != d ==> c.WithChance(d, p).ChanceOf(e) == c.ChanceOf(e)
  {
  }

  /** Chances the inspector keeps within [0, 1] stay there through the lookup. */
  lemma ChanceOfInUnitRange(c: SymmetryConfig3D, d: SymmetryDirection3D)
    requires forall e: SymmetryDirection3D :: !e.Unlisted? ==> 0.0 <= c.ChanceOf(e) <= 1.0
    ensures 0.0 <= c.ChanceOf(d) <= 1.0
  {
  }
}

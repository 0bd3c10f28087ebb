/** The few Unity engine values the generator works with, reduced to what the modelled code observes. */
module Unity {

  /** A C# `int`. */
  type Int32 = x: int | -0x8000_0000 <= x < 0x8000_0000

  /** Two's-complement wrap-around of an unchecked C# `int` operation. */
  function Wrap32(x: int): (r: Int32)
    ensures (r - x) % 0x1_0000_0000 == 0
    ensures -0x8000_0000 <= x < 0x8000_0000 ==> r == x
  {
    var m := x % 0x1_0000_0000;
    if m < 0x8000_0000 then m else m - 0x1_0000_0000
  }

  /** `UnityEngine.Color`: four float channels. `List.Contains` compares them exactly, component by component. */
  datatype Color = Color(r: real, g: real, b: real, a: real)

  /** `Color.black`: opaque black. */
  const Black := Color(0.0, 0.0, 0.0, 1.0)

  /** `default(Color)`, what every slot of a fresh `Color[]` holds: transparent black. */
  const Clear := Color(0.0, 0.0, 0.0, 0.0)

  datatype Vector2 = Vector2(x: real, y: real)

  /** A sprite rectangle; the engine's float coordinates are modelled as integers. */
  datatype Rect = Rect(x: int, y: int, width: int, height: int)

  datatype FilterMode = Point | Bilinear | Trilinear

  /** A texture, seen through `GetPixels`/`SetPixels` as its flat list of pixels. */
  class Texture2D {
    var pixels: seq<Color>

    constructor (pixels: seq<Color>)
      ensures this.pixels == pixels
    {
      this.pixels := pixels;
    }
  }

  /**
   * `Random.Range(min, max)` on ints, given the raw value drawn from the generator:
   * `max` is exclusive, equal bounds give `min`, and reversed bounds are swapped.
   */
  function RandomRange(min: int, max: int, raw: nat): (r: int)
    ensures min == max ==> r == min
    ensures min < max ==> min <= r < max
    ensures max < min ==> max <= r < min
  {
    if min == max then min
    else if min < max then min + raw % (max - min)
    else max + raw % (min - max)
  }

  /** Every value of the documented range is some draw's result, so the raw draws restrict nothing. */
  lemma RandomRangeReachable(min: int, max: int, r: int)
    requires min <= r < max
    ensures RandomRange(min, max, (r - min) as nat) == r
  {
  }
}

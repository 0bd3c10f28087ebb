/**
 * The palette recolourer: it caches the unique colours of each palette texture, resolves the
 * colours of a sprite once (on frame 0), and maps every pixel's grayscale to one of them.
 */
module PaletteRecoloring {
  import opened Errors
  import opened Unity
  import opened Configuration
  import opened Buckets
  import opened Palette

  /** The raw values Unity's generator supplies, one per call site that draws. */
  datatype Draws = Draws(
    cameraBackground: nat,  // the background pick made for the camera, before anything else
    slotZero: nat,          // the random palette pick for slot 0
    slots: nat -> nat,      // the palette pick for slot i >= 1
    hsv: nat -> Color,      // the random fully saturated colour for slot i >= 1 without a palette
    background: nat,        // the background pick returned to the caller
    outline: nat)           // the outline pick returned to the caller

  // ---------------------------------------------------------------------------
  // Indexing, with the exception each kind of index throws

  /** `uniqueColorsInTextures[paletteIndex]`: a null cache or an index outside the array throws. */
  function PaletteAt(cache: Option<seq<seq<Color>>>, paletteIndex: int): Result<seq<Color>> {
    if cache.None? then Err(NullReference)
    else if 0 <= paletteIndex < |cache.value| then Ok(cache.value[paletteIndex])
    else Err(IndexOutOfRange)
  }

  /** Indexing a `List<Color>`. */
  function ListAt(list: seq<Color>, i: int): Result<Color> {
    if 0 <= i < |list| then Ok(list[i]) else Err(ArgumentOutOfRange)
  }

  /** Indexing a `Color[]`. */
  function ArrayAt(a: seq<Color>, i: int): Result<Color> {
    if 0 <= i < |a| then Ok(a[i]) else Err(IndexOutOfRange)
  }

  // ---------------------------------------------------------------------------
  // GenerateColors, as a function of the configuration, the palette cache and the draws

  /** The value stored in slot 0 in palette mode: override, else a random palette pick, else the indexed palette colour. */
  function SlotZero(cc: ColorConfig, bc: BackgroundColorConfig, cache: Option<seq<seq<Color>>>, d: Draws): Result<Color> {
    if bc.overrideBackgroundColor then Ok(bc.backgroundColorOverride)
    else
      var palette :- PaletteAt(cache, cc.paletteIndex);
      if bc.randomPaletteColorForBackground then ListAt(palette, RandomRange(0, |palette| - 1, d.slotZero))
      else ListAt(palette, bc.paletteColorIndexForBackground)
  }

  /** When GenerateColors completes; whether it does never depends on the draws. */
  predicate CanGenerateColors(cc: ColorConfig, bc: BackgroundColorConfig, cache: Option<seq<seq<Color>>>) {
    var n := cc.colorCountPerSprite;
    var palette := PaletteAt(cache, cc.paletteIndex);
    && n >= 1
    && (cc.usePaletteColors && !bc.overrideBackgroundColor ==>
          palette.Ok? &&
          if bc.randomPaletteColorForBackground then |palette.value| >= 1
          else 0 <= bc.paletteColorIndexForBackground < |palette.value|)
    && (cc.usePaletteColors && n >= 2 ==> palette.Ok? && |palette.value| >= 1)
  }

  /**
   * The palette branch of GenerateColors: slot 0, then one palette colour per further slot,
   * drawn with replacement. Errors come in the order the C# evaluates: the right-hand side of
   * `generatedColors[0] = ...` before the store into slot 0.
   */
  function PaletteColorsFor(cc: ColorConfig, bc: BackgroundColorConfig, cache: Option<seq<seq<Color>>>, d: Draws): Result<seq<Color>>
    requires cc.colorCountPerSprite >= 0
  {
    var n := cc.colorCountPerSprite;
    var zero :- SlotZero(cc, bc, cache, d);
    if n == 0 then Err(IndexOutOfRange)
    else if n == 1 then Ok([zero])
    else
      var palette :- PaletteAt(cache, cc.paletteIndex);
      if |palette| == 0 then Err(ArgumentOutOfRange)
      else Ok([zero] + seq(n - 1, j requires 0 <= j < n - 1 => palette[RandomRange(0, |palette|, d.slots(j + 1))]))
  }

  /** The branch without a palette: black, then one random colour per further slot. */
  function RandomColorsFor(n: nat, d: Draws): Result<seq<Color>> {
    if n == 0 then Err(IndexOutOfRange)
    else Ok([Black] + seq(n - 1, j requires 0 <= j < n - 1 => d.hsv(j + 1)))
  }

  /** The colours GenerateColors stores, or the exception it throws; a negative count fails the allocation. */
  function GeneratedColorsFor(cc: ColorConfig, bc: BackgroundColorConfig, cache: Option<seq<seq<Color>>>, d: Draws): (r: Result<seq<Color>>)
    ensures r.Ok? <==> CanGenerateColors(cc, bc, cache)
    ensures r.Ok? ==> |r.value| == cc.colorCountPerSprite
    ensures r.Ok? && cc.usePaletteColors && cc.colorCountPerSprite >= 2 ==>
              var palette := PaletteAt(cache, cc.paletteIndex);
              palette.Ok? && forall i :: 1 <= i < |r.value| ==> r.value[i] in palette.value
    ensures r.Ok? && !cc.usePaletteColors ==>
              r.value[0] == Black && forall i :: 1 <= i < |r.value| ==> r.value[i] == d.hsv(i)
  {
    var n := cc.colorCountPerSprite;
    if n < 0 then Err(Overflow)
    else if cc.usePaletteColors then
      var r := PaletteColorsFor(cc, bc, cache, d);
      assert r.Ok? && n >= 2 ==> forall i :: 1 <= i < n ==> r.value[i] in PaletteAt(cache, cc.paletteIndex).value by {
        if r.Ok? && n >= 2 {
          var palette := PaletteAt(cache, cc.paletteIndex).value;
          forall i | 1 <= i < n
            ensures r.value[i] in palette
          {
            var k := RandomRange(0, |palette|, d.slots(i));
            assert r.value[i] == palette[k];
          }
        }
      }
      r
    else RandomColorsFor(n, d)
  }

  /** Slot by slot, what the palette branch stores. */
  lemma PaletteColorsPointwise(cc: ColorConfig, bc: BackgroundColorConfig, cache: Option<seq<seq<Color>>>, d: Draws, i: nat)
    requires cc.colorCountPerSprite >= 0 && PaletteColorsFor(cc, bc, cache, d).Ok? && 1 <= i < cc.colorCountPerSprite as int
    ensures var palette := PaletteAt(cache, cc.paletteIndex);
            palette.Ok? && |palette.value| >= 1 && |PaletteColorsFor(cc, bc, cache, d).value| == cc.colorCountPerSprite as int &&
            PaletteColorsFor(cc, bc, cache, d).value[i] == palette.value[RandomRange(0, |palette.value|, d.slots(i))]
  {
  }

  /**
   * With palette colours, slot 0 follows the precedence override, then a random palette colour
   * (never the last one of a list of two or more), then the palette colour at the configured index.
   */
  lemma SlotZeroPrecedence(cc: ColorConfig, bc: BackgroundColorConfig, cache: Option<seq<seq<Color>>>, d: Draws)
    requires GeneratedColorsFor(cc, bc, cache, d).Ok? && cc.usePaletteColors
    ensures var zero := GeneratedColorsFor(cc, bc, cache, d).value[0];
            var palette := PaletteAt(cache, cc.paletteIndex);
            && (bc.overrideBackgroundColor ==> zero == bc.backgroundColorOverride)
            && (!bc.overrideBackgroundColor && bc.randomPaletteColorForBackground ==>
                  palette.Ok? && (|palette.value| == 1 ==> zero == palette.value[0])
                  && (|palette.value| >= 2 ==> zero in palette.value[..|palette.value| - 1]))
            && (!bc.overrideBackgroundColor && !bc.randomPaletteColorForBackground ==>
                  palette.Ok? && zero == palette.value[bc.paletteColorIndexForBackground])
  {
    var zero := SlotZero(cc, bc, cache, d);
    assert zero.Ok? && GeneratedColorsFor(cc, bc, cache, d).value[0] == zero.value;
  }

  /**
   * The slots after 0 are drawn with replacement: any choice of palette colours for them, repeats
   * included, is what some draws produce, whatever the other slots hold.
   */
  lemma SlotsDrawnWithReplacement(cc: ColorConfig, bc: BackgroundColorConfig, cache: Option<seq<seq<Color>>>,
                                  d: Draws, choice: seq<nat>)
    requires CanGenerateColors(cc, bc, cache) && cc.usePaletteColors && cc.colorCountPerSprite >= 2
    requires |choice| == cc.colorCountPerSprite as int
    requires forall i :: 1 <= i < |choice| ==> choice[i] < |PaletteAt(cache, cc.paletteIndex).value|
    ensures var r := GeneratedColorsFor(cc, bc, cache, d.(slots := (i: nat) => if i < |choice| then choice[i] else 0));
            r.Ok? && forall i :: 1 <= i < |choice| ==> r.value[i] == PaletteAt(cache, cc.paletteIndex).value[choice[i]]
  {
    var palette := PaletteAt(cache, cc.paletteIndex).value;
    var d' := d.(slots := (i: nat) => if i < |choice| then choice[i] else 0);
    var r := GeneratedColorsFor(cc, bc, cache, d');
    forall i | 1 <= i < |choice|
      ensures r.value[i] == palette[choice[i]]
    {
      assert d'.slots(i) == choice[i];
      assert RandomRange(0, |palette|, choice[i]) == choice[i];
    }
  }

  // ---------------------------------------------------------------------------
  // BackgroundColor and OutlineColor, over the contents of the `generatedColors` field

  /**
   * The background colour: black when palette colours are off (checked before the override),
   * else the override, else a random generated colour, else the generated colour at the index.
   */
  function BackgroundColor(bc: BackgroundColorConfig, cc: ColorConfig, generatedColors: seq<Color>, raw: nat): (r: Result<Color>)
    ensures !cc.usePaletteColors ==> r == Ok(Black)
    ensures cc.usePaletteColors && bc.overrideBackgroundColor ==> r == Ok(bc.backgroundColorOverride)
    ensures r.Err? <==> (cc.usePaletteColors && !bc.overrideBackgroundColor &&
                         if bc.randomPaletteColorForBackground then |generatedColors| == 0
                         else !(0 <= bc.paletteColorIndexForBackground < |generatedColors|))
    ensures r.Ok? && cc.usePaletteColors && !bc.overrideBackgroundColor && bc.randomPaletteColorForBackground ==>
              if |generatedColors| == 1 then r.value == generatedColors[0]
              else r.value in generatedColors[..|generatedColors| - 1]
    ensures r.Ok? && cc.usePaletteColors && !bc.overrideBackgroundColor && !bc.randomPaletteColorForBackground ==>
              r.value == generatedColors[bc.paletteColorIndexForBackground]
  {
    if !cc.usePaletteColors then Ok(Black)
    else if bc.overrideBackgroundColor then Ok(bc.backgroundColorOverride)
    else if bc.randomPaletteColorForBackground then ArrayAt(generatedColors, RandomRange(0, |generatedColors| - 1, raw))
    else ArrayAt(generatedColors, bc.paletteColorIndexForBackground)
  }

  /** The outline colour: the override, else a random generated colour, else the generated colour at the index. */
  function OutlineColor(oc: OutlineConfig, generatedColors: seq<Color>, raw: nat): (r: Result<Color>)
    ensures oc.overrideOutlineColor ==> r == Ok(oc.outlineColorOverride)
    ensures r.Err? <==> (!oc.overrideOutlineColor &&
                         if oc.randomPaletteColorForOutline then |generatedColors| == 0
                         else !(0 <= oc.paletteColorIndexForOutline < |generatedColors|))
    ensures r.Ok? && !oc.overrideOutlineColor && oc.randomPaletteColorForOutline ==>
              if |generatedColors| == 1 then r.value == generatedColors[0]
              else r.value in generatedColors[..|generatedColors| - 1]
    ensures r.Ok? && !oc.overrideOutlineColor && !oc.randomPaletteColorForOutline ==>
              r.value == generatedColors[oc.paletteColorIndexForOutline]
  {
    if oc.overrideOutlineColor then Ok(oc.outlineColorOverride)
    else if oc.randomPaletteColorForOutline then ArrayAt(generatedColors, RandomRange(0, |generatedColors| - 1, raw))
    else ArrayAt(generatedColors, oc.paletteColorIndexForOutline)
  }

  /** The pair Recolor returns: background first, then outline. */
  function ReturnedColors(cc: ColorConfig, bc: BackgroundColorConfig, oc: OutlineConfig, generatedColors: seq<Color>, d: Draws): Result<(Color, Color)> {
    var background :- BackgroundColor(bc, cc, generatedColors, d.background);
    var outline :- OutlineColor(oc, generatedColors, d.outline);
    Ok((background, outline))
  }

  /** Without palette colours, or with the override, the background is the colour generated for slot 0. */
  lemma BackgroundIsSlotZero(cc: ColorConfig, bc: BackgroundColorConfig, cache: Option<seq<seq<Color>>>, d: Draws, raw: nat)
    requires GeneratedColorsFor(cc, bc, cache, d).Ok?
    requires !cc.usePaletteColors || bc.overrideBackgroundColor
    ensures var colors := GeneratedColorsFor(cc, bc, cache, d).value;
            BackgroundColor(bc, cc, colors, raw) == Ok(colors[0])
  {
    if cc.usePaletteColors {
      SlotZeroPrecedence(cc, bc, cache, d);
    }
  }

  /**
   * With the indexed pick they part: slot 0 takes the palette colour at the index, while the
   * background takes the generated colour at the same index. Palette [red, blue], index 1.
   */
  lemma IndexedBackgroundIsNotSlotZero()
    ensures var red, blue := Color(1.0, 0.0, 0.0, 1.0), Color(0.0, 0.0, 1.0, 1.0);
            var cc := ColorConfig(true, 0, 2, true, false);
            var bc := BackgroundColorConfig(false, 1, false, Black);
            var d := Draws(0, 0, _ => 0, _ => Black, 0, 0);
            && GeneratedColorsFor(cc, bc, Some([[red, blue]]), d) == Ok([blue, red])
            && BackgroundColor(bc, cc, [blue, red], 0) == Ok(red)
            && red != blue
  {
    var red, blue := Color(1.0, 0.0, 0.0, 1.0), Color(0.0, 0.0, 1.0, 1.0);
    var cc := ColorConfig(true, 0, 2, true, false);
    var bc := BackgroundColorConfig(false, 1, false, Black);
    var d := Draws(0, 0, _ => 0, _ => Black, 0, 0);
    assert SlotZero(cc, bc, Some([[red, blue]]), d) == Ok(blue);
    assert RandomRange(0, 2, d.slots(1)) == 0;
    assert GeneratedColorsFor(cc, bc, Some([[red, blue]]), d).value == [blue, red];
  }

  // ---------------------------------------------------------------------------
  // The bucket loop of Recolor

  /** The colour the bucket loop leaves in one pixel: the default if no bucket matches, else the generated colour of the last match. */
  function RecoloredPixel(gray: real, k: nat, generatedColors: seq<Color>): Result<Color>
    requires k >= 1
  {
    match Bucket(gray, k)
    case None => Ok(Clear)
    case Some(i) => ArrayAt(generatedColors, i)
  }

  /** The new pixels, or the exception thrown when a matching bucket has no generated colour. */
  function Recolored(pixels: seq<Color>, gray: Color -> real, k: int, generatedColors: seq<Color>): (r: Result<seq<Color>>)
    ensures r.Ok? ==> |r.value| == |pixels|
    ensures k < 1 ==> r.Ok? && forall j :: 0 <= j < |pixels| ==> r.value[j] == Clear
  {
    if k < 1 then Ok(seq(|pixels|, _ => Clear))
    else if forall j :: 0 <= j < |pixels| ==> RecoloredPixel(gray(pixels[j]), k, generatedColors).Ok? then
      Ok(seq(|pixels|, j requires 0 <= j < |pixels| => RecoloredPixel(gray(pixels[j]), k, generatedColors).value))
    else Err(IndexOutOfRange)
  }

  /**
   * Every pixel gets the generated colour of the LAST bucket containing its gray value, and a
   * gray value outside [0, 1] keeps the default colour. Recolouring fails exactly when some
   * pixel's bucket has no generated colour.
   */
  lemma RecolorUsesLastMatchingBucket(pixels: seq<Color>, gray: Color -> real, k: nat, generatedColors: seq<Color>, j: nat)
    requires k >= 1 && j < |pixels|
    ensures Recolored(pixels, gray, k, generatedColors).Err? <==>
              exists p :: 0 <= p < |pixels| && Bucket(gray(pixels[p]), k).Some? && Bucket(gray(pixels[p]), k).value >= |generatedColors|
    ensures Recolored(pixels, gray, k, generatedColors).Ok? ==>
              var g, c := gray(pixels[j]), Recolored(pixels, gray, k, generatedColors).value[j];
              && (!(0.0 <= g <= 1.0) ==> c == Clear)
              && (0.0 <= g <= 1.0 ==>
                    exists i :: 0 <= i < k && i < |generatedColors| && InBucket(g, k, i) && c == generatedColors[i] &&
                      forall i' :: i < i' < k ==> !InBucket(g, k, i'))
  {
    var r := Recolored(pixels, gray, k, generatedColors);
    if r.Err? {
      var p :| 0 <= p < |pixels| && RecoloredPixel(gray(pixels[p]), k, generatedColors).Err?;
      assert Bucket(gray(pixels[p]), k).Some?;
    } else {
      forall p | 0 <= p < |pixels| && Bucket(gray(pixels[p]), k).Some?
        ensures Bucket(gray(pixels[p]), k).value < |generatedColors|
      {
        assert RecoloredPixel(gray(pixels[p]), k, generatedColors).Ok?;
      }
      var g := gray(pixels[j]);
      BucketDefinedInUnitRange(g, k);
      assert RecoloredPixel(g, k, generatedColors).Ok?;
      if 0.0 <= g <= 1.0 {
        var i := Bucket(g, k).value;
        assert r.value[j] == generatedColors[i];
      }
    }
  }

  // ---------------------------------------------------------------------------
  // The component

  class Recoloring {
    /** The palette textures. */
    var palettes: seq<Texture2D>
    /** The colours of the current sprite, resolved on frame 0. */
    var generatedColors: array<Color>
    /** The unique colours of each palette, built by OnEnable; null before. */
    var uniqueColorsInTextures: array?<seq<Color>>

    /** A freshly loaded component: the serialised colour array is empty, the cache not yet built. */
    constructor (palettes: seq<Texture2D>)
      ensures this.palettes == palettes && generatedColors.Length == 0 && uniqueColorsInTextures == null
    {
      this.palettes := palettes;
      generatedColors := new Color[0];
      uniqueColorsInTextures := null;
    }

    /** The palette cache as a value. */
    function CacheContents(): Option<seq<seq<Color>>>
      reads this, uniqueColorsInTextures
    {
      if uniqueColorsInTextures == null then None else Some(uniqueColorsInTextures[..])
    }

    /** Builds the cache: one unique-colour list per palette texture, at the palette's own index. */
    method OnEnable()
      modifies this
      ensures palettes == old(palettes) && generatedColors == old(generatedColors)
      ensures uniqueColorsInTextures != null && fresh(uniqueColorsInTextures)
      ensures uniqueColorsInTextures.Length == |palettes|
      ensures forall i :: 0 <= i < |palettes| ==> uniqueColorsInTextures[i] == Unique(palettes[i].pixels)
    {
      var cache := new seq<Color>[|palettes|](_ => []);
      uniqueColorsInTextures := cache;
      for index := 0 to |palettes|
        modifies cache
        invariant forall i :: 0 <= i < index ==> cache[i] == Unique(palettes[i].pixels)
      {
        var texture2D := palettes[index];
        cache[index] := GetUniqueColorsFromTexture(texture2D);
      }
    }

    /** The distinct colours of a texture, in the order of their first occurrence. */
    method GetUniqueColorsFromTexture(texture: Texture2D) returns (uniqueColors: seq<Color>)
      ensures uniqueColors == Unique(texture.pixels)
    {
      uniqueColors := [];
      var pixels := texture.pixels;
      for i := 0 to |pixels|
        invariant uniqueColors == Unique(pixels[..i])
      {
        var col := pixels[i];
        assert pixels[..i + 1][..i] == pixels[..i];
        if col !in uniqueColors {
          uniqueColors := uniqueColors + [col];
        }
      }
      assert pixels[..|pixels|] == pixels;
    }

    /**
     * Allocates `colorCountPerSprite` slots and fills them: slot 0 with the background, the rest
     * from the selected palette, or black and random colours without one. On an exception the
     * allocated array stays in place.
     */
    method GenerateColors(cc: ColorConfig, bc: BackgroundColorConfig, d: Draws) returns (outcome: Outcome)
      modifies this
      ensures palettes == old(palettes) && uniqueColorsInTextures == old(uniqueColorsInTextures)
      ensures var spec := GeneratedColorsFor(cc, bc, old(CacheContents()), d);
              && (outcome.Pass? <==> spec.Ok?)
              && (spec.Ok? ==> generatedColors[..] == spec.value)
              && (spec.Err? ==> outcome == Fail(spec.error))
      ensures cc.colorCountPerSprite < 0 ==> generatedColors == old(generatedColors)
      ensures cc.colorCountPerSprite >= 0 ==> fresh(generatedColors) && generatedColors.Length == cc.colorCountPerSprite
    {
      ghost var cache := CacheContents();
      var n := cc.colorCountPerSprite;
      if n < 0 {
        return Fail(Overflow);
      }
      generatedColors := new Color[n](_ => Clear);
      assert CacheContents() == cache;
      if cc.usePaletteColors {
        outcome := FillFromPalette(cc, bc, d);
      } else {
        outcome := FillWithRandomColors(d);
      }
    }

    /** The palette branch: slot 0 by the background precedence, every further slot drawn from the palette. */
    method FillFromPalette(cc: ColorConfig, bc: BackgroundColorConfig, d: Draws) returns (outcome: Outcome)
      requires cc.colorCountPerSprite >= 0 && generatedColors.Length == cc.colorCountPerSprite as int
      modifies generatedColors
      ensures var spec := PaletteColorsFor(cc, bc, CacheContents(), d);
              && (outcome.Pass? <==> spec.Ok?)
              && (spec.Ok? ==> generatedColors[..] == spec.value)
              && (spec.Err? ==> outcome == Fail(spec.error))
    {
      ghost var spec := PaletteColorsFor(cc, bc, CacheContents(), d);
      var n := generatedColors.Length;
      var zero := SlotZero(cc, bc, CacheContents(), d);
      if zero.Err? {
        return Fail(zero.error);
      }
      if n == 0 {
        return Fail(IndexOutOfRange);  // the store into slot 0 of an empty array
      }
      generatedColors[0] := zero.value;
      var index := 1;
      while index < generatedColors.Length
        invariant 1 <= index <= n
        invariant generatedColors[0] == zero.value
        invariant index >= 2 ==> spec.Ok?
        invariant forall j :: 1 <= j < index ==> spec.Ok? && generatedColors[j] == spec.value[j]
      {
        var palette := PaletteAt(CacheContents(), cc.paletteIndex);
        if palette.Err? {
          return Fail(palette.error);
        }
        var color := ListAt(palette.value, RandomRange(0, |palette.value|, d.slots(index)));
        if color.Err? {
          return Fail(color.error);
        }
        PaletteColorsPointwise(cc, bc, CacheContents(), d, index);
        generatedColors[index] := color.value;
        index := index + 1;
      }
      assert generatedColors[..] == spec.value;
      outcome := Pass;
    }

    /** The branch without a palette: black in slot 0, a random colour in every further slot. */
    method FillWithRandomColors(d: Draws) returns (outcome: Outcome)
      modifies generatedColors
      ensures var spec := RandomColorsFor(generatedColors.Length, d);
              && (outcome.Pass? <==> spec.Ok?)
              && (spec.Ok? ==> generatedColors[..] == spec.value)
              && (spec.Err? ==> outcome == Fail(spec.error))
    {
      if generatedColors.Length == 0 {
        return Fail(IndexOutOfRange);  // the store into slot 0 of an empty array
      }
      generatedColors[0] := Black;
      for index := 1 to generatedColors.Length
        invariant generatedColors[0] == Black
        invariant forall j :: 1 <= j < index ==> generatedColors[j] == d.hsv(j)
      {
        generatedColors[index] := d.hsv(index);
      }
      assert generatedColors[..] == RandomColorsFor(generatedColors.Length, d).value;
      outcome := Pass;
    }

    /** The bucket loop: the new colour of every pixel, or the exception an unfilled bucket raises. */
    method RecolorPixels(colors: seq<Color>, grayscale: Color -> real, k: Int32) returns (r: Result<seq<Color>>)
      ensures r == Recolored(colors, grayscale, k, generatedColors[..])
    {
      ghost var gen := generatedColors[..];
      var newColors := new Color[|colors|](_ => Clear);
      for index := 0 to |colors|
        invariant k >= 1 ==> forall j :: 0 <= j < index ==> RecoloredPixel(grayscale(colors[j]), k as nat, gen) == Ok(newColors[j])
        invariant k < 1 ==> forall j :: 0 <= j < index ==> newColors[j] == Clear
      {
        var gray := grayscale(colors[index]);
        var color := Clear;  // the default a new array holds
        var i := 0;
        while i < k
          invariant 0 <= i && (k >= 1 ==> i <= k)
          invariant k < 1 ==> color == Clear
          invariant k >= 1 ==> match LastBucketBelow(gray, k as nat, i)
                               case None => color == Clear
                               case Some(b) => b < |gen| && color == gen[b]
        {
          if InBucket(gray, k as nat, i) {
            if i >= generatedColors.Length {
              assert RecoloredPixel(gray, k as nat, gen).Err?;
              return Err(IndexOutOfRange);
            }
            color := generatedColors[i];
          }
          i := i + 1;
        }
        newColors[index] := color;
      }
      if k >= 1 {
        assert forall j :: 0 <= j < |colors| ==> RecoloredPixel(grayscale(colors[j]), k as nat, gen).Ok?;
      }
      assert newColors[..] == Recolored(colors, grayscale, k, gen).value;
      r := Ok(newColors[..]);
    }

    /**
     * One frame of recolouring. The background is first resolved for the camera (from the colours
     * as they stand); on frame 0 the colours are regenerated; then every pixel is mapped to the
     * colour of its grayscale bucket, and the background and outline colours are returned.
     */
    method Recolor(tex: Texture2D, frame: int, cc: ColorConfig, bc: BackgroundColorConfig, oc: OutlineConfig,
                   grayscale: Color -> real, d: Draws) returns (r: Result<(Color, Color)>)
      modifies this, tex
      ensures palettes == old(palettes) && uniqueColorsInTextures == old(uniqueColorsInTextures)
      ensures frame != 0 ==> generatedColors == old(generatedColors)
      ensures var camera := BackgroundColor(bc, cc, old(generatedColors[..]), d.cameraBackground);
              camera.Err? ==> r == Err(camera.error) && generatedColors == old(generatedColors) && tex.pixels == old(tex.pixels)
      ensures var camera := BackgroundColor(bc, cc, old(generatedColors[..]), d.cameraBackground);
              var spec := GeneratedColorsFor(cc, bc, old(CacheContents()), d);
              camera.Ok? && frame == 0 ==>
                && (cc.colorCountPerSprite >= 0 ==> fresh(generatedColors) && generatedColors.Length == cc.colorCountPerSprite)
                && (cc.colorCountPerSprite < 0 ==> generatedColors == old(generatedColors))
                && (spec.Ok? ==> generatedColors[..] == spec.value)
                && (spec.Err? ==> r == Err(spec.error) && tex.pixels == old(tex.pixels))
      ensures var camera := BackgroundColor(bc, cc, old(generatedColors[..]), d.cameraBackground);
              var spec := GeneratedColorsFor(cc, bc, old(CacheContents()), d);
              var pixels := Recolored(old(tex.pixels), grayscale, cc.colorCountPerSprite, generatedColors[..]);
              camera.Ok? && (frame == 0 ==> spec.Ok?) ==>
                && (pixels.Err? ==> r == Err(pixels.error) && tex.pixels == old(tex.pixels))
                && (pixels.Ok? ==> tex.pixels == pixels.value && r == ReturnedColors(cc, bc, oc, generatedColors[..], d))
    {
      var camera := BackgroundColor(bc, cc, generatedColors[..], d.cameraBackground);
      if camera.Err? {
        return Err(camera.error);
      }
      if frame == 0 {
        var generated := GenerateColors(cc, bc, d);
        if generated.Fail? {
          return Err(generated.error);
        }
      }
      var colors := tex.pixels;
      var newColors := RecolorPixels(colors, grayscale, cc.colorCountPerSprite);
      if newColors.Err? {
        return Err(newColors.error);
      }
      tex.pixels := newColors.value;
      var background := BackgroundColor(bc, cc, generatedColors[..], d.background);
      if background.Err? {
        return Err(background.error);
      }
      var outline := OutlineColor(oc, generatedColors[..], d.outline);
      if outline.Err? {
        return Err(outline.error);
      }
      r := Ok((background.value, outline.value));
    }
  }
}

# ProcJam sprite generator: palette recolouring, configuration helpers and frame assembly

This project models the deterministic core of the ProcJam procedural pixel-art sprite generator
in Dafny and proves properties of it. The generator is a Unity project in C#.

- **Palette recolouring** (`PaletteRecoloring`, `Palette`, `Buckets`).
  - The `Recoloring` component caches the distinct colours of every palette texture, in the
    order they first appear.
  - On frame 0 of a sprite it allocates `colorCountPerSprite` colours. In palette mode slot 0 is
    the background (override, then a random palette colour, then the indexed palette colour) and
    every further slot is drawn from the selected palette with replacement. Without a palette,
    slot 0 is black and every further slot is a random colour.
  - A grayscale value in [0, 1] falls into one or two of `k` inclusive buckets covering [0, 1],
    and the pixel takes the generated colour of the last bucket that matches. A value outside
    [0, 1] matches no bucket and the pixel keeps the default colour.
  - The background colour and the outline colour are resolved from the generated colours.
- **Configuration helpers** (`Configuration`).
  - `ScalingConfig.ResizeScalingMode` resizes the list of scaling passes.
  - `SymmetryConfig3D.ChanceOf` looks up the chance of a symmetry plane.
  - The `ScalingMode` enum is modelled with its integer values and its default.
- **Frame assembly** (`SpriteGeneration`).
  - `RectAccordingToScalingMode` computes the sprite rect for a scaling mode.
  - `GenerateTexture` runs the six pipeline stages of one frame in their fixed order.
  - `Generate` makes one sprite per animation frame.
- **Records** (`GeneratedTextures`): `SymmetryOutcome`, `InheritedSymmetryConfig` and
  `GeneratedTexture`.

How the engine and the language are modelled:

- C# exceptions become `Result`/`Outcome` errors (`Errors`):
  - `NullReference` for a cache that was never built;
  - `IndexOutOfRange` for array indexing;
  - `ArgumentOutOfRange` for `List` indexing and the unhandled scaling mode;
  - `Overflow` for allocating an array of negative length.

  C#'s evaluation order is kept. The right-hand side of an array store is evaluated before the
  store's own bounds check.
- Unity's random generator is an input. Every `Random.Range` call site gets its own raw draw in
  `Draws`, and `Unity.RandomRange` maps a draw into the documented range: `max` is exclusive,
  equal bounds give `min`. `Random.ColorHSV` results are also inputs.
- `Color.grayscale` is a function supplied by the caller.
- Colours are RGBA values of reals compared exactly. This is how `List.Contains` compares them.
- A texture is the flat list of pixels that `GetPixels`/`SetPixels` exchange.
- The noise, falloff, symmetry, outline and scaling components are not part of this model. Their
  code is not available, so they enter as abstract functions (`SpriteGeneration.Stages`) of a
  state the components share.
- `int` fields are 32-bit (`Unity.Int32`). The unchecked products `imageSize * 2` and
  `imageSize * 4` wrap around (`Unity.Wrap32`).

Two behaviours of the code are worth stating outright:

- `generatedColors[0]` is not always the resolved background colour. The two agree when palette
  colours are off or the background override is set (`PaletteRecoloring.BackgroundIsSlotZero`).
  The indexed pick reads the palette for slot 0 but reads `generatedColors` for the background,
  and `PaletteRecoloring.IndexedBackgroundIsNotSlotZero` exhibits two palette colours for which
  the two differ. For the random pick, the two come from separate draws over different lists.
- Although the scaling modes are named as distinct upscalers, `RectAccordingToScalingMode` falls
  out of the switch for `eagle2` and `eagle3` and returns the base-size rect. It throws for `x10`
  and for any integer that names no enum member.

## Model

| member | source | states |
|---|---|---|
| Unity.Wrap32 | Assets/SpriteGeneration.cs:44-46 | the result is a 32-bit `int` congruent to the exact value modulo 2^32, and equal to it when the value fits |
| Unity.RandomRange | Assets/Scripts/Recoloring.cs:66-67 | an integer `Random.Range` lies in [min, max) for min < max, in [max, min) for reversed bounds, and is min for equal bounds |
| Unity.RandomRangeReachable | Assets/Scripts/Recoloring.cs:75 | every value of the range is produced by some draw, so modelling the generator by draws excludes no outcome |
| Configuration.ScalingModeValue | Assets/Scripts/Configuration.cs:169 | a scaling mode names an enum member exactly when its integer is one of 0..5 |
| Configuration.ScalingModeOfValue | Assets/Scripts/Configuration.cs:169 | casting a mode's integer back to the enum gives the same mode |
| Configuration.ScalingModeOf | Assets/Scripts/Configuration.cs:169 | the cast from an integer to the enum: 0..5 give the six members in declaration order, any other integer an unnamed value |
| Configuration.ScalingModeValueOf | Assets/Scripts/Configuration.cs:169 | casting any integer to the enum and back gives the same integer |
| Configuration.DefaultScalingModeIsNone | Assets/Scripts/Configuration.cs:122 | the default enum value (integer 0) is `none` |
| Configuration.Resized | Assets/Scripts/Configuration.cs:122-126 | the resized list has the new length, keeps every entry below both lengths at its index, and holds `none` in every slot beyond the old length |
| Configuration.ResizedGrowShrink | Assets/Scripts/Configuration.cs:122-126 | growing a list and shrinking it back to the old length restores it |
| Configuration.ResizedShrinkShrink | Assets/Scripts/Configuration.cs:124 | two successive shrinks equal one shrink to the smaller size |
| Configuration.ScalingConfig.constructor | Assets/Scripts/Configuration.cs:116-118 | the scaling-mode array holds the given modes and the filter mode is the given one |
| Configuration.ScalingConfig.ResizeScalingMode | Assets/Scripts/Configuration.cs:120-128 | resizing to the current length keeps the same array; a negative size throws and changes nothing; any other size installs a fresh array equal to the resized list; the filter mode never changes |
| Configuration.SymmetryConfig3D.ChanceOf | Assets/Scripts/Configuration.cs:99-111 | a direction that names no enum member has chance 0 |
| Configuration.ChanceOfOwnField | Assets/Scripts/Configuration.cs:101-109 | each of the nine directions reads its own chance field: setting that field changes its chance to the new value and leaves every other direction's chance unchanged |
| Configuration.ChanceOfInUnitRange | Assets/Scripts/Configuration.cs:89-97 | when the nine chance fields are in [0, 1], so is every lookup, unlisted directions included |
| GeneratedTextures.NewSymmetryOutcome | Assets/Scripts/GeneratedTexture.cs:23-42 | the nine-argument constructor stores each argument in its own field |
| GeneratedTextures.DefaultSymmetryOutcome | Assets/Scripts/GeneratedTexture.cs:43 | the parameterless constructor leaves all nine flags false |
| GeneratedTextures.NewInheritedSymmetryConfig | Assets/Scripts/GeneratedTexture.cs:50-53 | the constructor stores the inherited flag and the outcome it is given |
| GeneratedTextures.OmittedOutcomeIsNull | Assets/Scripts/GeneratedTexture.cs:50 | leaving out the outcome argument gives a null outcome |
| Palette.Unique | Assets/Scripts/Recoloring.cs:86-93 | the unique-colour list contains exactly the colours of the texture and has no duplicates |
| Palette.UniqueInFirstOccurrenceOrder | Assets/Scripts/Recoloring.cs:88-90 | the unique colours are listed in increasing order of their first occurrence in the texture |
| Palette.UniqueIdempotent | Assets/Scripts/Recoloring.cs:89-90 | extracting the unique colours of a unique-colour list changes nothing |
| Palette.UniqueOfNoDuplicates | Assets/Scripts/Recoloring.cs:89-90 | a list without duplicates is its own unique-colour list |
| Buckets.InBucket | Assets/Scripts/Recoloring.cs:34 | the bucket test: bucket i of k holds the gray values from i/k to (i+1)/k, both ends included |
| Buckets.LastBucketBelow | Assets/Scripts/Recoloring.cs:33-36 | after trying buckets 0..bound-1, the bucket picked contains the gray value and no later bucket tried does; when none is picked, no bucket tried contains it |
| Buckets.Bucket | Assets/Scripts/Recoloring.cs:33-36 | the bucket the inner loop leaves after trying all k buckets: the last one containing the gray value, if any |
| Buckets.InBucketScaled | Assets/Scripts/Recoloring.cs:34 | `gray` lies in bucket i of k exactly when i <= gray*k <= i+1 |
| Buckets.BucketDefinedInUnitRange | Assets/Scripts/Recoloring.cs:29-36 | a gray value matches some bucket exactly when it lies in [0, 1], and the bucket is below k |
| Buckets.BucketMonotone | Assets/Scripts/Recoloring.cs:29-36 | over [0, 1], a higher gray value never gets a lower bucket |
| Buckets.SharedEdgeGoesUp | Assets/Scripts/Recoloring.cs:33-35 | a gray value j/k on the edge of buckets j-1 and j goes to bucket j, because the last match wins |
| PaletteRecoloring.PaletteAt | Assets/Scripts/Recoloring.cs:66 | the lookup of the selected palette's unique-colour list: a cache never built throws a null reference, an index outside the cache an index error |
| PaletteRecoloring.SlotZero | Assets/Scripts/Recoloring.cs:62-72 | slot 0 in palette mode: the override, else a `Range(0, Count-1)` pick from the selected palette, else the palette colour at the configured index, with the exception a null cache or a bad index throws |
| PaletteRecoloring.CanGenerateColors | Assets/Scripts/Recoloring.cs:60-77 | the condition under which colour generation completes: a positive count, and in palette mode a selectable slot 0 and, for a second slot, a non-empty palette |
| PaletteRecoloring.PaletteColorsFor | Assets/Scripts/Recoloring.cs:62-77 | the palette branch: slot 0, then one palette colour per further slot drawn with `Range(0, Count)`, errors in the order the statements raise them |
| PaletteRecoloring.RandomColorsFor | Assets/Scripts/Recoloring.cs:79-83 | the branch without a palette: black, then one random colour per further slot; an empty array fails the store into slot 0 |
| PaletteRecoloring.GeneratedColorsFor | Assets/Scripts/Recoloring.cs:60-84 | colour generation succeeds exactly when the configuration and the cache allow it (independently of the draws); it then yields exactly `colorCountPerSprite` colours; in palette mode every slot from 1 on belongs to the selected palette's unique list; without a palette, slot 0 is black and slot i is the i-th random colour |
| PaletteRecoloring.PaletteColorsPointwise | Assets/Scripts/Recoloring.cs:74-75 | in palette mode, slot i from 1 on is the palette colour at the index drawn for slot i |
| PaletteRecoloring.SlotZeroPrecedence | Assets/Scripts/Recoloring.cs:62-72 | in palette mode, slot 0 is the override if set; otherwise a random palette colour other than the last one (the only one when the palette has one colour); otherwise the palette colour at the configured index |
| PaletteRecoloring.SlotsDrawnWithReplacement | Assets/Scripts/Recoloring.cs:74-77 | any choice of palette colours for slots 1 and up, repeats included, is produced by some draws |
| PaletteRecoloring.BackgroundColor | Assets/Scripts/Recoloring.cs:50-58 | the background is black when palette colours are off, checked before the override; then the override; then a random generated colour other than the last one; then the generated colour at the index; it fails exactly when the chosen pick has no generated colour |
| PaletteRecoloring.OutlineColor | Assets/Scripts/Recoloring.cs:42-48 | the outline is the override if set; then a random generated colour other than the last one; then the generated colour at the index; it fails exactly when the chosen pick has no generated colour |
| PaletteRecoloring.ReturnedColors | Assets/Scripts/Recoloring.cs:39 | the returned pair is the background, resolved first, then the outline, and the first failure of the two is the result |
| PaletteRecoloring.BackgroundIsSlotZero | Assets/Scripts/Recoloring.cs:51-54 | with palette colours off or the override set, the background equals generated slot 0 |
| PaletteRecoloring.IndexedBackgroundIsNotSlotZero | Assets/Scripts/Recoloring.cs:57 | with the indexed pick, the background can differ from slot 0: palette [red, blue] with index 1 generates [blue, red] and resolves the background to red |
| PaletteRecoloring.RecoloredPixel | Assets/Scripts/Recoloring.cs:32-36 | one pixel: the default colour when no bucket matches, else the generated colour of the last matching bucket, failing when that bucket has no generated colour |
| PaletteRecoloring.Recolored | Assets/Scripts/Recoloring.cs:28-37 | recolouring keeps the pixel count, and with fewer than one colour every pixel keeps the default colour |
| PaletteRecoloring.RecolorUsesLastMatchingBucket | Assets/Scripts/Recoloring.cs:29-37 | recolouring fails exactly when some pixel's bucket has no generated colour; otherwise a pixel outside [0, 1] keeps the default colour and every other pixel gets the generated colour of the last bucket containing its gray value |
| PaletteRecoloring.Recoloring.constructor | Assets/Scripts/Recoloring.cs:7-11 | a new component has the given palettes, an empty colour array and no cache |
| PaletteRecoloring.Recoloring.OnEnable | Assets/Scripts/Recoloring.cs:15-21 | after enabling there is one unique-colour list per palette texture, at the texture's own index; the palettes and the generated colours are unchanged |
| PaletteRecoloring.Recoloring.GetUniqueColorsFromTexture | Assets/Scripts/Recoloring.cs:86-93 | the loop returns the unique-colour list of the texture's pixels |
| PaletteRecoloring.Recoloring.GenerateColors | Assets/Scripts/Recoloring.cs:60-84 | the method completes exactly when colour generation succeeds, and then the colour array holds the generated colours; otherwise it fails with generation's error; a negative count leaves the old array in place, and any other count installs a fresh array of that length |
| PaletteRecoloring.Recoloring.FillFromPalette | Assets/Scripts/Recoloring.cs:62-77 | the palette branch's loop stores slot 0 and the palette draws, or stops with the first error, as the palette branch of colour generation prescribes |
| PaletteRecoloring.Recoloring.FillWithRandomColors | Assets/Scripts/Recoloring.cs:79-83 | the branch without a palette stores black in slot 0 and the i-th random colour in slot i, and fails on an empty array |
| PaletteRecoloring.Recoloring.RecolorPixels | Assets/Scripts/Recoloring.cs:28-37 | the nested bucket loop yields the recoloured pixels, or the error of the first pixel whose bucket has no generated colour |
| PaletteRecoloring.Recoloring.Recolor | Assets/Scripts/Recoloring.cs:23-40 | the camera's background is resolved first and its failure changes nothing; colours are regenerated on frame 0 only, and later frames keep the same array; then the texture is recoloured and the background and outline are returned |
| SpriteGeneration.RectAccordingToScalingMode | Assets/SpriteGeneration.cs:39-56 | the rect fails exactly for `x10` and for integers that name no mode, with `ArgumentOutOfRange`; every rect is square at the origin; `none`, `eagle2` and `eagle3` give the base size; `x2` and `x4` give twice and four times the base size modulo 2^32 |
| SpriteGeneration.RectScalesBaseSize | Assets/SpriteGeneration.cs:41-55 | when the product does not overflow, the rect side is 1, 2 or 4 times the image size, with factor 1 for the eagle modes |
| SpriteGeneration.DefaultModeGivesBaseRect | Assets/SpriteGeneration.cs:41-42 | the default scaling mode gives the base-size rect |
| SpriteGeneration.FrameTexture | Assets/SpriteGeneration.cs:26-37 | one frame as a function: noise, falloff, symmetry, recolour, outline and scale composed in this order, the outline given recolour's two colours |
| SpriteGeneration.ComponentsBefore | Assets/SpriteGeneration.cs:20-21 | the state the components hold before frame j: frames 0..j-1 have run in order, each on the state the previous one left |
| SpriteGeneration.SpritesUpTo | Assets/SpriteGeneration.cs:19-23 | the sprites of n frames are n sprites |
| SpriteGeneration.SpritesUpToAt | Assets/SpriteGeneration.cs:20-21 | sprite i is built from the texture made by frame i, from the state frames 0..i-1 left, with the rect and the centre pivot |
| SpriteGeneration.FrameStageOrder | Assets/SpriteGeneration.cs:28-33 | one frame calls noise, falloff, symmetry, recolour, outline and scale in this order; outline receives the two colours recolour returned; observing the calls changes neither the state nor the texture |
| SpriteGeneration.LoggingKeepsComponents | Assets/SpriteGeneration.cs:20-21 | observing the stage calls leaves the state before every frame unchanged |
| SpriteGeneration.FramesRunInOrder | Assets/SpriteGeneration.cs:20-22 | j frames make 6j stage calls: one block of six per frame, with frames in increasing order |
| SpriteGeneration.GenerateTexture | Assets/SpriteGeneration.cs:26-37 | the method threads the texture and the state through the six stages exactly as the frame function does |
| SpriteGeneration.Generate | Assets/SpriteGeneration.cs:18-24 | a count of 0 or less gives no sprites and runs nothing; a scaling mode without a rect fails after frame 0 has run; otherwise the method returns exactly one sprite per frame, in frame order, and leaves the state of all frames run |

## Left out

- The camera background assignment (Assets/Scripts/Recoloring.cs:24-25) is a scene side effect and is left out. Evaluating `BackgroundColor` for it is kept, because that can throw before the colours are generated. On frame 0 it reads the colours of the previous sprite. A null `Camera.main` is not modelled.
- `Texture2D.GetPixels`/`SetPixels`, `Color.grayscale`, `Random.Range`'s generator, `Random.ColorHSV`, `tex.filterMode` and `tex.Apply()` are engine calls. The pixels become a `seq<Color>` and the rest become inputs. The texture upload at Assets/SpriteGeneration.cs:34-35 is not modelled.
- Bucket edges are computed with reals. `1f / k` and the products are single-precision floats in the code, so an edge such as the top of the last bucket may differ from exactly 1 there.
- `ColorConfig.lockedColorTextures`, and every configuration record the modelled code does not read (sizing, noise, falloff, 2D symmetry, animation, shading, cleanup and normals), have no logic and are not modelled.
- The inspector `[Range]` attributes are hints, not checks. Nothing is assumed from them; `Configuration.ChanceOfInUnitRange` takes the range as a hypothesis.
- The noise, falloff, symmetry, outline and scaling components are not part of this model. They are abstract stages.
- SpriteGeneration.Generate: the stages are modelled as total functions that never throw. An exception from any stage, such as the one `PaletteRecoloring.Recoloring.Recolor` raises for a palette-mode colour count of 0, would leave `GenerateTexture` and `Generate` without returning a sprite list; the model's one sprite per frame holds only for stages that complete.
- Assets/Configuration.cs, Assets/Controls.cs and ProtoGUI-master/Runtime/ToolbarGUI.cs are not part of this model. They hold presets and serialisation, editor buttons and scene layout, and window toggling.
- Animation playback is not part of this model, nor is the frame timing.
- `Sprite.Create` is modelled as a record of texture, rect and pivot. The rect's float coordinates are integers.
- As written, Assets/SpriteGeneration.cs reads `configuration.animationFrameCount` and `configuration.scalingMode`, and calls a two-argument `Recolor`. Neither matches Assets/Scripts/Configuration.cs or Assets/Scripts/Recoloring.cs. `SpriteGeneration.Generate` therefore takes the frame count and the scaling mode directly, and the recolour stage is abstract.
- Serialised field defaults are left out. `Recoloring.palettes`, `Recoloring.generatedColors` and `ScalingConfig.scalingModes` start as non-null arrays, as Unity serialisation provides them. Every entry of `palettes` is a texture: an empty inspector slot, which would be null and make `GetPixels` throw inside `OnEnable` after the partly filled cache was installed, is not modelled.
- PaletteRecoloring.Recoloring.GenerateColors: when generation throws part way, the contents the freshly allocated array holds are not stated, only its length.
- PaletteRecoloring.Recoloring.Recolor: on a failure after the colours were regenerated, only the colour array's length and, when generation succeeded, its contents are stated; the texture is stated unchanged when the failure comes before `SetPixels`.

/**
 * The generator's top level: each animation frame runs the stages noise, falloff, symmetry,
 * recolour, outline and scale in that order, and becomes a sprite with a rect that depends on
 * the scaling mode.
 */
module SpriteGeneration {
  import opened Errors
  import opened Unity
  import opened Configuration

  // ---------------------------------------------------------------------------
  // RectAccordingToScalingMode

  /**
   * The sprite rect for a scaling mode: the base size for `none`, doubled for `x2`, quadrupled
   * for `x4` (unchecked `int` products), and the base size again for the eagle modes, which
   * leave the switch without returning. `x10` and unnamed values throw.
   */
  function RectAccordingToScalingMode(imageSize: Int32, mode: ScalingMode): (r: Result<Rect>)
    ensures r.Err? <==> mode.x10? || mode.Unnamed?
    ensures r.Err? ==> r.error == ArgumentOutOfRange
    ensures r.Ok? ==> r.value.x == 0 && r.value.y == 0 && r.value.width == r.value.height
    ensures mode.none? || mode.eagle2? || mode.eagle3? ==> r == Ok(Rect(0, 0, imageSize, imageSize))
    ensures mode.x2? ==> r.Ok? && (r.value.width - 2 * imageSize) % 0x1_0000_0000 == 0
    ensures mode.x4? ==> r.Ok? && (r.value.width - 4 * imageSize) % 0x1_0000_0000 == 0
  {
    match mode
    case none => Ok(Rect(0, 0, imageSize, imageSize))
    case x2 => Ok(Rect(0, 0, Wrap32(imageSize * 2), Wrap32(imageSize * 2)))
    case x4 => Ok(Rect(0, 0, Wrap32(imageSize * 4), Wrap32(imageSize * 4)))
    case eagle2 => Ok(Rect(0, 0, imageSize, imageSize))
    case eagle3 => Ok(Rect(0, 0, imageSize, imageSize))
    case x10 => Err(ArgumentOutOfRange)
    case Unnamed(_) => Err(ArgumentOutOfRange)
  }

  /** The rect is `factor * imageSize` square whenever the product fits in an `int`; the eagle modes keep factor 1. */
  lemma RectScalesBaseSize(imageSize: Int32, mode: ScalingMode)
    requires -0x2000_0000 <= imageSize < 0x2000_0000
    requires mode.none? || mode.x2? || mode.x4? || mode.eagle2? || mode.eagle3?
    ensures var factor := if mode.x2? then 2 else if mode.x4? then 4 else 1;
            RectAccordingToScalingMode(imageSize, mode) == Ok(Rect(0, 0, factor * imageSize, factor * imageSize))
  {
  }

  /** The default scaling mode, the enum's zero, gives the base-size rect. */
  lemma DefaultModeGivesBaseRect(imageSize: Int32)
    ensures RectAccordingToScalingMode(imageSize, ScalingModeOf(0)) == Ok(Rect(0, 0, imageSize, imageSize))
  {
    DefaultScalingModeIsNone();
  }

  // ---------------------------------------------------------------------------
  // The stages of one frame

  /**
   * The pipeline components, whose code is not part of this model, as functions of their
   * combined state `S` (generated colours, inherited symmetry, the random generator) and the
   * texture they work on.
   */
  datatype Stages<!S, !Tex> = Stages(
    noise: (S, Int32, int) -> (S, Tex),
    falloff: (S, Tex) -> (S, Tex),
    symmetry: (S, Tex, int) -> (S, Tex),
    recolor: (S, Tex, int) -> (S, Tex, Color, Color),
    outline: (S, Tex, Color, Color) -> (S, Tex),
    scale: (S, Tex, ScalingMode) -> (S, Tex))

  /** GenerateTexture as a function: the components' state after the frame, and the texture it made. */
  function FrameTexture<S, Tex>(stages: Stages<S, Tex>, components: S, imageSize: Int32, frame: int, mode: ScalingMode): (S, Tex) {
    var noised := stages.noise(components, imageSize, frame);
    var fallen := stages.falloff(noised.0, noised.1);
    var mirrored := stages.symmetry(fallen.0, fallen.1, frame);
    var recolored := stages.recolor(mirrored.0, mirrored.1, frame);
    var outlined := stages.outline(recolored.0, recolored.1, recolored.2, recolored.3);
    stages.scale(outlined.0, outlined.1, mode)
  }

  /** The components' state before frame `j`: frames 0 .. j-1 have run, in that order. */
  function ComponentsBefore<S, Tex>(stages: Stages<S, Tex>, components: S, imageSize: Int32, mode: ScalingMode, j: nat): S {
    if j == 0 then components
    else FrameTexture(stages, ComponentsBefore(stages, components, imageSize, mode, j - 1), imageSize, j - 1, mode).0
  }

  /** A sprite: its texture, its rect and its pivot. */
  datatype Sprite<Tex> = Sprite(texture: Tex, rect: Rect, pivot: Vector2)

  /** The pivot every sprite gets: the centre. */
  const Centre := Vector2(0.5, 0.5)

  /** The sprites of frames 0 .. n-1, each from the texture its frame made. */
  function SpritesUpTo<S, Tex>(stages: Stages<S, Tex>, components: S, imageSize: Int32, mode: ScalingMode, rect: Rect, n: nat): (sprites: seq<Sprite<Tex>>)
    ensures |sprites| == n
  {
    if n == 0 then []
    else
      var c := ComponentsBefore(stages, components, imageSize, mode, n - 1);
      SpritesUpTo(stages, components, imageSize, mode, rect, n - 1) + [Sprite(FrameTexture(stages, c, imageSize, n - 1, mode).1, rect, Centre)]
  }

  /** Sprite i of any longer run is the sprite of frame i. */
  lemma {:induction false} SpritesUpToAt<S, Tex>(stages: Stages<S, Tex>, components: S, imageSize: Int32, mode: ScalingMode, rect: Rect, n: nat, i: nat)
    requires i < n
    ensures SpritesUpTo(stages, components, imageSize, mode, rect, n)[i] ==
            Sprite(FrameTexture(stages, ComponentsBefore(stages, components, imageSize, mode, i), imageSize, i, mode).1, rect, Centre)
  {
    if i < n - 1 {
      SpritesUpToAt(stages, components, imageSize, mode, rect, n - 1, i);
    }
  }

  // ---------------------------------------------------------------------------
  // Observing the stage order: every stage call, with what it was given or returned

  datatype Event =
    | Noise(imageSize: Int32, frame: int)
    | Falloff
    | Symmetry(frame: int)
    | Recolor(frame: int, background: Color, outline: Color)  // the colours the stage returned
    | Outline(background: Color, outline: Color)               // the colours the stage was given
    | Scale(mode: ScalingMode)

  /** The same stages, each also appending its event to a log kept beside the components' state. */
  function Logged<S, Tex>(stages: Stages<S, Tex>): Stages<(S, seq<Event>), Tex> {
    Stages(
      (c: (S, seq<Event>), size: Int32, frame: int) =>
        var r := stages.noise(c.0, size, frame); ((r.0, c.1 + [Noise(size, frame)]), r.1),
      (c: (S, seq<Event>), tex: Tex) =>
        var r := stages.falloff(c.0, tex); ((r.0, c.1 + [Falloff]), r.1),
      (c: (S, seq<Event>), tex: Tex, frame: int) =>
        var r := stages.symmetry(c.0, tex, frame); ((r.0, c.1 + [Symmetry(frame)]), r.1),
      (c: (S, seq<Event>), tex: Tex, frame: int) =>
        var r := stages.recolor(c.0, tex, frame); ((r.0, c.1 + [Recolor(frame, r.2, r.3)]), r.1, r.2, r.3),
      (c: (S, seq<Event>), tex: Tex, bg: Color, ol: Color) =>
        var r := stages.outline(c.0, tex, bg, ol); ((r.0, c.1 + [Outline(bg, ol)]), r.1),
      (c: (S, seq<Event>), tex: Tex, mode: ScalingMode) =>
        var r := stages.scale(c.0, tex, mode); ((r.0, c.1 + [Scale(mode)]), r.1))
  }

  /** The six events of one frame, in the fixed order, with outline given exactly the colours recolour returned. */
  predicate IsFrameBlock(events: seq<Event>, imageSize: Int32, frame: int, mode: ScalingMode) {
    && |events| == 6
    && events[0] == Noise(imageSize, frame)
    && events[1] == Falloff
    && events[2] == Symmetry(frame)
    && events[3].Recolor? && events[3].frame == frame
    && events[4] == Outline(events[3].background, events[3].outline)
    && events[5] == Scale(mode)
  }

  /** One frame runs noise, falloff, symmetry, recolour, outline, scale, and logging changes nothing else. */
  lemma FrameStageOrder<S, Tex>(stages: Stages<S, Tex>, logged: (S, seq<Event>), imageSize: Int32, frame: int, mode: ScalingMode)
    ensures var next := FrameTexture(Logged(stages), logged, imageSize, frame, mode);
            var log := next.0.1;
            && next.0.0 == FrameTexture(stages, logged.0, imageSize, frame, mode).0
            && next.1 == FrameTexture(stages, logged.0, imageSize, frame, mode).1
            && |log| == |logged.1| + 6 && log[..|logged.1|] == logged.1
            && IsFrameBlock(log[|logged.1|..], imageSize, frame, mode)
  {
  }

  /** Logging the stage calls leaves the components' state of every frame as it was. */
  lemma {:induction false} LoggingKeepsComponents<S, Tex>(stages: Stages<S, Tex>, components: S, log: seq<Event>, imageSize: Int32, mode: ScalingMode, j: nat)
    ensures ComponentsBefore(Logged(stages), (components, log), imageSize, mode, j).0 == ComponentsBefore(stages, components, imageSize, mode, j)
  {
    if j > 0 {
      var logged := Logged(stages);
      LoggingKeepsComponents(stages, components, log, imageSize, mode, j - 1);
      var before := ComponentsBefore(logged, (components, log), imageSize, mode, j - 1);
      assert ComponentsBefore(logged, (components, log), imageSize, mode, j) == FrameTexture(logged, before, imageSize, j - 1, mode).0;
      FrameStageOrder(stages, before, imageSize, j - 1, mode);
    }
  }

  /** Frames run one after the other in increasing order, each as one block of six stage events. */
  lemma {:induction false} FramesRunInOrder<S, Tex>(stages: Stages<S, Tex>, components: S, imageSize: Int32, mode: ScalingMode, j: nat)
    ensures var log := ComponentsBefore(Logged(stages), (components, []), imageSize, mode, j).1;
            && |log| == 6 * j
            && forall f :: 0 <= f < j ==> IsFrameBlock(log[6 * f .. 6 * f + 6], imageSize, f, mode)
  {
    if j > 0 {
      var logged := Logged(stages);
      FramesRunInOrder(stages, components, imageSize, mode, j - 1);
      var before := ComponentsBefore(logged, (components, []), imageSize, mode, j - 1);
      var after := ComponentsBefore(logged, (components, []), imageSize, mode, j);
      assert after == FrameTexture(logged, before, imageSize, j - 1, mode).0;
      FrameStageOrder(stages, before, imageSize, j - 1, mode);
      AppendFrameBlock(before.1, after.1, imageSize, mode, j - 1);
    }
  }

  /** A log of `frames` whole frame blocks, extended by the block of the next frame, is a log of one more frame. */
  lemma AppendFrameBlock(log: seq<Event>, log': seq<Event>, imageSize: Int32, mode: ScalingMode, frames: nat)
    requires |log| == 6 * frames && forall f :: 0 <= f < frames ==> IsFrameBlock(log[6 * f .. 6 * f + 6], imageSize, f, mode)
    requires |log'| == |log| + 6 && log'[..|log|] == log && IsFrameBlock(log'[|log|..], imageSize, frames, mode)
    ensures forall f :: 0 <= f <= frames ==> IsFrameBlock(log'[6 * f .. 6 * f + 6], imageSize, f, mode)
  {
    forall f | 0 <= f <= frames
      ensures IsFrameBlock(log'[6 * f .. 6 * f + 6], imageSize, f, mode)
    {
      if f < frames {
        assert log'[6 * f .. 6 * f + 6] == log'[..|log|][6 * f .. 6 * f + 6];
      } else {
        assert log'[6 * f .. 6 * f + 6] == log'[|log|..];
      }
    }
  }

  // ---------------------------------------------------------------------------
  // The component

  /**
   * One frame: the texture is threaded through the six stages in turn, and the colours the
   * recolour stage returns go to the outline stage.
   */
  method GenerateTexture<S, Tex>(stages: Stages<S, Tex>, components: S, imageSize: Int32, frame: int, scalingMode: ScalingMode)
    returns (components': S, tex: Tex)
    ensures (components', tex) == FrameTexture(stages, components, imageSize, frame, scalingMode)
  {
    var step := stages.noise(components, imageSize, frame);
    components', tex := step.0, step.1;
    step := stages.falloff(components', tex);
    components', tex := step.0, step.1;
    step := stages.symmetry(components', tex, frame);
    components', tex := step.0, step.1;
    var recolored := stages.recolor(components', tex, frame);
    var backgroundColor, outlineColor := recolored.2, recolored.3;
    components', tex := recolored.0, recolored.1;
    step := stages.outline(components', tex, backgroundColor, outlineColor);
    components', tex := step.0, step.1;
    step := stages.scale(components', tex, scalingMode);
    components', tex := step.0, step.1;
  }

  /**
   * One sprite per animation frame, frame i built from the state frames 0 .. i-1 left. The
   * texture is made before the rect, so a rect that throws does so after frame 0 has run.
   */
  method Generate<S, Tex>(stages: Stages<S, Tex>, components: S, imageSize: Int32, animationFrameCount: Int32, scalingMode: ScalingMode)
    returns (components': S, r: Result<seq<Sprite<Tex>>>)
    ensures var rect := RectAccordingToScalingMode(imageSize, scalingMode);
            var count := if animationFrameCount < 0 then 0 else animationFrameCount as nat;
            && (count == 0 ==> r == Ok([]) && components' == components)
            && (count > 0 && rect.Err? ==>
                  r == Err(rect.error) && components' == ComponentsBefore(stages, components, imageSize, scalingMode, 1))
            && (rect.Ok? ==>
                  && components' == ComponentsBefore(stages, components, imageSize, scalingMode, count)
                  && r == Ok(SpritesUpTo(stages, components, imageSize, scalingMode, rect.value, count)))
  {
    ghost var expected := RectAccordingToScalingMode(imageSize, scalingMode);
    ghost var rect0 := if expected.Ok? then expected.value else Rect(0, 0, 0, 0);
    components' := components;
    var sprites: seq<Sprite<Tex>> := [];
    var i := 0;
    while i < animationFrameCount
      invariant 0 <= i <= (if animationFrameCount < 0 then 0 else animationFrameCount as int)
      invariant components' == ComponentsBefore(stages, components, imageSize, scalingMode, i)
      invariant i > 0 ==> expected.Ok?
      invariant sprites == SpritesUpTo(stages, components, imageSize, scalingMode, rect0, i)
    {
      var texture;
      ghost var frame := FrameTexture(stages, components', imageSize, i, scalingMode);
      components', texture := GenerateTexture(stages, components', imageSize, i, scalingMode);
      assert ComponentsBefore(stages, components, imageSize, scalingMode, i + 1) == frame.0;
      var rect := RectAccordingToScalingMode(imageSize, scalingMode);
      if rect.Err? {
        return components', Err(rect.error);
      }
      assert SpritesUpTo(stages, components, imageSize, scalingMode, rect0, i + 1) ==
             SpritesUpTo(stages, components, imageSize, scalingMode, rect0, i) + [Sprite(frame.1, rect0, Centre)];
      sprites := sprites + [Sprite(texture, rect.value, Centre)];
      i := i + 1;
    }
    r := Ok(sprites);
  }
}

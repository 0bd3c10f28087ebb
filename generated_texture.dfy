/** The records a generated frame carries: which symmetries were applied, and whether a later frame inherits them. */
module GeneratedTextures {
  import opened Errors
  import opened Unity

  /** The symmetry decisions made for one frame, plus the tie-break between mirrored pixels. */
  datatype SymmetryOutcome = SymmetryOutcome(
    horizontalSymmetryResult: bool,
    verticalSymmetryResult: bool,
    forwardDiagonalSymmetryResult: bool,
    backwardDiagonalSymmetryResult: bool,
    quarterHorizontalSymmetryResult: bool,
    quarterVerticalSymmetryResult: bool,
    quarterForwardDiagonalSymmetryResult: bool,
    quarterBackwardDiagonalSymmetryResult: bool,
    lowerIsDominant: bool)

  /** The nine-argument constructor: every argument lands in the field of the same name. */
  function NewSymmetryOutcome(
    horizontalSymmetryResult: bool,
    verticalSymmetryResult: bool,
    forwardDiagonalSymmetryResult: bool,
    backwardDiagonalSymmetryResult: bool,
    quarterHorizontalSymmetryResult: bool,
    quarterVerticalSymmetryResult: bool,
    quarterForwardDiagonalSymmetryResult: bool,
    quarterBackwardDiagonalSymmetryResult: bool,
    lowerIsDominant: bool): (o: SymmetryOutcome)
    ensures o.horizontalSymmetryResult == horizontalSymmetryResult
    ensures o.verticalSymmetryResult == verticalSymmetryResult
    ensures o.forwardDiagonalSymmetryResult == forwardDiagonalSymmetryResult
    ensures o.backwardDiagonalSymmetryResult == backwardDiagonalSymmetryResult
    ensures o.quarterHorizontalSymmetryResult == quarterHorizontalSymmetryResult
    ensures o.quarterVerticalSymmetryResult == quarterVerticalSymmetryResult
    ensures o.quarterForwardDiagonalSymmetryResult == quarterForwardDiagonalSymmetryResult
    ensures o.quarterBackwardDiagonalSymmetryResult == quarterBackwardDiagonalSymmetryResult
    ensures o.lowerIsDominant == lowerIsDominant
  {
    SymmetryOutcome(
      horizontalSymmetryResult, verticalSymmetryResult,
      forwardDiagonalSymmetryResult, backwardDiagonalSymmetryResult,
      quarterHorizontalSymmetryResult, quarterVerticalSymmetryResult,
      quarterForwardDiagonalSymmetryResult, quarterBackwardDiagonalSymmetryResult,
      lowerIsDominant)
  }

  /** The parameterless constructor: C# leaves every bool field at its default, false. */
  function DefaultSymmetryOutcome(): (o: SymmetryOutcome)
    ensures !o.horizontalSymmetryResult && !o.verticalSymmetryResult
    ensures !o.forwardDiagonalSymmetryResult && !o.backwardDiagonalSymmetryResult
    ensures !o.quarterHorizontalSymmetryResult && !o.quarterVerticalSymmetryResult
    ensures !o.quarterForwardDiagonalSymmetryResult && !o.quarterBackwardDiagonalSymmetryResult
    ensures !o.lowerIsDominant
  {
    NewSymmetryOutcome(false, false, false, false, false, false, false, false, false)
  }

  /** Whether a frame reuses an earlier frame's outcome; a null outcome is `None`. */
  datatype InheritedSymmetryConfig = InheritedSymmetryConfig(inherited: bool, outcome: Option<SymmetryOutcome>)

  /** The constructor, whose outcome argument defaults to null. */
  function NewInheritedSymmetryConfig(inherited: bool, outcome: Option<SymmetryOutcome> := None): (c: InheritedSymmetryConfig)
    ensures c.inherited == inherited
    ensures c.outcome == outcome
  {
    InheritedSymmetryConfig(inherited, outcome)
  }

  /** Leaving the outcome out gives a null outcome, whatever the flag. */
  lemma OmittedOutcomeIsNull(inherited: bool)
    ensures NewInheritedSymmetryConfig(inherited) == InheritedSymmetryConfig(inherited, None)
  {
  }

  /** A finished frame: the image, an optional normal map, and the noise origin and symmetry outcome that made it. */
  datatype GeneratedTexture<Tex> = GeneratedTexture(
    texture: Tex,
    normal: Option<Tex>,
    origin: Vector2,
    symmetryOutcome: Option<SymmetryOutcome>)
}

/**
 * The six interpretation bands every `interpret_kappa` of the repository uses,
 * defined by their cut points 0, 0.2, 0.4, 0.6 and 0.8. Each source file then
 * chooses its own wording for the bands.
 */
module KappaBands {

  datatype Band = WorseThanChance | Slight | Fair | Substantial | Excellent | NearPerfect

  /** Position of a band on the scale, lowest first. */
  function Rank(b: Band): nat {
    match b
    case WorseThanChance => 0
    case Slight => 1
    case Fair => 2
    case Substantial => 3
    case Excellent => 4
    case NearPerfect => 5
  }

  /** Inclusive lower cut point of every band but the lowest. */
  function LowerCut(b: Band): real
    requires b != WorseThanChance
  {
    match b
    case Slight => 0.0
    case Fair => 0.2
    case Substantial => 0.4
    case Excellent => 0.6
    case NearPerfect => 0.8
  }

  /** Exclusive upper cut point of every band but the highest. */
  function UpperCut(b: Band): real
    requires b != NearPerfect
  {
    match b
    case WorseThanChance => 0.0
    case Slight => 0.2
    case Fair => 0.4
    case Substantial => 0.6
    case Excellent => 0.8
  }

  /** `kappa` lies in the half-open interval of band `b`. */
  predicate InBand(kappa: real, b: Band) {
    (b == WorseThanChance || LowerCut(b) <= kappa) && (b == NearPerfect || kappa < UpperCut(b))
  }

  /** The band of a kappa value, by the same chain of comparisons the source writes. */
  function BandOf(kappa: real): (b: Band)
    ensures InBand(kappa, b)
    ensures forall other: Band :: InBand(kappa, other) ==> other == b
  {
    if kappa < 0.0 then WorseThanChance
    else if kappa < 0.2 then Slight
    else if kappa < 0.4 then Fair
    else if kappa < 0.6 then Substantial
    else if kappa < 0.8 then Excellent
    else NearPerfect
  }

  /** A larger kappa never falls in a lower band. */
  lemma BandMonotone(k1: real, k2: real)
    requires k1 <= k2
    ensures Rank(BandOf(k1)) <= Rank(BandOf(k2))
  {
  }
}

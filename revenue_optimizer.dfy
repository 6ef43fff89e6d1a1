/** Compute arbitration of app/agents/revenue_optimizer.py: the premium
    renderer only for a high-CPM niche and a high virality score. */
module RevenueOptimizer {
  import opened Common

  const PremiumPipeline: string := "veo-3.1-premium"
  const OptimizedPipeline: string := "flux-1.0-optimized"
  const DefaultCpm: real := 10.0

  /** The monetisation matrix as read from disk: the `cpm_by_niche`
      section, when the file has one. Reading the file is left out. */
  datatype Matrix = Matrix(cpmByNiche: Option<map<string, real>>)

  /** `matrix.get("cpm_by_niche", {}).get(niche, 10.0)` */
  function CpmFor(matrix: Matrix, niche: string): (cpm: real)
    ensures matrix.cpmByNiche.None? ==> cpm == DefaultCpm
    ensures matrix.cpmByNiche.Some? && niche in matrix.cpmByNiche.value ==> cpm == matrix.cpmByNiche.value[niche]
    ensures matrix.cpmByNiche.Some? && niche !in matrix.cpmByNiche.value ==> cpm == DefaultCpm
  {
    var table := if matrix.cpmByNiche.Some? then matrix.cpmByNiche.value else map[];
    if niche in table then table[niche] else DefaultCpm
  }

  /** `arbitrate_compute` */
  function ArbitrateCompute(matrix: Matrix, niche: string, vvsScore: real): (pipeline: string)
    ensures pipeline == PremiumPipeline || pipeline == OptimizedPipeline
  {
    if CpmFor(matrix, niche) > 30.0 && vvsScore > 70.0 then PremiumPipeline else OptimizedPipeline
  }

  /** Premium exactly when both thresholds are exceeded; the two outcomes
      are distinct, so the optimized renderer is chosen in every other case. */
  lemma PremiumIff(matrix: Matrix, niche: string, vvsScore: real)
    ensures ArbitrateCompute(matrix, niche, vvsScore) == PremiumPipeline
            <==> CpmFor(matrix, niche) > 30.0 && vvsScore > 70.0
  {
    assert PremiumPipeline[0] != OptimizedPipeline[0];
  }

  /** A niche the matrix does not price (or a matrix without the section)
      gets the default CPM, below the premium bar whatever the score. */
  lemma UnknownNicheIsOptimized(matrix: Matrix, niche: string, vvsScore: real)
    requires matrix.cpmByNiche.None? || niche !in matrix.cpmByNiche.value
    ensures ArbitrateCompute(matrix, niche, vvsScore) == OptimizedPipeline
  {
  }

  /** Both thresholds are strict. */
  lemma ThresholdsAreStrict(matrix: Matrix, niche: string, vvsScore: real)
    requires CpmFor(matrix, niche) == 30.0 || vvsScore == 70.0
    ensures ArbitrateCompute(matrix, niche, vvsScore) == OptimizedPipeline
  {
  }

  /** Raising the score never moves a premium decision back to optimized. */
  lemma MonotoneInScore(matrix: Matrix, niche: string, low: real, high: real)
    requires low <= high
    requires ArbitrateCompute(matrix, niche, low) == PremiumPipeline
    ensures ArbitrateCompute(matrix, niche, high) == PremiumPipeline
  {
    PremiumIff(matrix, niche, low);
  }
}

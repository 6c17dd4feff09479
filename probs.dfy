/**
 The fixed probability model of heredity.py (the PROBS table): the unconditional
 gene prior, the trait-given-gene table and the mutation rate, as exact reals.
 */
module Probs {

  /** A number of copies of the gene: 0, 1 or 2. */
  type Genes = g: int | 0 <= g <= 2

  /** Probability that a transmitted copy of the gene flips (PROBS["mutation"]). */
  const Mutation: real := 0.01

  /** Unconditional probability of carrying `g` copies (PROBS["gene"]). */
  function GenePrior(g: Genes): (r: real)
    ensures 0.0 < r < 1.0
  {
    match g
    case 2 => 0.01
    case 1 => 0.03
    case 0 => 0.96
  }

  /** Probability that the trait is `shown` given `g` copies (PROBS["trait"]). */
  function TraitGiven(g: Genes, shown: bool): (r: real)
    ensures 0.0 < r < 1.0
  {
    match g
    case 2 => if shown then 0.65 else 0.35
    case 1 => if shown then 0.56 else 0.44
    case 0 => if shown then 0.01 else 0.99
  }

  /**
   Probability of showing the trait (or not) for a person whose genotype is
   drawn from the gene prior: the trait table weighted by the prior.
   */
  function TraitMarginal(shown: bool): (r: real)
    ensures r == if shown then 0.0329 else 0.9671
  {
    GenePrior(0) * TraitGiven(0, shown) + GenePrior(1) * TraitGiven(1, shown) + GenePrior(2) * TraitGiven(2, shown)
  }

  /** The gene prior is a distribution over 0, 1 and 2 copies. */
  lemma GenePriorIsDistribution()
    ensures GenePrior(0) + GenePrior(1) + GenePrior(2) == 1.0
  {
  }

  /** For every number of copies, the trait table is a distribution over shown / not shown. */
  lemma TraitGivenIsDistribution(g: Genes)
    ensures TraitGiven(g, true) + TraitGiven(g, false) == 1.0
  {
  }
}

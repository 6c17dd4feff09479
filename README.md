# Heredity: exact Bayesian inference over a pedigree

heredity.py computes, for every person of a small family tree, the posterior
distribution of the number of copies of a gene (0, 1 or 2) and of showing a
trait. It enumerates every candidate world:
- a set of people who show the trait (checked against the observed traits);
- a set of people with one copy;
- a disjoint set of people with two copies.

For each world it computes the joint probability:
- a gene factor for every person: the prior for a founder, Mendelian inheritance with mutation for a child;
- times the probability of that person's trait given their genotype.

It adds that probability into a per-person table of running totals, and at the end rescales every distribution so that it sums to 1.

This project models that core with probabilities as exact reals.

| file | module | what it holds |
|---|---|---|
| `probs.dfy` | `Probs` | the PROBS table: gene prior, trait-given-gene table, mutation rate |
| `powerset.dfy` | `SubsetEnumerator` | `powerset`: a list of all subsets of a set |
| `joint.dfy` | `Joint` | the pedigree, one world, and `joint_probability` as a loop over the persons proved equal to a product specification `WorldProbability` |
| `accumulator.dfy` | `Accumulator` | the `probabilities` table as a class with a map field; `update` and `normalize` as loops that change it in place |
| `inference.dfy` | `Inference` | the driver of `main`: evidence filter, the three nested subset loops, the final normalization |
| `wrappers.dfy` | `Wrappers` | `Option` |

The driver's three nested loops are one method per loop level: `ScoreTraitSets`, `ScoreOneGeneSets`, `ScoreTwoGeneSets`, and `AddScoredWorld` for the innermost body. The three loop methods return, as a ghost, the sequence of worlds in the order they added them. `AddScoredWorld` extends the fold by the one world it scores. `Infer` states its result in terms of that sequence:
- the worlds added are exactly the consistent ones, each once;
- the table is the normalized fold of `update` over them;
- the same table comes out of the fold over any other repeat-free listing of the consistent worlds, so the result depends on the pedigree alone.

From that, `Infer` proves:
- every posterior distribution sums to 1;
- a person whose trait was observed has that trait with probability 1.

`PosteriorGeneBucket` and `PosteriorTraitBucket` give every posterior bucket without reference to order. Each is the summed probability of the consistent worlds that `update` files under that bucket, divided by the summed probability of all consistent worlds.

## Model

| member | source | states |
|---|---|---|
| Probs.GenePrior | heredity.py:8-12 | every gene prior lies strictly between 0 and 1 |
| Probs.TraitGiven | heredity.py:14-33 | every trait-given-gene probability lies strictly between 0 and 1 |
| Probs.GenePriorIsDistribution | heredity.py:8-12 | the gene priors for 0, 1 and 2 copies sum to 1 |
| Probs.TraitGivenIsDistribution | heredity.py:14-33 | for each genotype, shown and not shown sum to 1 |
| Probs.TraitMarginal | heredity.py:8-33 | the trait table weighted by the gene prior gives 0.0329 for showing the trait and 0.9671 for not |
| SubsetEnumerator.Subsets | heredity.py:130-135 | the enumeration of a list of n elements has 2^n entries |
| SubsetEnumerator.SubsetsSound | heredity.py:130-135 | every enumerated set is a subset of the list's elements |
| SubsetEnumerator.SubsetsComplete | heredity.py:130-135 | every subset of the list's elements is enumerated |
| SubsetEnumerator.SubsetsDistinct | heredity.py:130-135 | a list without repeats yields no subset twice |
| SubsetEnumerator.ElementsCardinality | heredity.py:130 | a list without repeats has as many entries as its set of elements |
| SubsetEnumerator.ListOf | heredity.py:130 | `list(s)` holds each element of `s` exactly once |
| SubsetEnumerator.Powerset | heredity.py:126-135 | `powerset(s)` holds exactly the subsets of `s`, each once, 2^n of them for a set of n elements |
| Joint.Genotype | heredity.py:153-158 | 2 copies iff in the two-copy set; 1 iff in the one-copy set and not the two-copy set; 0 iff in neither |
| Joint.PassOn | heredity.py:171-183 | a parent passes a copy with 1 - mutation iff it has two copies, 0.5 iff it has one copy, and the mutation rate iff it is unrecorded or has none |
| Joint.FactorOf | heredity.py:165-193 | a person's factor is their gene factor times their trait factor |
| Joint.JointProbability | heredity.py:138-195 | the running product over every person equals `WorldProbability`, the product of each person's gene factor and trait factor, each person taken once |
| Joint.ProductSplit | heredity.py:151 | the product over a set of names may take out any one name first, so the iteration order of the persons does not matter |
| Joint.ProductSwap | heredity.py:151 | taking two different names out of a product in either order gives the same product |
| Joint.ProductExtend | heredity.py:151-193 | multiplying one more person's factor into the product over the persons done gives the product over one more person |
| Joint.ProductExtendTwice | heredity.py:166-193 | multiplying in the gene factor and then the trait factor extends the product by that person |
| Joint.OneCopyBounds | heredity.py:189 | the one-copy inheritance term is non-negative, and positive when both pass-on probabilities are strictly between 0 and 1 |
| Joint.InheritIsDistribution | heredity.py:186-191 | for any pass-on probabilities in [0,1], the factors for 0, 1 and 2 copies sum to 1 and each lies in [0,1] |
| Joint.InheritPositive | heredity.py:186-191 | with pass-on probabilities strictly between 0 and 1, every genotype has positive probability |
| Joint.InheritSymmetric | heredity.py:186-191 | the inheritance factor is unchanged when the mother's and father's pass-on probabilities are exchanged |
| Joint.GeneFactorBounds | heredity.py:165-191 | every gene factor lies in (0, 1] |
| Joint.PersonFactorBounds | heredity.py:165-193 | every person's factor lies in (0, 1] |
| Joint.ProductBounds | heredity.py:149-195 | a product of factors in (0, 1] lies in (0, 1] |
| Joint.WorldProbabilityBounds | heredity.py:138-195 | every world's joint probability lies in (0, 1] |
| Joint.ProductAgree | heredity.py:151 | factor functions that agree on the persons give the same product |
| Joint.SwapParentsPreservesProbability | heredity.py:161-191 | exchanging any person's mother and father leaves the joint probability of every world unchanged |
| Joint.FounderUsesPrior | heredity.py:165-166 | a person without recorded parents contributes the gene prior times the trait factor |
| Joint.SingleFounderProbability | heredity.py:149-195 | a one-person pedigree scores exactly prior × trait-given-gene |
| Accumulator.GeneDist.Add | heredity.py:207-212 | `+= p` on one gene bucket: that bucket grows by p, the other two are unchanged, the total grows by p |
| Accumulator.TraitDist.Add | heredity.py:214-217 | `+= p` on one trait bucket: that bucket grows by p, the other is unchanged, the total grows by p |
| Accumulator.GeneDist.Normalized | heredity.py:227-231 | with a positive sum the result sums to 1 and each bucket times the old sum is the old bucket (ratios kept); otherwise nothing changes |
| Accumulator.TraitDist.Normalized | heredity.py:233-236 | as for genes, for the two trait buckets |
| Accumulator.NormalizedGeneAt | heredity.py:228-231 | with a positive total, each normalized gene bucket is the old bucket divided by the total |
| Accumulator.NormalizedTraitAt | heredity.py:234-236 | with a positive total, each normalized trait bucket is the old bucket divided by the total |
| Accumulator.InitTable | heredity.py:49-62 | the initial table has one entry per person, every bucket 0 |
| Accumulator.UpdateBucket | heredity.py:207-212 | `update` files a person under 1 iff they are in the one-copy set, 2 iff only in the two-copy set, 0 iff in neither |
| Accumulator.BucketMatchesGenotype | heredity.py:207-212 | the bucket `update` picks equals the genotype `joint_probability` scored iff the person is not in both gene sets |
| Accumulator.AddWorld | heredity.py:206-217 | for one person, the gene bucket `update` picks and the trait bucket for their membership in the trait set each grow by p; the other buckets are unchanged; both totals grow by p |
| Accumulator.AddWorldToTable | heredity.py:199-217 | the table keeps its persons, and every person's gene total and trait total both grow by p |
| Accumulator.NormalizeTable | heredity.py:225-226 | normalizing keeps the table's persons |
| Accumulator.Probabilities.constructor | heredity.py:49-62 | the new table is the all-zero table over the pedigree |
| Accumulator.Probabilities.Update | heredity.py:199-217 | the new table is the old table with the world's probability added to each person's gene and trait bucket |
| Accumulator.Probabilities.Normalize | heredity.py:220-236 | the new table is every old entry normalized |
| Inference.AccumulatedSnoc | heredity.py:87-89 | scoring one more world adds one more `update` to the fold |
| Inference.AccumulatedTotals | heredity.py:199-217 | after any sequence of worlds, every person's gene total and trait total both equal the summed probability of those worlds |
| Inference.AccumulatedKeys | heredity.py:206-217 | adding worlds never adds or removes a person of the table |
| Inference.AccumulatedGeneBucket | heredity.py:207-212 | each gene bucket holds the summed probability of the worlds added so far that `update` filed under it |
| Inference.AccumulatedTraitBucket | heredity.py:214-217 | each trait bucket holds the summed probability of the worlds added so far in which the person's trait membership matches it |
| Inference.MassWhereRemove | heredity.py:85-89 | a sum over the added worlds restricted to a predicate can take out any one world first |
| Inference.MassWhereOrderFree | heredity.py:69-89 | a restricted sum over two repeat-free sequences of the same worlds is the same, whatever their order |
| Inference.EntryOrderFree | heredity.py:69-89 | a person's entry after adding the same worlds, each once, in any two orders is the same |
| Inference.AccumulatedOrderFree | heredity.py:69-89 | the table after adding the same worlds, each once, in any two orders is the same table |
| Inference.MassPositive | heredity.py:87 | the summed probability of a non-empty sequence of worlds is positive |
| Inference.AccumulatedRespectsEvidence | heredity.py:71-78 | if no added world fails the evidence, a person observed with trait b receives no mass for not b |
| Inference.EvidenceWorld | heredity.py:69-78 | some world always passes the evidence filter: nobody has the gene and exactly the observed-true persons show the trait |
| Inference.NormalizedCertain | heredity.py:233-236 | normalizing a trait distribution with no mass on not b gives b probability 1 |
| Inference.PosteriorEntry | heredity.py:220-236 | after normalization a person's gene and trait distributions sum to 1, and an observed trait has probability 1 |
| Inference.Posterior | heredity.py:220-236 | when the worlds are exactly the consistent ones, the normalized table covers every person, each of their distributions sums to 1, and every observed trait has probability 1 |
| Inference.PosteriorGeneBucket | heredity.py:227-231 | over the consistent worlds, a person's posterior gene bucket is the probability of the worlds filed under it divided by the probability of all of them, which is positive |
| Inference.PosteriorTraitBucket | heredity.py:233-236 | over the consistent worlds, a person's posterior trait bucket is the probability of the worlds with that trait value divided by the probability of all of them |
| Inference.LoneWorld | heredity.py:153-160 | in the built world, the person has the requested number of copies for both `joint_probability` and `update`, and shows the trait exactly when requested |
| Inference.LoneWorldsExactlyConsistent | heredity.py:69-86 | for one person without recorded parents or observed trait, the six worlds (three genotypes, trait or not) are different and are exactly the consistent ones |
| Inference.LoneWorldProbability | heredity.py:165-193 | each of those worlds scores the gene prior times the trait-given-gene factor |
| Inference.LoneMassWhere | heredity.py:85-89 | a sum restricted to a predicate over the six worlds is the sum of their six contributions |
| Inference.LoneGeneMass | heredity.py:207-212 | over the consistent worlds of a lone founder, the probability filed under g copies is the gene prior of g |
| Inference.LoneTraitMass | heredity.py:214-217 | over the consistent worlds of a lone founder, the probability filed under a trait value is the prior-weighted trait probability |
| Inference.LoneMass | heredity.py:85-89 | the consistent worlds of a lone founder have total probability 1 |
| Inference.LoneFounderGenePosterior | heredity.py:49-92 | for one person without recorded parents or observed trait, the posterior gene distribution is exactly the prior 0.96 / 0.03 / 0.01 |
| Inference.LoneFounderTraitPosterior | heredity.py:49-92 | for the same person, the posterior trait distribution is 0.0329 for showing the trait and 0.9671 for not |
| Inference.EnterTraitSet | heredity.py:85 | starting the one-copy loop keeps the enumeration invariant |
| Inference.EnterOneGene | heredity.py:86 | starting the two-copy loop keeps the enumeration invariant |
| Inference.AddReachedWorld | heredity.py:86-89 | adding a consistent world not yet reached keeps the worlds distinct and exactly the reached consistent ones |
| Inference.LeaveOneGene | heredity.py:86 | after the two-copy loop, every consistent world with this one-copy set has been reached |
| Inference.LeaveTraitSet | heredity.py:85-89 | after the one-copy loop, every consistent world with this trait set has been reached |
| Inference.SkipTraitSet | heredity.py:71-78 | skipping a trait set that fails the evidence loses no consistent world |
| Inference.AllReached | heredity.py:69-89 | once every trait set is visited, the worlds are exactly the consistent ones |
| Inference.AddScoredWorld | heredity.py:87-89 | scoring a world and updating the table yields the fold over one more world |
| Inference.ScoreTwoGeneSets | heredity.py:86-89 | the two-copy loop adds each two-copy set drawn from the rest exactly once |
| Inference.ScoreOneGeneSets | heredity.py:85-89 | the one-copy loop runs the two-copy loop for every one-copy set |
| Inference.ScoreTraitSets | heredity.py:65-89 | the outer loop adds exactly the consistent worlds, each once, to the table |
| Inference.Infer | heredity.py:49-92 | the result is the normalized fold over exactly the consistent worlds, each once; it covers every person; every distribution sums to 1; an observed trait has probability 1; any other repeat-free listing of the consistent worlds gives the same result |

## Left out

- `load_data` (CSV reading) and the command-line check in `main` are not modelled. The pedigree is a parameter of `Infer`.
- Printing the results with four decimals is not modelled.
- Floating point is not modelled. Probabilities are exact reals, so no rounding error is captured, and "sums to 1" holds exactly in the model where Python only comes close.
- Iteration order is not modelled:
  - the persons of a dict or set, and the order in which `itertools.combinations` lists subsets, are chosen nondeterministically (`:|`) or left abstract (`Pick`);
  - the model does not fix Python's order;
  - it proves that neither `joint_probability`'s product (`Joint.ProductSplit`) nor the final table (`Inference.AccumulatedOrderFree`, and the last ensures of `Inference.Infer`) depends on that order.
- `Inference.Infer` returns the worlds it scored as a ghost sequence, which the Python code does not keep.
- Performance and the size of the enumeration are not modelled.
- Closed-form posteriors are proved only for a lone founder. For larger pedigrees the model proves each posterior bucket as a ratio of summed world probabilities (`Inference.PosteriorGeneBucket`, `Inference.PosteriorTraitBucket`), but it does not prove, for example, that observing a child's trait raises its parents' posterior for carrying the gene.
- `load_data` assumes (heredity.py:108) but does not check that a recorded parent is a person of the pedigree. The model does not assume this: an unrecorded or unknown parent is in neither gene set, so it passes a copy on with the mutation rate, as the Python code does.

/**
 The table of running totals that `main` keeps per person (`probabilities`),
 and the two operations that change it in place: `update` adds one world's
 probability, `normalize` rescales every distribution to sum to 1.
 */
module Accumulator {
  import opened Probs
  import opened Joint

  /** Totals for 0, 1 and 2 copies of the gene (`probabilities[person]["gene"]`). */
  datatype GeneDist = GeneDist(zero: real, one: real, two: real)
  {
    function At(g: Genes): real
    {
      match g
      case 0 => zero
      case 1 => one
      case 2 => two
    }

    function Total(): real
    {
      zero + one + two
    }

    /** `+= p` on the bucket for `g`: that bucket grows by `p`, the others stay. */
    function Add(g: Genes, p: real): (r: GeneDist)
      ensures r.At(g) == At(g) + p
      ensures forall h: Genes :: h != g ==> r.At(h) == At(h)
      ensures r.Total() == Total() + p
    {
      match g
      case 0 => this.(zero := zero + p)
      case 1 => this.(one := one + p)
      case 2 => this.(two := two + p)
    }

    /**
     Each bucket divided by the total when the total is positive (the ratios
     between buckets are kept and the result sums to 1); left as it is otherwise.
     */
    function Normalized(): (r: GeneDist)
      ensures Total() > 0.0 ==> r.Total() == 1.0
      ensures Total() > 0.0 ==> forall g: Genes :: r.At(g) * Total() == At(g)
      ensures Total() <= 0.0 ==> r == this
    {
      var sum := Total();
      if sum > 0.0 then
        DividedParts(zero, one + two, sum);
        DividedParts(one, two, sum);
        GeneDist(zero / sum, one / sum, two / sum)
      else this
    }
  }

  /** Totals for showing and not showing the trait (`probabilities[person]["trait"]`). */
  datatype TraitDist = TraitDist(yes: real, no: real)
  {
    function At(shown: bool): real
    {
      if shown then yes else no
    }

    function Total(): real
    {
      yes + no
    }

    /** `+= p` on the bucket for `shown`: that bucket grows by `p`, the other stays. */
    function Add(shown: bool, p: real): (r: TraitDist)
      ensures r.At(shown) == At(shown) + p
      ensures r.At(!shown) == At(!shown)
      ensures r.Total() == Total() + p
    {
      if shown then this.(yes := yes + p) else this.(no := no + p)
    }

    /** As GeneDist.Normalized, for the two trait buckets. */
    function Normalized(): (r: TraitDist)
      ensures Total() > 0.0 ==> r.Total() == 1.0
      ensures Total() > 0.0 ==> r.At(true) * Total() == At(true) && r.At(false) * Total() == At(false)
      ensures Total() <= 0.0 ==> r == this
    {
      var sum := Total();
      if sum > 0.0 then
        DividedParts(yes, no, sum);
        TraitDist(yes / sum, no / sum)
      else this
    }
  }

  /** With a positive total, each normalized gene bucket is the old bucket divided by the total. */
  lemma NormalizedGeneAt(d: GeneDist, g: Genes)
    requires d.Total() > 0.0
    ensures d.Normalized().At(g) == d.At(g) / d.Total()
  {
  }

  /** As NormalizedGeneAt, for the two trait buckets. */
  lemma NormalizedTraitAt(d: TraitDist, b: bool)
    requires d.Total() > 0.0
    ensures d.Normalized().At(b) == d.At(b) / d.Total()
  {
  }

  /** Dividing two parts of a sum by the same positive number. */
  lemma DividedParts(a: real, b: real, s: real)
    requires s > 0.0
    ensures a / s + b / s == (a + b) / s
    ensures a + b == s ==> a / s + b / s == 1.0
  {
  }

  /** Both distributions of one person. */
  datatype Entry = Entry(gene: GeneDist, traits: TraitDist)

  type Table = map<Name, Entry>

  const Zero := Entry(GeneDist(0.0, 0.0, 0.0), TraitDist(0.0, 0.0))

  /** The table `main` starts from: every person of the pedigree, every bucket 0. */
  function InitTable(people: Pedigree): (t: Table)
    ensures t.Keys == people.Keys
    ensures forall n :: n in t ==> t[n] == Zero
  {
    map n | n in people :: Zero
  }

  /** The gene bucket `update` picks for `n`: the one-copy set is checked first. */
  function UpdateBucket(n: Name, w: World): (g: Genes)
    ensures g == 1 <==> n in w.oneGene
    ensures g == 2 <==> n !in w.oneGene && n in w.twoGenes
    ensures g == 0 <==> n !in w.oneGene && n !in w.twoGenes
  {
    if n in w.oneGene then 1
    else if n in w.twoGenes then 2
    else 0
  }

  /**
   `update` files `n` under the genotype that `joint_probability` scored it
   with exactly when `n` is not in both gene sets; the enumeration never puts
   anybody in both.
   */
  lemma BucketMatchesGenotype(n: Name, w: World)
    ensures UpdateBucket(n, w) == Genotype(n, w) <==> !(n in w.oneGene && n in w.twoGenes)
  {
  }

  /** What `update` does to one person's entry for world `w` of probability `p`. */
  function AddWorld(e: Entry, n: Name, w: World, p: real): (r: Entry)
    ensures r.gene.At(UpdateBucket(n, w)) == e.gene.At(UpdateBucket(n, w)) + p
    ensures forall g: Genes :: g != UpdateBucket(n, w) ==> r.gene.At(g) == e.gene.At(g)
    ensures r.traits.At(n in w.haveTrait) == e.traits.At(n in w.haveTrait) + p
    ensures r.traits.At(n !in w.haveTrait) == e.traits.At(n !in w.haveTrait)
    ensures r.gene.Total() == e.gene.Total() + p && r.traits.Total() == e.traits.Total() + p
  {
    Entry(e.gene.Add(UpdateBucket(n, w), p), e.traits.Add(n in w.haveTrait, p))
  }

  /** What `update` does to the whole table. */
  function AddWorldToTable(t: Table, w: World, p: real): (r: Table)
    ensures r.Keys == t.Keys
    ensures forall n :: n in t ==> r[n].gene.Total() == t[n].gene.Total() + p
    ensures forall n :: n in t ==> r[n].traits.Total() == t[n].traits.Total() + p
  {
    map n | n in t :: AddWorld(t[n], n, w, p)
  }

  /** What `normalize` does to one person's entry. */
  function NormalizeEntry(e: Entry): Entry
  {
    Entry(e.gene.Normalized(), e.traits.Normalized())
  }

  /** What `normalize` does to the whole table. */
  function NormalizeTable(t: Table): (r: Table)
    ensures r.Keys == t.Keys
  {
    map n | n in t :: NormalizeEntry(t[n])
  }

  /** The `probabilities` table of `main`, changed in place by `update` and `normalize`. */
  class Probabilities {
    var table: Table

    /** The all-zero table over the persons of the pedigree. */
    constructor (people: Pedigree)
      ensures table == InitTable(people)
    {
      table := InitTable(people);
    }

    /**
     `update(probabilities, one_gene, two_genes, have_trait, p)`: for every
     person, `p` is added to one gene bucket and one trait bucket.
     */
    method Update(oneGene: set<Name>, twoGenes: set<Name>, haveTrait: set<Name>, p: real)
      modifies this
      ensures table == AddWorldToTable(old(table), World(oneGene, twoGenes, haveTrait), p)
    {
      ghost var w := World(oneGene, twoGenes, haveTrait);
      ghost var start := table;
      var todo := table.Keys;
      while todo != {}
        invariant todo <= start.Keys == table.Keys
        invariant forall n :: n in table ==> table[n] == if n in todo then start[n] else AddWorld(start[n], n, w, p)
        decreases todo
      {
        var person :| person in todo;
        var gene, traits := table[person].gene, table[person].traits;
        if person in oneGene {
          gene := gene.(one := gene.one + p);
        } else if person in twoGenes {
          gene := gene.(two := gene.two + p);
        } else {
          gene := gene.(zero := gene.zero + p);
        }
        if person in haveTrait {
          traits := traits.(yes := traits.yes + p);
        } else {
          traits := traits.(no := traits.no + p);
        }
        table := table[person := Entry(gene, traits)];
        todo := todo - {person};
      }
    }

    /**
     `normalize(probabilities)`: every person's gene and trait totals are
     divided by their sums, each only when its sum is positive.
     */
    method Normalize()
      modifies this
      ensures table == NormalizeTable(old(table))
    {
      ghost var start := table;
      var todo := table.Keys;
      while todo != {}
        invariant todo <= start.Keys == table.Keys
        invariant forall n :: n in table ==> table[n] == if n in todo then start[n] else NormalizeEntry(start[n])
        decreases todo
      {
        var person :| person in todo;
        var gene, traits := table[person].gene, table[person].traits;
        var geneSum := gene.zero + gene.one + gene.two;
        if geneSum > 0.0 {
          gene := GeneDist(gene.zero / geneSum, gene.one / geneSum, gene.two / geneSum);
        }
        var traitSum := traits.no + traits.yes;
        if traitSum > 0.0 {
          traits := TraitDist(traits.yes / traitSum, traits.no / traitSum);
        }
        table := table[person := Entry(gene, traits)];
        todo := todo - {person};
      }
    }
  }
}

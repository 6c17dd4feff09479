/**
 The pedigree and the joint probability of one world (`joint_probability` in
 heredity.py): a product over every person of a gene factor (the prior for a
 founder, inheritance with mutation otherwise) and a trait-given-gene factor.
 */
module Joint {
  import opened Wrappers
  import opened Probs

  type Name = string

  /** One record of the pedigree: optional parents, optional observed trait. */
  datatype Person = Person(mother: Option<Name>, father: Option<Name>, observed: Option<bool>)

  type Pedigree = map<Name, Person>

  /**
   One candidate assignment: who has one copy, who has two copies, who shows
   the trait. Everybody else has zero copies / does not show the trait.
   */
  datatype World = World(oneGene: set<Name>, twoGenes: set<Name>, haveTrait: set<Name>)

  /** Copies of the gene `n` has in `w`; the two-copy set is checked first. */
  function Genotype(n: Name, w: World): (g: Genes)
    ensures g == 2 <==> n in w.twoGenes
    ensures g == 1 <==> n in w.oneGene && n !in w.twoGenes
    ensures g == 0 <==> n !in w.oneGene && n !in w.twoGenes
  {
    if n in w.twoGenes then 2
    else if n in w.oneGene then 1
    else 0
  }

  /**
   Probability that `parent` passes a copy of the gene on: 1 - mutation from two
   copies, one half from one copy, the mutation rate from none. A parent that is
   not recorded is in neither set, so it counts as having none.
   */
  function PassOn(parent: Option<Name>, w: World): (q: real)
    ensures q == 1.0 - Mutation <==> parent.Some? && parent.value in w.twoGenes
    ensures q == 0.5 <==> parent.Some? && parent.value in w.oneGene && parent.value !in w.twoGenes
    ensures q == Mutation <==> parent.None? || (parent.value !in w.oneGene && parent.value !in w.twoGenes)
  {
    if parent.Some? && parent.value in w.twoGenes then 1.0 - Mutation
    else if parent.Some? && parent.value in w.oneGene then 0.5
    else Mutation
  }

  /**
   Probability that a child gets `g` copies when the mother passes one on with
   probability `fromMother` and the father with probability `fromFather`.
   */
  function Inherit(g: Genes, fromMother: real, fromFather: real): real
  {
    match g
    case 2 => fromFather * fromMother
    case 1 => fromMother * (1.0 - fromFather) + fromFather * (1.0 - fromMother)
    case 0 => (1.0 - fromFather) * (1.0 - fromMother)
  }

  predicate IsFounder(p: Person)
  {
    p.mother.None? && p.father.None?
  }

  /** The gene factor of one person: the prior for a founder, inheritance otherwise. */
  function GeneFactor(p: Person, g: Genes, w: World): real
  {
    if IsFounder(p) then GenePrior(g)
    else Inherit(g, PassOn(p.mother, w), PassOn(p.father, w))
  }

  /** Everything `joint_probability` multiplies in for person `n`. */
  function PersonFactor(people: Pedigree, n: Name, w: World): real
    requires n in people
  {
    var g := Genotype(n, w);
    GeneFactor(people[n], g, w) * TraitGiven(g, n in w.haveTrait)
  }

  /** Some member of a non-empty set of names (the order Python iterates a set in is unspecified). */
  ghost function Pick(names: set<Name>): (n: Name)
    requires names != {}
    ensures n in names
  {
    var n :| n in names; n
  }

  /** The product of `f` over `names`, each name taken once. */
  ghost function Product(names: set<Name>, f: Name -> real): real
    decreases names
  {
    if names == {} then 1.0
    else f(Pick(names)) * Product(names - {Pick(names)}, f)
  }

  /** The product does not depend on which name is taken out first. */
  lemma {:induction false} ProductSplit(names: set<Name>, n: Name, f: Name -> real)
    requires n in names
    ensures Product(names, f) == f(n) * Product(names - {n}, f)
    decreases names, 1
  {
    if Pick(names) != n {
      ProductSwap(names, Pick(names), n, f);
    }
  }

  /** ProductSplit when `Product` takes `m` out first and `n` is another name. */
  lemma {:induction false} ProductSwap(names: set<Name>, m: Name, n: Name, f: Name -> real)
    requires n in names && m == Pick(names) && m != n
    ensures Product(names, f) == f(n) * Product(names - {n}, f)
    decreases names, 0
  {
    ProductSplit(names - {m}, n, f);
    ProductSplit(names - {n}, m, f);
    assert names - {m} - {n} == names - {n} - {m};
    Reassociate(Product(names, f), Product(names - {m}, f), Product(names - {n}, f),
                f(m), f(n), Product(names - {m} - {n}, f));
  }

  /** Taking `m` then `n` out of a product gives the same as taking `n` then `m`. */
  lemma Reassociate(whole: real, withoutM: real, withoutN: real, a: real, b: real, rest: real)
    requires whole == a * withoutM && withoutM == b * rest && withoutN == a * rest
    ensures whole == b * withoutN
  {
    calc {
      whole;
      a * (b * rest);
      b * (a * rest);
      b * withoutN;
    }
  }

  /** The factor of every person of the pedigree in world `w`. */
  ghost function Factors(people: Pedigree, w: World): Name -> real
  {
    n => if n in people then PersonFactor(people, n, w) else 1.0
  }

  /** The probability of world `w`: the product over every person of the pedigree. */
  ghost function WorldProbability(people: Pedigree, w: World): real
  {
    Product(people.Keys, Factors(people, w))
  }

  /** One more name multiplied into the running product of the names done so far. */
  lemma {:induction false} ProductExtend(done: set<Name>, n: Name, f: Name -> real, before: real, x: real, after: real)
    requires n !in done
    requires before == Product(done, f) && x == f(n) && after == before * x
    ensures after == Product(done + {n}, f)
  {
    ProductSplit(done + {n}, n, f);
    assert done + {n} - {n} == done;
  }

  lemma ProductExtendTwice(done: set<Name>, n: Name, f: Name -> real, before: real, a: real, b: real, mid: real, after: real)
    requires n !in done
    requires before == Product(done, f) && f(n) == a * b && mid == before * a && after == mid * b
    ensures after == Product(done + {n}, f)
  {
    ProductExtend(done, n, f, before, f(n), after);
  }

  /** The factor of `n` is its gene factor times its trait factor. */
  lemma FactorOf(people: Pedigree, n: Name, w: World, geneFactor: real, traitFactor: real)
    requires n in people
    requires geneFactor == GeneFactor(people[n], Genotype(n, w), w)
    requires traitFactor == TraitGiven(Genotype(n, w), n in w.haveTrait)
    ensures Factors(people, w)(n) == geneFactor * traitFactor
  {
  }

  /**
   `joint_probability(people, one_gene, two_genes, have_trait)`: the running
   product over every person, equal to WorldProbability.
   */
  method JointProbability(people: Pedigree, oneGene: set<Name>, twoGenes: set<Name>, haveTrait: set<Name>)
    returns (p: real)
    ensures p == WorldProbability(people, World(oneGene, twoGenes, haveTrait))
  {
    var w := World(oneGene, twoGenes, haveTrait);
    p := 1.0;
    var todo := people.Keys;
    ghost var done := {};
    while todo != {}
      invariant done + todo == people.Keys && done !! todo
      invariant p == Product(done, Factors(people, w))
      decreases todo
    {
      var person :| person in todo;
      ghost var before := p;
      var g := Genotype(person, w);
      var shown := person in haveTrait;
      var mother, father := people[person].mother, people[person].father;
      var geneFactor;
      if IsFounder(people[person]) {
        geneFactor := GenePrior(g);
      } else {
        geneFactor := Inherit(g, PassOn(mother, w), PassOn(father, w));
      }
      assert geneFactor == GeneFactor(people[person], g, w);
      var traitFactor := TraitGiven(g, shown);
      FactorOf(people, person, w, geneFactor, traitFactor);
      p := p * geneFactor;
      ghost var mid := p;
      p := p * traitFactor;
      ProductExtendTwice(done, person, Factors(people, w), before, geneFactor, traitFactor, mid, p);
      todo := todo - {person};
      done := done + {person};
    }
  }

  lemma MulUnit(a: real, b: real)
    requires 0.0 <= a <= 1.0 && 0.0 <= b <= 1.0
    ensures 0.0 <= a * b <= 1.0
    ensures 0.0 < a && 0.0 < b ==> 0.0 < a * b
  {
    assert a * b <= 1.0 * b;
  }

  /** Exactly one of the two transmissions succeeds: non-negative, positive for open probabilities. */
  lemma OneCopyBounds(m: real, f: real)
    requires 0.0 <= m <= 1.0 && 0.0 <= f <= 1.0
    ensures 0.0 <= m * (1.0 - f) + f * (1.0 - m)
    ensures 0.0 < m < 1.0 && 0.0 < f < 1.0 ==> 0.0 < m * (1.0 - f) + f * (1.0 - m)
  {
    var fc, mc := 1.0 - f, 1.0 - m;
    MulUnit(m, fc);
    MulUnit(f, mc);
    var x, y := m * fc, f * mc;
    assert 0.0 <= x + y;
    if 0.0 < m < 1.0 && 0.0 < f < 1.0 {
      assert 0.0 < x && 0.0 < y;
    }
  }

  /** Inheritance is a distribution over 0, 1 and 2 copies, for any pass-on probabilities. */
  lemma InheritIsDistribution(fromMother: real, fromFather: real)
    requires 0.0 <= fromMother <= 1.0 && 0.0 <= fromFather <= 1.0
    ensures Inherit(0, fromMother, fromFather) + Inherit(1, fromMother, fromFather) + Inherit(2, fromMother, fromFather) == 1.0
    ensures forall g: Genes :: 0.0 <= Inherit(g, fromMother, fromFather) <= 1.0
  {
    var m, f := fromMother, fromFather;
    var two, one, zero := Inherit(2, m, f), Inherit(1, m, f), Inherit(0, m, f);
    assert 0.0 <= two <= 1.0 by { MulUnit(f, m); }
    assert 0.0 <= zero <= 1.0 by { MulUnit(1.0 - f, 1.0 - m); }
    assert 0.0 <= one by { OneCopyBounds(m, f); }
    assert two + one + zero == 1.0;
    forall g: Genes ensures 0.0 <= Inherit(g, m, f) <= 1.0 {
      if g == 2 {
        assert Inherit(g, m, f) == two;
      } else if g == 1 {
        assert Inherit(g, m, f) == one;
      } else {
        assert Inherit(g, m, f) == zero;
      }
    }
  }

  /** With pass-on probabilities strictly between 0 and 1, every genotype has positive probability. */
  lemma InheritPositive(g: Genes, fromMother: real, fromFather: real)
    requires 0.0 < fromMother < 1.0 && 0.0 < fromFather < 1.0
    ensures 0.0 < Inherit(g, fromMother, fromFather)
  {
    var m, f := fromMother, fromFather;
    if g == 2 {
      MulUnit(f, m);
    } else if g == 1 {
      OneCopyBounds(m, f);
    } else {
      var fc, mc := 1.0 - f, 1.0 - m;
      MulUnit(fc, mc);
      assert Inherit(g, m, f) == fc * mc;
    }
  }

  /** The inheritance factor does not depend on which parent is the mother. */
  lemma InheritSymmetric(g: Genes, a: real, b: real)
    ensures Inherit(g, a, b) == Inherit(g, b, a)
  {
  }

  /** Every person's factor is a probability, and never zero. */
  lemma PersonFactorBounds(people: Pedigree, n: Name, w: World)
    requires n in people
    ensures 0.0 < PersonFactor(people, n, w) <= 1.0
  {
    var g := Genotype(n, w);
    GeneFactorBounds(people[n], g, w);
    MulUnit(GeneFactor(people[n], g, w), TraitGiven(g, n in w.haveTrait));
  }

  /** The gene factor of any person lies in (0, 1]. */
  lemma GeneFactorBounds(p: Person, g: Genes, w: World)
    ensures 0.0 < GeneFactor(p, g, w) <= 1.0
  {
    if !IsFounder(p) {
      InheritIsDistribution(PassOn(p.mother, w), PassOn(p.father, w));
      InheritPositive(g, PassOn(p.mother, w), PassOn(p.father, w));
    }
  }

  /** A product of factors in (0, 1] lies in (0, 1]. */
  lemma {:induction false} ProductBounds(names: set<Name>, f: Name -> real)
    requires forall n :: n in names ==> 0.0 < f(n) <= 1.0
    ensures 0.0 < Product(names, f) <= 1.0
    decreases names
  {
    if names != {} {
      var n :| n in names;
      ProductSplit(names, n, f);
      ProductBounds(names - {n}, f);
      var a, r := f(n), Product(names - {n}, f);
      assert 0.0 < a * r;
      assert a * r <= 1.0 * r;
    }
  }

  /** The probability of every world lies in (0, 1]. */
  lemma WorldProbabilityBounds(people: Pedigree, w: World)
    ensures 0.0 < WorldProbability(people, w) <= 1.0
  {
    var f := Factors(people, w);
    forall n | n in people.Keys ensures 0.0 < f(n) <= 1.0 {
      PersonFactorBounds(people, n, w);
    }
    ProductBounds(people.Keys, f);
  }

  /** Two factor functions that agree on `names` have the same product over `names`. */
  lemma {:induction false} ProductAgree(names: set<Name>, f: Name -> real, h: Name -> real)
    requires forall n :: n in names ==> f(n) == h(n)
    ensures Product(names, f) == Product(names, h)
    decreases names
  {
    if names != {} {
      var n :| n in names;
      ProductSplit(names, n, f);
      ProductSplit(names, n, h);
      ProductAgree(names - {n}, f, h);
    }
  }

  /** The same person with mother and father exchanged. */
  function SwapParents(p: Person): (q: Person)
    ensures q.mother == p.father && q.father == p.mother && q.observed == p.observed
  {
    p.(mother := p.father, father := p.mother)
  }

  /**
   Exchanging the mother and the father of any one person does not change the
   probability of any world.
   */
  lemma SwapParentsPreservesProbability(people: Pedigree, x: Name, w: World)
    requires x in people
    ensures WorldProbability(people[x := SwapParents(people[x])], w) == WorldProbability(people, w)
  {
    var swapped := people[x := SwapParents(people[x])];
    assert swapped.Keys == people.Keys;
    var p := people[x];
    InheritSymmetric(Genotype(x, w), PassOn(p.mother, w), PassOn(p.father, w));
    assert GeneFactor(swapped[x], Genotype(x, w), w) == GeneFactor(p, Genotype(x, w), w);
    ProductAgree(people.Keys, Factors(swapped, w), Factors(people, w));
  }

  /** A founder's gene factor is the unconditional prior. */
  lemma FounderUsesPrior(people: Pedigree, n: Name, w: World)
    requires n in people && IsFounder(people[n])
    ensures PersonFactor(people, n, w) == GenePrior(Genotype(n, w)) * TraitGiven(Genotype(n, w), n in w.haveTrait)
  {
  }

  /** A pedigree of one founder scores the gene prior times the trait-given-gene factor. */
  lemma SingleFounderProbability(n: Name, observed: Option<bool>, w: World)
    ensures WorldProbability(map[n := Person(None, None, observed)], w)
         == GenePrior(Genotype(n, w)) * TraitGiven(Genotype(n, w), n in w.haveTrait)
  {
    var people := map[n := Person(None, None, observed)];
    var f := Factors(people, w);
    assert people.Keys == {n};
    ProductSplit({n}, n, f);
    assert {n} - {n} == {};
  }
}

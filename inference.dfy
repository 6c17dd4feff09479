/**
 The inference driver in `main`: enumerate every trait set that agrees with
 the observed traits, every one-copy set and every two-copy set drawn from the
 rest, score each world, add it into the table, and normalize once at the end.
 */
module Inference {
  import opened Wrappers
  import opened Probs
  import opened SubsetEnumerator
  import opened Joint
  import opened Accumulator

  /**
   The evidence filter of `main`: some person whose trait is known is in
   `haveTrait` exactly when the observation says they do not show it.
   */
  predicate FailsEvidence(people: Pedigree, haveTrait: set<Name>)
  {
    exists n :: n in people && people[n].observed.Some? && people[n].observed.value != (n in haveTrait)
  }

  /**
   A world the driver scores: the three sets range over the persons of the
   pedigree, nobody has both one and two copies, and the trait set passes the
   evidence filter.
   */
  ghost predicate Consistent(people: Pedigree, w: World)
  {
    && w.oneGene <= people.Keys
    && w.twoGenes <= people.Keys
    && w.oneGene !! w.twoGenes
    && w.haveTrait <= people.Keys
    && !FailsEvidence(people, w.haveTrait)
  }

  /** The table after adding the worlds of `ws`, in order, to `start`. */
  ghost function AccumulatedFrom(start: Table, people: Pedigree, ws: seq<World>): Table
  {
    if ws == [] then start
    else
      var last := ws[|ws| - 1];
      AddWorldToTable(AccumulatedFrom(start, people, ws[..|ws| - 1]), last, WorldProbability(people, last))
  }

  /** The table after adding the worlds of `ws`, in order, to the all-zero table. */
  ghost function Accumulated(people: Pedigree, ws: seq<World>): Table
  {
    AccumulatedFrom(InitTable(people), people, ws)
  }

  /** Adding one more world to the fold is one more `AddWorldToTable`. */
  lemma AccumulatedSnoc(start: Table, people: Pedigree, ws: seq<World>, w: World)
    ensures AccumulatedFrom(start, people, ws + [w]) == AddWorldToTable(AccumulatedFrom(start, people, ws), w, WorldProbability(people, w))
  {
    assert (ws + [w])[..|ws|] == ws;
  }

  /** The summed probability of the worlds of `ws`. */
  ghost function Mass(people: Pedigree, ws: seq<World>): real
  {
    if ws == [] then 0.0 else Mass(people, ws[..|ws| - 1]) + WorldProbability(people, ws[|ws| - 1])
  }

  /**
   Every person's gene totals and trait totals both add up to the summed
   probability of the worlds added so far.
   */
  lemma {:induction false} AccumulatedTotals(people: Pedigree, ws: seq<World>)
    ensures Accumulated(people, ws).Keys == people.Keys
    ensures forall n :: n in people ==> Accumulated(people, ws)[n].gene.Total() == Mass(people, ws)
    ensures forall n :: n in people ==> Accumulated(people, ws)[n].traits.Total() == Mass(people, ws)
  {
    if ws != [] {
      AccumulatedTotals(people, ws[..|ws| - 1]);
    }
  }

  /** Worlds that are all scored give a positive summed probability as soon as there is one. */
  lemma {:induction false} MassPositive(people: Pedigree, ws: seq<World>)
    requires ws != []
    ensures Mass(people, ws) > 0.0
  {
    WorldProbabilityBounds(people, ws[|ws| - 1]);
    if |ws| > 1 {
      MassPositive(people, ws[..|ws| - 1]);
    }
  }

  /**
   When every world added passes the evidence filter, a person observed with
   trait value `b` never receives mass in the bucket for `!b`.
   */
  lemma {:induction false} AccumulatedRespectsEvidence(people: Pedigree, ws: seq<World>, n: Name)
    requires forall w :: w in ws ==> !FailsEvidence(people, w.haveTrait)
    requires n in people && people[n].observed.Some?
    ensures n in Accumulated(people, ws)
    ensures Accumulated(people, ws)[n].traits.At(!people[n].observed.value) == 0.0
  {
    AccumulatedTotals(people, ws);
    if ws != [] {
      var last := ws[|ws| - 1];
      assert !FailsEvidence(people, last.haveTrait);
      AccumulatedRespectsEvidence(people, ws[..|ws| - 1], n);
    }
  }

  /** What world `w` contributes to a sum restricted to the worlds that satisfy `keep`. */
  ghost function Kept(people: Pedigree, w: World, keep: World -> bool): real
  {
    if keep(w) then WorldProbability(people, w) else 0.0
  }

  /** The summed probability of the worlds of `ws` that satisfy `keep`. */
  ghost function MassWhere(people: Pedigree, ws: seq<World>, keep: World -> bool): real
  {
    if ws == [] then 0.0 else MassWhere(people, ws[..|ws| - 1], keep) + Kept(people, ws[|ws| - 1], keep)
  }

  /** The worlds that `update` files under `g` copies for person `n`. */
  function GeneBucketIs(n: Name, g: Genes): World -> bool
  {
    (w: World) => UpdateBucket(n, w) == g
  }

  /** The worlds that `update` files under trait value `b` for person `n`. */
  function TraitBucketIs(n: Name, b: bool): World -> bool
  {
    (w: World) => (n in w.haveTrait) == b
  }

  /**
   Each gene bucket of a person holds exactly the summed probability of the
   worlds added so far that `update` filed under it.
   */
  lemma {:induction false} AccumulatedGeneBucket(people: Pedigree, ws: seq<World>, n: Name, g: Genes)
    requires n in people
    ensures n in Accumulated(people, ws)
    ensures Accumulated(people, ws)[n].gene.At(g) == MassWhere(people, ws, GeneBucketIs(n, g))
  {
    AccumulatedTotals(people, ws);
    if ws != [] {
      AccumulatedGeneBucket(people, ws[..|ws| - 1], n, g);
    }
  }

  /** As AccumulatedGeneBucket, for the two trait buckets. */
  lemma {:induction false} AccumulatedTraitBucket(people: Pedigree, ws: seq<World>, n: Name, b: bool)
    requires n in people
    ensures n in Accumulated(people, ws)
    ensures Accumulated(people, ws)[n].traits.At(b) == MassWhere(people, ws, TraitBucketIs(n, b))
  {
    AccumulatedTotals(people, ws);
    if ws != [] {
      AccumulatedTraitBucket(people, ws[..|ws| - 1], n, b);
    }
  }

  /** Taking the element at `i` out of a sequence without repeats. */
  lemma {:induction false} RemoveAt<T>(vs: seq<T>, i: nat)
    requires Distinct(vs) && i < |vs|
    ensures Distinct(vs[..i] + vs[i + 1..])
    ensures forall x :: x in vs[..i] + vs[i + 1..] <==> x in vs && x != vs[i]
  {
    var r := vs[..i] + vs[i + 1..];
    forall k | 0 <= k < |r| ensures r[k] == vs[if k < i then k else k + 1] {
    }
    forall x ensures x in r <==> x in vs && x != vs[i] {
      if x in vs && x != vs[i] {
        var k :| 0 <= k < |vs| && vs[k] == x;
        if k < i {
          assert r[k] == x;
        } else {
          assert r[k - 1] == x;
        }
      }
    }
  }

  /** The sum restricted to `keep` can take out the world at `i` first. */
  lemma {:induction false} MassWhereRemove(people: Pedigree, vs: seq<World>, i: nat, keep: World -> bool)
    requires i < |vs|
    ensures MassWhere(people, vs, keep) == MassWhere(people, vs[..i] + vs[i + 1..], keep) + Kept(people, vs[i], keep)
    decreases |vs|
  {
    var last := |vs| - 1;
    var r := vs[..i] + vs[i + 1..];
    if i == last {
      assert r == vs[..last];
    } else {
      MassWhereRemove(people, vs[..last], i, keep);
      assert vs[..last][..i] + vs[..last][i + 1..] == r[..|r| - 1];
      assert r[|r| - 1] == vs[last];
    }
  }

  /**
   The sum restricted to `keep` depends only on which worlds are added, not on
   the order in which the enumeration added them.
   */
  lemma {:induction false} MassWhereOrderFree(people: Pedigree, ws: seq<World>, vs: seq<World>, keep: World -> bool)
    requires Distinct(ws) && Distinct(vs)
    requires forall w :: w in ws <==> w in vs
    ensures MassWhere(people, ws, keep) == MassWhere(people, vs, keep)
    decreases |ws|
  {
    if ws == [] {
      ElementsCardinality(ws);
      ElementsCardinality(vs);
      assert Elements(vs) == Elements(ws);
    } else {
      var front := ws[..|ws| - 1];
      var x := ws[|ws| - 1];
      assert x in vs;
      var i :| 0 <= i < |vs| && vs[i] == x;
      RemoveAt(ws, |ws| - 1);
      assert ws[..|ws| - 1] + ws[|ws|..] == front;
      RemoveAt(vs, i);
      MassWhereRemove(people, vs, i, keep);
      var rest := vs[..i] + vs[i + 1..];
      forall w ensures w in front <==> w in rest {
        assert w in front <==> w in ws && w != x;
        assert w in rest <==> w in vs && w != x;
      }
      MassWhereOrderFree(people, front, rest, keep);
    }
  }

  /** Adding worlds never adds or removes a person. */
  lemma {:induction false} AccumulatedKeys(people: Pedigree, ws: seq<World>)
    ensures Accumulated(people, ws).Keys == people.Keys
  {
    if ws != [] {
      AccumulatedKeys(people, ws[..|ws| - 1]);
    }
  }

  /** Two tables over the same persons whose entries all agree are the same table. */
  lemma SameEntries(a: Table, b: Table)
    requires a.Keys == b.Keys
    requires forall n :: n in a ==> a[n] == b[n]
    ensures a == b
  {
  }

  /** Two entries whose buckets all agree are the same entry. */
  lemma SameBuckets(a: Entry, b: Entry)
    requires forall g: Genes :: a.gene.At(g) == b.gene.At(g)
    requires forall t: bool :: a.traits.At(t) == b.traits.At(t)
    ensures a == b
  {
    assert a.gene.At(0) == b.gene.At(0) && a.gene.At(1) == b.gene.At(1) && a.gene.At(2) == b.gene.At(2);
    assert a.traits.At(true) == b.traits.At(true) && a.traits.At(false) == b.traits.At(false);
  }

  /**
   Person `n`'s entry after adding the same worlds, each once, in any two
   orders is the same entry.
   */
  lemma {:induction false} EntryOrderFree(people: Pedigree, ws: seq<World>, vs: seq<World>, n: Name)
    requires Distinct(ws) && Distinct(vs)
    requires forall w :: w in ws <==> w in vs
    requires n in people
    ensures n in Accumulated(people, ws) && n in Accumulated(people, vs)
    ensures Accumulated(people, ws)[n] == Accumulated(people, vs)[n]
  {
    AccumulatedTotals(people, ws);
    AccumulatedTotals(people, vs);
    var a, b := Accumulated(people, ws)[n], Accumulated(people, vs)[n];
    forall g: Genes ensures a.gene.At(g) == b.gene.At(g) {
      AccumulatedGeneBucket(people, ws, n, g);
      AccumulatedGeneBucket(people, vs, n, g);
      MassWhereOrderFree(people, ws, vs, GeneBucketIs(n, g));
    }
    forall t: bool ensures a.traits.At(t) == b.traits.At(t) {
      AccumulatedTraitBucket(people, ws, n, t);
      AccumulatedTraitBucket(people, vs, n, t);
      MassWhereOrderFree(people, ws, vs, TraitBucketIs(n, t));
    }
    SameBuckets(a, b);
  }

  /**
   The table after adding the same worlds, each once, in any two orders is
   the same table.
   */
  lemma {:induction false} AccumulatedOrderFree(people: Pedigree, ws: seq<World>, vs: seq<World>)
    requires Distinct(ws) && Distinct(vs)
    requires forall w :: w in ws <==> w in vs
    ensures Accumulated(people, ws) == Accumulated(people, vs)
  {
    var a, b := Accumulated(people, ws), Accumulated(people, vs);
    AccumulatedKeys(people, ws);
    AccumulatedKeys(people, vs);
    forall n | n in a ensures a[n] == b[n] {
      EntryOrderFree(people, ws, vs, n);
    }
    SameEntries(a, b);
  }

  /** The world in which exactly the persons observed with the trait show it, and nobody has the gene. */
  function EvidenceWorld(people: Pedigree): (w: World)
    ensures Consistent(people, w)
  {
    World({}, {}, set n | n in people && people[n].observed == Some(true))
  }

  /** Normalizing a trait distribution in which `!b` got no mass gives `b` probability 1. */
  lemma NormalizedCertain(d: TraitDist, b: bool)
    requires d.Total() > 0.0 && d.At(!b) == 0.0
    ensures d.Normalized().At(b) == 1.0 && d.Normalized().At(!b) == 0.0
  {
    var r := d.Normalized();
    assert r.At(true) * d.Total() == d.At(true) && r.At(false) * d.Total() == d.At(false);
    if b {
      assert r.At(false) == 0.0;
    } else {
      assert r.At(true) == 0.0;
    }
  }

  /**
   After normalization, both distributions of person `n` sum to 1, and if `n`
   was observed with trait value `b`, `b` has probability 1.
   */
  lemma {:induction false} PosteriorEntry(people: Pedigree, ws: seq<World>, n: Name)
    requires ws != []
    requires forall w :: w in ws ==> !FailsEvidence(people, w.haveTrait)
    requires n in people
    ensures n in NormalizeTable(Accumulated(people, ws))
    ensures NormalizeTable(Accumulated(people, ws))[n].gene.Total() == 1.0
    ensures NormalizeTable(Accumulated(people, ws))[n].traits.Total() == 1.0
    ensures people[n].observed.Some? ==>
      NormalizeTable(Accumulated(people, ws))[n].traits.At(people[n].observed.value) == 1.0 &&
      NormalizeTable(Accumulated(people, ws))[n].traits.At(!people[n].observed.value) == 0.0
  {
    var acc := Accumulated(people, ws);
    AccumulatedTotals(people, ws);
    MassPositive(people, ws);
    assert NormalizeTable(acc)[n] == NormalizeEntry(acc[n]);
    if people[n].observed.Some? {
      AccumulatedRespectsEvidence(people, ws, n);
      NormalizedCertain(acc[n].traits, people[n].observed.value);
    }
  }

  /**
   The normalized table over all consistent worlds: one entry per person,
   every distribution sums to 1, and an observed trait is certain.
   */
  lemma Posterior(people: Pedigree, ws: seq<World>)
    requires forall w :: w in ws <==> Consistent(people, w)
    ensures NormalizeTable(Accumulated(people, ws)).Keys == people.Keys
    ensures forall n :: n in people ==>
      && NormalizeTable(Accumulated(people, ws))[n].gene.Total() == 1.0
      && NormalizeTable(Accumulated(people, ws))[n].traits.Total() == 1.0
    ensures forall n :: n in people && people[n].observed.Some? ==>
      && NormalizeTable(Accumulated(people, ws))[n].traits.At(people[n].observed.value) == 1.0
      && NormalizeTable(Accumulated(people, ws))[n].traits.At(!people[n].observed.value) == 0.0
  {
    var result := NormalizeTable(Accumulated(people, ws));
    AccumulatedTotals(people, ws);
    assert EvidenceWorld(people) in ws;
    forall n | n in people
      ensures result[n].gene.Total() == 1.0 && result[n].traits.Total() == 1.0
      ensures people[n].observed.Some? ==>
        result[n].traits.At(people[n].observed.value) == 1.0 && result[n].traits.At(!people[n].observed.value) == 0.0
    {
      PosteriorEntry(people, ws, n);
    }
  }

  /**
   A posterior gene bucket is the probability of the consistent worlds filed
   under it divided by the probability of all consistent worlds, whatever
   order they were added in.
   */
  lemma {:induction false} PosteriorGeneBucket(people: Pedigree, ws: seq<World>, n: Name, g: Genes)
    requires forall w :: w in ws <==> Consistent(people, w)
    requires n in people
    ensures n in NormalizeTable(Accumulated(people, ws))
    ensures Mass(people, ws) > 0.0
    ensures NormalizeTable(Accumulated(people, ws))[n].gene.At(g) == MassWhere(people, ws, GeneBucketIs(n, g)) / Mass(people, ws)
  {
    var acc := Accumulated(people, ws);
    AccumulatedTotals(people, ws);
    assert EvidenceWorld(people) in ws;
    MassPositive(people, ws);
    AccumulatedGeneBucket(people, ws, n, g);
    NormalizedGeneAt(acc[n].gene, g);
    assert NormalizeTable(acc)[n] == NormalizeEntry(acc[n]);
  }

  /** As PosteriorGeneBucket, for the two trait buckets. */
  lemma {:induction false} PosteriorTraitBucket(people: Pedigree, ws: seq<World>, n: Name, b: bool)
    requires forall w :: w in ws <==> Consistent(people, w)
    requires n in people
    ensures n in NormalizeTable(Accumulated(people, ws))
    ensures Mass(people, ws) > 0.0
    ensures NormalizeTable(Accumulated(people, ws))[n].traits.At(b) == MassWhere(people, ws, TraitBucketIs(n, b)) / Mass(people, ws)
  {
    var acc := Accumulated(people, ws);
    AccumulatedTotals(people, ws);
    assert EvidenceWorld(people) in ws;
    MassPositive(people, ws);
    AccumulatedTraitBucket(people, ws, n, b);
    NormalizedTraitAt(acc[n].traits, b);
    assert NormalizeTable(acc)[n] == NormalizeEntry(acc[n]);
  }

  /**
   Which worlds the nested loops of `main` have reached: the trait sets in
   `traitsDone`, or the current trait set `haveTrait` with a one-copy set of
   `onesDone`, or the current `haveTrait` and `oneGene` with a two-copy set of
   `twosDone`.
   */
  ghost predicate Reached(w: World, traitsDone: seq<set<Name>>, haveTrait: set<Name>,
                          onesDone: seq<set<Name>>, oneGene: set<Name>, twosDone: seq<set<Name>>)
  {
    || w.haveTrait in traitsDone
    || (w.haveTrait == haveTrait && w.oneGene in onesDone)
    || (w.haveTrait == haveTrait && w.oneGene == oneGene && w.twoGenes in twosDone)
  }

  /**
   The loop invariant of the enumeration: `ws` holds, each exactly once, the
   consistent worlds reached so far, and nothing else.
   */
  ghost predicate ExactlyReached(people: Pedigree, ws: seq<World>, traitsDone: seq<set<Name>>, haveTrait: set<Name>,
                                 onesDone: seq<set<Name>>, oneGene: set<Name>, twosDone: seq<set<Name>>)
  {
    && Distinct(ws)
    && (forall w :: w in ws ==> Consistent(people, w) && Reached(w, traitsDone, haveTrait, onesDone, oneGene, twosDone))
    && (forall w :: Consistent(people, w) && Reached(w, traitsDone, haveTrait, onesDone, oneGene, twosDone) ==> w in ws)
  }

  lemma NotInPrefix<T>(s: seq<T>, i: nat)
    requires Distinct(s) && i < |s|
    ensures s[i] !in s[..i]
  {
  }

  /** Starting the loop over one-copy sets for a trait set that passed the filter. */
  lemma EnterTraitSet(people: Pedigree, ws: seq<World>, traitsDone: seq<set<Name>>, haveTrait: set<Name>)
    requires ExactlyReached(people, ws, traitsDone, {}, [], {}, [])
    ensures ExactlyReached(people, ws, traitsDone, haveTrait, [], {}, [])
  {
  }

  /** Starting the loop over two-copy sets for one one-copy set. */
  lemma EnterOneGene(people: Pedigree, ws: seq<World>, traitsDone: seq<set<Name>>, haveTrait: set<Name>,
                     onesDone: seq<set<Name>>, oneGene: set<Name>)
    requires ExactlyReached(people, ws, traitsDone, haveTrait, onesDone, {}, [])
    ensures ExactlyReached(people, ws, traitsDone, haveTrait, onesDone, oneGene, [])
  {
  }

  /** Adding the world of the innermost loop body keeps the invariant, one two-copy set further. */
  lemma AddReachedWorld(people: Pedigree, ws: seq<World>, traitsDone: seq<set<Name>>, haveTrait: set<Name>,
                        onesDone: seq<set<Name>>, oneGene: set<Name>, twosDone: seq<set<Name>>, twoGenes: set<Name>)
    requires ExactlyReached(people, ws, traitsDone, haveTrait, onesDone, oneGene, twosDone)
    requires Consistent(people, World(oneGene, twoGenes, haveTrait))
    requires haveTrait !in traitsDone && oneGene !in onesDone && twoGenes !in twosDone
    ensures ExactlyReached(people, ws + [World(oneGene, twoGenes, haveTrait)], traitsDone, haveTrait, onesDone, oneGene, twosDone + [twoGenes])
  {
    var x := World(oneGene, twoGenes, haveTrait);
    assert x !in ws;
    var ws' := ws + [x];
    forall i, j | 0 <= i < j < |ws'| ensures ws'[i] != ws'[j] {
      if j == |ws| {
        assert ws'[i] in ws;
      } else {
        assert ws'[i] == ws[i] && ws'[j] == ws[j];
      }
    }
  }

  /** Finishing the two-copy loop: every two-copy set drawn from the rest has been reached. */
  lemma LeaveOneGene(people: Pedigree, ws: seq<World>, traitsDone: seq<set<Name>>, haveTrait: set<Name>,
                     onesDone: seq<set<Name>>, oneGene: set<Name>, twoSets: seq<set<Name>>)
    requires ExactlyReached(people, ws, traitsDone, haveTrait, onesDone, oneGene, twoSets)
    requires forall t :: t in twoSets <==> t <= people.Keys - oneGene
    ensures ExactlyReached(people, ws, traitsDone, haveTrait, onesDone + [oneGene], {}, [])
  {
    forall w | Consistent(people, w)
      ensures Reached(w, traitsDone, haveTrait, onesDone, oneGene, twoSets)
          <==> Reached(w, traitsDone, haveTrait, onesDone + [oneGene], {}, [])
    {
      if w.oneGene == oneGene {
        assert w.twoGenes <= people.Keys - oneGene;
      }
    }
  }

  /** Finishing the one-copy loop: every one-copy set has been reached. */
  lemma LeaveTraitSet(people: Pedigree, ws: seq<World>, traitsDone: seq<set<Name>>, haveTrait: set<Name>,
                      oneSets: seq<set<Name>>)
    requires ExactlyReached(people, ws, traitsDone, haveTrait, oneSets, {}, [])
    requires forall o :: o in oneSets <==> o <= people.Keys
    ensures ExactlyReached(people, ws, traitsDone + [haveTrait], {}, [], {}, [])
  {
  }

  /** Skipping a trait set the evidence rules out: no consistent world has it. */
  lemma SkipTraitSet(people: Pedigree, ws: seq<World>, traitsDone: seq<set<Name>>, haveTrait: set<Name>)
    requires ExactlyReached(people, ws, traitsDone, {}, [], {}, [])
    requires FailsEvidence(people, haveTrait)
    ensures ExactlyReached(people, ws, traitsDone + [haveTrait], {}, [], {}, [])
  {
  }

  /** Once every trait set has been visited, the worlds are exactly the consistent ones. */
  lemma AllReached(people: Pedigree, ws: seq<World>, traitSets: seq<set<Name>>)
    requires ExactlyReached(people, ws, traitSets, {}, [], {}, [])
    requires forall t :: t in traitSets <==> t <= people.Keys
    ensures forall w :: w in ws <==> Consistent(people, w)
  {
  }

  /**
   The innermost loop body of `main`: scores one world and adds it to the
   table, which then holds the fold over one more world.
   */
  method AddScoredWorld(probabilities: Probabilities, people: Pedigree,
                        oneGene: set<Name>, twoGenes: set<Name>, haveTrait: set<Name>,
                        ghost start: Table, ghost ws: seq<World>)
    requires probabilities.table == AccumulatedFrom(start, people, ws)
    modifies probabilities
    ensures probabilities.table == AccumulatedFrom(start, people, ws + [World(oneGene, twoGenes, haveTrait)])
  {
    var p := JointProbability(people, oneGene, twoGenes, haveTrait);
    probabilities.Update(oneGene, twoGenes, haveTrait, p);
    AccumulatedSnoc(start, people, ws, World(oneGene, twoGenes, haveTrait));
  }

  /**
   The innermost loop of `main` for one trait set and one one-copy set: scores
   every two-copy set drawn from the remaining persons and adds it to the table.
   */
  method ScoreTwoGeneSets(probabilities: Probabilities, people: Pedigree,
                          ghost traitsDone: seq<set<Name>>, haveTrait: set<Name>,
                          ghost onesDone: seq<set<Name>>, oneGene: set<Name>,
                          ghost start: Table, ghost ws: seq<World>)
    returns (ghost ws': seq<World>)
    requires haveTrait <= people.Keys && !FailsEvidence(people, haveTrait) && oneGene <= people.Keys
    requires haveTrait !in traitsDone && oneGene !in onesDone
    requires probabilities.table == AccumulatedFrom(start, people, ws)
    requires ExactlyReached(people, ws, traitsDone, haveTrait, onesDone, oneGene, [])
    modifies probabilities
    ensures probabilities.table == AccumulatedFrom(start, people, ws')
    ensures ExactlyReached(people, ws', traitsDone, haveTrait, onesDone + [oneGene], {}, [])
  {
    ws' := ws;
    var twoSets := Powerset(people.Keys - oneGene);
    ghost var twosDone: seq<set<Name>> := [];
    for k := 0 to |twoSets|
      invariant twosDone == twoSets[..k]
      invariant probabilities.table == AccumulatedFrom(start, people, ws')
      invariant ExactlyReached(people, ws', traitsDone, haveTrait, onesDone, oneGene, twosDone)
    {
      var twoGenes := twoSets[k];
      assert twoGenes <= people.Keys - oneGene by { assert twoGenes in twoSets; }
      NotInPrefix(twoSets, k);
      AddScoredWorld(probabilities, people, oneGene, twoGenes, haveTrait, start, ws');
      AddReachedWorld(people, ws', traitsDone, haveTrait, onesDone, oneGene, twosDone, twoGenes);
      ws' := ws' + [World(oneGene, twoGenes, haveTrait)];
      assert twoSets[..k + 1] == twoSets[..k] + [twoGenes];
      twosDone := twosDone + [twoGenes];
    }
    assert twoSets[..|twoSets|] == twoSets;
    LeaveOneGene(people, ws', traitsDone, haveTrait, onesDone, oneGene, twoSets);
  }

  /**
   The middle loop of `main` for one trait set that passed the evidence
   filter: runs the two-copy loop for every one-copy set.
   */
  method ScoreOneGeneSets(probabilities: Probabilities, people: Pedigree,
                          ghost traitsDone: seq<set<Name>>, haveTrait: set<Name>,
                          ghost start: Table, ghost ws: seq<World>)
    returns (ghost ws': seq<World>)
    requires haveTrait <= people.Keys && !FailsEvidence(people, haveTrait) && haveTrait !in traitsDone
    requires probabilities.table == AccumulatedFrom(start, people, ws)
    requires ExactlyReached(people, ws, traitsDone, {}, [], {}, [])
    modifies probabilities
    ensures probabilities.table == AccumulatedFrom(start, people, ws')
    ensures ExactlyReached(people, ws', traitsDone + [haveTrait], {}, [], {}, [])
  {
    ws' := ws;
    EnterTraitSet(people, ws', traitsDone, haveTrait);
    var oneSets := Powerset(people.Keys);
    ghost var onesDone: seq<set<Name>> := [];
    for j := 0 to |oneSets|
      invariant onesDone == oneSets[..j]
      invariant probabilities.table == AccumulatedFrom(start, people, ws')
      invariant ExactlyReached(people, ws', traitsDone, haveTrait, onesDone, {}, [])
    {
      var oneGene := oneSets[j];
      assert oneGene <= people.Keys by { assert oneGene in oneSets; }
      NotInPrefix(oneSets, j);
      EnterOneGene(people, ws', traitsDone, haveTrait, onesDone, oneGene);
      ws' := ScoreTwoGeneSets(probabilities, people, traitsDone, haveTrait, onesDone, oneGene, start, ws');
      assert oneSets[..j + 1] == oneSets[..j] + [oneGene];
      onesDone := onesDone + [oneGene];
    }
    assert oneSets[..|oneSets|] == oneSets;
    LeaveTraitSet(people, ws', traitsDone, haveTrait, oneSets);
  }

  /**
   The outer loop of `main`: every trait set that passes the evidence filter
   runs the one-copy loop; the others are skipped. Afterwards the table holds
   the fold over every consistent world, each added exactly once.
   */
  method ScoreTraitSets(probabilities: Probabilities, people: Pedigree, ghost start: Table)
    returns (ghost worlds: seq<World>)
    requires probabilities.table == start
    modifies probabilities
    ensures probabilities.table == AccumulatedFrom(start, people, worlds)
    ensures Distinct(worlds)
    ensures forall w :: w in worlds <==> Consistent(people, w)
  {
    worlds := [];
    var traitSets := Powerset(people.Keys);
    ghost var traitsDone: seq<set<Name>> := [];
    for i := 0 to |traitSets|
      invariant traitsDone == traitSets[..i]
      invariant probabilities.table == AccumulatedFrom(start, people, worlds)
      invariant ExactlyReached(people, worlds, traitsDone, {}, [], {}, [])
    {
      var haveTrait := traitSets[i];
      assert traitSets[..i + 1] == traitSets[..i] + [haveTrait];
      if FailsEvidence(people, haveTrait) {
        SkipTraitSet(people, worlds, traitsDone, haveTrait);
        traitsDone := traitsDone + [haveTrait];
        continue;
      }
      assert haveTrait <= people.Keys by { assert haveTrait in traitSets; }
      NotInPrefix(traitSets, i);
      worlds := ScoreOneGeneSets(probabilities, people, traitsDone, haveTrait, start, worlds);
      traitsDone := traitsDone + [haveTrait];
    }
    assert traitSets[..|traitSets|] == traitSets;
    AllReached(people, worlds, traitSets);
  }

  /**
   The body of `main` between loading the pedigree and printing: returns the
   normalized table and, as a ghost, the worlds in the order they were added.
   Every consistent world is added exactly once and no other world is.
   */
  method Infer(people: Pedigree) returns (result: Table, ghost worlds: seq<World>)
    ensures Distinct(worlds)
    ensures forall w :: w in worlds <==> Consistent(people, w)
    ensures result == NormalizeTable(Accumulated(people, worlds))
    ensures result.Keys == people.Keys
    ensures forall n :: n in result ==> result[n].gene.Total() == 1.0 && result[n].traits.Total() == 1.0
    ensures forall n :: n in people && people[n].observed.Some? ==>
      n in result && result[n].traits.At(people[n].observed.value) == 1.0 && result[n].traits.At(!people[n].observed.value) == 0.0
    ensures forall vs :: Distinct(vs) && (forall w :: w in vs <==> Consistent(people, w)) ==>
      result == NormalizeTable(Accumulated(people, vs))
  {
    var probabilities := new Probabilities(people);
    worlds := ScoreTraitSets(probabilities, people, probabilities.table);
    probabilities.Normalize();
    result := probabilities.table;
    Posterior(people, worlds);
    forall vs | Distinct(vs) && (forall w :: w in vs <==> Consistent(people, w))
      ensures result == NormalizeTable(Accumulated(people, vs))
    {
      AccumulatedOrderFree(people, worlds, vs);
    }
  }

  /** The pedigree of one person with no recorded parents and no observed trait. */
  function LoneFounder(n: Name): Pedigree
  {
    map[n := Person(None, None, None)]
  }

  /** The world in which `n` alone has `g` copies and shows the trait exactly when `shown`. */
  function LoneWorld(n: Name, g: Genes, shown: bool): (w: World)
    ensures Genotype(n, w) == g && UpdateBucket(n, w) == g
    ensures (n in w.haveTrait) == shown
  {
    World(if g == 1 then {n} else {}, if g == 2 then {n} else {}, if shown then {n} else {})
  }

  /** The six worlds of a lone founder: three genotypes, trait shown or not. */
  function LoneWorlds(n: Name): seq<World>
  {
    [LoneWorld(n, 0, false), LoneWorld(n, 1, false), LoneWorld(n, 2, false),
     LoneWorld(n, 0, true), LoneWorld(n, 1, true), LoneWorld(n, 2, true)]
  }

  /** The six lone-founder worlds are different and are exactly the consistent ones. */
  lemma LoneWorldsExactlyConsistent(n: Name)
    ensures Distinct(LoneWorlds(n))
    ensures forall w :: w in LoneWorlds(n) <==> Consistent(LoneFounder(n), w)
  {
    var people := LoneFounder(n);
    var ws := LoneWorlds(n);
    forall w ensures w in ws <==> Consistent(people, w) {
      if Consistent(people, w) {
        var g: Genes := if n in w.oneGene then 1 else if n in w.twoGenes then 2 else 0;
        assert w.oneGene == (if g == 1 then {n} else {});
        assert w.twoGenes == (if g == 2 then {n} else {});
        assert w.haveTrait == (if n in w.haveTrait then {n} else {});
        assert w == LoneWorld(n, g, n in w.haveTrait);
      }
      if w in ws {
        assert !FailsEvidence(people, w.haveTrait);
      }
    }
  }

  /** A lone founder's world scores the gene prior times the trait-given-gene factor. */
  lemma LoneWorldProbability(n: Name, g: Genes, shown: bool)
    ensures WorldProbability(LoneFounder(n), LoneWorld(n, g, shown)) == GenePrior(g) * TraitGiven(g, shown)
  {
    SingleFounderProbability(n, None, LoneWorld(n, g, shown));
  }

  /** A restricted sum over the six lone-founder worlds, written out. */
  lemma LoneMassWhere(n: Name, keep: World -> bool)
    ensures MassWhere(LoneFounder(n), LoneWorlds(n), keep)
         == Kept(LoneFounder(n), LoneWorld(n, 0, false), keep) + Kept(LoneFounder(n), LoneWorld(n, 1, false), keep)
          + Kept(LoneFounder(n), LoneWorld(n, 2, false), keep) + Kept(LoneFounder(n), LoneWorld(n, 0, true), keep)
          + Kept(LoneFounder(n), LoneWorld(n, 1, true), keep) + Kept(LoneFounder(n), LoneWorld(n, 2, true), keep)
  {
    var people, ws := LoneFounder(n), LoneWorlds(n);
    assert MassWhere(people, ws[..0], keep) == 0.0 by { assert ws[..0] == []; }
    assert MassWhere(people, ws[..1], keep) == MassWhere(people, ws[..0], keep) + Kept(people, ws[0], keep) by {
      assert ws[..1][..0] == ws[..0];
    }
    assert MassWhere(people, ws[..2], keep) == MassWhere(people, ws[..1], keep) + Kept(people, ws[1], keep) by {
      assert ws[..2][..1] == ws[..1];
    }
    assert MassWhere(people, ws[..3], keep) == MassWhere(people, ws[..2], keep) + Kept(people, ws[2], keep) by {
      assert ws[..3][..2] == ws[..2];
    }
    assert MassWhere(people, ws[..4], keep) == MassWhere(people, ws[..3], keep) + Kept(people, ws[3], keep) by {
      assert ws[..4][..3] == ws[..3];
    }
    assert MassWhere(people, ws[..5], keep) == MassWhere(people, ws[..4], keep) + Kept(people, ws[4], keep) by {
      assert ws[..5][..4] == ws[..4];
    }
    assert MassWhere(people, ws[..6], keep) == MassWhere(people, ws[..5], keep) + Kept(people, ws[5], keep) by {
      assert ws[..6][..5] == ws[..5];
    }
    assert ws[..6] == ws;
  }

  /** Over a lone founder's consistent worlds, the mass filed under `g` copies is the gene prior. */
  lemma {:induction false} LoneGeneMass(n: Name, ws: seq<World>, g: Genes)
    requires Distinct(ws)
    requires forall w :: w in ws <==> Consistent(LoneFounder(n), w)
    ensures MassWhere(LoneFounder(n), ws, GeneBucketIs(n, g)) == GenePrior(g)
  {
    LoneWorldsExactlyConsistent(n);
    MassWhereOrderFree(LoneFounder(n), ws, LoneWorlds(n), GeneBucketIs(n, g));
    LoneMassWhere(n, GeneBucketIs(n, g));
    forall h: Genes, shown: bool
      ensures WorldProbability(LoneFounder(n), LoneWorld(n, h, shown)) == GenePrior(h) * TraitGiven(h, shown)
    {
      LoneWorldProbability(n, h, shown);
    }
  }

  /**
   Over a lone founder's consistent worlds, the mass in which the trait is
   `shown` is the prior-weighted trait probability.
   */
  lemma {:induction false} LoneTraitMass(n: Name, ws: seq<World>, shown: bool)
    requires Distinct(ws)
    requires forall w :: w in ws <==> Consistent(LoneFounder(n), w)
    ensures MassWhere(LoneFounder(n), ws, TraitBucketIs(n, shown)) == TraitMarginal(shown)
  {
    LoneWorldsExactlyConsistent(n);
    MassWhereOrderFree(LoneFounder(n), ws, LoneWorlds(n), TraitBucketIs(n, shown));
    LoneMassWhere(n, TraitBucketIs(n, shown));
    forall h: Genes, b: bool
      ensures WorldProbability(LoneFounder(n), LoneWorld(n, h, b)) == GenePrior(h) * TraitGiven(h, b)
    {
      LoneWorldProbability(n, h, b);
    }
  }

  /** A lone founder's consistent worlds have total probability 1. */
  lemma {:induction false} LoneMass(n: Name, ws: seq<World>)
    requires Distinct(ws)
    requires forall w :: w in ws <==> Consistent(LoneFounder(n), w)
    ensures Mass(LoneFounder(n), ws) == 1.0
  {
    var people := LoneFounder(n);
    AccumulatedTotals(people, ws);
    var d := Accumulated(people, ws)[n].gene;
    AccumulatedGeneBucket(people, ws, n, 0);
    AccumulatedGeneBucket(people, ws, n, 1);
    AccumulatedGeneBucket(people, ws, n, 2);
    LoneGeneMass(n, ws, 0);
    LoneGeneMass(n, ws, 1);
    LoneGeneMass(n, ws, 2);
    assert d.Total() == d.At(0) + d.At(1) + d.At(2);
  }

  /**
   For one person with no recorded parents and no observed trait, the
   posterior gene distribution is exactly the gene prior.
   */
  lemma {:induction false} LoneFounderGenePosterior(n: Name, ws: seq<World>, g: Genes)
    requires Distinct(ws)
    requires forall w :: w in ws <==> Consistent(LoneFounder(n), w)
    ensures n in NormalizeTable(Accumulated(LoneFounder(n), ws))
    ensures NormalizeTable(Accumulated(LoneFounder(n), ws))[n].gene.At(g) == GenePrior(g)
  {
    PosteriorGeneBucket(LoneFounder(n), ws, n, g);
    LoneGeneMass(n, ws, g);
    LoneMass(n, ws);
  }

  /**
   For one person with no recorded parents and no observed trait, the
   posterior trait distribution is the trait-given-gene table weighted by the
   gene prior (0.0329 for showing the trait, 0.9671 for not).
   */
  lemma {:induction false} LoneFounderTraitPosterior(n: Name, ws: seq<World>, shown: bool)
    requires Distinct(ws)
    requires forall w :: w in ws <==> Consistent(LoneFounder(n), w)
    ensures n in NormalizeTable(Accumulated(LoneFounder(n), ws))
    ensures NormalizeTable(Accumulated(LoneFounder(n), ws))[n].traits.At(shown) == TraitMarginal(shown)
  {
    PosteriorTraitBucket(LoneFounder(n), ws, n, shown);
    LoneTraitMass(n, ws, shown);
    LoneMass(n, ws);
  }
}

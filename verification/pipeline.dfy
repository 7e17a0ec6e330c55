/** An image transform that runs a list of (transform, probability) entries:
    optionally reorders the list, then evaluates the entries in list order,
    each one firing when a fresh draw falls below its probability. */
module ProbabilisticPipeline {
  import opened DrawStream

  /** The seed used when the caller gives none. */
  const DefaultSeed: Long := 1234

  /** One entry of the pipeline: a transform and the probability of invoking it.
      Images are opaque (`I`, which includes the end-of-stream value) and a
      transform is any function on them. Probabilities are not range-checked. */
  datatype Entry<!I> = Entry(transform: I -> I, probability: real)

  /** An entry fires when its draw is strictly below its probability. For a
      draw in [0, 1) that makes a probability of 1 or more certain and one of
      0 or less impossible; probabilities outside [0, 1] are not rejected. */
  function Fires<I>(e: Entry<I>, r: real): (fires: bool)
    ensures e.probability >= 1.0 && r < 1.0 ==> fires
    ensures e.probability <= 0.0 && 0.0 <= r ==> !fires
  {
    r < e.probability
  }

  /** Left fold over the entries in list order: the k-th entry takes the k-th
      draw and, when it fires, replaces the image with its transform's result.
      When nothing fires the image, the end-of-stream value included, is
      returned as it came. */
  function Run<I>(entries: seq<Entry<I>>, draws: seq<real>, image: I): (result: I)
    requires |draws| == |entries|
    ensures (forall k :: 0 <= k < |entries| ==> !Fires(entries[k], draws[k])) ==> result == image
    decreases |entries|
  {
    if entries == [] then image
    else Run(entries[1..], draws[1..],
             if Fires(entries[0], draws[0]) then entries[0].transform(image) else image)
  }

  /** The transforms of the entries that fire, in list order. The image is not
      an argument: which entries fire depends on the draws and the entries only. */
  function Fired<I>(entries: seq<Entry<I>>, draws: seq<real>): (fired: seq<I -> I>)
    requires |draws| == |entries|
    ensures |fired| <= |entries|
    decreases |entries|
  {
    if entries == [] then []
    else (if Fires(entries[0], draws[0]) then [entries[0].transform] else [])
         + Fired(entries[1..], draws[1..])
  }

  /** Applies the transforms one after another, first to last. */
  function ApplyAll<I>(transforms: seq<I -> I>, image: I): I
    decreases |transforms|
  {
    if transforms == [] then image else ApplyAll(transforms[1..], transforms[0](image))
  }

  /** The transforms of all entries, in list order. */
  function TransformsOf<I>(entries: seq<Entry<I>>): seq<I -> I> {
    seq(|entries|, k requires 0 <= k < |entries| => entries[k].transform)
  }

  /** Evaluation follows list order: running a list split in two is running
      the first part and then the second part on its result. */
  lemma {:induction false} RunAppend<I>(a: seq<Entry<I>>, da: seq<real>, b: seq<Entry<I>>, db: seq<real>, image: I)
    requires |da| == |a| && |db| == |b|
    ensures Run(a + b, da + db, image) == Run(b, db, Run(a, da, image))
    decreases |a|
  {
    if a != [] {
      assert (a + b)[1..] == a[1..] + b;
      assert (da + db)[1..] == da[1..] + db;
      RunAppend(a[1..], da[1..], b, db, if Fires(a[0], da[0]) then a[0].transform(image) else image);
    } else {
      assert a + b == b && da + db == db;
    }
  }

  /** Extending the evaluated prefix by entry i applies that entry's gate to
      the prefix's result. */
  lemma RunPrefixStep<I>(entries: seq<Entry<I>>, draws: seq<real>, i: nat, image: I)
    requires |draws| == |entries| && i < |entries|
    ensures Run(entries[..i + 1], draws[..i + 1], image)
         == (var before := Run(entries[..i], draws[..i], image);
             if Fires(entries[i], draws[i]) then entries[i].transform(before) else before)
  {
    RunAppend(entries[..i], draws[..i], [entries[i]], [draws[i]], image);
    assert entries[..i + 1] == entries[..i] + [entries[i]];
    assert draws[..i + 1] == draws[..i] + [draws[i]];
  }

  /** The pipeline's result is exactly the fired transforms applied in list
      order; every other entry leaves the image as it was. */
  lemma {:induction false} RunAppliesFired<I>(entries: seq<Entry<I>>, draws: seq<real>, image: I)
    requires |draws| == |entries|
    ensures Run(entries, draws, image) == ApplyAll(Fired(entries, draws), image)
    decreases |entries|
  {
    if entries != [] {
      var rest := Fired(entries[1..], draws[1..]);
      RunAppliesFired(entries[1..], draws[1..], if Fires(entries[0], draws[0]) then entries[0].transform(image) else image);
      if Fires(entries[0], draws[0]) {
        assert ([entries[0].transform] + rest)[1..] == rest;
      } else {
        assert [] + rest == rest;
      }
    }
  }

  /** An entry whose probability is at least 1 fires on any draw in [0, 1):
      its transform is applied to the image the earlier entries produced. */
  lemma CertainEntryFires<I>(entries: seq<Entry<I>>, draws: seq<real>, i: nat, image: I)
    requires |draws| == |entries| && i < |entries|
    requires InUnitInterval(draws)
    requires entries[i].probability >= 1.0
    ensures Run(entries, draws, image)
         == Run(entries[i + 1..], draws[i + 1..], entries[i].transform(Run(entries[..i], draws[..i], image)))
  {
    assert entries == entries[..i] + [entries[i]] + entries[i + 1..];
    assert draws == draws[..i] + [draws[i]] + draws[i + 1..];
    RunAppend(entries[..i] + [entries[i]], draws[..i] + [draws[i]], entries[i + 1..], draws[i + 1..], image);
    RunAppend(entries[..i], draws[..i], [entries[i]], [draws[i]], image);
  }

  /** An entry whose probability is at most 0 never fires on a draw in [0, 1):
      the result is that of the list without it. */
  lemma ImpossibleEntryIsSkipped<I>(entries: seq<Entry<I>>, draws: seq<real>, i: nat, image: I)
    requires |draws| == |entries| && i < |entries|
    requires InUnitInterval(draws)
    requires entries[i].probability <= 0.0
    ensures Run(entries, draws, image)
         == Run(entries[..i] + entries[i + 1..], draws[..i] + draws[i + 1..], image)
  {
    assert entries == entries[..i] + [entries[i]] + entries[i + 1..];
    assert draws == draws[..i] + [draws[i]] + draws[i + 1..];
    RunAppend(entries[..i] + [entries[i]], draws[..i] + [draws[i]], entries[i + 1..], draws[i + 1..], image);
    RunAppend(entries[..i], draws[..i], [entries[i]], [draws[i]], image);
    RunAppend(entries[..i], draws[..i], entries[i + 1..], draws[i + 1..], image);
  }

  /** When every probability is at least 1, every transform fires, in list order. */
  lemma {:induction false} AllCertainFire<I>(entries: seq<Entry<I>>, draws: seq<real>, image: I)
    requires |draws| == |entries| && InUnitInterval(draws)
    requires forall k :: 0 <= k < |entries| ==> entries[k].probability >= 1.0
    ensures Fired(entries, draws) == TransformsOf(entries)
    ensures Run(entries, draws, image) == ApplyAll(TransformsOf(entries), image)
    decreases |entries|
  {
    if entries != [] {
      AllCertainFire(entries[1..], draws[1..], image);
      assert TransformsOf(entries) == [entries[0].transform] + TransformsOf(entries[1..]);
    }
    RunAppliesFired(entries, draws, image);
  }

  /** When no probability is above 0, nothing fires and the image, the
      end-of-stream value included, comes back untouched. */
  lemma {:induction false} NoneFire<I>(entries: seq<Entry<I>>, draws: seq<real>, image: I)
    requires |draws| == |entries| && InUnitInterval(draws)
    requires forall k :: 0 <= k < |entries| ==> entries[k].probability <= 0.0
    ensures Fired(entries, draws) == []
    ensures Run(entries, draws, image) == image
    decreases |entries|
  {
    if entries != [] {
      NoneFire(entries[1..], draws[1..], image);
    }
    RunAppliesFired(entries, draws, image);
  }

  /** Exchanges the elements at positions i and j. */
  function Swap<T>(s: seq<T>, i: nat, j: nat): (r: seq<T>)
    requires i < |s| && j < |s|
    ensures |r| == |s| && multiset(r) == multiset(s)
    ensures r[i] == s[j] && r[j] == s[i]
    ensures forall k :: 0 <= k < |s| && k != i && k != j ==> r[k] == s[k]
  {
    s[i := s[j]][j := s[i]]
  }

  /** Swap choices a shuffle of n elements may make: position k is exchanged
      with a position in [0, k]. */
  predicate ValidPicks(picks: seq<nat>, n: nat) {
    |picks| == n && forall k :: 0 <= k < n ==> picks[k] <= k
  }

  /** The reordering `Collections.shuffle` performs: for i from the length down
      to 2, exchange position i - 1 with position picks[i - 1]. The picks stand
      for the draws of the shuffle's own generator. Each swap keeps every
      element, and positions from i on, which the remaining swaps no longer
      reach, keep their values. */
  function ShuffleDown<T>(s: seq<T>, picks: seq<nat>, i: nat): (r: seq<T>)
    requires ValidPicks(picks, |s|) && i <= |s|
    ensures |r| == |s| && multiset(r) == multiset(s)
    ensures forall k :: i <= k < |s| ==> r[k] == s[k]
    decreases i
  {
    if i <= 1 then s else ShuffleDown(Swap(s, i - 1, picks[i - 1]), picks, i - 1)
  }

  /** The whole shuffle is a permutation: every (transform, probability) pair
      is still there as often as before, so no transform changes partner. */
  function Shuffled<T>(s: seq<T>, picks: seq<nat>): (r: seq<T>)
    requires ValidPicks(picks, |s|)
    ensures |r| == |s| && multiset(r) == multiset(s)
  {
    ShuffleDown(s, picks, |s|)
  }

  /** The pipeline object. `transforms` is reordered in place when `shuffle`
      is set; `rng` is the generator handed over at construction, which every
      constructor reseeds. */
  class Pipeline<I> {
    var transforms: seq<Entry<I>>
    const shuffle: bool
    const rng: Generator

    /** Default seed, no shuffling. */
    constructor (generator: Generator, transforms: seq<Entry<I>>)
      modifies generator
      ensures this.transforms == transforms && !shuffle && rng == generator
      ensures rng.seed == DefaultSeed && rng.cursor == 0
    {
      this.transforms := transforms;
      shuffle := false;
      rng := generator;
      new;
      rng.SetSeed(DefaultSeed);
    }

    /** Default seed. */
    constructor WithShuffle(generator: Generator, transforms: seq<Entry<I>>, shuffle: bool)
      modifies generator
      ensures this.transforms == transforms && this.shuffle == shuffle && rng == generator
      ensures rng.seed == DefaultSeed && rng.cursor == 0
    {
      this.transforms := transforms;
      this.shuffle := shuffle;
      rng := generator;
      new;
      rng.SetSeed(DefaultSeed);
    }

    /** No shuffling. */
    constructor WithSeed(generator: Generator, seed: Long, transforms: seq<Entry<I>>)
      modifies generator
      ensures this.transforms == transforms && !shuffle && rng == generator
      ensures rng.seed == seed && rng.cursor == 0
    {
      this.transforms := transforms;
      shuffle := false;
      rng := generator;
      new;
      rng.SetSeed(seed);
    }

    /** Given seed and shuffle flag. */
    constructor Seeded(generator: Generator, seed: Long, transforms: seq<Entry<I>>, shuffle: bool)
      modifies generator
      ensures this.transforms == transforms && this.shuffle == shuffle && rng == generator
      ensures rng.seed == seed && rng.cursor == 0
    {
      this.transforms := transforms;
      this.shuffle := shuffle;
      rng := generator;
      new;
      rng.SetSeed(seed);
    }

    /** The caller's `random` is accepted and ignored. */
    constructor WithRandom<R>(generator: Generator, random: R, seed: Long, transforms: seq<Entry<I>>, shuffle: bool)
      modifies generator
      ensures this.transforms == transforms && this.shuffle == shuffle && rng == generator
      ensures rng.seed == seed && rng.cursor == 0
    {
      this.transforms := transforms;
      this.shuffle := shuffle;
      rng := generator;
      new;
      rng.SetSeed(seed);
    }

    /** A pipeline with a generator of its own, created and seeded here, which
        no other pipeline draws from. */
    constructor WithOwnGenerator(algorithm: Algorithm, seed: Long, transforms: seq<Entry<I>>, shuffle: bool)
      ensures this.transforms == transforms && this.shuffle == shuffle && fresh(rng)
      ensures rng.algorithm == algorithm && rng.seed == seed && rng.cursor == 0
    {
      this.transforms := transforms;
      this.shuffle := shuffle;
      rng := new Generator(algorithm, seed);
    }

    /** Runs the pipeline on `image`. When `shuffle` is set the list is first
        reordered by the swaps `picks` describes; then each entry, in list
        order, takes one draw from `rng` and fires when the draw is below its
        probability. The `random` argument plays no part in the result. */
    method Transform<R>(image: I, random: R, picks: seq<nat>) returns (result: I)
      requires shuffle ==> ValidPicks(picks, |transforms|)
      modifies this, rng
      ensures transforms == if shuffle then Shuffled(old(transforms), picks) else old(transforms)
      ensures multiset(transforms) == multiset(old(transforms))
      ensures rng.seed == old(rng.seed) && rng.cursor == old(rng.cursor) + |transforms|
      ensures result == Run(transforms, Draws(rng.algorithm, rng.seed, old(rng.cursor), |transforms|), image)
      ensures old(transforms) == [] ==> result == image && rng.cursor == old(rng.cursor)
    {
      if shuffle {
        transforms := Shuffled(transforms, picks);
      }
      var entries := transforms;
      ghost var draws := Draws(rng.algorithm, rng.seed, rng.cursor, |entries|);
      result := image;
      var i := 0;
      while i < |entries|
        invariant i <= |entries| && transforms == entries
        invariant rng.seed == old(rng.seed) && rng.cursor == old(rng.cursor) + i
        invariant result == Run(entries[..i], draws[..i], image)
      {
        var r := rng.NextDouble();
        assert r == draws[i];
        if r < entries[i].probability {
          result := entries[i].transform(result);
        }
        RunPrefixStep(entries, draws, i, image);
        i := i + 1;
      }
      assert entries[..i] == entries && draws[..i] == draws;
    }
  }

  /** Two non-shuffling pipelines with the same seed and list, each built just
      before its first call, give the same image on that call, even when they
      share one generator and whatever state that generator was in before. */
  method SeedDeterminism<I, R>(generator: Generator, seed: Long, entries: seq<Entry<I>>,
                               image: I, random: R, otherRandom: R)
    returns (first: I, second: I)
    modifies generator
    ensures first == second
    ensures first == Run(entries, Draws(generator.algorithm, seed, 0, |entries|), image)
  {
    var p := new Pipeline.WithSeed(generator, seed, entries);
    first := p.Transform(image, random, []);
    var q := new Pipeline.WithSeed(generator, seed, entries);
    second := q.Transform(image, otherRandom, []);
  }

  /** With a shared generator the seed alone does not fix a pipeline's first
      result: when both pipelines are built before either is called, the
      second one's first call continues the stream where the first left it. */
  method InterleavedConstruction<I>(generator: Generator, seed: Long, entries: seq<Entry<I>>, image: I)
    returns (first: I, second: I)
    modifies generator
    ensures first == Run(entries, Draws(generator.algorithm, seed, 0, |entries|), image)
    ensures second == Run(entries, Draws(generator.algorithm, seed, |entries|, |entries|), image)
  {
    var p := new Pipeline.WithSeed(generator, seed, entries);
    var q := new Pipeline.WithSeed(generator, seed, entries);
    first := p.Transform(image, (), []);
    second := q.Transform(image, (), []);
  }

  /** A concrete instance: one entry adding 1 with probability 0.5, and a
      stream whose first draw is 0.0 and whose later draws are 0.75. Two
      pipelines with seed 1234 and the same list give different first results. */
  method InterleavedCounterexample() returns (first: int, second: int)
    ensures first == 1 && second == 0
  {
    var algorithm: Algorithm := (s: Long, k: nat) => if k == 0 then 0.0 else 0.75;
    var generator := new Generator(algorithm, 0);
    var entries := [Entry(x => x + 1, 0.5)];
    first, second := InterleavedConstruction(generator, DefaultSeed, entries, 0);
    assert Draws(algorithm, DefaultSeed, 0, 1) == [0.0];
    assert Draws(algorithm, DefaultSeed, 1, 1) == [0.75];
  }

  /** With a generator of its own per pipeline, the seed fixes the first result
      whatever the order of construction and calls. */
  method OwnGeneratorDeterminism<I>(algorithm: Algorithm, seed: Long, entries: seq<Entry<I>>, image: I)
    returns (first: I, second: I)
    ensures first == second
    ensures first == Run(entries, Draws(algorithm, seed, 0, |entries|), image)
  {
    var p := new Pipeline.WithOwnGenerator(algorithm, seed, entries, false);
    var q := new Pipeline.WithOwnGenerator(algorithm, seed, entries, false);
    first := p.Transform(image, (), []);
    second := q.Transform(image, (), []);
  }

  /** The generator's state carries over from call to call: a second call on
      the same pipeline evaluates the list with the next |entries| draws. */
  method SuccessiveCalls<I>(algorithm: Algorithm, seed: Long, entries: seq<Entry<I>>, image: I)
    returns (first: I, second: I)
    ensures first == Run(entries, Draws(algorithm, seed, 0, |entries|), image)
    ensures second == Run(entries, Draws(algorithm, seed, |entries|, |entries|), first)
  {
    var p := new Pipeline.WithOwnGenerator(algorithm, seed, entries, false);
    first := p.Transform(image, (), []);
    second := p.Transform(first, (), []);
  }
}

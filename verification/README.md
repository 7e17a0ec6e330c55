# Probabilistic image-transform pipeline

A Dafny model of `ProbabilisticPipelineTransform` from the deeplearning4j examples. This is an image
transform built from a list of (transform, probability) entries. On each call it can first shuffle
the list in place. It then walks the list in order, takes one draw from its generator for each
entry, and applies that entry's transform when the draw is below the entry's probability.

- `draw_stream.dfy` (module `DrawStream`) models the generator, which is an Nd4j random source.
  A Java `long` seed selects a stream of draws in [0, 1). `setSeed` restarts the stream.
  `nextDouble` reads the next draw and moves a cursor past it. The generator's algorithm is a
  parameter of type `Algorithm`, and that type fixes the range of every draw.
- `pipeline.dfy` (module `ProbabilisticPipeline`) models the pipeline.
  - An entry is a datatype that pairs a transform `I -> I` with a `real` probability.
  - Images are an opaque type parameter. It includes the null end-of-stream value, which the
    pipeline never inspects.
  - `Run` is the specification: a left fold over the list.
  - The class `Pipeline` has the code's five constructors, the corrected `WithOwnGenerator`, and
    the imperative `Transform` method.
  - `Transform`'s loop invariants tie the image and the generator's cursor to `Run`.

The in-place reordering that `Collections.shuffle` performs is modelled on its swap sequence. For
`i` from the list length down to 2, the element at `i - 1` is exchanged with one at a position in
`[0, i - 1]`. Those positions are draws from the shuffle's own unseeded `java.util.Random`, so they
are a parameter (`picks`).

Two facts of the code shape the model:
- The code does not give each pipeline a generator of its own. It uses whatever `Nd4j.getRandom()`
  returns, which can be shared. So the five constructors of the code take the generator as a
  parameter and reseed it. `WithOwnGenerator` is the corrected form described under Findings.
- The code does not copy the caller's list. It shuffles that list in place.

## Model

| member | source | states |
|---|---|---|
| `ProbabilisticPipeline.Fires` | dl4j-examples/src/main/java/org/deeplearning4j/examples/convolution/ProbabilisticPipelineTransform.java:66 | Firing is the strict `<` of line 66, with no range check on the probability. The contract states the bounds: with a draw below 1, a probability of at least 1 fires; with a draw of at least 0, a probability of at most 0 does not. |
| `ProbabilisticPipeline.Run` | dl4j-examples/src/main/java/org/deeplearning4j/examples/convolution/ProbabilisticPipelineTransform.java:65-71 | The specification of the loop: a left fold in list order. Entry k takes draw k and, when it fires, replaces the image with its transform's result. When no entry fires, the image comes back as it came, the end-of-stream value included. |
| `ProbabilisticPipeline.Pipeline.Transform` | dl4j-examples/src/main/java/org/deeplearning4j/examples/convolution/ProbabilisticPipelineTransform.java:60-72 | Without `shuffle` the list is unchanged. With it, the list is the shuffled old list, so it holds the same (transform, probability) pairs as before. The result is the left fold `Run` over the list in its new order. Entry k uses the k-th draw from the generator's cursor on. Exactly one draw is consumed per entry, whether or not it fires, and the seed does not change. An empty list returns the input image and consumes no draws. The `random` argument does not appear in the result. |
| `ProbabilisticPipeline.Pipeline.constructor` | dl4j-examples/src/main/java/org/deeplearning4j/examples/convolution/ProbabilisticPipelineTransform.java:29-31 | Keeps the list. Shuffling is off. The generator is reseeded with the default seed 1234. |
| `ProbabilisticPipeline.Pipeline.WithShuffle` | dl4j-examples/src/main/java/org/deeplearning4j/examples/convolution/ProbabilisticPipelineTransform.java:33-35 | Keeps the list and the given shuffle flag. The generator is reseeded with 1234. |
| `ProbabilisticPipeline.Pipeline.WithSeed` | dl4j-examples/src/main/java/org/deeplearning4j/examples/convolution/ProbabilisticPipelineTransform.java:37-39 | Keeps the list. Shuffling is off. The generator is reseeded with the given seed. |
| `ProbabilisticPipeline.Pipeline.Seeded` | dl4j-examples/src/main/java/org/deeplearning4j/examples/convolution/ProbabilisticPipelineTransform.java:41-43 | Keeps the list and the shuffle flag. The generator is reseeded with the given seed. |
| `ProbabilisticPipeline.Pipeline.WithOwnGenerator` | dl4j-examples/src/main/java/org/deeplearning4j/examples/convolution/ProbabilisticPipelineTransform.java:46-50 | The corrected construction that line 46's comment describes: the pipeline creates a fresh generator of its own, seeded with the given seed at cursor 0. |
| `ProbabilisticPipeline.Pipeline.WithRandom` | dl4j-examples/src/main/java/org/deeplearning4j/examples/convolution/ProbabilisticPipelineTransform.java:45-51 | Keeps the list and the shuffle flag, and ignores the caller's `Random`. It reseeds the generator once (new seed, cursor 0). |
| `ProbabilisticPipeline.SeedDeterminism` | dl4j-examples/src/main/java/org/deeplearning4j/examples/convolution/ProbabilisticPipelineTransform.java:41-51 | Take two non-shuffling pipelines with the same seed and list on one shared generator, in any prior state. Construct the first and call it, then construct the second and call it. The two first calls give equal images, even with different `random` arguments. That image is the fold over the seed's first draws. |
| `ProbabilisticPipeline.InterleavedConstruction` | dl4j-examples/src/main/java/org/deeplearning4j/examples/convolution/ProbabilisticPipelineTransform.java:49-50 | Take the same two pipelines on one shared generator, but construct both before calling either. The first call folds over the seed's first block of draws. The second folds over the next block, not the first one again. |
| `ProbabilisticPipeline.InterleavedCounterexample` | dl4j-examples/src/main/java/org/deeplearning4j/examples/convolution/ProbabilisticPipelineTransform.java:49-50 | A concrete case of the above: one entry adding 1 with probability 0.5, on a stream whose first draw is 0.0 and whose later draws are 0.75. The two same-seed pipelines return 1 and 0 on input 0. |
| `ProbabilisticPipeline.OwnGeneratorDeterminism` | dl4j-examples/src/main/java/org/deeplearning4j/examples/convolution/ProbabilisticPipelineTransform.java:46-51 | With pipelines that each own their generator, same seed and list give equal first results even when both are constructed before either is called. |
| `ProbabilisticPipeline.SuccessiveCalls` | dl4j-examples/src/main/java/org/deeplearning4j/examples/convolution/ProbabilisticPipelineTransform.java:61-71 | Generator state carries across calls. A second call on the same pipeline uses the next block of draws, not the same ones again. |
| `DrawStream.Generator.SetSeed` | dl4j-examples/src/main/java/org/deeplearning4j/examples/convolution/ProbabilisticPipelineTransform.java:50 | After reseeding, the stream restarts at its first draw for the new seed. |
| `DrawStream.Generator.NextDouble` | dl4j-examples/src/main/java/org/deeplearning4j/examples/convolution/ProbabilisticPipelineTransform.java:66 | Returns the stream's draw at the cursor, which lies in [0, 1). Advances the cursor by one and leaves the seed alone. |
| `ProbabilisticPipeline.RunAppend` | dl4j-examples/src/main/java/org/deeplearning4j/examples/convolution/ProbabilisticPipelineTransform.java:65-69 | Entries are evaluated in list order. Running a concatenated list is running the first part and then the second part on its result. |
| `ProbabilisticPipeline.RunAppliesFired` | dl4j-examples/src/main/java/org/deeplearning4j/examples/convolution/ProbabilisticPipelineTransform.java:65-71 | The result is exactly the fired entries' transforms applied in list order, and the other entries change nothing. Which entries fire depends only on the draws and the entries, never on the image. |
| `ProbabilisticPipeline.CertainEntryFires` | dl4j-examples/src/main/java/org/deeplearning4j/examples/convolution/ProbabilisticPipelineTransform.java:66-67 | An entry with probability at least 1 fires on any draw in [0, 1). Its transform is applied to the image the earlier entries produced. |
| `ProbabilisticPipeline.ImpossibleEntryIsSkipped` | dl4j-examples/src/main/java/org/deeplearning4j/examples/convolution/ProbabilisticPipelineTransform.java:66 | An entry with probability at most 0 never fires. The result equals that of the list without it, with its draw removed. |
| `ProbabilisticPipeline.AllCertainFire` | dl4j-examples/src/main/java/org/deeplearning4j/examples/convolution/ProbabilisticPipelineTransform.java:65-69 | If every probability is at least 1, every transform fires, in list order. |
| `ProbabilisticPipeline.ShuffleDown` | dl4j-examples/src/main/java/org/deeplearning4j/examples/convolution/ProbabilisticPipelineTransform.java:62 | The swap loop of `Collections.shuffle`: for i from the list length down to 2, position i - 1 is exchanged with a position in [0, i - 1]. Every step keeps the multiset of entries. Positions from i on, which later swaps no longer reach, keep their values. |
| `ProbabilisticPipeline.Shuffled` | dl4j-examples/src/main/java/org/deeplearning4j/examples/convolution/ProbabilisticPipelineTransform.java:62 | The whole shuffle is a permutation: the multiset of (transform, probability) pairs is unchanged and so is the length, so no transform is ever evaluated against another entry's probability. |
| `ProbabilisticPipeline.NoneFire` | dl4j-examples/src/main/java/org/deeplearning4j/examples/convolution/ProbabilisticPipelineTransform.java:56-71 | If no probability is above 0, nothing fires. The image comes back as given, the end-of-stream value included. |

## Left out

- ProbabilisticPipeline.Pipeline.Transform: the promise of exactly one draw per entry, with entry k taking the k-th draw, holds only for transforms that leave the generator alone. A fired transform that itself draws from `Nd4j.getRandom()` takes further draws from the same generator at line 67; a nested pipeline is one example. Every later entry then sees shifted draws. Transforms here are pure functions and cannot draw.
- Null values in the list. Each of these throws `NullPointerException`, and none of them can be represented here, because the list, its entries, their transforms and their probabilities are always present values:
  - a null `transforms` list, at line 62 or line 65;
  - a null pair, at `tuple.getSecond()` on line 66, after its draw has been taken;
  - a null probability, when the `Double` is unboxed on line 66, after its draw has been taken;
  - a null transform, at line 67, but only when its entry fires.
- Shuffling an unmodifiable list: when `shuffle` is set and the list has two or more entries, `Collections.shuffle` at line 62 throws `UnsupportedOperationException`. A list of zero or one entries is never written to, so it does not throw. The list here is a value that can always be reordered.
- A transform that throws: transforms are total functions here. In the code, an exception aborts the loop after the earlier fired transforms have run, and the exception reaches the caller unchanged.
- Aliasing of the transform list: the list is a value. The code shuffles the caller's own `List` object in place, so the caller sees the new order. The model keeps only the pipeline's view of that order.
- The distribution of `Collections.shuffle`: only the swap sequence is modelled. Its choices are a parameter, and uniformity is not claimed.
- Nd4j's random algorithm: it is a parameter. Draws are reals in [0, 1), not IEEE doubles. Probabilities are reals, and they are compared exactly.
- Whether `Nd4j.getRandom()` is a global or per-thread object: the generator is passed to each constructor, and so it can be shared.
- The `BaseImageTransform` superclass, `ImageWritable` and OpenCV `Mat`: these are framework types. Images are an opaque type parameter.
- Concurrent calls on one pipeline or one generator: these are not modelled.

## Findings

| source | as written | input that shows it | evidently intended | confidence | as-written member | corrected member |
|---|---|---|---|---|---|---|
| dl4j-examples/src/main/java/org/deeplearning4j/examples/convolution/ProbabilisticPipelineTransform.java:46-50 | The pipeline reseeds whatever `Nd4j.getRandom()` returns, and that generator is shared by every pipeline on the thread. | Construct two pipelines with seed 1234 and the list [(add 1, 0.5)], then call each on 0. On a stream whose first draw is 0.0 and next 0.75, the first call returns 1 and the second returns 0. | The comment on line 46 says each pipeline creates its own generator, so the seed alone should fix each pipeline's draws. | medium, not executed; depends on `Nd4j.getRandom()` returning a shared instance | `ProbabilisticPipeline.InterleavedCounterexample` | `ProbabilisticPipeline.OwnGeneratorDeterminism` |

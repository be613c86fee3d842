/** The main loop of the sound classifier: each cycle collects a window of
    128 ADC readings, extracts its features, runs the network and reports the
    label of the most probable class with its probability. */
module SoundClassifier {

  import opened Wrappers
  import opened Reals
  import opened SoundFeatures
  import opened SoundNetwork

  /** Readings per window. */
  const SAMPLE_SIZE: nat := 128

  /** The class labels, in the order of the network's outputs. */
  const LABELS: seq<string> := ["CLAP", "KNOCK", "NOISE"]

  /** The analog input. `feed(k)` is what the `k`-th read returns; `readCount`
      counts the reads made so far. */
  class Adc {
    const feed: nat -> int
    var readCount: nat

    constructor (feed: nat -> int)
      ensures this.feed == feed && readCount == 0
    {
      this.feed := feed;
      readCount := 0;
    }

    /** `read_adc()`: the next reading. */
    method Read() returns (v: int)
      modifies this
      ensures v == feed(old(readCount)) && readCount == old(readCount) + 1
    {
      v := feed(readCount);
      readCount := readCount + 1;
    }
  }

  /** The `count` readings that follow the first `start` reads of `feed`. */
  function Window(feed: nat -> int, start: nat, count: nat): (w: seq<int>)
    ensures |w| == count
    ensures forall i :: 0 <= i < count ==> w[i] == feed(start + i)
  {
    seq(count, i requires 0 <= i < count => feed(start + i))
  }

  /** `collect_samples()`: exactly SAMPLE_SIZE reads, kept in read order. */
  method CollectSamples(adc: Adc) returns (samples: seq<int>)
    modifies adc
    ensures adc.readCount == old(adc.readCount) + SAMPLE_SIZE
    ensures samples == Window(adc.feed, old(adc.readCount), SAMPLE_SIZE)
  {
    samples := [];
    for k := 0 to SAMPLE_SIZE
      invariant adc.readCount == old(adc.readCount) + k
      invariant samples == Window(adc.feed, old(adc.readCount), k)
    {
      var v := adc.Read();
      samples := samples + [v];
    }
  }

  /** What a cycle reports: the class label `name` and its probability. */
  datatype Prediction = Prediction(name: string, confidence: real)

  /** `idx = probs.index(max(probs))`, then `labels[idx]` and `probs[idx]`:
      the confidence is the largest probability and the label is that of the
      first class reaching it. */
  function Select(probs: seq<real>): (r: Prediction)
    requires 0 < |probs| <= |LABELS|
    ensures r.confidence in probs
    ensures forall k :: 0 <= k < |probs| ==> probs[k] <= r.confidence
    ensures exists k :: 0 <= k < |probs| && probs[k] == r.confidence && r.name == LABELS[k]
                        && forall i :: 0 <= i < k ==> probs[i] < r.confidence
  {
    var idx := ArgMax(probs);
    Prediction(LABELS[idx], probs[idx])
  }

  /** The result of one cycle on a non-empty window: features, network, selection. */
  function Classify(samples: seq<int>, sqrt: real -> real, exp: real -> real): (r: Prediction)
    requires samples != [] && Positive(exp)
    ensures r.name in LABELS
    ensures 0.0 < r.confidence <= 1.0
  {
    var probs := Softmax(Logits(Features(samples, sqrt)), exp);
    var r := Select(probs);
    var k := ArgMax(probs);
    EntryAtMostSum(probs, k);
    r
  }

  /** One pass of the main `while True` body. */
  method Cycle(adc: Adc, sqrt: real -> real, exp: real -> real) returns (result: Prediction)
    requires Positive(exp)
    modifies adc
    ensures adc.readCount == old(adc.readCount) + SAMPLE_SIZE
    ensures result == Classify(Window(adc.feed, old(adc.readCount), SAMPLE_SIZE), sqrt, exp)
  {
    var samples := CollectSamples(adc);
    var features := ExtractFeatures(samples, sqrt);
    var probs := Predict(features.value, exp);
    result := Select(probs);
  }

  /** A silent window of zeros: all four features are 0, and the network
      ranks CLAP first. */
  lemma SilenceIsClap(sqrt: real -> real, exp: real -> real)
    requires sqrt(0.0) == 0.0
    requires Positive(exp) && Increasing(exp)
    ensures Features(Window(_ => 0, 0, SAMPLE_SIZE), sqrt) == [0.0, 0.0, 0.0, 0.0]
    ensures Classify(Window(_ => 0, 0, SAMPLE_SIZE), sqrt, exp).name == "CLAP"
  {
    var w := Window(_ => 0, 0, SAMPLE_SIZE);
    ConstantWindow(w, 0);
    assert Features(w, sqrt) == [0.0, 0.0, 0.0, 0.0];
    ZeroFeaturesFavourFirstClass(exp);
  }
}

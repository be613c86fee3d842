# Raspberry Pi sensor scripts — a Dafny model

This project models three MicroPython scripts for small boards:

- **Air piano** (`Rpi/air_piano/main.py`). An IR sensor is polled every 10 ms. When a hand is taken away, the buzzer plays one note. The note is chosen by how long the hand was held (C, D, E or A), or it is G when the release completes a double tap (two releases less than 400 ms apart).
- **Speed estimator** (`Rpi/speed_estimator/main.py`). An IR sensor is polled every 10 ms. A falling edge (a hand arrives) starts a timer. The next rising edge reports the elapsed time `duration` and a speed `1000 / (duration + 1)`.
- **Sound classifier** (`Rpi/sound_classifier/main.py`). Each cycle reads a window of 128 ADC samples and reduces it to the features `[mean, var, rms, zcr]`. It runs them through a fixed 4→6→3 network (ReLU hidden layer, softmax output) and reports the label of the most probable class (`CLAP`, `KNOCK` or `NOISE`) with its probability.

Layout, one module per file:

- `gpio.dfy` (`Gpio`): the values of a digital pin.
- `wrappers.dfy` (`Wrappers`): `Option`.
- `air_piano.dfy` (`AirPiano`): the air piano.
- `speed_estimator.dfy` (`SpeedEstimator`): the speed estimator.
- `reals.dfy` (`Reals`): sum, max and first-max index over exact reals.
- `sound_features.dfy` (`SoundFeatures`): feature extraction.
- `sound_network.dfy` (`SoundNetwork`): weight tables, layers and softmax.
- `sound_classifier.dfy` (`SoundClassifier`): sample collection and one cycle of the main loop.

Modelling choices:

- **The two IR scripts.** Each polling-loop body is modelled twice. A pure transition function `Next(state, reading, now)` is what the lemmas reason about. A class whose `Step` method updates the script's module-level variables in place, as the script does, is proved equal to `Next`. A reading is a `Gpio.PinValue`, 0 or 1, because that is what `Pin.value()` returns. Timestamps are unbounded integers.
- **One timestamp per poll.** In the air piano, the release reads the clock twice: once for the duration (line 46) and once for `now` (line 49). The model uses one timestamp `now` for both.
- **Exact reals.** The speed estimator's `1000 / (duration + 1)` and all of the sound classifier's arithmetic are floating point in MicroPython. The model computes both over exact `real` and claims nothing about float rounding.
- **`math.sqrt` and `math.exp`.** These are parameters of the model. `sqrt` is arbitrary. `exp` is required to be positive (`Positive`), and the lemmas about the argmax also require it to be strictly increasing (`Increasing`).
- **Division by zero.** Where the Python would raise `ZeroDivisionError`, the model returns `None`. That is the speed when `duration == -1`, and `extract_features` on an empty window. The script stops on that error, while `SpeedEstimator.Next` and `Reports` go on polling after a `Measurement(-1, None)`. With a clock that does not run backwards this case cannot arise (`ReportsNonNegative`).

Two facts about the code that shape the model:

- The code has no acquisition-error path. `read_adc` falls back from `adc.read()` to `adc.read_u16()` when the first call raises, and nothing in the main loop catches an error. A read that fails on both calls stops the script; the model's reads always succeed.
- `extract_features` fails only on an empty window, where it divides by `n = 0`. A window of one sample is accepted and gives `zcr = 0`.

## Model

| member | source | states |
|---|---|---|
| `AirPiano.Freq` | Rpi/air_piano/main.py:12-18 | The frequency played for a note is that note's entry in the note table, so it is one of the table's values. |
| `AirPiano.HoldNote` | Rpi/air_piano/main.py:65-79 | The duration buckets: C exactly when duration < 200, D exactly for 200 ≤ d < 600, E exactly for 600 ≤ d < 1200, A exactly for d ≥ 1200, and never G. So the buckets are disjoint and cover every duration. |
| `AirPiano.Next` | Rpi/air_piano/main.py:36-79 | A note is played exactly when the reading is 1 while holding. A step from a state with tap count in {0,1} leads to such a state again. |
| `AirPiano.PressStartsHold` | Rpi/air_piano/main.py:39-42 | Reading 0 sets holding. It sets start_time to now if not already holding, and keeps start_time otherwise. Last trigger and tap count are unchanged, and no note is played. |
| `AirPiano.IdleChangesNothing` | Rpi/air_piano/main.py:45 | Reading 1 while not holding changes nothing and plays nothing. |
| `AirPiano.ReleasePlaysOneNote` | Rpi/air_piano/main.py:45-79 | A release ends the hold, sets last_trigger to now and plays exactly one note. The note is G with the tap count reset to 0 when the counted taps reach 2. Otherwise it is the duration's note, with the tap count equal to the counted taps. |
| `AirPiano.CountedTaps` | Rpi/air_piano/main.py:52-55 | Definition of the tap count on a release: old + 1 within 400 ms of the last trigger, 1 otherwise. Its properties are stated by `CountedTapsRule`. |
| `AirPiano.CountedTapsRule` | Rpi/air_piano/main.py:52-55 | On release, the tap count becomes old + 1 when `now - last_trigger < 400` and 1 otherwise. From a tap count in {0,1} that is 1 or 2. |
| `AirPiano.Run` | Rpi/air_piano/main.py:35-79 | Definition of a finite run of the polling loop: the state after the polls and the notes played, in order. Its properties are stated by the lemmas below. |
| `AirPiano.Releases` | Rpi/air_piano/main.py:45 | Definition: the number of polls that read 1 while a hold is in progress. |
| `AirPiano.RunInvariant` | Rpi/air_piano/main.py:35-79 | Over any sequence of polls, the tap count stays in {0,1}, and the number of notes played equals the number of polls reading 1 while holding. |
| `AirPiano.InitRunInvariant` | Rpi/air_piano/main.py:28-31 | From the initial variables, the tap count is in {0,1} after any run. |
| `AirPiano.DoubleTapPlaysG` | Rpi/air_piano/main.py:52-63 | Two taps whose releases are under 400 ms apart, starting from a reset counter and no hold: the first plays its duration's note, the second plays G whatever its duration, and the counter ends reset with no hold. |
| `AirPiano.TapAfterDoubleTapIsSingle` | Rpi/air_piano/main.py:60-63 | From a reset counter and no hold, a tap plays its duration's note and leaves a count of 1 with no hold. |
| `AirPiano.RunAppend` | Rpi/air_piano/main.py:35-79 | Running two sequences of polls one after the other is running their concatenation, and the notes are those of the first followed by those of the second. |
| `AirPiano.TripleTapPlaysOneG` | Rpi/air_piano/main.py:52-79 | Three taps, the first two releases under 400 ms apart, from a reset counter: the notes are the first hold's note, G, then the third hold's note, so a triple tap plays G once. |
| `AirPiano.GestureDetector.constructor` | Rpi/air_piano/main.py:28-31 | The variables start as not holding, with start_time, last_trigger and tap_count all 0. |
| `AirPiano.GestureDetector.Step` | Rpi/air_piano/main.py:35-79 | The in-place update of the four variables gives the state and note of `Next`, and keeps the tap-count invariant. |
| `SpeedEstimator.Speed` | Rpi/speed_estimator/main.py:18 | `speed * (duration + 1) == 1000`. It is undefined (division by zero) exactly when duration is -1. |
| `SpeedEstimator.SpeedPositiveAndDecreasing` | Rpi/speed_estimator/main.py:18 | For 0 ≤ d1 < d2, both speeds exist and speed(d1) > speed(d2) > 0. |
| `SpeedEstimator.Next` | Rpi/speed_estimator/main.py:10-21 | `start` changes only on a 1→0 transition, and on one it becomes now. A report is made exactly on a 0→1 transition, with duration `now - start` and the speed of that duration. After the step, last_state is the reading. An unchanged reading changes nothing and reports nothing. |
| `SpeedEstimator.Reports` | Rpi/speed_estimator/main.py:9-22 | Definition of a finite run of the polling loop: the measurements reported, in order. Its properties are stated by `ReportsNonNegative` and `InitReportsPositive`. |
| `SpeedEstimator.ReportsNonNegative` | Rpi/speed_estimator/main.py:12-18 | If the timer was started no later than the last poll while the hand is present, and the clock does not run backwards, then every report has duration ≥ 0 and the speed of its duration. |
| `SpeedEstimator.InitReportsPositive` | Rpi/speed_estimator/main.py:6-18 | From `start = 0, last_state = 1` with non-decreasing time, every reported duration is ≥ 0 and every speed is defined and positive. |
| `SpeedEstimator.Estimator.constructor` | Rpi/speed_estimator/main.py:6-7 | The variables start as `start = 0`, `last_state = 1`. |
| `SpeedEstimator.Estimator.Step` | Rpi/speed_estimator/main.py:9-21 | The in-place update gives the state and report of `Next`. |
| `Reals.Sum` | Rpi/sound_classifier/main.py:54 | Definition of `sum`, accumulated from left to right (also used at lines 62 and 68). Its properties are stated by the `Sum…` lemmas. |
| `Reals.SumShifted` | Rpi/sound_classifier/main.py:62-65 | Subtracting c from every entry lowers the sum by n·c. |
| `Reals.SumScaled` | Rpi/sound_classifier/main.py:54-55 | Dividing every entry by a non-zero c divides the sum by c. |
| `Reals.SumNonNegative` | Rpi/sound_classifier/main.py:54 | A sum of non-negative entries is ≥ 0, and > 0 when non-empty with every entry positive. |
| `Reals.EntryAtMostSum` | Rpi/sound_classifier/main.py:54-55 | No non-negative entry exceeds the sum, so no probability exceeds 1. |
| `Reals.SumConstant` | Rpi/sound_classifier/main.py:62-68 | A sum of n copies of c is n·c. |
| `Reals.Max` | Rpi/sound_classifier/main.py:52 | `max(x)` is an entry of x and at least every entry. |
| `Reals.IndexOf` | Rpi/sound_classifier/main.py:121 | `list.index(v)` is a position holding v, with no earlier position holding v. |
| `Reals.ArgMax` | Rpi/sound_classifier/main.py:121 | `probs.index(max(probs))` is a position whose entry is at least every entry and strictly greater than every earlier one (the first maximum). |
| `Reals.ArgMaxOfSameOrder` | Rpi/sound_classifier/main.py:121 | Two sequences whose entries compare the same way have the same first maximum. |
| `SoundFeatures.Mean` | Rpi/sound_classifier/main.py:62 | The mean times the window length is the sum of the samples. |
| `SoundFeatures.Centered` | Rpi/sound_classifier/main.py:65 | The centered samples have the window's length. |
| `SoundFeatures.CenteredSumsToZero` | Rpi/sound_classifier/main.py:62-65 | The centered samples sum to 0. |
| `SoundFeatures.Variance` | Rpi/sound_classifier/main.py:68 | Definition of the population variance of the centered samples. Its sign is stated by `VarianceNonNegative`. |
| `SoundFeatures.VarianceNonNegative` | Rpi/sound_classifier/main.py:68 | The population variance is ≥ 0. |
| `SoundFeatures.Crossings` | Rpi/sound_classifier/main.py:74-77 | Definition of the crossing count, accumulated from left to right as the loop does. Its properties are stated by the `Crossings…` lemmas. |
| `SoundFeatures.CrossingsIsCount` | Rpi/sound_classifier/main.py:74-77 | The loop's crossing count is the number of i in [1, n) with `norm[i-1] * norm[i] < 0`. |
| `SoundFeatures.CrossingsAtMostPairs` | Rpi/sound_classifier/main.py:74-77 | The crossing count of a non-empty signal is at most n - 1. |
| `SoundFeatures.CrossingsAllPairs` | Rpi/sound_classifier/main.py:74-77 | If every adjacent pair has opposite signs, the count is n - 1. |
| `SoundFeatures.CrossingsNoPairs` | Rpi/sound_classifier/main.py:74-77 | If no adjacent pair has opposite signs, the count is 0. |
| `SoundFeatures.ZeroCrossingRate` | Rpi/sound_classifier/main.py:74-78 | Definition: the crossing count of the centered samples divided by n. Its range is stated by `ZeroCrossingRateBounds`. |
| `SoundFeatures.ZeroCrossingRateBounds` | Rpi/sound_classifier/main.py:74-78 | `0 ≤ zcr ≤ (n - 1) / n`. |
| `SoundFeatures.Features` | Rpi/sound_classifier/main.py:81 | The feature vector has exactly 4 entries, and the third (rms) is sqrt of the second (var). |
| `SoundFeatures.ExtractFeatures` | Rpi/sound_classifier/main.py:58-81 | An empty window fails with division by zero. Otherwise the result is `[mean, var, rms, zcr]`, in that order, with the zcr loop's count equal to the crossing count. |
| `SoundFeatures.ConstantWindow` | Rpi/sound_classifier/main.py:62-78 | A constant window has the constant as mean, variance 0 and zcr 0. |
| `SoundFeatures.AlternatingCentered` | Rpi/sound_classifier/main.py:62-65 | An even-length window `a, -a, …` has mean 0, so centering leaves it unchanged. |
| `SoundFeatures.AlternatingRate` | Rpi/sound_classifier/main.py:74-78 | An even-length window `a, -a, …` with a ≠ 0 has zcr (n - 1)/n. |
| `SoundFeatures.AlternatingWindow` | Rpi/sound_classifier/main.py:62-78 | An even-length window `a, -a, …` has mean 0 and variance a². For a ≠ 0 it has zcr (n - 1)/n. |
| `SoundFeatures.AlternatingWindow128` | Rpi/sound_classifier/main.py:62-78 | `[100, -100]` repeated 64 times has mean 0, variance 10000 and zcr 127/128 = 0.9921875. |
| `SoundNetwork.Shapes` | Rpi/sound_classifier/main.py:26-43 | The weight tables are 6×4 with 6 biases, and 3×6 with 3 biases. |
| `SoundNetwork.Relu` | Rpi/sound_classifier/main.py:48-49 | `relu(x)` is ≥ 0, is ≥ x, and is either x or 0: it is max(x, 0). |
| `SoundNetwork.Affine` | Rpi/sound_classifier/main.py:88-90 | Definition of the inner loop's accumulation over the first k inputs (also used at lines 96-98). Its value is stated by `AffineIsDotProduct`. |
| `SoundNetwork.AffineIsDotProduct` | Rpi/sound_classifier/main.py:88-90 | The accumulation `s = b; s += w[j] * x[j]` computes `b + Σ_j w[j] * x[j]`. |
| `SoundNetwork.Hidden` | Rpi/sound_classifier/main.py:86-91 | The hidden layer has 6 entries, each ≥ 0. |
| `SoundNetwork.Output` | Rpi/sound_classifier/main.py:94-99 | The output layer has 3 entries. |
| `SoundNetwork.Logits` | Rpi/sound_classifier/main.py:86-99 | The network's logits have 3 entries. |
| `SoundNetwork.HiddenLayer` | Rpi/sound_classifier/main.py:86-91 | The first loop of `predict` builds 6 entries, each `relu(B1[i] + Σ_j W1[i][j] * f[j])` and so each ≥ 0. |
| `SoundNetwork.OutputLayer` | Rpi/sound_classifier/main.py:94-99 | The second loop of `predict` builds 3 entries, each `B2[i] + Σ_j W2[i][j] * hidden[j]`. |
| `SoundNetwork.Shifted` | Rpi/sound_classifier/main.py:52-53 | Every shifted logit `x[i] - max_x` is ≤ 0, and at least one equals 0. |
| `SoundNetwork.Normalize` | Rpi/sound_classifier/main.py:54-55 | Dividing positive values by their (positive) sum gives positive entries that sum to 1. |
| `SoundNetwork.Exps` | Rpi/sound_classifier/main.py:53 | The exponentials of the shifted logits are positive, one per logit. |
| `SoundNetwork.Softmax` | Rpi/sound_classifier/main.py:51-55 | `softmax(x)` has one entry per logit, each > 0, summing to 1. |
| `SoundNetwork.SoftmaxShiftInvariant` | Rpi/sound_classifier/main.py:51-55 | Adding a constant to every logit leaves the softmax unchanged. |
| `SoundNetwork.SoftmaxKeepsOrder` | Rpi/sound_classifier/main.py:51-55 | For an increasing exp, two softmax entries compare as their logits do. |
| `SoundNetwork.SoftmaxKeepsArgMax` | Rpi/sound_classifier/main.py:51-55 | For an increasing exp, softmax and logits have the same first maximum. |
| `SoundNetwork.Predict` | Rpi/sound_classifier/main.py:84-101 | `predict(f)` is the softmax of the two layers' output: 3 probabilities summing to 1. |
| `SoundNetwork.ZeroFeatureLogits` | Rpi/sound_classifier/main.py:26-43 | For features (0,0,0,0), the logits from the weight tables are exactly (0.147, -0.0765, 0.0845). |
| `SoundNetwork.ZeroFeaturesFavourFirstClass` | Rpi/sound_classifier/main.py:84-101 | For features (0,0,0,0), the most probable class is the first one. |
| `SoundClassifier.Adc.constructor` | Rpi/sound_classifier/main.py:11-14 | The ADC starts with no reads made. |
| `SoundClassifier.Adc.Read` | Rpi/sound_classifier/main.py:17-21 | A read returns the source's next reading and counts one read. |
| `SoundClassifier.Window` | Rpi/sound_classifier/main.py:104-109 | A window of `count` readings holds the source's readings in read order. |
| `SoundClassifier.CollectSamples` | Rpi/sound_classifier/main.py:104-109 | `collect_samples` makes exactly 128 reads and returns them in read order. |
| `SoundClassifier.Select` | Rpi/sound_classifier/main.py:121-122 | The confidence is an entry of probs and at least every entry. The label is that of the first class whose probability equals the confidence. |
| `SoundClassifier.Classify` | Rpi/sound_classifier/main.py:115-122 | One cycle's result on a non-empty window has one of the three labels and a confidence in (0, 1]. |
| `SoundClassifier.Cycle` | Rpi/sound_classifier/main.py:114-124 | One pass of the main loop reads exactly 128 samples, then extracts, predicts and selects. It reports `Classify` of those samples. |
| `SoundClassifier.SilenceIsClap` | Rpi/sound_classifier/main.py:114-124 | A window of 128 zeros has features (0,0,0,0) when sqrt(0) = 0, and for an increasing exp it is labelled CLAP. |

## Left out

- Hardware setup and access are not modelled. This covers `Pin`, `PWM` and `ADC` construction, including the ESP32/Pico constructor fallback, and the buzzer `play` routine. Pin readings, clock values and ADC readings are inputs. Notes, speed reports and predictions are outputs.
- `read_adc`'s fallback from `adc.read()` to `adc.read_u16()`: the two board-specific read calls are modelled as one abstract `Adc.Read`, and the source's reading range is not modelled.
- `utime.sleep_ms`, `utime.sleep_us`, `print` and `round` have no logical content here, so they are not modelled.
- The `while True` loops are not modelled as loops. Each loop body is one `Step` (or `Cycle`). `Run` and `Reports` cover finite sequences of polls.
- The wrap-around of `utime.ticks_ms` and `ticks_diff` is not modelled. Timestamps are unbounded integers.
- `AirPiano.Next`, `AirPiano.GestureDetector.Step`: use one timestamp for both clock reads of a release. The small gap between the duration's clock read and `now` is not modelled.
- `math.sqrt` and `math.exp` are parameters. The model does not compute them and proves nothing about their float results. Numerical properties of the softmax beyond positivity, summing to 1, shift invariance and order are not stated.
- Floating-point rounding is not modelled: all sound-classifier arithmetic is exact over reals.
- `SpeedEstimator.Speed`, `SpeedEstimator.SpeedPositiveAndDecreasing`: the speed is computed exactly over reals. Float rounding is not modelled, nor its effect for large durations, where `1000 / (d + 1)` and `1000 / (d + 2)` can round to the same float, so the strict decrease holds only over reals.
- A read for which both `adc.read()` and `adc.read_u16()` raise stops the script; `Adc.Read` always returns a value.

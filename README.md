# Direction-of-arrival simulator and estimator

The model covers two classes of the `simulador_sinais` package.

The first is `SimuladorAntenasDoA`, modelled as `Simulator.AntennaArraySimulator`. It
simulates a carrier arriving at a linear antenna array:

- Antennas are registered by name at a position on the x axis.
- The antenna with the smallest x becomes the time reference.
- A delay table gives each antenna's time difference of arrival,
  `tdoa = (x - x_ref)·cos θ / c`.
- Each antenna gets one noisy I/Q tone of `N = int(Fs·T)` samples at its delay.
- Saving produces one `prefix_name.iq` path per signal.

The second is `AnalisadorDoA`, modelled as `Analyser.DoAAnalyser` and pure functions over it.
It estimates the angle of arrival from two sample vectors:

- The carrier bin is the argmax of the reference spectrum's magnitude.
- The phase difference at that bin is wrapped by `arctan2(sin, cos)`.
- The phase becomes a cosine through the factor `λ / (2π·d)`, clamped to [-1, 1].
- That cosine goes through `arccos`, then to degrees.
- A negative phase folds the angle to `180 - angle`.
- Vectors of different lengths give NaN.

Module layout:

- `Outcomes` holds the `Result` and `Status` wrappers used for Python's exceptions.
- `Numerics` holds the numpy functions (pi, cos, sin, arctan2, arccos, fft, abs, angle). They
  are uninterpreted function values of a `Numerics` record. Their only assumed laws are
  collected in `Numerics.Lawful`. `LawfulNumericsExist` shows those laws are consistent.
- `OrderedDict` models a Python dict with string keys: a map plus the insertion order of its
  keys, which is the order iteration follows.
- `Simulator` holds the simulator class: its dict fields, the loops that fill them, and the
  lemmas about the delay and signal tables.
- `Analyser` holds the estimator. Its configuration is fixed at construction, so it is a
  value. An estimate is a function of that value and the two vectors, so estimating cannot
  change the configuration.

Python's exceptions become error values:

- `SimError.NoAntennas`: delays computed, or signals generated, with no antenna.
- `SimError.NegativeSampleCount`: numpy's `randn` refuses a negative `N`.
- `SimError.SignalsNotGenerated`: saving before generating.
- `EstimateError.EmptySignal`: the FFT of an empty vector.
- `EstimateError.ZeroSpacing`: `λ / d` with `d = 0`.

Where the estimator's documentation and its code disagree, the model follows the code:

- Identical inputs give 90°, not 0°.
- With positive λ and d, the fold at `simulador_sinais/Analyser.py:89-90` maps every result
  into [0°, 90°]. An angle above 90° is never returned, although the comment on line 88
  says a negative phase means a source beyond 90°.
- The angle is non-increasing in |Δφ|, not increasing.

## Model

| member | source | states |
|---|---|---|
| Numerics.LawfulNumericsExist | simulador_sinais/Analyser.py:44-60 | the laws assumed of pi, cos, arccos, arctan2 and fft can all hold at once, so no estimator property rests on inconsistent axioms |
| Numerics.ArccosZero | simulador_sinais/Analyser.py:84 | arccos(0) is a right angle, π/2 |
| Numerics.DegreesOfRightAngle | simulador_sinais/Analyser.py:85 | np.degrees of π/2 is 90 |
| Numerics.DegreesOfSupplement | simulador_sinais/Analyser.py:85-90 | degrees(π - r) = 180 - degrees(r), which is how the fold relates to arccos symmetry |
| Numerics.DegreesMonotone | simulador_sinais/Analyser.py:85 | converting to degrees preserves order |
| OrderedDict.Dict.Put | simulador_sinais/SimuladorAntenas.py:39 | `d[k] = v` sets k's entry to v and changes no other entry; a new key goes to the end of the iteration order, an existing key keeps its place; validity is preserved |
| OrderedDict.Dict.Items | simulador_sinais/SimuladorAntenas.py:50 | `d.items()` yields the keys in iteration order, each with its stored value |
| OrderedDict.Empty | simulador_sinais/SimuladorAntenas.py:27-29 | `{}` is a valid dict with no entry and an empty order |
| OrderedDict.FromPairs | simulador_sinais/SimuladorAntenas.py:55-66 | filling a fresh dict entry by entry always gives a valid dict |
| OrderedDict.FromPairsStep | simulador_sinais/SimuladorAntenas.py:58-66 | filling one more pair is one more assignment `d[k] = v` on the dict filled so far |
| OrderedDict.FromDistinctPairs | simulador_sinais/SimuladorAntenas.py:55-66 | with distinct keys, the filled dict iterates in exactly the insertion order and stores every pair's value |
| OrderedDict.ItemsRoundTrip | simulador_sinais/SimuladorAntenas.py:50 | rebuilding a dict from its own items gives back the same dict |
| Simulator.Truncate | simulador_sinais/SimuladorAntenas.py:23 | `int()` truncates toward zero: the result has the argument's sign and lies within 1 of it, on the side of zero |
| Simulator.InsertByX | simulador_sinais/SimuladorAntenas.py:50 | one insertion step of the sort adds exactly that entry, as a multiset |
| Simulator.SortByX | simulador_sinais/SimuladorAntenas.py:50 | the sort of the antenna entries by x is a permutation of them |
| Simulator.InsertMembers | simulador_sinais/SimuladorAntenas.py:50 | after an insertion step, the members are the old ones plus the inserted entry |
| Simulator.InsertKeepsSorted | simulador_sinais/SimuladorAntenas.py:50 | inserting into an x-sorted list keeps it x-sorted |
| Simulator.SortByXSorted | simulador_sinais/SimuladorAntenas.py:50 | `sorted(..., key=x)` is ascending in x |
| Simulator.InsertKeepsKeysDistinct | simulador_sinais/SimuladorAntenas.py:50 | inserting an entry with a new name keeps the names distinct |
| Simulator.SortKeepsKeysDistinct | simulador_sinais/SimuladorAntenas.py:50 | sorting the entries of a dict keeps their names distinct |
| Simulator.SortedHeadIsEarliestMinimum | simulador_sinais/SimuladorAntenas.py:50-53 | the head of the stable sort is an entry of minimum x, and no earlier entry has that x |
| Simulator.SortedAntennasSpec | simulador_sinais/SimuladorAntenas.py:50 | the sorted geometry is ascending in x, has distinct names, holds every registered antenna with its position and nothing else, and is empty only when no antenna is registered |
| Simulator.ReferenceIsMinimum | simulador_sinais/SimuladorAntenas.py:50-53 | the reference is a registered antenna whose x is minimal over all antennas |
| Simulator.ReferenceIsEarliestMinimum | simulador_sinais/SimuladorAntenas.py:50-53 | among antennas tied at the minimum x, the reference is the one registered first |
| Simulator.IndexOf | simulador_sinais/SimuladorAntenas.py:50-53 | position of the first occurrence of a name in the registration order |
| Simulator.DelayPairs | simulador_sinais/SimuladorAntenas.py:58-66 | the delay entries are produced in the sorted antenna order |
| Simulator.DelayTableKeys | simulador_sinais/SimuladorAntenas.py:55-66 | the rebuilt table's keys are exactly the antenna names, iterated in sorted-position order |
| Simulator.DelayTableValues | simulador_sinais/SimuladorAntenas.py:58-66 | every entry of the table is (x - x_ref)·cos θ / c for that antenna |
| Simulator.DelayTableSpec | simulador_sinais/SimuladorAntenas.py:55-66 | the rebuilt table has exactly the antenna names as keys, each mapped to (x - x_ref)·cos θ / c; the reference maps to 0; keys iterate in ascending position |
| Simulator.DelaysFollowPositions | simulador_sinais/SimuladorAntenas.py:50-65 | when cos θ >= 0, every delay is >= 0 and delays are non-decreasing along the table order |
| Simulator.DelayMonotone | simulador_sinais/SimuladorAntenas.py:62-65 | for cos θ >= 0, a larger x never gives a smaller delay |
| Simulator.DelayBound | simulador_sinais/SimuladorAntenas.py:62-65 | one delay is at most the free-space travel time over the antenna's offset, in magnitude |
| Simulator.DelayWithinTravelTime | simulador_sinais/SimuladorAntenas.py:62-65 | with a lawful cosine, every antenna's delay lies within ±(x - x_ref)/c |
| Simulator.NoisyTone | simulador_sinais/SimuladorAntenas.py:82-93 | each generated vector has exactly N samples |
| Simulator.SignalPairs | simulador_sinais/SimuladorAntenas.py:81-93 | signals are produced for the delay-table keys, in delay-table order |
| Simulator.SignalTableSpec | simulador_sinais/SimuladorAntenas.py:79-93 | the signal map has the same keys and order as the delay table, with N samples per signal |
| Simulator.GeneratedSignalsSpec | simulador_sinais/SimuladorAntenas.py:76-93 | after generation, the signal keys are exactly the antenna names, each signal has N samples, and the order is ascending position |
| Simulator.IqPathInjective | simulador_sinais/SimuladorAntenas.py:107 | `prefix_name.iq` determines the name: different antennas get different files |
| Simulator.FillSignals | simulador_sinais/SimuladorAntenas.py:79-93 | the loop leaves a fresh dict holding one noisy tone per delay-table entry, in table order, with antenna i using noise draws 2Ni to 2N(i+1) |
| Simulator.AntennaArraySimulator.constructor | simulador_sinais/SimuladorAntenas.py:14-29 | N = int(Fs·T), λ = c/f, θ is converted to radians, and all three dicts start empty |
| Simulator.AntennaArraySimulator.AddAntenna | simulador_sinais/SimuladorAntenas.py:31-39 | the antenna is stored at (x, 0.0), replacing only its own previous entry; signals and delays are untouched |
| Simulator.AntennaArraySimulator.ComputeDelays | simulador_sinais/SimuladorAntenas.py:41-66 | fails with NoAntennas exactly when no antenna is registered, leaving the table as it was; otherwise the table is rebuilt as the delay table of the current geometry |
| Simulator.AntennaArraySimulator.GenerateSignals | simulador_sinais/SimuladorAntenas.py:76-93 | fails on empty geometry with nothing changed; otherwise recomputes the delays; with N < 0 it fails with an emptied signal map; otherwise it replaces the signal map with one noisy tone per antenna, keyed by antenna name, in ascending position |
| Simulator.AntennaArraySimulator.SaveIqFiles | simulador_sinais/SimuladorAntenas.py:96-116 | fails with SignalsNotGenerated exactly when no signal exists; otherwise returns one path `prefix_name.iq` per signal, in the signal map's order, all distinct |
| Analyser.NewAnalyser | simulador_sinais/Analyser.py:13-22 | the configuration is stored as given, and λ·f = c, with λ positive exactly when f is |
| Analyser.ArgMax | simulador_sinais/Analyser.py:49 | a valid index whose value is >= every other, with every earlier value strictly smaller |
| Analyser.Magnitudes | simulador_sinais/Analyser.py:49 | np.abs is applied to each bin of the spectrum |
| Analyser.CarrierBin | simulador_sinais/Analyser.py:44-49 | the carrier bin is a valid index of the reference spectrum with the largest magnitude, the first such |
| Analyser.EstimatePhase | simulador_sinais/Analyser.py:38-62 | an empty vector raises; otherwise the phase lies in [-π, π] and differs from the raw carrier-bin phase difference by whole turns |
| Analyser.Clamp | simulador_sinais/Analyser.py:81 | the clipped cosine lies in [-1, 1] and equals the raw value when that is already in range |
| Analyser.ClampIsNearest | simulador_sinais/Analyser.py:81 | the clipped value is the point of [-1, 1] nearest to the raw value |
| Analyser.EstimateDoA | simulador_sinais/Analyser.py:64-94 | NaN exactly when the lengths differ; an error exactly for empty vectors or zero spacing; otherwise an angle, in [0°, 90°] when λ and d are positive |
| Analyser.RawCosineSign | simulador_sinais/Analyser.py:77-78 | with positive λ and d, the raw cosine has the sign of the phase difference |
| Analyser.RawCosineMonotone | simulador_sinais/Analyser.py:77-78 | with positive λ and d, the raw cosine grows with the phase difference |
| Analyser.RawCosineOdd | simulador_sinais/Analyser.py:77-78 | negating the phase difference negates the raw cosine |
| Analyser.FoldLandsInFirstQuadrant | simulador_sinais/Analyser.py:77-90 | with positive λ and d, the folded angle always lies in [0°, 90°] |
| Analyser.AngleDependsOnMagnitude | simulador_sinais/Analyser.py:77-90 | the angle for -Δφ equals the angle for Δφ |
| Analyser.AngleNonIncreasing | simulador_sinais/Analyser.py:77-90 | with positive λ and d, a larger |Δφ| never gives a larger angle |
| Analyser.SelfComparisonIsBroadside | simulador_sinais/Analyser.py:53-85 | a vector compared with itself gives Δφ = 0, cos θ = 0 and an angle of exactly 90° |

## Left out

- Floating point: numpy's pi, cos, sin, arctan2, arccos, fft, abs and angle are abstract real
  functions constrained only by `Numerics.Lawful`. The model does not claim the estimate
  recovers the simulated angle, because that depends on the real FFT numerics.
- The complex64 cast of the clean tone (`simulador_sinais/SimuladorAntenas.py:87`) and all
  rounding are left out. Arithmetic is on exact reals.
- Gaussian noise is not modelled as random. `GenerateSignals` takes the stream of
  standard-normal values that `randn` would yield as a parameter `draws`.
- File I/O is left out:
  - `SaveIqFiles` returns the path list but does not write the files (`tofile`);
  - `obter_sinal_do_arquivo` (reading an `.iq` file, with its not-found and empty-file
    errors) is not part of this model.
- Console output is left out: the prints, and the phase and sample-delay values computed only
  for printing (`simulador_sinais/SimuladorAntenas.py:69-73`).
- Simulator.AntennaArraySimulator.constructor: a frequency of 0 is excluded by a precondition
  instead of being modelled as the ZeroDivisionError it raises.
- Analyser.NewAnalyser: a frequency of 0 is excluded by a precondition, for the same reason.
- Analyser.EstimateDoA: zero spacing is modelled as an error value, as for a Python float. A
  numpy float spacing would give ±inf or NaN instead.
- The default prefix `"sinal_antena"` is the constant `Simulator.DefaultPrefix`. Python's
  default-argument mechanism itself is not modelled.
- `amostrasIQ/simulador_4_antenas.py`, the matplotlib interface under `interface_python/` and
  the driver `simulador_sinais/main.py` are not part of this model: they are scripts and UI
  with no logic of their own beyond these two classes.

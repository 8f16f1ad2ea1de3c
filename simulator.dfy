/**
 * The antenna-array signal simulator (class SimuladorAntenasDoA of
 * simulador_sinais/SimuladorAntenas.py): named antennas on a line, a delay table relative
 * to the antenna with the smallest x, one noisy I/Q tone per antenna, and the list of
 * `.iq` paths the signals are saved under.
 */
module Simulator {
  import opened Outcomes
  import opened Numerics
  import opened OrderedDict

  /** A point of the array plane; antennas are registered on the x axis (y = 0). */
  datatype Position = Position(x: real, y: real)

  /** A dict entry of the geometry: antenna name and position. */
  type Antenna = (string, Position)

  /** A complex sample vector. */
  type Signal = seq<Complex>

  /** The ValueErrors the simulator raises. */
  datatype SimError =
    | NoAntennas           // delays computed (or signals generated) with no antenna registered
    | NegativeSampleCount  // numpy's randn refuses a negative number of samples
    | SignalsNotGenerated  // saving before any signal was generated

  /** Standard deviation of the noise added to each of I and Q. */
  const NoiseAmplitude: real := 0.05

  /** Python's int() of a real: truncation toward zero. */
  function Truncate(x: real): (n: int)
    ensures x >= 0.0 ==> 0 <= n && n as real <= x < n as real + 1.0
    ensures x < 0.0 ==> n <= 0 && n as real - 1.0 < x <= n as real
  {
    if x >= 0.0 then x.Floor else -((-x).Floor)
  }

  /** Default file-name prefix of the saved signals. */
  const DefaultPrefix: string := "sinal_antena"

  // ---------------------------------------------------------------------------
  // Sorting the geometry by position (Python's stable `sorted` with key x)
  // ---------------------------------------------------------------------------

  ghost predicate SortedByX(s: seq<Antenna>) {
    forall i, j :: 0 <= i < j < |s| ==> s[i].1.x <= s[j].1.x
  }

  /** Inserts e after every entry of s whose x is not greater than e's. */
  function InsertByX(e: Antenna, s: seq<Antenna>): (r: seq<Antenna>)
    ensures |r| == |s| + 1
    ensures multiset(r) == multiset(s) + multiset{e}
  {
    if s == [] || e.1.x < s[0].1.x then [e] + s
    else
      assert s == [s[0]] + s[1..];
      [s[0]] + InsertByX(e, s[1..])
  }

  /** Stable insertion sort of the entries by x. */
  function SortByX(s: seq<Antenna>): (r: seq<Antenna>)
    ensures |r| == |s|
    ensures multiset(r) == multiset(s)
  {
    if s == [] then []
    else
      assert s == s[..|s| - 1] + [s[|s| - 1]];
      InsertByX(s[|s| - 1], SortByX(s[..|s| - 1]))
  }

  lemma InsertMembers(e: Antenna, s: seq<Antenna>)
    ensures forall a :: a in InsertByX(e, s) <==> a == e || a in s
  {
    var r := InsertByX(e, s);
    forall a ensures a in r <==> a == e || a in s {
      assert a in r <==> a in multiset(r);
      assert a in s <==> a in multiset(s);
    }
  }

  lemma {:induction false} InsertKeepsSorted(e: Antenna, s: seq<Antenna>)
    requires SortedByX(s)
    ensures SortedByX(InsertByX(e, s))
  {
    if s != [] && !(e.1.x < s[0].1.x) {
      var t := InsertByX(e, s[1..]);
      InsertKeepsSorted(e, s[1..]);
      InsertMembers(e, s[1..]);
      forall j | 0 <= j < |t| ensures s[0].1.x <= t[j].1.x {
        assert t[j] in t;
        if t[j] != e {
          var m :| 0 <= m < |s[1..]| && s[1..][m] == t[j];
          assert s[m + 1] == t[j];
        }
      }
      assert InsertByX(e, s) == [s[0]] + t;
    }
  }

  /** The sorted geometry is in ascending order of x. */
  lemma {:induction false} SortByXSorted(s: seq<Antenna>)
    ensures SortedByX(SortByX(s))
  {
    if s != [] {
      SortByXSorted(s[..|s| - 1]);
      InsertKeepsSorted(s[|s| - 1], SortByX(s[..|s| - 1]));
    }
  }

  lemma {:induction false} InsertKeepsKeysDistinct(e: Antenna, s: seq<Antenna>)
    requires Distinct(Keys(s)) && e.0 !in Keys(s)
    ensures Distinct(Keys(InsertByX(e, s)))
  {
    var r := InsertByX(e, s);
    if s == [] || e.1.x < s[0].1.x {
      forall i, j | 0 <= i < j < |r| ensures Keys(r)[i] != Keys(r)[j] {
        if i > 0 {
          assert Keys(s)[i - 1] != Keys(s)[j - 1];
        } else {
          assert Keys(s)[j - 1] == r[j].0;
        }
      }
    } else {
      var t := InsertByX(e, s[1..]);
      assert Keys(s[1..]) == Keys(s)[1..];
      forall i, j | 0 <= i < j < |s[1..]| ensures Keys(s[1..])[i] != Keys(s[1..])[j] {
        assert Keys(s)[i + 1] != Keys(s)[j + 1];
      }
      InsertKeepsKeysDistinct(e, s[1..]);
      InsertMembers(e, s[1..]);
      assert r == [s[0]] + t;
      forall i, j | 0 <= i < j < |r| ensures Keys(r)[i] != Keys(r)[j] {
        if i > 0 {
          assert Keys(t)[i - 1] != Keys(t)[j - 1];
        } else {
          assert t[j - 1] in t;
          if t[j - 1] == e {
            assert Keys(s)[0] == s[0].0;
          } else {
            var m :| 0 <= m < |s[1..]| && s[1..][m] == t[j - 1];
            assert Keys(s)[0] != Keys(s)[m + 1];
          }
        }
      }
    }
  }

  /** Sorting keeps the names distinct. */
  lemma {:induction false} SortKeepsKeysDistinct(s: seq<Antenna>)
    requires Distinct(Keys(s))
    ensures Distinct(Keys(SortByX(s)))
  {
    if s != [] {
      var init := s[..|s| - 1];
      DistinctInit(s);
      SortKeepsKeysDistinct(init);
      var t := SortByX(init);
      forall j | 0 <= j < |t| ensures Keys(t)[j] != s[|s| - 1].0 {
        assert t[j] in multiset(init);
        var m :| 0 <= m < |init| && init[m] == t[j];
        assert Keys(init)[m] == t[j].0;
      }
      InsertKeepsKeysDistinct(s[|s| - 1], t);
    }
  }

  /**
   * Stability where it matters: the head of the sorted geometry is the earliest entry
   * (in dict order) among those with the smallest x.
   */
  lemma {:induction false} SortedHeadIsEarliestMinimum(s: seq<Antenna>) returns (i: nat)
    requires s != []
    ensures i < |s| && SortByX(s)[0] == s[i]
    ensures forall j :: 0 <= j < |s| ==> s[i].1.x <= s[j].1.x
    ensures forall j :: 0 <= j < i ==> s[i].1.x < s[j].1.x
  {
    var init := s[..|s| - 1];
    var e := s[|s| - 1];
    assert s == init + [e];
    if init == [] {
      i := 0;
    } else {
      var i' := SortedHeadIsEarliestMinimum(init);
      var t := SortByX(init);
      assert SortByX(s) == InsertByX(e, t);
      if e.1.x < t[0].1.x {
        i := |s| - 1;
        assert SortByX(s)[0] == e;
      } else {
        i := i';
        assert InsertByX(e, t) == [t[0]] + InsertByX(e, t[1..]);
        assert SortByX(s)[0] == t[0];
      }
    }
  }

  // ---------------------------------------------------------------------------
  // The delay table
  // ---------------------------------------------------------------------------

  /** The delay of an antenna at x behind the reference at refX: (x - x_ref)·cos θ / c. */
  function Delay(x: real, refX: real, cosAngle: real): real {
    (x - refX) * cosAngle / SpeedOfLight
  }

  /** The geometry's entries in ascending order of x, as `sorted(antenas.items(), key=x)`. */
  function SortedAntennas(antennas: Dict<Position>): (s: seq<Antenna>)
    requires antennas.Valid()
  {
    SortByX(antennas.Items())
  }

  /** Every antenna of a valid, non-empty geometry appears in the sorted list, which is non-empty. */
  lemma {:induction false} SortedAntennasSpec(antennas: Dict<Position>)
    requires antennas.Valid()
    ensures var s := SortedAntennas(antennas);
      && SortedByX(s)
      && Distinct(Keys(s))
      && (forall j :: 0 <= j < |s| ==> s[j].0 in antennas.items && s[j].1 == antennas.items[s[j].0])
      && (forall k :: k in antennas.items ==> k in Keys(s))
      && (antennas.IsEmpty() <==> s == [])
  {
    var items := antennas.Items();
    var s := SortedAntennas(antennas);
    SortByXSorted(items);
    SortKeepsKeysDistinct(items);
    forall j | 0 <= j < |s| ensures s[j].0 in antennas.items && s[j].1 == antennas.items[s[j].0] {
      assert s[j] in multiset(items);
    }
    forall k | k in antennas.items ensures k in Keys(s) {
      var m :| 0 <= m < |antennas.order| && antennas.order[m] == k;
      assert items[m] in multiset(s);
      var j :| 0 <= j < |s| && s[j] == items[m];
      assert Keys(s)[j] == k;
    }
    if !antennas.IsEmpty() {
      var k :| k in antennas.items;
      assert k in Keys(s);
    }
  }

  /** The reference antenna: the first of the sorted geometry. */
  function Reference(antennas: Dict<Position>): (ref: Antenna)
    requires antennas.Valid() && !antennas.IsEmpty()
  {
    SortedAntennasSpec(antennas);
    SortedAntennas(antennas)[0]
  }

  /** The reference is a registered antenna with the smallest x. */
  lemma ReferenceIsMinimum(antennas: Dict<Position>)
    requires antennas.Valid() && !antennas.IsEmpty()
    ensures Reference(antennas).0 in antennas.items
    ensures antennas.items[Reference(antennas).0] == Reference(antennas).1
    ensures forall k :: k in antennas.items ==> Reference(antennas).1.x <= antennas.items[k].x
  {
    SortedAntennasSpec(antennas);
    var s := SortedAntennas(antennas);
    forall k | k in antennas.items ensures Reference(antennas).1.x <= antennas.items[k].x {
      var j :| 0 <= j < |s| && Keys(s)[j] == k;
      assert s[0].1.x <= s[j].1.x;
    }
  }

  /** Among antennas at the smallest x, the reference is the one registered first. */
  lemma ReferenceIsEarliestMinimum(antennas: Dict<Position>)
    requires antennas.Valid() && !antennas.IsEmpty()
    ensures forall j :: 0 <= j < IndexOf(antennas.order, Reference(antennas).0) ==>
      Reference(antennas).1.x < antennas.items[antennas.order[j]].x
  {
    var items := antennas.Items();
    var i := SortedHeadIsEarliestMinimum(items);
    assert items[i] == Reference(antennas);
    IndexOfDistinct(antennas.order, i);
    forall j | 0 <= j < i ensures Reference(antennas).1.x < antennas.items[antennas.order[j]].x {
      assert items[j].1 == antennas.items[antennas.order[j]];
    }
  }

  /** Position of k in a sequence of keys (|s| when absent). */
  function IndexOf(s: seq<string>, k: string): (i: nat)
    ensures i <= |s|
    ensures i < |s| ==> s[i] == k
    ensures forall j :: 0 <= j < i ==> s[j] != k
  {
    if s == [] then 0
    else if s[0] == k then 0
    else 1 + IndexOf(s[1..], k)
  }

  lemma IndexOfDistinct(s: seq<string>, i: nat)
    requires i < |s| && Distinct(s)
    ensures IndexOf(s, s[i]) == i
  {
  }

  /** The (name, delay) pairs in the order the delay table is filled. */
  function DelayPairs(sorted: seq<Antenna>, refX: real, cosAngle: real): (p: seq<(string, real)>)
    ensures Keys(p) == Keys(sorted)
  {
    seq(|sorted|, i requires 0 <= i < |sorted| => (sorted[i].0, Delay(sorted[i].1.x, refX, cosAngle)))
  }

  /** The delay table `_calcular_tdoas` leaves behind, for cos θ = cosAngle. */
  function DelayTable(antennas: Dict<Position>, cosAngle: real): Dict<real>
    requires antennas.Valid() && !antennas.IsEmpty()
  {
    FromPairs(DelayPairs(SortedAntennas(antennas), Reference(antennas).1.x, cosAngle))
  }

  /** The table's keys are exactly the antenna names, in sorted order. */
  lemma DelayTableKeys(antennas: Dict<Position>, cosAngle: real)
    requires antennas.Valid() && !antennas.IsEmpty()
    ensures var t := DelayTable(antennas, cosAngle);
      && t.items.Keys == antennas.items.Keys
      && t.order == Keys(SortedAntennas(antennas))
  {
    var s := SortedAntennas(antennas);
    var p := DelayPairs(s, Reference(antennas).1.x, cosAngle);
    var t := FromPairs(p);
    SortedAntennasSpec(antennas);
    FromDistinctPairs(p);
    forall k | k in t.items ensures k in antennas.items {
      assert k in t.order;
    }
    forall k | k in antennas.items ensures k in t.items {
      assert k in Keys(s);
    }
  }

  /** Each antenna's entry in the table is (x - x_ref)·cos θ / c. */
  lemma DelayTableValues(antennas: Dict<Position>, cosAngle: real)
    requires antennas.Valid() && !antennas.IsEmpty()
    ensures var t := DelayTable(antennas, cosAngle);
      forall k :: k in t.items ==>
        k in antennas.items && t.items[k] == Delay(antennas.items[k].x, Reference(antennas).1.x, cosAngle)
  {
    var s := SortedAntennas(antennas);
    var refX := Reference(antennas).1.x;
    var p := DelayPairs(s, refX, cosAngle);
    var t := FromPairs(p);
    SortedAntennasSpec(antennas);
    FromDistinctPairs(p);
    forall k | k in t.items
      ensures k in antennas.items && t.items[k] == Delay(antennas.items[k].x, refX, cosAngle)
    {
      assert k in t.order;
      var j :| 0 <= j < |p| && Keys(p)[j] == k;
    }
  }

  /**
   * The table has exactly the antenna names as keys, each mapped to (x - x_ref)·cos θ / c,
   * the reference mapped to 0, and its keys ordered by ascending position.
   */
  lemma DelayTableSpec(antennas: Dict<Position>, cosAngle: real)
    requires antennas.Valid() && !antennas.IsEmpty()
    ensures var t := DelayTable(antennas, cosAngle);
      && t.Valid()
      && t.items.Keys == antennas.items.Keys
      && (forall k :: k in t.items ==> t.items[k] == Delay(antennas.items[k].x, Reference(antennas).1.x, cosAngle))
      && t.order == Keys(SortedAntennas(antennas))
      && t.items[Reference(antennas).0] == 0.0
      && (forall i, j :: 0 <= i < j < |t.order| ==> antennas.items[t.order[i]].x <= antennas.items[t.order[j]].x)
  {
    var s := SortedAntennas(antennas);
    var t := DelayTable(antennas, cosAngle);
    DelayTableKeys(antennas, cosAngle);
    DelayTableValues(antennas, cosAngle);
    SortedAntennasSpec(antennas);
    ReferenceIsMinimum(antennas);
    forall i, j | 0 <= i < j < |t.order| ensures antennas.items[t.order[i]].x <= antennas.items[t.order[j]].x {
      assert t.order[i] == s[i].0 && t.order[j] == s[j].0;
    }
  }

  /** When cos θ >= 0 every delay is non-negative and the delays grow with position. */
  lemma DelaysFollowPositions(antennas: Dict<Position>, cosAngle: real)
    requires antennas.Valid() && !antennas.IsEmpty() && cosAngle >= 0.0
    ensures var t := DelayTable(antennas, cosAngle);
      && (forall k :: k in t.items ==> t.items[k] >= 0.0)
      && (forall i, j :: 0 <= i < j < |t.order| ==> t.items[t.order[i]] <= t.items[t.order[j]])
  {
    var t := DelayTable(antennas, cosAngle);
    DelayTableSpec(antennas, cosAngle);
    ReferenceIsMinimum(antennas);
    var refX := Reference(antennas).1.x;
    forall k | k in t.items ensures t.items[k] >= 0.0 {
      DelayMonotone(refX, refX, antennas.items[k].x, cosAngle);
    }
    forall i, j | 0 <= i < j < |t.order| ensures t.items[t.order[i]] <= t.items[t.order[j]] {
      DelayMonotone(refX, antennas.items[t.order[i]].x, antennas.items[t.order[j]].x, cosAngle);
    }
  }

  lemma DelayMonotone(refX: real, x1: real, x2: real, cosAngle: real)
    requires x1 <= x2 && cosAngle >= 0.0
    ensures Delay(x1, refX, cosAngle) <= Delay(x2, refX, cosAngle)
  {
    assert (x2 - refX) * cosAngle - (x1 - refX) * cosAngle == (x2 - x1) * cosAngle;
  }

  /** |a·c| <= a when a >= 0 and c in [-1, 1]. */
  lemma ScaledByCosine(a: real, c: real)
    requires a >= 0.0 && -1.0 <= c <= 1.0
    ensures -a <= a * c <= a
  {
    assert a * (1.0 - c) >= 0.0;
    assert a * (1.0 + c) >= 0.0;
  }

  /** One delay is bounded by the travel time over the antenna's offset. */
  lemma DelayBound(x: real, refX: real, cosAngle: real)
    requires refX <= x && -1.0 <= cosAngle <= 1.0
    ensures -(x - refX) / SpeedOfLight <= Delay(x, refX, cosAngle) <= (x - refX) / SpeedOfLight
  {
    ScaledByCosine(x - refX, cosAngle);
  }

  /** No delay exceeds the free-space travel time from the reference: |tdoa| <= (x - x_ref) / c. */
  lemma DelayWithinTravelTime(n: Numerics, angleRad: real, antennas: Dict<Position>)
    requires n.Lawful() && antennas.Valid() && !antennas.IsEmpty()
    ensures var t := DelayTable(antennas, n.cos(angleRad));
      forall k :: k in antennas.items ==>
        && k in t.items
        && -(antennas.items[k].x - Reference(antennas).1.x) / SpeedOfLight <= t.items[k]
        && t.items[k] <= (antennas.items[k].x - Reference(antennas).1.x) / SpeedOfLight
  {
    var c := n.cos(angleRad);
    DelayTableSpec(antennas, c);
    ReferenceIsMinimum(antennas);
    forall k | k in antennas.items {
      DelayBound(antennas.items[k].x, Reference(antennas).1.x, c);
    }
  }

  // ---------------------------------------------------------------------------
  // Signals and file names
  // ---------------------------------------------------------------------------

  /** 2π·f·(k/Fs + tdoa): the carrier phase of sample k at a given delay. */
  function SamplePhase(pi: real, frequency: real, sampleRate: real, k: nat, delay: real): real
    requires sampleRate != 0.0
  {
    2.0 * pi * frequency * ((k as real) / sampleRate + delay)
  }

  /**
   * One antenna's vector: the unit tone cos + j·sin at its delay plus 0.05 times two
   * standard-normal draws per sample, the I draws from `first` on and the Q draws N later.
   */
  function NoisyTone(n: Numerics, frequency: real, sampleRate: real, numSamples: nat, delay: real,
                     draws: nat -> real, first: nat): (s: Signal)
    requires sampleRate == 0.0 ==> numSamples == 0
    ensures |s| == numSamples
  {
    seq(numSamples, k requires 0 <= k < numSamples =>
      var phase := SamplePhase(n.pi, frequency, sampleRate, k, delay);
      Complex(n.cos(phase) + NoiseAmplitude * draws(first + k),
              n.sin(phase) + NoiseAmplitude * draws(first + numSamples + k)))
  }

  /** Index of the first standard-normal draw used by the i-th generated antenna: randn(N) is called twice per antenna. */
  function DrawOffset(numSamples: nat, i: nat): nat {
    2 * numSamples * i
  }

  /** The (name, signal) pairs in delay-table order; antenna i consumes draws 2Ni .. 2N(i+1). */
  function SignalPairs(n: Numerics, frequency: real, sampleRate: real, numSamples: nat,
                       delays: Dict<real>, draws: nat -> real): (p: seq<(string, Signal)>)
    requires delays.Valid()
    requires sampleRate == 0.0 ==> numSamples == 0
    ensures Keys(p) == delays.order
  {
    seq(|delays.order|, i requires 0 <= i < |delays.order| =>
      (delays.order[i], NoisyTone(n, frequency, sampleRate, numSamples, delays.items[delays.order[i]], draws, DrawOffset(numSamples, i))))
  }

  /** The signal map has one vector of N samples per delay-table key, in delay-table order. */
  lemma SignalTableSpec(n: Numerics, frequency: real, sampleRate: real, numSamples: nat,
                        delays: Dict<real>, draws: nat -> real)
    requires delays.Valid()
    requires sampleRate == 0.0 ==> numSamples == 0
    ensures var m := FromPairs(SignalPairs(n, frequency, sampleRate, numSamples, delays, draws));
      && m.order == delays.order
      && m.items.Keys == delays.items.Keys
      && (forall k :: k in m.items ==> |m.items[k]| == numSamples)
  {
    var p := SignalPairs(n, frequency, sampleRate, numSamples, delays, draws);
    var m := FromPairs(p);
    FromDistinctPairs(p);
    forall k | k in m.items ensures k in delays.items && |m.items[k]| == numSamples {
      assert k in m.order;
      var j :| 0 <= j < |p| && Keys(p)[j] == k;
    }
  }

  /**
   * After generation the signal map has the antenna names as keys, one vector of N samples
   * each, in the delay table's order, which is ascending position.
   */
  lemma GeneratedSignalsSpec(n: Numerics, frequency: real, sampleRate: real, numSamples: nat,
                             antennas: Dict<Position>, cosAngle: real, draws: nat -> real)
    requires antennas.Valid() && !antennas.IsEmpty()
    requires sampleRate == 0.0 ==> numSamples == 0
    ensures var t := DelayTable(antennas, cosAngle);
      var m := FromPairs(SignalPairs(n, frequency, sampleRate, numSamples, t, draws));
      && m.order == t.order
      && m.items.Keys == antennas.items.Keys
      && (forall k :: k in m.items ==> |m.items[k]| == numSamples)
      && (forall i, j :: 0 <= i < j < |m.order| ==> antennas.items[m.order[i]].x <= antennas.items[m.order[j]].x)
  {
    DelayTableSpec(antennas, cosAngle);
    SignalTableSpec(n, frequency, sampleRate, numSamples, DelayTable(antennas, cosAngle), draws);
  }

  /** The file a signal is saved to: prefix_name.iq. */
  function IqPath(prefix: string, name: string): string {
    prefix + "_" + name + ".iq"
  }

  /** Different antennas are saved to different files. */
  lemma IqPathInjective(prefix: string, a: string, b: string)
    requires IqPath(prefix, a) == IqPath(prefix, b)
    ensures a == b
  {
    var p := IqPath(prefix, a);
    assert |a| == |b|;
    assert a == p[|prefix| + 1 .. |prefix| + 1 + |a|];
    assert b == IqPath(prefix, b)[|prefix| + 1 .. |prefix| + 1 + |b|];
  }

  /** The loop of `gerar_sinais`: one noisy tone per delay-table entry, in table order, into a fresh dict. */
  method FillSignals(n: Numerics, frequency: real, sampleRate: real, numSamples: nat,
                     delays: Dict<real>, draws: nat -> real) returns (signals: Dict<Signal>)
    requires delays.Valid()
    requires sampleRate == 0.0 ==> numSamples == 0
    ensures signals == FromPairs(SignalPairs(n, frequency, sampleRate, numSamples, delays, draws))
  {
    ghost var pairs := SignalPairs(n, frequency, sampleRate, numSamples, delays, draws);
    signals := Empty();
    var i := 0;
    while i < |delays.order|
      invariant 0 <= i <= |delays.order|
      invariant signals == FromPairs(pairs[..i])
    {
      var name := delays.order[i];
      var tone := NoisyTone(n, frequency, sampleRate, numSamples, delays.items[name], draws, DrawOffset(numSamples, i));
      assert pairs[i] == (name, tone);
      FromPairsStep(pairs, i);
      signals := signals.Put(name, tone);
      i := i + 1;
    }
    assert pairs[..i] == pairs;
  }

  // ---------------------------------------------------------------------------
  // The simulator object
  // ---------------------------------------------------------------------------

  class AntennaArraySimulator {
    const num: Numerics
    const sampleRate: real
    const frequency: real
    const duration: real
    const numSamples: int
    const wavelength: real
    const angleRad: real

    var antennas: Dict<Position>
    var signals: Dict<Signal>
    var delays: Dict<real>

    ghost predicate Valid()
      reads this
    {
      && antennas.Valid() && signals.Valid() && delays.Valid()
      && (sampleRate == 0.0 ==> numSamples == 0)
      && (forall k :: k in signals.items ==> |signals.items[k]| == numSamples)
    }

    /** `SimuladorAntenasDoA(...)`: N = int(Fs·T), λ = c/f and θ in radians, with empty maps. */
    constructor (num: Numerics, sampleRate: real, frequency: real, duration: real, angleDegrees: real)
      requires frequency != 0.0
      ensures Valid()
      ensures this.num == num && this.sampleRate == sampleRate && this.frequency == frequency
      ensures this.duration == duration && numSamples == Truncate(sampleRate * duration)
      ensures wavelength == SpeedOfLight / frequency && angleRad == num.Radians(angleDegrees)
      ensures antennas.IsEmpty() && signals.IsEmpty() && delays.IsEmpty()
    {
      this.num := num;
      this.sampleRate := sampleRate;
      this.frequency := frequency;
      this.duration := duration;
      numSamples := Truncate(sampleRate * duration);
      wavelength := SpeedOfLight / frequency;
      angleRad := num.Radians(angleDegrees);
      antennas := Empty();
      signals := Empty();
      delays := Empty();
    }

    /** `adicionar_antena`: registers (or moves) an antenna at (x, 0). */
    method AddAntenna(name: string, x: real)
      requires Valid()
      modifies this
      ensures Valid()
      ensures antennas == old(antennas).Put(name, Position(x, 0.0))
      ensures signals == old(signals) && delays == old(delays)
    {
      antennas := antennas.Put(name, Position(x, 0.0));
    }

    /** `_calcular_tdoas`: rebuilds the delay table from the current geometry. */
    method ComputeDelays() returns (r: Status<SimError>)
      requires Valid()
      modifies this
      ensures Valid()
      ensures antennas == old(antennas) && signals == old(signals)
      ensures r.Fail? <==> antennas.IsEmpty()
      ensures r.Fail? ==> r.error == NoAntennas && delays == old(delays)
      ensures r.Pass? ==> delays == DelayTable(antennas, num.cos(angleRad))
    {
      if antennas.IsEmpty() {
        return Fail(NoAntennas);
      }
      var sorted := SortedAntennas(antennas);
      SortedAntennasSpec(antennas);
      var refX := sorted[0].1.x;
      ghost var pairs := DelayPairs(sorted, refX, num.cos(angleRad));
      delays := Empty();
      var i := 0;
      while i < |sorted|
        invariant 0 <= i <= |sorted|
        invariant antennas == old(antennas) && signals == old(signals)
        invariant delays == FromPairs(pairs[..i])
      {
        var (name, pos) := sorted[i];
        var tdoa := Delay(pos.x, refX, num.cos(angleRad));
        assert pairs[i] == (name, tdoa);
        FromPairsStep(pairs, i);
        delays := delays.Put(name, tdoa);
        i := i + 1;
      }
      assert pairs[..i] == pairs;
      r := Pass;
    }

    /**
     * `gerar_sinais`: recomputes the delays, empties the signal map and fills it with one
     * noisy tone per antenna; a negative sample count fails at the first noise draw.
     */
    method GenerateSignals(draws: nat -> real) returns (r: Status<SimError>)
      requires Valid()
      modifies this
      ensures Valid()
      ensures antennas == old(antennas)
      ensures r.Fail? <==> antennas.IsEmpty() || numSamples < 0
      ensures antennas.IsEmpty() ==> r == Fail(NoAntennas) && delays == old(delays) && signals == old(signals)
      ensures !antennas.IsEmpty() ==> delays == DelayTable(antennas, num.cos(angleRad))
      ensures !antennas.IsEmpty() && numSamples < 0 ==> r == Fail(NegativeSampleCount) && signals.IsEmpty()
      ensures r.Pass? ==> signals == FromPairs(SignalPairs(num, frequency, sampleRate, numSamples as nat, delays, draws))
      ensures r.Pass? ==> signals.order == delays.order && signals.items.Keys == antennas.items.Keys
      ensures r.Pass? ==> forall i, j :: 0 <= i < j < |signals.order| ==>
        antennas.items[signals.order[i]].x <= antennas.items[signals.order[j]].x
    {
      r := ComputeDelays();
      if r.Fail? {
        return;
      }
      if numSamples < 0 {
        signals := Empty();
        return Fail(NegativeSampleCount);
      }
      var generated := FillSignals(num, frequency, sampleRate, numSamples, delays, draws);
      GeneratedSignalsSpec(num, frequency, sampleRate, numSamples, antennas, num.cos(angleRad), draws);
      assert generated.Valid();
      assert forall k :: k in generated.items ==> |generated.items[k]| == numSamples;
      signals := generated;
    }

    /** `salvar_arquivos_iq`: the path of every saved signal, in the signal map's order. */
    method SaveIqFiles(prefix: string) returns (r: Result<seq<string>, SimError>)
      requires Valid()
      ensures r.Err? <==> signals.IsEmpty()
      ensures r.Err? ==> r.error == SignalsNotGenerated
      ensures r.Ok? ==> |r.value| == |signals.order|
      ensures r.Ok? ==> forall i :: 0 <= i < |r.value| ==> r.value[i] == IqPath(prefix, signals.order[i])
      ensures r.Ok? ==> Distinct(r.value)
    {
      if signals.IsEmpty() {
        return Err(SignalsNotGenerated);
      }
      var saved: seq<string> := [];
      var i := 0;
      while i < |signals.order|
        invariant 0 <= i <= |signals.order|
        invariant |saved| == i
        invariant forall j :: 0 <= j < i ==> saved[j] == IqPath(prefix, signals.order[j])
      {
        saved := saved + [IqPath(prefix, signals.order[i])];
        i := i + 1;
      }
      forall a, b | 0 <= a < b < |saved| ensures saved[a] != saved[b] {
        if saved[a] == saved[b] {
          IqPathInjective(prefix, signals.order[a], signals.order[b]);
        }
      }
      r := Ok(saved);
    }
  }
}

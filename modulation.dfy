/**
 * The server's modulator, as a structure: which scheme a network tag selects, how
 * many samples each bit gets, which configured parameter each bit selects, the
 * 16-QAM bit/level tables, and how the demodulators cut a signal into windows and
 * decide each one. Sample values are kept symbolic: `getSignalValue` is
 * amplitude × cos(angle), where the cosine is an uninterpreted function of the
 * angle's parts, and sums and comparisons are taken over exact reals. The time of
 * sample k is represented by the tick k and the sample rate.
 */
module Modulation {
  import opened Common

  const CARRIER_AMPLITUDE: real := 1.0
  const DEFAULT_AMPLITUDE_INDEX: real := 1.0
  const DEFAULT_FREQUENCY_INDEX: real := 1.0
  const BIT_SIZE_16QAM: nat := 4
  const IQ_VALUES: seq<real> := [-0.75, -0.25, 0.25, 0.75]
  const BIT_PAIRS: seq<string> := ["00", "01", "10", "11"]
  const EPSILON: real := 0.000001
  const QAM_LENGTH_ERROR: string := "Binary data length must be a multiple of 4 for 16-QAM."
  /** One more than the largest `unsigned int`. */
  const UINT_LIMIT: int := 0x1_0000_0000

  /** A phase, as a whole number of quarter turns (π/2 each) plus an offset in radians. */
  datatype Phase = Phase(quarterTurns: int, radians: real)

  /** DEFAULT_PHASE, -π/2. */
  const DEFAULT_PHASE: Phase := Phase(-1, 0.0)
  /** DEFAULT_PHASE - π/2, the phase of the quadrature component. */
  const QUADRATURE_PHASE: Phase := Phase(-2, 0.0)

  /** The angle 2π · frequency · (tick / sampleRate) + phase. */
  datatype Angle = Angle(frequency: real, tick: nat, sampleRate: int, phase: Phase)

  type Cosine = Angle -> real

  /**
   * The per-bit parameters read from the database: ASK amplitude indices, PSK phase
   * offsets (already in radians) and FSK frequency indices, for bit 0 and bit 1.
   */
  datatype Signs = Signs(askZero: real, askOne: real, pskZero: real, pskOne: real, fskZero: real, fskOne: real)

  /** What the signal computations read of a modulator. */
  datatype Params = Params(cosine: Cosine, signs: Signs, sampleRate: int, carrier: real, samplesPerBit: nat)

  /** `getSignalValue`: amplitude × cos(2π · frequency · t + phase). */
  function SignalValue(p: Params, amplitudeIndex: real, frequencyIndex: real, tick: nat, phase: Phase): real
  {
    amplitudeIndex * CARRIER_AMPLITUDE * p.cosine(Angle(frequencyIndex * p.carrier, tick, p.sampleRate, phase))
  }

  /** `m_samplesPerBit = m_sampleRate / m_bitRate`, in `unsigned int` arithmetic. */
  function SamplesPerBit(sampleRate: int, bitRate: nat): (spb: nat)
    requires 0 < bitRate < UINT_LIMIT
    ensures spb < UINT_LIMIT
  {
    (sampleRate % UINT_LIMIT) / bitRate
  }

  /** With a non-negative sample rate that fits an `int`, it is plain integer division. */
  lemma SamplesPerBitOfRate(sampleRate: nat, bitRate: nat)
    requires sampleRate < 0x8000_0000 && 0 < bitRate < UINT_LIMIT
    ensures SamplesPerBit(sampleRate, bitRate) == sampleRate / bitRate
    ensures SamplesPerBit(sampleRate, bitRate) * bitRate <= sampleRate < (SamplesPerBit(sampleRate, bitRate) + 1) * bitRate
  {
  }

  /** A negative rate is read as an unsigned number first. */
  lemma NegativeRateWraps()
    ensures SamplesPerBit(-1, 1) == UINT_LIMIT - 1
  {
  }

  // ---------------------------------------------------------------------------
  // Schemes

  datatype Keying = Ask | Psk | Fsk

  datatype Scheme = Keyed(keying: Keying) | Qam16 | NoScheme

  /** The dispatch of `modulate` and `demodulate` on the network tag. */
  function SchemeOf(network: string): Scheme
  {
    if network == "2G" then Keyed(Ask)
    else if network == "3G" then Keyed(Psk)
    else if network == "4G" then Keyed(Fsk)
    else if network == "5G" then Qam16
    else NoScheme
  }

  lemma SchemeDispatch(network: string)
    ensures SchemeOf(network) == Keyed(Ask) <==> network == "2G"
    ensures SchemeOf(network) == Keyed(Psk) <==> network == "3G"
    ensures SchemeOf(network) == Keyed(Fsk) <==> network == "4G"
    ensures SchemeOf(network) == Qam16 <==> network == "5G"
    ensures SchemeOf(network) == NoScheme <==> network !in ["2G", "3G", "4G", "5G"]
  {
  }

  /** The configured parameter a bit selects: the "one" value for '1', the "zero" value for anything else. */
  function Selected(signs: Signs, k: Keying, bit: char): real
  {
    var one := bit == '1';
    match k
    case Ask => if one then signs.askOne else signs.askZero
    case Psk => if one then signs.pskOne else signs.pskZero
    case Fsk => if one then signs.fskOne else signs.fskZero
  }

  /** The clean sample at `tick` for a bit of a keyed scheme. */
  function KeyedSample(p: Params, k: Keying, bit: char, tick: nat): real
  {
    var v := Selected(p.signs, k, bit);
    match k
    case Ask => SignalValue(p, v, DEFAULT_AMPLITUDE_INDEX, tick, DEFAULT_PHASE)
    case Psk => SignalValue(p, DEFAULT_AMPLITUDE_INDEX, DEFAULT_FREQUENCY_INDEX, tick, Phase(DEFAULT_PHASE.quarterTurns, v))
    case Fsk => SignalValue(p, DEFAULT_AMPLITUDE_INDEX, v, tick, DEFAULT_PHASE)
  }

  /** The clean ASK/PSK/FSK signal: `samplesPerBit` samples per bit, ticks counted from 0. */
  function KeyedWave(p: Params, k: Keying, bits: string): (w: seq<real>)
    ensures |w| == |bits| * p.samplesPerBit
  {
    seq(|bits| * p.samplesPerBit, j requires 0 <= j < |bits| * p.samplesPerBit =>
      DivBelow(j, |bits|, p.samplesPerBit);
      KeyedSample(p, k, bits[j / p.samplesPerBit], j))
  }

  /** Sample `s` of bit `i`'s window is that bit's sample, built from the parameter the bit selects. */
  lemma KeyedWindow(p: Params, k: Keying, bits: string, i: nat, s: nat)
    requires i < |bits| && s < p.samplesPerBit
    ensures i * p.samplesPerBit + s < |KeyedWave(p, k, bits)|
    ensures KeyedWave(p, k, bits)[i * p.samplesPerBit + s] == KeyedSample(p, k, bits[i], i * p.samplesPerBit + s)
  {
    var d := p.samplesPerBit;
    DivOfWindow(i, d, s);
    assert i * d + s < |bits| * d by {
      assert (i + 1) * d <= |bits| * d;
    }
  }

  // ---------------------------------------------------------------------------
  // 16-QAM tables

  datatype Symbol = Symbol(inPhase: real, quadrature: real)

  /** `c - '0'`. */
  function Digit(c: char): int
  {
    c as int - '0' as int
  }

  /** The table index a pair of bit values selects: 2·b0 + b1. */
  function PairIndex(b0: int, b1: int): int
  {
    2 * b0 + b1
  }

  predicate PairInRange(b0: int, b1: int)
  {
    0 <= PairIndex(b0, b1) < 4
  }

  /** `mapToQAM16Constellation`: I from the first two bits, Q from the last two. */
  function MapToConstellation(bits: seq<int>): (s: Symbol)
    requires |bits| == BIT_SIZE_16QAM
    requires PairInRange(bits[0], bits[1]) && PairInRange(bits[2], bits[3])
  {
    Symbol(IQ_VALUES[PairIndex(bits[0], bits[1])], IQ_VALUES[PairIndex(bits[2], bits[3])])
  }

  predicate IsBit(c: char)
  {
    c == '0' || c == '1'
  }

  predicate IsBinary(s: string)
  {
    forall i :: 0 <= i < |s| ==> IsBit(s[i])
  }

  /** Every table index the bit pairs at even positions select is inside the table. */
  predicate PairsInRange(bits: string)
  {
    forall i :: 0 <= i < |bits| - 1 && i % 2 == 0 ==> PairInRange(Digit(bits[i]), Digit(bits[i + 1]))
  }

  lemma BinaryPairsInRange(bits: string)
    requires IsBinary(bits)
    ensures PairsInRange(bits)
  {
  }

  /** The four digit values of the group starting at `i`. */
  function GroupDigits(bits: string, i: nat): (g: seq<int>)
    requires i + 4 <= |bits|
    ensures |g| == 4
  {
    [Digit(bits[i]), Digit(bits[i + 1]), Digit(bits[i + 2]), Digit(bits[i + 3])]
  }

  /** The symbol of the group starting at `i`. */
  function GroupSymbol(bits: string, i: nat): Symbol
    requires i + 4 <= |bits| && i % 2 == 0 && PairsInRange(bits)
  {
    var g := GroupDigits(bits, i);
    assert PairInRange(Digit(bits[i + 2]), Digit(bits[i + 3])) by {
      assert (i + 2) % 2 == 0;
    }
    MapToConstellation(g)
  }

  /** The symbols `mapBitsToSymbols16QAM` produces for a length that is a multiple of 4. */
  function Symbols(bits: string): (syms: seq<Symbol>)
    requires |bits| % 4 == 0 && PairsInRange(bits)
    ensures |syms| == |bits| / 4
  {
    seq(|bits| / 4, m requires 0 <= m < |bits| / 4 =>
      BlockIndex(|bits|, 4, m);
      assert (m * 4) % 2 == 0;
      GroupSymbol(bits, m * 4))
  }

  /** The next group the loop of `mapBitsToSymbols16QAM` reads extends the symbols so far by one. */
  lemma SymbolsStep(bits: string, m: nat, group: seq<int>)
    requires |bits| % 4 == 0 && PairsInRange(bits) && m * 4 < |bits|
    requires m * 4 + 3 < |bits| ==> group == GroupDigits(bits, m * 4)
    ensures m < |bits| / 4 && m * 4 + 4 <= |bits| && group == GroupDigits(bits, m * 4)
    ensures PairInRange(group[0], group[1]) && PairInRange(group[2], group[3])
    ensures Symbols(bits)[..m + 1] == Symbols(bits)[..m] + [MapToConstellation(group)]
  {
    BlockIndex(|bits|, 4, m);
    assert (m * 4) % 2 == 0 && (m * 4 + 2) % 2 == 0;
    var all := Symbols(bits);
    assert all[m] == GroupSymbol(bits, m * 4);
    assert all[..m + 1] == all[..m] + [all[m]];
  }

  /** Each symbol's levels are the table entries at 2·b0+b1 and 2·b2+b3 of its group. */
  lemma SymbolLevels(bits: string, m: nat)
    requires |bits| % 4 == 0 && PairsInRange(bits) && m < |bits| / 4
    ensures var b := GroupDigits(bits, m * 4);
      Symbols(bits)[m] == Symbol(IQ_VALUES[2 * b[0] + b[1]], IQ_VALUES[2 * b[2] + b[3]])
  {
  }

  /** The four levels are pairwise distinct. */
  lemma LevelsDistinct(i: nat, j: nat)
    requires i < 4 && j < 4 && IQ_VALUES[i] == IQ_VALUES[j]
    ensures i == j
  {
  }

  /** The pair index of two binary digits determines them. */
  lemma PairIndexInjective(a0: char, a1: char, b0: char, b1: char)
    requires IsBit(a0) && IsBit(a1) && IsBit(b0) && IsBit(b1)
    requires PairIndex(Digit(a0), Digit(a1)) == PairIndex(Digit(b0), Digit(b1))
    ensures a0 == b0 && a1 == b1
  {
  }

  /** The symbol of a binary group of four, read off its two pair indices. */
  lemma GroupSymbolOfBinary(a: string) returns (i: nat, q: nat)
    requires |a| == 4 && IsBinary(a)
    ensures PairsInRange(a) && i < 4 && q < 4
    ensures i == PairIndex(Digit(a[0]), Digit(a[1])) && q == PairIndex(Digit(a[2]), Digit(a[3]))
    ensures GroupSymbol(a, 0) == Symbol(IQ_VALUES[i], IQ_VALUES[q])
  {
    BinaryPairsInRange(a);
    assert IsBit(a[0]) && IsBit(a[1]) && IsBit(a[2]) && IsBit(a[3]);
    i, q := PairIndex(Digit(a[0]), Digit(a[1])), PairIndex(Digit(a[2]), Digit(a[3]));
    assert GroupDigits(a, 0) == [Digit(a[0]), Digit(a[1]), Digit(a[2]), Digit(a[3])];
  }

  /** Distinct binary groups give distinct symbols: the constellation has sixteen points. */
  lemma ConstellationInjective(a: string, b: string)
    requires |a| == 4 && |b| == 4 && IsBinary(a) && IsBinary(b)
    requires GroupSymbol(a, 0) == GroupSymbol(b, 0)
    ensures a == b
  {
    var ia, qa := GroupSymbolOfBinary(a);
    var ib, qb := GroupSymbolOfBinary(b);
    LevelsDistinct(ia, ib);
    LevelsDistinct(qa, qb);
    assert IsBit(a[0]) && IsBit(a[1]) && IsBit(a[2]) && IsBit(a[3]);
    assert IsBit(b[0]) && IsBit(b[1]) && IsBit(b[2]) && IsBit(b[3]);
    PairIndexInjective(a[0], a[1], b[0], b[1]);
    PairIndexInjective(a[2], a[3], b[2], b[3]);
    assert a == [a[0], a[1], a[2], a[3]] && b == [b[0], b[1], b[2], b[3]];
  }

  /** The clean 16-QAM signal: per symbol, `samplesPerBit` samples of I·cos + Q·sin. */
  function QamWave(p: Params, syms: seq<Symbol>): (w: seq<real>)
    ensures |w| == |syms| * p.samplesPerBit
  {
    seq(|syms| * p.samplesPerBit, j requires 0 <= j < |syms| * p.samplesPerBit =>
      DivBelow(j, |syms|, p.samplesPerBit);
      var sym := syms[j / p.samplesPerBit];
      SignalValue(p, sym.inPhase, DEFAULT_FREQUENCY_INDEX, j, DEFAULT_PHASE) +
      SignalValue(p, sym.quadrature, DEFAULT_FREQUENCY_INDEX, j, QUADRATURE_PHASE))
  }

  /** `normalizeIQ`: rounds a level onto the grid (2k+1)/4. */
  function NormalizeIQ(level: real): (c: real)
    ensures c - 0.25 <= level < c + 0.25
    ensures exists k: int :: c == (2 * k + 1) as real / 4.0
  {
    var k := (2.0 * level).Floor;
    assert (k * 2 + 1) as real / 4.0 == (2 * k + 1) as real / 4.0;
    (k * 2 + 1) as real / 4.0
  }

  predicate Close(a: real, b: real)
  {
    -EPSILON < a - b < EPSILON
  }

  /** The last table index below `n` whose level is within EPSILON of `q`. */
  function LastMatch(q: real, n: nat): (r: Option<nat>)
    requires n <= 4
    ensures r.Some? ==> r.value < n && Close(IQ_VALUES[r.value], q)
    ensures r.Some? ==> forall j :: r.value < j < n ==> !Close(IQ_VALUES[j], q)
    ensures r.None? ==> forall j :: 0 <= j < n ==> !Close(IQ_VALUES[j], q)
  {
    if n == 0 then None
    else if Close(IQ_VALUES[n - 1], q) then Some(n - 1)
    else LastMatch(q, n - 1)
  }

  /** `mapSymbolToBits16QAM`: the bit pair of the table entry the normalised level hits, or "". */
  function SymbolBits(level: real): string
  {
    match LastMatch(NormalizeIQ(level), 4)
    case None => ""
    case Some(j) => BIT_PAIRS[j]
  }

  /** Normalising puts a level on the grid: it is every table entry's own normal form. */
  lemma NormalizeTable(j: nat)
    requires j < 4
    ensures NormalizeIQ(IQ_VALUES[j]) == IQ_VALUES[j]
  {
    if j == 0 {
      assert (2.0 * -0.75).Floor == -2;
    } else if j == 1 {
      assert (2.0 * -0.25).Floor == -1;
    } else if j == 2 {
      assert (2.0 * 0.25).Floor == 0;
    } else {
      assert (2.0 * 0.75).Floor == 1;
    }
  }

  /** Each table level maps back to its own index's bit pair. */
  lemma LevelBits(j: nat)
    requires j < 4
    ensures SymbolBits(IQ_VALUES[j]) == BIT_PAIRS[j]
  {
    NormalizeTable(j);
    var q := IQ_VALUES[j];
    assert Close(IQ_VALUES[j], q);
    forall i | j < i < 4
      ensures !Close(IQ_VALUES[i], q)
    {
    }
    assert LastMatch(q, 4) == Some(j);
  }

  /** The bit-pair table inverts the level table: the level of "b0b1" maps back to "b0b1". */
  lemma TableInverts(b0: char, b1: char)
    requires IsBit(b0) && IsBit(b1)
    ensures 0 <= PairIndex(Digit(b0), Digit(b1)) < 4
    ensures SymbolBits(IQ_VALUES[PairIndex(Digit(b0), Digit(b1))]) == [b0, b1]
  {
    var j := PairIndex(Digit(b0), Digit(b1));
    LevelBits(j);
  }

  /** A level maps to a bit pair exactly when it lies in [-1, 1); outside, the result is "". */
  lemma SymbolBitsRange(level: real)
    ensures SymbolBits(level) != "" <==> -1.0 <= level < 1.0
  {
    var f := (2.0 * level).Floor;
    var q := NormalizeIQ(level);
    assert q == (f * 2 + 1) as real / 4.0;
    if -1.0 <= level < 1.0 {
      assert -2 <= f <= 1;
      var j := f + 2;
      assert IQ_VALUES[j] == q;
      assert LastMatch(q, 4).Some? by {
        assert Close(IQ_VALUES[j], q);
      }
    } else {
      assert f < -2 || f > 1;
      forall j | 0 <= j < 4
        ensures !Close(IQ_VALUES[j], q)
      {
        assert IQ_VALUES[j] == ((j - 2) * 2 + 1) as real / 4.0;
      }
    }
  }

  /** The grid cell of a level: the bit pair of the half-unit cell of [-1, 1) the level lies in, and "" outside. */
  function GridBits(level: real): string
  {
    if level < -1.0 || 1.0 <= level then ""
    else if level < -0.5 then "00"
    else if level < 0.0 then "01"
    else if level < 0.5 then "10"
    else "11"
  }

  /** The table scan of `mapSymbolToBits16QAM` picks exactly the grid cell the level lies in. */
  lemma SymbolBitsIsGrid(level: real)
    ensures SymbolBits(level) == GridBits(level)
  {
    var f := (2.0 * level).Floor;
    var q := NormalizeIQ(level);
    assert q == (f * 2 + 1) as real / 4.0;
    if -2 <= f <= 1 {
      var j := f + 2;
      assert IQ_VALUES[j] == q;
      assert Close(IQ_VALUES[j], q);
      forall i | j < i < 4
        ensures !Close(IQ_VALUES[i], q)
      {
        assert IQ_VALUES[i] == ((i - 2) * 2 + 1) as real / 4.0;
      }
      assert LastMatch(q, 4) == Some(j);
    } else {
      forall j | 0 <= j < 4
        ensures !Close(IQ_VALUES[j], q)
      {
        assert IQ_VALUES[j] == ((j - 2) * 2 + 1) as real / 4.0;
      }
      assert LastMatch(q, 4) == None;
    }
  }

  /** The grid cell of the level 2 * sum / count, decided without dividing. */
  function CellBits(sum: real, count: real): string
    requires count > 0.0
  {
    var x := 2.0 * sum;
    if x < -count || count <= x then ""
    else if 2.0 * x < -count then "00"
    else if x < 0.0 then "01"
    else if 2.0 * x < count then "10"
    else "11"
  }

  /** A level below a threshold is a scaled level below the scaled threshold. */
  lemma ScaleLess(level: real, scaled: real, t: real, count: real)
    requires count > 0.0 && level * count == scaled
    ensures level < t <==> scaled < t * count
  {
    if level < t {
      assert (t - level) * count > 0.0;
    } else {
      assert (level - t) * count >= 0.0;
    }
  }

  /** Comparing the sum against scaled bounds decides the same cell as dividing first. */
  lemma CellBitsOfLevel(sum: real, count: real)
    requires count > 0.0
    ensures CellBits(sum, count) == GridBits(sum / count * 2.0)
  {
    var level := sum / count * 2.0;
    var x := 2.0 * sum;
    assert level * count == x;
    ScaleLess(level, x, -1.0, count);
    ScaleLess(level, x, 1.0, count);
    ScaleLess(level, x, -0.5, count);
    ScaleLess(level, x, 0.0, count);
    ScaleLess(level, x, 0.5, count);
  }

  /** What `mapSymbolToBits16QAM` gives for the average sum / count, stated on the sum. */
  lemma DemapOfSum(sum: real, count: real, bits: string)
    requires count > 0.0 && bits == SymbolBits(sum / count * 2.0)
    ensures bits == CellBits(sum, count)
  {
    SymbolBitsIsGrid(sum / count * 2.0);
    CellBitsOfLevel(sum, count);
  }

  // ---------------------------------------------------------------------------
  // Noise

  /** `addNoise`: sample i moves by draw i. */
  function Noisy(s: seq<real>, noise: nat -> real): (r: seq<real>)
    ensures |r| == |s|
  {
    seq(|s|, i requires 0 <= i < |s| => s[i] + noise(i))
  }

  // ---------------------------------------------------------------------------
  // Demodulation

  /** The end of the window starting at `b`: `samplesPerBit` samples, cut at the signal's end. */
  function WindowEnd(n: nat, spb: nat, b: nat): (e: nat)
    requires b <= n
    ensures b <= e <= n
  {
    if b + spb <= n then b + spb else n
  }

  function Abs(x: real): real
  {
    if x < 0.0 then -x else x
  }

  /** The sum of |s[k]| over [b, e). */
  function AbsSum(s: seq<real>, b: nat, e: nat): real
    requires b <= e <= |s|
    decreases e - b
  {
    if e == b then 0.0 else AbsSum(s, b, e - 1) + Abs(s[e - 1])
  }

  /** The correlation of s[b..e] with the reference wave of the given frequency index and phase. */
  function Correlation(p: Params, s: seq<real>, b: nat, e: nat, frequencyIndex: real, phase: Phase): real
    requires b <= e <= |s|
    decreases e - b
  {
    if e == b then 0.0
    else Correlation(p, s, b, e - 1, frequencyIndex, phase) + SignalValue(p, s[e - 1], frequencyIndex, e - 1, phase)
  }

  /** The bit the keyed demodulators decide for the window starting at `b`. */
  function KeyedDecision(p: Params, k: Keying, s: seq<real>, b: nat): (c: char)
    requires b < |s| && p.samplesPerBit > 0
    ensures c == '0' || c == '1'
    ensures var e := WindowEnd(|s|, p.samplesPerBit, b);
      k == Ask ==> (c == '1' <==> AbsSum(s, b, e) / p.samplesPerBit as real > p.signs.askZero)
    ensures var e := WindowEnd(|s|, p.samplesPerBit, b);
      k == Psk ==> (c == '0' <==>
        Correlation(p, s, b, e, DEFAULT_FREQUENCY_INDEX, Phase(0, p.signs.pskZero)) >
        Correlation(p, s, b, e, DEFAULT_FREQUENCY_INDEX, Phase(0, p.signs.pskOne)))
    ensures var e := WindowEnd(|s|, p.samplesPerBit, b);
      k == Fsk ==> (c == '1' <==>
        Correlation(p, s, b, e, p.signs.fskOne, DEFAULT_PHASE) > Correlation(p, s, b, e, p.signs.fskZero, DEFAULT_PHASE))
  {
    var e := WindowEnd(|s|, p.samplesPerBit, b);
    match k
    case Ask =>
      if AbsSum(s, b, e) / p.samplesPerBit as real > p.signs.askZero then '1' else '0'
    case Psk =>
      var correlation0 := Correlation(p, s, b, e, DEFAULT_FREQUENCY_INDEX, Phase(0, p.signs.pskZero));
      var correlation1 := Correlation(p, s, b, e, DEFAULT_FREQUENCY_INDEX, Phase(0, p.signs.pskOne));
      if correlation0 > correlation1 then '0' else '1'
    case Fsk =>
      var correlation0 := Correlation(p, s, b, e, p.signs.fskZero, DEFAULT_PHASE);
      var correlation1 := Correlation(p, s, b, e, p.signs.fskOne, DEFAULT_PHASE);
      if correlation1 > correlation0 then '1' else '0'
  }

  /** The keyed demodulators' output from window start `b` on: one bit per window. */
  function KeyedBitsFrom(p: Params, k: Keying, s: seq<real>, b: nat): string
    requires p.samplesPerBit > 0 || b >= |s|
    decreases |s| - b
  {
    if b >= |s| then "" else [KeyedDecision(p, k, s, b)] + KeyedBitsFrom(p, k, s, b + p.samplesPerBit)
  }

  function KeyedBits(p: Params, k: Keying, s: seq<real>): string
    requires p.samplesPerBit > 0 || |s| == 0
  {
    KeyedBitsFrom(p, k, s, 0)
  }

  /** The number of windows of `samplesPerBit` samples that cover n samples, the last one possibly partial. */
  function WindowCount(n: nat, spb: nat): nat
    requires spb > 0
  {
    (n + spb - 1) / spb
  }

  /** A keyed demodulator gives one bit per window, ceil((n - b) / samplesPerBit) in all. */
  lemma {:induction false} KeyedBitsCount(p: Params, k: Keying, s: seq<real>, b: nat)
    requires p.samplesPerBit > 0 && b <= |s|
    decreases |s| - b
    ensures |KeyedBitsFrom(p, k, s, b)| == WindowCount(|s| - b, p.samplesPerBit)
  {
    var d := p.samplesPerBit;
    if b < |s| {
      var y := |s| - b - 1;
      if b + d <= |s| {
        KeyedBitsCount(p, k, s, b + d);
        assert |s| - (b + d) + d - 1 == y;
        DivStep(y, d);
      } else {
        assert KeyedBitsFrom(p, k, s, b + d) == "";
        DivUnique(y + d, d, 1, y);
      }
    } else {
      DivUnique(d - 1, d, 0, d - 1);
    }
  }


  /** Character w of a keyed demodulator's output is the decision for the window starting at w · samplesPerBit. */
  lemma {:induction false} KeyedBitsAt(p: Params, k: Keying, s: seq<real>, b: nat, w: nat)
    requires p.samplesPerBit > 0 && b + w * p.samplesPerBit < |s|
    decreases w
    ensures w < |KeyedBitsFrom(p, k, s, b)|
    ensures KeyedBitsFrom(p, k, s, b)[w] == KeyedDecision(p, k, s, b + w * p.samplesPerBit)
  {
    var d := p.samplesPerBit;
    if w > 0 {
      assert b + d + (w - 1) * d == b + w * d;
      KeyedBitsAt(p, k, s, b + d, w - 1);
    }
  }

  /** Demodulated bits, with the number of 16-QAM levels that matched no constellation point. */
  datatype Decoded = Decoded(bits: string, invalid: nat)

  /**
   * The bit pairs of the 16-QAM window starting at `b`, from its averaged I and Q levels, and how
   * many of the two matched no constellation point. The window is cut at the end of the signal,
   * which changes nothing when the length is a multiple of samplesPerBit.
   */
  function QamWindow(p: Params, s: seq<real>, b: nat): (r: Decoded)
    requires b < |s| && p.samplesPerBit > 0
  {
    var d := p.samplesPerBit;
    var e := WindowEnd(|s|, d, b);
    var i := Correlation(p, s, b, e, DEFAULT_FREQUENCY_INDEX, DEFAULT_PHASE);
    var q := Correlation(p, s, b, e, DEFAULT_FREQUENCY_INDEX, QUADRATURE_PHASE);
    var iBits, qBits := CellBits(i, d as real), CellBits(q, d as real);
    Decoded(iBits + qBits, (if iBits == "" then 1 else 0) + (if qBits == "" then 1 else 0))
  }

  /** The window's result, assembled from its two correlation sums and their cells. */
  lemma QamWindowOf(p: Params, s: seq<real>, b: nat, iSum: real, qSum: real, iBits: string, qBits: string)
    requires b < |s| && p.samplesPerBit > 0
    requires iSum == Correlation(p, s, b, WindowEnd(|s|, p.samplesPerBit, b), DEFAULT_FREQUENCY_INDEX, DEFAULT_PHASE)
    requires qSum == Correlation(p, s, b, WindowEnd(|s|, p.samplesPerBit, b), DEFAULT_FREQUENCY_INDEX, QUADRATURE_PHASE)
    requires iBits == CellBits(iSum, p.samplesPerBit as real) && qBits == CellBits(qSum, p.samplesPerBit as real)
    ensures QamWindow(p, s, b) == Decoded(iBits + qBits, (if iBits == "" then 1 else 0) + (if qBits == "" then 1 else 0))
  {
  }

  /** The 16-QAM output from window start `b` on, with the number of levels that matched no constellation point. */
  function QamFrom(p: Params, s: seq<real>, b: nat): (r: Decoded)
    requires p.samplesPerBit > 0 || b >= |s|
    decreases |s| - b
  {
    if b >= |s| then Decoded("", 0)
    else
      var window := QamWindow(p, s, b);
      var rest := QamFrom(p, s, b + p.samplesPerBit);
      Decoded(window.bits + rest.bits, window.invalid + rest.invalid)
  }

  /** Appending the window at `b` to what was decoded before `b` keeps the decoded total. */
  lemma QamAccumulate(p: Params, s: seq<real>, b: nat, next: nat, bits: string, invalid: nat, window: Decoded, total: Decoded)
    requires b < |s| && p.samplesPerBit > 0 && next == b + p.samplesPerBit && window == QamWindow(p, s, b)
    requires bits + QamFrom(p, s, b).bits == total.bits && invalid + QamFrom(p, s, b).invalid == total.invalid
    ensures (bits + window.bits) + QamFrom(p, s, next).bits == total.bits
    ensures (invalid + window.invalid) + QamFrom(p, s, next).invalid == total.invalid
  {
    var rest := QamFrom(p, s, next);
    assert QamFrom(p, s, b) == Decoded(window.bits + rest.bits, window.invalid + rest.invalid);
    AppendAssoc(bits, window.bits, rest.bits);
  }

  /** What `demodulate` returns for a signal, with the count of "Invalid symbol" errors it logs. */
  function Demodulated(p: Params, s: seq<real>, network: string): (r: Decoded)
    requires SchemeOf(network) != NoScheme && |s| > 0 ==> p.samplesPerBit > 0
  {
    match SchemeOf(network)
    case Keyed(k) => Decoded(KeyedBits(p, k, s), 0)
    case Qam16 => QamFrom(p, s, 0)
    case NoScheme => Decoded("", 0)
  }

  /** What `modulate` returns (with its own noise) for input bits that it accepts. */
  function Modulated(p: Params, bits: string, network: string, noise: nat -> real): (w: seq<real>)
    requires SchemeOf(network) == Qam16 ==> |bits| % 4 == 0 && PairsInRange(bits)
  {
    match SchemeOf(network)
    case Keyed(k) => Noisy(KeyedWave(p, k, bits), noise)
    case Qam16 => Noisy(QamWave(p, Symbols(bits)), noise)
    case NoScheme => []
  }

  /** `modulate` gives samplesPerBit samples per bit (per 4 bits for 16-QAM), and none for an unknown tag. */
  lemma ModulatedLength(p: Params, bits: string, network: string, noise: nat -> real)
    requires SchemeOf(network) == Qam16 ==> |bits| % 4 == 0 && PairsInRange(bits)
    ensures SchemeOf(network).Keyed? ==> |Modulated(p, bits, network, noise)| == |bits| * p.samplesPerBit
    ensures SchemeOf(network) == Qam16 ==> |Modulated(p, bits, network, noise)| == |bits| / 4 * p.samplesPerBit
    ensures SchemeOf(network) == NoScheme ==> Modulated(p, bits, network, noise) == []
  {
  }

  /**
   * Modulating n bits with a keyed scheme and demodulating the result with the same
   * parameters gives exactly n bits back (which bits depends on the signal values).
   */
  lemma KeyedRoundTripLength(p: Params, k: Keying, bits: string, noise: nat -> real)
    requires p.samplesPerBit > 0
    ensures |KeyedBits(p, k, Noisy(KeyedWave(p, k, bits), noise))| == |bits|
  {
    var d := p.samplesPerBit;
    var s := Noisy(KeyedWave(p, k, bits), noise);
    KeyedBitsCount(p, k, s, 0);
    assert |s| == |bits| * d;
    DivOfWindow(|bits|, d, d - 1);
  }

  // ---------------------------------------------------------------------------
  // The free helpers of the 16-QAM path

  /**
   * `mapBitsToSymbols16QAM`: `invalid_argument` for a length that is not a multiple
   * of 4, otherwise one symbol per group of four bits. Each pair of digits must index
   * the level table.
   */
  method MapBitsToSymbols(bits: string) returns (r: Result<seq<Symbol>, string>)
    requires |bits| % 4 == 0 ==> PairsInRange(bits)
    ensures |bits| % 4 != 0 ==> r == Err(QAM_LENGTH_ERROR)
    ensures |bits| % 4 == 0 ==> r == Ok(Symbols(bits))
  {
    if |bits| % BIT_SIZE_16QAM != 0 {
      return Err(QAM_LENGTH_ERROR);
    }
    ghost var all := Symbols(bits);
    var symbols: seq<Symbol> := [];
    var bitIdx: nat := 0;
    ghost var m: nat := 0;
    while bitIdx < |bits|
      invariant bitIdx == m * 4 && m <= |all| && bitIdx <= |bits|
      invariant symbols == all[..m]
    {
      var group := [Digit(bits[bitIdx]), Digit(bits[bitIdx + 1]), Digit(bits[bitIdx + 2]), Digit(bits[bitIdx + 3])];
      SymbolsStep(bits, m, group);
      symbols := symbols + [MapToConstellation(group)];
      bitIdx := bitIdx + BIT_SIZE_16QAM;
      m := m + 1;
    }
    BlockIndex(|bits|, 4, m);
    assert all[..m] == all;
    return Ok(symbols);
  }

  /** `mapSymbolToBits16QAM`: normalise, then take the bit pair of the last table entry within EPSILON. */
  method MapSymbolToBits(symbol: real) returns (bits: string)
    ensures bits == SymbolBits(symbol)
  {
    var q := NormalizeIQ(symbol);
    bits := "";
    for bitIdx := 0 to |IQ_VALUES|
      invariant bits == (match LastMatch(q, bitIdx) case None => "" case Some(j) => BIT_PAIRS[j])
    {
      if Close(IQ_VALUES[bitIdx], q) {
        bits := BIT_PAIRS[bitIdx];
      }
    }
  }

  /** `randomBinaryMessageGenerator`: `length` characters, each '0' or '1'; none when `length` is not positive. */
  method RandomBinaryMessage(length: int) returns (message: string)
    ensures |message| == (if length > 0 then length else 0)
    ensures IsBinary(message)
  {
    message := "";
    var index := 0;
    while index < length
      invariant 0 <= index && (index <= length || index == 0)
      invariant |message| == index
      invariant IsBinary(message)
      decreases length - index
    {
      assert IsBit('0');
      var c: char :| IsBit(c);
      message := message + [c];
      index := index + 1;
    }
  }

  // ---------------------------------------------------------------------------
  // The modulator object

  class Modulator {
    /** The cosine the sample values are built from. */
    const cosine: Cosine
    /** The per-bit parameters and the sample rate `readDatabase` reads at construction. */
    const signs: Signs
    const sampleRate: int
    var carrierFrequency: real
    var bitRate: nat
    var samplesPerBit: nat
    var binaryInput: string

    function Settings(): Params
      reads this
    {
      Params(cosine, signs, sampleRate, carrierFrequency, samplesPerBit)
    }

    /** The default constructor; the frequency fields stay unset until `setFrequency`. */
    constructor (cosine: Cosine, signs: Signs, sampleRate: int)
      ensures this.cosine == cosine && this.signs == signs && this.sampleRate == sampleRate
      ensures binaryInput == ""
    {
      this.cosine := cosine;
      this.signs := signs;
      this.sampleRate := sampleRate;
      binaryInput := "";
    }

    /**
     * `setFrequency`: the carrier frequency, the bit rate as the frequency truncated to
     * `unsigned int`, and `samplesPerBit` by unsigned integer division. The conversion
     * needs the frequency to fit an `unsigned int` and the division a non-zero bit rate.
     */
    method SetFrequency(frequency: real)
      requires 1.0 <= frequency < UINT_LIMIT as real
      modifies this
      ensures carrierFrequency == frequency && bitRate == frequency.Floor
      ensures samplesPerBit == SamplesPerBit(sampleRate, bitRate)
      ensures binaryInput == old(binaryInput)
    {
      carrierFrequency := frequency;
      bitRate := frequency.Floor;
      samplesPerBit := (sampleRate % UINT_LIMIT) / bitRate;
    }

    method SetBinaryInput(bits: string)
      modifies this
      ensures binaryInput == bits
      ensures carrierFrequency == old(carrierFrequency) && bitRate == old(bitRate) && samplesPerBit == old(samplesPerBit)
    {
      binaryInput := bits;
    }

    /** `addNoise`: every sample moves by its own draw, in place. */
    method AddNoise(signal: array<real>, noise: nat -> real)
      modifies signal
      ensures signal[..] == Noisy(old(signal[..]), noise)
    {
      for i := 0 to signal.Length
        invariant forall j :: 0 <= j < i ==> signal[j] == old(signal[j]) + noise(j)
        invariant forall j :: i <= j < signal.Length ==> signal[j] == old(signal[j])
      {
        signal[i] := signal[i] + noise(i);
      }
    }

    /**
     * `askModulation`, `pskModulation` and `fskModulation`: for each bit, `samplesPerBit`
     * samples built from the parameter that bit selects, then noise.
     */
    method KeyedModulation(k: Keying, noise: nat -> real) returns (signal: array<real>)
      ensures fresh(signal)
      ensures signal[..] == Noisy(KeyedWave(Settings(), k, binaryInput), noise)
    {
      var p := Settings();
      var bits := binaryInput;
      var spb := samplesPerBit;
      ghost var clean := KeyedWave(p, k, bits);
      signal := new real[|bits| * spb];
      var tick := 0;
      for bitIdx := 0 to |bits|
        invariant tick == bitIdx * spb && tick <= |clean| == signal.Length
        invariant forall j :: 0 <= j < tick ==> signal[j] == clean[j]
      {
        for sampleIdx := 0 to spb
          invariant tick == bitIdx * spb + sampleIdx && tick <= |clean| == signal.Length
          invariant forall j :: 0 <= j < tick ==> signal[j] == clean[j]
        {
          KeyedWindow(p, k, bits, bitIdx, sampleIdx);
          signal[tick] := KeyedSample(p, k, bits[bitIdx], tick);
          tick := tick + 1;
        }
        assert tick == (bitIdx + 1) * spb;
      }
      assert signal[..] == clean;
      AddNoise(signal, noise);
    }

    /** `qam16Modulation`: the symbols' I·cos + Q·sin samples, then noise; the length error propagates. */
    method QamModulation(noise: nat -> real) returns (r: Result<array<real>, string>)
      requires |binaryInput| % 4 == 0 ==> PairsInRange(binaryInput)
      ensures r.Err? <==> |binaryInput| % 4 != 0
      ensures r.Err? ==> r.error == QAM_LENGTH_ERROR
      ensures r.Ok? ==> fresh(r.value) && r.value[..] == Noisy(QamWave(Settings(), Symbols(binaryInput)), noise)
    {
      var mapped := MapBitsToSymbols(binaryInput);
      if mapped.Err? {
        return Err(mapped.error);
      }
      var symbols := mapped.value;
      var p := Settings();
      var spb := samplesPerBit;
      ghost var clean := QamWave(p, symbols);
      var signal := new real[|symbols| * spb];
      var tick := 0;
      for m := 0 to |symbols|
        invariant tick == m * spb && tick <= |clean| == signal.Length
        invariant forall j :: 0 <= j < tick ==> signal[j] == clean[j]
      {
        for sampleIdx := 0 to spb
          invariant tick == m * spb + sampleIdx && tick <= |clean| == signal.Length
          invariant forall j :: 0 <= j < tick ==> signal[j] == clean[j]
        {
          DivOfWindow(m, spb, sampleIdx);
          MulMono(m + 1, |symbols|, spb);
          var inPhase := SignalValue(p, symbols[m].inPhase, DEFAULT_FREQUENCY_INDEX, tick, DEFAULT_PHASE);
          var quadrature := SignalValue(p, symbols[m].quadrature, DEFAULT_FREQUENCY_INDEX, tick, QUADRATURE_PHASE);
          signal[tick] := inPhase + quadrature;
          tick := tick + 1;
        }
        assert tick == (m + 1) * spb;
      }
      assert signal[..] == clean;
      AddNoise(signal, noise);
      return Ok(signal);
    }

    /** `modulate`: the scheme the tag selects; an unknown tag gives an empty signal. */
    method Modulate(network: string, noise: nat -> real) returns (r: Result<array<real>, string>)
      requires SchemeOf(network) == Qam16 && |binaryInput| % 4 == 0 ==> PairsInRange(binaryInput)
      ensures r.Err? <==> SchemeOf(network) == Qam16 && |binaryInput| % 4 != 0
      ensures r.Err? ==> r.error == QAM_LENGTH_ERROR
      ensures r.Ok? ==> fresh(r.value) && r.value[..] == Modulated(Settings(), binaryInput, network, noise)
    {
      match SchemeOf(network)
      case Keyed(k) =>
        var signal := KeyedModulation(k, noise);
        return Ok(signal);
      case Qam16 =>
        r := QamModulation(noise);
      case NoScheme =>
        var signal := new real[0];
        assert signal[..] == [];
        return Ok(signal);
    }

    /** The sums of |s[k]| over one window of the ASK demodulator. */
    method AbsWindow(signal: array<real>, bitIdx: nat) returns (accumulator: real)
      requires bitIdx < signal.Length
      ensures accumulator == AbsSum(signal[..], bitIdx, WindowEnd(signal.Length, samplesPerBit, bitIdx))
    {
      accumulator := 0.0;
      var sampleIdx := 0;
      while sampleIdx < samplesPerBit && bitIdx + sampleIdx < signal.Length
        invariant sampleIdx <= samplesPerBit && bitIdx + sampleIdx <= signal.Length
        invariant accumulator == AbsSum(signal[..], bitIdx, bitIdx + sampleIdx)
      {
        accumulator := accumulator + Abs(signal[bitIdx + sampleIdx]);
        sampleIdx := sampleIdx + 1;
      }
    }

    /** The two correlations of one window, against two reference waves. */
    method CorrelateWindow(signal: array<real>, bitIdx: nat, end: nat, index0: real, phase0: Phase, index1: real, phase1: Phase)
      returns (correlation0: real, correlation1: real)
      requires bitIdx <= end <= signal.Length && end - bitIdx <= samplesPerBit
      ensures correlation0 == Correlation(Settings(), signal[..], bitIdx, end, index0, phase0)
      ensures correlation1 == Correlation(Settings(), signal[..], bitIdx, end, index1, phase1)
    {
      var p := Settings();
      correlation0, correlation1 := 0.0, 0.0;
      var sampleIdx := 0;
      while sampleIdx < samplesPerBit && bitIdx + sampleIdx < end
        invariant sampleIdx <= samplesPerBit && bitIdx + sampleIdx <= end
        invariant correlation0 == Correlation(p, signal[..], bitIdx, bitIdx + sampleIdx, index0, phase0)
        invariant correlation1 == Correlation(p, signal[..], bitIdx, bitIdx + sampleIdx, index1, phase1)
      {
        var tick := bitIdx + sampleIdx;
        var signalValue := signal[tick];
        correlation0 := correlation0 + SignalValue(p, signalValue, index0, tick, phase0);
        correlation1 := correlation1 + SignalValue(p, signalValue, index1, tick, phase1);
        sampleIdx := sampleIdx + 1;
      }
    }

    /** The decision for the window at `bitIdx` of `askDemodulation`, `pskDemodulation` or `fskDemodulation`. */
    method KeyedWindowBit(k: Keying, signal: array<real>, bitIdx: nat) returns (c: char)
      requires bitIdx < signal.Length && samplesPerBit > 0
      ensures c == KeyedDecision(Settings(), k, signal[..], bitIdx)
    {
      var end := WindowEnd(signal.Length, samplesPerBit, bitIdx);
      match k
      case Ask =>
        var accumulator := AbsWindow(signal, bitIdx);
        accumulator := accumulator / samplesPerBit as real;
        c := if accumulator > signs.askZero then '1' else '0';
      case Psk =>
        var correlation0, correlation1 := CorrelateWindow(signal, bitIdx, end,
          DEFAULT_FREQUENCY_INDEX, Phase(0, signs.pskZero), DEFAULT_FREQUENCY_INDEX, Phase(0, signs.pskOne));
        c := if correlation0 > correlation1 then '0' else '1';
      case Fsk =>
        var correlation0, correlation1 := CorrelateWindow(signal, bitIdx, end,
          signs.fskZero, DEFAULT_PHASE, signs.fskOne, DEFAULT_PHASE);
        c := if correlation1 > correlation0 then '1' else '0';
    }

    /** The window loop of the ASK, PSK and FSK demodulators: one decided bit per window. */
    method KeyedDemodulation(k: Keying, signal: array<real>) returns (bits: string)
      requires samplesPerBit > 0 || signal.Length == 0
      ensures bits == KeyedBits(Settings(), k, signal[..])
    {
      ghost var p := Settings();
      ghost var s := signal[..];
      bits := "";
      var bitIdx := 0;
      while bitIdx < signal.Length
        invariant bits + KeyedBitsFrom(p, k, s, bitIdx) == KeyedBits(p, k, s)
        decreases signal.Length - bitIdx
      {
        var c := KeyedWindowBit(k, signal, bitIdx);
        AppendAssoc(bits, [c], KeyedBitsFrom(p, k, s, bitIdx + samplesPerBit));
        bits := bits + [c];
        bitIdx := bitIdx + samplesPerBit;
      }
      assert bits + "" == bits;
    }

    /** One window of `qam16Demodulation`: the bit pairs of its averaged I and Q levels, and how many matched no point. */
    method QamWindowBits(signal: array<real>, bitIdx: nat) returns (window: Decoded)
      requires samplesPerBit > 0 && bitIdx < signal.Length
      ensures window == QamWindow(Settings(), signal[..], bitIdx)
    {
      var d := samplesPerBit;
      var end := WindowEnd(signal.Length, d, bitIdx);
      var iSum, qSum := CorrelateWindow(signal, bitIdx, end,
        DEFAULT_FREQUENCY_INDEX, DEFAULT_PHASE, DEFAULT_FREQUENCY_INDEX, QUADRATURE_PHASE);
      var iAvg := iSum / d as real;
      var qAvg := qSum / d as real;
      var iBits := MapSymbolToBits(iAvg * 2.0);
      var qBits := MapSymbolToBits(qAvg * 2.0);
      DemapOfSum(iSum, d as real, iBits);
      DemapOfSum(qSum, d as real, qBits);
      QamWindowOf(Settings(), signal[..], bitIdx, iSum, qSum, iBits, qBits);
      window := Decoded(iBits + qBits, (if iBits == "" then 1 else 0) + (if qBits == "" then 1 else 0));
    }

    /** One pass of the `qam16Demodulation` loop: decodes the window at `bitIdx` onto what came before. */
    method QamStep(signal: array<real>, bitIdx: nat, bits: string, invalid: nat,
                   ghost p: Params, ghost s: seq<real>, ghost total: Decoded)
      returns (bits': string, invalid': nat, next: nat)
      requires p == Settings() && s == signal[..]
      requires p.samplesPerBit > 0 && bitIdx < |s|
      requires bits + QamFrom(p, s, bitIdx).bits == total.bits && invalid + QamFrom(p, s, bitIdx).invalid == total.invalid
      ensures next == bitIdx + p.samplesPerBit
      ensures bits' + QamFrom(p, s, next).bits == total.bits && invalid' + QamFrom(p, s, next).invalid == total.invalid
    {
      var window := QamWindowBits(signal, bitIdx);
      assert Settings() == p && signal[..] == s;
      next := bitIdx + samplesPerBit;
      QamAccumulate(p, s, bitIdx, next, bits, invalid, window, total);
      bits' := bits + window.bits;
      invalid' := invalid + window.invalid;
    }

    /** `qam16Demodulation`: the window loop; the windows are whole because the length is a multiple of samplesPerBit. */
    method QamDemodulation(signal: array<real>) returns (bits: string, invalid: nat)
      requires samplesPerBit > 0 || signal.Length == 0
      requires samplesPerBit > 0 ==> signal.Length % samplesPerBit == 0
      ensures Decoded(bits, invalid) == Demodulated(Settings(), signal[..], "5G")
    {
      ghost var p, s := Settings(), signal[..];
      ghost var total := QamFrom(p, s, 0);
      bits, invalid := "", 0;
      var bitIdx: nat := 0;
      while bitIdx < signal.Length
        invariant p == Settings() && s == signal[..] && (p.samplesPerBit > 0 || |s| == 0)
        invariant bits + QamFrom(p, s, bitIdx).bits == total.bits && invalid + QamFrom(p, s, bitIdx).invalid == total.invalid
        decreases signal.Length - bitIdx
      {
        bits, invalid, bitIdx := QamStep(signal, bitIdx, bits, invalid, p, s, total);
      }
      assert bits + "" == bits;
    }

    /** `demodulate`: the scheme the tag selects; an unknown tag gives "". */
    method Demodulate(signal: array<real>, network: string) returns (bits: string, invalid: nat)
      requires SchemeOf(network) != NoScheme && signal.Length > 0 ==> samplesPerBit > 0
      requires SchemeOf(network) == Qam16 && samplesPerBit > 0 ==> signal.Length % samplesPerBit == 0
      ensures Decoded(bits, invalid) == Demodulated(Settings(), signal[..], network)
    {
      match SchemeOf(network)
      case Keyed(k) =>
        bits := KeyedDemodulation(k, signal);
        invalid := 0;
      case Qam16 =>
        bits, invalid := QamDemodulation(signal);
      case NoScheme =>
        bits, invalid := "", 0;
    }
  }
}

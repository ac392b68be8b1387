/** filters/exponential_smoothing.go: the sampling loop, its bounded queue of averages and its reader.
    Instants and durations are nanoseconds of a monotone clock. */
module Sampler {
  import opened Prelude
  import opened Smoothing

  datatype Config = Config(averageLength: int, averageInterval: int, queueLength: int)

  const DEFAULT := Config(5, 10_000_000_000, 6)

  datatype Setting = AverageConfig(sampleCount: int, interval: int) | QueueLength(length: int)

  function Configure(settings: seq<Setting>): Config {
    if settings == [] then DEFAULT
    else
      var before := Configure(Front(settings));
      match Last(settings)
      case AverageConfig(n, i) => before.(averageLength := n, averageInterval := i)
      case QueueLength(n) => before.(queueLength := n)
  }

  /** The validation of NewExponentialSmoothing. */
  predicate Accepted(c: Config) {
    c.queueLength > 0 && c.averageLength > 0 && c.averageInterval > 1_000_000
  }

  /** timeBetweenSamples. */
  function Spacing(c: Config): int
    requires Accepted(c)
  {
    c.averageInterval / c.averageLength
  }

  // ----- Specification: the pipeline driven by what the loop observes

  datatype Sample = Sample(value: real, at: int)

  /** What is averaged: never an empty slice. */
  type Batch = s: seq<Sample> | |s| > 0 witness [Sample(0.0, 0)]

  /** One iteration: the instant from which the wait is computed, the instant stored as lastSampleTime, the
      reading, the instant compared with the end of the averaging interval and, if an average is made, the
      instant stored as lastAverageTime. */
  datatype Round = Round(waitedFrom: int, sampledAt: int, reading: Option<real>, checkedAt: int, stampedAt: int)

  datatype Pipeline = Pipeline(
    pending: seq<Sample>,         // the local slice of values
    batches: seq<Batch>,          // every batch averaged so far
    queue: seq<real>,
    stamps: seq<int>,             // every value lastAverageTime has had
    lastSample: int, lastAverage: int,
    clock: int)                   // the latest instant observed

  function SumOf(batch: seq<Sample>): real {
    if batch == [] then 0.0 else SumOf(Front(batch)) + Last(batch).value
  }

  function Average(batch: Batch): real {
    SumOf(batch) / |batch| as real
  }

  /** The last n elements of s, or all of them. */
  function LastOf<T>(s: seq<T>, n: nat): (r: seq<T>)
    ensures |r| == if |s| <= n then |s| else n
    ensures forall i :: 0 <= i < |r| ==> r[i] == s[|s| - |r| + i]
  {
    if |s| <= n then s else s[|s| - n..]
  }

  /** appendToQueue. */
  function Push(c: Config, queue: seq<real>, value: real): seq<real>
    requires Accepted(c)
  {
    LastOf(queue + [value], c.queueLength)
  }

  predicate Due(c: Config, p: Pipeline, r: Round) {
    p.lastAverage + c.averageInterval < r.checkedAt
  }

  function Step(c: Config, p: Pipeline, r: Round): Pipeline
    requires Accepted(c)
  {
    if r.reading.None? then p.(lastSample := r.sampledAt, clock := r.sampledAt)
    else
      var pending := p.pending + [Sample(r.reading.value, r.sampledAt)];
      if Due(c, p, r) then
        Pipeline([], p.batches + [pending], Push(c, p.queue, Average(pending)), p.stamps + [r.stampedAt],
                 r.sampledAt, r.stampedAt, r.stampedAt)
      else
        p.(pending := pending, lastSample := r.sampledAt, clock := r.checkedAt)
  }

  /** What a monotone clock and a Sleep that never wakes early allow a round to observe. */
  predicate Follows(c: Config, p: Pipeline, r: Round)
    requires Accepted(c)
  {
    && p.clock <= r.waitedFrom <= r.sampledAt && p.lastSample + Spacing(c) <= r.sampledAt
    && r.sampledAt <= r.checkedAt <= r.stampedAt
  }

  function Run(c: Config, p: Pipeline, rounds: seq<Round>): Pipeline
    requires Accepted(c)
  {
    if rounds == [] then p else Step(c, Run(c, p, Front(rounds)), Last(rounds))
  }

  predicate Possible(c: Config, p: Pipeline, rounds: seq<Round>)
    requires Accepted(c)
  {
    rounds == [] || (Possible(c, p, Front(rounds)) && Follows(c, Run(c, p, Front(rounds)), Last(rounds)))
  }

  /** The state that NewExponentialSmoothing leaves; the two instants are read in this order. */
  function Initial(lastSample: int, lastAverage: int): Pipeline {
    Pipeline([], [], [], [lastAverage], lastSample, lastAverage, lastAverage)
  }

  /** The result of Read for a given factor; None is ErrNotEnoughMetrics. */
  function ReadQueue(c: Config, queue: seq<real>, alpha: real): Option<real>
    requires Accepted(c)
  {
    if |queue| < c.queueLength then None else Some(Smooth(queue, |queue| - 1, alpha))
  }

  // ----- What the loop observes of its surroundings, in order

  /** A result of time.Now, a result of the metrics reader, or whether some goroutine had called Stop by the
      time the flag was read. */
  datatype Observation = Clock(at: int) | Metric(reading: Option<real>) | Others(stop: bool)

  /** Before the reading of a round: a wait, and a flag that is not set. */
  function Waited(r: Round): seq<Observation> {
    [Clock(r.waitedFrom), Clock(r.sampledAt), Others(false)]
  }

  /** After the reading: the instants looked at, which depend on whether an average is due. */
  function Judged(c: Config, p: Pipeline, r: Round): seq<Observation> {
    if r.reading.None? then []
    else if Due(c, p, r) then [Clock(r.checkedAt), Clock(r.stampedAt)]
    else [Clock(r.checkedAt)]
  }

  /** The observations that make up a round. */
  function RoundTrace(c: Config, p: Pipeline, r: Round): seq<Observation> {
    Waited(r) + ([Metric(r.reading)] + Judged(c, p, r))
  }

  function TraceOf(c: Config, p: Pipeline, rounds: seq<Round>): seq<Observation>
    requires Accepted(c)
  {
    if rounds == [] then []
    else TraceOf(c, p, Front(rounds)) + RoundTrace(c, Run(c, p, Front(rounds)), Last(rounds))
  }

  function MetricOf(o: Observation): seq<real> {
    if o.Metric? && o.reading.Some? then [o.reading.value] else []
  }

  /** The values that the metrics reader returned, in order. */
  function Metrics(trace: seq<Observation>): seq<real> {
    if trace == [] then [] else Metrics(Front(trace)) + MetricOf(Last(trace))
  }

  // ----- The source's form

  /** The clock, the metrics reader and the other goroutines. Their results are not determined; time only moves
      forward. The trace records every result handed out. */
  class World {
    var now: int
    ghost var trace: seq<Observation>

    constructor ()
      ensures trace == []
    {
      now, trace := 0, [];
    }

    method Now() returns (t: int)
      modifies this
      ensures old(now) <= t == now
      ensures trace == old(trace) + [Clock(t)]
    {
      var passed: int :| passed >= 0;
      now := now + passed;
      t := now;
      trace := trace + [Clock(t)];
    }

    method Sleep(duration: int)
      modifies this`now
      ensures old(now) + duration <= now && old(now) <= now
    {
      var passed: int :| passed >= 0;
      now := now + (if duration > 0 then duration else 0) + passed;
    }

    method ReadMetric() returns (reading: Option<real>)
      modifies this
      ensures old(now) <= now
      ensures trace == old(trace) + [Metric(reading)]
    {
      var passed: int :| passed >= 0;
      now := now + passed;
      var value: real := *;
      if * {
        reading := Some(value);
      } else {
        reading := None;
      }
      trace := trace + [Metric(reading)];
    }

    method OthersMove() returns (stop: bool)
      modifies this`trace
      ensures trace == old(trace) + [Others(stop)]
    {
      stop := *;
      trace := trace + [Others(stop)];
    }
  }

  /** The rounds were possible, lead to p, and are what has been seen. */
  predicate Reached(c: Config, start: Pipeline, rounds: seq<Round>, p: Pipeline, seen: seq<Observation>)
    requires Accepted(c)
  {
    Possible(c, start, rounds) && p == Run(c, start, rounds) && seen == TraceOf(c, start, rounds)
  }

  lemma ReachedStep(c: Config, start: Pipeline, rounds: seq<Round>, p: Pipeline, seen: seq<Observation>, r: Round)
    requires Accepted(c) && Reached(c, start, rounds, p, seen) && Follows(c, p, r)
    ensures Reached(c, start, rounds + [r], Step(c, p, r), seen + RoundTrace(c, p, r))
  {
    FrontOfAppend(rounds, r);
  }

  lemma ConcatAssociates<T>(a: seq<T>, b: seq<T>, c: seq<T>)
    ensures a + b + c == a + (b + c)
  {
  }

  /** The last observations of a loop that returns: a wait, and a flag that was set before or by then. */
  predicate EndsStopped(end: seq<Observation>, before: bool) {
    |end| == 3 && end[0].Clock? && end[1].Clock? && end[2].Others? && (end[2].stop || before)
  }

  class ExponentialSmoothing {
    const config: Config
    var stopped: bool
    var queue: seq<real>
    var lastSampleTime: int
    var lastAverageTime: int

    constructor (settings: seq<Setting>, world: World)
      requires Accepted(Configure(settings))
      modifies world
      ensures config == Configure(settings) && !stopped && queue == []
      ensures world.trace == old(world.trace) + [Clock(lastSampleTime), Clock(lastAverageTime)]
      ensures old(world.now) <= lastSampleTime <= lastAverageTime == world.now
    {
      config := Configure(settings);
      stopped, queue := false, [];
      lastSampleTime, lastAverageTime := 0, 0;
      new;
      lastSampleTime := world.Now();
      lastAverageTime := world.Now();
    }

    /** Waits for the next slot. */
    method WaitForNextSample(world: World) returns (ghost waitedFrom: int)
      requires Accepted(config)
      modifies world, this`lastSampleTime
      ensures old(world.now) <= waitedFrom <= lastSampleTime == world.now
      ensures old(lastSampleTime) + Spacing(config) <= lastSampleTime
      ensures world.trace == old(world.trace) + [Clock(waitedFrom), Clock(lastSampleTime)]
    {
      var timeBetweenSamples := config.averageInterval / config.averageLength;
      var timeToNextSample := lastSampleTime + timeBetweenSamples;
      var now := world.Now();
      waitedFrom := now;
      var timeToWait := timeToNextSample - now;
      if timeToWait > 0 {
        world.Sleep(timeToWait);
      }
      lastSampleTime := world.Now();
    }

    /** Reads the flag, which another goroutine may have set meanwhile. */
    method IsStopped(world: World) returns (result: bool)
      modifies world`trace, this`stopped
      ensures exists stop: bool ::
        world.trace == old(world.trace) + [Others(stop)] && result == stopped == (old(stopped) || stop)
    {
      var stop := world.OthersMove();
      if stop {
        Stop();
      }
      return stopped;
    }

    method AppendToQueue(value: real)
      requires Accepted(config) && |queue| <= config.queueLength
      modifies this`queue
      ensures queue == Push(config, old(queue), value)
    {
      queue := queue + [value];
      if |queue| > config.queueLength {
        queue := queue[|queue| - config.queueLength..];
      }
    }

    /** The object, its local slice of values and the clock are in the state p of the pipeline. */
    ghost predicate At(p: Pipeline, values: seq<real>, now: int)
      reads this
    {
      && Accepted(config) && |queue| <= config.queueLength
      && |values| == |p.pending| && (forall i :: 0 <= i < |values| ==> values[i] == p.pending[i].value)
      && queue == p.queue && lastSampleTime == p.lastSample && lastAverageTime == p.lastAverage
      && p.clock <= now
    }

    /** Observed after any number of iterations, or when it returns because of Stop: the loop has run the
        pipeline to the state p on rounds that the clock allows, and these rounds are exactly what it has seen
        of its surroundings. It returns early only after one more wait, having found the flag set. */
    method Start(world: World, iterations: nat)
      returns (values: seq<real>, ghost rounds: seq<Round>, ghost p: Pipeline,
               ghost seen: seq<Observation>, ghost end: seq<Observation>)
      requires Accepted(config) && queue == []
      requires lastSampleTime <= lastAverageTime <= world.now
      modifies world, this
      ensures world.trace == old(world.trace) + seen + end
      ensures Reached(config, Initial(old(lastSampleTime), old(lastAverageTime)), rounds, p, seen)
      ensures queue == p.queue && |values| == |p.pending|
      ensures forall i :: 0 <= i < |values| ==> values[i] == p.pending[i].value
      ensures |rounds| <= iterations && (old(stopped) ==> rounds == [])
      ensures |rounds| == iterations ==> end == [] && stopped == old(stopped)
      ensures |rounds| < iterations ==> EndsStopped(end, old(stopped)) && stopped
    {
      ghost var start := Initial(lastSampleTime, lastAverageTime);
      values, rounds, p, seen, end := [], [], start, [], [];
      for i := 0 to iterations
        invariant |rounds| == i && (old(stopped) ==> i == 0) && end == []
        invariant stopped == old(stopped)
        invariant At(p, values, world.now)
        invariant Reached(config, start, rounds, p, seen) && world.trace == old(world.trace) + seen
      {
        var done;
        ghost var round, more;
        values, done, round, more := Iterate(world, values, p);
        if done {
          end := more;
          return;
        }
        ReachedStep(config, start, rounds, p, seen, round);
        ConcatAssociates(old(world.trace), seen, more);
        rounds, p, seen := rounds + [round], Step(config, p, round), seen + more;
      }
    }

    /** One iteration: a wait and then, unless the flag is set, a round. */
    method Iterate(world: World, values: seq<real>, ghost p: Pipeline)
      returns (left: seq<real>, done: bool, ghost round: Round, ghost seen: seq<Observation>)
      requires At(p, values, world.now)
      modifies world, this
      ensures world.trace == old(world.trace) + seen
      ensures done == stopped && (old(stopped) ==> done)
      ensures done ==> EndsStopped(seen, old(stopped)) && left == values && queue == old(queue)
      ensures !done ==> Follows(config, p, round) && At(Step(config, p, round), left, world.now)
      ensures !done ==> seen == RoundTrace(config, p, round)
    {
      ghost var before := world.trace;
      ghost var waitedFrom := WaitForNextSample(world);
      done := IsStopped(world);
      left, seen := values, world.trace[|before|..];
      round := Round(waitedFrom, lastSampleTime, None, lastSampleTime, lastSampleTime);
      if !done {
        left, round := SampleOnce(world, values, p, waitedFrom);
        seen := RoundTrace(config, p, round);
      }
    }

    /** The part of an iteration after the wait: one reading and, when it is due, one average. */
    method SampleOnce(world: World, values: seq<real>, ghost p: Pipeline, ghost waitedFrom: int)
      returns (left: seq<real>, ghost round: Round)
      requires At(p.(lastSample := lastSampleTime), values, world.now)
      requires p.clock <= waitedFrom <= lastSampleTime == world.now && p.lastSample + Spacing(config) <= lastSampleTime
      modifies world, this`queue, this`lastAverageTime
      ensures Follows(config, p, round) && At(Step(config, p, round), left, world.now)
      ensures round.waitedFrom == waitedFrom && round.sampledAt == lastSampleTime
      ensures old(world.trace) <= world.trace
      ensures [Clock(waitedFrom), Clock(lastSampleTime), Others(false)] + world.trace[|old(world.trace)|..]
           == RoundTrace(config, p, round)
    {
      left := values;
      var reading := world.ReadMetric();
      round := Round(waitedFrom, lastSampleTime, reading, world.now, world.now);
      if reading.Some? {
        left := left + [reading.value];
        ghost var batch: Batch := p.pending + [Sample(reading.value, lastSampleTime)];
        var checkedAt := world.Now();
        round := round.(checkedAt := checkedAt, stampedAt := checkedAt);
        if lastAverageTime + config.averageInterval < checkedAt {
          AppendAverage(left, batch);
          left := [];
          lastAverageTime := world.Now();
          round := round.(stampedAt := lastAverageTime);
        }
      }
    }

    /** The computation of the next average: sums the values in a loop and queues their mean. */
    method AppendAverage(values: seq<real>, ghost batch: Batch)
      requires Accepted(config) && |queue| <= config.queueLength
      requires |values| == |batch| && forall i :: 0 <= i < |values| ==> values[i] == batch[i].value
      modifies this`queue
      ensures queue == Push(config, old(queue), Average(batch))
    {
      var result := 0.0;
      for i := 0 to |values|
        invariant result == SumOf(batch[..i])
      {
        assert Front(batch[..i + 1]) == batch[..i];
        result := result + values[i];
      }
      assert batch[..|values|] == batch;
      AppendToQueue(result / |values| as real);
    }

    /** Reads a copy of the queue; alpha stands for exp(-|queue|). */
    method Read(alpha: real) returns (r: Option<real>)
      requires Accepted(config)
      ensures r == ReadQueue(config, queue, alpha)
    {
      var values := queue;
      if |values| < config.queueLength {
        return None;
      }
      return Some(Smooth(values, |values| - 1, alpha));
    }

    method Stop()
      modifies this`stopped
      ensures stopped
    {
      stopped := true;
    }
  }

  /** Builds the filter, or null where the configuration is refused. */
  method NewExponentialSmoothing(settings: seq<Setting>, world: World) returns (e: ExponentialSmoothing?)
    modifies world
    ensures e != null <==> Accepted(Configure(settings))
    ensures e != null ==> fresh(e) && e.config == Configure(settings) && e.queue == []
    ensures e != null ==> e.lastSampleTime <= e.lastAverageTime == world.now
  {
    if Accepted(Configure(settings)) {
      e := new ExponentialSmoothing(settings, world);
    } else {
      e := null;
    }
  }

  // ----- Conservation

  function Concat(batches: seq<Batch>): seq<Sample> {
    if batches == [] then [] else Concat(Front(batches)) + Last(batches)
  }

  function SampleOf(r: Round): seq<Sample> {
    if r.reading.Some? then [Sample(r.reading.value, r.sampledAt)] else []
  }

  /** The successful readings, in order. */
  function SamplesRead(rounds: seq<Round>): seq<Sample> {
    if rounds == [] then [] else SamplesRead(Front(rounds)) + SampleOf(Last(rounds))
  }

  function Averages(batches: seq<Batch>): seq<real> {
    seq(|batches|, i requires 0 <= i < |batches| => Average(batches[i]))
  }

  /** The batches and the pending samples are the successful readings, cut into non-empty pieces; the queue
      is the window of the latest averages. */
  ghost predicate Conserved(c: Config, p: Pipeline, rounds: seq<Round>)
    requires Accepted(c)
  {
    && Concat(p.batches) + p.pending == SamplesRead(rounds)
    && p.queue == LastOf(Averages(p.batches), c.queueLength)
  }

  lemma PushKeepsWindow(c: Config, averages: seq<real>, value: real)
    requires Accepted(c)
    ensures Push(c, LastOf(averages, c.queueLength), value) == LastOf(averages + [value], c.queueLength)
  {
  }

  lemma {:induction false} Conservation(c: Config, lastSample: int, lastAverage: int, rounds: seq<Round>)
    requires Accepted(c)
    ensures Conserved(c, Run(c, Initial(lastSample, lastAverage), rounds), rounds)
  {
    if rounds != [] {
      var start := Initial(lastSample, lastAverage);
      var p, r := Run(c, start, Front(rounds)), Last(rounds);
      Conservation(c, lastSample, lastAverage, Front(rounds));
      if r.reading.Some? {
        var pending := p.pending + [Sample(r.reading.value, r.sampledAt)];
        if Due(c, p, r) {
          FrontOfAppend(p.batches, pending);
          PushKeepsWindow(c, Averages(p.batches), Average(pending));
          assert Averages(p.batches + [pending]) == Averages(p.batches) + [Average(pending)];
        }
      }
    }
  }

  function Values(samples: seq<Sample>): seq<real> {
    seq(|samples|, i requires 0 <= i < |samples| => samples[i].value)
  }

  lemma {:induction false} MetricsOfConcat(a: seq<Observation>, b: seq<Observation>)
    ensures Metrics(a + b) == Metrics(a) + Metrics(b)
  {
    if b == [] {
      assert a + b == a;
    } else {
      assert Front(a + b) == a + Front(b) && Last(a + b) == Last(b);
      MetricsOfConcat(a, Front(b));
      var left, middle, right := Metrics(a), Metrics(Front(b)), MetricOf(Last(b));
      assert (left + middle) + right == left + (middle + right);
    }
  }

  lemma {:induction false} NoMetrics(trace: seq<Observation>)
    requires forall i :: 0 <= i < |trace| ==> !trace[i].Metric?
    ensures Metrics(trace) == []
  {
    if trace != [] {
      NoMetrics(Front(trace));
    }
  }

  /** Of a sequence around one reading only the reading counts. */
  lemma MetricsAround(before: seq<Observation>, reading: Observation, after: seq<Observation>)
    requires forall i :: 0 <= i < |before| ==> !before[i].Metric?
    requires forall i :: 0 <= i < |after| ==> !after[i].Metric?
    ensures Metrics(before + ([reading] + after)) == MetricOf(reading)
  {
    MetricsOfConcat(before, [reading] + after);
    MetricsOfConcat([reading], after);
    MetricsOfOne(reading);
    NoMetrics(before);
    NoMetrics(after);
  }

  lemma MetricsOfRound(c: Config, p: Pipeline, r: Round)
    ensures Metrics(RoundTrace(c, p, r)) == Values(SampleOf(r))
  {
    MetricsAround(Waited(r), Metric(r.reading), Judged(c, p, r));
  }

  lemma MetricsOfOne(o: Observation)
    ensures Metrics([o]) == MetricOf(o)
  {
    assert Front([o]) == [];
  }

  lemma {:induction false} MetricsOfRounds(c: Config, p: Pipeline, rounds: seq<Round>)
    requires Accepted(c)
    ensures Metrics(TraceOf(c, p, rounds)) == Values(SamplesRead(rounds))
  {
    if rounds != [] {
      var before, r := Front(rounds), Last(rounds);
      var state := Run(c, p, before);
      MetricsOfRounds(c, p, before);
      MetricsOfConcat(TraceOf(c, p, before), RoundTrace(c, state, r));
      MetricsOfRound(c, state, r);
      ValuesOfConcat(SamplesRead(before), SampleOf(r));
    }
  }

  lemma ValuesOfConcat(a: seq<Sample>, b: seq<Sample>)
    ensures Values(a + b) == Values(a) + Values(b)
  {
  }

  /** What the loop has averaged and what it still holds are exactly the values that the metrics reader has
      returned to it, in order, whether it is still running or has returned. */
  lemma LoopKeepsMetrics(c: Config, lastSample: int, lastAverage: int, rounds: seq<Round>,
                         end: seq<Observation>, stopped: bool)
    requires Accepted(c) && (end == [] || EndsStopped(end, stopped))
    ensures var start := Initial(lastSample, lastAverage);
      var p := Run(c, start, rounds);
      Metrics(TraceOf(c, start, rounds) + end) == Values(Concat(p.batches) + p.pending)
  {
    var start := Initial(lastSample, lastAverage);
    MetricsOfConcat(TraceOf(c, start, rounds), end);
    MetricsOfRounds(c, start, rounds);
    NoMetrics(end);
    Conservation(c, lastSample, lastAverage, rounds);
  }

  /** Every average weighted by the size of its batch. */
  function WeightedAverages(batches: seq<Batch>): real {
    if batches == [] then 0.0
    else WeightedAverages(Front(batches)) + Average(Last(batches)) * |Last(batches)| as real
  }

  lemma {:induction false} SumOfConcat(a: seq<Sample>, b: seq<Sample>)
    ensures SumOf(a + b) == SumOf(a) + SumOf(b)
  {
    if b == [] {
      assert a + b == a;
    } else {
      assert Front(a + b) == a + Front(b);
      SumOfConcat(a, Front(b));
    }
  }

  lemma AverageTimesSize(batch: Batch)
    ensures Average(batch) * |batch| as real == SumOf(batch)
  {
    var sum, n := SumOf(batch), |batch| as real;
    assert sum / n * n == sum;
  }

  lemma {:induction false} AveragesWeighBatches(batches: seq<Batch>)
    ensures WeightedAverages(batches) == SumOf(Concat(batches))
  {
    if batches != [] {
      AveragesWeighBatches(Front(batches));
      AverageTimesSize(Last(batches));
      SumOfConcat(Concat(Front(batches)), Last(batches));
    }
  }

  /** No reading is lost or counted twice: averages weighted by their batch sizes, plus the pending values,
      add up to everything read. */
  lemma TotalIsConserved(c: Config, lastSample: int, lastAverage: int, rounds: seq<Round>)
    requires Accepted(c)
    ensures var p := Run(c, Initial(lastSample, lastAverage), rounds);
      WeightedAverages(p.batches) + SumOf(p.pending) == SumOf(SamplesRead(rounds))
  {
    Conservation(c, lastSample, lastAverage, rounds);
    var p := Run(c, Initial(lastSample, lastAverage), rounds);
    AveragesWeighBatches(p.batches);
    SumOfConcat(Concat(p.batches), p.pending);
  }

  // ----- The result of Read never leaves the data

  predicate ValuesWithin(batch: seq<Sample>, lo: real, hi: real) {
    forall i :: 0 <= i < |batch| ==> lo <= batch[i].value <= hi
  }

  lemma {:induction false} SumWithin(batch: seq<Sample>, lo: real, hi: real)
    requires ValuesWithin(batch, lo, hi)
    ensures |batch| as real * lo <= SumOf(batch) <= |batch| as real * hi
  {
    if batch != [] {
      SumWithin(Front(batch), lo, hi);
      var n := |Front(batch)| as real;
      assert |batch| as real * lo == n * lo + lo && |batch| as real * hi == n * hi + hi;
    }
  }

  lemma Quotient(s: real, n: real, lo: real, hi: real)
    requires n > 0.0 && n * lo <= s <= n * hi
    ensures lo <= s / n <= hi
  {
    var q := s / n;
    assert n * q == s;
    if q < lo {
      ScaleStrict(n, q, lo);
    }
    if hi < q {
      ScaleStrict(n, hi, q);
    }
  }

  lemma AverageWithin(batch: Batch, lo: real, hi: real)
    requires ValuesWithin(batch, lo, hi)
    ensures lo <= Average(batch) <= hi
  {
    SumWithin(batch, lo, hi);
    Quotient(SumOf(batch), |batch| as real, lo, hi);
  }

  /** The window of the averages is the averages of the window. */
  lemma WindowOfAverages(batches: seq<Batch>, n: nat)
    ensures LastOf(Averages(batches), n) == Averages(LastOf(batches, n))
  {
  }

  lemma AveragesWithin(batches: seq<Batch>, lo: real, hi: real)
    requires forall b :: b in batches ==> ValuesWithin(b, lo, hi)
    ensures forall i :: 0 <= i < |Averages(batches)| ==> lo <= Averages(batches)[i] <= hi
  {
    forall i | 0 <= i < |batches| ensures lo <= Averages(batches)[i] <= hi {
      AverageWithin(batches[i], lo, hi);
    }
  }

  /** Whenever Read succeeds, its result lies within any bounds of the raw samples of the last queueLength
      batches, whatever the rounds were. */
  lemma ReadWithinRecentSamples(c: Config, lastSample: int, lastAverage: int, rounds: seq<Round>,
                                alpha: real, lo: real, hi: real)
    requires Accepted(c) && 0.0 < alpha < 1.0
    requires var p := Run(c, Initial(lastSample, lastAverage), rounds);
      && ReadQueue(c, p.queue, alpha).Some?
      && forall b :: b in LastOf(p.batches, c.queueLength) ==> ValuesWithin(b, lo, hi)
    ensures lo <= ReadQueue(c, Run(c, Initial(lastSample, lastAverage), rounds).queue, alpha).value <= hi
  {
    var p := Run(c, Initial(lastSample, lastAverage), rounds);
    Conservation(c, lastSample, lastAverage, rounds);
    WindowOfAverages(p.batches, c.queueLength);
    AveragesWithin(LastOf(p.batches, c.queueLength), lo, hi);
    SmoothWithin(p.queue, |p.queue| - 1, alpha, lo, hi);
  }

  /** Read succeeds exactly once queueLength averages have been made. */
  lemma ReadSucceedsOnceFull(c: Config, lastSample: int, lastAverage: int, rounds: seq<Round>, alpha: real)
    requires Accepted(c)
    ensures var p := Run(c, Initial(lastSample, lastAverage), rounds);
      ReadQueue(c, p.queue, alpha).Some? <==> |p.batches| >= c.queueLength
  {
    Conservation(c, lastSample, lastAverage, rounds);
  }

  /** What Read returns, in full: the weighted sum of the means of the last queueLength batches, oldest first,
      with positive weights that add up to one. */
  lemma ReadIsWeightedAverages(c: Config, lastSample: int, lastAverage: int, rounds: seq<Round>,
                               alpha: real, b: real, weights: seq<real>, recent: seq<Batch>)
    requires Accepted(c) && 0.0 < alpha < 1.0 && b == 1.0 - alpha
    requires weights == Weights(c.queueLength - 1, alpha, b)
    requires var p := Run(c, Initial(lastSample, lastAverage), rounds);
      ReadQueue(c, p.queue, alpha).Some? && recent == LastOf(p.batches, c.queueLength)
    ensures |recent| == |weights| == c.queueLength
    ensures ReadQueue(c, Run(c, Initial(lastSample, lastAverage), rounds).queue, alpha)
         == Some(WeightedSum(weights, Averages(recent)))
    ensures Total(weights) == 1.0 && forall w :: w in weights ==> w > 0.0
  {
    RecentQueue(c, lastSample, lastAverage, rounds, recent);
    FullQueueIsWeighted(c, Averages(recent), alpha, b, weights);
    WeightsSumToOne(c.queueLength - 1, alpha, b);
  }

  /** A full queue is the means of the last queueLength batches. */
  lemma RecentQueue(c: Config, lastSample: int, lastAverage: int, rounds: seq<Round>, recent: seq<Batch>)
    requires Accepted(c)
    requires var p := Run(c, Initial(lastSample, lastAverage), rounds);
      |p.queue| >= c.queueLength && recent == LastOf(p.batches, c.queueLength)
    ensures |recent| == c.queueLength
    ensures Run(c, Initial(lastSample, lastAverage), rounds).queue == Averages(recent)
  {
    Conservation(c, lastSample, lastAverage, rounds);
    WindowOfAverages(Run(c, Initial(lastSample, lastAverage), rounds).batches, c.queueLength);
  }

  lemma FullQueueIsWeighted(c: Config, queue: seq<real>, alpha: real, b: real, weights: seq<real>)
    requires Accepted(c) && |queue| == c.queueLength && b == 1.0 - alpha
    requires weights == Weights(c.queueLength - 1, alpha, b)
    ensures ReadQueue(c, queue, alpha) == Some(WeightedSum(weights, queue))
  {
    ClosedForm(queue, |queue| - 1, alpha, b);
    assert queue[..|queue| - 1 + 1] == queue;
  }

  /** Raising any entry of a full queue strictly raises what Read returns. */
  lemma ReadIsMonotone(c: Config, queue: seq<real>, i: nat, higher: real, alpha: real)
    requires Accepted(c) && |queue| == c.queueLength && 0.0 < alpha < 1.0
    requires i < |queue| && queue[i] < higher
    ensures ReadQueue(c, queue, alpha).Some? && ReadQueue(c, queue[i := higher], alpha).Some?
    ensures ReadQueue(c, queue, alpha).value < ReadQueue(c, queue[i := higher], alpha).value
  {
    SmoothMonotone(queue, queue[i := higher], |queue| - 1, alpha);
  }

  // ----- Configuration

  /** The last value given for a setting, or its default. */
  function LastQueueLength(settings: seq<Setting>): int {
    if settings == [] then 6
    else if Last(settings).QueueLength? then Last(settings).length else LastQueueLength(Front(settings))
  }

  function LastAverageConfig(settings: seq<Setting>): (int, int) {
    if settings == [] then (5, 10_000_000_000)
    else if Last(settings).AverageConfig? then (Last(settings).sampleCount, Last(settings).interval)
    else LastAverageConfig(Front(settings))
  }

  /** The last setting of each kind wins; the defaults are five samples in ten seconds and six averages. A filter
      is refused exactly when one of the three bounds is violated. */
  lemma {:induction false} LastSettingWins(settings: seq<Setting>)
    ensures var c := Configure(settings);
      && c.queueLength == LastQueueLength(settings)
      && (c.averageLength, c.averageInterval) == LastAverageConfig(settings)
      && (Accepted(c) <==> c.queueLength >= 1 && c.averageLength >= 1 && c.averageInterval >= 1_000_001)
  {
    if settings != [] {
      LastSettingWins(Front(settings));
    }
  }

  // ----- Timing

  predicate Spaced(batch: seq<Sample>, d: int) {
    forall i :: 0 < i < |batch| ==> batch[i - 1].at + d <= batch[i].at
  }

  /** Pending samples were taken within one interval of the last average, d apart. */
  predicate PendingTimes(c: Config, p: Pipeline)
    requires Accepted(c)
  {
    && p.lastSample <= p.clock && p.lastAverage <= p.clock
    && Spaced(p.pending, Spacing(c))
    && (p.pending != [] ==>
          && p.lastAverage <= p.pending[0].at
          && Last(p.pending).at <= p.lastSample && Last(p.pending).at <= p.lastAverage + c.averageInterval)
  }

  predicate StampTimes(c: Config, p: Pipeline) {
    && p.stamps != [] && Last(p.stamps) == p.lastAverage
    && forall i :: 0 < i < |p.stamps| ==> p.stamps[i - 1] + c.averageInterval < p.stamps[i]
  }

  /** At most I / d + 2 samples fit into one averaging interval. */
  predicate SizeBound(c: Config, size: nat)
    requires Accepted(c) && Spacing(c) > 0
  {
    size <= c.averageInterval / Spacing(c) + 2
  }

  lemma {:induction false} SpacedSpan(batch: seq<Sample>, d: int)
    requires batch != [] && Spaced(batch, d)
    ensures batch[0].at + (|batch| - 1) * d <= Last(batch).at
  {
    if |batch| > 1 {
      SpacedSpan(Front(batch), d);
      assert (|batch| - 1) * d == (|batch| - 2) * d + d;
    }
  }

  lemma FitsInto(n: nat, d: int, span: int)
    requires 0 < d && n * d <= span
    ensures n <= span / d
  {
    var q := span / d;
    assert span < q * d + d;
    if n > q {
      Times(n, q + 1, d);
      assert false;
    }
  }

  lemma Times(n: int, m: int, d: int)
    requires n >= m && d > 0
    ensures n * d >= m * d
  {
  }

  lemma PendingBound(c: Config, p: Pipeline)
    requires Accepted(c) && Spacing(c) > 0 && PendingTimes(c, p)
    ensures |p.pending| <= c.averageInterval / Spacing(c) + 1
  {
    if p.pending != [] {
      SpacedSpan(p.pending, Spacing(c));
      FitsInto(|p.pending| - 1, Spacing(c), c.averageInterval);
    }
  }

  lemma StepKeepsPendingTimes(c: Config, p: Pipeline, r: Round)
    requires Accepted(c) && PendingTimes(c, p) && Follows(c, p, r)
    ensures PendingTimes(c, Step(c, p, r))
  {
  }

  lemma StepKeepsStampTimes(c: Config, p: Pipeline, r: Round)
    requires Accepted(c) && StampTimes(c, p) && Follows(c, p, r)
    ensures StampTimes(c, Step(c, p, r))
  {
  }

  lemma StepKeepsBatchBounds(c: Config, p: Pipeline, r: Round)
    requires Accepted(c) && Spacing(c) > 0 && PendingTimes(c, p)
    requires forall b :: b in p.batches ==> SizeBound(c, |b|)
    ensures forall b :: b in Step(c, p, r).batches ==> SizeBound(c, |b|)
  {
    PendingBound(c, p);
  }

  lemma {:induction false} RunKeepsTiming(c: Config, lastSample: int, lastAverage: int, rounds: seq<Round>)
    requires Accepted(c) && lastSample <= lastAverage
    requires Possible(c, Initial(lastSample, lastAverage), rounds)
    ensures var p := Run(c, Initial(lastSample, lastAverage), rounds);
      && PendingTimes(c, p) && StampTimes(c, p)
      && (Spacing(c) > 0 ==> forall b :: b in p.batches ==> SizeBound(c, |b|))
  {
    if rounds != [] {
      RunKeepsTiming(c, lastSample, lastAverage, Front(rounds));
      var before := Run(c, Initial(lastSample, lastAverage), Front(rounds));
      StepKeepsPendingTimes(c, before, Last(rounds));
      StepKeepsStampTimes(c, before, Last(rounds));
      if Spacing(c) > 0 {
        StepKeepsBatchBounds(c, before, Last(rounds));
      }
    }
  }

  lemma {:induction false} SamplesAreSpaced(c: Config, lastSample: int, lastAverage: int, rounds: seq<Round>)
    requires Accepted(c) && Possible(c, Initial(lastSample, lastAverage), rounds)
    ensures Spaced(SamplesRead(rounds), Spacing(c))
    ensures SamplesRead(rounds) != [] ==>
      Last(SamplesRead(rounds)).at <= Run(c, Initial(lastSample, lastAverage), rounds).lastSample
  {
    if rounds != [] {
      var start, r := Initial(lastSample, lastAverage), Last(rounds);
      SamplesAreSpaced(c, lastSample, lastAverage, Front(rounds));
      SpacingNotNegative(c);
      if r.reading.Some? {
        SpacedAppend(SamplesRead(Front(rounds)), Sample(r.reading.value, r.sampledAt), Spacing(c),
                     Run(c, start, Front(rounds)).lastSample);
      }
    }
  }

  lemma SpacingNotNegative(c: Config)
    requires Accepted(c)
    ensures Spacing(c) >= 0
  {
  }

  lemma SpacedAppend(batch: seq<Sample>, next: Sample, d: int, last: int)
    requires Spaced(batch, d) && last + d <= next.at && (batch != [] ==> Last(batch).at <= last)
    ensures Spaced(batch + [next], d)
  {
  }

  /** Timing: averages are more than one interval apart, samples at least the spacing apart, and no batch
      ever holds more than I / d + 2 samples, however many readings fail; the spacing is positive
      exactly when averageLength does not exceed the interval in nanoseconds. */
  lemma TimingBounds(c: Config, lastSample: int, lastAverage: int, rounds: seq<Round>)
    requires Accepted(c) && lastSample <= lastAverage
    requires Possible(c, Initial(lastSample, lastAverage), rounds)
    ensures var p := Run(c, Initial(lastSample, lastAverage), rounds);
      && StampTimes(c, p)
      && Spaced(SamplesRead(rounds), Spacing(c))
      && Spacing(c) * c.averageLength <= c.averageInterval < (Spacing(c) + 1) * c.averageLength
      && (Spacing(c) > 0 <==> c.averageLength <= c.averageInterval)
      && (Spacing(c) > 0 ==> SizeBound(c, |p.pending|) && forall b :: b in p.batches ==> SizeBound(c, |b|))
  {
    RunKeepsTiming(c, lastSample, lastAverage, rounds);
    SamplesAreSpaced(c, lastSample, lastAverage, rounds);
    if Spacing(c) > 0 {
      PendingBound(c, Run(c, Initial(lastSample, lastAverage), rounds));
    }
  }
}

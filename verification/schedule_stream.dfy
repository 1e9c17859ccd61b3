/**
 * One client's schedule stream: the current job of a simulated client and the
 * seeded generator that draws its successive jobs.
 *
 * The Mersenne Twister engine is not modelled.  A `Stream` stands for its
 * output: the word found at a given position of the stream a given seed
 * produces.  Each uniform draw consumes the next position, and a closed-range
 * uniform distribution folds that word into its range; only the range of a
 * draw and the order in which draws are taken are claimed.
 */
module ScheduleStream {
  import opened Wrappers

  /** Engine output: `gen(seed, k)` is the k-th word of the stream seeded with `seed`. */
  type Stream = (nat, nat) -> int

  /** The engine keeps 32 bits of its seed. */
  const SEED_MODULUS: nat := 0x1_0000_0000

  /** Generator state: the seed it was given (reduced) and how many draws it has served. */
  datatype Engine = Engine(seed: nat, drawn: nat)

  /** Seeding a fresh engine with a (possibly negative) integer seed. */
  function Seeded(seed: int): (e: Engine)
    ensures e.drawn == 0
    ensures e.seed < SEED_MODULUS && (seed - e.seed) % SEED_MODULUS == 0
  {
    Engine(seed % SEED_MODULUS, 0)
  }

  /** A closed-range uniform distribution applied to one engine word. */
  function Uniform(word: int, lo: int, hi: int): (v: int)
    requires lo <= hi
    ensures lo <= v <= hi
  {
    lo + word % (hi - lo + 1)
  }

  /** One draw in `[lo, hi]`: consumes exactly the next word of the stream. */
  function Draw(gen: Stream, e: Engine, lo: int, hi: int): (r: (int, Engine))
    requires lo <= hi
    ensures lo <= r.0 <= hi
    ensures r.1.seed == e.seed && r.1.drawn == e.drawn + 1
  {
    (Uniform(gen(e.seed, e.drawn), lo, hi), Engine(e.seed, e.drawn + 1))
  }

  /** The two states a client job can be in. */
  datatype Status = Pending | Waiting

  /** A job: the offline window `[startTime, endTime)`, its step budget and its status. */
  datatype Job = Job(startTime: int, endTime: int, steps: int, status: Status)

  /** The closed ranges of the three distributions: gap before a job, its length, its steps. */
  datatype Bounds = Bounds(minSpace: int, maxSpace: int, minLen: int, maxLen: int, minSteps: int, maxSteps: int)
  {
    /** Every range is non-empty, as a uniform distribution requires. */
    predicate Valid() {
      minSpace <= maxSpace && minLen <= maxLen && minSteps <= maxSteps
    }

    /** `j` is a job these bounds can produce when advancing at time `t`. */
    predicate Allows(t: int, j: Job) {
      && t + minSpace <= j.startTime <= t + maxSpace
      && minLen <= j.endTime - j.startTime <= maxLen
      && minSteps <= j.steps <= maxSteps
    }
  }

  /** A client's schedule: the fixed bounds, its private generator and its current job. */
  datatype ClientSchedule = ClientSchedule(bounds: Bounds, engine: Engine, job: Job)

  datatype ScheduleError = AdvanceBeforeEnd(time: int, endTime: int)

  /**
   * Replace the current job by the next one of the stream, drawn at time `t`.
   * Refused when `t` lies before the current job's end; a refusal yields no new
   * schedule, so the caller's schedule is left as it was.
   */
  function Advance(gen: Stream, cs: ClientSchedule, t: int): (r: Result<ClientSchedule, ScheduleError>)
    requires cs.bounds.Valid()
    ensures r.Failure? <==> t < cs.job.endTime
    ensures r.Failure? ==> r.error == AdvanceBeforeEnd(t, cs.job.endTime)
    ensures r.Success? ==>
      && r.value.bounds == cs.bounds
      && r.value.engine == Engine(cs.engine.seed, cs.engine.drawn + 3)
      && r.value.job.status == Pending
      && cs.bounds.Allows(t, r.value.job)
  {
    if t < cs.job.endTime then
      Failure(AdvanceBeforeEnd(t, cs.job.endTime))
    else
      var b := cs.bounds;
      var (space, e1) := Draw(gen, cs.engine, b.minSpace, b.maxSpace);
      var (length, e2) := Draw(gen, e1, b.minLen, b.maxLen);
      var (steps, e3) := Draw(gen, e2, b.minSteps, b.maxSteps);
      var start := t + space;
      Success(ClientSchedule(b, e3, Job(start, start + length, steps, Pending)))
  }

  /**
   * A new schedule: seed the generator and advance at time 0.  The current end
   * time before that first advance is taken to be 0, so it always succeeds.
   */
  function NewSchedule(gen: Stream, seed: int, b: Bounds): (cs: ClientSchedule)
    requires b.Valid()
    ensures cs.bounds == b
    ensures cs.engine == Engine(seed % SEED_MODULUS, 3)
    ensures cs.job.status == Pending && b.Allows(0, cs.job)
  {
    Advance(gen, ClientSchedule(b, Seeded(seed), Job(0, 0, 0, Pending)), 0).value
  }

  /**
   * Advance the schedule at each time of `ts` in turn; the successive schedules
   * produced, or the first refusal.
   */
  function Replay(gen: Stream, cs: ClientSchedule, ts: seq<int>): (r: Result<seq<ClientSchedule>, ScheduleError>)
    requires cs.bounds.Valid()
    decreases |ts|
    ensures r.Success? ==> |r.value| == |ts|
    ensures r.Success? ==> forall k | 0 <= k < |r.value| ::
      && r.value[k].bounds == cs.bounds
      && r.value[k].engine == Engine(cs.engine.seed, cs.engine.drawn + 3 * (k + 1))
      && r.value[k].job.status == Pending
      && cs.bounds.Allows(ts[k], r.value[k].job)
    ensures r.Success? && |ts| > 0 ==> cs.job.endTime <= ts[0]
    ensures r.Success? ==> forall k | 0 <= k < |r.value| - 1 :: r.value[k].job.endTime <= ts[k + 1]
  {
    if ts == [] then
      Success([])
    else
      var next :- Advance(gen, cs, ts[0]);
      var rest :- Replay(gen, next, ts[1..]);
      Success([next] + rest)
  }

  /** The three draws of an advance come from consecutive words, in the order gap, length, steps. */
  lemma DrawOrder(gen: Stream, cs: ClientSchedule, t: int)
    requires cs.bounds.Valid() && cs.job.endTime <= t
    ensures
      var b, s, k := cs.bounds, cs.engine.seed, cs.engine.drawn;
      var j := Advance(gen, cs, t).value.job;
      && j.startTime == t + Uniform(gen(s, k), b.minSpace, b.maxSpace)
      && j.endTime == j.startTime + Uniform(gen(s, k + 1), b.minLen, b.maxLen)
      && j.steps == Uniform(gen(s, k + 2), b.minSteps, b.maxSteps)
  {
  }

  /** Job `j` was drawn at time `t` from position `p` of the stream: gap, length and steps in that order. */
  predicate DrawnFrom(gen: Stream, b: Bounds, seed: nat, p: nat, t: int, j: Job)
    requires b.Valid()
  {
    && j.startTime == t + Uniform(gen(seed, p), b.minSpace, b.maxSpace)
    && j.endTime == j.startTime + Uniform(gen(seed, p + 1), b.minLen, b.maxLen)
    && j.steps == Uniform(gen(seed, p + 2), b.minSteps, b.maxSteps)
  }

  /** The jobs of `s` were drawn at the matching times of `ts`, each three words after the one before, from position `p` on. */
  predicate DrawnInTurn(gen: Stream, b: Bounds, seed: nat, p: nat, ts: seq<int>, s: seq<ClientSchedule>)
    requires b.Valid() && |ts| == |s|
    decreases |s|
  {
    |s| == 0 || (DrawnFrom(gen, b, seed, p, ts[0], s[0].job) && DrawnInTurn(gen, b, seed, p + 3, ts[1..], s[1..]))
  }

  /** Job `k` of `s` was drawn at time `ts[k]` from position `p + 3k`. */
  predicate DrawnAt(gen: Stream, b: Bounds, seed: nat, p: nat, ts: seq<int>, s: seq<ClientSchedule>)
    requires b.Valid() && |ts| == |s|
  {
    forall k | 0 <= k < |s| :: DrawnFrom(gen, b, seed, p + 3 * k, ts[k], s[k].job)
  }

  /**
   * Over a whole run, the k-th job takes its gap, length and steps from the
   * three consecutive stream words starting at `drawn + 3k`.
   */
  lemma ReplayDrawPositions(gen: Stream, cs: ClientSchedule, ts: seq<int>, s: seq<ClientSchedule>)
    requires cs.bounds.Valid()
    requires Replay(gen, cs, ts) == Success(s)
    ensures |s| == |ts| && DrawnAt(gen, cs.bounds, cs.engine.seed, cs.engine.drawn, ts, s)
  {
    ReplayDrawsInTurn(gen, cs, ts, s);
    DrawnInTurnAt(gen, cs.bounds, cs.engine.seed, cs.engine.drawn, ts, s);
  }

  /** The run draws its jobs in turn, by induction along the times. */
  lemma {:induction false} ReplayDrawsInTurn(gen: Stream, cs: ClientSchedule, ts: seq<int>, s: seq<ClientSchedule>)
    requires cs.bounds.Valid()
    requires Replay(gen, cs, ts) == Success(s)
    ensures |s| == |ts| && DrawnInTurn(gen, cs.bounds, cs.engine.seed, cs.engine.drawn, ts, s)
    decreases |ts|
  {
    if ts != [] {
      var next := ReplayFirstStep(gen, cs, ts, s);
      ReplayDrawsInTurn(gen, next, ts[1..], s[1..]);
    }
  }

  /** Drawing in turn puts job `k` at position `p + 3k`. */
  lemma {:induction false} DrawnInTurnAt(gen: Stream, b: Bounds, seed: nat, p: nat, ts: seq<int>, s: seq<ClientSchedule>)
    requires b.Valid() && |ts| == |s|
    requires DrawnInTurn(gen, b, seed, p, ts, s)
    ensures DrawnAt(gen, b, seed, p, ts, s)
    decreases |s|
  {
    if s != [] {
      DrawnInTurnAt(gen, b, seed, p + 3, ts[1..], s[1..]);
      forall k | 0 < k < |s|
        ensures DrawnFrom(gen, b, seed, p + 3 * k, ts[k], s[k].job)
      {
        assert s[k] == s[1..][k - 1] && ts[k] == ts[1..][k - 1];
        assert p + 3 + 3 * (k - 1) == p + 3 * k;
      }
    }
  }

  /** A successful run begins with a successful advance at the first time, drawn from the current position. */
  lemma ReplayFirstStep(gen: Stream, cs: ClientSchedule, ts: seq<int>, s: seq<ClientSchedule>) returns (next: ClientSchedule)
    requires cs.bounds.Valid() && ts != []
    requires Replay(gen, cs, ts) == Success(s)
    ensures |s| == |ts| && s[0] == next
    ensures next.bounds == cs.bounds && next.engine == Engine(cs.engine.seed, cs.engine.drawn + 3)
    ensures Replay(gen, next, ts[1..]) == Success(s[1..])
    ensures DrawnFrom(gen, cs.bounds, cs.engine.seed, cs.engine.drawn, ts[0], s[0].job)
  {
    next := Advance(gen, cs, ts[0]).value;
    DrawOrder(gen, cs, ts[0]);
    assert s == [next] + Replay(gen, next, ts[1..]).value;
  }

  /** With a non-negative minimum gap, a new job never starts before the previous one ended. */
  lemma AdvanceNeverOverlaps(gen: Stream, cs: ClientSchedule, t: int)
    requires cs.bounds.Valid() && cs.bounds.minSpace >= 0
    requires Advance(gen, cs, t).Success?
    ensures cs.job.endTime <= Advance(gen, cs, t).value.job.startTime
  {
  }

  /**
   * Along a whole replay, with non-negative minimum gap and length, every job
   * is a well-formed window, starts after the job the replay began from, and
   * ends no later than any later job starts.
   */
  lemma {:induction false} ReplayNeverOverlaps(gen: Stream, cs: ClientSchedule, ts: seq<int>)
    requires cs.bounds.Valid() && cs.bounds.minSpace >= 0 && cs.bounds.minLen >= 0
    requires Replay(gen, cs, ts).Success?
    ensures var s := Replay(gen, cs, ts).value;
      forall k | 0 <= k < |s| :: cs.job.endTime <= s[k].job.startTime <= s[k].job.endTime
    ensures var s := Replay(gen, cs, ts).value;
      forall i, j | 0 <= i < j < |s| :: s[i].job.endTime <= s[j].job.startTime
    decreases |ts|
  {
    if ts != [] {
      var next := Advance(gen, cs, ts[0]).value;
      var rest := Replay(gen, next, ts[1..]).value;
      assert Replay(gen, cs, ts).value == [next] + rest;
      ReplayNeverOverlaps(gen, next, ts[1..]);
    }
  }

  /**
   * What an advance produces depends on the bounds, the generator and the
   * current end time only: the status (and the rest of the current job) does
   * not influence any later job.
   */
  lemma ReplayIgnoresCurrentStatus(gen: Stream, c1: ClientSchedule, c2: ClientSchedule, ts: seq<int>)
    requires c1.bounds.Valid()
    requires c1.bounds == c2.bounds && c1.engine == c2.engine && c1.job.endTime == c2.job.endTime
    ensures Replay(gen, c1, ts) == Replay(gen, c2, ts)
  {
  }

  /**
   * Two schedules built with the same bounds and seeds that agree modulo the
   * engine's seed width, whatever happened to their status since, yield the
   * same jobs when advanced at the same times.
   */
  lemma SameSeedSameJobs(gen: Stream, seed1: int, seed2: int, b: Bounds, s1: Status, s2: Status, ts: seq<int>)
    requires b.Valid()
    requires seed1 % SEED_MODULUS == seed2 % SEED_MODULUS
    ensures
      var c1 := NewSchedule(gen, seed1, b);
      var c2 := NewSchedule(gen, seed2, b);
      Replay(gen, c1.(job := c1.job.(status := s1)), ts) == Replay(gen, c2.(job := c2.job.(status := s2)), ts)
  {
    var c1 := NewSchedule(gen, seed1, b);
    var c2 := NewSchedule(gen, seed2, b);
    ReplayIgnoresCurrentStatus(gen, c1.(job := c1.job.(status := s1)), c2.(job := c2.job.(status := s2)), ts);
  }

  /**
   * With every range a single value (no gap, length 5, 50 steps) the first job
   * is `[0, 5)` and the job drawn when advancing at its end is `[5, 10)`: the
   * next window starts exactly at the advance time.
   */
  lemma FixedBoundsScenario(gen: Stream, seed: int)
    ensures
      var b := Bounds(0, 0, 5, 5, 50, 50);
      var first := NewSchedule(gen, seed, b);
      && first.job == Job(0, 5, 50, Pending)
      && Advance(gen, first, 5).Success?
      && Advance(gen, first, 5).value.job == Job(5, 10, 50, Pending)
      && Advance(gen, first, 4) == Failure(AdvanceBeforeEnd(4, 5))
  {
  }
}

/**
 The clock side of one worker process: its loop body, poll sleep and heartbeats
 (app/workers/main_worker.py), as the stale-worker query sees them
 (app/services/reaper_service.py).
 */
module Timing {
  import opened Model
  import opened Arithmetic

  /**
   `heartbeat` is the configured interval and `threshold` the reaper's. A sleep between two
   passes takes at least `nap` and at most `poll`; a start-up or a loop body takes at most
   `body`, and the drain of a worker that shuts down at most `drain`.
   */
  datatype Config = Config(heartbeat: int, nap: int, poll: int, body: int, drain: int, threshold: int) {
    predicate Sane() {
      heartbeat >= 1 && 0 <= nap <= poll && body >= 0 && drain >= 0 && threshold >= 0
    }

    /**
     How many sleeps fit between a heartbeat and the last pass that still finds the next one not
     due; a loop that does not sleep is counted as napping one tick.
     */
    function Naps(): int {
      (heartbeat - 1) / Step()
    }

    function Step(): (step: int)
      ensures step >= 1
    {
      if nap >= 1 then nap else 1
    }

    /** The latest start, counted from the last heartbeat, of a pass that skips its heartbeat. */
    function Quiet(): int {
      Min(heartbeat - 1, Naps() * (poll + body))
    }

    /** The oldest a heartbeat can get while its worker lives. */
    function OldestBeat(): int {
      Quiet() + poll + 2 * body + Max(body, drain)
    }

    /** Detection is not too eager for the loop. */
    predicate Timely() {
      OldestBeat() <= threshold
    }
  }

  datatype Phase =
    | Startup(begun: Time)
    | Body(start: Time, checked: bool)
    | Sleep(since: Time)
    | Draining(from: Time)
    | Exited
    | Crashed
  {
    predicate Looping() {
      Startup? || Body? || Sleep?
    }

    predicate Alive() {
      Looping() || Draining?
    }
  }

  /** `row` is last_heartbeat_at in the database, `last` the process's last_heartbeat_time. */
  datatype Clocked = Clocked(now: Time, row: Time, last: Time, phase: Phase)

  /**
   `seen` is the process clock read by the heartbeat check; `stamp` is the database's NOW(),
   the start of the transaction that writes the row, which may precede `seen` but not the body.
   */
  datatype Tick =
    | EnterLoop
    | SkipBeat(seen: Time)
    | SendBeat(seen: Time, stamp: Time)
    | EndBody
    | Wake
    | BeginDrain
    | Pass(t: Time)

  /** Time may not run past what the assumed bounds promise. */
  predicate MayReach(c: Config, phase: Phase, t: Time) {
    match phase
    case Startup(begun) => t <= begun + c.body
    case Body(start, _) => t <= start + c.body
    case Sleep(since) => t <= since + c.poll
    case Draining(from) => t <= from + c.drain
    case _ => true
  }

  /** A shutdown cuts a sleep short; otherwise the worker sleeps it out. */
  predicate Enabled(c: Config, s: Clocked, a: Tick) {
    match a
    case EnterLoop => s.phase.Startup?
    case SkipBeat(seen) =>
      s.phase.Body? && !s.phase.checked && s.phase.start <= seen <= s.now && seen - s.last < c.heartbeat
    case SendBeat(seen, stamp) =>
      && s.phase.Body? && !s.phase.checked && s.phase.start <= seen <= s.now
      && s.phase.start <= stamp <= s.now && seen - s.last >= c.heartbeat
    case EndBody => s.phase.Body? && s.phase.checked
    case Wake => s.phase.Sleep? && s.now >= s.phase.since + c.nap
    case BeginDrain => s.phase.Startup? || s.phase.Sleep?
    case Pass(t) => s.now <= t && MayReach(c, s.phase, t)
  }

  function Apply(s: Clocked, a: Tick): Clocked {
    match a
    case EnterLoop => s.(last := s.now, phase := Body(s.now, false))
    case SkipBeat(_) => if s.phase.Body? then s.(phase := Body(s.phase.start, true)) else s
    case SendBeat(seen, stamp) =>
      if s.phase.Body? then s.(row := stamp, last := seen, phase := Body(s.phase.start, true)) else s
    case EndBody => s.(phase := Sleep(s.now))
    case Wake => s.(phase := Body(s.now, false))
    case BeginDrain => s.(phase := Draining(s.now))
    case Pass(t) => s.(now := t)
  }

  predicate Stale(c: Config, s: Clocked) {
    s.row < s.now - c.threshold
  }

  // ---------------------------------------------------------------- how old a heartbeat can get

  /** `gap` after a heartbeat the loop has slept no oftener than the length of a sleep allows. */
  predicate Paced(c: Config, gap: int, slack: int) {
    0 <= gap <= (gap / c.Step()) * (c.poll + c.body) + slack
  }

  /** How far the last heartbeat can lag, phase by phase. */
  predicate BeatOk(c: Config, s: Clocked) {
    match s.phase
    case Startup(begun) => s.row == begun && begun <= s.now <= begun + c.body
    case Body(start, checked) =>
      && s.last <= s.row + c.body && s.last <= s.now && start <= s.now <= start + c.body
      && start <= s.last + c.Quiet() + (if checked then 0 else c.body + c.poll)
      && (start <= s.last || Paced(c, start - s.last, 0))
    case Sleep(since) =>
      && s.last <= s.row + c.body && since <= s.now <= since + c.poll
      && since <= s.last + c.Quiet() + c.body
      && Paced(c, since - s.last, c.body)
    case Draining(from) => s.now <= from + c.drain && from - s.row <= c.Quiet() + c.poll + 2 * c.body
    case _ => true
  }

  lemma QuotientGrows(x: int, y: int, d: int)
    requires d >= 1 && 0 <= x <= y
    ensures 0 <= x / d <= y / d
  {
    if x / d > y / d {
      ScaleUp(d, x / d, y / d + 1);
    }
  }

  /** A body keeps the pace, up to its own length. */
  lemma BodyKeepsPace(c: Config, gap: int, took: int)
    requires c.Sane() && Paced(c, gap, 0) && 0 <= took <= c.body
    ensures Paced(c, gap + took, c.body)
  {
    QuotientGrows(gap, gap + took, c.Step());
    ScaleUp(c.poll + c.body, (gap + took) / c.Step(), gap / c.Step());
  }

  /** A sleep that is not cut short earns what it takes. */
  lemma NapKeepsPace(c: Config, gap: int, slept: int)
    requires c.Sane() && Paced(c, gap, c.body) && c.nap <= slept <= c.poll
    ensures Paced(c, gap + slept, 0)
  {
    var d, most := c.Step(), c.poll + c.body;
    if c.nap >= 1 {
      OneStepFurther(gap, slept, d);
      OneMorePays(gap, slept, gap / d, (gap + slept) / d, c.poll, c.body);
    } else if most >= 1 {
      ScaleUp(gap + slept, most, 1);
    }
  }

  lemma OneMorePays(gap: int, slept: int, n: int, m: int, poll: int, body: int)
    requires poll >= 0 && body >= 0 && gap <= n * (poll + body) + body && slept <= poll && m >= n + 1
    ensures gap + slept <= m * (poll + body)
  {
    ScaleUp(poll + body, m, n + 1);
    Split(n + 1, poll + body, poll + body);
  }

  lemma OneStepFurther(x: int, y: int, d: int)
    requires d >= 1 && 0 <= x && y >= d
    ensures (x + y) / d >= x / d + 1
  {
    var q, r := x / d, (x + y) / d;
    assert x >= d * q && x + y < d * r + d;
    if r <= q {
      ScaleUp(d, q, r);
    }
  }

  lemma Split(k: int, a: int, b: int)
    ensures k * a == (k - 1) * a + a && k * b == (k - 1) * b + b
  {
  }

  /** A pass that finds no heartbeat due has not begun later than the quiet time. */
  lemma SkippedIsQuiet(c: Config, gap: int)
    requires c.Sane() && Paced(c, gap, 0) && gap < c.heartbeat
    ensures gap <= c.Quiet()
  {
    QuotientGrows(gap, c.heartbeat - 1, c.Step());
    ScaleUp(c.poll + c.body, c.Naps(), gap / c.Step());
  }

  lemma QuietIsNatural(c: Config)
    requires c.Sane()
    ensures c.Quiet() >= 0
  {
    QuotientGrows(0, c.heartbeat - 1, c.Step());
    ScaleUp(c.poll + c.body, c.Naps(), 0);
  }

  lemma BeatKept(c: Config, s: Clocked, a: Tick)
    requires c.Sane() && BeatOk(c, s) && Enabled(c, s, a)
    ensures BeatOk(c, Apply(s, a))
  {
    QuietIsNatural(c);
    match a
    case EnterLoop =>
    case SkipBeat(seen) =>
      if s.phase.start > s.last {
        SkippedIsQuiet(c, s.phase.start - s.last);
      }
    case SendBeat(_, _) =>
    case EndBody =>
      if s.phase.start > s.last {
        BodyKeepsPace(c, s.phase.start - s.last, s.now - s.phase.start);
      } else {
        BodyKeepsPace(c, 0, s.now - s.last);
      }
    case Wake => NapKeepsPace(c, s.phase.since - s.last, s.now - s.phase.since);
    case BeginDrain =>
    case Pass(_) =>
  }

  lemma LivingIsFresh(c: Config, s: Clocked)
    requires c.Sane() && c.Timely() && BeatOk(c, s) && s.phase.Alive()
    ensures !Stale(c, s)
  {
    QuietIsNatural(c);
  }

  // ---------------------------------------------------------------- runs of one worker

  predicate ValidRun(c: Config, s: Clocked, run: seq<Tick>)
    decreases |run|
  {
    run == [] || (Enabled(c, s, run[0]) && ValidRun(c, Apply(s, run[0]), run[1..]))
  }

  function Final(s: Clocked, run: seq<Tick>): Clocked
    decreases |run|
  {
    if run == [] then s else Final(Apply(s, run[0]), run[1..])
  }

  /** The state right after registration. */
  const REGISTERED := Clocked(0, 0, 0, Startup(0))

  /** The reaper never mistakes a worker that starts, loops or drains for a dead one. */
  ghost predicate Accurate(c: Config) {
    forall run :: ValidRun(c, REGISTERED, run) ==> !Stale(c, Final(REGISTERED, run))
  }

  lemma {:induction false} RunKeepsBeat(c: Config, s: Clocked, run: seq<Tick>)
    requires c.Sane() && BeatOk(c, s) && s.phase.Alive() && ValidRun(c, s, run)
    ensures BeatOk(c, Final(s, run)) && Final(s, run).phase.Alive()
    decreases |run|
  {
    if run != [] {
      BeatKept(c, s, run[0]);
      RunKeepsBeat(c, Apply(s, run[0]), run[1..]);
    }
  }

  lemma {:induction false} RunsCompose(c: Config, s: Clocked, a: seq<Tick>, b: seq<Tick>)
    requires ValidRun(c, s, a) && ValidRun(c, Final(s, a), b)
    ensures ValidRun(c, s, a + b) && Final(s, a + b) == Final(Final(s, a), b)
    decreases |a|
  {
    if a == [] {
      assert a + b == b;
    } else {
      assert (a + b)[0] == a[0] && (a + b)[1..] == a[1..] + b;
      RunsCompose(c, Apply(s, a[0]), a[1..], b);
    }
  }

  /** One-step extension of a run, the unit from which the worst case is assembled. */
  lemma RunExtends(c: Config, s: Clocked, run: seq<Tick>, a: Tick)
    requires ValidRun(c, s, run) && Enabled(c, Final(s, run), a)
    ensures ValidRun(c, s, run + [a]) && Final(s, run + [a]) == Apply(Final(s, run), a)
  {
    var t := Final(s, run);
    assert [a][1..] == [];
    assert ValidRun(c, Apply(t, a), []);
    assert ValidRun(c, t, [a]) && Final(t, [a]) == Apply(t, a);
    RunsCompose(c, s, run, [a]);
  }

  /** A worker whose start-up took all of its time begins its first pass. */
  function Started(c: Config): Clocked {
    Clocked(c.body, 0, c.body, Body(c.body, false))
  }

  lemma SlowStart(c: Config) returns (run: seq<Tick>)
    requires c.Sane()
    ensures ValidRun(c, REGISTERED, run) && Final(REGISTERED, run) == Started(c)
  {
    run := [];
    RunExtends(c, REGISTERED, run, Pass(c.body)); run := run + [Pass(c.body)];
    RunExtends(c, REGISTERED, run, EnterLoop); run := run + [EnterLoop];
  }

  /** One pass and one sleep that together take `z`, to the start of the next pass. */
  lemma OnePoll(c: Config, s: Clocked, run: seq<Tick>, z: int) returns (longer: seq<Tick>)
    requires c.Sane() && c.nap <= z <= c.poll + c.body
    requires ValidRun(c, s, run)
    requires var t := Final(s, run); t.phase == Body(t.now, false) && 0 <= t.now - t.last < c.heartbeat
    ensures ValidRun(c, s, longer)
    ensures var t := Final(s, run); Final(s, longer) == Clocked(t.now + z, t.row, t.last, Body(t.now + z, false))
  {
    var t := Final(s, run);
    var slept := Min(z, c.poll);
    var end := t.now + z - slept;
    RunExtends(c, s, run, SkipBeat(t.now)); longer := run + [SkipBeat(t.now)];
    RunExtends(c, s, longer, Pass(end)); longer := longer + [Pass(end)];
    RunExtends(c, s, longer, EndBody); longer := longer + [EndBody];
    RunExtends(c, s, longer, Pass(end + slept)); longer := longer + [Pass(end + slept)];
    RunExtends(c, s, longer, Wake); longer := longer + [Wake];
  }

  /** Polls of legal length reach every gap that `k` of them can add up to. */
  lemma {:induction false} QuietPolls(c: Config, k: nat, gap: int) returns (run: seq<Tick>)
    requires c.Sane() && k * c.nap <= gap <= k * (c.poll + c.body) && gap < c.heartbeat
    ensures ValidRun(c, Started(c), run)
    ensures Final(Started(c), run) == Clocked(c.body + gap, 0, c.body, Body(c.body + gap, false))
    decreases k
  {
    if k == 0 {
      run := [];
    } else {
      var most := c.poll + c.body;
      var z := Max(c.nap, gap - (k - 1) * most);
      Split(k, c.nap, most);
      ScaleUp(k - 1, most, c.nap);
      ScaleUp(k - 1, c.nap, 0);
      run := QuietPolls(c, k - 1, gap - z);
      run := OnePoll(c, Started(c), run, z);
    }
  }

  /** The longest quiet time is reached. */
  lemma QuietestPolls(c: Config) returns (run: seq<Tick>)
    requires c.Sane()
    ensures ValidRun(c, Started(c), run)
    ensures Final(Started(c), run) == Clocked(c.body + c.Quiet(), 0, c.body, Body(c.body + c.Quiet(), false))
  {
    var k := c.Naps();
    QuietIsNatural(c);
    ScaleUp(k, c.poll + c.body, c.nap);
    assert k * c.Step() <= c.heartbeat - 1;
    ScaleUp(k, c.Step(), c.nap);
    run := QuietPolls(c, k, c.Quiet());
  }

  /**
   The worst case: a slow start, the longest quiet time, a slow pass that skips its heartbeat,
   the longest sleep, and then either one more slow pass or the longest drain.
   */
  lemma SlowestRun(c: Config) returns (run: seq<Tick>)
    requires c.Sane()
    ensures ValidRun(c, Started(c), run)
    ensures var t := Final(Started(c), run); t.row == 0 && t.now == c.OldestBeat() && t.phase.Alive()
  {
    run := QuietestPolls(c);
    var from, t := Started(c), c.body + c.Quiet();
    RunExtends(c, from, run, SkipBeat(t)); run := run + [SkipBeat(t)];
    RunExtends(c, from, run, Pass(t + c.body)); run := run + [Pass(t + c.body)];
    RunExtends(c, from, run, EndBody); run := run + [EndBody];
    var up := t + c.body + c.poll;
    RunExtends(c, from, run, Pass(up)); run := run + [Pass(up)];
    if c.body >= c.drain {
      RunExtends(c, from, run, Wake); run := run + [Wake];
      RunExtends(c, from, run, Pass(up + c.body)); run := run + [Pass(up + c.body)];
    } else {
      RunExtends(c, from, run, BeginDrain); run := run + [BeginDrain];
      RunExtends(c, from, run, Pass(up + c.drain)); run := run + [Pass(up + c.drain)];
    }
  }

  /** The bound is exact: runs of every length are safe just when it holds. */
  lemma DetectorAccuracy(c: Config)
    requires c.Sane()
    ensures Accurate(c) <==> c.Timely()
  {
    if c.Timely() {
      forall run | ValidRun(c, REGISTERED, run) ensures !Stale(c, Final(REGISTERED, run)) {
        RunKeepsBeat(c, REGISTERED, run);
        LivingIsFresh(c, Final(REGISTERED, run));
      }
    } else {
      var start := SlowStart(c);
      var slow := SlowestRun(c);
      RunsCompose(c, REGISTERED, start, slow);
      assert Stale(c, Final(REGISTERED, start + slow));
    }
  }

  /** Whatever the sleeps, it is enough to cover one whole interval, one sleep and three slow bodies. */
  lemma SimpleBound(c: Config)
    requires c.Sane() && c.heartbeat - 1 + c.poll + 2 * c.body + Max(c.body, c.drain) <= c.threshold
    ensures Accurate(c)
  {
    DetectorAccuracy(c);
  }

  /** The shipped intervals: beat every 5 s, sleep 2 s, dead after 15 s. */
  function Shipped(body: int, drain: int): Config {
    Config(5 * SECOND, 2 * SECOND, 2 * SECOND, body, drain, 15 * SECOND)
  }

  /** With drains no longer than bodies, a body may take two and two thirds seconds, and no more. */
  lemma ShippedSettings(body: int, drain: int)
    requires 0 <= drain <= body
    ensures Accurate(Shipped(body, drain)) <==> body <= 2_666_667
  {
    DetectorAccuracy(Shipped(body, drain));
  }

  /**
   Nine seconds of drain are what the shipped intervals allow an instant loop. A job may run for
   300 s, so a worker that shuts down under one can be taken for dead.
   */
  lemma ShippedDrain(drain: int)
    requires drain >= 0
    ensures Accurate(Shipped(0, drain)) <==> drain <= 9 * SECOND
    ensures forall body :: body >= 0 && drain >= 300 * SECOND ==> !Accurate(Shipped(body, drain))
  {
    DetectorAccuracy(Shipped(0, drain));
    forall body | body >= 0 && drain >= 300 * SECOND ensures !Accurate(Shipped(body, drain)) {
      QuietIsNatural(Shipped(body, drain));
      DetectorAccuracy(Shipped(body, drain));
    }
  }
}

/**
 Running a batch of downloads (`run_jobs` in crates/hyperfetch-cli/src/download.rs, `may_start` in
 crates/hyperfetch-core/src/queue.rs): a queue of waiting jobs, the running ones, a counter of
 those known small, and a yes or no about installing ffmpeg that some jobs cannot start without.
 */
module Batch {
  import opened Basics

  const SMALL_AT_ONCE: nat := 16

  datatype Job = Job(needsFfmpeg: bool)

  /** `asks`: whether the user is asked about ffmpeg, and `known` the answer if it is already there. */
  datatype Config = Config(jobs: seq<Job>, atOnce: nat, asks: bool, known: Option<bool>)

  /** A running job, whether its last snapshot called it small, and the answer it goes by. */
  datatype Running = Running(job: nat, small: bool, install: Option<bool>)

  datatype Outcome = Done | Failed | Interrupted

  datatype Ending = Ending(job: nat, outcome: Outcome)

  /**
   The batch between two events. `small` is the shared counter and `found` its pending wake-up;
   `started`, `ended` and `dropped` are what has become of the jobs so far, in order.
   */
  datatype State = State(
    waiting: seq<nat>, running: seq<Running>, small: nat, found: bool, failed: nat, answer: Option<bool>,
    started: seq<nat>, ended: seq<Ending>, dropped: seq<nat>)

  predicate MayStart(running: nat, small: nat, atOnce: nat) {
    var beside := if atOnce > 1 then Min(small, SMALL_AT_ONCE) else 0;
    Max(running - beside, 0) < Max(atOnce, 1)
  }

  /** An unanswered question holds back the jobs that need ffmpeg. */
  predicate Held(cfg: Config, st: State) {
    cfg.asks && st.answer.None?
  }

  predicate Startable(cfg: Config, held: bool, job: nat)
    requires job < |cfg.jobs|
  {
    !held || !cfg.jobs[job].needsFfmpeg
  }

  predicate InBatch(cfg: Config, jobs: seq<nat>) {
    forall i | 0 <= i < |jobs| :: jobs[i] < |cfg.jobs|
  }

  /** Where the first job that may start waits, from position `k` on. */
  function First(cfg: Config, held: bool, waiting: seq<nat>, k: nat): (at: Option<nat>)
    requires InBatch(cfg, waiting) && k <= |waiting|
    ensures at.Some? ==> k <= at.value < |waiting| && Startable(cfg, held, waiting[at.value])
    ensures forall i | k <= i < (if at.Some? then at.value else |waiting|) :: !Startable(cfg, held, waiting[i])
    decreases |waiting| - k
  {
    if k == |waiting| then None
    else if Startable(cfg, held, waiting[k]) then Some(k)
    else First(cfg, held, waiting, k + 1)
  }

  predicate CanStart(cfg: Config, st: State)
    requires InBatch(cfg, st.waiting)
  {
    MayStart(|st.running|, st.small, cfg.atOnce) && First(cfg, Held(cfg, st), st.waiting, 0).Some?
  }

  function Without<T>(xs: seq<T>, at: nat): seq<T>
    requires at < |xs|
  {
    xs[..at] + xs[at + 1..]
  }

  function StartOne(cfg: Config, st: State, at: nat): State
    requires at < |st.waiting|
  {
    var install := if cfg.asks then st.answer else None;
    st.(waiting := Without(st.waiting, at), running := st.running + [Running(st.waiting[at], false, install)],
        started := st.started + [st.waiting[at]])
  }

  /** Starts jobs as long as there is a place and one that may take it. */
  function StartAll(cfg: Config, st: State): State
    requires InBatch(cfg, st.waiting)
    decreases |st.waiting|
  {
    if CanStart(cfg, st) then
      var at := First(cfg, Held(cfg, st), st.waiting, 0).value;
      StartAll(cfg, StartOne(cfg, st, at))
    else
      st
  }

  function Initial(cfg: Config): State {
    State(seq(|cfg.jobs|, i => i), [], 0, false, 0, cfg.known, [], [], [])
  }

  /** What may happen while the batch waits. */
  datatype Event =
    | Ended(at: nat, outcome: Outcome)
    | Seen(at: nat, small: bool)
    | Woken
    | Answered(install: bool)
    | Stopped

  predicate Enabled(cfg: Config, st: State, e: Event) {
    match e
    case Ended(at, _) => at < |st.running|
    case Seen(at, _) => at < |st.running|
    case Woken => st.found && st.running != []
    case Answered(_) => Held(cfg, st) && st.waiting != []
    case Stopped => st.waiting != []
  }

  /** A snapshot that says the same as the last one changes nothing; a new small one wakes the batch. */
  function See(st: State, at: nat, small: bool): State
    requires at < |st.running|
  {
    if st.running[at].small == small then st
    else if small then
      st.(running := st.running[at := st.running[at].(small := true)], small := st.small + 1, found := true)
    else
      st.(running := st.running[at := st.running[at].(small := false)], small := Max(st.small - 1, 0))
  }

  /** An ended job leaves the running ones and is no longer counted as small. */
  function End(st: State, at: nat, outcome: Outcome): State
    requires at < |st.running|
  {
    st.(running := Without(st.running, at),
        small := if st.running[at].small then Max(st.small - 1, 0) else st.small,
        failed := st.failed + if outcome.Failed? then 1 else 0,
        ended := st.ended + [Ending(st.running[at].job, outcome)])
  }

  /** What an event changes before the loop goes around. */
  function Happen(cfg: Config, st: State, e: Event): State
    requires Enabled(cfg, st, e)
  {
    match e
    case Ended(at, outcome) => End(st, at, outcome)
    case Seen(at, small) => See(st, at, small)
    case Woken => st.(found := false)
    case Answered(install) => st.(answer := Some(install))
    case Stopped => st.(waiting := [], dropped := st.dropped + st.waiting)
  }

  /** All events but a snapshot go around the loop, which starts what it can. */
  function Step(cfg: Config, st: State, e: Event): State
    requires InBatch(cfg, st.waiting) && Enabled(cfg, st, e)
  {
    if e.Seen? then Happen(cfg, st, e) else StartAll(cfg, Happen(cfg, st, e))
  }

  // ---------------------------------------------------------------- what always holds

  function JobsOf(running: seq<Running>): seq<nat> {
    seq(|running|, i requires 0 <= i < |running| => running[i].job)
  }

  function EndedJobs(ended: seq<Ending>): seq<nat> {
    seq(|ended|, i requires 0 <= i < |ended| => ended[i].job)
  }

  function CountSmall(running: seq<Running>): nat {
    if running == [] then 0
    else CountSmall(running[..|running| - 1]) + if running[|running| - 1].small then 1 else 0
  }

  function CountFailed(ended: seq<Ending>): nat {
    if ended == [] then 0
    else CountFailed(ended[..|ended| - 1]) + if ended[|ended| - 1].outcome.Failed? then 1 else 0
  }

  /** Where every job of the batch is now. */
  function Everywhere(st: State): multiset<nat> {
    multiset(st.waiting) + multiset(JobsOf(st.running)) + multiset(EndedJobs(st.ended)) + multiset(st.dropped)
  }

  /** Every job is in exactly one place, once, and those that started run or have ended. */
  ghost predicate Conserved(cfg: Config, st: State) {
    && InBatch(cfg, st.waiting)
    && Everywhere(st) == multiset(Initial(cfg).waiting)
    && multiset(st.started) == multiset(JobsOf(st.running)) + multiset(EndedJobs(st.ended))
  }

  ghost predicate SameKind(cfg: Config, a: nat, b: nat) {
    a < |cfg.jobs| && b < |cfg.jobs| && cfg.jobs[a].needsFfmpeg == cfg.jobs[b].needsFfmpeg
  }

  /** Jobs that need ffmpeg, and jobs that do not, each start in input order. */
  ghost predicate InOrder(cfg: Config, st: State) {
    && (forall i, j | 0 <= i < j < |st.waiting| :: st.waiting[i] < st.waiting[j])
    && (forall i, j | 0 <= i < j < |st.started| && SameKind(cfg, st.started[i], st.started[j]) ::
          st.started[i] < st.started[j])
    && (forall i, j | 0 <= i < |st.started| && 0 <= j < |st.waiting| && SameKind(cfg, st.started[i], st.waiting[j]) ::
          st.started[i] < st.waiting[j])
  }

  /** The counters say what they count. */
  ghost predicate Counted(st: State) {
    st.small == CountSmall(st.running) && st.failed == CountFailed(st.ended)
  }

  /** The most that run at once: the places, and small files beside them unless one runs at a time. */
  function Most(cfg: Config): nat {
    Max(cfg.atOnce, 1) + if cfg.atOnce > 1 then SMALL_AT_ONCE else 0
  }

  /** A place free for a job that may take it never goes unnoticed: a wake-up is on its way. */
  ghost predicate Attentive(cfg: Config, st: State)
    requires InBatch(cfg, st.waiting)
  {
    CanStart(cfg, st) ==> st.found && st.running != []
  }

  /** A job waits that the question about ffmpeg does not hold back. */
  ghost predicate SomeCouldStart(cfg: Config, st: State)
    requires InBatch(cfg, st.waiting)
  {
    exists i :: 0 <= i < |st.waiting| && !(cfg.asks && st.answer.None? && cfg.jobs[st.waiting[i]].needsFfmpeg)
  }

  /** As long as one does, no place is empty. */
  ghost predicate Filled(cfg: Config, st: State)
    requires InBatch(cfg, st.waiting)
  {
    SomeCouldStart(cfg, st) ==> |st.running| >= 1 && |st.running| >= cfg.atOnce
  }

  /** What needs ffmpeg runs by the user's answer, and only once there is one. */
  ghost predicate Consented(cfg: Config, st: State) {
    forall i | 0 <= i < |st.running| ::
      && st.running[i].job < |cfg.jobs|
      && (st.running[i].install.Some? ==> cfg.asks && st.running[i].install == st.answer)
      && (cfg.asks && cfg.jobs[st.running[i].job].needsFfmpeg ==> st.running[i].install.Some?)
  }

  ghost predicate Inv(cfg: Config, st: State) {
    && Conserved(cfg, st) && InOrder(cfg, st) && Counted(st) && Consented(cfg, st)
    && |st.running| <= Most(cfg) && Attentive(cfg, st) && Filled(cfg, st)
  }

  /** Everything but attentiveness, which holds again only when the starting is over. */
  ghost predicate Kept(cfg: Config, st: State) {
    Conserved(cfg, st) && InOrder(cfg, st) && Counted(st) && Consented(cfg, st) && |st.running| <= Most(cfg)
  }

  // ---------------------------------------------------------------- one job more, one job fewer

  lemma WithoutOne<T>(xs: seq<T>, at: nat)
    requires at < |xs|
    ensures multiset(xs) == multiset(Without(xs, at)) + multiset{xs[at]}
  {
    assert xs == xs[..at] + [xs[at]] + xs[at + 1..];
  }

  lemma JobsAppend(running: seq<Running>, r: Running)
    ensures JobsOf(running + [r]) == JobsOf(running) + [r.job]
    ensures CountSmall(running + [r]) == CountSmall(running) + if r.small then 1 else 0
  {
    assert (running + [r])[..|running|] == running;
  }

  lemma EndedAppend(ended: seq<Ending>, e: Ending)
    ensures EndedJobs(ended + [e]) == EndedJobs(ended) + [e.job]
    ensures CountFailed(ended + [e]) == CountFailed(ended) + if e.outcome.Failed? then 1 else 0
  {
    assert (ended + [e])[..|ended|] == ended;
  }

  lemma JobsWithout(running: seq<Running>, at: nat)
    requires at < |running|
    ensures JobsOf(Without(running, at)) == Without(JobsOf(running), at)
  {
  }

  lemma {:induction false} SmallWithout(running: seq<Running>, at: nat)
    requires at < |running|
    ensures CountSmall(running) == CountSmall(Without(running, at)) + if running[at].small then 1 else 0
    decreases |running|
  {
    var n := |running| - 1;
    if at == n {
      assert Without(running, at) == running[..n];
    } else {
      SmallWithout(running[..n], at);
      assert Without(running, at) == Without(running[..n], at) + [running[n]];
      JobsAppend(Without(running[..n], at), running[n]);
    }
  }

  lemma {:induction false} SmallUpdate(running: seq<Running>, at: nat, small: bool)
    requires at < |running|
    ensures CountSmall(running[at := running[at].(small := small)]) + (if running[at].small then 1 else 0)
         == CountSmall(running) + if small then 1 else 0
    decreases |running|
  {
    var n := |running| - 1;
    var r := running[at].(small := small);
    if at == n {
      assert running[at := r][..n] == running[..n];
    } else {
      SmallUpdate(running[..n], at, small);
      assert running[at := r][..n] == running[..n][at := r];
    }
  }

  // ---------------------------------------------------------------- starting

  /** Starting the first startable job keeps the two kinds in input order. */
  lemma StartInOrder(cfg: Config, st: State, at: nat)
    requires InOrder(cfg, st) && InBatch(cfg, st.waiting) && at < |st.waiting|
    requires First(cfg, Held(cfg, st), st.waiting, 0) == Some(at)
    ensures InOrder(cfg, StartOne(cfg, st, at))
  {
    var st' := StartOne(cfg, st, at);
    var job := st.waiting[at];
    forall j | 0 <= j < |st'.waiting|
      ensures st'.waiting[j] == st.waiting[if j < at then j else j + 1]
      ensures SameKind(cfg, job, st'.waiting[j]) ==> job < st'.waiting[j]
    {
      if j < at {
        assert !Startable(cfg, Held(cfg, st), st.waiting[j]) && Startable(cfg, Held(cfg, st), job);
      }
    }
  }

  lemma StartConserves(cfg: Config, st: State, at: nat)
    requires Conserved(cfg, st) && at < |st.waiting|
    ensures Conserved(cfg, StartOne(cfg, st, at))
  {
    hide JobsOf, EndedJobs, CountSmall, Without, InBatch;
    var st' := StartOne(cfg, st, at);
    WithoutOne(st.waiting, at);
    StillInBatch(cfg, st.waiting, at);
    JobsAppend(st.running, st'.running[|st.running|]);
    assert multiset(JobsOf(st'.running)) == multiset(JobsOf(st.running)) + multiset{st.waiting[at]};
    assert multiset(st'.started) == multiset(st.started) + multiset{st.waiting[at]};
  }

  lemma StillInBatch(cfg: Config, jobs: seq<nat>, at: nat)
    requires InBatch(cfg, jobs) && at < |jobs|
    ensures InBatch(cfg, Without(jobs, at))
  {
  }

  lemma StartOneKeeps(cfg: Config, st: State, at: nat)
    requires Kept(cfg, st) && CanStart(cfg, st) && First(cfg, Held(cfg, st), st.waiting, 0) == Some(at)
    ensures Kept(cfg, StartOne(cfg, st, at))
  {
    StartInOrder(cfg, st, at);
    StartConserves(cfg, st, at);
    JobsAppend(st.running, StartOne(cfg, st, at).running[|st.running|]);
  }

  lemma {:induction false} StartAllKeeps(cfg: Config, st: State)
    requires Kept(cfg, st)
    ensures Inv(cfg, StartAll(cfg, st)) && !CanStart(cfg, StartAll(cfg, st))
    decreases |st.waiting|
  {
    hide Everywhere, InOrder, Counted, Consented, Filled, Attentive;
    if CanStart(cfg, st) {
      var at := First(cfg, Held(cfg, st), st.waiting, 0).value;
      StartOneKeeps(cfg, st, at);
      StartAllKeeps(cfg, StartOne(cfg, st, at));
    } else {
      NoneLeft(cfg, st);
    }
  }

  lemma NoneLeft(cfg: Config, st: State)
    requires InBatch(cfg, st.waiting) && !CanStart(cfg, st)
    ensures Attentive(cfg, st) && Filled(cfg, st)
  {
    NoneStartable(cfg, st);
  }

  /** How many may run: the places, and up to sixteen of the jobs known small unless one runs at a time. */
  function Room(cfg: Config, small: nat): nat {
    if cfg.atOnce <= 1 then 1 else if small < 16 then cfg.atOnce + small else cfg.atOnce + 16
  }

  /**
   Starting goes on exactly until as many run as may, or no waiting job could start: it never starts
   one more, and leaves none waiting that could.
   */
  lemma {:induction false} StartAllFills(cfg: Config, st: State)
    requires InBatch(cfg, st.waiting)
    ensures var st' := StartAll(cfg, st);
            && InBatch(cfg, st'.waiting) && st'.small == st.small
            && |st'.running| <= Max(|st.running|, Room(cfg, st.small))
            && (SomeCouldStart(cfg, st') ==> |st'.running| >= Room(cfg, st.small))
    decreases |st.waiting|
  {
    if CanStart(cfg, st) {
      StartAllFills(cfg, StartOne(cfg, st, First(cfg, Held(cfg, st), st.waiting, 0).value));
    } else {
      NoneStartable(cfg, st);
    }
  }

  lemma NoneStartable(cfg: Config, st: State)
    requires InBatch(cfg, st.waiting)
    ensures First(cfg, Held(cfg, st), st.waiting, 0).Some? <==> SomeCouldStart(cfg, st)
  {
    var at := First(cfg, Held(cfg, st), st.waiting, 0);
    if SomeCouldStart(cfg, st) {
      var i :| 0 <= i < |st.waiting| && !(cfg.asks && st.answer.None? && cfg.jobs[st.waiting[i]].needsFfmpeg);
      assert Startable(cfg, Held(cfg, st), st.waiting[i]);
    }
  }

  // ---------------------------------------------------------------- every event

  lemma EndConserves(cfg: Config, st: State, at: nat, outcome: Outcome)
    requires Conserved(cfg, st) && at < |st.running|
    ensures Conserved(cfg, End(st, at, outcome))
  {
    WithoutOne(JobsOf(st.running), at);
    JobsWithout(st.running, at);
    EndedAppend(st.ended, Ending(st.running[at].job, outcome));
  }

  lemma EndCounts(st: State, at: nat, outcome: Outcome)
    requires Counted(st) && at < |st.running|
    ensures Counted(End(st, at, outcome))
  {
    hide CountSmall, CountFailed, Without;
    SmallWithout(st.running, at);
    EndedAppend(st.ended, Ending(st.running[at].job, outcome));
  }

  lemma EndConsents(cfg: Config, st: State, at: nat, outcome: Outcome)
    requires Consented(cfg, st) && at < |st.running|
    ensures Consented(cfg, End(st, at, outcome))
  {
    var st' := End(st, at, outcome);
    assert |st'.running| == |st.running| - 1 && st'.answer == st.answer;
    forall i | 0 <= i < |st'.running|
      ensures st'.running[i] == st.running[if i < at then i else i + 1]
    {
    }
    hide End, Without;
  }

  lemma EndKeepsOrder(cfg: Config, st: State, at: nat, outcome: Outcome)
    requires InOrder(cfg, st) && at < |st.running|
    ensures InOrder(cfg, End(st, at, outcome)) && |End(st, at, outcome).running| < |st.running|
  {
  }

  lemma EndKeeps(cfg: Config, st: State, at: nat, outcome: Outcome)
    requires Kept(cfg, st) && at < |st.running|
    ensures Kept(cfg, End(st, at, outcome))
  {
    hide Conserved, InOrder, Counted, Consented, End;
    EndConserves(cfg, st, at, outcome);
    EndKeepsOrder(cfg, st, at, outcome);
    EndCounts(st, at, outcome);
    EndConsents(cfg, st, at, outcome);
  }

  lemma SeeKeeps(cfg: Config, st: State, at: nat, small: bool)
    requires Inv(cfg, st) && at < |st.running|
    ensures Inv(cfg, See(st, at, small))
  {
    SmallUpdate(st.running, at, small);
    assert JobsOf(See(st, at, small).running) == JobsOf(st.running);
  }

  lemma StopKeeps(cfg: Config, st: State)
    requires Kept(cfg, st)
    ensures Kept(cfg, st.(waiting := [], dropped := st.dropped + st.waiting))
  {
  }

  lemma AnswerKeeps(cfg: Config, st: State, install: bool)
    requires Kept(cfg, st) && Held(cfg, st)
    ensures Kept(cfg, st.(answer := Some(install)))
  {
  }

  lemma HappenKeeps(cfg: Config, st: State, e: Event)
    requires Kept(cfg, st) && Enabled(cfg, st, e) && !e.Seen?
    ensures Kept(cfg, Happen(cfg, st, e))
  {
    match e {
      case Ended(at, outcome) => EndKeeps(cfg, st, at, outcome);
      case Woken =>
      case Answered(install) => AnswerKeeps(cfg, st, install);
      case Stopped => StopKeeps(cfg, st);
    }
  }

  lemma StepKeeps(cfg: Config, st: State, e: Event)
    requires Inv(cfg, st) && Enabled(cfg, st, e)
    ensures Inv(cfg, Step(cfg, st, e))
  {
    if e.Seen? {
      SeeKeeps(cfg, st, e.at, e.small);
    } else {
      HappenKeeps(cfg, st, e);
      StartAllKeeps(cfg, Happen(cfg, st, e));
    }
  }

  // ---------------------------------------------------------------- whole runs

  function Begin(cfg: Config): State {
    StartAll(cfg, Initial(cfg))
  }

  lemma BeginKeeps(cfg: Config)
    ensures Inv(cfg, Begin(cfg))
  {
    assert Everywhere(Initial(cfg)) == multiset(Initial(cfg).waiting);
    StartAllKeeps(cfg, Initial(cfg));
  }

  /** The batch after some events, each one that cannot happen then left out. */
  ghost function After(cfg: Config, events: seq<Event>): (st: State)
    ensures Inv(cfg, st)
  {
    if events == [] then
      BeginKeeps(cfg);
      Begin(cfg)
    else
      var st := After(cfg, events[..|events| - 1]);
      if Enabled(cfg, st, events[|events| - 1]) then
        StepKeeps(cfg, st, events[|events| - 1]);
        Step(cfg, st, events[|events| - 1])
      else
        st
  }

  lemma AfterOne(cfg: Config, events: seq<Event>, k: nat)
    requires k < |events|
    ensures var st := After(cfg, events[..k]);
            && InBatch(cfg, st.waiting)
            && After(cfg, events[..k + 1]) == if Enabled(cfg, st, events[k]) then Step(cfg, st, events[k]) else st
  {
    assert events[..k + 1][..k] == events[..k] && events[..k + 1][k] == events[k];
  }

  lemma AfterCounts(cfg: Config, events: seq<Event>)
    ensures InBatch(cfg, After(cfg, events).waiting) && After(cfg, events).failed == CountFailed(After(cfg, events).ended)
  {
  }

  /** The loop ends exactly when nothing can happen any more. */
  predicate Over(st: State) {
    st.waiting == [] && st.running == []
  }

  /**
   The batch never sits with jobs waiting and nothing to wait for: a job runs, or the question is
   still unanswered and every waiting job needs the answer.
   */
  lemma NeverStuck(cfg: Config, st: State)
    requires Inv(cfg, st)
    ensures st.running == [] && st.waiting != [] ==>
              Held(cfg, st) && forall i | 0 <= i < |st.waiting| :: cfg.jobs[st.waiting[i]].needsFfmpeg
    ensures Over(st) <==> forall e :: !Enabled(cfg, st, e)
  {
    if st.running == [] && st.waiting != [] {
      assert MayStart(|st.running|, st.small, cfg.atOnce);
      assert First(cfg, Held(cfg, st), st.waiting, 0).None?;
      assert !Startable(cfg, Held(cfg, st), st.waiting[0]);
    }
    if !Over(st) {
      assert if st.waiting != [] then Enabled(cfg, st, Stopped) else Enabled(cfg, st, Ended(0, Done));
    }
  }

  lemma {:induction false} CountIsMultiset(xs: seq<nat>, ys: seq<nat>)
    requires multiset(xs) == multiset(ys)
    ensures |xs| == |ys|
  {
    assert |multiset(xs)| == |xs| && |multiset(ys)| == |ys|;
  }

  /**
   When the batch is over every job has ended once or was dropped by a shutdown, and the result is
   the number that failed; without a shutdown all have ended.
   */
  lemma OverAccountsForAll(cfg: Config, events: seq<Event>)
    requires Over(After(cfg, events))
    ensures var st := After(cfg, events);
            && multiset(EndedJobs(st.ended)) + multiset(st.dropped) == multiset(Initial(cfg).waiting)
            && st.failed == CountFailed(st.ended)
            && (Stopped !in events ==> |st.ended| == |cfg.jobs|)
  {
    var st := After(cfg, events);
    assert multiset(st.waiting) == multiset{} && multiset(JobsOf(st.running)) == multiset{};
    if Stopped !in events {
      OnlyStoppingDrops(cfg, events);
      assert multiset(EndedJobs(st.ended)) == multiset(Initial(cfg).waiting);
      CountIsMultiset(EndedJobs(st.ended), Initial(cfg).waiting);
    }
  }

  lemma {:induction false} StartAllDropsNone(cfg: Config, st: State)
    requires InBatch(cfg, st.waiting)
    ensures StartAll(cfg, st).dropped == st.dropped && StartAll(cfg, st).answer == st.answer
    decreases |st.waiting|
  {
    if CanStart(cfg, st) {
      StartAllDropsNone(cfg, StartOne(cfg, st, First(cfg, Held(cfg, st), st.waiting, 0).value));
    }
  }

  lemma StepDropsNone(cfg: Config, st: State, e: Event)
    requires InBatch(cfg, st.waiting) && Enabled(cfg, st, e) && !e.Stopped?
    ensures Step(cfg, st, e).dropped == st.dropped
  {
    if !e.Seen? {
      StartAllDropsNone(cfg, Happen(cfg, st, e));
    }
  }

  lemma {:induction false} OnlyStoppingDrops(cfg: Config, events: seq<Event>)
    requires Stopped !in events
    ensures After(cfg, events).dropped == []
  {
    if events == [] {
      StartAllDropsNone(cfg, Initial(cfg));
    } else {
      hide *;
      var n := |events| - 1;
      OnlyStoppingDrops(cfg, events[..n]);
      AfterOne(cfg, events, n);
      assert events[..n + 1] == events;
      var st := After(cfg, events[..n]);
      if Enabled(cfg, st, events[n]) {
        StepDropsNone(cfg, st, events[n]);
      }
    }
  }

  /**
   A batch of single jobs never runs two; any other runs at most sixteen more than its places. As long
   as a job waits that could start, no place is empty, and until a new small one wakes the batch the
   small ones take none.
   */
  lemma PlacesAreKept(cfg: Config, events: seq<Event>)
    ensures var st := After(cfg, events);
            && |st.running| <= Room(cfg, 16) && InBatch(cfg, st.waiting)
            && (SomeCouldStart(cfg, st) ==>
                  && |st.running| >= 1 && |st.running| >= cfg.atOnce
                  && (!st.found ==> |st.running| >= Room(cfg, CountSmall(st.running))))
  {
    var st := After(cfg, events);
    NoneStartable(cfg, st);
  }

  // ---------------------------------------------------------------- the loop

  method NextToStart(cfg: Config, held: bool, waiting: seq<nat>) returns (at: Option<nat>)
    requires InBatch(cfg, waiting)
    ensures at == First(cfg, held, waiting, 0)
  {
    for i := 0 to |waiting|
      invariant First(cfg, held, waiting, 0) == First(cfg, held, waiting, i)
    {
      if !held || !cfg.jobs[waiting[i]].needsFfmpeg {
        return Some(i);
      }
    }
    return None;
  }

  lemma StartsFirst(cfg: Config, st: State, at: nat)
    requires InBatch(cfg, st.waiting) && at < |st.waiting|
    requires MayStart(|st.running|, st.small, cfg.atOnce) && First(cfg, Held(cfg, st), st.waiting, 0) == Some(at)
    ensures InBatch(cfg, StartOne(cfg, st, at).waiting)
    ensures StartAll(cfg, st) == StartAll(cfg, StartOne(cfg, st, at))
  {
  }

  lemma StartsNone(cfg: Config, st: State)
    requires InBatch(cfg, st.waiting)
    requires MayStart(|st.running|, st.small, cfg.atOnce) ==> First(cfg, Held(cfg, st), st.waiting, 0).None?
    ensures StartAll(cfg, st) == st
  {
  }

  /** The loop's variables, with what has become of the jobs as ghost history. */
  class Jobs {
    const cfg: Config
    var waiting: seq<nat>
    var running: seq<Running>
    var small: nat
    var found: bool
    var failed: nat
    var answer: Option<bool>
    ghost var started: seq<nat>
    ghost var ended: seq<Ending>
    ghost var dropped: seq<nat>

    ghost function View(): State
      reads this
    {
      State(waiting, running, small, found, failed, answer, started, ended, dropped)
    }

    constructor (cfg: Config)
      ensures this.cfg == cfg && View() == Initial(cfg)
    {
      this.cfg := cfg;
      this.waiting := seq(|cfg.jobs|, i => i);
      this.running, this.small, this.found, this.failed := [], 0, false, 0;
      this.answer := cfg.known;
      this.started, this.ended, this.dropped := [], [], [];
    }

    method StartJobs()
      requires InBatch(cfg, waiting)
      modifies this
      ensures View() == StartAll(cfg, old(View()))
    {
      hide StartAll, InBatch, First, MayStart;
      while MayStart(|running|, small, cfg.atOnce)
        invariant InBatch(cfg, waiting) && StartAll(cfg, View()) == StartAll(cfg, old(View()))
        decreases |waiting|
      {
        ghost var st := View();
        var next := NextToStart(cfg, cfg.asks && answer.None?, waiting);
        if next.None? {
          break;
        }
        var job := waiting[next.value];
        waiting := waiting[..next.value] + waiting[next.value + 1..];
        running := running + [Running(job, false, if cfg.asks then answer else None)];
        started := started + [job];
        assert View() == StartOne(cfg, st, next.value);
        StartsFirst(cfg, st, next.value);
      }
      StartsNone(cfg, View());
    }

    /** A snapshot of the running job at `at`. */
    method Saw(at: nat, isSmall: bool)
      requires at < |running|
      modifies this
      ensures View() == See(old(View()), at, isSmall)
    {
      if running[at].small == isSmall {
        return;
      }
      running := running[at := running[at].(small := isSmall)];
      if isSmall {
        small, found := small + 1, true;
      } else {
        small := Max(small - 1, 0);
      }
    }

    /** The running job at `at` ends: its small count is undone, and a failure counted. */
    method Finished(at: nat, outcome: Outcome)
      requires at < |running|
      modifies this
      ensures View() == End(old(View()), at, outcome)
    {
      if running[at].small {
        small := Max(small - 1, 0);
      }
      ended := ended + [Ending(running[at].job, outcome)];
      running := running[..at] + running[at + 1..];
      if outcome.Failed? {
        failed := failed + 1;
      }
    }

    /** One event, if it can happen now. */
    method Take(e: Event)
      requires InBatch(cfg, waiting)
      modifies this
      ensures View() == if Enabled(cfg, old(View()), e) then Step(cfg, old(View()), e) else old(View())
    {
      match e {
        case Ended(at, outcome) =>
          if at < |running| {
            Finished(at, outcome);
            StartJobs();
          }
        case Seen(at, isSmall) =>
          if at < |running| {
            Saw(at, isSmall);
          }
        case Woken =>
          if found && running != [] {
            found := false;
            StartJobs();
          }
        case Answered(install) =>
          if cfg.asks && answer.None? && waiting != [] {
            answer := Some(install);
            StartJobs();
          }
        case Stopped =>
          if waiting != [] {
            dropped := dropped + waiting;
            waiting := [];
            StartJobs();
          }
      }
    }
  }

  /** The batch was not over before any of the first `n` events. */
  ghost predicate Unfinished(cfg: Config, events: seq<Event>, n: nat)
    requires n <= |events|
  {
    forall i | 0 <= i < n :: !Over(After(cfg, events[..i]))
  }

  /** Runs the jobs through `events`; `over` when the loop ended, which it does as soon as nothing is left. */
  method RunJobs(cfg: Config, events: seq<Event>) returns (failed: nat, over: bool, used: nat)
    ensures used <= |events| && (!over ==> used == |events|)
    ensures failed == CountFailed(After(cfg, events[..used]).ended)
    ensures over <==> Over(After(cfg, events[..used]))
    ensures Unfinished(cfg, events, used)
  {
    hide Inv, Step, Enabled, InBatch, CountFailed;
    var jobs := new Jobs(cfg);
    StartsInBatch(cfg);
    jobs.StartJobs();
    used := 0;
    Begins(cfg, events);
    hide After, StartAll, Initial;
    while used < |events| && (jobs.waiting != [] || jobs.running != [])
      invariant used <= |events| && jobs.cfg == cfg
      invariant jobs.View() == After(cfg, events[..used])
      invariant Unfinished(cfg, events, used)
    {
      AfterOne(cfg, events, used);
      StillUnfinished(cfg, events, used);
      jobs.Take(events[used]);
      used := used + 1;
    }
    AfterCounts(cfg, events[..used]);
    failed := jobs.failed;
    over := jobs.waiting == [] && jobs.running == [];
  }

  lemma StartsInBatch(cfg: Config)
    ensures InBatch(cfg, Initial(cfg).waiting)
  {
  }

  lemma Begins(cfg: Config, events: seq<Event>)
    ensures InBatch(cfg, Initial(cfg).waiting) && After(cfg, events[..0]) == StartAll(cfg, Initial(cfg))
  {
  }

  lemma StillUnfinished(cfg: Config, events: seq<Event>, n: nat)
    requires n < |events| && Unfinished(cfg, events, n) && !Over(After(cfg, events[..n]))
    ensures Unfinished(cfg, events, n + 1)
  {
  }
}

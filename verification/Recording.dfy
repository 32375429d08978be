/**
 The recording relay (extension/background.js): chunks of a recording, and what ends it, are tasks
 queued under the recording's key. A task goes in stages between which other tasks, of other keys,
 may run: `onRecChunk` may close an earlier document's recording, open a new one with the app and
 then hands over its chunk; `closeRecording` has the app finish or abort.
 */
module Recording {
  import opened Basics
  import Serialize

  /** A recording as the extension keeps it; `serial` tells the objects apart. */
  datatype Rec = Rec(serial: nat, appId: Option<string>, bytes: nat, doc: string, browser: bool, error: bool, failed: bool)

  /** `CloseIf` closes only the very recording it was meant for. */
  datatype Job =
    | Bring(doc: string, size: nat, browser: bool)
    | Close(abort: bool)
    | CloseIf(serial: nat)

  /** What the app is sent; a chunk is named by the task that brought it. */
  datatype Request =
    | Begin(id: string)
    | Send(id: string, task: nat, size: nat, taken: bool)
    | Finish(id: string)
    | Abort(id: string)

  datatype Stage = Began | Closing(id: string, abort: bool, again: bool) | Ready | Starting | Sending(id: string) | Over

  /** Where a recording of the app belongs: its key, and its first task and the one after its last. */
  datatype Span = Span(key: string, first: nat, next: nat)

  /**
   `line` is the queue, `jobs` what its tasks do, `stages` where those that run are. `log` is what
   the app was sent, `spans` where each of its recordings came from, and `thrown` the tasks that
   failed before handing over their chunk.
   */
  datatype State = State(
    line: Serialize.State, jobs: seq<Job>, stages: map<nat, Stage>, recs: map<string, Rec>, serials: nat,
    log: seq<Request>, spans: map<string, Span>, thrown: set<nat>)

  datatype Event =
    | Arrive(key: string, job: Job)
    | Go(task: nat)
    | Look(task: nat)
    | Tell(task: nat)
    | Open(task: nat, allowed: bool)
    | Reply(task: nat, id: Option<string>)
    | Sent(task: nat, taken: bool)
    | Throw(task: nat)
    | End(task: nat)
    | Forget(task: nat)
    | BrowserOpens(key: string, name: string)
    | Progress(key: string)

  predicate At(st: State, task: nat, stage: Stage) {
    task in st.stages && st.stages[task] == stage
  }

  function KeyOf(st: State, task: nat): string {
    if task < |st.line.tasks| then st.line.tasks[task].key else ""
  }

  function JobOf(st: State, task: nat): Job {
    if task < |st.jobs| then st.jobs[task] else Close(false)
  }

  predicate Idle(st: State, key: string) {
    key !in st.recs && forall t: nat | t < |st.line.tasks| && st.line.tasks[t].key == key :: Serialize.HasSettled(st.line, t)
  }

  /**
   The app names each recording anew, and a browser download's key is too random for anything to
   have come under it. A task's stages follow one another.
   */
  predicate Enabled(st: State, e: Event) {
    match e
    case Arrive(_, _) => true
    case Go(task) => Serialize.Enabled(st.line, Serialize.Start(task))
    case Look(task) => At(st, task, Began)
    case Tell(task) => task in st.stages && st.stages[task].Closing?
    case Open(task, _) => At(st, task, Ready)
    case Reply(task, id) => At(st, task, Starting) && (id.Some? ==> id.value !in st.spans)
    case Sent(task, _) => task in st.stages && st.stages[task].Sending?
    case Throw(task) => task in st.stages && st.stages[task] != Over
    case End(task) => At(st, task, Over)
    case Forget(task) => Serialize.HasSettled(st.line, task)
    case BrowserOpens(key, id) => Idle(st, key) && id !in st.spans
    case Progress(key) => key in st.recs
  }

  function Enter(st: State, task: nat, stage: Stage): State {
    st.(stages := st.stages[task := stage])
  }

  /** Takes the recording off the list; one that failed stays there once, to show its error. */
  function Mark(st: State, key: string): State
    requires key in st.recs
  {
    var rec := st.recs[key];
    if rec.error && !rec.failed then
      st.(recs := st.recs[key := rec.(serial := st.serials, appId := None, failed := true)], serials := st.serials + 1)
    else
      st.(recs := st.recs - {key})
  }

  /** A failed browser download is aborted, whatever was asked. */
  function Aborts(rec: Rec, abort: bool): bool {
    abort || (rec.error && !rec.failed)
  }

  /** The start of `closeRecording`; `again` when a chunk is to follow. */
  function StartClosing(st: State, task: nat, abort: bool, again: bool): State {
    var key := KeyOf(st, task);
    if key !in st.recs then
      Enter(st, task, if again then Ready else Over)
    else
      var rec := st.recs[key];
      var stage := if rec.appId.Some? then Closing(rec.appId.value, Aborts(rec, abort), again)
                   else if again then Ready
                   else Over;
      Enter(Mark(st, key), task, stage)
  }

  function StepLook(st: State, task: nat): State {
    var key := KeyOf(st, task);
    match JobOf(st, task)
    case Bring(doc, _, browser) =>
      if !browser && key in st.recs && st.recs[key].doc != doc then StartClosing(st, task, false, true)
      else Enter(st, task, Ready)
    case Close(abort) => StartClosing(st, task, abort, false)
    case CloseIf(serial) =>
      if key in st.recs && st.recs[key].serial == serial then StartClosing(st, task, false, false)
      else Enter(st, task, Over)
  }

  function StepTell(st: State, task: nat): State
    requires task in st.stages && st.stages[task].Closing?
  {
    var Closing(id, abort, again) := st.stages[task];
    Enter(st.(log := st.log + [if abort then Abort(id) else Finish(id)]), task, if again then Ready else Over)
  }

  /** A recording just made, with no name from the app yet. */
  function NewRec(st: State, task: nat): State
    requires JobOf(st, task).Bring?
  {
    st.(recs := st.recs[KeyOf(st, task) := Rec(st.serials, None, 0, JobOf(st, task).doc, false, false, false)],
        serials := st.serials + 1)
  }

  function StepOpen(st: State, task: nat, allowed: bool): State {
    var key := KeyOf(st, task);
    if !JobOf(st, task).Bring? then
      Enter(st, task, Over)
    else if key in st.recs then
      Enter(st, task, if st.recs[key].appId.Some? then Sending(st.recs[key].appId.value) else Over)
    else if JobOf(st, task).browser || !allowed then
      Enter(st, task, Over)
    else
      Enter(NewRec(st, task), task, Starting)
  }

  function StepReply(st: State, task: nat, id: Option<string>): State {
    var key := KeyOf(st, task);
    if id.None? || key !in st.recs then
      Enter(st, task, Over)
    else
      Enter(st.(recs := st.recs[key := st.recs[key].(appId := id)], log := st.log + [Begin(id.value)],
                spans := st.spans[id.value := Span(key, task, task)]), task, Sending(id.value))
  }

  /** A chunk the app did not take ends the recording: kept if anything reached the app, else thrown away. */
  function StepSent(st: State, task: nat, taken: bool): State
    requires task in st.stages && st.stages[task].Sending?
  {
    var id, key := st.stages[task].id, KeyOf(st, task);
    if key !in st.recs || id !in st.spans || !JobOf(st, task).Bring? then
      Enter(st, task, Over)
    else
      var rec := st.recs[key];
      var told := if taken then [] else [if rec.bytes > 0 then Finish(id) else Abort(id)];
      var rec' := if taken then rec.(bytes := rec.bytes + JobOf(st, task).size) else rec.(appId := None);
      Enter(st.(recs := st.recs[key := rec'], log := st.log + [Send(id, task, JobOf(st, task).size, taken)] + told,
                spans := st.spans[id := st.spans[id].(next := task + 1)]), task, Over)
  }

  function Settled(st: State, task: nat, ok: bool): State
    requires task < |st.line.tasks|
  {
    st.(line := Serialize.Turn(st.line, task, Serialize.Settled(ok)), stages := st.stages - {task})
  }

  function Step(st: State, e: Event): State
    requires Enabled(st, e) && (forall t | t in st.stages :: t < |st.line.tasks|)
  {
    match e
    case Arrive(key, job) => st.(line := Serialize.Step(st.line, Serialize.Submit(key)), jobs := st.jobs + [job])
    case Go(task) => Enter(st.(line := Serialize.Step(st.line, Serialize.Start(task))), task, Began)
    case Look(task) => StepLook(st, task)
    case Tell(task) => StepTell(st, task)
    case Open(task, allowed) => StepOpen(st, task, allowed)
    case Reply(task, id) => StepReply(st, task, id)
    case Sent(task, taken) => StepSent(st, task, taken)
    case Throw(task) => Settled(st.(thrown := st.thrown + {task}), task, false)
    case End(task) => Settled(st, task, true)
    case Forget(task) => st.(line := Serialize.Step(st.line, Serialize.Forget(task)))
    case BrowserOpens(key, id) =>
      st.(recs := st.recs[key := Rec(st.serials, Some(id), 0, "", true, false, false)], serials := st.serials + 1,
          log := st.log + [Begin(id)], spans := st.spans[id := Span(key, |st.line.tasks|, |st.line.tasks|)])
    case Progress(key) => st.(recs := st.recs[key := st.recs[key].(error := true)])
  }

  // ---------------------------------------------------------------- what the app is sent

  /** The tasks whose chunks one of the app's recordings was sent, in order. */
  function SentTo(log: seq<Request>, id: string): seq<nat> {
    if log == [] then
      []
    else
      var last := log[|log| - 1];
      SentTo(log[..|log| - 1], id) + if last.Send? && last.id == id then [last.task] else []
  }

  ghost predicate EndedIn(log: seq<Request>, id: string) {
    Finish(id) in log || Abort(id) in log
  }

  ghost predicate LostIn(log: seq<Request>, id: string) {
    exists task: nat, size: nat :: Send(id, task, size, false) in log
  }

  /**
   Each of the app's recordings is begun once, then sent chunks, of which at most the last is not
   taken, and ended at most once; nothing follows its end.
   */
  ghost predicate Orderly(log: seq<Request>) {
    log == [] || (
      Orderly(log[..|log| - 1]) && MayFollow(log[..|log| - 1], log[|log| - 1]))
  }

  ghost predicate MayFollow(log: seq<Request>, r: Request) {
    match r
    case Begin(id) => Begin(id) !in log
    case Send(id, _, _, _) => Begin(id) in log && !EndedIn(log, id) && !LostIn(log, id)
    case Finish(id) => Begin(id) in log && !EndedIn(log, id)
    case Abort(id) => Begin(id) in log && !EndedIn(log, id)
  }

  /** The chunks that came under a key among the tasks from `first` to before `next`, less those whose task threw. */
  function Arrivals(st: State, key: string, first: nat, next: nat): seq<nat>
    decreases next - first
  {
    if next <= first then
      []
    else
      Arrivals(st, key, first, next - 1)
      + if KeyOf(st, next - 1) == key && JobOf(st, next - 1).Bring? && next - 1 !in st.thrown then [next - 1] else []
  }

  // ---------------------------------------------------------------- what always holds

  predicate Live(st: State, id: string) {
    id in st.spans && st.spans[id].key in st.recs && st.recs[st.spans[id].key].appId == Some(id)
  }

  /** The tasks that run are those in a stage. */
  ghost predicate LineOk(st: State) {
    && Serialize.Inv(st.line) && |st.jobs| == |st.line.tasks|
    && (forall t: nat | t < |st.line.tasks| :: t in st.stages <==> st.line.tasks[t].phase.Running?)
    && (forall t | t in st.stages :: t < |st.line.tasks|)
    && (forall t | t in st.thrown :: Serialize.HasSettled(st.line, t))
  }

  ghost predicate StageOk(st: State, t: nat)
    requires t in st.stages
  {
    match st.stages[t]
    case Began => true
    case Over => true
    case Closing(id, _, again) =>
      && id in st.spans && st.spans[id].key == KeyOf(st, t) && !Live(st, id) && !EndedIn(st.log, id)
      && (again <==> JobOf(st, t).Bring?)
    case Ready => JobOf(st, t).Bring?
    case Starting => JobOf(st, t).Bring? && KeyOf(st, t) in st.recs && st.recs[KeyOf(st, t)].appId.None?
    case Sending(id) => JobOf(st, t).Bring? && Live(st, id) && st.spans[id].key == KeyOf(st, t)
  }

  /** A task that has not yet handed over its chunk. */
  predicate Before(st: State, t: nat) {
    t in st.stages ==> st.stages[t] != Over
  }

  predicate Brings(st: State, t: nat, key: string) {
    t < |st.line.tasks| && KeyOf(st, t) == key && JobOf(st, t).Bring?
  }

  /** The span's tasks are done with their chunks, all of which the recording was sent. */
  ghost predicate SpanOk(st: State, id: string)
    requires id in st.spans
  {
    var span := st.spans[id];
    && span.first <= span.next <= |st.line.tasks|
    && Begin(id) in st.log
    && SentTo(st.log, id) == Arrivals(st, span.key, span.first, span.next)
    && (forall t: nat | t < span.next && Brings(st, t, span.key) :: Serialize.HasSettled(st.line, t) || At(st, t, Over))
    && (Live(st, id) ==> Unbroken(st, id))
  }

  /** A live recording has not ended, and no chunk that came after its span was passed over. */
  ghost predicate Unbroken(st: State, id: string)
    requires id in st.spans
  {
    && !EndedIn(st.log, id) && !LostIn(st.log, id)
    && forall t: nat | st.spans[id].next <= t && Brings(st, t, st.spans[id].key) ::
         t in st.thrown || (!Serialize.HasSettled(st.line, t) && Before(st, t))
  }

  ghost predicate RecOk(st: State, key: string)
    requires key in st.recs
  {
    st.recs[key].appId.Some? ==> st.recs[key].appId.value in st.spans && st.spans[st.recs[key].appId.value].key == key
  }

  ghost predicate StagesOk(st: State) {
    forall t | t in st.stages :: StageOk(st, t)
  }

  ghost predicate SpansOk(st: State) {
    && (forall id | id in st.spans :: SpanOk(st, id))
    && (forall id :: Begin(id) in st.log ==> id in st.spans)
  }

  ghost predicate RecsOk(st: State) {
    forall key | key in st.recs :: RecOk(st, key)
  }

  ghost predicate Inv(st: State) {
    LineOk(st) && StagesOk(st) && SpansOk(st) && RecsOk(st) && Orderly(st.log)
  }

  // ---------------------------------------------------------------- the log

  lemma LogOne(log: seq<Request>, r: Request)
    ensures (log + [r])[..|log|] == log
    ensures forall id :: SentTo(log + [r], id) == if r.Send? && r.id == id then SentTo(log, id) + [r.task] else SentTo(log, id)
    ensures forall id :: EndedIn(log + [r], id) <==> EndedIn(log, id) || r == Finish(id) || r == Abort(id)
    ensures forall id :: LostIn(log + [r], id) <==> LostIn(log, id) || (r.Send? && r.id == id && !r.taken)
    ensures forall id :: Begin(id) in log + [r] <==> Begin(id) in log || r == Begin(id)
  {
    assert (log + [r])[..|log|] == log;
    forall id
      ensures LostIn(log + [r], id) <==> LostIn(log, id) || (r.Send? && r.id == id && !r.taken)
    {
      if r.Send? && r.id == id && !r.taken {
        assert Send(id, r.task, r.size, false) in log + [r];
      }
      if LostIn(log, id) {
        var task: nat, size: nat :| Send(id, task, size, false) in log;
        assert Send(id, task, size, false) in log + [r];
      }
    }
  }

  lemma {:induction false} SameArrivals(st: State, st': State, key: string, first: nat, next: nat)
    requires forall t: nat | first <= t < next ::
               KeyOf(st', t) == KeyOf(st, t) && JobOf(st', t) == JobOf(st, t)
               && (KeyOf(st, t) == key && JobOf(st, t).Bring? ==> (t in st'.thrown <==> t in st.thrown))
    ensures Arrivals(st', key, first, next) == Arrivals(st, key, first, next)
    decreases next
  {
    if first < next {
      SameArrivals(st, st', key, first, next - 1);
    }
  }

  lemma {:induction false} NoArrivals(st: State, key: string, first: nat, from: nat, next: nat)
    requires first <= from <= next
    requires forall t: nat | from <= t < next && KeyOf(st, t) == key && JobOf(st, t).Bring? :: t in st.thrown
    ensures Arrivals(st, key, first, next) == Arrivals(st, key, first, from)
    decreases next
  {
    if from < next {
      NoArrivals(st, key, first, from, next - 1);
    }
  }

  lemma OneRunning(st: State, t: nat, u: nat)
    requires LineOk(st) && t in st.stages && u in st.stages && KeyOf(st, t) == KeyOf(st, u)
    ensures t == u
  {
    if t < u {
      assert Serialize.FirstInLine(st.line, u) && Serialize.Fellows(st.line, t, u);
    } else if u < t {
      assert Serialize.FirstInLine(st.line, t) && Serialize.Fellows(st.line, u, t);
    }
  }

  // ---------------------------------------------------------------- steps of the queue

  /** Nothing of what the queue holds of old tasks changes but where they are. */
  ghost predicate SameBooks(st: State, st': State) {
    && st'.recs == st.recs && st'.log == st.log && st'.spans == st.spans
    && |st.line.tasks| <= |st'.line.tasks|
    && (forall t: nat | t < |st.line.tasks| :: KeyOf(st', t) == KeyOf(st, t) && JobOf(st', t) == JobOf(st, t))
  }

  lemma ArriveSpan(st: State, key: string, job: Job, id: string)
    requires LineOk(st) && id in st.spans && SpanOk(st, id)
    ensures SpanOk(Step(st, Arrive(key, job)), id)
  {
    var st' := Step(st, Arrive(key, job));
    SameArrivals(st, st', st.spans[id].key, st.spans[id].first, st.spans[id].next);
    hide Serialize.Inv, Arrivals;
    forall t: nat
      ensures t < |st.line.tasks| ==> (Brings(st', t, st.spans[id].key) <==> Brings(st, t, st.spans[id].key))
      ensures Serialize.HasSettled(st'.line, t) <==> Serialize.HasSettled(st.line, t)
    {
    }
  }

  lemma ArriveKeeps(st: State, key: string, job: Job)
    requires Inv(st)
    ensures Inv(Step(st, Arrive(key, job)))
  {
    var st' := Step(st, Arrive(key, job));
    Serialize.StepKeeps(st.line, Serialize.Submit(key));
    forall t | t in st'.stages
      ensures StageOk(st', t)
    {
      assert StageOk(st, t);
    }
    forall id | id in st'.spans
      ensures SpanOk(st', id)
    {
      ArriveSpan(st, key, job, id);
    }
    assert forall key | key in st'.recs :: RecOk(st, key) ==> RecOk(st', key);
  }

  lemma GoKeeps(st: State, task: nat)
    requires Inv(st) && Enabled(st, Go(task))
    ensures Inv(Step(st, Go(task)))
  {
    var st' := Step(st, Go(task));
    Serialize.StepKeeps(st.line, Serialize.Start(task));
    QueueStepKeeps(st, st', task);
  }

  lemma EndKeeps(st: State, task: nat)
    requires Inv(st) && Enabled(st, End(task))
    ensures Inv(Step(st, End(task)))
  {
    var st' := Step(st, End(task));
    Serialize.StepKeeps(st.line, Serialize.Settle(task, true));
    QueueStepKeeps(st, st', task);
  }

  lemma ThrowKeeps(st: State, task: nat)
    requires Inv(st) && Enabled(st, Throw(task))
    ensures Inv(Step(st, Throw(task)))
  {
    var st' := Step(st, Throw(task));
    Serialize.StepKeeps(st.line, Serialize.Settle(task, false));
    QueueStepKeeps(st, st', task);
  }

  lemma ForgetKeeps(st: State, task: nat)
    requires Inv(st) && Enabled(st, Forget(task))
    ensures Inv(Step(st, Forget(task)))
  {
    var st' := Step(st, Forget(task));
    Serialize.StepKeeps(st.line, Serialize.Forget(task));
    QueueStepKeeps(st, st', task);
  }

  /** `task` starts, or leaves with its chunk handed over or its failure noted; all else stays. */
  ghost predicate QueueStep(st: State, st': State, task: nat) {
    && SameBooks(st, st') && st'.jobs == st.jobs && |st'.line.tasks| == |st.line.tasks|
    && (forall t: nat | t != task ::
          && (t in st'.stages <==> t in st.stages) && (t in st.stages ==> st'.stages[t] == st.stages[t])
          && (t in st'.thrown <==> t in st.thrown)
          && (Serialize.HasSettled(st'.line, t) <==> Serialize.HasSettled(st.line, t)))
    && (task in st'.stages ==> st'.stages[task] == Began || (task in st.stages && st'.stages[task] == st.stages[task]))
    && (Serialize.HasSettled(st.line, task) ==> Serialize.HasSettled(st'.line, task))
    && (task in st.thrown ==> task in st'.thrown)
    && (At(st, task, Over) ==> Serialize.HasSettled(st'.line, task))
    && (Serialize.HasSettled(st'.line, task) ==>
          Serialize.HasSettled(st.line, task) || At(st, task, Over) || task in st'.thrown)
    && (task in st'.thrown ==> task in st.thrown || (task in st.stages && st.stages[task] != Over))
  }

  lemma QueueStepSpan(st: State, st': State, task: nat, id: string)
    requires LineOk(st) && QueueStep(st, st', task) && id in st.spans && SpanOk(st, id)
    ensures SpanOk(st', id)
  {
    hide Serialize.Inv, Arrivals, SentTo, EndedIn, LostIn;
    SameArrivals(st, st', st.spans[id].key, st.spans[id].first, st.spans[id].next);
    forall t: nat
      ensures Brings(st', t, st.spans[id].key) <==> Brings(st, t, st.spans[id].key)
    {
    }
  }

  lemma QueueStepKeeps(st: State, st': State, task: nat)
    requires Inv(st) && QueueStep(st, st', task) && LineOk(st')
    ensures Inv(st')
  {
    forall t | t in st'.stages
      ensures StageOk(st', t)
    {
      if t in st.stages {
        assert StageOk(st, t);
      }
    }
    forall id | id in st'.spans
      ensures SpanOk(st', id)
    {
      QueueStepSpan(st, st', task, id);
    }
    assert forall key | key in st'.recs :: RecOk(st, key) ==> RecOk(st', key);
  }

  // ---------------------------------------------------------------- steps of one key's task

  /** Only what belongs to `key` changes, and nothing of the queue. */
  ghost predicate Local(st: State, st': State, key: string) {
    && st'.line == st.line && st'.jobs == st.jobs && st'.thrown == st.thrown && st'.stages.Keys == st.stages.Keys
    && (forall t | t in st.stages && KeyOf(st, t) != key :: st'.stages[t] == st.stages[t])
    && (forall other | other != key :: other in st'.recs <==> other in st.recs)
    && (forall other | other != key && other in st.recs :: st'.recs[other] == st.recs[other])
    && (forall id | id in st.spans :: id in st'.spans && st'.spans[id].key == st.spans[id].key)
    && (forall id | id in st.spans && st.spans[id].key != key :: st'.spans[id] == st.spans[id] && SameTale(st.log, st'.log, id))
    && (forall id | id in st'.spans && id !in st.spans :: st'.spans[id].key == key)
  }

  ghost predicate SameTale(log: seq<Request>, log': seq<Request>, id: string) {
    && SentTo(log', id) == SentTo(log, id)
    && (EndedIn(log', id) <==> EndedIn(log, id)) && (LostIn(log', id) <==> LostIn(log, id))
    && (Begin(id) in log' <==> Begin(id) in log)
  }

  lemma OtherStage(st: State, st': State, key: string, t: nat)
    requires Local(st, st', key) && t in st.stages && KeyOf(st, t) != key && StageOk(st, t)
    ensures StageOk(st', t)
  {
  }

  lemma OtherSpan(st: State, st': State, key: string, id: string)
    requires Local(st, st', key) && id in st.spans && st.spans[id].key != key && SpanOk(st, id)
    requires forall t | t in st.stages :: t < |st.line.tasks|
    ensures SpanOk(st', id)
  {
    var span := st.spans[id];
    SameArrivals(st, st', span.key, span.first, span.next);
    hide Arrivals, SentTo, EndedIn, LostIn;
    assert Live(st', id) <==> Live(st, id);
    forall t: nat | Brings(st', t, span.key)
      ensures Brings(st, t, span.key) && (t in st.stages ==> st'.stages[t] == st.stages[t])
    {
    }
  }

  /** What a step of one key must show for itself. */
  lemma LocalKeeps(st: State, st': State, key: string)
    requires Inv(st) && Local(st, st', key)
    requires forall t | t in st'.stages && KeyOf(st, t) == key :: StageOk(st', t)
    requires forall id | id in st'.spans && st'.spans[id].key == key :: SpanOk(st', id)
    requires key in st'.recs ==> RecOk(st', key)
    requires Orderly(st'.log) && forall id :: Begin(id) in st'.log ==> id in st'.spans
    ensures Inv(st')
  {
    forall t | t in st'.stages
      ensures StageOk(st', t)
    {
      if KeyOf(st, t) != key {
        OtherStage(st, st', key, t);
      }
    }
    forall id | id in st'.spans
      ensures SpanOk(st', id)
    {
      if st'.spans[id].key != key {
        OtherSpan(st, st', key, id);
      }
    }
    forall other | other in st'.recs
      ensures RecOk(st', other)
    {
      assert other != key ==> RecOk(st, other);
    }
  }

  /** A task of `key` moves on while the log and the spans stay: no recording of the key becomes live by that. */
  lemma MoveKeepsSpan(st: State, st': State, task: nat, id: string)
    requires Inv(st) && task in st.stages && st.stages[task] != Over && Local(st, st', KeyOf(st, task))
    requires st'.log == st.log && id in st.spans && st'.spans == st.spans && st.spans[id].key == KeyOf(st, task)
    requires Live(st', id) ==> Live(st, id) && st'.stages[task] != Over
    ensures SpanOk(st', id)
  {
    var span := st.spans[id];
    assert SpanOk(st, id);
    SameArrivals(st, st', span.key, span.first, span.next);
    forall t: nat | Brings(st', t, span.key)
      ensures Brings(st, t, span.key) && (t in st.stages && t != task ==> st'.stages[t] == st.stages[t])
    {
      if t in st.stages && t != task {
        OneRunning(st, t, task);
      }
    }
  }

  lemma MoveKeeps(st: State, st': State, task: nat)
    requires Inv(st) && task in st.stages && st.stages[task] != Over && Local(st, st', KeyOf(st, task))
    requires st'.log == st.log && st'.spans == st.spans && StageOk(st', task)
    requires KeyOf(st, task) in st'.recs ==> RecOk(st', KeyOf(st, task))
    requires forall id | id in st.spans && Live(st', id) && st.spans[id].key == KeyOf(st, task) ::
               Live(st, id) && st'.stages[task] != Over
    ensures Inv(st')
  {
    var key := KeyOf(st, task);
    forall id | id in st'.spans && st'.spans[id].key == key
      ensures SpanOk(st', id)
    {
      MoveKeepsSpan(st, st', task, id);
    }
    forall t | t in st'.stages && KeyOf(st, t) == key
      ensures StageOk(st', t)
    {
      OneRunning(st, t, task);
    }
    LocalKeeps(st, st', key);
  }

  lemma MarkIsLocal(st: State, key: string)
    requires key in st.recs
    ensures Local(st, Mark(st, key), key)
    ensures key in Mark(st, key).recs ==> Mark(st, key).recs[key].appId.None?
  {
  }

  lemma EnterStaysLocal(st: State, mid: State, task: nat, stage: Stage)
    requires task in st.stages && Local(st, mid, KeyOf(st, task))
    ensures Local(st, Enter(mid, task, stage), KeyOf(st, task))
  {
    hide SameTale;
  }

  /** What is closed is a recording of the key that has not ended. */
  lemma ClosingIsOk(st: State, task: nat, abort: bool, again: bool)
    requires LineOk(st) && RecsOk(st) && SpansOk(st) && At(st, task, Began) && (again <==> JobOf(st, task).Bring?)
    requires KeyOf(st, task) in st.recs && st.recs[KeyOf(st, task)].appId.Some?
    ensures var id := st.recs[KeyOf(st, task)].appId.value;
            StageOk(Enter(Mark(st, KeyOf(st, task)), task, Closing(id, abort, again)), task)
  {
    assert RecOk(st, KeyOf(st, task));
    assert SpanOk(st, st.recs[KeyOf(st, task)].appId.value);
  }

  lemma StartClosingMoves(st: State, task: nat, abort: bool, again: bool)
    requires LineOk(st) && RecsOk(st) && SpansOk(st) && At(st, task, Began) && (again <==> JobOf(st, task).Bring?)
    ensures var st', key := StartClosing(st, task, abort, again), KeyOf(st, task);
            && Local(st, st', key) && StageOk(st', task) && (key in st'.recs ==> st'.recs[key].appId.None?)
            && st'.log == st.log && st'.spans == st.spans
  {
    hide Local, LineOk, SpansOk, RecsOk, EndedIn, Live;
    var key := KeyOf(st, task);
    if key !in st.recs {
      EnterIsLocal(st, task, if again then Ready else Over);
    } else {
      MarkIsLocal(st, key);
      if st.recs[key].appId.Some? {
        ClosingIsOk(st, task, Aborts(st.recs[key], abort), again);
      }
      var rec := st.recs[key];
      EnterStaysLocal(st, Mark(st, key), task, if rec.appId.Some? then Closing(rec.appId.value, Aborts(rec, abort), again)
                                               else if again then Ready else Over);
    }
  }

  lemma StartClosingKeeps(st: State, task: nat, abort: bool, again: bool)
    requires Inv(st) && At(st, task, Began) && (again <==> JobOf(st, task).Bring?)
    ensures Inv(StartClosing(st, task, abort, again))
  {
    StartClosingMoves(st, task, abort, again);
    hide StartClosing, Inv, Local, StageOk;
    MoveKeeps(st, StartClosing(st, task, abort, again), task);
  }

  lemma EnterIsLocal(st: State, task: nat, stage: Stage)
    requires task in st.stages
    ensures Local(st, Enter(st, task, stage), KeyOf(st, task))
  {
  }

  lemma LookKeeps(st: State, task: nat)
    requires Inv(st) && Enabled(st, Look(task))
    ensures Inv(Step(st, Look(task)))
  {
    var key := KeyOf(st, task);
    match JobOf(st, task) {
      case Bring(doc, _, browser) =>
        if !browser && key in st.recs && st.recs[key].doc != doc {
          StartClosingKeeps(st, task, false, true);
        } else {
          EnterKeeps(st, task, Ready);
        }
      case Close(abort) =>
        StartClosingKeeps(st, task, abort, false);
      case CloseIf(serial) =>
        if key in st.recs && st.recs[key].serial == serial {
          StartClosingKeeps(st, task, false, false);
        } else {
          OtherJobLeaves(st, task);
        }
    }
  }

  /** A task moves on and nothing else changes; a chunk is not passed over while a recording is live. */
  lemma EnterKeeps(st: State, task: nat, stage: Stage)
    requires Inv(st) && task in st.stages && st.stages[task] != Over && StageOk(Enter(st, task, stage), task)
    requires stage == Over ==> KeyOf(st, task) in st.recs ==> st.recs[KeyOf(st, task)].appId.None?
    ensures Inv(Enter(st, task, stage))
  {
    var key := KeyOf(st, task);
    EnterIsLocal(st, task, stage);
    assert key in st.recs ==> RecOk(st, key);
    hide Inv, Local, StageOk;
    MoveKeeps(st, Enter(st, task, stage), task);
  }

  lemma LeaveKeepsSpan(st: State, task: nat, id: string)
    requires Inv(st) && task in st.stages && !JobOf(st, task).Bring? && id in st.spans
    ensures SpanOk(Enter(st, task, Over), id)
  {
    hide Inv, Arrivals, SentTo, EndedIn, LostIn;
    SpanFacts(st, id);
    SameArrivals(st, Enter(st, task, Over), st.spans[id].key, st.spans[id].first, st.spans[id].next);
  }

  lemma OtherJobLeaves(st: State, task: nat)
    requires Inv(st) && task in st.stages && st.stages[task] == Began && !JobOf(st, task).Bring?
    ensures Inv(Enter(st, task, Over))
  {
    var st', key := Enter(st, task, Over), KeyOf(st, task);
    forall id | id in st'.spans
      ensures SpanOk(st', id)
    {
      LeaveKeepsSpan(st, task, id);
    }
    forall t | t in st'.stages && KeyOf(st, t) == key
      ensures StageOk(st', t)
    {
      OneRunning(st, t, task);
    }
    assert key in st.recs ==> RecOk(st, key) && RecOk(st', key);
    EnterIsLocal(st, task, Over);
    hide Local, StageOk;
    LocalKeeps(st, st', key);
  }

  lemma OpenKeeps(st: State, task: nat, allowed: bool)
    requires Inv(st) && Enabled(st, Open(task, allowed))
    ensures Inv(Step(st, Open(task, allowed)))
  {
    var key := KeyOf(st, task);
    assert StageOk(st, task) && JobOf(st, task).Bring?;
    assert key in st.recs ==> RecOk(st, key);
    hide Inv;
    if key in st.recs {
      EnterKeeps(st, task, if st.recs[key].appId.Some? then Sending(st.recs[key].appId.value) else Over);
    } else if JobOf(st, task).browser || !allowed {
      EnterKeeps(st, task, Over);
    } else {
      NewRecKeeps(st, task);
    }
  }

  lemma NewRecKeeps(st: State, task: nat)
    requires Inv(st) && At(st, task, Ready) && JobOf(st, task).Bring? && KeyOf(st, task) !in st.recs
    ensures Inv(Enter(NewRec(st, task), task, Starting))
  {
    hide Inv;
    assert Local(st, NewRec(st, task), KeyOf(st, task));
    hide Local;
    EnterStaysLocal(st, NewRec(st, task), task, Starting);
    MoveKeeps(st, Enter(NewRec(st, task), task, Starting), task);
  }

  // ---------------------------------------------------------------- steps that send something

  lemma {:induction false} UnbegunIsUnsent(log: seq<Request>, id: string)
    requires Orderly(log) && Begin(id) !in log
    ensures SentTo(log, id) == [] && !EndedIn(log, id) && !LostIn(log, id)
  {
    if log != [] {
      var rest, last := log[..|log| - 1], log[|log| - 1];
      assert log == rest + [last];
      UnbegunIsUnsent(rest, id);
      LogOne(rest, last);
    }
  }

  lemma OrderlyOne(log: seq<Request>, r: Request)
    requires Orderly(log) && MayFollow(log, r)
    ensures Orderly(log + [r])
  {
    assert (log + [r])[..|log|] == log;
  }

  /** A span that stays as it is, when what a step sends is not for it or only ends it. */
  lemma SpanStays(st: State, st': State, task: nat, id: string)
    requires id in st.spans && SpanOk(st, id) && id in st'.spans && st'.spans[id] == st.spans[id]
    requires st'.line == st.line && st'.jobs == st.jobs && st'.thrown == st.thrown
    requires SentTo(st'.log, id) == SentTo(st.log, id) && Begin(id) in st'.log
    requires task in st.stages && st.stages[task] != Over
    requires task in st'.stages && st'.stages == st.stages[task := st'.stages[task]]
    requires Live(st', id) ==> Live(st, id) && !EndedIn(st'.log, id) && !LostIn(st'.log, id)
    requires Live(st', id) ==> KeyOf(st, task) == st.spans[id].key ==> JobOf(st, task).Bring? ==>
               st'.stages[task] != Over || task < st.spans[id].next
    ensures SpanOk(st', id)
  {
    hide Arrivals, SentTo, EndedIn, LostIn, Live;
    SameArrivals(st, st', st.spans[id].key, st.spans[id].first, st.spans[id].next);
    assert forall t: nat :: Brings(st', t, st.spans[id].key) <==> Brings(st, t, st.spans[id].key);
  }

  /** A request for a recording of `key` is the key's own affair. */
  lemma RequestIsLocal(st: State, r: Request, key: string)
    requires r.id in st.spans ==> st.spans[r.id].key == key
    ensures Local(st, st.(log := st.log + [r]), key)
  {
    LogOne(st.log, r);
    hide SentTo, EndedIn, LostIn;
  }

  lemma OwnStage(st: State, st': State, task: nat)
    requires LineOk(st) && task in st.stages && Local(st, st', KeyOf(st, task)) && StageOk(st', task)
    ensures forall t | t in st'.stages && KeyOf(st, t) == KeyOf(st, task) :: StageOk(st', t)
  {
    hide LineOk, StageOk;
    forall t | t in st'.stages && KeyOf(st, t) == KeyOf(st, task)
      ensures StageOk(st', t)
    {
      OneRunning(st, t, task);
    }
  }

  lemma ClosingFacts(st: State, task: nat)
    requires Inv(st) && Enabled(st, Tell(task))
    ensures var id := st.stages[task].id;
            && id in st.spans && st.spans[id].key == KeyOf(st, task) && !Live(st, id)
            && Begin(id) in st.log && !EndedIn(st.log, id)
            && (st.stages[task].again <==> JobOf(st, task).Bring?)
    ensures KeyOf(st, task) in st.recs ==> RecOk(st, KeyOf(st, task))
    ensures LineOk(st) && Orderly(st.log) && forall id :: Begin(id) in st.log ==> id in st.spans
  {
    assert StageOk(st, task) && SpanOk(st, st.stages[task].id);
  }

  /** Ending a recording that was taken off the list. */
  lemma TellKeeps(st: State, task: nat)
    requires Inv(st) && Enabled(st, Tell(task))
    ensures Inv(Step(st, Tell(task)))
  {
    hide Inv, LineOk, SpanOk, Local, Orderly, SentTo, EndedIn, LostIn;
    ClosingFacts(st, task);
    var Closing(id, abort, again) := st.stages[task];
    var r := if abort then Abort(id) else Finish(id);
    var st', key := StepTell(st, task), KeyOf(st, task);
    LogOne(st.log, r);
    OrderlyOne(st.log, r);
    RequestIsLocal(st, r, key);
    EnterStaysLocal(st, st.(log := st.log + [r]), task, if again then Ready else Over);
    OwnStage(st, st', task);
    forall other | other in st.spans
      ensures SpanOk(st', other)
    {
      TellKeepsSpan(st, task, other);
    }
    LocalKeeps(st, st', key);
  }

  lemma SpanFacts(st: State, id: string)
    requires Inv(st) && id in st.spans
    ensures SpanOk(st, id) && Begin(id) in st.log
    ensures Live(st, id) ==> !EndedIn(st.log, id) && !LostIn(st.log, id)
  {
    assert SpanOk(st, id);
  }

  lemma TellKeepsSpan(st: State, task: nat, other: string)
    requires Inv(st) && Enabled(st, Tell(task)) && other in st.spans
    ensures SpanOk(StepTell(st, task), other)
  {
    hide Inv, SpanOk, SentTo, EndedIn, LostIn, LineOk, Orderly;
    ClosingFacts(st, task);
    SpanFacts(st, other);
    var Closing(id, abort, again) := st.stages[task];
    LogOne(st.log, if abort then Abort(id) else Finish(id));
    SpanStays(st, StepTell(st, task), task, other);
  }

  /** The app names a recording: what came before belongs to no recording of that name. */
  lemma ReplyKeeps(st: State, task: nat, id: Option<string>)
    requires Inv(st) && Enabled(st, Reply(task, id))
    ensures Inv(Step(st, Reply(task, id)))
  {
    assert StageOk(st, task);
    if id.None? {
      hide Inv;
      EnterKeeps(st, task, Over);
    } else {
      NamedKeeps(st, task, id.value);
    }
  }

  lemma NewSpan(st: State, task: nat, id: string)
    requires Inv(st) && At(st, task, Starting) && id !in st.spans && KeyOf(st, task) in st.recs
    ensures var st' := StepReply(st, task, Some(id));
            id in st'.spans && SpanOk(st', id)
  {
    hide Inv, LineOk, Orderly, SentTo, EndedIn, LostIn;
    StartingFacts(st, task);
    LaterOnesWait(st, task);
    LogOne(st.log, Begin(id));
    UnbegunIsUnsent(st.log, id);
    var st', key := StepReply(st, task, Some(id)), KeyOf(st, task);
    forall t: nat | Brings(st', t, key)
      ensures Brings(st, t, key) && (t in st'.stages && t != task ==> t in st.stages)
    {
    }
  }

  lemma LaterOnesWait(st: State, task: nat)
    requires LineOk(st) && task in st.stages
    ensures task < |st.line.tasks| && !Serialize.HasSettled(st.line, task)
    ensures forall t: nat | task < t < |st.line.tasks| && KeyOf(st, t) == KeyOf(st, task) ::
              !Serialize.HasSettled(st.line, t) && t !in st.stages
    ensures forall t: nat | t < task && KeyOf(st, t) == KeyOf(st, task) :: Serialize.HasSettled(st.line, t)
  {
    assert Serialize.FirstInLine(st.line, task);
    forall t: nat | task < t < |st.line.tasks| && KeyOf(st, t) == KeyOf(st, task)
      ensures !Serialize.HasSettled(st.line, t) && t !in st.stages
    {
      assert Serialize.Fellows(st.line, task, t);
      assert !st.line.tasks[t].phase.Waiting? ==> Serialize.FirstInLine(st.line, t);
    }
    forall t: nat | t < task && KeyOf(st, t) == KeyOf(st, task)
      ensures Serialize.HasSettled(st.line, t)
    {
      assert Serialize.Fellows(st.line, t, task);
    }
  }

  lemma OldSpan(st: State, task: nat, id: string, other: string)
    requires Inv(st) && At(st, task, Starting) && id !in st.spans && KeyOf(st, task) in st.recs
    requires other in st.spans && st.spans[other].key == KeyOf(st, task)
    ensures SpanOk(StepReply(st, task, Some(id)), other)
  {
    hide Inv, SpanOk, SentTo, EndedIn, LostIn, LineOk, Orderly;
    SpanFacts(st, other);
    StartingFacts(st, task);
    LogOne(st.log, Begin(id));
    SpanStays(st, StepReply(st, task, Some(id)), task, other);
  }

  lemma NamingIsLocal(st: State, task: nat, id: string)
    requires task in st.stages && id !in st.spans && KeyOf(st, task) in st.recs
    ensures Local(st, StepReply(st, task, Some(id)), KeyOf(st, task))
  {
    LogOne(st.log, Begin(id));
    hide SentTo, EndedIn, LostIn;
  }

  lemma StartingFacts(st: State, task: nat)
    requires Inv(st) && At(st, task, Starting)
    ensures JobOf(st, task).Bring?
    ensures LineOk(st) && Orderly(st.log) && forall id :: Begin(id) in st.log ==> id in st.spans
  {
    assert StageOk(st, task);
  }

  lemma NamedKeeps(st: State, task: nat, id: string)
    requires Inv(st) && At(st, task, Starting) && id !in st.spans && KeyOf(st, task) in st.recs
    ensures Inv(StepReply(st, task, Some(id)))
  {
    hide Inv, LineOk, SpanOk, Local, Orderly, SentTo, EndedIn, LostIn;
    StartingFacts(st, task);
    var st', key := StepReply(st, task, Some(id)), KeyOf(st, task);
    LogOne(st.log, Begin(id));
    OrderlyOne(st.log, Begin(id));
    NamingIsLocal(st, task, id);
    OwnStage(st, st', task);
    forall other | other in st'.spans && st'.spans[other].key == key
      ensures SpanOk(st', other)
    {
      if other == id {
        NewSpan(st, task, id);
      } else {
        OldSpan(st, task, id, other);
      }
    }
    LocalKeeps(st, st', key);
  }

  // ---------------------------------------------------------------- handing over a chunk

  lemma SendingFacts(st: State, task: nat)
    requires Inv(st) && Enabled(st, Sent(task, true))
    ensures var id := st.stages[task].id;
            && Live(st, id) && st.spans[id].key == KeyOf(st, task) && JobOf(st, task).Bring?
            && Begin(id) in st.log && !EndedIn(st.log, id) && !LostIn(st.log, id)
    ensures LineOk(st) && Orderly(st.log) && forall id :: Begin(id) in st.log ==> id in st.spans
  {
    assert StageOk(st, task) && SpanOk(st, st.stages[task].id);
  }

  /** What is sent with a chunk: the chunk, and the recording's end when the app did not take it. */
  function SendRequests(st: State, task: nat, taken: bool): seq<Request>
    requires task in st.stages && st.stages[task].Sending? && KeyOf(st, task) in st.recs && JobOf(st, task).Bring?
  {
    var id := st.stages[task].id;
    [Send(id, task, JobOf(st, task).size, taken)]
    + if taken then [] else [if st.recs[KeyOf(st, task)].bytes > 0 then Finish(id) else Abort(id)]
  }

  lemma SendTells(st: State, task: nat, taken: bool)
    requires Enabled(st, Sent(task, taken)) && KeyOf(st, task) in st.recs && JobOf(st, task).Bring?
    requires Orderly(st.log)
    requires var id := st.stages[task].id; Begin(id) in st.log && !EndedIn(st.log, id) && !LostIn(st.log, id)
    ensures var id, log' := st.stages[task].id, st.log + SendRequests(st, task, taken);
            && Orderly(log') && SentTo(log', id) == SentTo(st.log, id) + [task]
            && (taken ==> !EndedIn(log', id) && !LostIn(log', id))
            && (forall other | other != id :: SentTo(log', other) == SentTo(st.log, other)
                  && (EndedIn(log', other) <==> EndedIn(st.log, other)) && (LostIn(log', other) <==> LostIn(st.log, other)))
            && (forall other :: Begin(other) in log' <==> Begin(other) in st.log)
  {
    hide Orderly, SentTo, EndedIn, LostIn;
    var id := st.stages[task].id;
    var send := Send(id, task, JobOf(st, task).size, taken);
    var sent := st.log + [send];
    LogOne(st.log, send);
    OrderlyOne(st.log, send);
    if taken {
      assert st.log + SendRequests(st, task, taken) == sent;
    } else {
      var end := if st.recs[KeyOf(st, task)].bytes > 0 then Finish(id) else Abort(id);
      LogOne(sent, end);
      OrderlyOne(sent, end);
      assert st.log + SendRequests(st, task, taken) == sent + [end];
    }
  }

  /** The chunk is the next that came for the recording: none was passed over but by a task that threw. */
  lemma NextArrival(st: State, task: nat, id: string)
    requires Inv(st) && id in st.spans && Live(st, id) && task in st.stages
    requires st.spans[id].key == KeyOf(st, task) && JobOf(st, task).Bring? && st.stages[task] != Over
    ensures var span := st.spans[id];
            && span.first <= span.next <= task < |st.line.tasks|
            && Arrivals(st, span.key, span.first, task + 1) == Arrivals(st, span.key, span.first, span.next) + [task]
            && (forall t: nat | t <= task && Brings(st, t, span.key) :: Serialize.HasSettled(st.line, t) || t == task)
  {
    var span := st.spans[id];
    assert SpanOk(st, id);
    LaterOnesWait(st, task);
    hide Serialize.Inv, SentTo, EndedIn, LostIn;
    assert span.next <= task by {
      assert Brings(st, task, span.key) && !Serialize.HasSettled(st.line, task);
    }
    NoArrivals(st, span.key, span.first, span.next, task);
  }

  lemma SentSpan(st: State, task: nat, taken: bool)
    requires Inv(st) && Enabled(st, Sent(task, taken))
    ensures var id, st' := st.stages[task].id, StepSent(st, task, taken);
            id in st'.spans && SpanOk(st', id)
  {
    hide Inv, LineOk, SentTo, EndedIn, LostIn, Orderly, Arrivals;
    var id, st' := st.stages[task].id, StepSent(st, task, taken);
    SendingFacts(st, task);
    SendTells(st, task, taken);
    NextArrival(st, task, id);
    SpanFacts(st, id);
    var span := st.spans[id];
    SameArrivals(st, st', span.key, span.first, task + 1);
    assert st'.log == st.log + SendRequests(st, task, taken);
    hide SendRequests, StageOk;
    forall t: nat | task + 1 <= t && Brings(st', t, span.key)
      ensures Brings(st, t, span.key) && st'.line == st.line && (t in st.stages ==> st'.stages[t] == st.stages[t])
    {
    }
  }

  lemma SentOther(st: State, task: nat, taken: bool, other: string)
    requires Inv(st) && Enabled(st, Sent(task, taken)) && other in st.spans && other != st.stages[task].id
    requires st.spans[other].key == KeyOf(st, task)
    ensures SpanOk(StepSent(st, task, taken), other)
  {
    hide Inv, SpanOk, SentTo, EndedIn, LostIn, LineOk, Orderly;
    SendingFacts(st, task);
    SpanFacts(st, other);
    SendTells(st, task, taken);
    assert StepSent(st, task, taken).log == st.log + SendRequests(st, task, taken);
    SpanStays(st, StepSent(st, task, taken), task, other);
  }

  lemma SentIsLocal(st: State, task: nat, taken: bool)
    requires Inv(st) && Enabled(st, Sent(task, taken))
    ensures Local(st, StepSent(st, task, taken), KeyOf(st, task))
  {
    hide Inv, SentTo, EndedIn, LostIn, LineOk, Orderly, SendRequests;
    SendingFacts(st, task);
    SendTells(st, task, taken);
    SendsRequests(st, task, taken);
  }

  lemma SendsRequests(st: State, task: nat, taken: bool)
    requires task in st.stages && st.stages[task].Sending? && KeyOf(st, task) in st.recs && JobOf(st, task).Bring?
    requires st.stages[task].id in st.spans
    ensures StepSent(st, task, taken).log == st.log + SendRequests(st, task, taken)
  {
  }

  lemma SentKeeps(st: State, task: nat, taken: bool)
    requires Inv(st) && Enabled(st, Sent(task, taken))
    ensures Inv(Step(st, Sent(task, taken)))
  {
    hide Inv, LineOk, SpanOk, Local, Orderly, SentTo, EndedIn, LostIn;
    SendingFacts(st, task);
    SendTells(st, task, taken);
    SentIsLocal(st, task, taken);
    var st', key := StepSent(st, task, taken), KeyOf(st, task);
    assert st'.log == st.log + SendRequests(st, task, taken);
    OwnStage(st, st', task);
    forall other | other in st'.spans && st'.spans[other].key == key
      ensures SpanOk(st', other)
    {
      if other == st.stages[task].id {
        SentSpan(st, task, taken);
      } else {
        SentOther(st, task, taken, other);
      }
    }
    LocalKeeps(st, st', key);
  }

  // ---------------------------------------------------------------- browser downloads

  lemma ProgressKeeps(st: State, key: string)
    requires Inv(st) && Enabled(st, Progress(key))
    ensures Inv(Step(st, Progress(key)))
  {
    var st' := Step(st, Progress(key));
    forall t | t in st'.stages
      ensures StageOk(st', t)
    {
      assert StageOk(st, t);
    }
    forall id | id in st'.spans
      ensures SpanOk(st', id)
    {
      ProgressSpan(st, key, id);
    }
    forall other | other in st'.recs
      ensures RecOk(st', other)
    {
      assert RecOk(st, other);
    }
  }

  lemma ProgressSpan(st: State, key: string, id: string)
    requires Inv(st) && Enabled(st, Progress(key)) && id in st.spans
    ensures SpanOk(Step(st, Progress(key)), id)
  {
    hide Inv, Arrivals, SentTo, EndedIn, LostIn;
    QueueFacts(st);
    hide Serialize.Inv, Orderly;
    SpanFacts(st, id);
    var st' := Step(st, Progress(key));
    assert Live(st', id) <==> Live(st, id);
    SameArrivals(st, st', st.spans[id].key, st.spans[id].first, st.spans[id].next);
  }

  lemma QueueFacts(st: State)
    requires Inv(st)
    ensures LineOk(st) && Orderly(st.log) && forall id :: Begin(id) in st.log ==> id in st.spans
  {
  }

  lemma OpeningIsLocal(st: State, key: string, id: string)
    requires LineOk(st) && Enabled(st, BrowserOpens(key, id))
    ensures Local(st, Step(st, BrowserOpens(key, id)), key)
    ensures forall t | t in st.stages :: KeyOf(st, t) != key
  {
    LogOne(st.log, Begin(id));
    hide SentTo, EndedIn, LostIn, Serialize.Inv;
    forall t | t in st.stages
      ensures KeyOf(st, t) != key
    {
      assert st.line.tasks[t].phase.Running?;
    }
  }

  lemma OpenedSpan(st: State, key: string, id: string)
    requires LineOk(st) && Orderly(st.log) && Begin(id) !in st.log && Enabled(st, BrowserOpens(key, id))
    ensures var st' := Step(st, BrowserOpens(key, id));
            id in st'.spans && SpanOk(st', id)
  {
    hide SentTo, EndedIn, LostIn, Orderly, Serialize.Inv;
    LogOne(st.log, Begin(id));
    UnbegunIsUnsent(st.log, id);
  }

  lemma BrowserKeeps(st: State, key: string, id: string)
    requires Inv(st) && Enabled(st, BrowserOpens(key, id))
    ensures Inv(Step(st, BrowserOpens(key, id)))
  {
    hide Inv, LineOk, SpanOk, Local, Orderly, SentTo, EndedIn, LostIn;
    QueueFacts(st);
    var st' := Step(st, BrowserOpens(key, id));
    LogOne(st.log, Begin(id));
    OrderlyOne(st.log, Begin(id));
    OpeningIsLocal(st, key, id);
    forall other | other in st'.spans && st'.spans[other].key == key
      ensures SpanOk(st', other)
    {
      if other == id {
        OpenedSpan(st, key, id);
      } else {
        BrowserSpan(st, key, id, other);
      }
    }
    LocalKeeps(st, st', key);
  }

  lemma BrowserSpan(st: State, key: string, id: string, other: string)
    requires Inv(st) && Enabled(st, BrowserOpens(key, id)) && other in st.spans && st.spans[other].key == key
    ensures SpanOk(Step(st, BrowserOpens(key, id)), other)
  {
    hide Inv, Orderly, Arrivals, SentTo, EndedIn, LostIn;
    QueueFacts(st);
    hide Serialize.Inv;
    var st' := Step(st, BrowserOpens(key, id));
    SpanFacts(st, other);
    LogOne(st.log, Begin(id));
    SameArrivals(st, st', key, st.spans[other].first, st.spans[other].next);
  }

  // ---------------------------------------------------------------- whole runs

  lemma StepKeeps(st: State, e: Event)
    requires Inv(st) && Enabled(st, e)
    ensures (forall t | t in st.stages :: t < |st.line.tasks|) && Inv(Step(st, e))
  {
    match e {
      case Arrive(key, job) => ArriveKeeps(st, key, job);
      case Go(task) => GoKeeps(st, task);
      case Look(task) => LookKeeps(st, task);
      case Tell(task) => TellKeeps(st, task);
      case Open(task, allowed) => OpenKeeps(st, task, allowed);
      case Reply(task, id) => ReplyKeeps(st, task, id);
      case Sent(task, taken) => SentKeeps(st, task, taken);
      case Throw(task) => ThrowKeeps(st, task);
      case End(task) => EndKeeps(st, task);
      case Forget(task) => ForgetKeeps(st, task);
      case BrowserOpens(key, id) => BrowserKeeps(st, key, id);
      case Progress(key) => ProgressKeeps(st, key);
    }
  }

  function Initial(): State {
    State(Serialize.State([], map[]), [], map[], map[], 0, [], map[], {})
  }

  /** The relay after some events, each one that cannot happen then left out. */
  ghost function After(events: seq<Event>): (st: State)
    ensures Inv(st)
  {
    if events == [] then
      Initial()
    else
      var st := After(events[..|events| - 1]);
      if Enabled(st, events[|events| - 1]) then
        StepKeeps(st, events[|events| - 1]);
        Step(st, events[|events| - 1])
      else
        st
  }

  lemma {:induction false} OrderlyAt(log: seq<Request>, i: nat)
    requires Orderly(log) && i < |log|
    ensures MayFollow(log[..i], log[i])
    decreases |log|
  {
    var n := |log| - 1;
    if i < n {
      OrderlyAt(log[..n], i);
      assert log[..n][..i] == log[..i];
    }
  }

  /**
   Each of the app's recordings is begun before anything is sent to it, ended at most once, and
   sent nothing after its end or after a chunk the app did not take.
   */
  lemma NothingFollowsTheEnd(events: seq<Event>, i: nat, j: nat)
    requires i < j < |After(events).log| && After(events).log[i].id == After(events).log[j].id
    ensures var log := After(events).log;
            && !log[j].Begin? && !log[i].Finish? && !log[i].Abort?
            && (log[i].Send? && !log[i].taken ==> !log[j].Send?)
  {
    var log := After(events).log;
    hide Inv;
    QueueFacts(After(events));
    OrderlyAt(log, j);
    assert log[i] in log[..j];
    BegunFirst(log[..j], log[i]) by {
      OrderlyPrefix(log, j);
    }
  }

  lemma {:induction false} OrderlyPrefix(log: seq<Request>, n: nat)
    requires Orderly(log) && n <= |log|
    ensures Orderly(log[..n])
    decreases |log|
  {
    if n < |log| {
      var m := |log| - 1;
      OrderlyPrefix(log[..m], n);
      assert log[..m][..n] == log[..n];
    } else {
      assert log[..n] == log;
    }
  }

  lemma {:induction false} BegunFirst(log: seq<Request>, r: Request)
    requires Orderly(log) && r in log
    ensures Begin(r.id) in log
  {
    var rest, last := log[..|log| - 1], log[|log| - 1];
    assert log == rest + [last];
    if r != last {
      BegunFirst(rest, r);
    }
  }

  /**
   The chunks sent for a recording are those that came under its key from its start to the last
   one sent, in order and once each, less those whose task failed before handing its chunk over.
   */
  lemma SentIsWhatCame(events: seq<Event>, id: string)
    requires id in After(events).spans
    ensures var st := After(events);
            SentTo(st.log, id) == Arrivals(st, st.spans[id].key, st.spans[id].first, st.spans[id].next)
  {
    SpanFacts(After(events), id);
  }

  // ---------------------------------------------------------------- what a lost chunk leaves

  /** The bytes the app has taken for one of its recordings. */
  function Taken(log: seq<Request>, id: string): nat {
    if log == [] then
      0
    else
      var last := log[|log| - 1];
      Taken(log[..|log| - 1], id) + if last.Send? && last.id == id && last.taken then last.size else 0
  }

  /** A recording's count is of the bytes the app has taken for it. */
  ghost predicate BytesOk(st: State) {
    && (forall id | Live(st, id) :: st.recs[st.spans[id].key].bytes == Taken(st.log, id))
    && (forall t | At(st, t, Starting) && KeyOf(st, t) in st.recs :: st.recs[KeyOf(st, t)].bytes == 0)
  }

  /** A chunk the app did not take ends its recording at once: kept if anything reached the app, else thrown away. */
  ghost predicate LossesEnd(log: seq<Request>) {
    forall i | 0 <= i < |log| && log[i].Send? && !log[i].taken ::
      i + 1 < |log| && log[i + 1] == if Taken(log[..i], log[i].id) > 0 then Finish(log[i].id) else Abort(log[i].id)
  }

  lemma TakenOne(log: seq<Request>, r: Request)
    ensures forall id :: Taken(log + [r], id) == Taken(log, id) + if r.Send? && r.id == id && r.taken then r.size else 0
  {
    assert (log + [r])[..|log|] == log;
  }

  lemma {:induction false} UnbegunTookNothing(log: seq<Request>, id: string)
    requires Orderly(log) && Begin(id) !in log
    ensures Taken(log, id) == 0
  {
    if log != [] {
      var rest, last := log[..|log| - 1], log[|log| - 1];
      assert log == rest + [last];
      UnbegunTookNothing(rest, id);
    }
  }

  lemma LossesOne(log: seq<Request>, r: Request)
    requires LossesEnd(log) && (r.Send? ==> r.taken)
    ensures LossesEnd(log + [r])
  {
    forall i | 0 <= i < |log|
      ensures (log + [r])[..i] == log[..i] && (log + [r])[i] == log[i]
    {
    }
  }

  lemma LossesTwo(log: seq<Request>, r: Request, end: Request)
    requires LossesEnd(log) && r.Send? && !r.taken
    requires end == if Taken(log, r.id) > 0 then Finish(r.id) else Abort(r.id)
    ensures LossesEnd(log + [r] + [end])
  {
    var all := log + [r] + [end];
    forall i | 0 <= i < |log|
      ensures all[..i] == log[..i] && all[i] == log[i]
    {
    }
    assert all[..|log|] == log;
  }

  /** When recordings only leave, or keep their count, and none starts, the counts stay right. */
  lemma CountsStay(st: State, st': State)
    requires BytesOk(st) && st'.log == st.log && st'.spans == st.spans
    requires forall key | key in st'.recs ::
               key in st.recs && st'.recs[key].bytes == st.recs[key].bytes
               && (st'.recs[key].appId == st.recs[key].appId || st'.recs[key].appId.None?)
    requires forall t | At(st', t, Starting) :: At(st, t, Starting) && KeyOf(st', t) == KeyOf(st, t)
    ensures BytesOk(st')
  {
    hide Taken;
  }

  lemma QueueCounts(st: State, e: Event)
    requires LineOk(st) && Enabled(st, e) && BytesOk(st)
    requires e.Arrive? || e.Go? || e.Throw? || e.End? || e.Forget? || e.Progress?
    ensures BytesOk(Step(st, e)) && Step(st, e).log == st.log
  {
    hide BytesOk, Serialize.Inv;
    CountsStay(st, Step(st, e));
  }

  /** Looking at the recordings may take one's name from it, and starts none. */
  ghost predicate OnlyUnnames(st: State, st': State) {
    && st'.log == st.log && st'.spans == st.spans
    && (forall key | key in st'.recs ::
          && key in st.recs && st'.recs[key].bytes == st.recs[key].bytes
          && (st'.recs[key].appId == st.recs[key].appId || st'.recs[key].appId.None?))
    && (forall t | At(st', t, Starting) :: At(st, t, Starting) && KeyOf(st', t) == KeyOf(st, t))
  }

  lemma EnterUnnames(st: State, task: nat, stage: Stage)
    requires !stage.Starting?
    ensures OnlyUnnames(st, Enter(st, task, stage))
  {
  }

  lemma ClosingUnnames(st: State, task: nat, abort: bool, again: bool)
    ensures OnlyUnnames(st, StartClosing(st, task, abort, again))
  {
  }

  lemma LookUnnames(st: State, task: nat)
    requires Enabled(st, Look(task))
    ensures OnlyUnnames(st, StepLook(st, task))
  {
    hide OnlyUnnames, StartClosing, Enter;
    match JobOf(st, task) {
      case Bring(_, _, _) =>
        ClosingUnnames(st, task, false, true);
        EnterUnnames(st, task, Ready);
      case Close(abort) => ClosingUnnames(st, task, abort, false);
      case CloseIf(_) =>
        ClosingUnnames(st, task, false, false);
        EnterUnnames(st, task, Over);
    }
  }

  lemma LookCounts(st: State, task: nat)
    requires Enabled(st, Look(task)) && BytesOk(st)
    ensures BytesOk(StepLook(st, task)) && StepLook(st, task).log == st.log
  {
    hide BytesOk, StepLook;
    LookUnnames(st, task);
    CountsStay(st, StepLook(st, task));
  }

  lemma TellCounts(st: State, task: nat)
    requires Enabled(st, Tell(task)) && BytesOk(st) && LossesEnd(st.log)
    ensures BytesOk(StepTell(st, task)) && LossesEnd(StepTell(st, task).log)
  {
    var Closing(id, abort, again) := st.stages[task];
    var r := if abort then Abort(id) else Finish(id);
    hide Taken, LossesEnd;
    TakenOne(st.log, r);
    LossesOne(st.log, r);
    var st' := StepTell(st, task);
    assert st'.log == st.log + [r];
    assert forall other :: Live(st', other) <==> Live(st, other);
    assert forall t | At(st', t, Starting) :: At(st, t, Starting) && KeyOf(st', t) == KeyOf(st, t);
  }

  lemma OnlyOneStarts(st: State, task: nat)
    requires Inv(st) && task in st.stages
    ensures forall t | t in st.stages && KeyOf(st, t) == KeyOf(st, task) :: t == task
  {
    forall t | t in st.stages && KeyOf(st, t) == KeyOf(st, task)
      ensures t == task
    {
      OneRunning(st, t, task);
    }
  }

  lemma OpenCounts(st: State, task: nat, allowed: bool)
    requires Inv(st) && Enabled(st, Open(task, allowed)) && BytesOk(st)
    ensures BytesOk(StepOpen(st, task, allowed)) && StepOpen(st, task, allowed).log == st.log
  {
    hide Inv, Taken;
    OnlyOneStarts(st, task);
  }

  lemma ReplyCounts(st: State, task: nat, id: Option<string>)
    requires Inv(st) && Enabled(st, Reply(task, id)) && BytesOk(st) && LossesEnd(st.log)
    ensures BytesOk(StepReply(st, task, id)) && LossesEnd(StepReply(st, task, id).log)
  {
    hide Inv, LineOk, Orderly, Taken, LossesEnd;
    QueueFacts(st);
    OnlyOneStarts(st, task);
    if id.Some? {
      TakenOne(st.log, Begin(id.value));
      LossesOne(st.log, Begin(id.value));
      UnbegunTookNothing(st.log, id.value);
    }
  }

  lemma BrowserCounts(st: State, key: string, id: string)
    requires Inv(st) && Enabled(st, BrowserOpens(key, id)) && BytesOk(st) && LossesEnd(st.log)
    requires forall t | t in st.stages :: t < |st.line.tasks|
    ensures BytesOk(Step(st, BrowserOpens(key, id))) && LossesEnd(Step(st, BrowserOpens(key, id)).log)
  {
    hide Inv, LineOk, Orderly, Taken, LossesEnd, Local;
    QueueFacts(st);
    OpeningIsLocal(st, key, id);
    TakenOne(st.log, Begin(id));
    LossesOne(st.log, Begin(id));
    UnbegunTookNothing(st.log, id);
  }

  lemma SentLog(st: State, task: nat, taken: bool)
    requires Inv(st) && BytesOk(st) && LossesEnd(st.log) && Enabled(st, Sent(task, taken))
    ensures var log' := StepSent(st, task, taken).log;
            && LossesEnd(log')
            && forall other :: Taken(log', other)
                 == Taken(st.log, other) + if other == st.stages[task].id && taken then JobOf(st, task).size else 0
  {
    hide Inv, LineOk, Taken, LossesEnd, Orderly, EndedIn, LostIn;
    SendingFacts(st, task);
    var id, key := st.stages[task].id, KeyOf(st, task);
    var send := Send(id, task, JobOf(st, task).size, taken);
    TakenOne(st.log, send);
    if taken {
      LossesOne(st.log, send);
      assert StepSent(st, task, taken).log == st.log + [send];
    } else {
      var end := if st.recs[key].bytes > 0 then Finish(id) else Abort(id);
      LossesTwo(st.log, send, end);
      TakenOne(st.log + [send], end);
      assert StepSent(st, task, taken).log == st.log + [send] + [end];
    }
  }

  lemma SentCounts(st: State, task: nat, taken: bool)
    requires Inv(st) && BytesOk(st) && LossesEnd(st.log) && Enabled(st, Sent(task, taken))
    ensures BytesOk(StepSent(st, task, taken)) && LossesEnd(StepSent(st, task, taken).log)
  {
    hide Inv, LineOk, Taken, LossesEnd, Orderly, EndedIn, LostIn;
    SendingFacts(st, task);
    SentLog(st, task, taken);
    OnlyOneStarts(st, task);
  }

  lemma StepCounts(st: State, e: Event)
    requires Inv(st) && Enabled(st, e) && BytesOk(st) && LossesEnd(st.log)
    requires forall t | t in st.stages :: t < |st.line.tasks|
    ensures BytesOk(Step(st, e)) && LossesEnd(Step(st, e).log)
  {
    QueueFacts(st);
    hide Inv, LineOk, BytesOk, LossesEnd, Orderly, StepLook, StepTell, StepOpen, StepReply, StepSent;
    match e {
      case Look(task) => LookCounts(st, task);
      case Tell(task) => TellCounts(st, task);
      case Open(task, allowed) => OpenCounts(st, task, allowed);
      case Reply(task, id) => ReplyCounts(st, task, id);
      case Sent(task, taken) => SentCounts(st, task, taken);
      case BrowserOpens(key, id) => BrowserCounts(st, key, id);
      case _ => QueueCounts(st, e);
    }
  }

  lemma {:induction false} CountsAfter(events: seq<Event>)
    ensures BytesOk(After(events)) && LossesEnd(After(events).log)
  {
    if events != [] {
      var n := |events| - 1;
      CountsAfter(events[..n]);
      var st := After(events[..n]);
      if Enabled(st, events[n]) {
        StepKeeps(st, events[n]);
        hide Inv, BytesOk, LossesEnd, Step;
        StepCounts(st, events[n]);
      }
    }
  }

  /**
   When the app does not take a chunk, the very next thing it is sent is the recording's end: finish
   if it had taken any bytes before, else abort.
   */
  lemma LostChunkEndsIt(events: seq<Event>, i: nat)
    requires i < |After(events).log| && After(events).log[i].Send? && !After(events).log[i].taken
    ensures var log := After(events).log;
            i + 1 < |log| && log[i + 1] == if Taken(log[..i], log[i].id) > 0 then Finish(log[i].id) else Abort(log[i].id)
  {
    CountsAfter(events);
    hide Inv;
  }

  function AllArrivals(st: State, key: string, first: nat, next: nat): seq<nat>
    decreases next - first
  {
    if next <= first then
      []
    else
      AllArrivals(st, key, first, next - 1)
      + if KeyOf(st, next - 1) == key && JobOf(st, next - 1).Bring? then [next - 1] else []
  }

  lemma {:induction false} ArrivalsAreAll(st: State, key: string, first: nat, next: nat)
    ensures |Arrivals(st, key, first, next)| <= |AllArrivals(st, key, first, next)|
    ensures Arrivals(st, key, first, next) == AllArrivals(st, key, first, next)
       <==> forall t: nat | first <= t < next && KeyOf(st, t) == key && JobOf(st, t).Bring? :: t !in st.thrown
    ensures |Arrivals(st, key, first, next)| == |AllArrivals(st, key, first, next)| ==>
              Arrivals(st, key, first, next) == AllArrivals(st, key, first, next)
    decreases next
  {
    if first < next {
      ArrivalsAreAll(st, key, first, next - 1);
      var t: nat := next - 1;
      var some, all := Arrivals(st, key, first, t), AllArrivals(st, key, first, t);
      assert KeyOf(st, t) == key && JobOf(st, t).Bring? && t in st.thrown ==> |some| < |all + [t]|;
      assert KeyOf(st, t) == key && JobOf(st, t).Bring? && t !in st.thrown ==>
          (some + [t] == all + [t] <==> some == all) by {
        if some + [t] == all + [t] {
          assert (some + [t])[..|some|] == some && (all + [t])[..|all|] == all;
        }
      }
    }
  }

  /** A recording has no hole exactly when no task of its key failed, within it, before handing over its chunk. */
  lemma NoHoles(events: seq<Event>, id: string)
    requires id in After(events).spans
    ensures var st := After(events);
            var span := st.spans[id];
            SentTo(st.log, id) == AllArrivals(st, span.key, span.first, span.next)
            <==> forall t: nat | span.first <= t < span.next && Brings(st, t, span.key) :: t !in st.thrown
  {
    var st := After(events);
    var span := st.spans[id];
    SpanFacts(st, id);
    ArrivalsAreAll(st, span.key, span.first, span.next);
    assert forall t: nat | span.first <= t < span.next :: Brings(st, t, span.key) <==> KeyOf(st, t) == span.key && JobOf(st, t).Bring?;
  }

  /** A recording under "key" whose first chunk's task has failed, when the app has named it "app". */
  function FirstFailed(): State {
    State(Serialize.State([Serialize.Task("key", None, Serialize.Settled(false))], map["key" := 0]),
          [Bring("page", 1, false)], map[], map["key" := Rec(0, Some("app"), 0, "page", false, false, false)], 1,
          [Begin("app")], map["app" := Span("key", 0, 0)], {0})
  }

  lemma FirstFails() returns (events: seq<Event>)
    ensures After(events) == FirstFailed()
  {
    hide Inv, After;
    BeginsInitial();
    var chunk := Bring("page", 1, false);
    var st := Initial();
    events := [];
    events, st := Happens(events, st, Arrive("key", chunk));
    events, st := Happens(events, st, Go(0));
    events, st := Happens(events, st, Look(0));
    events, st := Happens(events, st, Open(0, true));
    assert At(st, 0, Starting) && st.log == [] && st.spans == map[];
    events, st := Happens(events, st, Reply(0, Some("app")));
    events, st := Happens(events, st, Throw(0));
    assert st.line.tasks == FirstFailed().line.tasks && st.line.queues == map["key" := 0];
    assert st.recs == FirstFailed().recs && st.spans == FirstFailed().spans && st.stages == map[];
  }

  /**
   Such a hole can open: the first chunk's task starts the recording and then fails, as saving the
   list of recordings may, and the second chunk is sent without it.
   */
  lemma AHoleCanOpen() returns (events: seq<Event>)
    ensures var st := After(events);
            && "app" in st.spans && st.spans["app"] == Span("key", 0, 2)
            && SentTo(st.log, "app") == [1] && AllArrivals(st, "key", 0, 2) == [0, 1]
  {
    events := FirstFails();
    hide Inv, After, SentTo, AllArrivals;
    var st := FirstFailed();
    events, st := Happens(events, st, Arrive("key", Bring("page", 1, false)));
    events, st := Happens(events, st, Go(1));
    events, st := Happens(events, st, Look(1));
    events, st := Happens(events, st, Open(1, true));
    assert At(st, 1, Sending("app")) && st.log == [Begin("app")];
    events, st := Happens(events, st, Sent(1, true));
    OneSent(st);
  }

  lemma OneSent(st: State)
    requires st.log == [Begin("app")] + [Send("app", 1, 1, true)]
    requires KeyOf(st, 0) == KeyOf(st, 1) == "key" && JobOf(st, 0).Bring? && JobOf(st, 1).Bring?
    ensures SentTo(st.log, "app") == [1] && AllArrivals(st, "key", 0, 2) == [0, 1]
  {
    LogOne([], Begin("app"));
    LogOne([Begin("app")], Send("app", 1, 1, true));
    assert [] + [Begin("app")] == [Begin("app")];
    assert AllArrivals(st, "key", 0, 1) == [0];
  }

  lemma BeginsInitial()
    ensures After([]) == Initial()
  {
  }

  lemma Happens(events: seq<Event>, st: State, e: Event) returns (more: seq<Event>, next: State)
    requires st == After(events) && Enabled(st, e)
    ensures more == events + [e] && next == After(more)
    ensures (forall t | t in st.stages :: t < |st.line.tasks|) && next == Step(st, e)
  {
    more := events + [e];
    assert more[..|events|] == events;
    StepKeeps(st, e);
    next := Step(st, e);
  }

  // ---------------------------------------------------------------- the list of recordings

  /** The relay's list, changed stage by stage as `st` says; `st` also holds the queue and what was sent. */
  class Relay {
    var recs: map<string, Rec>
    var serials: nat
    ghost var st: State

    ghost predicate Valid()
      reads this
    {
      st.recs == recs && st.serials == serials
    }

    constructor ()
      ensures Valid() && st == Initial()
    {
      recs, serials, st := map[], 0, Initial();
    }

    /** The first stage of `closeRecording`: the recording leaves the list, and the app is to be told how it ends. */
    method CloseRecording(ghost task: nat, key: string, abort: bool, ghost again: bool) returns (end: Option<Request>)
      requires Valid() && key == KeyOf(st, task)
      modifies this
      ensures Valid() && st == StartClosing(old(st), task, abort, again)
      ensures end.Some? <==> key in old(recs) && old(recs)[key].appId.Some?
      ensures end.Some? ==> At(st, task, Closing(end.value.id, end.value.Abort?, again)) && (end.value.Abort? || end.value.Finish?)
    {
      end := None;
      if key in recs {
        var rec := recs[key];
        var aborts := abort;
        recs := recs - {key};
        if rec.error && !rec.failed {
          aborts := true;
          recs := recs[key := rec.(serial := serials, appId := None, failed := true)];
          serials := serials + 1;
        }
        if rec.appId.Some? {
          end := Some(if aborts then Abort(rec.appId.value) else Finish(rec.appId.value));
        }
        assert recs == Mark(st, key).recs;
      }
      st := StartClosing(st, task, abort, again);
    }

    /** The first stage of `onRecChunk`: an earlier document's recording under the same key is complete. */
    method TakeChunk(ghost task: nat, key: string, doc: string, browser: bool) returns (end: Option<Request>)
      requires Valid() && key == KeyOf(st, task)
      requires JobOf(st, task).Bring? && JobOf(st, task).doc == doc && JobOf(st, task).browser == browser
      modifies this
      ensures Valid() && st == StepLook(old(st), task)
      ensures At(st, task, if end.Some? then Closing(end.value.id, end.value.Abort?, true) else Ready)
    {
      if !browser && key in recs && recs[key].doc != doc {
        end := CloseRecording(task, key, false, true);
      } else {
        end := None;
        st := Enter(st, task, Ready);
      }
    }

    /** What becomes of the chunk: it goes to the recording's app id, starts a recording, or is dropped. */
    method FindRecording(ghost task: nat, key: string, doc: string, browser: bool, allowed: bool)
      returns (appId: Option<string>, starts: bool)
      requires Valid() && key == KeyOf(st, task)
      requires JobOf(st, task).Bring? && JobOf(st, task).doc == doc && JobOf(st, task).browser == browser
      modifies this
      ensures Valid() && st == StepOpen(old(st), task, allowed)
      ensures At(st, task, if appId.Some? then Sending(appId.value) else if starts then Starting else Over)
    {
      appId, starts := None, false;
      if key in recs {
        appId := recs[key].appId;
      } else if !browser && allowed {
        recs := recs[key := Rec(serials, None, 0, doc, false, false, false)];
        serials := serials + 1;
        starts := true;
      }
      st := StepOpen(st, task, allowed);
    }

    method NameRecording(ghost task: nat, key: string, id: Option<string>)
      requires Valid() && key == KeyOf(st, task) && key in recs && recs[key].appId.None?
      modifies this
      ensures Valid() && st == StepReply(old(st), task, id)
    {
      if id.Some? {
        recs := recs[key := recs[key].(appId := id)];
      }
      st := StepReply(st, task, id);
    }

    /** The chunk was handed over; one the app did not take ends the recording. */
    method HandedOver(ghost task: nat, key: string, id: string, size: nat, taken: bool) returns (end: Option<Request>)
      requires Valid() && key == KeyOf(st, task) && key in recs && id in st.spans
      requires At(st, task, Sending(id)) && JobOf(st, task).Bring? && JobOf(st, task).size == size
      modifies this
      ensures Valid() && st == StepSent(old(st), task, taken)
      ensures st.log == old(st).log + [Send(id, task, size, taken)] + (if end.Some? then [end.value] else [])
    {
      var rec := recs[key];
      end := None;
      if taken {
        rec := rec.(bytes := rec.bytes + size);
      } else {
        end := Some(if rec.bytes > 0 then Finish(id) else Abort(id));
        rec := rec.(appId := None);
      }
      recs := recs[key := rec];
      st := StepSent(st, task, taken);
    }
  }
}

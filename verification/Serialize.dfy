/**
 Running tasks one after the other under a key (`serialize` in extension/background.js): a map
 holds the last task of each key, a new task waits for that one to settle, and a key is forgotten
 once its last task has settled.
 */
module Serialize {
  import opened Basics

  datatype Phase = Waiting | Running | Settled(ok: bool)

  /** A task waits for `after`, the last one of its key when it came, if there was one. */
  datatype Task = Task(key: string, after: Option<nat>, phase: Phase)

  /** Tasks are numbered in the order they were submitted; `queues` holds each key's last one. */
  datatype State = State(tasks: seq<Task>, queues: map<string, nat>)

  datatype Event = Submit(key: string) | Start(task: nat) | Settle(task: nat, ok: bool) | Forget(task: nat)

  predicate HasSettled(st: State, task: nat) {
    task < |st.tasks| && st.tasks[task].phase.Settled?
  }

  /** A task starts when the one it waits for has settled, however that ended. */
  predicate Enabled(st: State, e: Event) {
    match e
    case Submit(_) => true
    case Start(task) =>
      task < |st.tasks| && st.tasks[task].phase.Waiting?
      && (st.tasks[task].after.Some? ==> HasSettled(st, st.tasks[task].after.value))
    case Settle(task, _) => task < |st.tasks| && st.tasks[task].phase.Running?
    case Forget(task) => HasSettled(st, task)
  }

  function Last(queues: map<string, nat>, key: string): Option<nat> {
    if key in queues then Some(queues[key]) else None
  }

  function Turn(st: State, task: nat, phase: Phase): State
    requires task < |st.tasks|
  {
    st.(tasks := st.tasks[task := st.tasks[task].(phase := phase)])
  }

  function Step(st: State, e: Event): State
    requires Enabled(st, e)
  {
    match e
    case Submit(key) =>
      State(st.tasks + [Task(key, Last(st.queues, key), Waiting)], st.queues[key := |st.tasks|])
    case Start(task) => Turn(st, task, Running)
    case Settle(task, ok) => Turn(st, task, Settled(ok))
    case Forget(task) =>
      var key := st.tasks[task].key;
      if Last(st.queues, key) == Some(task) then st.(queues := st.queues - {key}) else st
  }

  // ---------------------------------------------------------------- what always holds

  predicate Fellows(st: State, i: nat, j: nat) {
    i < |st.tasks| && j < |st.tasks| && st.tasks[i].key == st.tasks[j].key
  }

  /** All tasks of the key before `task` have settled. */
  ghost predicate FirstInLine(st: State, task: nat) {
    forall i: nat | i < task && Fellows(st, i, task) :: HasSettled(st, i)
  }

  /** A task waits for the one of its key just before it, unless all of those had settled. */
  ghost predicate WaitsRight(st: State, task: nat)
    requires task < |st.tasks|
  {
    match st.tasks[task].after
    case None => FirstInLine(st, task)
    case Some(before) =>
      && before < task && Fellows(st, before, task)
      && forall i: nat | before < i < task :: !Fellows(st, i, task)
  }

  ghost predicate QueueOk(st: State, key: string) {
    match Last(st.queues, key)
    case None => forall i: nat | i < |st.tasks| && st.tasks[i].key == key :: HasSettled(st, i)
    case Some(last) =>
      && last < |st.tasks| && st.tasks[last].key == key
      && forall i: nat | last < i < |st.tasks| :: st.tasks[i].key != key
  }

  ghost predicate Inv(st: State) {
    && (forall task: nat | task < |st.tasks| :: WaitsRight(st, task))
    && (forall task: nat | task < |st.tasks| && !st.tasks[task].phase.Waiting? :: FirstInLine(st, task))
    && (forall key :: QueueOk(st, key))
  }

  lemma SubmitKeeps(st: State, key: string)
    requires Inv(st)
    ensures Inv(Step(st, Submit(key)))
  {
    var st' := Step(st, Submit(key));
    assert QueueOk(st, key);
    forall task: nat | task < |st'.tasks|
      ensures WaitsRight(st', task)
    {
      if task < |st.tasks| {
        assert WaitsRight(st, task);
        assert forall i: nat | i < task :: Fellows(st', i, task) <==> Fellows(st, i, task);
      }
    }
    forall task: nat | task < |st'.tasks| && !st'.tasks[task].phase.Waiting?
      ensures FirstInLine(st', task)
    {
      assert FirstInLine(st, task);
      assert forall i: nat | i < task :: Fellows(st', i, task) <==> Fellows(st, i, task);
    }
    forall other
      ensures QueueOk(st', other)
    {
      assert QueueOk(st, other);
    }
  }

  /** The key's first unsettled task is the one that waits for nothing any more. */
  lemma StartsFirst(st: State, task: nat)
    requires Inv(st) && Enabled(st, Start(task))
    ensures FirstInLine(st, task)
  {
    assert WaitsRight(st, task);
    if st.tasks[task].after.Some? {
      var before := st.tasks[task].after.value;
      assert FirstInLine(st, before);
      forall i: nat | i < task && Fellows(st, i, task)
        ensures HasSettled(st, i)
      {
        assert i < before ==> Fellows(st, i, before);
      }
    }
  }

  lemma TurnKeeps(st: State, task: nat, phase: Phase)
    requires Inv(st) && task < |st.tasks| && FirstInLine(st, task)
    requires !st.tasks[task].phase.Settled? && !phase.Waiting?
    ensures Inv(Turn(st, task, phase))
  {
    var st' := Turn(st, task, phase);
    assert forall i: nat, j: nat :: Fellows(st', i, j) <==> Fellows(st, i, j);
    forall other: nat | other < |st'.tasks|
      ensures WaitsRight(st', other)
    {
      assert WaitsRight(st, other);
    }
    forall other: nat | other < |st'.tasks| && !st'.tasks[other].phase.Waiting?
      ensures FirstInLine(st', other)
    {
      assert FirstInLine(st, other);
    }
    forall key
      ensures QueueOk(st', key)
    {
      assert QueueOk(st, key);
    }
  }

  lemma ForgetKeeps(st: State, task: nat)
    requires Inv(st) && HasSettled(st, task)
    ensures Inv(Step(st, Forget(task)))
  {
    var st' := Step(st, Forget(task));
    assert forall i: nat, j: nat :: Fellows(st', i, j) <==> Fellows(st, i, j);
    assert forall i: nat :: HasSettled(st', i) <==> HasSettled(st, i);
    forall other: nat | other < |st'.tasks|
      ensures WaitsRight(st', other)
    {
      assert WaitsRight(st, other);
    }
    forall other: nat | other < |st'.tasks| && !st'.tasks[other].phase.Waiting?
      ensures FirstInLine(st', other)
    {
      assert FirstInLine(st, other);
    }
    forall key
      ensures QueueOk(st', key)
    {
      assert QueueOk(st, key) && FirstInLine(st, task);
    }
  }

  lemma StepKeeps(st: State, e: Event)
    requires Inv(st) && Enabled(st, e)
    ensures Inv(Step(st, e))
  {
    match e {
      case Submit(key) => SubmitKeeps(st, key);
      case Start(task) =>
        StartsFirst(st, task);
        TurnKeeps(st, task, Running);
      case Settle(task, ok) =>
        assert FirstInLine(st, task);
        TurnKeeps(st, task, Settled(ok));
      case Forget(task) => ForgetKeeps(st, task);
    }
  }

  // ---------------------------------------------------------------- whole runs

  ghost function After(events: seq<Event>): (st: State)
    ensures Inv(st)
  {
    if events == [] then
      State([], map[])
    else
      var st := After(events[..|events| - 1]);
      if Enabled(st, events[|events| - 1]) then
        StepKeeps(st, events[|events| - 1]);
        Step(st, events[|events| - 1])
      else
        st
  }

  /**
   Tasks of one key run one at a time in the order they came, also after failures: when one runs
   or has settled, every earlier one has settled.
   */
  lemma OneAtATimeInOrder(events: seq<Event>, i: nat, j: nat)
    requires i < j && Fellows(After(events), i, j) && !After(events).tasks[j].phase.Waiting?
    ensures HasSettled(After(events), i)
  {
    assert FirstInLine(After(events), j);
  }

  /** No task is left waiting for good: the first unsettled task of its key runs, or may start. */
  lemma {:induction false} SomeTaskGoesOn(events: seq<Event>, task: nat) returns (next: nat)
    requires task < |After(events).tasks| && !HasSettled(After(events), task)
    ensures next <= task && Fellows(After(events), next, task)
    ensures After(events).tasks[next].phase.Running? || Enabled(After(events), Start(next))
    decreases task
  {
    var st := After(events);
    next := task;
    assert WaitsRight(st, task);
    if st.tasks[task].phase.Waiting? && !Enabled(st, Start(task)) {
      next := SomeTaskGoesOn(events, st.tasks[task].after.value);
    }
  }

  /** A forgotten key's next task starts at once, as all before it have settled. */
  lemma ForgottenIsIdle(events: seq<Event>, key: string)
    requires key !in After(events).queues
    ensures var st := After(events + [Submit(key)]);
            |st.tasks| == |After(events).tasks| + 1 && Enabled(st, Start(|st.tasks| - 1))
            && FirstInLine(st, |st.tasks| - 1)
  {
    assert (events + [Submit(key)])[..|events|] == events;
    var st := After(events + [Submit(key)]);
    StartsFirst(st, |st.tasks| - 1);
  }

  // ---------------------------------------------------------------- the map of chains

  class Queues {
    var queues: map<string, nat>
    var tasks: seq<Task>

    ghost function View(): State
      reads this
    {
      State(tasks, queues)
    }

    constructor ()
      ensures View() == State([], map[])
    {
      queues, tasks := map[], [];
    }

    /** Chains a task onto its key's last one; the chain's new end is the map's entry. */
    method Submit(key: string) returns (task: nat)
      modifies this
      ensures View() == Step(old(View()), Event.Submit(key)) && task == |old(tasks)|
    {
      var after := None;
      if key in queues {
        after := Some(queues[key]);
      }
      task := |tasks|;
      tasks := tasks + [Task(key, after, Waiting)];
      queues := queues[key := task];
    }

    method Settle(task: nat, ok: bool)
      requires task < |tasks| && tasks[task].phase.Running?
      modifies this`tasks
      ensures View() == Step(old(View()), Event.Settle(task, ok))
    {
      tasks := tasks[task := tasks[task].(phase := Settled(ok))];
    }

    /** Once settled, a task that is still its key's last one takes the key with it. */
    method Forget(task: nat)
      requires HasSettled(View(), task)
      modifies this`queues
      ensures View() == Step(old(View()), Event.Forget(task))
    {
      var key := tasks[task].key;
      if key in queues && queues[key] == task {
        queues := queues - {key};
      }
    }
  }
}

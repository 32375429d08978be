/**
 What becomes of a browser download whose error was noted (extension/background.js): nothing of it is
 to be kept. The app is told otherwise exactly when it did not take one of the download's chunks after
 it had taken some bytes.
 */
module FailedDownloads {
  import opened Basics
  import opened Recording

  /** The recording `id` has an error noted and was not closed yet; it may have lost a chunk before. */
  ghost predicate Failing(st: State, id: string) {
    && id in st.spans && st.spans[id].key in st.recs
    && var rec := st.recs[st.spans[id].key];
       rec.error && !rec.failed && (rec.appId == Some(id) || (rec.appId.None? && LostIn(st.log, id)))
  }

  /** Whoever closes `id` has it aborted, and if it was finished that was for a lost chunk. */
  ghost predicate Doomed(st: State, id: string) {
    && id in st.spans
    && (Finish(id) in st.log ==> LostIn(st.log, id))
    && (Live(st, id) ==> st.recs[st.spans[id].key].error && !st.recs[st.spans[id].key].failed)
    && forall t | t in st.stages && st.stages[t].Closing? && st.stages[t].id == id :: st.stages[t].abort
  }

  lemma LiveIsDoomed(st: State, id: string)
    requires Inv(st) && Live(st, id) && Failing(st, id)
    ensures Doomed(st, id)
  {
    assert SpanOk(st, id);
    forall t | t in st.stages && st.stages[t].Closing?
      ensures st.stages[t].id != id
    {
      assert StageOk(st, t);
    }
  }

  // ---------------------------------------------------------------- every step

  lemma EnterStaysDoomed(st: State, task: nat, stage: Stage, id: string)
    requires Doomed(st, id) && (stage.Closing? && stage.id == id ==> stage.abort)
    ensures Doomed(Enter(st, task, stage), id)
  {
  }

  lemma MarkStaysDoomed(st: State, key: string, id: string)
    requires Doomed(st, id) && key in st.recs
    ensures Doomed(Mark(st, key), id)
  {
  }

  /** Closing takes the name from the list first; a failed recording is closed by an abort. */
  lemma StartClosingStaysDoomed(st: State, task: nat, abort: bool, again: bool, id: string)
    requires Doomed(st, id) && RecsOk(st)
    ensures Doomed(StartClosing(st, task, abort, again), id)
  {
    var key := KeyOf(st, task);
    if key in st.recs {
      assert RecOk(st, key);
      MarkStaysDoomed(st, key, id);
    }
  }

  lemma LookStaysDoomed(st: State, task: nat, id: string)
    requires Doomed(st, id) && RecsOk(st)
    ensures Doomed(StepLook(st, task), id)
  {
    hide Doomed, StartClosing, RecsOk, Enter;
    StartClosingStaysDoomed(st, task, false, true, id);
    StartClosingStaysDoomed(st, task, false, false, id);
    StartClosingStaysDoomed(st, task, true, false, id);
    EnterStaysDoomed(st, task, Ready, id);
    EnterStaysDoomed(st, task, Over, id);
  }

  /** One more request, that finishes `id` only if a chunk of it is lost. */
  lemma LogStaysDoomed(st: State, r: Request, id: string)
    requires Doomed(st, id) && (r == Finish(id) ==> LostIn(st.log, id))
    ensures Doomed(st.(log := st.log + [r]), id)
  {
    hide LostIn;
    LogOne(st.log, r);
  }

  lemma TellStaysDoomed(st: State, task: nat, id: string)
    requires Doomed(st, id) && task in st.stages && st.stages[task].Closing?
    ensures Doomed(StepTell(st, task), id)
  {
    hide LostIn;
    var r := if st.stages[task].abort then Abort(st.stages[task].id) else Finish(st.stages[task].id);
    LogStaysDoomed(st, r, id);
  }

  lemma OpenStaysDoomed(st: State, task: nat, allowed: bool, id: string)
    requires Doomed(st, id)
    ensures Doomed(StepOpen(st, task, allowed), id)
  {
    hide LostIn;
  }

  lemma ReplyStaysDoomed(st: State, task: nat, name: Option<string>, id: string)
    requires Doomed(st, id) && Enabled(st, Reply(task, name)) && (name.Some? ==> Begin(name.value) !in st.log)
    ensures Doomed(StepReply(st, task, name), id)
  {
    hide LostIn;
    if name.Some? {
      LogStaysDoomed(st, Begin(name.value), id);
    }
  }

  lemma SentStaysDoomed(st: State, task: nat, taken: bool, id: string)
    requires Doomed(st, id) && Enabled(st, Sent(task, taken))
    ensures Doomed(StepSent(st, task, taken), id)
  {
    hide LostIn;
    var sent, key := st.stages[task].id, KeyOf(st, task);
    if key in st.recs && sent in st.spans && JobOf(st, task).Bring? {
      var send := Send(sent, task, JobOf(st, task).size, taken);
      LogStaysDoomed(st, send, id);
      LogOne(st.log, send);
      if taken {
        assert StepSent(st, task, taken).log == st.log + [send];
      } else {
        var end := if st.recs[key].bytes > 0 then Finish(sent) else Abort(sent);
        LogStaysDoomed(st.(log := st.log + [send]), end, id);
        assert StepSent(st, task, taken).log == st.log + [send] + [end];
      }
    }
  }

  lemma BrowserStaysDoomed(st: State, key: string, name: string, id: string)
    requires Doomed(st, id) && Enabled(st, BrowserOpens(key, name)) && forall t | t in st.stages :: t < |st.line.tasks|
    ensures Doomed(Step(st, BrowserOpens(key, name)), id)
  {
    hide LostIn;
    LogStaysDoomed(st, Begin(name), id);
  }

  lemma OtherStaysDoomed(st: State, e: Event, id: string)
    requires Doomed(st, id) && Enabled(st, e) && forall t | t in st.stages :: t < |st.line.tasks|
    requires e.Arrive? || e.Go? || e.Throw? || e.End? || e.Forget? || e.Progress?
    ensures Doomed(Step(st, e), id)
  {
    hide LostIn;
  }

  lemma StepStaysDoomed(st: State, e: Event, id: string)
    requires Inv(st) && Doomed(st, id) && Enabled(st, e) && forall t | t in st.stages :: t < |st.line.tasks|
    ensures Doomed(Step(st, e), id)
  {
    hide Doomed, LineOk, StagesOk, Orderly, StepLook, StepTell, StepOpen, StepReply, StepSent;
    match e {
      case Look(task) => LookStaysDoomed(st, task, id);
      case Tell(task) => TellStaysDoomed(st, task, id);
      case Open(task, allowed) => OpenStaysDoomed(st, task, allowed, id);
      case Reply(task, name) => ReplyStaysDoomed(st, task, name, id);
      case Sent(task, taken) => SentStaysDoomed(st, task, taken, id);
      case BrowserOpens(key, name) => BrowserStaysDoomed(st, key, name, id);
      case _ => OtherStaysDoomed(st, e, id);
    }
  }

  // ---------------------------------------------------------------- whole runs

  /** A step of a run that could happen, or nothing. */
  lemma AfterMore(events: seq<Event>, n: nat)
    requires n < |events|
    ensures var st := After(events[..n]);
            && (forall t | t in st.stages :: t < |st.line.tasks|)
            && After(events[..n + 1]) == if Enabled(st, events[n]) then Step(st, events[n]) else st
  {
    assert events[..n + 1][..n] == events[..n];
    hide Step, Enabled, StagesOk, SpansOk, RecsOk, Orderly;
  }

  lemma {:induction false} StaysDoomed(events: seq<Event>, n: nat, m: nat, id: string)
    requires n <= m <= |events| && Doomed(After(events[..n]), id)
    ensures Doomed(After(events[..m]), id)
    decreases m - n
  {
    hide Doomed, Inv, Step, Enabled, After;
    if n < m {
      StaysDoomed(events, n, m - 1, id);
      AfterMore(events, m - 1);
      if Enabled(After(events[..m - 1]), events[m - 1]) {
        StepStaysDoomed(After(events[..m - 1]), events[m - 1], id);
      }
    }
  }

  lemma LossStays(st: State, e: Event, id: string)
    requires Enabled(st, e) && LostIn(st.log, id) && forall t | t in st.stages :: t < |st.line.tasks|
    ensures LostIn(Step(st, e).log, id)
  {
    var task: nat, size: nat :| Send(id, task, size, false) in st.log;
    hide LostIn;
    LogGrows(st, e);
    Lost(Step(st, e).log, id, task, size);
  }

  lemma Lost(log: seq<Request>, id: string, task: nat, size: nat)
    requires Send(id, task, size, false) in log
    ensures LostIn(log, id)
  {
  }

  lemma LogGrows(st: State, e: Event)
    requires Enabled(st, e) && forall t | t in st.stages :: t < |st.line.tasks|
    ensures st.log <= Step(st, e).log
  {
  }

  lemma {:induction false} LossLasts(events: seq<Event>, n: nat, m: nat, id: string)
    requires n <= m <= |events| && LostIn(After(events[..n]).log, id)
    ensures LostIn(After(events[..m]).log, id)
    decreases m - n
  {
    hide LostIn, Inv, Step, Enabled, After;
    if n < m {
      LossLasts(events, n, m - 1, id);
      AfterMore(events, m - 1);
      if Enabled(After(events[..m - 1]), events[m - 1]) {
        LossStays(After(events[..m - 1]), events[m - 1], id);
      }
    }
  }

  /** The app did not take this chunk of `id`, and had taken bytes of it before. */
  predicate LostAfterBytes(log: seq<Request>, i: nat, id: string) {
    i < |log| && log[i].Send? && log[i].id == id && !log[i].taken && Taken(log[..i], id) > 0
  }

  lemma FinishedByLoss(events: seq<Event>, id: string)
    requires LostIn(After(events).log, id)
    ensures Finish(id) in After(events).log <==> exists i :: LostAfterBytes(After(events).log, i, id)
  {
    hide Inv, After, Taken;
    var log := After(events).log;
    var task: nat, size: nat :| Send(id, task, size, false) in log;
    var i: nat :| i < |log| && log[i] == Send(id, task, size, false);
    LostChunkEndsIt(events, i);
    if Finish(id) in log {
      var j: nat :| j < |log| && log[j] == Finish(id);
      if Taken(log[..i], id) == 0 {
        assert log[i + 1] == Abort(id);
        NothingFollowsTheEnd(events, Min(i + 1, j), Max(i + 1, j));
        assert false;
      }
      assert LostAfterBytes(log, i, id);
    }
    if k: nat :| LostAfterBytes(log, k, id) {
      LostChunkEndsIt(events, k);
      assert log[k + 1] == Finish(id);
    }
  }

  /**
   Whatever happens after its error was noted: the app is told to keep a failed download exactly when
   it did not take one of its chunks after it had taken some bytes.
   */
  lemma FailedIsKeptOnlyByLoss(events: seq<Event>, n: nat, id: string)
    requires n <= |events| && Failing(After(events[..n]), id)
    ensures Finish(id) in After(events).log <==> exists i :: LostAfterBytes(After(events).log, i, id)
  {
    hide Inv, After, Taken;
    assert events[..|events|] == events;
    if LostIn(After(events[..n]).log, id) {
      LossLasts(events, n, |events|, id);
      FinishedByLoss(events, id);
    } else {
      LiveIsDoomed(After(events[..n]), id);
      StaysDoomed(events, n, |events|, id);
      if Finish(id) in After(events).log {
        FinishedByLoss(events, id);
      }
      if i: nat :| LostAfterBytes(After(events).log, i, id) {
        LostChunkEndsIt(events, i);
      }
    }
  }

  /** A browser download "dl" of which the app has taken one byte, as its recording "app". */
  function OneTaken(): State {
    State(Serialize.State([Serialize.Task("dl", None, Serialize.Settled(true))], map["dl" := 0]), [Bring("", 1, true)], map[],
          map["dl" := Rec(0, Some("app"), 1, "", true, false, false)], 1,
          [Begin("app"), Send("app", 0, 1, true)], map["app" := Span("dl", 0, 1)], {})
  }

  /** Just before: its first chunk is being handed over. */
  function OneSending(): State {
    State(Serialize.State([Serialize.Task("dl", None, Serialize.Running)], map["dl" := 0]), [Bring("", 1, true)],
          map[0 := Sending("app")], map["dl" := Rec(0, Some("app"), 0, "", true, false, false)], 1,
          [Begin("app")], map["app" := Span("dl", 0, 0)], {})
  }

  lemma OneIsSending() returns (events: seq<Event>)
    ensures After(events) == OneSending()
  {
    hide Inv, After;
    BeginsInitial();
    var st := Initial();
    events := [];
    events, st := Happens(events, st, BrowserOpens("dl", "app"));
    events, st := Happens(events, st, Arrive("dl", Bring("", 1, true)));
    events, st := Happens(events, st, Go(0));
    events, st := Happens(events, st, Look(0));
    events, st := Happens(events, st, Open(0, true));
    assert st.log == [Begin("app")] && st.recs == OneSending().recs && st.spans == OneSending().spans;
    assert st.line.tasks == OneSending().line.tasks && st.line.queues == map["dl" := 0] && st.stages == map[0 := Sending("app")];
  }

  lemma OneIsTaken() returns (events: seq<Event>)
    ensures After(events) == OneTaken()
  {
    hide Inv, After;
    events := OneIsSending();
    var st := OneSending();
    events, st := Happens(events, st, Sent(0, true));
    events, st := Happens(events, st, End(0));
    assert st.log == OneTaken().log && st.recs == OneTaken().recs && st.spans == OneTaken().spans;
    assert st.line.tasks == OneTaken().line.tasks && st.line.queues == map["dl" := 0] && st.stages == map[];
  }

  /** A download of which the app took a byte and then lost a chunk: it is kept, and then its error is noted. */
  lemma AFailedDownloadCanBeKept() returns (events: seq<Event>)
    ensures var st := After(events);
            && "dl" in st.recs && st.recs["dl"].browser && st.recs["dl"].error
            && Failing(st, "app") && Finish("app") in st.log
  {
    events := OneIsTaken();
    hide Inv, After, LostIn;
    var st := OneTaken();
    events, st := Happens(events, st, Arrive("dl", Bring("", 1, true)));
    events, st := Happens(events, st, Go(1));
    events, st := Happens(events, st, Look(1));
    events, st := Happens(events, st, Open(1, true));
    assert At(st, 1, Sending("app"));
    events, st := Happens(events, st, Sent(1, false));
    assert st.log == [Begin("app"), Send("app", 0, 1, true)] + [Send("app", 1, 1, false)] + [Finish("app")];
    Lost(st.log, "app", 1, 1);
    events, st := Happens(events, st, Progress("dl"));
  }
}

/**
 Whose chunks a recording holds (extension/background.js): after a page was reloaded its chunks come
 under the same key, and the recording of the document before is closed first. So no recording mixes two
 documents, and what closes one ends it as it was asked to.
 */
module Documents {
  import opened Basics
  import opened Recording

  /** Task `t` brings a chunk that a page recorded, not a browser download's. */
  predicate FromPage(st: State, t: nat) {
    t < |st.jobs| && st.jobs[t].Bring? && !st.jobs[t].browser
  }

  /** The chunks of pages that `id` was sent are all of the document `doc`. */
  ghost predicate AllOf(st: State, id: string, doc: string) {
    forall t | t in SentTo(st.log, id) && FromPage(st, t) :: st.jobs[t].doc == doc
  }

  ghost predicate OneDocument(st: State, id: string) {
    exists doc :: AllOf(st, id, doc)
  }

  /** From when it has looked at the recordings, a page's chunk finds only one of its own document under its key. */
  ghost predicate StageDoc(st: State, t: nat)
    requires t in st.stages
  {
    KeyOf(st, t) in st.recs ==>
      var rec := st.recs[KeyOf(st, t)];
      match st.stages[t]
      case Ready => FromPage(st, t) && rec.appId.Some? ==> rec.doc == st.jobs[t].doc
      case Closing(_, _, _) => rec.appId.None?
      case Starting => FromPage(st, t) ==> rec.doc == st.jobs[t].doc
      case Sending(_) => FromPage(st, t) ==> rec.doc == st.jobs[t].doc
      case _ => true
  }

  ghost predicate SpanDoc(st: State, id: string)
    requires id in st.spans
  {
    OneDocument(st, id) && (Live(st, id) ==> AllOf(st, id, st.recs[st.spans[id].key].doc))
  }

  ghost predicate DocsOk(st: State) {
    && (forall id | id in st.spans :: SpanDoc(st, id))
    && (forall t | t in st.stages :: t < |st.jobs| && StageDoc(st, t))
    && (forall id, t | id in st.spans && t in SentTo(st.log, id) :: t < |st.jobs|)
  }

  /** Tasks come, but bring what they brought; a recording keeps its document, and none gets a name. */
  ghost predicate NoneNamed(st: State, st': State) {
    && st.jobs <= st'.jobs && st'.spans == st.spans
    && (forall id :: SentTo(st'.log, id) == SentTo(st.log, id))
    && (forall key | key in st'.recs && st'.recs[key].appId.Some? ::
          key in st.recs && st'.recs[key].appId == st.recs[key].appId && st'.recs[key].doc == st.recs[key].doc)
  }

  lemma SpanDocStays(st: State, st': State, id: string)
    requires DocsOk(st) && NoneNamed(st, st') && id in st.spans
    ensures SpanDoc(st', id)
  {
    hide SentTo;
    assert SpanDoc(st, id);
    forall doc | AllOf(st, id, doc)
      ensures AllOf(st', id, doc)
    {
    }
  }

  lemma DocsStay(st: State, st': State)
    requires DocsOk(st) && NoneNamed(st, st') && forall t | t in st'.stages :: t < |st'.jobs| && StageDoc(st', t)
    ensures DocsOk(st')
  {
    hide SpanDoc, SentTo;
    forall id | id in st'.spans
      ensures SpanDoc(st', id)
    {
      SpanDocStays(st, st', id);
    }
  }

  // ---------------------------------------------------------------- steps of the queue

  lemma QueueDocs(st: State, e: Event)
    requires LineOk(st) && Enabled(st, e) && DocsOk(st)
    requires e.Arrive? || e.Go? || e.Throw? || e.End? || e.Forget? || e.Progress?
    ensures DocsOk(Step(st, e))
  {
    hide Serialize.Inv, SentTo, SpanDoc, StageDoc, Step;
    QueueNames(st, e);
    var st' := Step(st, e);
    forall t | t in st'.stages
      ensures t < |st'.jobs| && StageDoc(st', t)
    {
      QueueStage(st, e, t);
    }
    DocsStay(st, st');
  }

  lemma QueueNames(st: State, e: Event)
    requires LineOk(st) && Enabled(st, e)
    requires e.Arrive? || e.Go? || e.Throw? || e.End? || e.Forget? || e.Progress?
    ensures NoneNamed(st, Step(st, e))
  {
    hide Serialize.Inv, SentTo;
  }

  lemma QueueStage(st: State, e: Event, t: nat)
    requires LineOk(st) && Enabled(st, e) && DocsOk(st)
    requires e.Arrive? || e.Go? || e.Throw? || e.End? || e.Forget? || e.Progress?
    requires t in Step(st, e).stages
    ensures t < |Step(st, e).jobs| && StageDoc(Step(st, e), t)
  {
    hide Serialize.Inv, SentTo, SpanDoc;
    assert t in st.stages ==> StageDoc(st, t) && t < |st.jobs|;
  }

  // ---------------------------------------------------------------- steps of a task

  /** A task's step that names no recording, and after which it finds what it should. */
  lemma MovesOn(st: State, st': State, task: nat)
    requires Inv(st) && task in st.stages && DocsOk(st)
    requires Local(st, st', KeyOf(st, task)) && NoneNamed(st, st') && StageDoc(st', task)
    ensures DocsOk(st')
  {
    OnlyOneStarts(st, task);
    hide Inv, SentTo, SpanDoc;
    forall t | t in st'.stages
      ensures t < |st'.jobs| && StageDoc(st', t)
    {
      assert StageDoc(st, t);
      if t != task {
        assert KeyOf(st, t) != KeyOf(st, task);
      }
    }
    DocsStay(st, st');
  }

  lemma EnterDocs(st: State, task: nat, stage: Stage)
    requires Inv(st) && task in st.stages && DocsOk(st) && StageDoc(Enter(st, task, stage), task)
    ensures DocsOk(Enter(st, task, stage))
  {
    EnterIsLocal(st, task, stage);
    hide Inv, Local, DocsOk, StageDoc, SentTo;
    MovesOn(st, Enter(st, task, stage), task);
  }

  lemma ClosingDocs(st: State, task: nat, abort: bool, again: bool)
    requires Inv(st) && At(st, task, Began) && DocsOk(st) && (again <==> JobOf(st, task).Bring?)
    ensures DocsOk(StartClosing(st, task, abort, again))
  {
    StartClosingMoves(st, task, abort, again);
    ClosingNames(st, task, abort, again);
    hide Inv, Local, DocsOk, StartClosing, SentTo;
    MovesOn(st, StartClosing(st, task, abort, again), task);
  }

  lemma ClosingNames(st: State, task: nat, abort: bool, again: bool)
    requires At(st, task, Began)
    ensures NoneNamed(st, StartClosing(st, task, abort, again))
  {
  }

  lemma LookDocs(st: State, task: nat)
    requires Inv(st) && Enabled(st, Look(task)) && DocsOk(st)
    ensures DocsOk(StepLook(st, task))
  {
    hide Inv, DocsOk, StartClosing, SentTo;
    match JobOf(st, task) {
      case Bring(doc, _, browser) =>
        if !browser && KeyOf(st, task) in st.recs && st.recs[KeyOf(st, task)].doc != doc {
          ClosingDocs(st, task, false, true);
        } else {
          EnterDocs(st, task, Ready);
        }
      case Close(abort) => ClosingDocs(st, task, abort, false);
      case CloseIf(serial) =>
        if KeyOf(st, task) in st.recs && st.recs[KeyOf(st, task)].serial == serial {
          ClosingDocs(st, task, false, false);
        } else {
          EnterDocs(st, task, Over);
        }
    }
  }

  lemma TellMoves(st: State, task: nat)
    requires Inv(st) && Enabled(st, Tell(task))
    ensures Local(st, StepTell(st, task), KeyOf(st, task)) && NoneNamed(st, StepTell(st, task))
  {
    hide Inv, Local, LineOk, Orderly, SentTo, EndedIn, LostIn;
    ClosingFacts(st, task);
    var Closing(id, abort, again) := st.stages[task];
    var r := if abort then Abort(id) else Finish(id);
    RequestIsLocal(st, r, KeyOf(st, task));
    EnterStaysLocal(st, st.(log := st.log + [r]), task, if again then Ready else Over);
    LogOne(st.log, r);
  }

  lemma TellDocs(st: State, task: nat)
    requires Inv(st) && Enabled(st, Tell(task)) && DocsOk(st)
    ensures DocsOk(StepTell(st, task))
  {
    hide Inv, Local, NoneNamed, SpanDoc, SentTo, AllOf;
    TellMoves(st, task);
    assert StageDoc(st, task);
    MovesOn(st, StepTell(st, task), task);
  }

  lemma OpenDocs(st: State, task: nat, allowed: bool)
    requires Inv(st) && Enabled(st, Open(task, allowed)) && DocsOk(st)
    ensures DocsOk(StepOpen(st, task, allowed))
  {
    hide Inv, Local, NoneNamed, SpanDoc, SentTo, AllOf;
    var key := KeyOf(st, task);
    assert StageDoc(st, task);
    if JobOf(st, task).Bring? && key !in st.recs && !JobOf(st, task).browser && allowed {
      NewRecMoves(st, task);
      MovesOn(st, Enter(NewRec(st, task), task, Starting), task);
    } else {
      EnterDocs(st, task, StepOpen(st, task, allowed).stages[task]);
    }
  }

  lemma NewRecMoves(st: State, task: nat)
    requires Inv(st) && At(st, task, Ready) && JobOf(st, task).Bring? && KeyOf(st, task) !in st.recs
    ensures var st' := Enter(NewRec(st, task), task, Starting);
            Local(st, st', KeyOf(st, task)) && NoneNamed(st, st')
  {
    hide Inv, SentTo, EndedIn, LostIn;
  }

  // ---------------------------------------------------------------- steps that name or send

  /** What a named recording was sent before is nothing. */
  lemma NewSpanDoc(st: State, st': State, id: string)
    requires Inv(st) && id !in st.spans && id in st'.spans && SentTo(st'.log, id) == SentTo(st.log, id)
    ensures SpanDoc(st', id) && SentTo(st'.log, id) == []
  {
    QueueFacts(st);
    UnbegunIsUnsent(st.log, id);
    assert forall doc :: AllOf(st', id, doc);
    assert AllOf(st', id, "");
  }

  /** Recordings of other names are as they were. */
  lemma OtherSpanDoc(st: State, st': State, other: string)
    requires DocsOk(st) && other in st.spans && other in st'.spans && st'.spans[other].key == st.spans[other].key
    requires st'.jobs == st.jobs && SentTo(st'.log, other) == SentTo(st.log, other)
    requires Live(st', other) ==> Live(st, other) && st'.recs[st.spans[other].key].doc == st.recs[st.spans[other].key].doc
    ensures SpanDoc(st', other)
  {
    hide SentTo;
    assert SpanDoc(st, other);
    forall doc | AllOf(st, other, doc)
      ensures AllOf(st', other, doc)
    {
    }
  }

  lemma ReplyDocs(st: State, task: nat, id: Option<string>)
    requires Inv(st) && Enabled(st, Reply(task, id)) && DocsOk(st)
    ensures DocsOk(StepReply(st, task, id))
  {
    assert StageDoc(st, task);
    var key := KeyOf(st, task);
    if id.None? || key !in st.recs {
      hide Inv, DocsOk, SentTo;
      EnterDocs(st, task, Over);
    } else {
      NamedDocs(st, task, id.value);
    }
  }

  lemma NamedDocs(st: State, task: nat, id: string)
    requires Inv(st) && At(st, task, Starting) && id !in st.spans && KeyOf(st, task) in st.recs && DocsOk(st)
    ensures DocsOk(StepReply(st, task, Some(id)))
  {
    hide Inv, SentTo, SpanDoc, StageDoc;
    StartingFacts(st, task);
    var st' := StepReply(st, task, Some(id));
    LogOne(st.log, Begin(id));
    NewSpanDoc(st, st', id);
    forall other | other in st'.spans
      ensures SpanDoc(st', other)
    {
      if other != id {
        OtherSpanDoc(st, st', other);
      }
    }
    forall t | t in st'.stages
      ensures t < |st'.jobs| && StageDoc(st', t)
    {
      NamedLeavesStage(st, task, id, t);
    }
  }

  lemma NamedLeavesStage(st: State, task: nat, id: string, t: nat)
    requires Inv(st) && At(st, task, Starting) && KeyOf(st, task) in st.recs && DocsOk(st)
    requires t in StepReply(st, task, Some(id)).stages
    ensures t < |st.jobs| && StageDoc(StepReply(st, task, Some(id)), t)
  {
    hide Inv, SentTo, SpanDoc;
    OnlyOneStarts(st, task);
    assert t in st.stages && StageDoc(st, t);
    assert t != task ==> KeyOf(st, t) != KeyOf(st, task);
  }

  lemma BrowserDocs(st: State, key: string, id: string)
    requires Inv(st) && Enabled(st, BrowserOpens(key, id)) && DocsOk(st) && forall t | t in st.stages :: t < |st.line.tasks|
    ensures DocsOk(Step(st, BrowserOpens(key, id)))
  {
    hide Inv, SentTo, SpanDoc, LineOk, Local, EndedIn, LostIn, Orderly;
    var st' := Step(st, BrowserOpens(key, id));
    QueueFacts(st);
    LogOne(st.log, Begin(id));
    NewSpanDoc(st, st', id);
    OpeningIsLocal(st, key, id);
    forall other | other in st'.spans
      ensures SpanDoc(st', other)
    {
      if other != id {
        OtherSpanDoc(st, st', other);
      }
    }
    forall t | t in st'.stages
      ensures t < |st'.jobs| && StageDoc(st', t)
    {
      assert StageDoc(st, t);
    }
  }

  lemma SentDocs(st: State, task: nat, taken: bool)
    requires Inv(st) && Enabled(st, Sent(task, taken)) && DocsOk(st)
    ensures DocsOk(StepSent(st, task, taken))
  {
    hide Inv, SentTo, SpanDoc, StageDoc, StepSent;
    SentSpanDoc(st, task, taken);
    SentKeepsTasks(st, task, taken);
    var st' := StepSent(st, task, taken);
    forall other | other in st'.spans
      ensures SpanDoc(st', other)
    {
      if other != st.stages[task].id {
        SentLeavesSpan(st, task, taken, other);
        OtherSpanDoc(st, st', other);
      }
    }
    forall t | t in st'.stages
      ensures t < |st'.jobs| && StageDoc(st', t)
    {
      SentLeavesStage(st, task, taken, t);
    }
  }

  lemma SentKeepsTasks(st: State, task: nat, taken: bool)
    requires Inv(st) && Enabled(st, Sent(task, taken)) && DocsOk(st)
    ensures var st' := StepSent(st, task, taken);
            && st'.jobs == st.jobs && st'.spans.Keys == st.spans.Keys
            && forall id, t | id in st'.spans && t in SentTo(st'.log, id) :: t < |st'.jobs|
  {
    hide Inv, SentTo, LineOk, Orderly, EndedIn, LostIn, SpanDoc;
    SendingFacts(st, task);
    SendTells(st, task, taken);
    SendsRequests(st, task, taken);
    assert task < |st.jobs|;
  }

  lemma SentLeavesSpan(st: State, task: nat, taken: bool, other: string)
    requires Inv(st) && Enabled(st, Sent(task, taken)) && other in st.spans && other != st.stages[task].id
    ensures var st' := StepSent(st, task, taken);
            && other in st'.spans && st'.spans[other].key == st.spans[other].key && st'.jobs == st.jobs
            && SentTo(st'.log, other) == SentTo(st.log, other)
            && (Live(st', other) ==> Live(st, other) && st'.recs[st.spans[other].key].doc == st.recs[st.spans[other].key].doc)
  {
    hide Inv, SentTo, LineOk, Orderly, EndedIn, LostIn;
    SendingFacts(st, task);
    SendTells(st, task, taken);
    SendsRequests(st, task, taken);
  }

  lemma SentLeavesStage(st: State, task: nat, taken: bool, t: nat)
    requires Inv(st) && Enabled(st, Sent(task, taken)) && DocsOk(st) && t in StepSent(st, task, taken).stages
    ensures t < |StepSent(st, task, taken).jobs| && StageDoc(StepSent(st, task, taken), t)
  {
    hide Inv, SentTo, SpanDoc;
    OnlyOneStarts(st, task);
    assert t in st.stages && StageDoc(st, t);
    assert t != task ==> KeyOf(st, t) != KeyOf(st, task);
  }

  /** The chunk handed over is of the recording's document, as all before are. */
  lemma SentSpanDoc(st: State, task: nat, taken: bool)
    requires Inv(st) && Enabled(st, Sent(task, taken)) && DocsOk(st)
    ensures var st', id := StepSent(st, task, taken), st.stages[task].id;
            id in st'.spans && SpanDoc(st', id)
  {
    hide Inv, SentTo, LineOk, Orderly, EndedIn, LostIn;
    SendingFacts(st, task);
    SendTells(st, task, taken);
    SendsRequests(st, task, taken);
    var st', id := StepSent(st, task, taken), st.stages[task].id;
    assert SpanDoc(st, id) && StageDoc(st, task);
    assert AllOf(st', id, st.recs[KeyOf(st, task)].doc);
  }

  // ---------------------------------------------------------------- whole runs

  lemma StepDocs(st: State, e: Event)
    requires Inv(st) && Enabled(st, e) && DocsOk(st)
    requires forall t | t in st.stages :: t < |st.line.tasks|
    ensures DocsOk(Step(st, e))
  {
    QueueFacts(st);
    hide Inv, LineOk, DocsOk, Orderly, StepLook, StepTell, StepOpen, StepReply, StepSent;
    match e {
      case Look(task) => LookDocs(st, task);
      case Tell(task) => TellDocs(st, task);
      case Open(task, allowed) => OpenDocs(st, task, allowed);
      case Reply(task, id) => ReplyDocs(st, task, id);
      case Sent(task, taken) => SentDocs(st, task, taken);
      case BrowserOpens(key, id) => BrowserDocs(st, key, id);
      case _ => QueueDocs(st, e);
    }
  }

  lemma {:induction false} DocsAfter(events: seq<Event>)
    ensures DocsOk(After(events))
  {
    if events != [] {
      var n := |events| - 1;
      DocsAfter(events[..n]);
      var st := After(events[..n]);
      if Enabled(st, events[n]) {
        StepKeeps(st, events[n]);
        hide Inv, DocsOk, Step;
        StepDocs(st, events[n]);
      }
    }
  }

  /** In every run, two chunks that pages recorded and one recording was sent are of the same document. */
  lemma NoTwoDocuments(events: seq<Event>, id: string, t: nat, u: nat)
    requires var st := After(events);
             id in st.spans && t in SentTo(st.log, id) && u in SentTo(st.log, id)
             && t < |st.jobs| && u < |st.jobs| && FromPage(st, t) && FromPage(st, u)
    ensures After(events).jobs[t].doc == After(events).jobs[u].doc
  {
    DocsAfter(events);
    assert SpanDoc(After(events), id);
    hide After, SentTo;
  }

  // ---------------------------------------------------------------- what a task does to a recording

  /** Task `task` is to close the recording under its key: it was asked to, or brings another document's chunk. */
  predicate IsToClose(st: State, task: nat, abort: bool)
    requires task < |st.jobs| && KeyOf(st, task) in st.recs
  {
    var rec := st.recs[KeyOf(st, task)];
    || st.jobs[task] == Close(abort)
    || (!abort && st.jobs[task] == CloseIf(rec.serial))
    || (!abort && FromPage(st, task) && st.jobs[task].doc != rec.doc)
  }

  /**
   A recording of the app that is to be closed is ended by the next request of that task: aborted if
   that was asked or an error was noted that it does not show yet, else finished. It is off the list
   by then, and if another document's chunk closed it, that chunk may go on.
   */
  lemma ClosesAsAsked(st: State, task: nat, abort: bool)
    requires Inv(st) && At(st, task, Began) && task < |st.jobs| && KeyOf(st, task) in st.recs
    requires st.recs[KeyOf(st, task)].appId.Some? && IsToClose(st, task, abort)
    ensures var (key, rec) := (KeyOf(st, task), st.recs[KeyOf(st, task)]);
            var looked := StepLook(st, task);
            && looked.log == st.log && Enabled(looked, Tell(task))
            && (key in looked.recs <==> rec.error && !rec.failed)
            && (key in looked.recs ==> looked.recs[key].appId.None? && looked.recs[key].failed)
            && var ended := StepTell(looked, task);
            && ended.recs == looked.recs && At(ended, task, if st.jobs[task].Bring? then Ready else Over)
            && ended.log == st.log + [if abort || (rec.error && !rec.failed) then Abort(rec.appId.value) else Finish(rec.appId.value)]
  {
    hide Inv;
  }

  /** Nothing else closes one: no request for another recording, and no chunk of its document or of a browser download. */
  lemma LeavesItAlone(st: State, task: nat)
    requires At(st, task, Began) && task < |st.jobs|
    requires KeyOf(st, task) in st.recs ==> forall abort :: !IsToClose(st, task, abort)
    ensures var looked := StepLook(st, task);
            && looked.recs == st.recs && looked.log == st.log && looked.spans == st.spans
            && At(looked, task, if st.jobs[task].Bring? then Ready else Over)
  {
    if KeyOf(st, task) in st.recs {
      assert !IsToClose(st, task, false) && !IsToClose(st, task, true);
    }
  }

  /**
   A chunk goes to the recording the app named under its key. Only a page's chunk that finds none there
   starts one, if it may; any other is dropped.
   */
  lemma ChunkFindsItsRecording(st: State, task: nat, allowed: bool)
    requires Inv(st) && At(st, task, Ready)
    ensures var (next, key) := (StepOpen(st, task, allowed), KeyOf(st, task));
            && next.log == st.log && task in next.stages
            && if key in st.recs then
                 && next.recs == st.recs
                 && next.stages[task] == (if st.recs[key].appId.Some? then Sending(st.recs[key].appId.value) else Over)
               else if FromPage(st, task) && allowed then
                 && next.stages[task] == Starting && key in next.recs
                 && next.recs[key].doc == st.jobs[task].doc && next.recs[key].appId.None? && next.recs[key].bytes == 0
                 && forall other | other != key :: other in next.recs <==> other in st.recs
               else
                 next.stages[task] == Over && next.recs == st.recs
  {
    assert StageOk(st, task);
    hide Inv;
  }
}

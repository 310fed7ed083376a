/** Trace facts about the extraction loop: what every checkpoint counts, how a
    run ends, and what resuming from a pause checkpoint replays. */
module LoopProperties {
  import opened Wrappers
  import opened Values
  import opened RecordMapper
  import opened ExtractionLoop

  /** The records of a trace, in emission order. */
  function Records(t: seq<Event>): (r: seq<map<string, Value>>)
    ensures |r| <= |t|
  {
    if |t| == 0 then [] else (if t[0].Emitted? then [t[0].record] else []) + Records(t[1..])
  }

  lemma {:induction false} RecordsAppend(a: seq<Event>, b: seq<Event>)
    ensures Records(a + b) == Records(a) + Records(b)
  {
    if |a| == 0 {
      assert a + b == b;
    } else {
      var h := if a[0].Emitted? then [a[0].record] else [];
      assert Records(a + b) == h + Records(a[1..] + b) by {
        assert (a + b)[0] == a[0];
        assert (a + b)[1..] == a[1..] + b;
      }
      RecordsAppend(a[1..], b);
      assert Records(a) == h + Records(a[1..]);
    }
  }

  lemma {:induction false} RecordsOfEmits(rs: seq<map<string, Value>>)
    ensures Records(Emits(rs)) == rs
  {
    if |rs| > 0 {
      assert Emits(rs)[1..] == Emits(rs[1..]);
      RecordsOfEmits(rs[1..]);
    }
  }

  lemma {:induction false} RecordsOfSaves(t: seq<Event>)
    requires forall i :: 0 <= i < |t| ==> t[i].Saved?
    ensures Records(t) == []
  {
    if |t| > 0 {
      RecordsOfSaves(t[1..]);
    }
  }

  lemma EmitsThenSavesRecords(rs: seq<map<string, Value>>, cps: seq<Event>)
    requires forall j :: 0 <= j < |cps| ==> cps[j].Saved?
    ensures Records(Emits(rs) + cps) == rs
  {
    RecordsAppend(Emits(rs), cps);
    RecordsOfEmits(rs);
    RecordsOfSaves(cps);
  }

  /** The records a step emits are the mapped records of its page, in order. */
  lemma PageStepRecords(s: LoopState, data: map<string, Value>, cancel: seq<bool>, pause: seq<bool>, ctx: Context)
    ensures ResultsOf(data).Failure? ==> Records(PageStep(s, data, cancel, pause, ctx).events) == []
    ensures ResultsOf(data).Success? ==>
              Records(PageStep(s, data, cancel, pause, ctx).events) == RunPage(ResultsOf(data).value, pause, ctx, s.pageCount + 1).emitted
  {
    if ResultsOf(data).Failure? {
      RecordsOfSaves(PageStep(s, data, cancel, pause, ctx).events);
    } else {
      var page := RunPage(ResultsOf(data).value, pause, ctx, s.pageCount + 1);
      var after := PageEvents(s, data, page, cancel, ctx);
      PageStepFetched(s, data, cancel, pause, ctx);
      EmitsThenSavesRecords(page.emitted, after.events);
    }
  }

  // ---------------------------------------------------------------- counting

  /** Every checkpoint counts the records emitted before it on top of `base`:
      exactly, except an error checkpoint, which may leave out the records
      already emitted from the page that failed. */
  predicate CountsRecords(t: seq<Event>, base: int) {
    forall i :: 0 <= i < |t| && t[i].Saved? ==>
      && t[i].checkpoint.recordsProcessed <= base + |Records(t[..i])|
      && (t[i].checkpoint.Kind() != Error ==> t[i].checkpoint.recordsProcessed == base + |Records(t[..i])|)
  }

  lemma EmitsThenSavesAt(rs: seq<map<string, Value>>, cps: seq<Event>, i: int)
    requires forall j :: 0 <= j < |cps| ==> cps[j].Saved?
    requires |rs| <= i < |rs| + |cps|
    ensures Records((Emits(rs) + cps)[..i]) == rs
  {
    var e, j := Emits(rs), i - |rs|;
    var saves := cps[..j];
    SliceAppend(e, cps, j);
    assert (e + cps)[..i] == e + saves;
    assert forall k :: 0 <= k < |saves| ==> saves[k] == cps[k];
    RecordsOfSaves(saves);
    RecordsAppend(e, saves);
    RecordsOfEmits(rs);
  }

  /** The requirement `PageEvents` meets: only checkpoints, each counting
      the page's records (at most, for an error checkpoint). */
  predicate CountsPage(cps: seq<Event>, n: int) {
    forall j :: 0 <= j < |cps| ==>
      && cps[j].Saved?
      && cps[j].checkpoint.recordsProcessed <= n
      && (cps[j].checkpoint.Kind() != Error ==> cps[j].checkpoint.recordsProcessed == n)
  }

  lemma EmitsThenSavesOne(rs: seq<map<string, Value>>, cps: seq<Event>, base: int, i: int)
    requires CountsPage(cps, base + |rs|)
    requires 0 <= i < |rs| + |cps| && (Emits(rs) + cps)[i].Saved?
    ensures var t := Emits(rs) + cps;
            && t[i].checkpoint.recordsProcessed <= base + |Records(t[..i])|
            && (t[i].checkpoint.Kind() != Error ==> t[i].checkpoint.recordsProcessed == base + |Records(t[..i])|)
  {
    var t := Emits(rs) + cps;
    assert i >= |rs|;
    var cp := cps[i - |rs|];
    assert t[i] == cp;
    assert cp.Saved?;
    EmitsThenSavesAt(rs, cps, i);
  }

  lemma EmitsThenSaves(rs: seq<map<string, Value>>, cps: seq<Event>, base: int)
    requires CountsPage(cps, base + |rs|)
    ensures CountsRecords(Emits(rs) + cps, base)
  {
    var t := Emits(rs) + cps;
    forall i | 0 <= i < |t| && t[i].Saved?
      ensures t[i].checkpoint.recordsProcessed <= base + |Records(t[..i])|
      ensures t[i].checkpoint.Kind() != Error ==> t[i].checkpoint.recordsProcessed == base + |Records(t[..i])|
    {
      EmitsThenSavesOne(rs, cps, base, i);
    }
  }

  lemma CountsAppend(a: seq<Event>, b: seq<Event>, base: int)
    requires CountsRecords(a, base) && CountsRecords(b, base + |Records(a)|)
    ensures CountsRecords(a + b, base)
  {
    var t := a + b;
    forall i | 0 <= i < |t| && t[i].Saved?
      ensures t[i].checkpoint.recordsProcessed <= base + |Records(t[..i])|
      ensures t[i].checkpoint.Kind() != Error ==> t[i].checkpoint.recordsProcessed == base + |Records(t[..i])|
    {
      if i < |a| {
        assert t[..i] == a[..i];
      } else {
        assert t[..i] == a + b[..i - |a|];
        RecordsAppend(a, b[..i - |a|]);
        assert t[i] == b[i - |a|];
      }
    }
  }

  /** A fetched page: its records are emitted, then `PageEvents` saves
      checkpoints that each count them. */
  lemma PageStepFetched(s: LoopState, data: map<string, Value>, cancel: seq<bool>, pause: seq<bool>, ctx: Context)
    requires ResultsOf(data).Success?
    ensures var page := RunPage(ResultsOf(data).value, pause, ctx, s.pageCount + 1);
            var after := PageEvents(s, data, page, cancel, ctx);
            && PageStep(s, data, cancel, pause, ctx) == StepResult(Emits(page.emitted) + after.events, after.next)
            && CountsPage(after.events, s.totalRecords + |page.emitted|)
  {
  }

  lemma PageStepCounts(s: LoopState, data: map<string, Value>, cancel: seq<bool>, pause: seq<bool>, ctx: Context)
    ensures CountsRecords(PageStep(s, data, cancel, pause, ctx).events, s.totalRecords)
    ensures PageStep(s, data, cancel, pause, ctx).next.Continue? ==>
              PageStep(s, data, cancel, pause, ctx).next.state.totalRecords
                == s.totalRecords + |Records(PageStep(s, data, cancel, pause, ctx).events)|
  {
    if ResultsOf(data).Failure? {
      var cps := [Saved(ErrorCheckpoint(s, ResultsOf(data).error))];
      assert PageStep(s, data, cancel, pause, ctx).events == Emits([]) + cps;
      EmitsThenSaves([], cps, s.totalRecords);
    } else {
      var page := RunPage(ResultsOf(data).value, pause, ctx, s.pageCount + 1);
      var after := PageEvents(s, data, page, cancel, ctx);
      PageStepFetched(s, data, cancel, pause, ctx);
      EmitsThenSaves(page.emitted, after.events, s.totalRecords);
      EmitsThenSavesRecords(page.emitted, after.events);
    }
  }

  lemma StepCounts(s: LoopState, sig: Signals, ctx: Context)
    ensures CountsRecords(Step(s, sig, ctx).events, s.totalRecords)
    ensures Step(s, sig, ctx).next.Continue? ==>
              Step(s, sig, ctx).next.state.totalRecords == s.totalRecords + |Records(Step(s, sig, ctx).events)|
  {
    var r := Step(s, sig, ctx);
    if Head(sig.cancel) || Head(sig.pause) || ctx.fetch(s.after).Failure? {
      assert |r.events| == 1 && r.events[0].Saved? && r.events[0].checkpoint.recordsProcessed == s.totalRecords;
      assert r.events[..0] == [];
    } else {
      var data := ctx.fetch(s.after).value;
      assert r == PageStep(s, data, Tail(sig.cancel), Tail(sig.pause), ctx);
      PageStepCounts(s, data, Tail(sig.cancel), Tail(sig.pause), ctx);
    }
  }

  /** Along a whole run, every checkpoint's `records_processed` is the starting
      total plus the records emitted before it (at most that, for an error
      checkpoint). */
  lemma {:induction false} RunCounts(s: LoopState, sig: Signals, ctx: Context)
    ensures CountsRecords(Run(s, sig, ctx).trace, s.totalRecords)
    decreases PageLimit - s.pageCount
  {
    if s.pageCount < PageLimit {
      var st := Step(s, sig, ctx);
      StepCounts(s, sig, ctx);
      match st.next
      case Halt(_) =>
      case Continue(s2, sig2) =>
        RunCounts(s2, sig2, ctx);
        CountsAppend(st.events, Run(s2, sig2, ctx).trace, s.totalRecords);
    }
  }

  // ---------------------------------------------------------------- how a run ends

  /** How many records of its page a mid-page pause checkpoint says were done. */
  function InPage(cp: Checkpoint): int {
    if cp.details.MidPageDetails? then cp.details.recordsCompletedInPage else 0
  }

  /** What each kind of checkpoint carries. */
  predicate WellFormed(cp: Checkpoint) {
    && (cp.batchSize == 1 <==> cp.Kind() == Paused)
    && (cp.Kind() != Paused ==> cp.batchSize == 100)
    && (cp.Kind() == MainData ==> cp.pageNumber % CheckpointInterval == 0 && (cp.cursor.Some? ==> cp.cursor.value != ""))
    && (cp.Kind() == Completed ==> cp.cursor.None?)
    && (cp.Kind() == Error ==> cp.details.recoveryCursor == cp.cursor)
    && (cp.Kind() == PausedMidPage ==> InPage(cp) >= 0)
  }

  /** The checkpoint a stop leaves last, if any. */
  function TerminalPhase(stop: Stop): Option<Phase> {
    match stop
    case CancelRequested => Some(Cancelled)
    case PauseRequested => Some(Paused)
    case PauseRequestedMidPage => Some(PausedMidPage)
    case Exhausted => Some(Completed)
    case Raised(_) => Some(Error)
    case PageLimitReached => None
  }

  /** Every checkpoint is well formed, every one but the last is a periodic
      `main_data` checkpoint, and the last is the one the stop calls for. */
  predicate EndsWith(t: seq<Event>, stop: Stop) {
    && (forall i :: 0 <= i < |t| && t[i].Saved? ==> WellFormed(t[i].checkpoint))
    && (forall i :: 0 <= i < |t| - 1 && t[i].Saved? ==> t[i].checkpoint.Kind() == MainData)
    && (TerminalPhase(stop).Some? ==>
          |t| > 0 && t[|t| - 1].Saved? && t[|t| - 1].checkpoint.Kind() == TerminalPhase(stop).value)
    && (TerminalPhase(stop).None? ==> forall i :: 0 <= i < |t| && t[i].Saved? ==> t[i].checkpoint.Kind() == MainData)
  }

  predicate PeriodicOnly(t: seq<Event>) {
    forall i :: 0 <= i < |t| && t[i].Saved? ==> WellFormed(t[i].checkpoint) && t[i].checkpoint.Kind() == MainData
  }

  lemma EndsWithAppend(a: seq<Event>, b: seq<Event>, stop: Stop)
    requires PeriodicOnly(a) && EndsWith(b, stop)
    ensures EndsWith(a + b, stop)
  {
    var t := a + b;
    forall i | 0 <= i < |t| && t[i].Saved?
      ensures WellFormed(t[i].checkpoint)
      ensures i < |t| - 1 || TerminalPhase(stop).None? ==> t[i].checkpoint.Kind() == MainData
    {
      if i >= |a| {
        assert t[i] == b[i - |a|];
      }
    }
    if TerminalPhase(stop).Some? {
      assert t[|t| - 1] == b[|b| - 1];
    }
  }

  lemma PeriodicEventsShape(done: LoopState, data: map<string, Value>, pageRecords: int)
    ensures PeriodicOnly(PeriodicEvents(done, data, pageRecords))
  {
  }

  /** A periodic prefix followed by the checkpoint a stop calls for. */
  lemma EndsWithLast(periodic: seq<Event>, cp: Checkpoint, stop: Stop)
    requires PeriodicOnly(periodic) && WellFormed(cp)
    requires TerminalPhase(stop) == Some(cp.Kind())
    ensures EndsWith(periodic + [Saved(cp)], stop)
  {
    EndsWithAppend(periodic, [Saved(cp)], stop);
  }

  lemma PageEventsShape(s: LoopState, data: map<string, Value>, page: PageRun, cancel: seq<bool>, ctx: Context)
    ensures var r := PageEvents(s, data, page, cancel, ctx);
            && (r.next.Halt? ==> EndsWith(r.events, r.next.stop))
            && (r.next.Continue? ==> PeriodicOnly(r.events))
  {
    if page.end == PageDone {
      var done := LoopState(s.after, s.pageCount + 1, s.totalRecords + |page.emitted|);
      var periodic := PeriodicEvents(done, data, |page.emitted|);
      PeriodicEventsShape(done, data, |page.emitted|);
      match NextCursor(data)
      case Failure(e) =>
        ErrorCheckpointWellFormed(done, e);
        EndsWithLast(periodic, ErrorCheckpoint(done, e), Raised(e));
      case Success(LastPage) =>
        EndsWithLast(periodic, CompletedCheckpoint(done), Exhausted);
      case Success(NextPage(c)) =>
    }
  }

  lemma PageStepShape(s: LoopState, data: map<string, Value>, cancel: seq<bool>, pause: seq<bool>, ctx: Context)
    ensures var r := PageStep(s, data, cancel, pause, ctx);
            && (r.next.Halt? ==> EndsWith(r.events, r.next.stop))
            && (r.next.Continue? ==> PeriodicOnly(r.events))
  {
    if ResultsOf(data).Success? {
      var page := RunPage(ResultsOf(data).value, pause, ctx, s.pageCount + 1);
      var after := PageEvents(s, data, page, cancel, ctx);
      PageStepFetched(s, data, cancel, pause, ctx);
      PageEventsShape(s, data, page, cancel, ctx);
      if after.next.Halt? {
        EndsWithAppend(Emits(page.emitted), after.events, after.next.stop);
      }
    } else {
      ErrorCheckpointWellFormed(s, ResultsOf(data).error);
    }
  }

  lemma ErrorCheckpointWellFormed(s: LoopState, message: string)
    ensures WellFormed(ErrorCheckpoint(s, message))
    ensures EndsWith([Saved(ErrorCheckpoint(s, message))], Raised(message))
  {
  }

  lemma StepShape(s: LoopState, sig: Signals, ctx: Context)
    ensures var r := Step(s, sig, ctx);
            && (r.next.Halt? ==> EndsWith(r.events, r.next.stop))
            && (r.next.Continue? ==> PeriodicOnly(r.events))
  {
    if !Head(sig.cancel) && !Head(sig.pause) && ctx.fetch(s.after).Success? {
      PageStepShape(s, ctx.fetch(s.after).value, Tail(sig.cancel), Tail(sig.pause), ctx);
    }
  }

  /** Along a whole run every checkpoint is well formed; all but the last are
      periodic `main_data` checkpoints (saved only at multiples of ten pages);
      the last is the one the stop calls for, and reaching the page limit
      saves no final checkpoint. */
  lemma {:induction false} RunShape(s: LoopState, sig: Signals, ctx: Context)
    ensures EndsWith(Run(s, sig, ctx).trace, Run(s, sig, ctx).stop)
    decreases PageLimit - s.pageCount
  {
    if s.pageCount < PageLimit {
      var st := Step(s, sig, ctx);
      StepShape(s, sig, ctx);
      match st.next
      case Halt(_) =>
      case Continue(s2, sig2) =>
        RunShape(s2, sig2, ctx);
        EndsWithAppend(st.events, Run(s2, sig2, ctx).trace, Run(s2, sig2, ctx).stop);
    }
  }

  /** A cancel observed before the fetch saves one cancellation checkpoint with
      the current position and ends the loop, with nothing fetched or emitted. */
  lemma CancelObservedBeforeFetch(s: LoopState, sig: Signals, ctx: Context)
    requires s.pageCount < PageLimit && Head(sig.cancel)
    ensures var o := Run(s, sig, ctx);
            && o.stop == CancelRequested && |o.trace| == 1 && o.trace[0].Saved?
            && o.trace[0].checkpoint.Kind() == Cancelled
            && o.trace[0].checkpoint.recordsProcessed == s.totalRecords
            && o.trace[0].checkpoint.cursor == s.after
            && o.trace[0].checkpoint.pageNumber == s.pageCount
  {
  }

  /** A pause observed before the fetch (and no cancel) saves one pause
      checkpoint, with batch size 1, at the unchanged position. */
  lemma PauseObservedBeforeFetch(s: LoopState, sig: Signals, ctx: Context)
    requires s.pageCount < PageLimit && !Head(sig.cancel) && Head(sig.pause)
    ensures var o := Run(s, sig, ctx);
            && o.stop == PauseRequested && |o.trace| == 1 && o.trace[0].Saved?
            && o.trace[0].checkpoint.Kind() == Paused && o.trace[0].checkpoint.batchSize == 1
            && o.trace[0].checkpoint.recordsProcessed == s.totalRecords
            && o.trace[0].checkpoint.cursor == s.after
            && o.trace[0].checkpoint.pageNumber == s.pageCount
  {
  }

  // ---------------------------------------------------------------- pause and resume

  /** Each record a page emits is the mapping of the item at the same position. */
  lemma {:induction false} RunPageMaps(items: seq<Value>, pause: seq<bool>, ctx: Context, pageNumber: int)
    ensures var r := RunPage(items, pause, ctx, pageNumber);
            forall i :: 0 <= i < |r.emitted| ==> ctx.mapItem(items[i], pageNumber) == Success(r.emitted[i])
    decreases |items|
  {
    if |items| > 0 && !Head(pause) && ctx.mapItem(items[0], pageNumber).Success? {
      RunPageMaps(items[1..], Tail(pause), ctx, pageNumber);
      var r := RunPage(items, pause, ctx, pageNumber);
      var rest := RunPage(items[1..], Tail(pause), ctx, pageNumber);
      assert r.emitted == [ctx.mapItem(items[0], pageNumber).value] + rest.emitted;
      forall i | 1 <= i < |r.emitted|
        ensures ctx.mapItem(items[i], pageNumber) == Success(r.emitted[i])
      {
        assert items[i] == items[1..][i - 1];
        assert r.emitted[i] == rest.emitted[i - 1];
      }
    }
  }

  /** A page the pause probe did not interrupt runs the same with no probe answers. */
  lemma {:induction false} RunPageQuiet(items: seq<Value>, pause: seq<bool>, ctx: Context, pageNumber: int)
    requires RunPage(items, pause, ctx, pageNumber).end != PausedInPage
    ensures RunPage(items, [], ctx, pageNumber).emitted == RunPage(items, pause, ctx, pageNumber).emitted
    ensures RunPage(items, [], ctx, pageNumber).end == RunPage(items, pause, ctx, pageNumber).end
    decreases |items|
  {
    if |items| > 0 && ctx.mapItem(items[0], pageNumber).Success? {
      assert !Head(pause);
      RunPageQuiet(items[1..], Tail(pause), ctx, pageNumber);
    }
  }

  /** The records emitted before a mid-page pause are the first records the
      uninterrupted page emits. */
  lemma {:induction false} RunPagePrefix(items: seq<Value>, pause: seq<bool>, ctx: Context, pageNumber: int)
    requires RunPage(items, pause, ctx, pageNumber).end == PausedInPage
    ensures var p := RunPage(items, pause, ctx, pageNumber).emitted;
            var q := RunPage(items, [], ctx, pageNumber).emitted;
            |p| <= |q| && q[..|p|] == p
    decreases |items|
  {
    if !Head(pause) {
      var rec := ctx.mapItem(items[0], pageNumber).value;
      RunPagePrefix(items[1..], Tail(pause), ctx, pageNumber);
      var p := RunPage(items, pause, ctx, pageNumber).emitted;
      var q := RunPage(items, [], ctx, pageNumber).emitted;
      assert p == [rec] + RunPage(items[1..], Tail(pause), ctx, pageNumber).emitted;
      assert q == [rec] + RunPage(items[1..], [], ctx, pageNumber).emitted;
    }
  }

  /** An iteration that continues saw only "no" answers, so it behaves exactly
      as it would with no probe answers at all. */
  lemma StepQuiet(s: LoopState, sig: Signals, ctx: Context)
    requires Step(s, sig, ctx).next.Continue?
    ensures Step(s, Quiet, ctx) == StepResult(Step(s, sig, ctx).events, Continue(Step(s, sig, ctx).next.state, Quiet))
  {
    var data := ctx.fetch(s.after).value;
    var items := ResultsOf(data).value;
    var page := RunPage(items, Tail(sig.pause), ctx, s.pageCount + 1);
    var quiet := RunPage(items, [], ctx, s.pageCount + 1);
    assert PageEvents(s, data, page, Tail(sig.cancel), ctx).next.Continue?;
    RunPageQuiet(items, Tail(sig.pause), ctx, s.pageCount + 1);
    assert quiet == page.(pause := []);
  }

  /** Only the probe before the fetch stops an iteration with a plain pause. */
  lemma PauseHaltsBeforeFetch(s: LoopState, sig: Signals, ctx: Context)
    requires Step(s, sig, ctx).next == Halt(PauseRequested)
    ensures Step(s, sig, ctx).events == [Saved(PauseCheckpoint(s, ctx.now))]
  {
  }

  /** The paused run's events (without its final checkpoint) followed by an
      uninterrupted run from the position that checkpoint records are exactly
      the uninterrupted run from `s`. */
  predicate ResumesSeamlessly(s: LoopState, sig: Signals, ctx: Context) {
    var t := Run(s, sig, ctx).trace;
    && |t| > 0 && t[|t| - 1].Saved?
    && var cp := t[|t| - 1].checkpoint;
       var resumed := Run(LoopState(cp.cursor, cp.pageNumber, cp.recordsProcessed), Quiet, ctx);
       Run(s, Quiet, ctx) == Outcome(t[..|t| - 1] + resumed.trace, resumed.stop)
  }

  lemma PauseResumesAtOnce(s: LoopState, sig: Signals, ctx: Context)
    requires s.pageCount < PageLimit && Step(s, sig, ctx).next == Halt(PauseRequested)
    ensures ResumesSeamlessly(s, sig, ctx)
  {
    PauseHaltsBeforeFetch(s, sig, ctx);
    var t := Run(s, sig, ctx).trace;
    assert t == [Saved(PauseCheckpoint(s, ctx.now))];
    var cp := t[|t| - 1].checkpoint;
    assert LoopState(cp.cursor, cp.pageNumber, cp.recordsProcessed) == s;
    assert t[..|t| - 1] + Run(s, Quiet, ctx).trace == Run(s, Quiet, ctx).trace;
  }

  lemma RunContinues(s: LoopState, sig: Signals, ctx: Context)
    requires s.pageCount < PageLimit && Step(s, sig, ctx).next.Continue?
    ensures var st := Step(s, sig, ctx);
            var rest := Run(st.next.state, st.next.signals, ctx);
            Run(s, sig, ctx) == Outcome(st.events + rest.trace, rest.stop)
  {
  }

  lemma DropLast(a: seq<Event>, b: seq<Event>)
    requires |b| > 0
    ensures (a + b)[..|a + b| - 1] == a + b[..|b| - 1]
    ensures (a + b)[|a + b| - 1] == b[|b| - 1]
  {
  }

  lemma PauseResumesLater(s: LoopState, sig: Signals, ctx: Context)
    requires s.pageCount < PageLimit && Step(s, sig, ctx).next.Continue?
    requires ResumesSeamlessly(Step(s, sig, ctx).next.state, Step(s, sig, ctx).next.signals, ctx)
    ensures ResumesSeamlessly(s, sig, ctx)
  {
    var st := Step(s, sig, ctx);
    var rest := Run(st.next.state, st.next.signals, ctx);
    RunContinues(s, sig, ctx);
    StepQuiet(s, sig, ctx);
    RunContinues(s, Quiet, ctx);
    DropLast(st.events, rest.trace);
  }

  /** Pausing before a fetch loses nothing: the paused run's events (without
      its pause checkpoint) followed by an uninterrupted run from the position
      the pause checkpoint records are exactly the uninterrupted run. */
  lemma {:induction false} PauseThenResume(s: LoopState, sig: Signals, ctx: Context)
    requires Run(s, sig, ctx).stop == PauseRequested
    ensures ResumesSeamlessly(s, sig, ctx)
    decreases PageLimit - s.pageCount
  {
    assert s.pageCount < PageLimit;
    var st := Step(s, sig, ctx);
    if st.next.Halt? {
      PauseResumesAtOnce(s, sig, ctx);
    } else {
      assert Run(s, sig, ctx).stop == Run(st.next.state, st.next.signals, ctx).stop;
      PauseThenResume(st.next.state, st.next.signals, ctx);
      PauseResumesLater(s, sig, ctx);
    }
  }

  // ---------------------------------------------------------------- mid-page pause

  lemma SliceAppend<T>(a: seq<T>, b: seq<T>, j: int)
    requires 0 <= j <= |b|
    ensures (a + b)[..|a| + j] == a + b[..j]
    ensures (a + b)[|a| + j..] == b[j..]
  {
  }

  /** Two iterations take the same course: both halt for the same reason, or
      both continue at the same cursor and page count with the same probe
      answers left. */
  predicate SameCourse(n1: Next, n2: Next) {
    && n1.Halt? == n2.Halt?
    && (n1.Halt? ==> n1.stop == n2.stop)
    && (n1.Continue? ==> n1.state.after == n2.state.after && n1.state.pageCount == n2.state.pageCount
                         && n1.signals == n2.signals)
  }

  /** What follows a page does not depend on the total it starts from. */
  lemma PageEventsIgnoreTotal(s: LoopState, s2: LoopState, data: map<string, Value>, page: PageRun, cancel: seq<bool>, ctx: Context)
    requires s.after == s2.after && s.pageCount == s2.pageCount
    ensures SameCourse(PageEvents(s, data, page, cancel, ctx).next, PageEvents(s2, data, page, cancel, ctx).next)
  {
  }

  lemma PageStepIgnoresTotal(s: LoopState, s2: LoopState, data: map<string, Value>, cancel: seq<bool>, pause: seq<bool>, ctx: Context)
    requires s.after == s2.after && s.pageCount == s2.pageCount
    ensures SameCourse(PageStep(s, data, cancel, pause, ctx).next, PageStep(s2, data, cancel, pause, ctx).next)
  {
    if ResultsOf(data).Success? {
      var page := RunPage(ResultsOf(data).value, pause, ctx, s.pageCount + 1);
      PageEventsIgnoreTotal(s, s2, data, page, cancel, ctx);
      assert PageStep(s, data, cancel, pause, ctx).next == PageEvents(s, data, page, cancel, ctx).next;
      assert PageStep(s2, data, cancel, pause, ctx).next == PageEvents(s2, data, page, cancel, ctx).next;
    }
  }

  /** The records one iteration emits, as a function of the cursor and the
      page count alone. */
  function StepEmitted(after: Option<string>, pageCount: int, sig: Signals, ctx: Context): seq<map<string, Value>> {
    if Head(sig.cancel) || Head(sig.pause) || ctx.fetch(after).Failure? then []
    else match ResultsOf(ctx.fetch(after).value)
      case Failure(_) => []
      case Success(items) => RunPage(items, Tail(sig.pause), ctx, pageCount + 1).emitted
  }

  lemma StepRecords(s: LoopState, sig: Signals, ctx: Context)
    ensures Records(Step(s, sig, ctx).events) == StepEmitted(s.after, s.pageCount, sig, ctx)
  {
    if !Head(sig.cancel) && !Head(sig.pause) && ctx.fetch(s.after).Success? {
      StepFetched(s, sig, ctx);
      PageStepRecords(s, ctx.fetch(s.after).value, Tail(sig.cancel), Tail(sig.pause), ctx);
    } else {
      RecordsOfSaves(Step(s, sig, ctx).events);
    }
  }

  lemma StepRecordsIgnoreTotal(s: LoopState, s2: LoopState, sig: Signals, ctx: Context)
    requires s.after == s2.after && s.pageCount == s2.pageCount
    ensures Records(Step(s, sig, ctx).events) == Records(Step(s2, sig, ctx).events)
  {
    StepRecords(s, sig, ctx);
    StepRecords(s2, sig, ctx);
  }

  /** The records an iteration emits and the course it takes do not depend
      on the total it starts from. */
  lemma StepIgnoresTotal(s: LoopState, s2: LoopState, sig: Signals, ctx: Context)
    requires s.after == s2.after && s.pageCount == s2.pageCount
    ensures Records(Step(s, sig, ctx).events) == Records(Step(s2, sig, ctx).events)
    ensures SameCourse(Step(s, sig, ctx).next, Step(s2, sig, ctx).next)
  {
    StepRecordsIgnoreTotal(s, s2, sig, ctx);
    if !Head(sig.cancel) && !Head(sig.pause) && ctx.fetch(s.after).Success? {
      var data := ctx.fetch(s.after).value;
      StepFetched(s, sig, ctx);
      StepFetched(s2, sig, ctx);
      PageStepIgnoresTotal(s, s2, data, Tail(sig.cancel), Tail(sig.pause), ctx);
    }
  }

  lemma {:induction false} RunIgnoresTotal(s: LoopState, s2: LoopState, sig: Signals, ctx: Context)
    requires s.after == s2.after && s.pageCount == s2.pageCount
    ensures Records(Run(s, sig, ctx).trace) == Records(Run(s2, sig, ctx).trace)
    ensures Run(s, sig, ctx).stop == Run(s2, sig, ctx).stop
    decreases PageLimit - s.pageCount
  {
    if s.pageCount < PageLimit {
      StepIgnoresTotal(s, s2, sig, ctx);
      var st1, st2 := Step(s, sig, ctx), Step(s2, sig, ctx);
      if st1.next.Continue? {
        RunContinues(s, sig, ctx);
        RunContinues(s2, sig, ctx);
        RunIgnoresTotal(st1.next.state, st2.next.state, st1.next.signals, ctx);
        RecordsAppend(st1.events, Run(st1.next.state, st1.next.signals, ctx).trace);
        RecordsAppend(st2.events, Run(st2.next.state, st2.next.signals, ctx).trace);
      }
    }
  }

  /** The records of a run begin with the records of its first iteration. */
  lemma RunStartsWithStep(s: LoopState, sig: Signals, ctx: Context)
    requires s.pageCount < PageLimit
    ensures var a := Records(Step(s, sig, ctx).events);
            var b := Records(Run(s, sig, ctx).trace);
            |a| <= |b| && b[..|a|] == a
  {
    var st := Step(s, sig, ctx);
    if st.next.Continue? {
      RunContinues(s, sig, ctx);
      RecordsAppend(st.events, Run(st.next.state, st.next.signals, ctx).trace);
    }
  }

  lemma MidPageStepEnds(s: LoopState, sig: Signals, ctx: Context)
    requires Step(s, sig, ctx).next == Halt(PauseRequestedMidPage)
    ensures var ev := Step(s, sig, ctx).events;
            |ev| > 0 && ev[|ev| - 1] == Saved(MidPageCheckpoint(s, |Records(ev)|, ctx.now))
  {
    var data := ctx.fetch(s.after).value;
    var page := RunPage(ResultsOf(data).value, Tail(sig.pause), ctx, s.pageCount + 1);
    var after := PageEvents(s, data, page, Tail(sig.cancel), ctx);
    assert after.events == [Saved(MidPageCheckpoint(s, |page.emitted|, ctx.now))];
    EmitsThenSavesRecords(page.emitted, after.events);
  }

  lemma StepFetched(s: LoopState, sig: Signals, ctx: Context)
    requires !Head(sig.cancel) && !Head(sig.pause) && ctx.fetch(s.after).Success?
    ensures Step(s, sig, ctx) == PageStep(s, ctx.fetch(s.after).value, Tail(sig.cancel), Tail(sig.pause), ctx)
  {
  }

  lemma MidPageFetched(s: LoopState, sig: Signals, ctx: Context)
    requires Step(s, sig, ctx).next == Halt(PauseRequestedMidPage)
    ensures PausedInFetchedPage(s, sig, ctx)
  {
    var data := ctx.fetch(s.after).value;
    var page := RunPage(ResultsOf(data).value, Tail(sig.pause), ctx, s.pageCount + 1);
    assert PageEvents(s, data, page, Tail(sig.cancel), ctx).next == Halt(PauseRequestedMidPage);
  }

  /** An iteration that paused inside its page: nothing stopped it before
      the fetch, the page had records, and the probe answered "yes" among
      them. */
  predicate PausedInFetchedPage(s: LoopState, sig: Signals, ctx: Context) {
    && !Head(sig.cancel) && !Head(sig.pause) && ctx.fetch(s.after).Success?
    && ResultsOf(ctx.fetch(s.after).value).Success?
    && RunPage(ResultsOf(ctx.fetch(s.after).value).value, Tail(sig.pause), ctx, s.pageCount + 1).end == PausedInPage
  }

  /** A re-run of the paused page from the same cursor emits the records
      already emitted before the pause first, in the same order. */
  lemma MidPageEmittedReplays(s: LoopState, sig: Signals, ctx: Context)
    requires PausedInFetchedPage(s, sig, ctx)
    ensures var p := StepEmitted(s.after, s.pageCount, sig, ctx);
            var q := StepEmitted(s.after, s.pageCount, Quiet, ctx);
            |p| <= |q| && q[..|p|] == p
  {
    var items := ResultsOf(ctx.fetch(s.after).value).value;
    assert StepEmitted(s.after, s.pageCount, sig, ctx) == RunPage(items, Tail(sig.pause), ctx, s.pageCount + 1).emitted;
    assert StepEmitted(s.after, s.pageCount, Quiet, ctx) == RunPage(items, [], ctx, s.pageCount + 1).emitted;
    RunPagePrefix(items, Tail(sig.pause), ctx, s.pageCount + 1);
  }

  /** `quiet` is `paused` with its last `k` records moved into `resumed`,
      which starts with them. */
  predicate ReplayShape<T(==)>(paused: seq<T>, quiet: seq<T>, resumed: seq<T>, k: int) {
    var n := |paused|;
    && 0 <= k <= n && k <= |resumed|
    && quiet == paused[..n - k] + resumed
    && resumed[..k] == paused[n - k..]
  }

  lemma ReplayShapeShift<T>(e: seq<T>, paused: seq<T>, quiet: seq<T>, resumed: seq<T>, k: int)
    requires ReplayShape(paused, quiet, resumed, k)
    ensures ReplayShape(e + paused, e + quiet, resumed, k)
  {
    SliceAppend(e, paused, |paused| - k);
  }

  /** A run from `s` that ends with a checkpoint "replays from" `from` when an
      uninterrupted run from `from` first re-emits the `k` records of the
      last page that were already emitted (the checkpoint's
      `records_completed_in_page`), and otherwise emits what the
      uninterrupted run from `s` emits after the records the run emitted
      before that page. */
  predicate ReplaysFrom(s: LoopState, sig: Signals, ctx: Context, from: LoopState) {
    var t := Run(s, sig, ctx).trace;
    && |t| > 0 && t[|t| - 1].Saved?
    && ReplayShape(Records(t), Records(Run(s, Quiet, ctx).trace), Records(Run(from, Quiet, ctx).trace), InPage(t[|t| - 1].checkpoint))
  }

  /** After a mid-page pause, the run replays from the position its last
      checkpoint records. */
  predicate ReplaysPage(s: LoopState, sig: Signals, ctx: Context) {
    var t := Run(s, sig, ctx).trace;
    && |t| > 0 && t[|t| - 1].Saved?
    && var cp := t[|t| - 1].checkpoint;
       ReplaysFrom(s, sig, ctx, LoopState(cp.cursor, cp.pageNumber, cp.recordsProcessed))
  }

  lemma PrefixTrans<T>(a: seq<T>, b: seq<T>, c: seq<T>)
    requires |a| <= |b| && b[..|a|] == a
    requires |b| <= |c| && c[..|b|] == b
    ensures |a| <= |c| && c[..|a|] == a
  {
    assert c[..|a|] == c[..|b|][..|a|];
  }

  /** The uninterrupted run from the paused page's cursor starts with the
      records emitted on that page before the pause. */
  lemma MidPageResumedStarts(s: LoopState, s2: LoopState, sig: Signals, ctx: Context)
    requires Step(s, sig, ctx).next == Halt(PauseRequestedMidPage)
    requires s2.after == s.after && s2.pageCount == s.pageCount && s.pageCount < PageLimit
    ensures var p := Records(Step(s, sig, ctx).events);
            var r := Records(Run(s2, Quiet, ctx).trace);
            |p| <= |r| && r[..|p|] == p
  {
    MidPageFetched(s, sig, ctx);
    MidPageEmittedReplays(s, sig, ctx);
    StepRecords(s, sig, ctx);
    StepRecords(s2, Quiet, ctx);
    RunStartsWithStep(s2, Quiet, ctx);
    PrefixTrans(Records(Step(s, sig, ctx).events), Records(Step(s2, Quiet, ctx).events), Records(Run(s2, Quiet, ctx).trace));
  }

  /** Replaying a whole prefix: the resumed records start with all the
      paused ones and are the uninterrupted ones. */
  lemma ReplayWhole<T>(paused: seq<T>, quiet: seq<T>, resumed: seq<T>)
    requires quiet == resumed && |paused| <= |resumed| && resumed[..|paused|] == paused
    ensures ReplayShape(paused, quiet, resumed, |paused|)
  {
    assert paused[..0] == [];
    assert paused[|paused|..|paused|] == paused[..0];
  }

  lemma MidPageReplaysAtOnce(s: LoopState, sig: Signals, ctx: Context)
    requires s.pageCount < PageLimit && Step(s, sig, ctx).next == Halt(PauseRequestedMidPage)
    ensures ReplaysPage(s, sig, ctx)
  {
    var ev := Step(s, sig, ctx).events;
    var k := |Records(ev)|;
    MidPageStepEnds(s, sig, ctx);
    assert Run(s, sig, ctx).trace == ev;
    var cp := MidPageCheckpoint(s, k, ctx.now);
    assert InPage(cp) == k;
    var s2 := LoopState(cp.cursor, cp.pageNumber, cp.recordsProcessed);
    RunIgnoresTotal(s, s2, Quiet, ctx);
    MidPageResumedStarts(s, s2, sig, ctx);
    ReplayWhole(Records(ev), Records(Run(s, Quiet, ctx).trace), Records(Run(s2, Quiet, ctx).trace));
    assert ReplaysFrom(s, sig, ctx, s2);
  }

  /** A continuing first iteration prefixes the run's records and leaves its
      last event to the rest of the run. */
  lemma RunRecordsContinue(s: LoopState, sig: Signals, ctx: Context)
    requires s.pageCount < PageLimit && Step(s, sig, ctx).next.Continue?
    ensures var st := Step(s, sig, ctx);
            var t := Run(s, sig, ctx).trace;
            var rest := Run(st.next.state, st.next.signals, ctx).trace;
            && Records(t) == Records(st.events) + Records(rest)
            && (|rest| > 0 ==> |t| > 0 && t[|t| - 1] == rest[|rest| - 1])
  {
    var st := Step(s, sig, ctx);
    var rest := Run(st.next.state, st.next.signals, ctx).trace;
    RunContinues(s, sig, ctx);
    RecordsAppend(st.events, rest);
    if |rest| > 0 {
      DropLast(st.events, rest);
    }
  }

  /** The uninterrupted run from `s` starts with the same iteration. */
  lemma QuietRecordsContinue(s: LoopState, sig: Signals, ctx: Context)
    requires s.pageCount < PageLimit && Step(s, sig, ctx).next.Continue?
    ensures var st := Step(s, sig, ctx);
            Records(Run(s, Quiet, ctx).trace) == Records(st.events) + Records(Run(st.next.state, Quiet, ctx).trace)
  {
    StepQuiet(s, sig, ctx);
    RunRecordsContinue(s, Quiet, ctx);
  }

  lemma MidPageReplaysLater(s: LoopState, sig: Signals, ctx: Context)
    requires s.pageCount < PageLimit && Step(s, sig, ctx).next.Continue?
    requires ReplaysPage(Step(s, sig, ctx).next.state, Step(s, sig, ctx).next.signals, ctx)
    ensures ReplaysPage(s, sig, ctx)
  {
    var st := Step(s, sig, ctx);
    var s2, sig2 := st.next.state, st.next.signals;
    var rest := Run(s2, sig2, ctx).trace;
    RunRecordsContinue(s, sig, ctx);
    QuietRecordsContinue(s, sig, ctx);
    var cp := rest[|rest| - 1].checkpoint;
    var resumed := Records(Run(LoopState(cp.cursor, cp.pageNumber, cp.recordsProcessed), Quiet, ctx).trace);
    ReplayShapeShift(Records(st.events), Records(rest), Records(Run(s2, Quiet, ctx).trace), resumed, InPage(cp));
  }

  /** A mid-page pause followed by a resume from its checkpoint replays the
      paused page from its start: the records emitted on that page before the
      pause are emitted again. */
  lemma {:induction false} MidPagePauseThenResume(s: LoopState, sig: Signals, ctx: Context)
    requires Run(s, sig, ctx).stop == PauseRequestedMidPage
    ensures ReplaysPage(s, sig, ctx)
    decreases PageLimit - s.pageCount
  {
    assert s.pageCount < PageLimit;
    var st := Step(s, sig, ctx);
    if st.next.Halt? {
      MidPageReplaysAtOnce(s, sig, ctx);
    } else {
      assert Run(s, sig, ctx).stop == Run(st.next.state, st.next.signals, ctx).stop;
      MidPagePauseThenResume(st.next.state, st.next.signals, ctx);
      MidPageReplaysLater(s, sig, ctx);
    }
  }
}

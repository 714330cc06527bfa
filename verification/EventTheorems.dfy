/** Conservation across the tiers and the numbering of events, over whole runs. */
module EventTheorems {
  import opened Common
  import opened EventModel

  // ------------------------------------------------------------------ where events are

  predicate InLive(s: State, e: Event) { e.key in s.live && s.live[e.key].event == e }

  predicate InRows(rows: Archive, e: Event) { e.key in rows && FromArchive(rows[e.key]) == e }

  predicate InFiles(s: State, e: Event) { exists d :: d in s.files && InRows(s.files[d].rows, e) }

  predicate Kept(s: State, e: Event) {
    InLive(s, e) || InRows(s.archive, e) || InFiles(s, e) || e in s.dropped
  }

  predicate RowsFrom(rows: Archive, events: set<Event>) {
    forall k :: k in rows ==> rows[k].key == k && FromArchive(rows[k]) in events
  }

  predicate LiveFrom(live: Live, events: set<Event>) {
    forall k :: k in live ==> live[k].event.key == k && live[k].event in events && live[k].event.node != Some("")
  }

  ghost predicate Sourced(s: State) {
    && LiveFrom(s.live, s.appended) && RowsFrom(s.archive, s.appended)
    && (forall d :: d in s.files ==> RowsFrom(s.files[d].rows, s.appended))
  }

  /** No other event of `events` has the key of `e`. */
  ghost predicate Alone(events: set<Event>, e: Event) { forall f :: f in events && f.key == e.key ==> f == e }

  ghost predicate Conserved(s: State) { forall e :: e in s.appended && Alone(s.appended, e) ==> Kept(s, e) }

  ghost predicate Inv(s: State) { Sourced(s) && Conserved(s) }

  /** Archiving and reading back loses nothing but the difference between no node and an empty one. */
  lemma ArchiveRoundTrip(row: LiveRow, archivedAt: int)
    ensures FromArchive(ToArchive(row, archivedAt)) == row.event <==> row.event.node != Some("")
  {
  }

  lemma EmitInv(s: State, e: Event, ok: bool)
    requires Inv(s) && e.node != Some("")
    ensures Inv(EmitEvent(s, e, ok))
  {
    var t := EmitEvent(s, e, ok);
    forall f | f in t.appended && Alone(t.appended, f) ensures Kept(t, f) {
      if f in s.appended {
        assert Alone(s.appended, f);
        assert Kept(s, f);
        assert InFiles(s, f) ==> InFiles(t, f);
      }
    }
    forall d | d in t.files ensures RowsFrom(t.files[d].rows, t.appended) {
      assert RowsFrom(s.files[d].rows, s.appended);
    }
  }

  /** What a committed compaction does to one live row: it is kept exactly when no different
      row was archived under its key. */
  lemma CompactKeepsRowIff(s: State, task: TaskId, archivedAt: int, k: Key)
    requires k in s.live && k.task == task && s.live[k].event.key == k && s.live[k].event.node != Some("")
    ensures InRows(CompactRows(s, task, archivedAt).archive, s.live[k].event)
            <==> k !in s.archive || FromArchive(s.archive[k]) == s.live[k].event
  {
    ArchiveRoundTrip(s.live[k], archivedAt);
  }

  lemma CompactSourced(s: State, task: TaskId, archivedAt: int)
    requires Sourced(s)
    ensures Sourced(CompactRows(s, task, archivedAt))
  {
    var t := CompactRows(s, task, archivedAt);
    forall k | k in t.archive ensures t.archive[k].key == k && FromArchive(t.archive[k]) in t.appended {
      if k !in s.archive { ArchiveRoundTrip(s.live[k], archivedAt); }
    }
  }

  lemma CompactKept(s: State, task: TaskId, archivedAt: int, e: Event)
    requires Sourced(s) && Alone(s.appended, e) && e in s.appended && Kept(s, e)
    ensures Kept(CompactRows(s, task, archivedAt), e)
  {
    var t := CompactRows(s, task, archivedAt);
    if InLive(s, e) && e.key.task == task {
      CompactKeepsRowIff(s, task, archivedAt, e.key);
    }
    assert InFiles(s, e) ==> InFiles(t, e);
  }

  lemma CompactInv(s: State, task: TaskId, archivedAt: int)
    requires Inv(s)
    ensures Inv(CompactRows(s, task, archivedAt))
  {
    hide Sourced, Kept, Alone;
    CompactSourced(s, task, archivedAt);
    forall e | e in s.appended && Alone(s.appended, e) ensures Kept(CompactRows(s, task, archivedAt), e) {
      CompactKept(s, task, archivedAt, e);
    }
  }

  lemma MergeRowsFrom(a: Archive, b: Archive, events: set<Event>)
    requires RowsFrom(a, events) && RowsFrom(b, events)
    ensures RowsFrom(Merge(a, b), events)
  {
  }

  lemma MergeKeeps(a: Archive, b: Archive, events: set<Event>, e: Event)
    requires RowsFrom(a, events) && RowsFrom(b, events) && Alone(events, e) && e in events
    requires InRows(a, e) || InRows(b, e)
    ensures InRows(Merge(a, b), e)
  {
  }

  lemma DayRowsFrom(s: State, day: Day)
    requires Sourced(s)
    ensures RowsFrom(FileRows(s.files, day), s.appended) && RowsFrom(DayRows(s.archive, day), s.appended)
    ensures RowsFrom(WithoutDay(s.archive, day), s.appended)
    ensures forall e :: InRows(s.archive, e) <==> InRows(DayRows(s.archive, day), e) || InRows(WithoutDay(s.archive, day), e)
  {
  }

  /** Putting a superset of a day file in its place keeps everything; so does then deleting the day's rows. */
  lemma NewFileInv(s: State, day: Day, rows: Archive, readable: bool, archive: Archive)
    requires Inv(s) && RowsFrom(rows, s.appended) && RowsFrom(archive, s.appended)
    requires forall e :: e in s.appended && Alone(s.appended, e) && InRows(FileRows(s.files, day), e) ==> InRows(rows, e)
    requires forall e :: e in s.appended && Alone(s.appended, e) && InRows(s.archive, e) ==>
               InRows(rows, e) || InRows(archive, e)
    ensures Inv(s.(files := s.files[day := DayFile(rows, readable)], archive := archive))
  {
    hide InRows, RowsFrom, LiveFrom, Alone;
    var t := s.(files := s.files[day := DayFile(rows, readable)], archive := archive);
    forall e | e in t.appended && Alone(t.appended, e) ensures Kept(t, e) {
      assert Kept(s, e);
      if InFiles(s, e) {
        var d :| d in s.files && InRows(s.files[d].rows, e);
        assert d in t.files && InRows(t.files[d].rows, e);
      }
      assert InRows(rows, e) ==> day in t.files && InRows(t.files[day].rows, e);
    }
  }

  lemma ArchiveDayInv(s: State, day: Day, outcome: ArchiveOutcome)
    requires Inv(s)
    ensures Inv(ArchiveDayRows(s, day, outcome))
  {
    hide InRows, RowsFrom, Alone, Kept, LiveFrom, DayRows, WithoutDay, Merge, FileRows;
    var f, r := FileRows(s.files, day), DayRows(s.archive, day);
    DayRowsFrom(s, day);
    MergeRowsFrom(f, r, s.appended);
    forall e | e in s.appended && Alone(s.appended, e) && (InRows(f, e) || InRows(r, e)) ensures InRows(Merge(f, r), e) {
      MergeKeeps(f, r, s.appended, e);
    }
    NewFileInv(s, day, Merge(f, r), true, s.archive);
    NewFileInv(s, day, Merge(f, r), false, s.archive);
    NewFileInv(s, day, Merge(f, r), true, WithoutDay(s.archive, day));
  }

  lemma {:induction false} AddDaysKeeps(archive: Archive, files: map<Day, DayFile>, days: seq<Day>, events: set<Event>)
    requires RowsFrom(archive, events) && forall d :: d in files ==> RowsFrom(files[d].rows, events)
    ensures RowsFrom(AddDays(archive, files, days), events)
    ensures forall k :: k in archive ==> k in AddDays(archive, files, days) && AddDays(archive, files, days)[k] == archive[k]
    decreases |days|
  {
    if days != [] {
      MergeRowsFrom(archive, FileRows(files, days[0]), events);
      AddDaysKeeps(Merge(archive, FileRows(files, days[0])), files, days[1..], events);
    }
  }

  lemma RestoreInv(s: State, days: seq<Day>)
    requires Inv(s)
    ensures Inv(Restore(s, days))
  {
    var t := Restore(s, days);
    AddDaysKeeps(s.archive, s.files, days, s.appended);
    forall e | e in t.appended && Alone(t.appended, e) ensures Kept(t, e) {
      assert Kept(s, e);
      assert InFiles(s, e) ==> InFiles(t, e);
    }
  }

  lemma PurgeInv(s: State, day: Day)
    requires Inv(s)
    ensures Inv(Purge(s, day))
  {
    var t := Purge(s, day);
    forall e | e in t.appended && Alone(t.appended, e) ensures Kept(t, e) {
      assert Kept(s, e);
      if InFiles(s, e) {
        var d :| d in s.files && InRows(s.files[d].rows, e);
        if d == day {
          assert e.key in FileRows(s.files, day) && FromArchive(FileRows(s.files, day)[e.key]) == e;
        } else {
          assert d in t.files && InRows(t.files[d].rows, e);
        }
      }
    }
  }

  /** Purging a day removes its file and no other; what it held counts as dropped, and nothing else does. */
  lemma PurgeDrops(s: State, day: Day, e: Event)
    ensures var t := Apply(s, PurgeDay(day));
            && t.files.Keys == s.files.Keys - {day} && (forall d :: d in t.files ==> t.files[d] == s.files[d])
            && t.live == s.live && t.archive == s.archive && t.next == s.next && t.appended == s.appended
            && (e in t.dropped <==> e in s.dropped || exists k :: day in s.files && k in s.files[day].rows && e == FromArchive(s.files[day].rows[k]))
  {
    var t := Apply(s, PurgeDay(day));
    var rows := FileRows(s.files, day);
    assert day !in s.files ==> rows == map[];
    assert e in t.dropped <==> e in s.dropped || e in (set k | k in rows :: FromArchive(rows[k]));
  }

  lemma RestartInv(s: State, next: map<TaskId, nat>)
    requires Inv(s)
    ensures Inv(s.(next := next))
  {
    var t := s.(next := next);
    forall e | e in t.appended && Alone(t.appended, e) ensures Kept(t, e) { assert Kept(s, e); assert InFiles(s, e) ==> InFiles(t, e); }
  }

  lemma StepKeepsInv(s: State, step: Step)
    requires Inv(s)
    ensures Inv(Apply(s, step))
  {
    hide Inv;
    match step
    case Emit(task, nodeId, kind, at, payload, ok) => EmitInv(s, Stamped(s, task, nodeId, kind, at, payload), ok);
    case Restart(ok) => RestartInv(s, if ok then Rehydrated(s.live) else map[]);
    case Compact(task, at, commits) => if commits { CompactInv(s, task, at); }
    case ArchiveDay(day, outcome) => ArchiveDayInv(s, day, outcome);
    case RestoreDays(days, commits) => if commits { RestoreInv(s, days); }
    case PurgeDay(day) => PurgeInv(s, day);
  }

  lemma {:induction false} RunKeepsInv(s: State, steps: seq<Step>)
    requires Inv(s)
    ensures Inv(After(s, steps))
    decreases |steps|
  {
    hide Inv, Apply;
    if steps != [] {
      StepKeepsInv(s, steps[0]);
      RunKeepsInv(Apply(s, steps[0]), steps[1..]);
    }
  }

  /** Three-tier conservation: over any run whatever, an appended event whose key no other event was appended
      under is live, archived, in a day file, or was in a file that was purged. */
  lemma NothingLost(steps: seq<Step>, e: Event)
    requires e in After(EMPTY, steps).appended && Alone(After(EMPTY, steps).appended, e)
    ensures Kept(After(EMPTY, steps), e)
  {
    RunKeepsInv(EMPTY, steps);
  }

  // ------------------------------------------------------------------ numbering

  /** The next number of each task exceeds every live number of that task. */
  ghost predicate Ahead(s: State) {
    forall k :: k in s.live ==> k.number < NextSeq(s.next, k.task)
  }

  /** A restart keeps the counters ahead exactly when it could rehydrate, or had nothing to rehydrate. */
  lemma RestartAheadIff(s: State, rehydrates: bool)
    ensures Ahead(Apply(s, Restart(rehydrates))) <==> rehydrates || s.live == map[]
  {
    if rehydrates {
      forall k | k in s.live ensures k.number < NextSeq(Rehydrated(s.live), k.task) { RehydratedAbove(s.live, k); }
    } else if s.live != map[] {
      var k :| k in s.live;
      assert !(k.number < NextSeq(map[], k.task));
    }
  }

  lemma RehydratedAbove(live: Live, k: Key)
    requires k in live
    ensures k.number < NextSeq(Rehydrated(live), k.task)
  {
    assert k.number in Seqs(live, k.task);
    assert k.task in Tasks(live);
  }

  lemma EmitAhead(s: State, e: Event, ok: bool)
    requires Ahead(s) && e.key.number == NextSeq(s.next, e.key.task)
    ensures Ahead(EmitEvent(s, e, ok)) && e.key !in s.live
  {
  }

  lemma CompactAhead(s: State, task: TaskId, archivedAt: int)
    requires Ahead(s)
    ensures Ahead(CompactRows(s, task, archivedAt))
  {
    hide InsertOrIgnore;
  }

  lemma StepKeepsAhead(s: State, step: Step)
    requires Ahead(s) && (step.Restart? ==> step.rehydrates)
    ensures Ahead(Apply(s, step))
    ensures step.Emit? ==> Key(step.task, NextSeq(s.next, step.task)) !in s.live
  {
    match step
    case Restart(_) => RestartAheadIff(s, true);
    case Emit(task, nodeId, kind, at, payload, ok) => EmitAhead(s, Stamped(s, task, nodeId, kind, at, payload), ok);
    case Compact(task, at, _) => CompactAhead(s, task, at);
    case _ => assert Apply(s, step).live == s.live && Apply(s, step).next == s.next;
  }

  ghost predicate Rehydrates(steps: seq<Step>) {
    forall i :: 0 <= i < |steps| && steps[i].Restart? ==> steps[i].rehydrates
  }

  /** Over any run whose restarts rehydrate, numbers stay ahead, so an emit never meets the UNIQUE key:
      only a store fault can keep it from being stored, above every live number of its task. */
  lemma {:induction false} NumbersStayAhead(s: State, steps: seq<Step>)
    requires Ahead(s) && Rehydrates(steps)
    ensures Ahead(After(s, steps))
    decreases |steps|
  {
    if steps != [] {
      hide Ahead, Apply;
      StepKeepsAhead(s, steps[0]);
      assert Rehydrates(steps[1..]) by {
        forall i | 0 <= i < |steps[1..]| && steps[1..][i].Restart? ensures steps[1..][i].rehydrates {
          assert steps[1..][i] == steps[i + 1];
        }
      }
      NumbersStayAhead(Apply(s, steps[0]), steps[1..]);
    }
  }

  lemma EmitIsStored(steps: seq<Step>, emit: Step)
    requires Rehydrates(steps) && emit.Emit? && emit.storeOk
    ensures var s := After(EMPTY, steps);
            var e := Stamped(s, emit.task, emit.nodeId, emit.kind, emit.at, emit.payload);
            && InLive(Apply(s, emit), e)
            && e.key.task == emit.task && e.kind == emit.kind && e.at == emit.at && e.payload == emit.payload
            && (emit.nodeId != "" ==> e.node == Some(emit.nodeId)) && (emit.nodeId == "" ==> e.node == None)
            && forall k :: k in s.live && k.task == emit.task ==> k.number < e.key.number
  {
    NumbersStayAhead(EMPTY, steps);
    StepKeepsAhead(After(EMPTY, steps), emit);
  }

  // ------------------------------------------------------------------ when a key is reused

  /** The next number of the task exceeds every number it was ever appended with. */
  ghost predicate TaskAhead(s: State, task: TaskId) {
    forall e :: e in s.appended && e.key.task == task ==> e.key.number < NextSeq(s.next, task)
  }

  /** The task's highest appended number, if any, is still live. */
  ghost predicate HighestLive(s: State, task: TaskId) {
    forall e :: e in s.appended && e.key.task == task ==>
      exists k :: k in s.live && k.task == task && e.key.number <= k.number
  }

  /** The restart finds the task's highest number, or the task was never appended to. A failed rehydration
      is logged and leaves every counter empty. */
  ghost predicate SafeRestart(s: State, rehydrates: bool, task: TaskId) {
    if rehydrates then HighestLive(s, task) else forall e :: e in s.appended ==> e.key.task != task
  }

  /** After a restart a task's numbers are all new exactly when the restart was safe for it. */
  lemma RestartReuseIff(s: State, rehydrates: bool, task: TaskId)
    ensures TaskAhead(Apply(s, Restart(rehydrates)), task) <==> SafeRestart(s, rehydrates, task)
  {
    if rehydrates {
      RehydrationReuseIff(s, task);
    }
  }

  lemma RehydrationReuseIff(s: State, task: TaskId)
    ensures TaskAhead(Apply(s, Restart(true)), task) <==> HighestLive(s, task)
  {
    var t := Apply(s, Restart(true));
    if HighestLive(s, task) {
      forall e | e in t.appended && e.key.task == task ensures e.key.number < NextSeq(t.next, task) {
        var k :| k in s.live && k.task == task && e.key.number <= k.number;
        RehydratedAbove(s.live, k);
      }
    }
    if TaskAhead(t, task) {
      forall e | e in s.appended && e.key.task == task
        ensures exists k :: k in s.live && k.task == task && e.key.number <= k.number {
        assert task in Tasks(s.live);
        var m := MaxSeq(s.live, task);
        var k :| k in s.live && k.task == task && k.number == m;
        assert e.key.number <= k.number;
      }
    }
  }

  /** Nothing but a restart sets a task's numbers back. */
  lemma OnlyRestartsSetBack(s: State, step: Step, task: TaskId)
    requires TaskAhead(s, task) && !step.Restart?
    ensures TaskAhead(Apply(s, step), task)
  {
  }

  /** The step stores no event under a key that a different event was appended with. */
  ghost predicate TakesUnusedKey(s: State, step: Step, task: TaskId) {
    step.Emit? && step.task == task && step.storeOk && Key(task, NextSeq(s.next, task)) !in s.live ==>
      Alone(s.appended, Stamped(s, task, step.nodeId, step.kind, step.at, step.payload))
  }

  lemma AheadTakesUnused(s: State, step: Step, task: TaskId)
    requires TaskAhead(s, task)
    ensures TakesUnusedKey(s, step, task)
  {
  }

  ghost predicate CarefulEmits(s: State, steps: seq<Step>, task: TaskId)
    decreases |steps|
  {
    steps == [] || (TakesUnusedKey(s, steps[0], task) && CarefulEmits(Apply(s, steps[0]), steps[1..], task))
  }

  /** Every appended event of the task has its key to itself. */
  ghost predicate OwnKeys(events: set<Event>, task: TaskId) {
    forall e :: e in events && e.key.task == task ==> Alone(events, e)
  }

  lemma EmitOwnKeysIff(s: State, step: Step, task: TaskId)
    requires OwnKeys(s.appended, task)
    ensures OwnKeys(Apply(s, step).appended, task) <==> TakesUnusedKey(s, step, task)
  {
    if step.Emit? {
      var e := Stamped(s, step.task, step.nodeId, step.kind, step.at, step.payload);
      var t := EmitEvent(s, e, step.storeOk);
      if e in t.appended && TakesUnusedKey(s, step, task) {
        forall f | f in t.appended && f.key.task == task ensures Alone(t.appended, f) {
          if f in s.appended { assert Alone(s.appended, f); }
        }
      }
      if OwnKeys(t.appended, task) && step.task == task && e in t.appended {
        assert Alone(t.appended, e);
      }
    }
  }

  lemma {:induction false} SharedKeyStays(s: State, steps: seq<Step>, task: TaskId)
    requires !OwnKeys(s.appended, task)
    ensures !OwnKeys(After(s, steps).appended, task)
    decreases |steps|
  {
    if steps != [] {
      SharedKeyStep(s, steps[0], task);
      hide OwnKeys, Apply;
      SharedKeyStays(Apply(s, steps[0]), steps[1..], task);
    }
  }

  lemma SharedKeyStep(s: State, step: Step, task: TaskId)
    requires !OwnKeys(s.appended, task)
    ensures !OwnKeys(Apply(s, step).appended, task)
  {
    var e :| e in s.appended && e.key.task == task && !Alone(s.appended, e);
    assert e in Apply(s, step).appended && !Alone(Apply(s, step).appended, e);
  }

  /** A run leaves every event of a task its own key exactly when each emit of the task that was stored took an
      unused key. */
  lemma {:induction false} OwnKeysIff(s: State, steps: seq<Step>, task: TaskId)
    requires OwnKeys(s.appended, task)
    ensures OwnKeys(After(s, steps).appended, task) <==> CarefulEmits(s, steps, task)
    decreases |steps|
  {
    if steps != [] {
      hide OwnKeys, Apply, TakesUnusedKey;
      EmitOwnKeysIff(s, steps[0], task);
      if TakesUnusedKey(s, steps[0], task) {
        OwnKeysIff(Apply(s, steps[0]), steps[1..], task);
      } else {
        SharedKeyStays(Apply(s, steps[0]), steps[1..], task);
      }
    }
  }

  /** Conservation without assuming anything of keys: no event of a task is lost if each emit of that task took
      an unused key. Restarts after compaction, and what other tasks do, are free. */
  lemma NothingLostByEmits(steps: seq<Step>, e: Event)
    requires CarefulEmits(EMPTY, steps, e.key.task) && e in After(EMPTY, steps).appended
    ensures Kept(After(EMPTY, steps), e)
  {
    OwnKeysIff(EMPTY, steps, e.key.task);
    NothingLost(steps, e);
  }

  // ------------------------------------------------------------------ which restarts are safe

  predicate EmitsOn(steps: seq<Step>, task: TaskId) { exists e :: e in steps && e.Emit? && e.task == task }

  /** Each restart is safe for the task, or the task never emits again. */
  ghost predicate SafeRestarts(s: State, steps: seq<Step>, task: TaskId)
    decreases |steps|
  {
    steps == [] ||
    (&& (steps[0].Restart? ==> SafeRestart(s, steps[0].rehydrates, task) || !EmitsOn(steps[1..], task))
     && SafeRestarts(Apply(s, steps[0]), steps[1..], task))
  }

  lemma {:induction false} SilentIsCareful(s: State, steps: seq<Step>, task: TaskId)
    requires !EmitsOn(steps, task)
    ensures CarefulEmits(s, steps, task)
    decreases |steps|
  {
    hide Apply;
    if steps != [] {
      assert steps[0] in steps;
      SilentIsCareful(Apply(s, steps[0]), steps[1..], task);
    }
  }

  lemma {:induction false} SafeRestartsAreCareful(s: State, steps: seq<Step>, task: TaskId)
    requires TaskAhead(s, task) && SafeRestarts(s, steps, task)
    ensures CarefulEmits(s, steps, task)
    decreases |steps|
  {
    if steps != [] {
      hide TaskAhead, SafeRestart, TakesUnusedKey, Apply;
      AheadTakesUnused(s, steps[0], task);
      if steps[0].Restart? {
        RestartReuseIff(s, steps[0].rehydrates, task);
        assert steps[0] == Restart(steps[0].rehydrates);
      } else {
        OnlyRestartsSetBack(s, steps[0], task);
      }
      if TaskAhead(Apply(s, steps[0]), task) {
        SafeRestartsAreCareful(Apply(s, steps[0]), steps[1..], task);
      } else {
        SilentIsCareful(Apply(s, steps[0]), steps[1..], task);
      }
    }
  }

  /** Conservation from what can be checked at each restart: no event of a task is lost if every restart either
      finds the task's highest number or is followed by no emit of that task. */
  lemma NothingLostByRestarts(steps: seq<Step>, e: Event)
    requires SafeRestarts(EMPTY, steps, e.key.task) && e in After(EMPTY, steps).appended
    ensures Kept(After(EMPTY, steps), e)
  {
    hide SafeRestarts, CarefulEmits, After, Kept;
    assert TaskAhead(EMPTY, e.key.task);
    SafeRestartsAreCareful(EMPTY, steps, e.key.task);
    NothingLostByEmits(steps, e);
  }

  predicate RestartFree(steps: seq<Step>) { forall e :: e in steps ==> !e.Restart? }

  /** Emits that use up `k` numbers of the task while the store fails. */
  function FailedEmits(task: TaskId, k: nat): seq<Step> {
    if k == 0 then [] else [Emit(task, "", "", 0, None, false)] + FailedEmits(task, k - 1)
  }

  lemma {:induction false} FailedEmitsAfter(s: State, task: TaskId, k: nat)
    ensures RestartFree(FailedEmits(task, k))
    ensures var t := After(s, FailedEmits(task, k));
            t.live == s.live && t.appended == s.appended && NextSeq(t.next, task) == NextSeq(s.next, task) + k
    decreases k
  {
    if k > 0 {
      var f := FailedEmits(task, k);
      assert f[1..] == FailedEmits(task, k - 1);
      FailedEmitsAfter(Apply(s, f[0]), task, k - 1);
    }
  }

  lemma {:induction false} CarefulSuffix(s: State, a: seq<Step>, b: seq<Step>, task: TaskId)
    requires CarefulEmits(s, a + b, task)
    ensures CarefulEmits(After(s, a), b, task)
    decreases |a|
  {
    hide Apply, TakesUnusedKey;
    if a == [] {
      assert a + b == b;
    } else {
      assert (a + b)[1..] == a[1..] + b;
      CarefulSuffix(Apply(s, a[0]), a[1..], b, task);
    }
  }

  /** Steps after which the task stores a different event under the number of `e`, which is not new. */
  function ReusingSteps(s: State, e: Event): seq<Step>
    requires NextSeq(s.next, e.key.task) <= e.key.number
  {
    var task := e.key.task;
    [Compact(task, 0, true)] + FailedEmits(task, e.key.number - NextSeq(s.next, task))
    + [Emit(task, "", e.kind, e.at + 1, None, true)]
  }

  lemma BehindClashes(t: State, e: Event, emit: Step)
    requires e in t.appended && NextSeq(t.next, e.key.task) == e.key.number && e.key !in t.live
    requires emit == Emit(e.key.task, "", e.kind, e.at + 1, None, true)
    ensures !TakesUnusedKey(t, emit, e.key.task)
  {
    var f := Stamped(t, e.key.task, "", e.kind, e.at + 1, None);
    assert f.key == e.key && f.at != e.at && !Alone(t.appended, f);
  }

  lemma CompactFirst(s: State, task: TaskId)
    ensures var m := Apply(s, Compact(task, 0, true));
            m.appended == s.appended && m.next == s.next && forall k :: k in m.live ==> k.task != task
  {
  }

  lemma ReusingIsFree(s: State, e: Event)
    requires NextSeq(s.next, e.key.task) <= e.key.number
    ensures RestartFree(ReusingSteps(s, e))
  {
    FailedEmitsAfter(s, e.key.task, e.key.number - NextSeq(s.next, e.key.task));
  }

  lemma BehindReuses(s: State, e: Event)
    requires e in s.appended && NextSeq(s.next, e.key.task) <= e.key.number
    ensures !CarefulEmits(s, ReusingSteps(s, e), e.key.task)
  {
    hide TakesUnusedKey, CarefulEmits, Apply, After, FailedEmits;
    var task := e.key.task;
    var c := Compact(task, 0, true);
    var m := Apply(s, c);
    CompactFirst(s, task);
    var failed := FailedEmits(task, e.key.number - NextSeq(s.next, task));
    FailedEmitsAfter(m, task, e.key.number - NextSeq(s.next, task));
    var emit := Emit(task, "", e.kind, e.at + 1, None, true);
    BehindClashes(After(m, failed), e, emit);
    NotCareful(s, c, failed, emit, task);
  }

  lemma NotCareful(s: State, c: Step, failed: seq<Step>, emit: Step, task: TaskId)
    requires !TakesUnusedKey(After(Apply(s, c), failed), emit, task)
    ensures !CarefulEmits(s, [c] + failed + [emit], task)
  {
    hide Apply, TakesUnusedKey;
    var front := [c] + failed;
    assert front[1..] == failed && After(s, front) == After(Apply(s, c), failed);
    if CarefulEmits(s, front + [emit], task) {
      CarefulSuffix(s, front, [emit], task);
    }
  }

  lemma {:induction false} AheadIsCareful(s: State, steps: seq<Step>, task: TaskId)
    requires TaskAhead(s, task) && RestartFree(steps)
    ensures CarefulEmits(s, steps, task)
    decreases |steps|
  {
    if steps != [] {
      hide TaskAhead, TakesUnusedKey, Apply;
      assert steps[0] in steps;
      AheadTakesUnused(s, steps[0], task);
      OnlyRestartsSetBack(s, steps[0], task);
      AheadIsCareful(Apply(s, steps[0]), steps[1..], task);
    }
  }

  /** A restart is safe for a task exactly when nothing that can follow it, until the next one, stores an event
      under a number of the task that is already taken. */
  lemma SafeRestartIff(s: State, rehydrates: bool, task: TaskId)
    ensures SafeRestart(s, rehydrates, task)
            <==> forall more :: RestartFree(more) ==> CarefulEmits(Apply(s, Restart(rehydrates)), more, task)
  {
    RestartReuseIff(s, rehydrates, task);
    var t := Apply(s, Restart(rehydrates));
    if TaskAhead(t, task) {
      forall more | RestartFree(more) ensures CarefulEmits(t, more, task) { AheadIsCareful(t, more, task); }
    } else {
      var e :| e in t.appended && e.key.task == task && NextSeq(t.next, task) <= e.key.number;
      ReusingIsFree(t, e);
      BehindReuses(t, e);
    }
  }

  /** An event stored under an archived key of a different event is lost by the next compaction of its task. */
  lemma ReuseLosesAnEvent(s: State, e: Event, f: Event, archivedAt: int)
    requires Sourced(s) && InRows(s.archive, e) && e.key == f.key && e != f && e.key !in s.live && f.node != Some("")
    requires f !in s.dropped && !InFiles(s, f)
    ensures var t := CompactRows(EmitEvent(s, f, true), f.key.task, archivedAt);
            f in t.appended && !Kept(t, f)
  {
    var m := EmitEvent(s, f, true);
    CompactKeepsRowIff(m, f.key.task, archivedAt, f.key);
    var t := CompactRows(m, f.key.task, archivedAt);
    forall d | d in t.files ensures !InRows(t.files[d].rows, f) { assert d in s.files; }
  }

  /** A finished task is compacted, the process restarts, and the task emits once more. */
  function LosingSteps(task: TaskId): seq<Step> {
    [Emit(task, "", "TaskCompleted", 0, None, true), Compact(task, 1, true), Restart(true),
     Emit(task, "", "TaskFailed", 2, None, true), Compact(task, 3, true)]
  }

  /** The log after the task was emitted once and compacted; its counter stands at `next`. */
  function Compacted(e: Event, next: map<TaskId, nat>): State {
    State(map[], map[e.key := ToArchive(LiveRow(e, 0), 1)], map[], next, 1, {e}, {})
  }

  lemma FirstLife(task: TaskId, e: Event)
    requires e == Event(Key(task, 0), None, "TaskCompleted", 0, None)
    ensures After(EMPTY, LosingSteps(task)[..3]) == Compacted(e, map[])
  {
    var steps := LosingSteps(task);
    var s1 := Apply(EMPTY, steps[0]);
    assert s1 == State(map[e.key := LiveRow(e, 0)], map[], map[], map[task := 1], 1, {e}, {});
    var s2 := Apply(s1, steps[1]);
    assert TaskKeys(s1.live, task) == {e.key};
    assert s2 == Compacted(e, map[task := 1]);
    var s3 := Apply(s2, steps[2]);
    assert Rehydrated(s2.live) == map[];
    assert s3 == Compacted(e, map[]);
    hide Apply;
    assert steps[..3] == [steps[0], steps[1], steps[2]];
    ThreeSteps(EMPTY, steps[0], steps[1], steps[2]);
  }

  lemma {:induction false} AfterJoin(s: State, a: seq<Step>, b: seq<Step>)
    ensures After(s, a + b) == After(After(s, a), b)
    decreases |a|
  {
    if a == [] {
      assert a + b == b;
    } else {
      hide Apply;
      AfterJoin(Apply(s, a[0]), a[1..], b);
      assert (a + b)[1..] == a[1..] + b;
    }
  }

  lemma SecondLife(task: TaskId, e: Event, f: Event)
    requires e == Event(Key(task, 0), None, "TaskCompleted", 0, None)
    requires f == Event(Key(task, 0), None, "TaskFailed", 2, None)
    ensures var s3 := Compacted(e, map[]);
            var t := Apply(Apply(s3, LosingSteps(task)[3]), LosingSteps(task)[4]);
            f in t.appended && !Kept(t, f)
  {
    var s3 := Compacted(e, map[]);
    assert f.at != e.at;
    ArchiveRoundTrip(LiveRow(e, 0), 1);
    ReuseLosesAnEvent(s3, e, f, 3);
    assert Apply(s3, LosingSteps(task)[3]) == EmitEvent(s3, f, true);
    hide Kept, EmitEvent, CompactRows;
  }

  /** From the empty log that run loses the last event, whatever the task. */
  lemma ReuseReached(task: TaskId)
    ensures var t := After(EMPTY, LosingSteps(task));
            var f := Event(Key(task, 0), None, "TaskFailed", 2, None);
            f in t.appended && !Kept(t, f)
  {
    var e, f := Event(Key(task, 0), None, "TaskCompleted", 0, None), Event(Key(task, 0), None, "TaskFailed", 2, None);
    var steps := LosingSteps(task);
    FirstLife(task, e);
    SecondLife(task, e, f);
    hide Apply, Kept, Compacted;
    AfterJoin(EMPTY, steps[..3], steps[3..]);
    assert steps == steps[..3] + steps[3..];
    assert steps[3..][1..] == steps[4..] && steps[4..][1..] == [];
    var s4 := Apply(Compacted(e, map[]), steps[3]);
    assert After(s4, steps[4..]) == After(Apply(s4, steps[4]), []) == Apply(s4, steps[4]);
  }

  /** A task is compacted and goes on; the next restart cannot rehydrate, though its highest number is live. */
  function UnreadSteps(task: TaskId): seq<Step> {
    [Emit(task, "", "TaskCreated", 0, None, true), Compact(task, 1, true), Emit(task, "", "NodeStarted", 2, None, true),
     Restart(false), Emit(task, "", "NodeCompleted", 3, None, true), Compact(task, 4, true)]
  }

  lemma UnreadFirst(task: TaskId, e: Event, f: Event)
    requires e == Event(Key(task, 0), None, "TaskCreated", 0, None) && f == Event(Key(task, 1), None, "NodeStarted", 2, None)
    ensures After(EMPTY, UnreadSteps(task)[..3])
            == State(map[f.key := LiveRow(f, 1)], map[e.key := ToArchive(LiveRow(e, 0), 1)], map[], map[task := 2], 2, {e, f}, {})
  {
    var steps := UnreadSteps(task);
    var s1 := Apply(EMPTY, steps[0]);
    assert s1 == State(map[e.key := LiveRow(e, 0)], map[], map[], map[task := 1], 1, {e}, {});
    var s2 := Apply(s1, steps[1]);
    assert TaskKeys(s1.live, task) == {e.key};
    assert s2 == Compacted(e, map[task := 1]);
    var s3 := Apply(s2, steps[2]);
    assert s3 == State(map[f.key := LiveRow(f, 1)], s2.archive, map[], map[task := 2], 2, {e, f}, {});
    hide Apply;
    assert steps[..3] == [steps[0], steps[1], steps[2]];
    ThreeSteps(EMPTY, steps[0], steps[1], steps[2]);
  }

  lemma ThreeSteps(s: State, a: Step, b: Step, c: Step)
    ensures After(s, [a, b, c]) == Apply(Apply(Apply(s, a), b), c)
  {
    hide Apply;
    assert [a, b, c][1..] == [b, c] && [b, c][1..] == [c] && [c][1..] == [];
    var t := Apply(Apply(s, a), b);
    assert After(t, [c]) == After(Apply(t, c), []) == Apply(t, c);
    assert After(Apply(s, a), [b, c]) == After(t, [c]);
  }

  lemma UnreadLast(task: TaskId, s3: State, e: Event, f: Event, g: Event)
    requires e == Event(Key(task, 0), None, "TaskCreated", 0, None) && f == Event(Key(task, 1), None, "NodeStarted", 2, None)
    requires g == Event(Key(task, 0), None, "NodeCompleted", 3, None)
    requires s3 == State(map[f.key := LiveRow(f, 1)], map[e.key := ToArchive(LiveRow(e, 0), 1)], map[], map[task := 2], 2, {e, f}, {})
    ensures var steps := UnreadSteps(task);
            var t := Apply(Apply(Apply(s3, steps[3]), steps[4]), steps[5]);
            g in t.appended && !Kept(t, g)
  {
    var steps := UnreadSteps(task);
    var s4 := s3.(next := map[]);
    assert Apply(s3, steps[3]) == s4;
    UnreadSource(s4, e, f);
    hide Sourced;
    assert e.at != g.at;
    ReuseLosesAnEvent(s4, e, g, 4);
    EmitThenCompact(s4, task, g, 4);
    hide Kept, EmitEvent, CompactRows, Apply, InRows, ToArchive;
  }

  lemma UnreadSource(s: State, e: Event, f: Event)
    requires s.live == map[f.key := LiveRow(f, 1)] && s.archive == map[e.key := ToArchive(LiveRow(e, 0), 1)]
    requires s.files == map[] && s.appended == {e, f} && e.node == f.node == None && e.key != f.key
    ensures Sourced(s) && InRows(s.archive, e) && e.key !in s.live && forall g :: !InFiles(s, g)
  {
    ArchiveRoundTrip(LiveRow(e, 0), 1);
  }

  lemma EmitThenCompact(s: State, task: TaskId, g: Event, archivedAt: int)
    requires g == Stamped(s, task, "", g.kind, g.at, None)
    ensures Apply(Apply(s, Emit(task, "", g.kind, g.at, None, true)), Compact(task, archivedAt, true))
            == CompactRows(EmitEvent(s, g, true), task, archivedAt)
  {
    hide EmitEvent, CompactRows, Stamped;
  }

  /** From the empty log that run loses the last event: a live highest number is no help if it cannot be read. */
  lemma UnreadReached(task: TaskId)
    ensures HighestLive(After(EMPTY, UnreadSteps(task)[..3]), task)
    ensures var t := After(EMPTY, UnreadSteps(task));
            var g := Event(Key(task, 0), None, "NodeCompleted", 3, None);
            g in t.appended && !Kept(t, g)
  {
    var e, f := Event(Key(task, 0), None, "TaskCreated", 0, None), Event(Key(task, 1), None, "NodeStarted", 2, None);
    var g := Event(Key(task, 0), None, "NodeCompleted", 3, None);
    var steps := UnreadSteps(task);
    UnreadFirst(task, e, f);
    assert HighestLive(After(EMPTY, steps[..3]), task) by { assert f.key in After(EMPTY, steps[..3]).live; }
    UnreadLast(task, After(EMPTY, steps[..3]), e, f, g);
    hide Apply, Kept, HighestLive;
    AfterJoin(EMPTY, steps[..3], steps[3..]);
    assert steps == steps[..3] + steps[3..];
    assert steps[3..] == [steps[3], steps[4], steps[5]];
    ThreeSteps(After(EMPTY, steps[..3]), steps[3], steps[4], steps[5]);
  }

  // ------------------------------------------------------------------ archive and restore a day

  /** Archiving a day and restoring it: the day's rows united with the file's, the file's winning. */
  lemma DayRoundTrip(s: State, day: Day)
    requires Readable(s.files, day)
    ensures var t := Restore(ArchiveDayRows(s, day, Archived), [day]);
            && t.archive.Keys == s.archive.Keys + FileRows(s.files, day).Keys
            && (forall k :: k in t.archive ==>
                  t.archive[k] == if k in s.archive && (DayOf(s.archive[k].at) != day || k !in FileRows(s.files, day))
                                  then s.archive[k]
                                  else FileRows(s.files, day)[k])
  {
    var f := FileRows(s.files, day);
    RoundTripIs(s, day);
    assert forall k :: k in s.archive && DayOf(s.archive[k].at) == day ==> k in DayRows(s.archive, day);
  }

  lemma RoundTripIs(s: State, day: Day)
    requires Readable(s.files, day)
    ensures Restore(ArchiveDayRows(s, day, Archived), [day]).archive
            == Merge(WithoutDay(s.archive, day), Merge(FileRows(s.files, day), DayRows(s.archive, day)))
  {
    var f, r := FileRows(s.files, day), DayRows(s.archive, day);
    var m := ArchiveDayRows(s, day, Archived);
    assert [day][1..] == [];
    assert AddDays(m.archive, m.files, [day]) == Merge(m.archive, FileRows(m.files, day));
    if r == map[] {
      assert WithoutDay(s.archive, day) == s.archive by {
        forall k | k in s.archive ensures DayOf(s.archive[k].at) != day { assert k !in r; }
      }
      assert Merge(f, r) == f;
    }
  }

  /** The round trip returns every event of the table and of the file that has its key to itself. */
  lemma DayRoundTripEvents(s: State, day: Day, e: Event)
    requires Sourced(s) && (e in s.appended ==> Alone(s.appended, e)) && Readable(s.files, day)
    ensures var t := Restore(ArchiveDayRows(s, day, Archived), [day]);
            InRows(t.archive, e) <==> InRows(s.archive, e) || InRows(FileRows(s.files, day), e)
  {
    DayRoundTrip(s, day);
    assert RowsFrom(FileRows(s.files, day), s.appended);
  }

  /** Retrying a day whose file was written but whose rows were not deleted gives what one good pass gives. */
  lemma ArchiveRetry(s: State, day: Day)
    requires Readable(s.files, day)
    ensures ArchiveDayRows(ArchiveDayRows(s, day, WrittenOnly), day, Archived) == ArchiveDayRows(s, day, Archived)
  {
    var f, r := FileRows(s.files, day), DayRows(s.archive, day);
    assert Merge(Merge(f, r), r) == Merge(f, r);
  }
}

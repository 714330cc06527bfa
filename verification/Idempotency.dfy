/**
 * The idempotency store, one SQL statement a step: any number of callers interleave between
 * the statements of reserve, complete, release, delete and cleanup.
 */
module Idempotency {
  import opened Common

  datatype Slot = Slot(wallet: string, key: string)
  datatype Response = Response(code: int, body: string)

  /** A caller and its fencing token are one thing: tokens are unique. */
  type Token = nat

  datatype Row = Row(id: Token, response: Option<Response>, expires: int)

  const ATTEMPTS := 3

  datatype Answer = Reserved | Replay(response: Response, holder: Token) | Conflict

  /** Where a caller is inside reserve; `seen` is the instant it read before its statement. */
  datatype Pc =
    | Begin(attempt: nat)
    | Insert(attempt: nat, seen: int)
    | Select(attempt: nat, seen: int)
    | Reclaim(attempt: nat, seen: int)
    | Done(answer: Answer)

  datatype Caller = Caller(slot: Slot, pc: Pc)

  /** Why a reserved slot stopped being its holder's. */
  datatype Ending = Released | Deleted | Expired(expires: int)

  datatype State = State(
    now: int,
    rows: map<Slot, Row>,
    callers: map<Token, Caller>,
    ended: map<Token, Ending>,           // log
    stored: map<Token, Response>)        // log: responses written by complete

  datatype Step =
    | Tick(to: int)
    | Arrive(t: Token, slot: Slot)
    | ReadClock(t: Token)
    | TryInsert(t: Token)
    | Look(t: Token)
    | DeleteExpired(t: Token)
    | Complete(t: Token, response: Response, seen: int)
    | Release(t: Token)
    | Delete(slot: Slot)
    | Cleanup(seen: int)

  predicate Holds(s: State, t: Token) { t in s.callers && s.callers[t].pc == Done(Reserved) }

  predicate Enabled(s: State, step: Step) {
    match step
    case Tick(to) => to >= s.now
    case Arrive(t, _) => t !in s.callers
    case ReadClock(t) => t in s.callers && s.callers[t].pc.Begin?
    case TryInsert(t) => t in s.callers && s.callers[t].pc.Insert?
    case Look(t) => t in s.callers && s.callers[t].pc.Select?
    case DeleteExpired(t) => t in s.callers && s.callers[t].pc.Reclaim?
    case Complete(t, _, seen) => Holds(s, t) && seen <= s.now
    case Release(t) => Holds(s, t)
    case Delete(_) => true
    case Cleanup(seen) => seen <= s.now
  }

  function Go(s: State, t: Token, pc: Pc): State
    requires t in s.callers
  {
    s.(callers := s.callers[t := s.callers[t].(pc := pc)])
  }

  function NextAttempt(attempt: nat): Pc {
    if attempt + 1 < ATTEMPTS then Begin(attempt + 1) else Done(Conflict)
  }

  /** A row leaves the table; its holder's reservation ends. */
  function Drop(s: State, slot: Slot, how: Ending): State
    requires slot in s.rows
  {
    s.(rows := s.rows - {slot}, ended := s.ended[s.rows[slot].id := how])
  }

  function InsertRow(s: State, t: Token, pendingTtl: nat): State
    requires t in s.callers && s.callers[t].pc.Insert?
  {
    var c := s.callers[t];
    if c.slot in s.rows then Go(s, t, Select(c.pc.attempt, c.pc.seen))
    else Go(s.(rows := s.rows[c.slot := Row(t, None, c.pc.seen + pendingTtl)]), t, Done(Reserved))
  }

  function LookAt(s: State, t: Token): State
    requires t in s.callers && s.callers[t].pc.Select?
  {
    var c := s.callers[t];
    if c.slot !in s.rows then Go(s, t, NextAttempt(c.pc.attempt))
    else
      var row := s.rows[c.slot];
      if row.expires <= c.pc.seen then Go(s, t, Reclaim(c.pc.attempt, c.pc.seen))
      else Go(s, t, Done(match row.response case Some(r) => Replay(r, row.id) case None => Conflict))
  }

  function ReclaimRow(s: State, t: Token): State
    requires t in s.callers && s.callers[t].pc.Reclaim?
  {
    var c := s.callers[t];
    var u := if c.slot in s.rows && s.rows[c.slot].expires <= c.pc.seen
             then Drop(s, c.slot, Expired(s.rows[c.slot].expires)) else s;
    Go(u, t, NextAttempt(c.pc.attempt))
  }

  /** The row `t` may still act on: pending and carrying its token. */
  predicate Current(s: State, t: Token) {
    t in s.callers && s.callers[t].slot in s.rows &&
    var row := s.rows[s.callers[t].slot]; row.id == t && row.response == None
  }

  function CompleteRow(s: State, t: Token, r: Response, expires: int): State {
    if Current(s, t) then
      s.(rows := s.rows[s.callers[t].slot := Row(t, Some(r), expires)], stored := s.stored[t := r])
    else s
  }

  predicate Overdue(s: State, slot: Slot, seen: int) { slot in s.rows && s.rows[slot].expires <= seen }

  function CleanupRows(s: State, seen: int): State {
    s.(rows := map x | x in s.rows && !Overdue(s, x, seen) :: s.rows[x],
       ended := map t | t in s.ended.Keys + (set x | x in s.rows && Overdue(s, x, seen) :: s.rows[x].id) ::
         if t in s.callers && Overdue(s, s.callers[t].slot, seen) && s.rows[s.callers[t].slot].id == t
         then Expired(s.rows[s.callers[t].slot].expires)
         else if t in s.ended then s.ended[t] else Deleted)
  }

  function Apply(s: State, step: Step, pendingTtl: nat, ttl: nat): State
    requires Enabled(s, step)
  {
    match step
    case Tick(to) => s.(now := to)
    case Arrive(t, slot) => s.(callers := s.callers[t := Caller(slot, Begin(0))])
    case ReadClock(t) => Go(s, t, Insert(s.callers[t].pc.attempt, s.now))
    case TryInsert(t) => InsertRow(s, t, pendingTtl)
    case Look(t) => LookAt(s, t)
    case DeleteExpired(t) => ReclaimRow(s, t)
    case Complete(t, r, seen) => CompleteRow(s, t, r, seen + ttl)
    case Release(t) => if Current(s, t) then Drop(s, s.callers[t].slot, Released) else s
    case Delete(slot) => if slot in s.rows then Drop(s, slot, Deleted) else s
    case Cleanup(seen) => CleanupRows(s, seen)
  }

  predicate IsRun(s: State, steps: seq<Step>, pendingTtl: nat, ttl: nat)
    decreases |steps|
  {
    steps == [] || (Enabled(s, steps[0]) && IsRun(Apply(s, steps[0], pendingTtl, ttl), steps[1..], pendingTtl, ttl))
  }

  function After(s: State, steps: seq<Step>, pendingTtl: nat, ttl: nat): State
    requires IsRun(s, steps, pendingTtl, ttl)
    decreases |steps|
  {
    if steps == [] then s else After(Apply(s, steps[0], pendingTtl, ttl), steps[1..], pendingTtl, ttl)
  }

  function Empty(now: int): State { State(now, map[], map[], map[], map[]) }

  // ------------------------------------------------------------------ the invariant

  /** A row belongs to the one caller that reserved it and has not lost it. */
  predicate RowOk(s: State, x: Slot) {
    x in s.rows ==>
      var row := s.rows[x];
      && Holds(s, row.id) && s.callers[row.id].slot == x && row.id !in s.ended
      && (row.response.None? ==> row.id !in s.stored)
      && (row.response.Some? ==> row.id in s.stored && s.stored[row.id] == row.response.value)
  }

  predicate CallerOk(s: State, t: Token) {
    && (t in s.ended ==> Holds(s, t) && (s.ended[t].Expired? ==> s.ended[t].expires <= s.now))
    && (t in s.stored ==> Holds(s, t))
    && (t in s.callers ==>
          match s.callers[t].pc
          case Begin(a) => a < ATTEMPTS
          case Insert(a, seen) => a < ATTEMPTS && seen <= s.now
          case Select(a, seen) => a < ATTEMPTS && seen <= s.now
          case Reclaim(a, seen) => a < ATTEMPTS && seen <= s.now
          case Done(Reserved) => t in s.ended || (s.callers[t].slot in s.rows && s.rows[s.callers[t].slot].id == t)
          case Done(Replay(r, u)) =>
            u in s.stored && s.stored[u] == r && u in s.callers && s.callers[u].slot == s.callers[t].slot
          case Done(Conflict) => true)
  }

  ghost predicate Inv(s: State) { (forall x :: RowOk(s, x)) && (forall t :: CallerOk(s, t)) }

  lemma StepKeepsInv(s: State, step: Step, pendingTtl: nat, ttl: nat)
    requires Inv(s) && Enabled(s, step)
    ensures Inv(Apply(s, step, pendingTtl, ttl))
  {
    var u := Apply(s, step, pendingTtl, ttl);
    forall x ensures RowOk(u, x) { StepRow(s, step, pendingTtl, ttl, x); }
    forall t ensures CallerOk(u, t) { StepCaller(s, step, pendingTtl, ttl, t); }
  }

  lemma StepRow(s: State, step: Step, pendingTtl: nat, ttl: nat, x: Slot)
    requires Inv(s) && Enabled(s, step)
    ensures RowOk(Apply(s, step, pendingTtl, ttl), x)
  {
    assert RowOk(s, x);
    match step
    case TryInsert(t) => assert CallerOk(s, t);
    case Complete(t, _, _) => assert RowOk(s, s.callers[t].slot);
    case DeleteExpired(t) => assert RowOk(s, s.callers[t].slot);
    case Release(t) => assert RowOk(s, s.callers[t].slot);
    case Delete(y) => assert RowOk(s, y);
    case Cleanup(seen) =>
      if x in s.rows && !Overdue(s, x, seen) { CleanupEnds(s, seen, s.rows[x].id); }
    case _ =>
  }

  /** Cleanup ends exactly the reservations whose rows are overdue. */
  lemma CleanupEnds(s: State, seen: int, t: Token)
    requires Inv(s)
    ensures t in CleanupRows(s, seen).ended <==>
            t in s.ended || (t in s.callers && Overdue(s, s.callers[t].slot, seen) && s.rows[s.callers[t].slot].id == t)
    ensures t in CleanupRows(s, seen).ended ==>
              CleanupRows(s, seen).ended[t]
              == if t in s.ended then s.ended[t] else Expired(s.rows[s.callers[t].slot].expires)
  {
    forall x | x in s.rows ensures Holds(s, s.rows[x].id) && s.callers[s.rows[x].id].slot == x && s.rows[x].id !in s.ended {
      assert RowOk(s, x);
    }
  }

  /** A row is dropped: its holder's reservation ends, nobody else is affected. */
  lemma DropCaller(s: State, slot: Slot, how: Ending, t: Token)
    requires Inv(s) && slot in s.rows && (how.Expired? ==> how.expires <= s.now)
    ensures CallerOk(Drop(s, slot, how), t)
  {
    assert CallerOk(s, t) && RowOk(s, slot);
    if t in s.callers { assert RowOk(s, s.callers[t].slot); }
  }

  /** A caller inside reserve moves on without touching the table. */
  lemma GoCaller(s: State, c: Token, pc: Pc, t: Token)
    requires CallerOk(s, t) && c in s.callers && !s.callers[c].pc.Done?
    requires CallerOk(s, c) && CallerOk(Go(s, c, pc), c)
    ensures CallerOk(Go(s, c, pc), t)
  {
  }

  lemma InsertCaller(s: State, c: Token, pendingTtl: nat, t: Token)
    requires Inv(s) && Enabled(s, TryInsert(c))
    ensures CallerOk(InsertRow(s, c, pendingTtl), t)
  {
    assert CallerOk(s, t) && CallerOk(s, c);
    if t in s.callers { assert RowOk(s, s.callers[t].slot); }
  }

  lemma LookCaller(s: State, c: Token, t: Token)
    requires Inv(s) && Enabled(s, Look(c))
    ensures CallerOk(LookAt(s, c), t)
  {
    assert CallerOk(s, t) && CallerOk(s, c) && RowOk(s, s.callers[c].slot);
    GoCaller(s, c, LookAt(s, c).callers[c].pc, t);
  }

  lemma ReclaimCaller(s: State, c: Token, t: Token)
    requires Inv(s) && Enabled(s, DeleteExpired(c))
    ensures CallerOk(ReclaimRow(s, c), t)
  {
    var slot := s.callers[c].slot;
    assert CallerOk(s, t) && CallerOk(s, c);
    if Overdue(s, slot, s.callers[c].pc.seen) {
      var how := Expired(s.rows[slot].expires);
      DropCaller(s, slot, how, t);
      DropCaller(s, slot, how, c);
      assert RowOk(s, slot);
      hide Inv;
      GoCaller(Drop(s, slot, how), c, NextAttempt(s.callers[c].pc.attempt), t);
    } else {
      GoCaller(s, c, NextAttempt(s.callers[c].pc.attempt), t);
    }
  }

  lemma CompleteCaller(s: State, c: Token, r: Response, expires: int, t: Token)
    requires Inv(s) && Holds(s, c)
    ensures CallerOk(CompleteRow(s, c, r, expires), t)
  {
    assert CallerOk(s, t) && RowOk(s, s.callers[c].slot);
  }

  lemma CleanupCaller(s: State, seen: int, t: Token)
    requires Inv(s) && seen <= s.now
    ensures CallerOk(CleanupRows(s, seen), t)
  {
    CleanupEnds(s, seen, t);
    assert CallerOk(s, t);
    if t in s.callers { assert RowOk(s, s.callers[t].slot); }
  }

  lemma StepCaller(s: State, step: Step, pendingTtl: nat, ttl: nat, t: Token)
    requires Inv(s) && Enabled(s, step)
    ensures CallerOk(Apply(s, step, pendingTtl, ttl), t)
  {
    assert CallerOk(s, t);
    if step.ReadClock? { assert CallerOk(s, step.t); }
    hide Inv;
    match step
    case Tick(to) =>
    case Arrive(c, slot) =>
    case ReadClock(c) => GoCaller(s, c, Insert(s.callers[c].pc.attempt, s.now), t);
    case TryInsert(c) => hide CallerOk; InsertCaller(s, c, pendingTtl, t);
    case Look(c) => hide CallerOk; LookCaller(s, c, t);
    case DeleteExpired(c) => hide CallerOk; ReclaimCaller(s, c, t);
    case Complete(c, r, seen) => hide CallerOk; CompleteCaller(s, c, r, seen + ttl, t);
    case Release(c) => hide CallerOk; if Current(s, c) { DropCaller(s, s.callers[c].slot, Released, t); }
    case Delete(y) => hide CallerOk; if y in s.rows { DropCaller(s, y, Deleted, t); }
    case Cleanup(seen) => hide CallerOk; CleanupCaller(s, seen, t);
  }

  lemma {:induction false} RunKeepsInv(s: State, steps: seq<Step>, pendingTtl: nat, ttl: nat)
    requires Inv(s) && IsRun(s, steps, pendingTtl, ttl)
    ensures Inv(After(s, steps, pendingTtl, ttl))
    decreases |steps|
  {
    hide Inv, Enabled, Apply;
    if steps != [] {
      StepKeepsInv(s, steps[0], pendingTtl, ttl);
      RunKeepsInv(Apply(s, steps[0], pendingTtl, ttl), steps[1..], pendingTtl, ttl);
    }
  }

  // ------------------------------------------------------------------ one caller undisturbed

  /** A new caller's statements up to its first look at the row. */
  function FirstLook(t: Token, slot: Slot): seq<Step> { [Arrive(t, slot), ReadClock(t), TryInsert(t), Look(t)] }

  lemma RunThree(s: State, a: Step, b: Step, c: Step, s1: State, s2: State, s3: State, pendingTtl: nat, ttl: nat)
    requires Enabled(s, a) && s1 == Apply(s, a, pendingTtl, ttl)
    requires Enabled(s1, b) && s2 == Apply(s1, b, pendingTtl, ttl)
    requires Enabled(s2, c) && s3 == Apply(s2, c, pendingTtl, ttl)
    ensures IsRun(s, [a, b, c], pendingTtl, ttl) && After(s, [a, b, c], pendingTtl, ttl) == s3
  {
    hide Enabled, Apply;
    assert [a, b, c][1..] == [b, c] && [b, c][1..] == [c] && [c][1..] == [];
    assert IsRun(s3, [], pendingTtl, ttl) && After(s3, [], pendingTtl, ttl) == s3;
    assert IsRun(s2, [c], pendingTtl, ttl) && After(s2, [c], pendingTtl, ttl) == s3;
    assert IsRun(s1, [b, c], pendingTtl, ttl) && After(s1, [b, c], pendingTtl, ttl) == s3;
  }

  lemma {:induction false} RunJoin(s: State, a: seq<Step>, b: seq<Step>, pendingTtl: nat, ttl: nat)
    requires IsRun(s, a, pendingTtl, ttl) && IsRun(After(s, a, pendingTtl, ttl), b, pendingTtl, ttl)
    ensures IsRun(s, a + b, pendingTtl, ttl)
    ensures After(s, a + b, pendingTtl, ttl) == After(After(s, a, pendingTtl, ttl), b, pendingTtl, ttl)
    decreases |a|
  {
    hide Enabled, Apply;
    if a == [] {
      assert a + b == b;
    } else {
      assert (a + b)[1..] == a[1..] + b;
      RunJoin(Apply(s, a[0], pendingTtl, ttl), a[1..], b, pendingTtl, ttl);
    }
  }

  /** Arriving at a free slot reserves it. */
  lemma ReserveFree(s: State, t: Token, slot: Slot, pendingTtl: nat, ttl: nat)
    requires t !in s.callers && slot !in s.rows
    ensures var steps := [Arrive(t, slot), ReadClock(t), TryInsert(t)];
            && IsRun(s, steps, pendingTtl, ttl)
            && var u := After(s, steps, pendingTtl, ttl);
               && u.rows == s.rows[slot := Row(t, None, s.now + pendingTtl)]
               && t in u.callers && u.callers[t] == Caller(slot, Done(Reserved)) && u.ended == s.ended && u.stored == s.stored
  {
    var s1 := Apply(s, Arrive(t, slot), pendingTtl, ttl);
    var s2 := Apply(s1, ReadClock(t), pendingTtl, ttl);
    var s3 := Apply(s2, TryInsert(t), pendingTtl, ttl);
    assert s2.callers[t] == Caller(slot, Insert(0, s.now));
    RunThree(s, Arrive(t, slot), ReadClock(t), TryInsert(t), s1, s2, s3, pendingTtl, ttl);
  }

  /** Up to the look nothing changes but the caller's own position. */
  lemma ReachLook(s: State, t: Token, slot: Slot, pendingTtl: nat, ttl: nat)
    requires t !in s.callers && slot in s.rows
    ensures var steps := [Arrive(t, slot), ReadClock(t), TryInsert(t)];
            && IsRun(s, steps, pendingTtl, ttl)
            && After(s, steps, pendingTtl, ttl) == s.(callers := s.callers[t := Caller(slot, Select(0, s.now))])
  {
    var s1 := Apply(s, Arrive(t, slot), pendingTtl, ttl);
    var s2 := Apply(s1, ReadClock(t), pendingTtl, ttl);
    var s3 := Apply(s2, TryInsert(t), pendingTtl, ttl);
    assert s2.callers == s.callers[t := Caller(slot, Insert(0, s.now))];
    assert s3.callers == s.callers[t := Caller(slot, Select(0, s.now))];
    RunThree(s, Arrive(t, slot), ReadClock(t), TryInsert(t), s1, s2, s3, pendingTtl, ttl);
  }

  /** Arriving at an unexpired row replays its response, or conflicts if it has none, and leaves the table alone. */
  lemma ReserveHeld(s: State, t: Token, slot: Slot, pendingTtl: nat, ttl: nat)
    requires t !in s.callers && slot in s.rows && s.now < s.rows[slot].expires
    ensures IsRun(s, FirstLook(t, slot), pendingTtl, ttl)
    ensures var u := After(s, FirstLook(t, slot), pendingTtl, ttl);
            && u.rows == s.rows && u.ended == s.ended && u.stored == s.stored
            && t in u.callers && u.callers[t] == Caller(slot, Done(
                 if s.rows[slot].response.Some? then Replay(s.rows[slot].response.value, s.rows[slot].id) else Conflict))
  {
    var steps := [Arrive(t, slot), ReadClock(t), TryInsert(t)];
    ReachLook(s, t, slot, pendingTtl, ttl);
    var m := s.(callers := s.callers[t := Caller(slot, Select(0, s.now))]);
    OneStep(m, Look(t), pendingTtl, ttl);
    hide IsRun, After;
    RunJoin(s, steps, [Look(t)], pendingTtl, ttl);
    assert FirstLook(t, slot) == steps + [Look(t)];
  }

  lemma OneStep(s: State, step: Step, pendingTtl: nat, ttl: nat)
    requires Enabled(s, step)
    ensures IsRun(s, [step], pendingTtl, ttl) && After(s, [step], pendingTtl, ttl) == Apply(s, step, pendingTtl, ttl)
  {
    hide Enabled, Apply;
    assert [step][1..] == [];
  }

  /** Arriving at an expired row ends its reservation, deletes it, and reserves the slot on the next attempt. */
  lemma ReserveExpired(s: State, t: Token, slot: Slot, pendingTtl: nat, ttl: nat)
    requires t !in s.callers && slot in s.rows && s.rows[slot].expires <= s.now
    ensures var steps := FirstLook(t, slot) + [DeleteExpired(t), ReadClock(t), TryInsert(t)];
            && IsRun(s, steps, pendingTtl, ttl)
            && var u := After(s, steps, pendingTtl, ttl);
               && u.rows == s.rows[slot := Row(t, None, s.now + pendingTtl)]
               && t in u.callers && u.callers[t] == Caller(slot, Done(Reserved))
               && u.ended == s.ended[s.rows[slot].id := Expired(s.rows[slot].expires)]
  {
    var steps := [Arrive(t, slot), ReadClock(t), TryInsert(t)];
    ReachLook(s, t, slot, pendingTtl, ttl);
    var m := s.(callers := s.callers[t := Caller(slot, Select(0, s.now))]);
    OneStep(m, Look(t), pendingTtl, ttl);
    var n := Apply(m, Look(t), pendingTtl, ttl);
    assert n.callers[t] == Caller(slot, Reclaim(0, s.now));
    Reclaimed(n, t, slot, pendingTtl, ttl);
    hide IsRun, After;
    RunJoin(s, steps, [Look(t)], pendingTtl, ttl);
    assert FirstLook(t, slot) == steps + [Look(t)];
    RunJoin(s, FirstLook(t, slot), [DeleteExpired(t), ReadClock(t), TryInsert(t)], pendingTtl, ttl);
  }

  lemma Reclaimed(n: State, t: Token, slot: Slot, pendingTtl: nat, ttl: nat)
    requires t in n.callers && n.callers[t] == Caller(slot, Reclaim(0, n.now)) && slot in n.rows && n.rows[slot].expires <= n.now
    ensures var steps := [DeleteExpired(t), ReadClock(t), TryInsert(t)];
            && IsRun(n, steps, pendingTtl, ttl)
            && var u := After(n, steps, pendingTtl, ttl);
               && u.rows == n.rows[slot := Row(t, None, n.now + pendingTtl)]
               && t in u.callers && u.callers[t] == Caller(slot, Done(Reserved))
               && u.ended == n.ended[n.rows[slot].id := Expired(n.rows[slot].expires)]
  {
    var n1 := Apply(n, DeleteExpired(t), pendingTtl, ttl);
    assert n1.rows == n.rows - {slot} && n1.callers[t] == Caller(slot, Begin(1));
    var n2 := Apply(n1, ReadClock(t), pendingTtl, ttl);
    assert n2.callers[t] == Caller(slot, Insert(1, n.now)) && n2.rows == n1.rows;
    var n3 := Apply(n2, TryInsert(t), pendingTtl, ttl);
    assert n.rows - {slot} + map[slot := n3.rows[slot]] == n.rows[slot := n3.rows[slot]];
    RunThree(n, DeleteExpired(t), ReadClock(t), TryInsert(t), n1, n2, n3, pendingTtl, ttl);
  }

  function ExpirySteps(slot: Slot, at: int): seq<Step> {
    [Arrive(0, slot), ReadClock(0), TryInsert(0)] + [Tick(at)]
    + (FirstLook(1, slot) + [DeleteExpired(1), ReadClock(1), TryInsert(1)])
  }

  /** From the empty store: a reservation stands until its time has passed, and then the next caller takes it over. */
  lemma ExpiryReached(now: int, slot: Slot, pendingTtl: nat, ttl: nat)
    ensures var steps := ExpirySteps(slot, now + pendingTtl);
            && IsRun(Empty(now), steps, pendingTtl, ttl)
            && var u := After(Empty(now), steps, pendingTtl, ttl);
               && Holds(u, 0) && Holds(u, 1) && u.ended == map[0 := Expired(now + pendingTtl)]
               && u.rows == map[slot := Row(1, None, now + pendingTtl + pendingTtl)]
  {
    var first := [Arrive(0, slot), ReadClock(0), TryInsert(0)];
    ReserveFree(Empty(now), 0, slot, pendingTtl, ttl);
    var s := After(Empty(now), first, pendingTtl, ttl);
    ReserveFrame(now, slot, pendingTtl, ttl);
    OneStep(s, Tick(now + pendingTtl), pendingTtl, ttl);
    var m := Apply(s, Tick(now + pendingTtl), pendingTtl, ttl);
    assert m.now == now + pendingTtl && m.rows == map[slot := Row(0, None, now + pendingTtl)];
    var last := FirstLook(1, slot) + [DeleteExpired(1), ReadClock(1), TryInsert(1)];
    ReserveExpired(m, 1, slot, pendingTtl, ttl);
    EmptyInv(now);
    hide IsRun, After, Inv;
    RunJoin(Empty(now), first, [Tick(now + pendingTtl)], pendingTtl, ttl);
    RunJoin(Empty(now), first + [Tick(now + pendingTtl)], last, pendingTtl, ttl);
    RunKeepsInv(Empty(now), ExpirySteps(slot, now + pendingTtl), pendingTtl, ttl);
    EndedHolds(After(Empty(now), ExpirySteps(slot, now + pendingTtl), pendingTtl, ttl), 0);
  }

  lemma EndedHolds(s: State, t: Token)
    requires Inv(s) && t in s.ended
    ensures Holds(s, t)
  {
    assert CallerOk(s, t);
  }

  /** The reservation of a free slot leaves the clock and the other callers alone. */
  lemma ReserveFrame(now: int, slot: Slot, pendingTtl: nat, ttl: nat)
    ensures var steps := [Arrive(0, slot), ReadClock(0), TryInsert(0)];
            && IsRun(Empty(now), steps, pendingTtl, ttl)
            && After(Empty(now), steps, pendingTtl, ttl).now == now
            && After(Empty(now), steps, pendingTtl, ttl).callers.Keys == {0}
  {
    var s := Empty(now);
    var s1 := Apply(s, Arrive(0, slot), pendingTtl, ttl);
    var s2 := Apply(s1, ReadClock(0), pendingTtl, ttl);
    var s3 := Apply(s2, TryInsert(0), pendingTtl, ttl);
    RunThree(s, Arrive(0, slot), ReadClock(0), TryInsert(0), s1, s2, s3, pendingTtl, ttl);
  }

  /** A row that vanished before the look, or was reclaimed, sends the caller back to insert, three times at most. */
  lemma Retries(s: State, t: Token, pendingTtl: nat, ttl: nat)
    requires t in s.callers
    requires (s.callers[t].pc.Select? && s.callers[t].slot !in s.rows) || s.callers[t].pc.Reclaim?
    ensures var u := Apply(s, if s.callers[t].pc.Select? then Look(t) else DeleteExpired(t), pendingTtl, ttl);
            && t in u.callers
            && u.callers[t].pc == match s.callers[t].pc.attempt { case 0 => Begin(1) case 1 => Begin(2) case _ => Done(Conflict) }
  {
  }

  // ------------------------------------------------------------------ what it promises

  /** A reserved answer: everyone who reserved the slot before has lost it, by release, by deletion,
      or by running past its expiry. */
  lemma GrantEndsOthers(s: State, t: Token, u: Token, pendingTtl: nat)
    requires Inv(s) && Enabled(s, TryInsert(t)) && Holds(InsertRow(s, t, pendingTtl), t)
    requires Holds(s, u) && s.callers[u].slot == s.callers[t].slot
    ensures u in s.ended && (s.ended[u].Expired? ==> s.ended[u].expires <= s.now)
  {
    assert CallerOk(s, u);
  }

  /** Endings are final, and so are the slot and the answer of a caller and the response it stored. */
  ghost predicate Later(s: State, u: State) {
    && (forall t :: t in s.ended ==> t in u.ended && u.ended[t] == s.ended[t])
    && (forall t :: t in s.stored ==> t in u.stored && u.stored[t] == s.stored[t])
    && (forall t :: t in s.callers ==> t in u.callers && u.callers[t].slot == s.callers[t].slot)
    && (forall t :: Holds(s, t) ==> Holds(u, t))
    && s.now <= u.now
  }

  lemma DropIsLater(s: State, slot: Slot, how: Ending)
    requires slot in s.rows && RowOk(s, slot)
    ensures Later(s, Drop(s, slot, how))
  {
  }

  lemma GoIsLater(s: State, t: Token, pc: Pc)
    requires t in s.callers && !s.callers[t].pc.Done?
    ensures Later(s, Go(s, t, pc))
  {
  }

  lemma LaterTwice(s: State, t: State, u: State)
    requires Later(s, t) && Later(t, u)
    ensures Later(s, u)
  {
  }

  lemma ReclaimIsLater(s: State, t: Token)
    requires Inv(s) && Enabled(s, DeleteExpired(t))
    ensures Later(s, ReclaimRow(s, t))
  {
    var slot := s.callers[t].slot;
    assert RowOk(s, slot);
    hide Inv, RowOk, Later;
    if Overdue(s, slot, s.callers[t].pc.seen) {
      var d := Drop(s, slot, Expired(s.rows[slot].expires));
      DropFacts(s, slot, Expired(s.rows[slot].expires));
      GoIsLater(d, t, NextAttempt(s.callers[t].pc.attempt));
      LaterTwice(s, d, ReclaimRow(s, t));
    } else {
      GoIsLater(s, t, NextAttempt(s.callers[t].pc.attempt));
    }
  }

  lemma DropFacts(s: State, slot: Slot, how: Ending)
    requires slot in s.rows && RowOk(s, slot)
    ensures Later(s, Drop(s, slot, how)) && Drop(s, slot, how).callers == s.callers
  {
    DropIsLater(s, slot, how);
  }

  lemma InsertIsLater(s: State, t: Token, pendingTtl: nat)
    requires Enabled(s, TryInsert(t))
    ensures Later(s, InsertRow(s, t, pendingTtl))
  {
  }

  lemma CompleteIsLater(s: State, t: Token, r: Response, expires: int)
    requires Inv(s) && Holds(s, t)
    ensures Later(s, CompleteRow(s, t, r, expires))
  {
    assert RowOk(s, s.callers[t].slot);
  }

  lemma StepIsLater(s: State, step: Step, pendingTtl: nat, ttl: nat)
    requires Inv(s) && Enabled(s, step)
    ensures Later(s, Apply(s, step, pendingTtl, ttl))
  {
    if step.Release? { assert RowOk(s, s.callers[step.t].slot); }
    if step.Delete? { assert RowOk(s, step.slot); }
    hide Inv, RowOk, CleanupRows, ReclaimRow, InsertRow, CompleteRow, Drop, Go;
    match step
    case Tick(to) =>
    case Arrive(c, slot) =>
    case ReadClock(c) => GoIsLater(s, c, Insert(s.callers[c].pc.attempt, s.now));
    case TryInsert(c) => InsertIsLater(s, c, pendingTtl);
    case Look(c) => LookIsGo(s, c); GoIsLater(s, c, LookAt(s, c).callers[c].pc);
    case DeleteExpired(c) => ReclaimIsLater(s, c);
    case Complete(c, r, seen) => CompleteIsLater(s, c, r, seen + ttl);
    case Release(c) => if Current(s, c) { DropIsLater(s, s.callers[c].slot, Released); }
    case Delete(y) => if y in s.rows { DropIsLater(s, y, Deleted); }
    case Cleanup(seen) => CleanupIsLater(s, seen);
  }

  lemma LookIsGo(s: State, c: Token)
    requires Enabled(s, Look(c))
    ensures c in LookAt(s, c).callers && LookAt(s, c) == Go(s, c, LookAt(s, c).callers[c].pc)
  {
  }

  lemma CleanupIsLater(s: State, seen: int)
    requires Inv(s)
    ensures Later(s, CleanupRows(s, seen))
  {
    forall t | t in s.ended ensures t in CleanupRows(s, seen).ended && CleanupRows(s, seen).ended[t] == s.ended[t] {
      CleanupEnds(s, seen, t);
    }
  }

  lemma {:induction false} RunIsLater(s: State, steps: seq<Step>, pendingTtl: nat, ttl: nat)
    requires Inv(s) && IsRun(s, steps, pendingTtl, ttl)
    ensures Later(s, After(s, steps, pendingTtl, ttl))
    decreases |steps|
  {
    if steps != [] {
      StepIsLater(s, steps[0], pendingTtl, ttl);
      StepKeepsInv(s, steps[0], pendingTtl, ttl);
      hide Inv, Enabled, Apply;
      RunIsLater(Apply(s, steps[0], pendingTtl, ttl), steps[1..], pendingTtl, ttl);
    }
  }

  /** Only an insertion into a free slot grants a reservation. */
  lemma OnlyInsertGrants(s: State, step: Step, u: Token, pendingTtl: nat, ttl: nat)
    requires Enabled(s, step) && !Holds(s, u) && Holds(Apply(s, step, pendingTtl, ttl), u)
    ensures step == TryInsert(u)
  {
    if step.Look? { LookIsGo(s, step.t); }
    hide CleanupRows;
    if step.Cleanup? { CleanupCallers(s, step.seen); }
  }

  lemma CleanupCallers(s: State, seen: int)
    ensures CleanupRows(s, seen).callers == s.callers
  {
  }

  lemma {:induction false} GrantInRun(s: State, steps: seq<Step>, t: Token, u: Token, pendingTtl: nat, ttl: nat)
    requires Inv(s) && IsRun(s, steps, pendingTtl, ttl) && Holds(s, t) && !Holds(s, u)
    requires var f := After(s, steps, pendingTtl, ttl); Holds(f, u) && f.callers[u].slot == s.callers[t].slot
    ensures t in After(s, steps, pendingTtl, ttl).ended
    decreases |steps|
  {
    hide Inv, Enabled, Apply;
    if steps != [] {
      var next := Apply(s, steps[0], pendingTtl, ttl);
      StepKeepsInv(s, steps[0], pendingTtl, ttl);
      StepIsLater(s, steps[0], pendingTtl, ttl);
      RunIsLater(next, steps[1..], pendingTtl, ttl);
      if Holds(next, u) {
        OnlyInsertGrants(s, steps[0], u, pendingTtl, ttl);
        Granted(s, t, u, pendingTtl, ttl);
      } else {
        GrantInRun(next, steps[1..], t, u, pendingTtl, ttl);
      }
    }
  }

  lemma Granted(s: State, t: Token, u: Token, pendingTtl: nat, ttl: nat)
    requires Inv(s) && Enabled(s, TryInsert(u)) && Holds(s, t)
    requires var n := Apply(s, TryInsert(u), pendingTtl, ttl); Holds(n, u) && n.callers[u].slot == s.callers[t].slot
    ensures t in s.ended
  {
    GrantEndsOthers(s, u, t, pendingTtl);
  }

  /** Mutual exclusion: between two reserved answers for one slot, the earlier one ended. */
  lemma MutualExclusion(now: int, first: seq<Step>, more: seq<Step>, t: Token, u: Token, pendingTtl: nat, ttl: nat)
    requires IsRun(Empty(now), first, pendingTtl, ttl)
    requires var s := After(Empty(now), first, pendingTtl, ttl);
             && IsRun(s, more, pendingTtl, ttl) && Holds(s, t) && !Holds(s, u)
             && var f := After(s, more, pendingTtl, ttl);
                Holds(f, u) && f.callers[u].slot == s.callers[t].slot
    ensures var f := After(After(Empty(now), first, pendingTtl, ttl), more, pendingTtl, ttl);
            t in f.ended && (f.ended[t].Expired? ==> f.ended[t].expires <= f.now)
  {
    hide Inv;
    EmptyInv(now);
    RunKeepsInv(Empty(now), first, pendingTtl, ttl);
    var s := After(Empty(now), first, pendingTtl, ttl);
    GrantInRun(s, more, t, u, pendingTtl, ttl);
    RunKeepsInv(s, more, pendingTtl, ttl);
    EndedIsPast(After(s, more, pendingTtl, ttl), t);
  }

  lemma EndedIsPast(s: State, t: Token)
    requires Inv(s) && t in s.ended
    ensures s.ended[t].Expired? ==> s.ended[t].expires <= s.now
  {
    assert CallerOk(s, t);
  }

  lemma EmptyInv(now: int)
    ensures Inv(Empty(now))
  {
  }

  /** Whatever happens, one slot never has two reservations that are both still standing. */
  lemma OneHolder(now: int, steps: seq<Step>, t: Token, u: Token, pendingTtl: nat, ttl: nat)
    requires IsRun(Empty(now), steps, pendingTtl, ttl)
    ensures var s := After(Empty(now), steps, pendingTtl, ttl);
            Holds(s, t) && Holds(s, u) && s.callers[t].slot == s.callers[u].slot && t !in s.ended && u !in s.ended ==> t == u
  {
    EmptyInv(now);
    RunKeepsInv(Empty(now), steps, pendingTtl, ttl);
    assert CallerOk(After(Empty(now), steps, pendingTtl, ttl), t) && CallerOk(After(Empty(now), steps, pendingTtl, ttl), u);
  }

  /** A caller whose reservation ended changes nothing by completing or releasing. */
  lemma SupersededIsInert(s: State, t: Token, r: Response, seen: int, pendingTtl: nat, ttl: nat)
    requires Inv(s) && t in s.ended && seen <= s.now
    ensures Enabled(s, Complete(t, r, seen)) && Apply(s, Complete(t, r, seen), pendingTtl, ttl) == s
    ensures Enabled(s, Release(t)) && Apply(s, Release(t), pendingTtl, ttl) == s
  {
    assert CallerOk(s, t) && RowOk(s, s.callers[t].slot);
  }

  /** A replay is the response the slot's own holder stored, and that holder never stores another. */
  lemma ReplayIsHolders(now: int, steps: seq<Step>, more: seq<Step>, t: Token, pendingTtl: nat, ttl: nat)
    requires IsRun(Empty(now), steps, pendingTtl, ttl)
    requires var s := After(Empty(now), steps, pendingTtl, ttl);
             t in s.callers && s.callers[t].pc.Done? && s.callers[t].pc.answer.Replay? && IsRun(s, more, pendingTtl, ttl)
    ensures var s := After(Empty(now), steps, pendingTtl, ttl);
            var a := s.callers[t].pc.answer;
            && Holds(s, a.holder) && s.callers[a.holder].slot == s.callers[t].slot
            && a.holder in s.stored && s.stored[a.holder] == a.response
            && a.holder in After(s, more, pendingTtl, ttl).stored && After(s, more, pendingTtl, ttl).stored[a.holder] == a.response
  {
    EmptyInv(now);
    RunKeepsInv(Empty(now), steps, pendingTtl, ttl);
    var s := After(Empty(now), steps, pendingTtl, ttl);
    assert CallerOk(s, t) && CallerOk(s, s.callers[t].pc.answer.holder);
    RunIsLater(s, more, pendingTtl, ttl);
  }
}

/** The store's own code, when no other caller's statement falls between its statements. */
module IdempotencyStore {
  import opened Common
  import opened Idempotency

  datatype Reservation = Won(id: Token) | Stored(response: Response) | Busy

  class Store {
    var rows: map<Slot, Row>
    const pendingTtl: nat
    const ttl: nat

    constructor (pendingTtl: nat, ttl: nat)
      ensures rows == map[] && this.pendingTtl == pendingTtl && this.ttl == ttl
    {
      rows := map[];
      this.pendingTtl, this.ttl := pendingTtl, ttl;
    }

    /** `clock` gives the instant each attempt reads. */
    method Reserve(slot: Slot, id: Token, clock: nat -> int) returns (r: Reservation)
      modifies this
      ensures slot !in old(rows) ==> r == Won(id) && rows == old(rows)[slot := Row(id, None, clock(0) + pendingTtl)]
      ensures slot in old(rows) && old(rows)[slot].expires <= clock(0) ==>
                r == Won(id) && rows == old(rows)[slot := Row(id, None, clock(1) + pendingTtl)]
      ensures slot in old(rows) && old(rows)[slot].expires > clock(0) ==>
                && rows == old(rows)
                && r == match old(rows)[slot].response { case Some(x) => Stored(x) case None => Busy }
    {
      for attempt := 0 to ATTEMPTS
        invariant attempt == 0 ==> rows == old(rows)
        invariant attempt == 1 ==>
                    && slot in old(rows) && old(rows)[slot].expires <= clock(0)
                    && rows == old(rows) - {slot}
        invariant attempt <= 1
      {
        var now := clock(attempt);
        if slot !in rows {
          rows := rows[slot := Row(id, None, now + pendingTtl)];
          assert old(rows) - {slot} + map[slot := rows[slot]] == old(rows)[slot := rows[slot]];
          return Won(id);
        }
        var row := rows[slot];
        if row.expires <= now {
          rows := rows - {slot};
          continue;
        }
        return match row.response { case Some(x) => Stored(x) case None => Busy };
      }
      return Busy;
    }

    method Complete(slot: Slot, id: Token, response: Response, now: int)
      modifies this
      ensures rows == if slot in old(rows) && old(rows)[slot].id == id && old(rows)[slot].response == None
                      then old(rows)[slot := Row(id, Some(response), now + ttl)] else old(rows)
    {
      if slot in rows && rows[slot].id == id && rows[slot].response == None {
        rows := rows[slot := Row(id, Some(response), now + ttl)];
      }
    }

    method Release(slot: Slot, id: Token)
      modifies this
      ensures rows == if slot in old(rows) && old(rows)[slot].id == id && old(rows)[slot].response == None
                      then old(rows) - {slot} else old(rows)
    {
      if slot in rows && rows[slot].id == id && rows[slot].response == None {
        rows := rows - {slot};
      }
    }

    method Cleanup(now: int) returns (deleted: nat)
      modifies this
      ensures rows == map x | x in old(rows) && old(rows)[x].expires > now :: old(rows)[x]
      ensures deleted == |old(rows)| - |rows|
    {
      deleted := 0;
      var todo := rows.Keys;
      while todo != {}
        invariant todo <= rows.Keys && |rows| + deleted == |old(rows)|
        invariant forall x :: x in rows <==> x in old(rows) && (x in todo || old(rows)[x].expires > now)
        invariant forall x :: x in rows ==> rows[x] == old(rows)[x]
        decreases |todo|
      {
        var x :| x in todo;
        if rows[x].expires <= now {
          ghost var was := rows;
          rows := rows - {x};
          assert rows.Keys == was.Keys - {x} && |rows| == |rows.Keys| && |was| == |was.Keys|;
          deleted := deleted + 1;
        }
        todo := todo - {x};
      }
    }
  }
}

/** The pool's serialised writer as a state machine: bodies are submitted, run one at a time, and settle. */
module WriteQueue {
  import opened Common

  /** A write body, numbered by its caller. */
  type Body = nat

  datatype State = State(
    closed: bool,
    writing: bool,
    queue: seq<Body>,
    accepted: seq<Body>,             // log: bodies taken on, in order
    started: seq<Body>,              // log: bodies started, in order
    finished: seq<Body>)             // log: bodies settled, in order

  datatype Step = Submit(body: Body) | Settle | Close

  /** The bodies that have started and not settled. */
  function Running(s: State): seq<Body> { if |s.finished| <= |s.started| then s.started[|s.finished|..] else [] }

  predicate Enabled(s: State, step: Step) { step.Settle? ==> Running(s) != [] }

  function SubmitBody(s: State, body: Body): State {
    if s.closed then s
    else
      var t := s.(accepted := s.accepted + [body]);
      if s.writing then t.(queue := s.queue + [body]) else t.(writing := true, started := s.started + [body])
  }

  /** The oldest running body settles, well or badly, and the next one starts. */
  function SettleBody(s: State): State
    requires Running(s) != []
  {
    var t := s.(finished := s.finished + [Running(s)[0]]);
    if s.queue == [] then t.(writing := false)
    else t.(started := s.started + [s.queue[0]], queue := s.queue[1..])
  }

  function Apply(s: State, step: Step): State
    requires Enabled(s, step)
  {
    match step
    case Submit(body) => SubmitBody(s, body)
    case Settle => SettleBody(s)
    case Close => s.(closed := true)
  }

  predicate IsRun(s: State, steps: seq<Step>)
    decreases |steps|
  {
    steps == [] || (Enabled(s, steps[0]) && IsRun(Apply(s, steps[0]), steps[1..]))
  }

  function After(s: State, steps: seq<Step>): State
    requires IsRun(s, steps)
    decreases |steps|
  {
    if steps == [] then s else After(Apply(s, steps[0]), steps[1..])
  }

  const EMPTY := State(false, false, [], [], [], [])

  ghost predicate Inv(s: State) {
    && s.accepted == s.started + s.queue && s.finished <= s.started
    && |Running(s)| == (if s.writing then 1 else 0) && (s.queue != [] ==> s.writing)
  }

  lemma StepKeepsInv(s: State, step: Step)
    requires Inv(s) && Enabled(s, step)
    ensures Inv(Apply(s, step))
  {
    var t := Apply(s, step);
    match step
    case Submit(body) =>
      assert !s.closed && s.writing ==> t.accepted == t.started + t.queue;
      assert !s.closed && !s.writing ==> t.started == s.started + [body] && s.finished == s.started;
    case Settle =>
      assert s.started == s.finished + Running(s);
      assert t.finished == s.started;
      if s.queue != [] { assert s.queue == [s.queue[0]] + s.queue[1..]; }
    case Close =>
  }

  lemma {:induction false} RunKeepsInv(s: State, steps: seq<Step>)
    requires Inv(s) && IsRun(s, steps)
    ensures Inv(After(s, steps))
    decreases |steps|
  {
    if steps != [] {
      StepKeepsInv(s, steps[0]);
      hide Inv, Enabled, Apply;
      RunKeepsInv(Apply(s, steps[0]), steps[1..]);
    }
  }

  /** Over every run of submissions, settlements and closing: bodies start and settle in the order they were
      accepted, at most one is running, and none waits while nothing runs. */
  lemma OneWriteAtATime(steps: seq<Step>)
    requires IsRun(EMPTY, steps)
    ensures var s := After(EMPTY, steps);
            && s.finished <= s.started <= s.accepted && s.accepted == s.started + s.queue
            && |s.started| - |s.finished| <= 1 && |Running(s)| <= 1
            && (Running(s) == [] ==> s.finished == s.started == s.accepted)
  {
    RunKeepsInv(EMPTY, steps);
  }

  /** Whatever is accepted can finish: settling the running bodies one after the other empties the queue. */
  lemma {:induction false} AllCanFinish(s: State) returns (steps: seq<Step>)
    requires Inv(s)
    ensures IsRun(s, steps) && After(s, steps).finished == s.accepted
    decreases |s.queue|, s.writing
  {
    if !s.writing {
      steps := [];
    } else {
      StepKeepsInv(s, Settle);
      var rest := AllCanFinish(Apply(s, Settle));
      steps := [Settle] + rest;
      assert steps[1..] == rest;
    }
  }
}

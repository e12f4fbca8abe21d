/**
 One agent's session supervisor: its event loop, the sessions it spawns with the goroutines that
 drain their event streams, and the operator's model and effort changes. The machine's steps
 interleave freely; the object below carries out the loop's share of them.
 */
module Supervision {
  import opened Options

  // ---------------------------------------------------------------- sessions and the loop's state

  /** A spawned session: what it runs with, its event stream, and the goroutine draining that stream. */
  datatype Session = Session(
    model: string, effort: string,
    open: bool,      // the event stream has not ended
    poking: bool,    // the goroutine has seen a turn end and not yet said so
    drained: bool)   // the goroutine has closed its dead channel

  datatype State = State(
    sessions: seq<Session>,       // every session ever spawned
    sess: Option<nat>,
    sessCancel: Option<nat>,      // the session whose context it cancels
    dead: Option<nat>,            // the session whose dead channel it is
    pendingReconfig: bool,
    working: bool,
    turnDone: bool,               // the one-slot turn-done channel is full
    model: string, effort: string,
    done: bool)                   // the loop has returned

  function Asleep(model: string, effort: string): State {
    State([], None, None, None, false, false, false, model, effort, false)
  }

  /** Cancelling a session's context, or closing it, ends its stream. */
  function Closed(sessions: seq<Session>, which: Option<nat>): seq<Session> {
    if which.Some? && which.value < |sessions|
    then sessions[which.value := sessions[which.value].(open := false)]
    else sessions
  }

  /** An empty field of a request leaves that field unchanged. */
  function Chosen(requested: string, current: string): string {
    if requested == "" then current else requested
  }

  function WakeUp(s: State, spawns: bool): State {
    if s.sess.Some? || !spawns then s
    else
      var i := |s.sessions|;
      s.(sessions := s.sessions + [Session(s.model, s.effort, true, false, false)],
         sess := Some(i), sessCancel := Some(i), dead := Some(i), pendingReconfig := false)
  }

  function Sleep(s: State): State {
    if s.sess.None? then s
    else s.(sessions := Closed(Closed(s.sessions, s.sessCancel), s.sess),
            sess := None, sessCancel := None, working := false)
  }

  function Respawn(s: State, spawns: bool): State {
    WakeUp(s.(sessions := Closed(Closed(s.sessions, s.sessCancel), s.sess),
              sess := None, sessCancel := None, dead := None, working := false), spawns)
  }

  function MaybeRespawn(s: State, spawns: bool): State {
    if !s.pendingReconfig then s
    else if s.sess.None? then s.(pendingReconfig := false)
    else if s.working then s
    else Respawn(s, spawns)
  }

  /** A session that takes a live change adopts the fields it names. */
  function Adopt(s: State, model: string, effort: string): State {
    if s.sess.Some? && s.sess.value < |s.sessions| then
      var t := s.sessions[s.sess.value];
      s.(sessions := s.sessions[s.sess.value :=
           t.(model := Chosen(model, t.model), effort := Chosen(effort, t.effort))],
         pendingReconfig := false)
    else s
  }

  function ApplyReconfig(s: State, model: string, effort: string, accepts: bool, spawns: bool): State {
    var wanted := s.(model := Chosen(model, s.model), effort := Chosen(effort, s.effort));
    if s.sess.Some? && accepts then Adopt(wanted, model, effort)
    else MaybeRespawn(wanted.(pendingReconfig := true), spawns)
  }

  // ---------------------------------------------------------------- steps

  datatype Message =
    | Interrupt(refused: bool)    // the session cannot cancel a turn in-band
    | ContextOnly                 // marked no-wake, or refused by the waker
    | WakeWorthy(spawns: bool)

  datatype Step =
    // the loop
    | Start(spawns: bool)
    | Dead
    | Tick(quiet: bool)           // nothing has happened for the idle period
    | Reconfig(model: string, effort: string, accepts: bool, spawns: bool)
    | TurnDone(spawns: bool)
    | Deliver(msg: Message)
    | Cancelled
    | InboxClosed
    // session i and its goroutine
    | StreamEnds(i: nat)
    | Event(i: nat, turnDone: bool)
    | Poke(i: nat)
    | Drain(i: nat)

  predicate OfLoop(step: Step) {
    !step.StreamEnds? && !step.Event? && !step.Poke? && !step.Drain?
  }

  predicate Enabled(s: State, step: Step) {
    && (OfLoop(step) ==> !s.done)
    && match step
       case Dead => s.dead.Some? && s.dead.value < |s.sessions| && s.sessions[s.dead.value].drained
       case TurnDone(_) => s.turnDone
       case StreamEnds(i) => i < |s.sessions|
       case Event(i, _) => i < |s.sessions| && !s.sessions[i].drained && !s.sessions[i].poking
       case Poke(i) => i < |s.sessions| && s.sessions[i].poking
       case Drain(i) => i < |s.sessions| && !s.sessions[i].open && !s.sessions[i].poking
       case _ => true
  }

  function Next(s: State, step: Step): State
    requires Enabled(s, step)
  {
    match step
    case Start(spawns) => WakeUp(s, spawns)
    case Dead =>
      if s.sess.Some? then s.(sess := None, sessCancel := None, dead := None) // a crash
      else s.(dead := None)
    case Tick(quiet) => if quiet && !s.working then Sleep(s) else s
    case Reconfig(model, effort, accepts, spawns) => ApplyReconfig(s, model, effort, accepts, spawns)
    case TurnDone(spawns) => MaybeRespawn(s.(turnDone := false), spawns)
    case Deliver(Interrupt(refused)) => if refused then Sleep(s) else s
    case Deliver(ContextOnly) => s
    case Deliver(WakeWorthy(spawns)) =>
      var awake := WakeUp(s, spawns);
      if awake.sess.Some? then awake.(working := true) else awake
    case Cancelled => s.(sessions := Closed(Closed(s.sessions, s.sessCancel), s.sess), done := true)
    case InboxClosed => s.(sessions := Closed(s.sessions, s.sessCancel), done := true)
    case StreamEnds(i) => s.(sessions := Closed(s.sessions, Some(i)))
    case Event(i, turnDone) =>
      s.(sessions := s.sessions[i := s.sessions[i].(poking := turnDone)], working := !turnDone)
    case Poke(i) => s.(sessions := s.sessions[i := s.sessions[i].(poking := false)], turnDone := true)
    case Drain(i) => s.(sessions := s.sessions[i := s.sessions[i].(drained := true)])
  }

  predicate Run(s: State, steps: seq<Step>)
    decreases |steps|
  {
    |steps| > 0 ==> Enabled(s, steps[0]) && Run(Next(s, steps[0]), steps[1..])
  }

  function After(s: State, steps: seq<Step>): State
    requires Run(s, steps)
    decreases |steps|
  {
    if |steps| == 0 then s else After(Next(s, steps[0]), steps[1..])
  }

  // ---------------------------------------------------------------- what every run keeps

  /** Only the current session's stream is open, and its dead channel is the one listened to. */
  ghost predicate OneSession(s: State) {
    && s.sessCancel == s.sess
    && (s.sess.Some? ==> s.sess.value < |s.sessions| && s.dead == s.sess)
    && (s.dead.Some? ==> s.dead.value < |s.sessions|)
    && (forall i :: 0 <= i < |s.sessions| && s.sessions[i].open ==> s.sess == Some(i) && !s.done)
    && (forall i :: 0 <= i < |s.sessions| && s.sessions[i].drained ==> !s.sessions[i].open)
  }

  ghost predicate AboutToPoke(s: State) {
    exists i :: 0 <= i < |s.sessions| && s.sessions[i].poking
  }

  /** A deferred change waits only for a turn to end: an idle session has its turn-done signal coming. */
  ghost predicate RespawnIsComing(s: State) {
    s.pendingReconfig && s.sess.Some? && !s.working && !s.done ==> s.turnDone || AboutToPoke(s)
  }

  ghost predicate Inv(s: State) { OneSession(s) && RespawnIsComing(s) }

  /** The running session carries the model and effort last asked for, or a respawn will see to it. */
  predicate UpToDate(s: State) {
    s.sess.Some? && s.sess.value < |s.sessions| && !s.pendingReconfig ==>
      s.sessions[s.sess.value].model == s.model && s.sessions[s.sess.value].effort == s.effort
  }

  /** The current session takes this change live. */
  predicate LandsLive(s: State, step: Step) { step.Reconfig? && step.accepts && s.sess.Some? }

  /** A live change landing on a deferred one that set a field this one does not name. */
  predicate DropsDeferred(s: State, step: Step) {
    && LandsLive(s, step) && s.pendingReconfig && s.sess.value < |s.sessions|
    && var t := s.sessions[s.sess.value];
       (step.model == "" && t.model != s.model) || (step.effort == "" && t.effort != s.effort)
  }

  lemma WakeUpKeepsOne(s: State, spawns: bool)
    requires OneSession(s) && !s.done
    ensures OneSession(WakeUp(s, spawns))
  {
  }

  lemma RespawnKeepsOne(s: State, spawns: bool)
    requires OneSession(s) && !s.done
    ensures OneSession(Respawn(s, spawns))
  {
    var down := s.(sessions := Closed(Closed(s.sessions, s.sessCancel), s.sess),
                   sess := None, sessCancel := None, dead := None, working := false);
    assert OneSession(down);
    hide OneSession;
    WakeUpKeepsOne(down, spawns);
  }

  lemma MaybeRespawnKeepsOne(s: State, spawns: bool)
    requires OneSession(s) && !s.done
    ensures OneSession(MaybeRespawn(s, spawns))
  {
    hide Respawn;
    RespawnKeepsOne(s, spawns);
  }

  lemma SleepKeepsOne(s: State)
    requires OneSession(s) && !s.done
    ensures OneSession(Sleep(s))
  {
  }

  lemma SessionStepKeepsOne(s: State, step: Step)
    requires OneSession(s) && Enabled(s, step) && !OfLoop(step)
    ensures OneSession(Next(s, step))
  {
  }

  lemma ReconfigKeepsOne(s: State, model: string, effort: string, accepts: bool, spawns: bool)
    requires OneSession(s) && !s.done
    ensures OneSession(ApplyReconfig(s, model, effort, accepts, spawns))
  {
    hide MaybeRespawn;
    var wanted := s.(model := Chosen(model, s.model), effort := Chosen(effort, s.effort));
    MaybeRespawnKeepsOne(wanted.(pendingReconfig := true), spawns);
  }

  lemma NextKeepsOneSession(s: State, step: Step)
    requires OneSession(s) && Enabled(s, step)
    ensures OneSession(Next(s, step))
  {
    hide MaybeRespawn, WakeUp, Sleep, ApplyReconfig;
    if OfLoop(step) {
      match step
      case Start(spawns) => WakeUpKeepsOne(s, spawns);
      case Tick(_) => SleepKeepsOne(s);
      case Reconfig(model, effort, accepts, spawns) => ReconfigKeepsOne(s, model, effort, accepts, spawns);
      case TurnDone(spawns) => MaybeRespawnKeepsOne(s.(turnDone := false), spawns);
      case Deliver(Interrupt(_)) => SleepKeepsOne(s);
      case Deliver(WakeWorthy(spawns)) => WakeUpKeepsOne(s, spawns);
      case _ =>
    } else {
      hide Next;
      SessionStepKeepsOne(s, step);
    }
  }

  /** A deferred change is taken up at once when the session is idle. */
  lemma NothingIdleIsPending(s: State, spawns: bool)
    ensures
      var s' := MaybeRespawn(s, spawns);
      && (s'.pendingReconfig && s'.sess.Some? ==> s'.working)
      && (s.pendingReconfig || s.sess.None? || s' == s)
  {
  }

  lemma SessionStepKeepsComing(s: State, step: Step)
    requires Inv(s) && Enabled(s, step) && !OfLoop(step)
    ensures RespawnIsComing(Next(s, step))
  {
    var s' := Next(s, step);
    if AboutToPoke(s) {
      var i :| 0 <= i < |s.sessions| && s.sessions[i].poking;
      if !step.Poke? {
        assert s'.sessions[i].poking;
      }
    }
    if step.Event? && step.turnDone {
      assert s'.sessions[step.i].poking;
    }
  }

  /** The loop changes no goroutine, and what it leaves pending at rest was pending at rest before. */
  lemma LoopStepKeepsComing(s: State, step: Step)
    requires Inv(s) && Enabled(s, step) && OfLoop(step)
    ensures RespawnIsComing(Next(s, step))
  {
    hide MaybeRespawn;
    var s' := Next(s, step);
    match step
    case Reconfig(model, effort, _, spawns) =>
      var wanted := s.(model := Chosen(model, s.model), effort := Chosen(effort, s.effort));
      NothingIdleIsPending(wanted.(pendingReconfig := true), spawns);
    case TurnDone(spawns) => NothingIdleIsPending(s.(turnDone := false), spawns);
    case _ => SameGoroutines(s, step);
  }

  lemma SameGoroutines(s: State, step: Step)
    requires OneSession(s) && Enabled(s, step) && OfLoop(step) && !step.Reconfig? && !step.TurnDone?
    ensures AboutToPoke(s) ==> AboutToPoke(Next(s, step))
  {
    if AboutToPoke(s) {
      var i :| 0 <= i < |s.sessions| && s.sessions[i].poking;
      assert Next(s, step).sessions[i].poking;
    }
  }

  lemma NextKeepsInv(s: State, step: Step)
    requires Inv(s) && Enabled(s, step)
    ensures Inv(Next(s, step))
  {
    NextKeepsOneSession(s, step);
    hide Next, OneSession, RespawnIsComing;
    if OfLoop(step) {
      LoopStepKeepsComing(s, step);
    } else {
      SessionStepKeepsComing(s, step);
    }
  }

  /** One step leaves the session up to date exactly when it does not drop a deferred change. */
  lemma UpToDateExactly(s: State, step: Step)
    requires OneSession(s) && UpToDate(s) && Enabled(s, step)
    ensures UpToDate(Next(s, step)) <==> !DropsDeferred(s, step)
  {
    hide MaybeRespawn, Adopt, Sleep, DropsDeferred;
    if !step.Reconfig? {
      OnlyReconfigDrops(s, step);
    }
    match step
    case Reconfig(_, _, _, _) => ReconfigUpToDateExactly(s, step);
    case TurnDone(spawns) => MaybeRespawnUpToDate(s.(turnDone := false), spawns);
    case Tick(_) => SleepUpToDate(s);
    case Deliver(Interrupt(_)) => SleepUpToDate(s);
    case _ =>
  }

  lemma OnlyReconfigDrops(s: State, step: Step)
    requires !step.Reconfig?
    ensures !DropsDeferred(s, step)
  {
  }

  lemma SleepUpToDate(s: State)
    requires UpToDate(s)
    ensures UpToDate(Sleep(s))
  {
  }

  lemma MaybeRespawnUpToDate(s: State, spawns: bool)
    requires UpToDate(s) || s.pendingReconfig
    ensures UpToDate(MaybeRespawn(s, spawns))
  {
  }

  lemma ReconfigUpToDateExactly(s: State, step: Step)
    requires OneSession(s) && UpToDate(s) && Enabled(s, step) && step.Reconfig?
    ensures UpToDate(Next(s, step)) <==> !DropsDeferred(s, step)
  {
    hide MaybeRespawn;
    if !LandsLive(s, step) {
      var wanted := s.(model := Chosen(step.model, s.model), effort := Chosen(step.effort, s.effort));
      MaybeRespawnUpToDate(wanted.(pendingReconfig := true), step.spawns);
    }
  }

  lemma {:induction false} RunKeepsInv(s: State, steps: seq<Step>)
    requires Inv(s) && Run(s, steps)
    ensures Inv(After(s, steps))
    decreases |steps|
  {
    if |steps| > 0 {
      NextKeepsInv(s, steps[0]);
      RunKeepsInv(Next(s, steps[0]), steps[1..]);
    }
  }

  // ---------------------------------------------------------------- the guarantees

  /** In every run, at most one session has an open stream, and none once the loop has returned. */
  lemma AtMostOneStream(model: string, effort: string, steps: seq<Step>, i: nat, j: nat)
    requires Run(Asleep(model, effort), steps)
    requires i < |After(Asleep(model, effort), steps).sessions| && j < |After(Asleep(model, effort), steps).sessions|
    requires After(Asleep(model, effort), steps).sessions[i].open
    ensures !After(Asleep(model, effort), steps).done
    ensures After(Asleep(model, effort), steps).sessions[j].open ==> i == j
  {
    RunKeepsInv(Asleep(model, effort), steps);
  }

  /** A session is given up as crashed only when its own stream has ended. */
  lemma CrashIsItsOwn(model: string, effort: string, steps: seq<Step>)
    requires Run(Asleep(model, effort), steps)
    requires After(Asleep(model, effort), steps).sess.Some?
    requires Enabled(After(Asleep(model, effort), steps), Dead)
    ensures
      var s := After(Asleep(model, effort), steps);
      s.dead == s.sess && s.sess.value < |s.sessions| && !s.sessions[s.sess.value].open
  {
    RunKeepsInv(Asleep(model, effort), steps);
  }

  /** No step of the run drops a deferred change. */
  predicate DropsNothing(s: State, steps: seq<Step>)
    requires Run(s, steps)
    decreases |steps|
  {
    |steps| > 0 ==> !DropsDeferred(s, steps[0]) && DropsNothing(Next(s, steps[0]), steps[1..])
  }

  /** With no respawn pending, the session carries the latest requested model and effort. */
  lemma {:induction false} SessionIsCurrent(s: State, steps: seq<Step>)
    requires Inv(s) && UpToDate(s) && Run(s, steps) && DropsNothing(s, steps)
    ensures UpToDate(After(s, steps))
    decreases |steps|
  {
    if |steps| > 0 {
      UpToDateExactly(s, steps[0]);
      NextKeepsInv(s, steps[0]);
      SessionIsCurrent(Next(s, steps[0]), steps[1..]);
    }
  }

  /** Once the turn-done signal is handled at rest, nothing is pending on a running session. */
  lemma DeferredChangeLands(s: State, spawns: bool)
    requires Inv(s) && UpToDate(s) && Enabled(s, TurnDone(spawns)) && !s.working
    ensures
      var s' := Next(s, TurnDone(spawns));
      s'.sess.Some? ==>
        && !s'.pendingReconfig
        && s'.sessions[s'.sess.value].model == s.model && s'.sessions[s'.sess.value].effort == s.effort
  {
  }

  /**
   A deferred change of effort, then a live change of model alone: the live one clears the pending
   respawn, and the session keeps the old effort after the turn ends.
   */
  lemma LiveChangeDropsDeferredOne()
    ensures
      var start := Asleep("m", "low");
      var steps := [Start(true), Deliver(WakeWorthy(true)), Reconfig("", "high", false, true),
                    Reconfig("n", "", true, true), Event(0, true), Poke(0), TurnDone(true)];
      && Run(start, steps)
      && After(start, steps) ==
           Awake(Session("n", "low", true, false, false), "n", "high")
  {
    hide Run, After;
    var s1 := Awake(Session("m", "low", true, false, false), "m", "low");
    var s2 := s1.(working := true);
    var s3 := s2.(effort := "high", pendingReconfig := true);
    var tail := [Reconfig("n", "", true, true), Event(0, true), Poke(0), TurnDone(true)];
    var end := Awake(Session("n", "low", true, false, false), "n", "high");
    LiveChangeTail(s3);
    RunCons(s2, Reconfig("", "high", false, true), s3, tail, end);
    RunCons(s1, Deliver(WakeWorthy(true)), s2, [Reconfig("", "high", false, true)] + tail, end);
    RunCons(Asleep("m", "low"), Start(true), s1,
            [Deliver(WakeWorthy(true))] + ([Reconfig("", "high", false, true)] + tail), end);
    assert [Start(true)] + ([Deliver(WakeWorthy(true))] + ([Reconfig("", "high", false, true)] + tail))
        == [Start(true), Deliver(WakeWorthy(true)), Reconfig("", "high", false, true),
            Reconfig("n", "", true, true), Event(0, true), Poke(0), TurnDone(true)];
  }

  lemma LiveChangeTail(s: State)
    requires s == Awake(Session("m", "low", true, false, false), "m", "high").(working := true, pendingReconfig := true)
    ensures
      var tail := [Reconfig("n", "", true, true), Event(0, true), Poke(0), TurnDone(true)];
      && Run(s, tail)
      && After(s, tail) == Awake(Session("n", "low", true, false, false), "n", "high")
  {
    hide Run, After;
    var end := Awake(Session("n", "low", true, false, false), "n", "high");
    var poking := Awake(Session("n", "low", true, true, false), "n", "high");
    RunNil(end);
    RunCons(end.(turnDone := true), TurnDone(true), end, [], end);
    assert [TurnDone(true)] + [] == [TurnDone(true)];
    RunCons(poking, Poke(0), end.(turnDone := true), [TurnDone(true)], end);
    RunCons(end.(working := true), Event(0, true), poking, [Poke(0)] + [TurnDone(true)], end);
    RunCons(s, Reconfig("n", "", true, true), end.(working := true),
            [Event(0, true)] + ([Poke(0)] + [TurnDone(true)]), end);
    assert [Reconfig("n", "", true, true)] + ([Event(0, true)] + ([Poke(0)] + [TurnDone(true)]))
        == [Reconfig("n", "", true, true), Event(0, true), Poke(0), TurnDone(true)];
  }

  /** At rest with one session, its first. */
  function Awake(session: Session, model: string, effort: string): State {
    State([session], Some(0), Some(0), Some(0), false, false, false, model, effort, false)
  }

  lemma RunNil(s: State)
    ensures Run(s, []) && After(s, []) == s
  {
  }

  lemma RunCons(s: State, step: Step, s': State, rest: seq<Step>, end: State)
    requires Enabled(s, step) && Next(s, step) == s'
    requires Run(s', rest) && After(s', rest) == end
    ensures Run(s, [step] + rest) && After(s, [step] + rest) == end
  {
    assert ([step] + rest)[1..] == rest;
  }

  // ---------------------------------------------------------------- what each turn of the loop does

  /** A session spawned on top of the others, with the wanted model and effort and an open stream. */
  predicate SpawnedOn(before: seq<Session>, s: State) {
    && s.sessions == before + [Session(s.model, s.effort, true, false, false)]
    && s.sess == Some(|before|) && s.sessCancel == Some(|before|) && s.dead == Some(|before|)
    && !s.pendingReconfig
  }

  /** The sessions are the same, and none of them has an open stream. */
  predicate AllEnded(before: seq<Session>, after: seq<Session>) {
    && |after| == |before|
    && forall i :: 0 <= i < |before| ==> after[i] == before[i].(open := false)
  }

  /**
   A wake-worthy message: a sleeping agent gets a session with the wanted settings and starts a turn; if
   the spawn fails it goes on sleeping; an agent that is awake just starts a turn.
   */
  lemma MessageWakes(s: State, spawns: bool)
    requires Inv(s) && !s.done
    ensures
      var s' := Next(s, Deliver(WakeWorthy(spawns)));
      && (s.sess.None? && spawns ==>
            && SpawnedOn(s.sessions, s') && s'.working
            && s'.model == s.model && s'.effort == s.effort && s'.turnDone == s.turnDone && !s'.done)
      && (s.sess.None? && !spawns ==> s' == s)
      && (s.sess.Some? ==> s' == s.(working := true))
  {
  }

  /** The loop begins with a session, if it can be spawned. */
  lemma StartSpawns(s: State, spawns: bool)
    requires Inv(s) && !s.done
    ensures s.sess.None? && spawns ==>
      SpawnedOn(s.sessions, Next(s, Start(spawns))) && Next(s, Start(spawns)).working == s.working
    ensures s.sess.Some? || !spawns ==> Next(s, Start(spawns)) == s
  {
  }

  /** An event starts or ends a turn; the end of a turn is then signalled. */
  lemma EventsMakeTurns(s: State, i: nat, turnDone: bool)
    requires Inv(s) && Enabled(s, Event(i, turnDone))
    ensures
      var s' := Next(s, Event(i, turnDone));
      && s'.working == !turnDone
      && (turnDone ==> Enabled(s', Poke(i)) && Next(s', Poke(i)).turnDone && Next(s', Poke(i)).working == s'.working)
      && (!turnDone ==> s' == s.(working := true))
  {
  }

  /** No other message wakes it; an interrupt the session refuses puts it to sleep. */
  lemma OtherMessagesDoNotWake(s: State)
    requires Inv(s) && !s.done
    ensures Next(s, Deliver(ContextOnly)) == s && Next(s, Deliver(Interrupt(false))) == s
    ensures s.sess.None? ==> Next(s, Deliver(Interrupt(true))) == s
    ensures s.sess.Some? ==> FallsAsleep(s, Next(s, Deliver(Interrupt(true))))
  {
  }

  /** The session is closed and given up; what was deferred waits for the next one. */
  predicate FallsAsleep(s: State, s': State) {
    && s'.sess.None? && s'.sessCancel.None? && !s'.working && AllEnded(s.sessions, s'.sessions)
    && s' == s.(sess := None, sessCancel := None, working := false, sessions := s'.sessions)
  }

  /** An agent falls asleep on a tick exactly when it is awake, quiet and not in mid-turn. */
  lemma TickSleepsExactly(s: State, quiet: bool)
    requires Inv(s) && !s.done
    ensures quiet && !s.working && s.sess.Some? ==> FallsAsleep(s, Next(s, Tick(quiet)))
    ensures !(quiet && !s.working && s.sess.Some?) ==> Next(s, Tick(quiet)) == s
  {
  }

  /** A crash is noticed: once the current session's stream has ended and is drained, its channel is dead. */
  lemma CrashIsNoticed(s: State)
    requires Inv(s) && !s.done && s.sess.Some? && !s.sessions[s.sess.value].poking
    ensures
      var i := s.sess.value;
      var ended := Next(s, StreamEnds(i));
      && !ended.sessions[i].open && ended.sess == s.sess && Enabled(ended, Drain(i))
      && Enabled(Next(ended, Drain(i)), Dead) && Next(ended, Drain(i)).sess == s.sess
      && Next(Next(ended, Drain(i)), Dead).sess == None
  {
  }

  /** A dead channel is no longer listened to; if it was the current session's, that one is given up. */
  lemma CrashIsGivenUp(s: State)
    requires Inv(s) && Enabled(s, Dead)
    ensures Next(s, Dead) == s.(sess := None, sessCancel := None, dead := None)
  {
  }

  /** The session restarts with the wanted settings, or, if that fails, the agent is left asleep. */
  predicate Restarts(s: State, s': State, spawns: bool) {
    && |s'.sessions| >= |s.sessions| && AllEnded(s.sessions, s'.sessions[..|s.sessions|]) && !s'.working
    && (spawns ==> SpawnedOn(s'.sessions[..|s.sessions|], s'))
    && (!spawns ==> |s'.sessions| == |s.sessions| && s'.sess.None? && s'.dead.None? && s'.pendingReconfig)
    && s'.model == s.model && s'.effort == s.effort && s'.done == s.done
  }

  /** At the end of a turn a deferred change is applied exactly when there is one and no turn is under way. */
  lemma TurnEndApplies(s: State, spawns: bool)
    requires Inv(s) && Enabled(s, TurnDone(spawns))
    ensures
      var s' := Next(s, TurnDone(spawns));
      && !s'.turnDone
      && (!s.pendingReconfig || (s.sess.Some? && s.working) ==> s' == s.(turnDone := false))
      && (s.pendingReconfig && s.sess.None? ==> s' == s.(turnDone := false, pendingReconfig := false))
      && (s.pendingReconfig && s.sess.Some? && !s.working ==> Restarts(s, s', spawns))
  {
  }

  /** The fields a request names are the wanted ones; the others stay wanted. */
  predicate Wants(s: State, model: string, effort: string, s': State) {
    && s'.model == (if model != "" then model else s.model)
    && s'.effort == (if effort != "" then effort else s.effort)
  }

  /**
   A change that the session takes live: the session carries the named fields, and nothing is deferred.
   Otherwise it waits for the next session if the agent sleeps, for the end of the turn if one is under
   way, and else the session restarts at once.
   */
  lemma ReconfigLands(s: State, model: string, effort: string, accepts: bool, spawns: bool)
    requires Inv(s) && !s.done
    ensures
      var s' := Next(s, Reconfig(model, effort, accepts, spawns));
      && Wants(s, model, effort, s') && s'.turnDone == s.turnDone
      && (s.sess.Some? && accepts ==>
            && !s'.pendingReconfig && s'.sess == s.sess && s'.working == s.working && |s'.sessions| == |s.sessions|
            && var was, now := s.sessions[s.sess.value], s'.sessions[s.sess.value];
               && now.model == (if model != "" then model else was.model)
               && now.effort == (if effort != "" then effort else was.effort)
               && now.open == was.open)
      && (s.sess.None? ==> s'.sess.None? && s'.sessions == s.sessions && !s'.pendingReconfig)
      && (s.sess.Some? && !accepts && s.working ==>
            s'.sess == s.sess && s'.sessions == s.sessions && s'.pendingReconfig && s'.working)
      && (s.sess.Some? && !accepts && !s.working ==> Restarts(s.(model := s'.model, effort := s'.effort), s', spawns))
  {
  }

  /** When the loop returns, no stream is open. */
  lemma ReturningEndsStreams(s: State, step: Step)
    requires Inv(s) && Enabled(s, step) && (step.Cancelled? || step.InboxClosed?)
    ensures Next(s, step).done && AllEnded(s.sessions, Next(s, step).sessions)
  {
  }

  // ---------------------------------------------------------------- whole runs of it

  function LatestModel(model: string, steps: seq<Step>): string
    decreases |steps|
  {
    if |steps| == 0 then model
    else LatestModel(if steps[0].Reconfig? && steps[0].model != "" then steps[0].model else model, steps[1..])
  }

  function LatestEffort(effort: string, steps: seq<Step>): string
    decreases |steps|
  {
    if |steps| == 0 then effort
    else LatestEffort(if steps[0].Reconfig? && steps[0].effort != "" then steps[0].effort else effort, steps[1..])
  }

  /** Over every run the wanted settings are the ones last asked for. */
  lemma {:induction false} WantedIsLatest(s: State, steps: seq<Step>)
    requires Run(s, steps)
    ensures After(s, steps).model == LatestModel(s.model, steps)
    ensures After(s, steps).effort == LatestEffort(s.effort, steps)
    decreases |steps|
  {
    if |steps| > 0 {
      OneStepWants(s, steps[0]);
      hide Next;
      WantedIsLatest(Next(s, steps[0]), steps[1..]);
    }
  }

  lemma OneStepWants(s: State, step: Step)
    requires Enabled(s, step)
    ensures step.Reconfig? ==> Wants(s, step.model, step.effort, Next(s, step))
    ensures !step.Reconfig? ==> Next(s, step).model == s.model && Next(s, step).effort == s.effort
  {
  }

  /**
   In every run: after a crash or a sleep, the next wake-worthy message whose spawn succeeds leaves the
   agent in a turn with exactly one open stream, that of a session with the settings last asked for.
   */
  lemma NextMessageWakes(model: string, effort: string, steps: seq<Step>)
    requires Run(Asleep(model, effort), steps)
    requires After(Asleep(model, effort), steps).sess.None? && !After(Asleep(model, effort), steps).done
    ensures
      var s := After(Asleep(model, effort), steps);
      var s' := Next(s, Deliver(WakeWorthy(true)));
      && s'.working && s'.sess == Some(|s.sessions|) && |s'.sessions| == |s.sessions| + 1
      && s'.sessions[|s.sessions|].model == LatestModel(model, steps)
      && s'.sessions[|s.sessions|].effort == LatestEffort(effort, steps)
      && forall i :: 0 <= i < |s'.sessions| ==> (s'.sessions[i].open <==> i == |s.sessions|)
  {
    RunKeepsInv(Asleep(model, effort), steps);
    WantedIsLatest(Asleep(model, effort), steps);
    MessageWakes(After(Asleep(model, effort), steps), true);
    hide Next, After, Run, LatestModel, LatestEffort;
  }

  // ---------------------------------------------------------------- the loop, in place

  class Supervisor {
    var sessions: seq<Session>
    var sess: Option<nat>
    var sessCancel: Option<nat>
    var dead: Option<nat>
    var pendingReconfig: bool
    var working: bool
    var turnDone: bool
    var model: string
    var effort: string
    var done: bool

    function Now(): State
      reads this
    {
      State(sessions, sess, sessCancel, dead, pendingReconfig, working, turnDone, model, effort, done)
    }

    ghost predicate Valid()
      reads this
    {
      Inv(Now())
    }

    constructor (model: string, effort: string)
      ensures Valid() && Now() == Asleep(model, effort)
    {
      this.model, this.effort := model, effort;
      sessions, sess, sessCancel, dead := [], None, None, None;
      pendingReconfig, working, turnDone, done := false, false, false, false;
    }

    /** Spawn a session if asleep; whether there is one now. `spawns` is how the spawn would go. */
    method WakeUpNow(spawns: bool) returns (awake: bool)
      modifies this
      ensures Now() == WakeUp(old(Now()), spawns) && (awake <==> sess.Some?)
    {
      if sess.Some? {
        return true;
      }
      if !spawns {
        return false;
      }
      sess, sessCancel := Some(|sessions|), Some(|sessions|);
      sessions := sessions + [Session(model, effort, true, false, false)];
      dead := sess;
      pendingReconfig := false; // a spawn takes the wanted settings along
      return true;
    }

    method CloseSession(which: Option<nat>)
      modifies this`sessions
      ensures sessions == Closed(old(sessions), which)
    {
      if which.Some? && which.value < |sessions| {
        sessions := sessions[which.value := sessions[which.value].(open := false)];
      }
    }

    /** Put the agent to sleep; its session's dead channel is still listened to. */
    method SleepNow()
      modifies this
      ensures Now() == Sleep(old(Now()))
    {
      if sess.None? {
        return;
      }
      var cancel, toClose := sessCancel, sess;
      sess, sessCancel := None, None;
      CloseSession(cancel);
      CloseSession(toClose);
      working := false;
    }

    method RespawnNow(spawns: bool)
      modifies this
      ensures Now() == Respawn(old(Now()), spawns)
    {
      CloseSession(sessCancel);
      CloseSession(sess);
      sess, sessCancel, dead := None, None, None;
      working := false;
      var _ := WakeUpNow(spawns);
    }

    method MaybeRespawnNow(spawns: bool)
      modifies this
      ensures Now() == MaybeRespawn(old(Now()), spawns)
    {
      if !pendingReconfig {
        return;
      }
      if sess.None? {
        pendingReconfig := false;
        return;
      }
      if !working {
        RespawnNow(spawns);
      }
    }

    method ApplyReconfigNow(newModel: string, newEffort: string, accepts: bool, spawns: bool)
      requires Valid()
      modifies this
      ensures Now() == ApplyReconfig(old(Now()), newModel, newEffort, accepts, spawns)
    {
      if newModel != "" {
        model := newModel;
      }
      if newEffort != "" {
        effort := newEffort;
      }
      if sess.Some? && accepts {
        var t := sessions[sess.value];
        sessions := sessions[sess.value :=
          t.(model := Chosen(newModel, t.model), effort := Chosen(newEffort, t.effort))];
        pendingReconfig := false;
        return;
      }
      pendingReconfig := true;
      MaybeRespawnNow(spawns);
    }

    /** One turn of the select loop. */
    method Handle(step: Step)
      requires Valid() && OfLoop(step) && Enabled(Now(), step)
      modifies this
      ensures Valid() && Now() == Next(old(Now()), step)
    {
      NextKeepsInv(Now(), step);
      hide Inv, WakeUp, Sleep, MaybeRespawn, ApplyReconfig;
      match step {
        case Start(spawns) =>
          var _ := WakeUpNow(spawns);
        case Dead =>
          if sess.Some? {
            sess, sessCancel, dead := None, None, None;
          } else {
            dead := None;
          }
        case Tick(quiet) =>
          if quiet && !working {
            SleepNow();
          }
        case Reconfig(newModel, newEffort, accepts, spawns) =>
          ApplyReconfigNow(newModel, newEffort, accepts, spawns);
        case TurnDone(spawns) =>
          turnDone := false;
          MaybeRespawnNow(spawns);
        case Deliver(Interrupt(refused)) =>
          if refused {
            SleepNow();
          }
        case Deliver(ContextOnly) =>
        case Deliver(WakeWorthy(spawns)) =>
          var awake := WakeUpNow(spawns);
          if awake {
            working := true;
          }
        case Cancelled =>
          CloseSession(sessCancel);
          CloseSession(sess);
          done := true;
        case InboxClosed =>
          CloseSession(sessCancel);
          done := true;
      }
    }
  }
}

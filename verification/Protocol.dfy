/**
 The sync protocol as a state machine: any number of clients against one hub, remote ones and core's
 own in-process ones. A client's SyncUp is split where other clients can get in between: the scan,
 each single push, the handling of the answers. Local edits happen at any time, agents resolve
 conflicts at the hub at any time.
 */
module Protocol {
  import opened Text
  import opened FileHub
  import opened Scan
  import opened PathSync
  import opened CellInvariant
  import opened Options

  type Id = string

  /** What all clients share: the ignore rules and the line diff. */
  datatype Env = Env(ignored: Path -> bool, diff: LineDiff)

  datatype Client = Client(
    cells: imap<Path, Cell>,
    inProcess: bool,         // a client inside core, without holds and directives
    busy: bool,              // between a scan and the handling of the hub's answers
    firstBatch: bool,        // the batch under way is the client's first
    firstSync: bool)         // no scan has happened yet

  /** The hub, the clients, and for each client the unlocks that core has queued for it. */
  datatype World = World(hub: Store, clients: map<Id, Client>, mail: map<Id, set<Path>>)

  function At(c: Client, p: Path): Cell { if p in c.cells then c.cells[p] else EMPTY }

  function MailOf(w: World, n: Id): set<Path> { if n in w.mail then w.mail[n] else {} }

  datatype Step =
    | Edit(n: Id, p: Path, file: Option<File>)   // write a file, or remove it
    | Plan(n: Id)                                // SyncUp: scan and decide
    | Send(n: Id, p: Path)                       // SyncUp: one push reaches the hub
    | Absorb(n: Id, now: nat)                    // SyncUp: handle the answers
    | Down(n: Id, unlock: set<Path>, now: nat)   // SyncDown, or ApplyUnlocks when unlock is not empty
    | Discard(n: Id)                             // "resync": everything before its final pull
    | Verdict(n: Id, now: nat)                   // "resolve"
    | Restart(n: Id)                             // the client's memory is lost
    | Resume(n: Id)                              // ResumeFromHub
    | AgentResolve(agent: Id, p: Path, merged: Content)

  predicate ClientStep(s: Step) { !s.AgentResolve? }

  /** A client runs one operation at a time; only its restart and local edits need not wait. */
  predicate AllowedWhen(c: Client, s: Step)
    requires ClientStep(s)
  {
    match s
    case Edit(_, _, _) => true
    case Restart(_) => true
    case Send(_, _) => true
    case Absorb(_, _) => c.busy
    case Down(_, unlock, _) => !c.busy && (c.inProcess ==> unlock == {})
    case Discard(_) => !c.busy && !c.inProcess
    case Verdict(_, _) => !c.busy && !c.inProcess
    case _ => !c.busy
  }

  /** Program order at one path: pushes are sent before answers are handled, resuming comes first. */
  predicate AllowedAt(w: World, s: Step, p: Path)
    requires ClientStep(s) && s.n in w.clients
  {
    var cell := At(w.clients[s.n], p);
    match s
    case Send(_, q) => p == q ==> cell.flight.Sending?
    case Absorb(_, _) => !cell.flight.Sending?
    case Resume(_) => cell == RestartCell(cell)
    case _ => true
  }

  ghost predicate Enabled(env: Env, w: World, s: Step) {
    ClientStep(s) ==>
      && s.n in w.clients && AllowedWhen(w.clients[s.n], s)
      && (s.Down? ==> s.unlock <= MailOf(w, s.n))
      && forall p :: AllowedAt(w, s, p)
  }

  /** What user, operator and agent owe client n at path p. */
  predicate Bargain(w: World, s: Step, n: Id, p: Path)
    requires n in w.clients
  {
    var cell, past := At(w.clients[n], p), Past(w.hub, p);
    ClientStep(s) && s.n == n ==>
      match s
      case Edit(_, q, file) => p == q ==> EditAllowed(cell, past, file)
      case Down(_, unlock, _) => p in unlock ==> Behind(past, BaseOf(cell))
      case Verdict(_, _) => VerdictAllowed(cell, past)
      case _ => true
  }

  /** What a client step makes of each of the client's own cells. */
  function CellAfter(env: Env, w: World, s: Step, p: Path): Cell
    requires ClientStep(s) && s.n in w.clients
  {
    var c := w.clients[s.n];
    var cell, past, ignored := At(c, p), Past(w.hub, p), env.ignored(p);
    match s
    case Edit(_, q, file) => if p == q then cell.(file := file) else cell
    case Plan(_) => PlanCell(cell, ignored)
    case Send(_, q) => if p == q then SendCell(cell, past) else cell
    case Absorb(_, now) =>
      if c.inProcess then ViewAbsorbCell(cell, env.diff, now) else AbsorbCell(cell, c.firstBatch, env.diff, now)
    case Down(_, unlock, now) => DownCell(if p in unlock then UnlockCell(cell) else cell, past, now)
    case Discard(_) => DiscardCell(cell, past, ignored)
    case Verdict(_, now) => VerdictCell(cell, env.diff, now)
    case Restart(_) => RestartCell(cell)
    case Resume(_) => if c.inProcess then ViewResumeCell(cell, past) else ResumeCell(cell, past)
  }

  function PastAfter(w: World, s: Step, p: Path): seq<Write>
    requires ClientStep(s) ==> s.n in w.clients
  {
    match s
    case Send(n, q) =>
      if p == q then SendPast(At(w.clients[n], p), Past(w.hub, p), n) else Past(w.hub, p)
    case AgentResolve(agent, q, merged) =>
      if p == q then ResolvePast(Past(w.hub, p), agent, merged) else Past(w.hub, p)
    case _ => Past(w.hub, p)
  }

  /** The client after one of its steps, apart from its cells. */
  function ModeAfter(c: Client, s: Step): Client
    requires ClientStep(s)
  {
    match s
    case Plan(_) => c.(busy := true, firstBatch := c.firstSync, firstSync := false)
    case Absorb(_, _) => c.(busy := false)
    case Restart(_) => c.(busy := false, firstBatch := false, firstSync := true)
    case _ => c
  }

  /** Core queues an unlock for a remote client whose agent resolved a path; a pull takes unlocks out. */
  function MailAfter(w: World, s: Step): map<Id, set<Path>> {
    match s
    case Down(n, unlock, _) => w.mail[n := MailOf(w, n) - unlock]
    case AgentResolve(agent, p, _) =>
      if agent in w.clients && !w.clients[agent].inProcess then w.mail[agent := MailOf(w, agent) + {p}] else w.mail
    case _ => w.mail
  }

  ghost function Next(env: Env, w: World, s: Step): World
    requires Enabled(env, w, s)
  {
    var hub := imap p: Path | true :: PastAfter(w, s, p);
    if ClientStep(s) then
      var cells := imap p: Path | true :: CellAfter(env, w, s, p);
      World(hub, w.clients[s.n := ModeAfter(w.clients[s.n], s).(cells := cells)], MailAfter(w, s))
    else World(hub, w.clients, MailAfter(w, s))
  }

  /** What a step leaves at one path, at the hub and at each client. */
  lemma NextAt(env: Env, w: World, s: Step, p: Path)
    requires Enabled(env, w, s)
    ensures
      var w' := Next(env, w, s);
      && Past(w'.hub, p) == PastAfter(w, s, p)
      && w'.clients.Keys == w.clients.Keys
      && (ClientStep(s) ==>
            && At(w'.clients[s.n], p) == CellAfter(env, w, s, p)
            && w'.clients[s.n].busy == ModeAfter(w.clients[s.n], s).busy)
      && (forall m :: m in w.clients && (ClientStep(s) ==> m != s.n) ==> w'.clients[m] == w.clients[m])
      && w'.mail == MailAfter(w, s)
  {
    hide PastAfter, CellAfter, MailAfter;
  }

  /** Remote and in-process clients differ in how they handle answers and how they resume, and in nothing else. */
  lemma KindsDifferExactly(env: Env, w: World, n: Id, p: Path, now: nat)
    requires n in w.clients
    ensures
      var c := w.clients[n];
      var cell, past := At(c, p), Past(w.hub, p);
      && CellAfter(env, w, Absorb(n, now), p)
         == (if c.inProcess then ViewAbsorbCell(cell, env.diff, now) else AbsorbCell(cell, c.firstBatch, env.diff, now))
      && CellAfter(env, w, Resume(n), p) == (if c.inProcess then ViewResumeCell(cell, past) else ResumeCell(cell, past))
      && (forall s: Step, d: Client :: ClientStep(s) && s.n == n && !s.Absorb? && !s.Resume? && d.cells == c.cells ==>
            CellAfter(env, w.(clients := w.clients[n := d]), s, p) == CellAfter(env, w, s, p))
  {
  }

  /** A batch is the client's first exactly if no scan came before it since the start or a restart. */
  lemma FirstBatchExactly(env: Env, w: World, n: Id, now: nat)
    requires n in w.clients
    ensures Enabled(env, w, Plan(n)) ==>
      var c := Next(env, w, Plan(n)).clients[n];
      c.busy && c.firstBatch == w.clients[n].firstSync && !c.firstSync
    ensures Enabled(env, w, Absorb(n, now)) ==>
      var c := Next(env, w, Absorb(n, now)).clients[n];
      !c.busy && c.firstSync == w.clients[n].firstSync
    ensures Enabled(env, w, Restart(n)) ==>
      var c := Next(env, w, Restart(n)).clients[n];
      !c.busy && !c.firstBatch && c.firstSync && c.inProcess == w.clients[n].inProcess
  {
    hide CellAfter, PastAfter, MailAfter;
  }

  /** An unlock is queued exactly by a resolve of a remote client's agent, and leaves the queue when it is taken. */
  lemma UnlocksQueuedExactly(env: Env, w: World, s: Step, m: Id, p: Path)
    requires Enabled(env, w, s)
    ensures p in MailOf(Next(env, w, s), m) <==>
      || (s.AgentResolve? && s.agent == m && s.p == p && m in w.clients && !w.clients[m].inProcess)
      || (p in MailOf(w, m) && !(s.Down? && s.n == m && p in s.unlock))
  {
    hide CellAfter, PastAfter;
  }

  /**
   Nothing but program order keeps a client from a step: an idle remote client may scan, pull, take its
   queued unlocks, discard, resolve; any client may be edited or restart; what is planned may be sent,
   and once all is sent the answers may be handled; agents may resolve anything.
   */
  lemma StepsAreOpen(env: Env, w: World, n: Id, p: Path, file: Option<File>, merged: Content, now: nat)
    requires n in w.clients
    ensures
      var c := w.clients[n];
      && Enabled(env, w, Edit(n, p, file)) && Enabled(env, w, Restart(n)) && Enabled(env, w, AgentResolve(n, p, merged))
      && (!c.busy ==> Enabled(env, w, Plan(n)) && Enabled(env, w, Down(n, {}, now)))
      && (!c.busy && !c.inProcess ==>
            && Enabled(env, w, Down(n, MailOf(w, n), now))
            && Enabled(env, w, Discard(n)) && Enabled(env, w, Verdict(n, now)))
      && (At(c, p).flight.Sending? ==> Enabled(env, w, Send(n, p)))
      && (c.busy && (forall q :: !At(c, q).flight.Sending?) ==> Enabled(env, w, Absorb(n, now)))
      && (!c.busy && (forall q :: At(c, q) == RestartCell(At(c, q))) ==> Enabled(env, w, Resume(n)))
  {
  }

  /** An empty hub, no unlock queued, and clients that have only their files. */
  ghost predicate Initial(w: World) {
    && (forall p :: Past(w.hub, p) == [])
    && (forall n :: MailOf(w, n) == {})
    && forall n :: n in w.clients ==>
         var c := w.clients[n];
         && !c.busy && c.firstSync
         && forall p :: At(c, p) == RestartCell(At(c, p))
  }

  ghost predicate Run(env: Env, w: World, steps: seq<Step>)
    decreases |steps|
  {
    |steps| > 0 ==> Enabled(env, w, steps[0]) && Run(env, Next(env, w, steps[0]), steps[1..])
  }

  ghost function After(env: Env, w: World, steps: seq<Step>): World
    requires Run(env, w, steps)
    decreases |steps|
  {
    if |steps| == 0 then w else After(env, Next(env, w, steps[0]), steps[1..])
  }

  /** Nobody breaks the bargain with client n at path p during the run. */
  ghost predicate BargainRun(env: Env, w: World, steps: seq<Step>, n: Id, p: Path)
    requires Run(env, w, steps)
    decreases |steps|
  {
    |steps| > 0 ==>
      && (n in w.clients ==> Bargain(w, steps[0], n, p))
      && BargainRun(env, Next(env, w, steps[0]), steps[1..], n, p)
  }

  // ---------------------------------------------------------------- what every run keeps

  ghost predicate HistoryOk(past: seq<Write>) { WellFormed(past) && PushedUnmarked(past) }

  ghost predicate PathOk(env: Env, w: World, n: Id, p: Path)
    requires n in w.clients
  {
    var c := w.clients[n];
    && CellShape(At(c, p), Past(w.hub, p))
    && (!c.busy ==> At(c, p).flight.Idle?)
    && (env.ignored(p) ==> !Pushing(At(c, p)))
  }

  ghost predicate Inv(env: Env, w: World) {
    && (forall p :: HistoryOk(Past(w.hub, p)))
    && (forall n, p :: n in w.clients ==> PathOk(env, w, n, p))
  }

  lemma InitialInv(env: Env, w: World)
    requires Initial(w)
    ensures Inv(env, w)
    ensures forall n, p :: n in w.clients ==> CellBacked(At(w.clients[n], p), Past(w.hub, p))
  {
  }

  lemma HistoryKept(env: Env, w: World, s: Step, p: Path)
    requires Inv(env, w) && Enabled(env, w, s)
    ensures HistoryOk(PastAfter(w, s, p))
    ensures Past(w.hub, p) <= PastAfter(w, s, p)
  {
    hide CellShape;
    assert HistoryOk(Past(w.hub, p));
    match s
    case Send(n, q) =>
      assert PathOk(env, w, n, p);
      SendKeepsOk(At(w.clients[n], p), Past(w.hub, p), n);
    case AgentResolve(agent, q, merged) =>
      ResolveKeepsHistory(Past(w.hub, p), agent, merged);
    case _ =>
  }

  /** A client's own step keeps the shape of its own cells, whatever the user or the operator does. */
  lemma OwnCellKept(env: Env, w: World, s: Step, p: Path)
    requires ClientStep(s) && s.n in w.clients
    requires AllowedWhen(w.clients[s.n], s) && AllowedAt(w, s, p)
    requires PathOk(env, w, s.n, p) && HistoryOk(Past(w.hub, p))
    ensures CellShape(CellAfter(env, w, s, p), PastAfter(w, s, p))
    ensures !ModeAfter(w.clients[s.n], s).busy ==> CellAfter(env, w, s, p).flight.Idle?
    ensures env.ignored(p) ==> !Pushing(CellAfter(env, w, s, p))
  {
    if env.ignored(p) {
      IgnoredNotPushed(env, w, s, p);
    }
    hide CellShape, CellBacked, CellQuiet, HistoryOk;
    var c := w.clients[s.n];
    var cell, past, ignored := At(c, p), Past(w.hub, p), env.ignored(p);
    HistoryFacts(past);
    match s
    case Edit(_, q, file) => EditKeepsOk(cell, past, file);
    case Plan(_) => PlanKeepsOk(cell, past, ignored);
    case Send(_, q) => SendKeepsOk(cell, past, s.n);
    case Absorb(_, now) =>
      AbsorbKeepsOk(cell, past, c.firstBatch, env.diff, now);
      ViewAbsorbKeepsOk(cell, past, env.diff, now);
    case Down(_, unlock, now) =>
      UnlockDownKeepsOk(cell, past, now);
      DownKeepsOk(cell, past, now);
    case Discard(_) => DiscardKeepsOk(cell, past, ignored);
    case Verdict(_, now) => VerdictKeepsOk(cell, past, env.diff, now);
    case Restart(_) => RestartIsOk(cell, past);
    case Resume(_) => ResumeIsOk(cell, past);
  }

  lemma HistoryFacts(past: seq<Write>)
    requires HistoryOk(past)
    ensures WellFormed(past) && PushedUnmarked(past)
  {
  }

  lemma RestartIsOk(c: Cell, past: seq<Write>)
    ensures CellShape(RestartCell(c), past) && CellBacked(RestartCell(c), past)
  {
  }

  lemma ResumeIsOk(c: Cell, past: seq<Write>)
    requires c == RestartCell(c) && WellFormed(past)
    ensures CellShape(ResumeCell(c, past), past) && CellBacked(ResumeCell(c, past), past)
    ensures CellShape(ViewResumeCell(c, past), past) && CellBacked(ViewResumeCell(c, past), past)
    ensures ResumeCell(c, past).flight.Idle? && ViewResumeCell(c, past).flight.Idle?
  {
    ResumeKeepsOk(c, past);
  }

  /** Scans do not see ignored files, so no content is ever pushed from there. */
  lemma IgnoredNotPushed(env: Env, w: World, s: Step, p: Path)
    requires ClientStep(s) && s.n in w.clients && env.ignored(p) && !Pushing(At(w.clients[s.n], p))
    ensures !Pushing(CellAfter(env, w, s, p))
  {
    hide PushAnswer;
  }

  lemma NextKeepsInv(env: Env, w: World, s: Step)
    requires Inv(env, w) && Enabled(env, w, s)
    ensures Inv(env, Next(env, w, s))
  {
    hide CellShape, CellAfter, PastAfter, HistoryOk;
    var w' := Next(env, w, s);
    forall p ensures HistoryOk(Past(w'.hub, p)) {
      HistoryKept(env, w, s, p);
    }
    forall n, p | n in w'.clients ensures PathOk(env, w', n, p) {
      NextAt(env, w, s, p);
      HistoryKept(env, w, s, p);
      assert PathOk(env, w, n, p) && HistoryOk(Past(w.hub, p));
      if ClientStep(s) && n == s.n {
        OwnCellKept(env, w, s, p);
      } else {
        ShapeAsHubGrows(At(w.clients[n], p), Past(w.hub, p), PastAfter(w, s, p));
      }
    }
  }

  lemma {:induction false} RunKeepsInv(env: Env, w: World, steps: seq<Step>)
    requires Inv(env, w) && Run(env, w, steps)
    ensures Inv(env, After(env, w, steps))
    decreases |steps|
  {
    hide Inv, Next;
    if |steps| > 0 {
      NextKeepsInv(env, w, steps[0]);
      RunKeepsInv(env, Next(env, w, steps[0]), steps[1..]);
    }
  }

  // ---------------------------------------------------------------- what the bargain buys

  lemma OwnCellStaysBacked(env: Env, w: World, s: Step, p: Path)
    requires ClientStep(s) && s.n in w.clients && Bargain(w, s, s.n, p)
    requires AllowedWhen(w.clients[s.n], s) && AllowedAt(w, s, p)
    requires PathOk(env, w, s.n, p) && HistoryOk(Past(w.hub, p))
    requires CellBacked(At(w.clients[s.n], p), Past(w.hub, p))
    ensures CellBacked(CellAfter(env, w, s, p), PastAfter(w, s, p))
  {
    hide CellShape, CellBacked, CellQuiet, HistoryOk, EditAllowed, VerdictAllowed;
    var c := w.clients[s.n];
    var cell, past, ignored := At(c, p), Past(w.hub, p), env.ignored(p);
    HistoryFacts(past);
    match s
    case Edit(_, q, file) =>
      if p == q {
        EditKeepsOk(cell, past, file);
      }
    case Plan(_) => PlanKeepsOk(cell, past, ignored);
    case Send(_, q) => SendKeepsOk(cell, past, s.n);
    case Absorb(_, now) =>
      AbsorbKeepsOk(cell, past, c.firstBatch, env.diff, now);
      ViewAbsorbKeepsOk(cell, past, env.diff, now);
    case Down(_, unlock, now) =>
      UnlockDownKeepsOk(cell, past, now);
      DownKeepsOk(cell, past, now);
    case Discard(_) => DiscardKeepsOk(cell, past, ignored);
    case Verdict(_, now) => VerdictKeepsOk(cell, past, env.diff, now);
    case Restart(_) => RestartIsOk(cell, past);
    case Resume(_) => ResumeIsOk(cell, past);
  }

  /** The bargain at one path of one client keeps that path in order; others' breaches do not matter. */
  lemma NextKeepsBacked(env: Env, w: World, s: Step, n: Id, p: Path)
    requires Inv(env, w) && Enabled(env, w, s) && n in w.clients && Bargain(w, s, n, p)
    requires CellBacked(At(w.clients[n], p), Past(w.hub, p))
    ensures n in Next(env, w, s).clients
    ensures CellBacked(At(Next(env, w, s).clients[n], p), Past(Next(env, w, s).hub, p))
  {
    hide CellBacked, CellShape, CellAfter, PastAfter, HistoryOk, Bargain;
    NextAt(env, w, s, p);
    HistoryKept(env, w, s, p);
    assert PathOk(env, w, n, p) && HistoryOk(Past(w.hub, p));
    if ClientStep(s) && n == s.n {
      assert AllowedAt(w, s, p);
      OwnCellStaysBacked(env, w, s, p);
    } else {
      BackedAsHubGrows(At(w.clients[n], p), Past(w.hub, p), PastAfter(w, s, p));
    }
  }

  lemma {:induction false} RunKeepsBacked(env: Env, w: World, steps: seq<Step>, n: Id, p: Path)
    requires Inv(env, w) && Run(env, w, steps) && n in w.clients && BargainRun(env, w, steps, n, p)
    requires CellBacked(At(w.clients[n], p), Past(w.hub, p))
    ensures n in After(env, w, steps).clients
    ensures CellBacked(At(After(env, w, steps).clients[n], p), Past(After(env, w, steps).hub, p))
    decreases |steps|
  {
    hide Inv, Next, CellBacked, Bargain;
    if |steps| > 0 {
      NextKeepsInv(env, w, steps[0]);
      NextKeepsBacked(env, w, steps[0], n, p);
      RunKeepsBacked(env, Next(env, w, steps[0]), steps[1..], n, p);
    }
  }

  /** The step leaves client n's file at p alone: no edit of it, nothing discarded or forgotten. */
  predicate LeavesAlone(s: Step, n: Id, p: Path) {
    ClientStep(s) && s.n == n ==> !(s.Edit? && s.p == p) && !s.Discard? && !s.Restart?
  }

  /** A scan accounts for the file, and until the file is disturbed it stays accounted for. */
  lemma OwnCellStaysQuiet(env: Env, w: World, s: Step, p: Path)
    requires ClientStep(s) && s.n in w.clients && LeavesAlone(s, s.n, p) && Bargain(w, s, s.n, p)
    requires AllowedWhen(w.clients[s.n], s) && AllowedAt(w, s, p)
    requires PathOk(env, w, s.n, p) && HistoryOk(Past(w.hub, p))
    requires if s.Plan? then CellBacked(At(w.clients[s.n], p), Past(w.hub, p))
             else CellQuiet(At(w.clients[s.n], p), env.ignored(p))
    ensures CellQuiet(CellAfter(env, w, s, p), env.ignored(p))
  {
    hide CellShape, CellBacked, HistoryOk;
    var c := w.clients[s.n];
    var cell, past, ignored := At(c, p), Past(w.hub, p), env.ignored(p);
    HistoryFacts(past);
    match s
    case Plan(_) => PlanKeepsOk(cell, past, ignored);
    case Absorb(_, now) =>
      AbsorbKeepsQuiet(cell, ignored, past, c.firstBatch, env.diff, now);
      ViewAbsorbKeepsQuiet(cell, ignored, past, env.diff, now);
    case Down(_, unlock, now) =>
      UnlockDownKeepsOk(cell, past, now);
      DownKeepsOk(cell, past, now);
    case Verdict(_, now) => VerdictKeepsOk(cell, past, env.diff, now);
    case _ =>
  }
}

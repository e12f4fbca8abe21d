/**
 What the sync protocol guarantees over whole runs: no work is lost, frozen paths stay put, clients
 converge and then stay quiet, a resync really adopts the hub's tree, markers never reach the hub.
 */
module SyncTheorems {
  import opened Markers
  import opened FileHub
  import opened Scan
  import opened PathSync
  import opened CellInvariant
  import opened Options
  import opened Protocol

  // ---------------------------------------------------------------- runs in pieces

  lemma {:induction false} RunConcat(env: Env, w: World, a: seq<Step>, b: seq<Step>)
    requires Run(env, w, a + b)
    ensures Run(env, w, a) && Run(env, After(env, w, a), b)
    ensures After(env, w, a + b) == After(env, After(env, w, a), b)
    decreases |a|
  {
    hide Next, Enabled;
    if |a| == 0 {
      assert a + b == b;
    } else {
      assert (a + b)[0] == a[0] && (a + b)[1..] == a[1..] + b;
      RunConcat(env, Next(env, w, a[0]), a[1..], b);
    }
  }

  lemma ReachableInv(env: Env, w: World, steps: seq<Step>)
    requires Initial(w) && Run(env, w, steps)
    ensures Inv(env, After(env, w, steps))
  {
    InitialInv(env, w);
    RunKeepsInv(env, w, steps);
  }

  /** No step of the run is one of client n's. */
  predicate NotBy(s: Step, n: Id) { ClientStep(s) ==> s.n != n }

  /** The hub only ever appends to a path's history, whatever the clients do. */
  lemma {:induction false} HistoryOnlyGrows(env: Env, w: World, steps: seq<Step>, p: Path)
    requires Inv(env, w) && Run(env, w, steps)
    ensures Past(w.hub, p) <= Past(After(env, w, steps).hub, p)
    decreases |steps|
  {
    if |steps| > 0 {
      HistoryKept(env, w, steps[0], p);
      NextKeepsInv(env, w, steps[0]);
      HistoryOnlyGrows(env, Next(env, w, steps[0]), steps[1..], p);
    }
  }

  lemma {:induction false} BargainConcat(env: Env, w: World, a: seq<Step>, b: seq<Step>, n: Id, p: Path)
    requires Run(env, w, a + b) && BargainRun(env, w, a + b, n, p)
    ensures Run(env, w, a) && Run(env, After(env, w, a), b)
    ensures BargainRun(env, w, a, n, p) && BargainRun(env, After(env, w, a), b, n, p)
    decreases |a|
  {
    hide Next, Enabled, Bargain;
    RunConcat(env, w, a, b);
    if |a| == 0 {
      assert a + b == b;
    } else {
      assert (a + b)[0] == a[0] && (a + b)[1..] == a[1..] + b;
      BargainConcat(env, Next(env, w, a[0]), a[1..], b, n, p);
    }
  }

  // ---------------------------------------------------------------- no work is lost

  /** Client n's record of p is in order in every run in which the bargain is kept there. */
  lemma ReachableBacked(env: Env, w: World, steps: seq<Step>, n: Id, p: Path)
    requires Initial(w) && Run(env, w, steps) && n in w.clients && BargainRun(env, w, steps, n, p)
    ensures n in After(env, w, steps).clients
    ensures CellBacked(At(After(env, w, steps).clients[n], p), Past(After(env, w, steps).hub, p))
  {
    InitialInv(env, w);
    hide *;
    RunKeepsBacked(env, w, steps, n, p);
  }

  lemma {:induction false} StaysQuietAt(env: Env, w: World, steps: seq<Step>, n: Id, p: Path)
    requires Inv(env, w) && Run(env, w, steps) && n in w.clients && BargainRun(env, w, steps, n, p)
    requires CellBacked(At(w.clients[n], p), Past(w.hub, p))
    requires CellQuiet(At(w.clients[n], p), env.ignored(p))
    requires forall i :: 0 <= i < |steps| ==> LeavesAlone(steps[i], n, p)
    ensures n in After(env, w, steps).clients
    ensures CellQuiet(At(After(env, w, steps).clients[n], p), env.ignored(p))
    decreases |steps|
  {
    if |steps| > 0 {
      hide CellQuiet, CellBacked, Inv, Next, Bargain;
      QuietStep(env, w, steps[0], n, p);
      NextKeepsInv(env, w, steps[0]);
      NextKeepsBacked(env, w, steps[0], n, p);
      StaysQuietAt(env, Next(env, w, steps[0]), steps[1..], n, p);
    }
  }

  lemma QuietStep(env: Env, w: World, s: Step, n: Id, p: Path)
    requires Inv(env, w) && Enabled(env, w, s) && n in w.clients && LeavesAlone(s, n, p) && Bargain(w, s, n, p)
    requires if s == Plan(n) then CellBacked(At(w.clients[n], p), Past(w.hub, p))
             else CellQuiet(At(w.clients[n], p), env.ignored(p))
    ensures n in Next(env, w, s).clients
    ensures CellQuiet(At(Next(env, w, s).clients[n], p), env.ignored(p))
  {
    NextAt(env, w, s, p);
    hide CellQuiet, CellAfter, CellBacked, CellShape;
    if ClientStep(s) && s.n == n {
      assert AllowedAt(w, s, p) && PathOk(env, w, n, p) && HistoryOk(Past(w.hub, p));
      OwnCellStaysQuiet(env, w, s, p);
    }
  }

  /**
   In every run: once a client has scanned and its file at p is left alone (other files may be
   edited), any pull it then makes, that of a tick's unlocks included, replaces or deletes the file
   only if the path was unlocked or the hub has held the file's content at that path, as it is or
   LF-normalised. Other clients and agents may do anything in between; the bargain matters only for
   this client at this path.
   */
  lemma NoWorkIsLost(env: Env, w: World, before: seq<Step>, during: seq<Step>,
                     n: Id, unlock: set<Path>, now: nat, p: Path)
    requires Initial(w) && n in w.clients
    requires Run(env, w, before + ([Plan(n)] + during)) && BargainRun(env, w, before + ([Plan(n)] + during), n, p)
    requires forall i :: 0 <= i < |during| ==> LeavesAlone(during[i], n, p)
    requires Enabled(env, After(env, w, before + ([Plan(n)] + during)), Down(n, unlock, now))
    requires p !in unlock && !env.ignored(p)
    ensures
      var w1 := After(env, w, before + ([Plan(n)] + during));
      n in w1.clients &&
      var was := At(w1.clients[n], p).file;
      var left := At(Next(env, w1, Down(n, unlock, now)).clients[n], p).file;
      was.Some? && left != was ==> Preserved(Past(w1.hub, p), was.value.content)
  {
    hide CellQuiet, CellBacked, CellShape, Next, DownCell, Preserved;
    var w1 := ScannedAndQuiet(env, w, before, during, n, p);
    assert PathOk(env, w1, n, p);
    var cell, past := At(w1.clients[n], p), Past(w1.hub, p);
    NextAt(env, w1, Down(n, unlock, now), p);
    if cell.file.Some? && DownCell(cell, past, now).file != cell.file {
      DownLosesNothing(cell, past, false, now);
    }
  }

  /** Where the run after a scan ends, in order and with the file at p accounted for. */
  lemma ScannedAndQuiet(env: Env, w: World, before: seq<Step>, during: seq<Step>, n: Id, p: Path)
    returns (end: World)
    requires Initial(w) && n in w.clients
    requires Run(env, w, before + ([Plan(n)] + during)) && BargainRun(env, w, before + ([Plan(n)] + during), n, p)
    requires forall i :: 0 <= i < |during| ==> LeavesAlone(during[i], n, p)
    ensures end == After(env, w, before + ([Plan(n)] + during))
    ensures Inv(env, end) && n in end.clients && CellQuiet(At(end.clients[n], p), env.ignored(p))
    ensures CellBacked(At(end.clients[n], p), Past(end.hub, p))
  {
    hide CellQuiet, CellBacked, Next, Inv, Initial, Bargain;
    var tail := [Plan(n)] + during;
    RunConcat(env, w, before, tail);
    BargainConcat(env, w, before, tail, n, p);
    var mid := After(env, w, before);
    ReachableInv(env, w, before);
    ReachableInv(env, w, before + tail);
    ReachableBacked(env, w, before, n, p);
    ReachableBacked(env, w, before + tail, n, p);
    assert tail[0] == Plan(n) && tail[1..] == during;
    QuietStep(env, mid, Plan(n), n, p);
    NextKeepsInv(env, mid, Plan(n));
    NextKeepsBacked(env, mid, Plan(n), n, p);
    StaysQuietAt(env, Next(env, mid, Plan(n)), during, n, p);
    end := After(env, w, before + tail);
  }

  // ---------------------------------------------------------------- frozen paths

  /** The step releases client n's freeze of path p: a verdict, an unlock, or the user's resolution. */
  predicate Releases(env: Env, w: World, s: Step, n: Id, p: Path)
    requires n in w.clients
  {
    ClientStep(s) && s.n == n &&
    var c := At(w.clients[n], p);
    match s
    case Down(_, unlock, _) => p in unlock
    case Discard(_) => true
    case Restart(_) => true
    case Verdict(_, _) => c.held || c.copy.Some?
    case Plan(_) =>
      var found := Inspect(c.file, c.stamp, env.ignored(p));
      !c.held && found.Edited? && !HasConflictMarkers(found.content)
    case _ => false
  }

  ghost predicate NeverReleased(env: Env, w: World, steps: seq<Step>, n: Id, p: Path)
    requires Run(env, w, steps) && n in w.clients
    decreases |steps|
  {
    |steps| > 0 ==>
      && !Releases(env, w, steps[0], n, p)
      && NeverReleased(env, Next(env, w, steps[0]), steps[1..], n, p)
  }

  /** The file as the user's own edits leave it. */
  function UserEdits(file: Option<File>, steps: seq<Step>, n: Id, p: Path): Option<File>
    decreases |steps|
  {
    if |steps| == 0 then file
    else
      var s := steps[0];
      UserEdits(if s.Edit? && s.n == n && s.p == p then s.file else file, steps[1..], n, p)
  }

  /** None of the path's versions from number `from` on was pushed by client n. */
  predicate NoPushBy(past: seq<Write>, from: nat, n: Id) {
    forall i :: from <= i < |past| ==> past[i].origin.ByPush? ==> past[i].state.writer != n
  }

  /** The client's own steps leave a frozen path of its alone, short of a release. */
  lemma FrozenOwnStep(env: Env, w: World, s: Step, p: Path)
    requires ClientStep(s) && s.n in w.clients && AllowedAt(w, s, p) && PathOk(env, w, s.n, p)
    requires Frozen(At(w.clients[s.n], p)) && !Releases(env, w, s, s.n, p)
    ensures
      var c, c' := At(w.clients[s.n], p), CellAfter(env, w, s, p);
      && Frozen(c') && (c.held ==> c'.held) && c'.base == c.base
      && c'.file == (if s.Edit? && s.p == p then s.file else c.file)
      && PastAfter(w, s, p) == Past(w.hub, p)
  {
    hide Merged, HasConflictMarkers;
  }

  lemma FrozenStep(env: Env, w: World, s: Step, n: Id, p: Path)
    requires Inv(env, w) && Enabled(env, w, s) && n in w.clients
    requires Frozen(At(w.clients[n], p)) && !Releases(env, w, s, n, p)
    ensures
      var c, c' := At(w.clients[n], p), At(Next(env, w, s).clients[n], p);
      && Frozen(c') && (c.held ==> c'.held) && c'.base == c.base
      && c'.file == UserEdits(c.file, [s], n, p)
      && Past(w.hub, p) <= PastAfter(w, s, p)
      && NoPushBy(PastAfter(w, s, p), |Past(w.hub, p)|, n)
  {
    hide CellShape, HistoryOk, CellAfter;
    NextAt(env, w, s, p);
    HistoryKept(env, w, s, p);
    assert PathOk(env, w, n, p);
    assert [s][1..] == [];
    hide Next, Inv, PathOk;
    if ClientStep(s) && s.n == n {
      assert AllowedAt(w, s, p);
      FrozenOwnStep(env, w, s, p);
    }
  }

  /**
   From the moment a path is locked or held until a step releases it, over any run: it stays frozen
   (a held path stays held) at the same base, its bytes change only by the user's own edits, and the
   client pushes nothing at it.
   */
  lemma {:induction false} FrozenPathIsUntouched(env: Env, w: World, steps: seq<Step>, n: Id, p: Path)
    requires Inv(env, w) && Run(env, w, steps) && n in w.clients
    requires Frozen(At(w.clients[n], p)) && NeverReleased(env, w, steps, n, p)
    ensures n in After(env, w, steps).clients
    ensures
      var w' := After(env, w, steps);
      var c, c' := At(w.clients[n], p), At(w'.clients[n], p);
      && Frozen(c') && (c.held ==> c'.held) && c'.base == c.base
      && c'.file == UserEdits(c.file, steps, n, p)
      && Past(w.hub, p) <= Past(w'.hub, p)
      && NoPushBy(Past(w'.hub, p), |Past(w.hub, p)|, n)
    decreases |steps|
  {
    if |steps| > 0 {
      var s := steps[0];
      FrozenStep(env, w, s, n, p);
      NextKeepsInv(env, w, s);
      FrozenPathIsUntouched(env, Next(env, w, s), steps[1..], n, p);
      assert [s][1..] == [];
    }
  }

  // ---------------------------------------------------------------- convergence

  /** No unpushed edit and no unpushed deletion, nothing locked or held, nothing under way. */
  predicate NothingPending(c: Cell, past: seq<Write>, ignored: bool) {
    && !Frozen(c) && c.flight.Idle?
    && (c.file.Some? && !ignored ==> c.stamp.Some? && c.stamp.value.hash.of == c.file.value.content)
    && (c.base.Some? && c.file.None? ==> KnownVersion(past, c.base.value) && past[c.base.value - 1].state.deleted)
  }

  /** The file on disk is the hub's live file, byte for byte or up to line endings. */
  predicate FileAgrees(c: Cell, past: seq<Write>) {
    if Live(past) then c.file.Some? && Agrees(c.file.value.content, Current(past).content) else c.file.None?
  }

  /** The client is level with the hub at this path. */
  predicate Settled(c: Cell, past: seq<Write>, ignored: bool) {
    && !Frozen(c) && c.flight.Idle?
    && c.base == (if |past| == 0 then None else Some(|past|))
    && (ignored || (FileAgrees(c, past) &&
         (c.file.Some? ==> c.stamp.Some? && c.stamp.value.hash.of == c.file.value.content)))
  }

  ghost predicate HubUnignored(env: Env, w: World) {
    forall p :: env.ignored(p) ==> Past(w.hub, p) == []
  }

  ghost predicate ClientPendsNothing(env: Env, w: World, n: Id)
    requires n in w.clients
  {
    !w.clients[n].busy && forall p :: NothingPending(At(w.clients[n], p), Past(w.hub, p), env.ignored(p))
  }

  ghost predicate ClientSettled(env: Env, w: World, n: Id)
    requires n in w.clients
  {
    !w.clients[n].busy && forall p :: Settled(At(w.clients[n], p), Past(w.hub, p), env.ignored(p))
  }

  /** An agent puts content at a path that the clients ignore. */
  predicate ResolvesIgnored(env: Env, s: Step) { s.AgentResolve? && env.ignored(s.p) }

  /** No client ever puts an ignored path on the hub; only an agent's resolve can. */
  lemma StepKeepsUnignored(env: Env, w: World, s: Step)
    requires Inv(env, w) && Enabled(env, w, s) && HubUnignored(env, w) && !ResolvesIgnored(env, s)
    ensures HubUnignored(env, Next(env, w, s))
  {
    forall p | env.ignored(p) ensures Past(Next(env, w, s).hub, p) == [] {
      NextAt(env, w, s, p);
      if s.Send? {
        assert AllowedAt(w, s, p) && PathOk(env, w, s.n, p);
      }
    }
  }

  lemma {:induction false} RunKeepsUnignored(env: Env, w: World, steps: seq<Step>)
    requires Inv(env, w) && Run(env, w, steps) && HubUnignored(env, w)
    requires forall i :: 0 <= i < |steps| ==> !ResolvesIgnored(env, steps[i])
    ensures HubUnignored(env, After(env, w, steps))
    decreases |steps|
  {
    if |steps| > 0 {
      StepKeepsUnignored(env, w, steps[0]);
      NextKeepsInv(env, w, steps[0]);
      RunKeepsUnignored(env, Next(env, w, steps[0]), steps[1..]);
    }
  }

  // ---------------------------------------------------------------- what a sync leaves pending

  /** Between a scan and the answers: a missing known file has its deletion under way. */
  predicate Accounted(c: Cell) {
    && (!Frozen(c) && c.base.Some? && c.file.None? ==> !c.flight.Idle?)
    && (Pushing(c) ==> c.file.Some?)
  }

  predicate Refused(c: Cell) { c.flight.Answered? && c.flight.result.Rejected? }

  lemma AcceptedLeavesNothingPending(c: Cell, past: seq<Write>, ignored: bool, first: bool, diff: LineDiff, now: nat)
    requires CellShape(c, past) && CellQuiet(c, ignored) && Accounted(c)
    requires !Frozen(c) && !Refused(c) && !c.flight.Sending?
    ensures NothingPending(AbsorbCell(c, first, diff, now), past, ignored)
    ensures NothingPending(ViewAbsorbCell(c, diff, now), past, ignored)
  {
  }

  /** What is not pending stays so while the hub moves on. */
  lemma NothingPendingAsHubGrows(c: Cell, past: seq<Write>, later: seq<Write>, ignored: bool)
    requires NothingPending(c, past, ignored) && past <= later
    ensures NothingPending(c, later, ignored)
  {
  }

  /** The step is another client's or an agent's, or a push of client n's batch. */
  predicate OnlySends(s: Step, n: Id) { ClientStep(s) && s.n == n ==> s.Send? }

  ghost predicate BatchOk(env: Env, w: World, n: Id)
    requires n in w.clients
  {
    forall p :: CellQuiet(At(w.clients[n], p), env.ignored(p)) && Accounted(At(w.clients[n], p))
  }

  /** The client's record of every path is in order. */
  ghost predicate ClientBacked(w: World, n: Id)
    requires n in w.clients
  {
    forall p :: CellBacked(At(w.clients[n], p), Past(w.hub, p))
  }

  /** A client's own scan or push leaves no missing file out of account. */
  lemma OwnStepAccounts(env: Env, w: World, s: Step, p: Path)
    requires (s.Plan? || s.Send?) && s.n in w.clients && AllowedWhen(w.clients[s.n], s)
    requires PathOk(env, w, s.n, p)
    requires s.Plan? || Accounted(At(w.clients[s.n], p))
    ensures Accounted(CellAfter(env, w, s, p))
  {
    hide CellShape, HasConflictMarkers, PushAnswer;
  }

  lemma BatchStep(env: Env, w: World, s: Step, n: Id)
    requires Inv(env, w) && Enabled(env, w, s) && n in w.clients
    requires if s == Plan(n) then ClientBacked(w, n) else BatchOk(env, w, n) && OnlySends(s, n)
    ensures n in Next(env, w, s).clients && BatchOk(env, Next(env, w, s), n)
  {
    hide CellQuiet, Accounted, CellAfter, Next, CellShape, CellBacked;
    NextAt(env, w, s, "");
    forall p
      ensures CellQuiet(At(Next(env, w, s).clients[n], p), env.ignored(p))
      ensures Accounted(At(Next(env, w, s).clients[n], p))
    {
      assert s == Plan(n) ==> CellBacked(At(w.clients[n], p), Past(w.hub, p));
      NextAt(env, w, s, p);
      QuietStep(env, w, s, n, p);
      if ClientStep(s) && s.n == n {
        assert PathOk(env, w, n, p);
        OwnStepAccounts(env, w, s, p);
      }
    }
  }

  lemma {:induction false} BatchStaysOk(env: Env, w: World, steps: seq<Step>, n: Id)
    requires Inv(env, w) && Run(env, w, steps) && n in w.clients && BatchOk(env, w, n)
    requires forall i :: 0 <= i < |steps| ==> OnlySends(steps[i], n)
    ensures n in After(env, w, steps).clients && BatchOk(env, After(env, w, steps), n)
    decreases |steps|
  {
    hide BatchOk, Inv;
    if |steps| > 0 {
      assert OnlySends(steps[0], n);
      BatchStep(env, w, steps[0], n);
      NextKeepsInv(env, w, steps[0]);
      BatchStaysOk(env, Next(env, w, steps[0]), steps[1..], n);
    }
  }

  lemma AnswersLeaveNothingPending(env: Env, w: World, n: Id, now: nat)
    requires Inv(env, w) && n in w.clients && Enabled(env, w, Absorb(n, now)) && BatchOk(env, w, n)
    requires forall p :: !Frozen(At(w.clients[n], p)) && !Refused(At(w.clients[n], p))
    ensures n in Next(env, w, Absorb(n, now)).clients
    ensures ClientPendsNothing(env, Next(env, w, Absorb(n, now)), n)
  {
    hide CellQuiet, CellShape, NothingPending, AbsorbCell, ViewAbsorbCell, Accounted;
    var w' := Next(env, w, Absorb(n, now));
    forall p ensures NothingPending(At(w'.clients[n], p), Past(w'.hub, p), env.ignored(p)) {
      assert PathOk(env, w, n, p) && AllowedAt(w, Absorb(n, now), p);
      AcceptedLeavesNothingPending(At(w.clients[n], p), Past(w.hub, p), env.ignored(p),
                                   w.clients[n].firstBatch, env.diff, now);
    }
  }

  /**
   A whole SyncUp, whatever others do in between: when nothing it pushed was refused and nothing is
   frozen, it leaves the client with nothing pending.
   */
  lemma SyncUpLeavesNothingPending(env: Env, w: World, during: seq<Step>, n: Id, now: nat)
    requires Inv(env, w) && n in w.clients && ClientBacked(w, n) && Enabled(env, w, Plan(n))
    requires Run(env, Next(env, w, Plan(n)), during)
    requires forall i :: 0 <= i < |during| ==> OnlySends(during[i], n)
    requires
      var w1 := After(env, Next(env, w, Plan(n)), during);
      && Enabled(env, w1, Absorb(n, now))
      && forall p :: !Frozen(At(w1.clients[n], p)) && !Refused(At(w1.clients[n], p))
    ensures ClientPendsNothing(env, Next(env, After(env, Next(env, w, Plan(n)), during), Absorb(n, now)), n)
  {
    hide *;
    NextKeepsInv(env, w, Plan(n));
    BatchStep(env, w, Plan(n), n);
    BatchStaysOk(env, Next(env, w, Plan(n)), during, n);
    RunKeepsInv(env, Next(env, w, Plan(n)), during);
    AnswersLeaveNothingPending(env, After(env, Next(env, w, Plan(n)), during), n, now);
  }

  /** Nothing pending stays nothing pending through any run of the others. */
  lemma OthersLeaveNothingPending(env: Env, w: World, steps: seq<Step>, n: Id)
    requires Inv(env, w) && Run(env, w, steps) && n in w.clients && ClientPendsNothing(env, w, n)
    requires forall i :: 0 <= i < |steps| ==> NotBy(steps[i], n)
    ensures n in After(env, w, steps).clients && ClientPendsNothing(env, After(env, w, steps), n)
  {
    hide NothingPending;
    OthersLeaveMine(env, w, steps, n);
    var w' := After(env, w, steps);
    forall p ensures NothingPending(At(w'.clients[n], p), Past(w'.hub, p), env.ignored(p)) {
      HistoryOnlyGrows(env, w, steps, p);
      NothingPendingAsHubGrows(At(w.clients[n], p), Past(w.hub, p), Past(w'.hub, p), env.ignored(p));
    }
  }

  // ---------------------------------------------------------------- one pull each

  lemma DownSettles(c: Cell, past: seq<Write>, ignored: bool, now: nat)
    requires CellOk(c, past) && WellFormed(past) && NothingPending(c, past, ignored)
    requires ignored ==> past == []
    ensures Settled(DownCell(c, past, now), past, ignored)
  {
  }

  function DownEach(order: seq<Id>, now: nat): seq<Step> {
    if |order| == 0 then [] else [Down(order[0], {}, now)] + DownEach(order[1..], now)
  }

  lemma SettledPendsNothing(env: Env, w: World, n: Id)
    requires n in w.clients && ClientSettled(env, w, n) && HubUnignored(env, w)
    ensures ClientPendsNothing(env, w, n)
  {
  }

  lemma OneDown(env: Env, w: World, n: Id, now: nat)
    requires Inv(env, w) && HubUnignored(env, w)
    requires n in w.clients && ClientPendsNothing(env, w, n) && ClientBacked(w, n)
    ensures Enabled(env, w, Down(n, {}, now))
    ensures
      var w' := Next(env, w, Down(n, {}, now));
      && Inv(env, w') && HubUnignored(env, w')
      && (forall p :: Past(w'.hub, p) == Past(w.hub, p))
      && w'.clients.Keys == w.clients.Keys && ClientSettled(env, w', n) && ClientBacked(w', n)
      && (forall m :: m in w.clients && m != n ==> w'.clients[m] == w.clients[m])
  {
    NextKeepsInv(env, w, Down(n, {}, now));
    var w' := Next(env, w, Down(n, {}, now));
    forall p
      ensures Settled(At(w'.clients[n], p), Past(w'.hub, p), env.ignored(p))
      ensures CellBacked(At(w'.clients[n], p), Past(w'.hub, p))
    {
      assert PathOk(env, w, n, p) && HistoryOk(Past(w.hub, p));
      assert NothingPending(At(w.clients[n], p), Past(w.hub, p), env.ignored(p));
      assert CellBacked(At(w.clients[n], p), Past(w.hub, p));
      hide NothingPending, CellBacked, CellShape, Settled, DownCell, CellQuiet;
      DownSettles(At(w.clients[n], p), Past(w.hub, p), env.ignored(p), now);
      DownKeepsOk(At(w.clients[n], p), Past(w.hub, p), now);
    }
  }

  /**
   Convergence: when no client has anything pending, one pull each, in any order, leaves every client
   settled, and the hub untouched.
   */
  lemma {:induction false} OnePullEachSettles(env: Env, w: World, order: seq<Id>, now: nat)
    requires Inv(env, w) && HubUnignored(env, w)
    requires forall n :: n in w.clients ==> ClientPendsNothing(env, w, n) && ClientBacked(w, n)
    requires forall i :: 0 <= i < |order| ==> order[i] in w.clients
    ensures Run(env, w, DownEach(order, now))
    ensures
      var w' := After(env, w, DownEach(order, now));
      && w'.clients.Keys == w.clients.Keys
      && (forall p :: Past(w'.hub, p) == Past(w.hub, p))
      && (forall n :: n in order || (n in w.clients && ClientSettled(env, w, n)) ==> ClientSettled(env, w', n))
    decreases |order|
  {
    if |order| > 0 {
      var n := order[0];
      OneDown(env, w, n, now);
      var w1 := Next(env, w, Down(n, {}, now));
      var rest := DownEach(order[1..], now);
      assert ([Down(n, {}, now)] + rest)[1..] == rest;
      forall m | m in w1.clients ensures ClientPendsNothing(env, w1, m) && ClientBacked(w1, m) {
        if m == n {
          SettledPendsNothing(env, w1, n);
        } else {
          SamePathsSameState(env, w, w1, m);
        }
      }
      forall m | m in w.clients && ClientSettled(env, w, m) ensures ClientSettled(env, w1, m) {
        if m != n {
          SamePathsSameState(env, w, w1, m);
        }
      }
      OnePullEachSettles(env, w1, order[1..], now);
    }
  }

  lemma SamePathsSameState(env: Env, w: World, w1: World, m: Id)
    requires m in w.clients && m in w1.clients && w1.clients[m] == w.clients[m]
    requires forall p :: Past(w1.hub, p) == Past(w.hub, p)
    ensures ClientPendsNothing(env, w1, m) <==> ClientPendsNothing(env, w, m)
    ensures ClientSettled(env, w1, m) <==> ClientSettled(env, w, m)
    ensures ClientBacked(w1, m) <==> ClientBacked(w, m)
  {
  }

  // ---------------------------------------------------------------- quiescence

  /** One of the steps a tick is made of: SyncUp's three, and a plain SyncDown. */
  predicate TickStep(s: Step) {
    s.Plan? || s.Send? || s.Absorb? || (s.Down? && s.unlock == {})
  }

  /** Settled, or on its way through a tick that changes nothing: only a tombstone is re-pushed. */
  predicate AtRest(c: Cell, past: seq<Write>, ignored: bool) {
    && Settled(c.(flight := Idle), past, ignored)
    && (c.flight.Sending? ==> |past| > 0 && !Live(past) && c.flight == Sending(Change([], true, |past|), None))
    && (c.flight.Answered? ==> |past| > 0 && !Live(past) && c.flight == Answered(Applied(|past|), None))
  }

  ghost predicate AllAtRest(env: Env, w: World) {
    && (forall p :: WellFormed(Past(w.hub, p)))
    && HubUnignored(env, w)
    && forall n, p :: n in w.clients ==> AtRest(At(w.clients[n], p), Past(w.hub, p), env.ignored(p))
  }

  lemma RestCell(c: Cell, past: seq<Write>, ignored: bool, first: bool, node: string, diff: LineDiff, now: nat)
    requires WellFormed(past) && AtRest(c, past, ignored) && (ignored ==> past == [])
    ensures c.flight.Idle? ==> AtRest(PlanCell(c, ignored), past, ignored) && PlanCell(c, ignored).file == c.file
    ensures SendPast(c, past, node) == past && AtRest(SendCell(c, past), past, ignored)
    ensures !c.flight.Sending? ==>
      AtRest(AbsorbCell(c, first, diff, now), past, ignored) && AbsorbCell(c, first, diff, now).file == c.file
    ensures !c.flight.Sending? ==>
      AtRest(ViewAbsorbCell(c, diff, now), past, ignored) && ViewAbsorbCell(c, diff, now).file == c.file
    ensures DownCell(c, past, now) == c
  {
  }

  /** A tombstone of the hub is pushed again by every scan: the push is accepted and stores nothing. */
  lemma TombstonesAreRepushed(c: Cell, past: seq<Write>, node: string)
    requires WellFormed(past) && Settled(c, past, false) && |past| > 0 && !Live(past)
    ensures PlanCell(c, false).flight == Sending(Change([], true, |past|), None)
    ensures UpPast(c, past, false, node) == past
  {
  }

  lemma RestStep(env: Env, w: World, s: Step)
    requires AllAtRest(env, w) && Enabled(env, w, s) && TickStep(s)
    requires s.Plan? || s.Down? ==> forall p :: At(w.clients[s.n], p).flight.Idle?
    ensures
      var w' := Next(env, w, s);
      && AllAtRest(env, w')
      && (forall p :: Past(w'.hub, p) == Past(w.hub, p))
      && (forall n, p :: n in w.clients ==> At(w'.clients[n], p).file == At(w.clients[n], p).file)
  {
    var w' := Next(env, w, s);
    var c := w.clients[s.n];
    forall p
      ensures Past(w'.hub, p) == Past(w.hub, p)
      ensures AtRest(At(w'.clients[s.n], p), Past(w.hub, p), env.ignored(p))
      ensures At(w'.clients[s.n], p).file == At(c, p).file
    {
      assert AtRest(At(c, p), Past(w.hub, p), env.ignored(p));
      assert AllowedAt(w, s, p);
      var now := if s.Absorb? || s.Down? then s.now else 0;
      RestCell(At(c, p), Past(w.hub, p), env.ignored(p), c.firstBatch, s.n, env.diff, now);
    }
  }

  lemma TickRests(env: Env, w: World, s: Step)
    requires Inv(env, w) && AllAtRest(env, w) && Enabled(env, w, s) && TickStep(s)
    ensures
      var w' := Next(env, w, s);
      && Inv(env, w') && AllAtRest(env, w')
      && (forall p :: Past(w'.hub, p) == Past(w.hub, p))
      && w'.clients.Keys == w.clients.Keys
      && (forall n, p :: n in w.clients ==> At(w'.clients[n], p).file == At(w.clients[n], p).file)
  {
    forall p ensures s.Plan? || s.Down? ==> At(w.clients[s.n], p).flight.Idle? {
      assert PathOk(env, w, s.n, p);
    }
    hide AllAtRest, CellShape;
    RestStep(env, w, s);
    NextKeepsInv(env, w, s);
    NextAt(env, w, s, "");
  }

  /**
   Quiescence: once every client is settled, any sequence of ticks, of any clients, interleaved in
   any way, changes no history at the hub and no file on any disk.
   */
  lemma {:induction false} TicksChangeNothing(env: Env, w: World, steps: seq<Step>)
    requires Inv(env, w) && AllAtRest(env, w) && Run(env, w, steps)
    requires forall i :: 0 <= i < |steps| ==> TickStep(steps[i])
    ensures
      var w' := After(env, w, steps);
      && AllAtRest(env, w')
      && (forall p :: Past(w'.hub, p) == Past(w.hub, p))
      && w'.clients.Keys == w.clients.Keys
      && (forall n, p :: n in w.clients ==> At(w'.clients[n], p).file == At(w.clients[n], p).file)
    decreases |steps|
  {
    hide AllAtRest, Inv, Next, Enabled, TickStep, Past, At;
    if |steps| > 0 {
      TickRests(env, w, steps[0]);
      TicksChangeNothing(env, Next(env, w, steps[0]), steps[1..]);
    }
  }

  lemma SettledIsAtRest(env: Env, w: World)
    requires Inv(env, w) && HubUnignored(env, w)
    requires forall n :: n in w.clients ==> ClientSettled(env, w, n)
    ensures AllAtRest(env, w)
  {
  }

  /**
   Convergence, all in one: reach any state in which no client has anything pending (each one's
   SyncUp leaves it so), let every client pull once, in any order, and then tick on in any way. Every
   scanned file of every client agrees with the hub, and since the pulls no history and no file has
   changed.
   */
  lemma PullsConverge(env: Env, start: World, before: seq<Step>, order: seq<Id>, now: nat, ticks: seq<Step>)
    requires Initial(start) && Run(env, start, before)
    requires forall i :: 0 <= i < |before| ==> !ResolvesIgnored(env, before[i])
    requires forall n, p :: n in start.clients ==> BargainRun(env, start, before, n, p)
    requires
      var w := After(env, start, before);
      && (forall n :: n in w.clients ==> ClientPendsNothing(env, w, n) && n in order)
      && (forall i :: 0 <= i < |order| ==> order[i] in w.clients)
      && Run(env, w, DownEach(order, now) + ticks)
    requires forall i :: 0 <= i < |ticks| ==> TickStep(ticks[i])
    ensures Run(env, After(env, start, before), DownEach(order, now))
    ensures
      var w := After(env, start, before);
      var pulled, end := After(env, w, DownEach(order, now)), After(env, w, DownEach(order, now) + ticks);
      && end.clients.Keys == pulled.clients.Keys == w.clients.Keys
      && (forall p :: Past(end.hub, p) == Past(w.hub, p))
      && (forall n, p :: n in w.clients ==> At(end.clients[n], p).file == At(pulled.clients[n], p).file)
      && (forall n, p :: n in w.clients && !env.ignored(p) ==> FileAgrees(At(end.clients[n], p), Past(end.hub, p)))
  {
    hide *;
    ReachableInv(env, start, before);
    AllReachableBacked(env, start, before);
    StartUnignored(env, start);
    RunKeepsUnignored(env, start, before);
    PullsThenTicks(env, After(env, start, before), order, now, ticks);
  }

  lemma StartUnignored(env: Env, w: World)
    requires Initial(w)
    ensures Inv(env, w) && HubUnignored(env, w)
  {
    InitialInv(env, w);
  }

  lemma AllReachableBacked(env: Env, w: World, steps: seq<Step>)
    requires Initial(w) && Run(env, w, steps)
    requires forall n, p :: n in w.clients ==> BargainRun(env, w, steps, n, p)
    ensures forall n :: n in After(env, w, steps).clients ==> ClientBacked(After(env, w, steps), n)
  {
    ClientsRemain(env, w, steps);
    hide Initial, Run, After, CellBacked, BargainRun;
    forall n, p | n in After(env, w, steps).clients
      ensures CellBacked(At(After(env, w, steps).clients[n], p), Past(After(env, w, steps).hub, p))
    {
      ReachableBacked(env, w, steps, n, p);
    }
  }

  lemma {:induction false} ClientsRemain(env: Env, w: World, steps: seq<Step>)
    requires Run(env, w, steps)
    ensures After(env, w, steps).clients.Keys == w.clients.Keys
    decreases |steps|
  {
    if |steps| > 0 {
      ClientsRemain(env, Next(env, w, steps[0]), steps[1..]);
    }
  }

  lemma PullsThenTicks(env: Env, w: World, order: seq<Id>, now: nat, ticks: seq<Step>)
    requires Inv(env, w) && HubUnignored(env, w)
    requires forall n :: n in w.clients ==> ClientPendsNothing(env, w, n) && ClientBacked(w, n) && n in order
    requires forall i :: 0 <= i < |order| ==> order[i] in w.clients
    requires Run(env, w, DownEach(order, now) + ticks)
    requires forall i :: 0 <= i < |ticks| ==> TickStep(ticks[i])
    ensures Run(env, w, DownEach(order, now))
    ensures
      var pulled, end := After(env, w, DownEach(order, now)), After(env, w, DownEach(order, now) + ticks);
      && end.clients.Keys == pulled.clients.Keys == w.clients.Keys
      && (forall p :: Past(end.hub, p) == Past(w.hub, p))
      && (forall n, p :: n in w.clients ==> At(end.clients[n], p).file == At(pulled.clients[n], p).file)
      && (forall n, p :: n in w.clients && !env.ignored(p) ==> FileAgrees(At(end.clients[n], p), Past(end.hub, p)))
  {
    hide *;
    OnePullEachSettles(env, w, order, now);
    RunConcat(env, w, DownEach(order, now), ticks);
    var pulled := After(env, w, DownEach(order, now));
    RunKeepsInv(env, w, DownEach(order, now));
    SameHubUnignored(env, w, pulled);
    SettledIsAtRest(env, pulled);
    TicksChangeNothing(env, pulled, ticks);
    var end := After(env, pulled, ticks);
    forall n, p | n in w.clients && !env.ignored(p) ensures FileAgrees(At(end.clients[n], p), Past(end.hub, p)) {
      SettledAgrees(env, pulled, n, p, At(end.clients[n], p));
    }
  }

  lemma SameHubUnignored(env: Env, w: World, w1: World)
    requires HubUnignored(env, w) && forall p :: Past(w1.hub, p) == Past(w.hub, p)
    ensures HubUnignored(env, w1)
  {
  }

  lemma SettledAgrees(env: Env, w: World, n: Id, p: Path, later: Cell)
    requires n in w.clients && ClientSettled(env, w, n) && !env.ignored(p)
    requires later.file == At(w.clients[n], p).file
    ensures FileAgrees(later, Past(w.hub, p))
  {
    assert Settled(At(w.clients[n], p), Past(w.hub, p), env.ignored(p));
  }

  // ---------------------------------------------------------------- resync

  /** The path is exactly as the hub has it: bytes, version, no lock, no conflict left to resolve. */
  predicate Adopted(c: Cell, past: seq<Write>, ignored: bool) {
    && !Frozen(c) && c.copy.None?
    && c.base == (if |past| == 0 then None else Some(|past|))
    && (Live(past) ==> c.file.Some? && c.file.value.content == Current(past).content)
    && (!Live(past) && c.file.Some? ==> ignored && past == [])
  }

  lemma ResyncAdopts(c: Cell, manifest: seq<Write>, past: seq<Write>, ignored: bool, now: nat)
    requires WellFormed(manifest) && WellFormed(past) && manifest <= past && c.flight.Idle?
    ensures Adopted(DownCell(DiscardCell(c, manifest, ignored), past, now), past, ignored)
  {
  }

  /** A resync leaves a file that is the hub's already untouched, time and all, and adopts its version. */
  lemma ResyncKeepsMatchingFiles(c: Cell, past: seq<Write>, now: nat)
    requires WellFormed(past) && Live(past) && c.flight.Idle?
    requires c.file.Some? && c.file.value.content == Current(past).content
    ensures
      var d := DownCell(DiscardCell(c, past, false), past, now);
      d.file == c.file && d.base == Some(|past|) && d.stamp == Some(StampOf(c.file.value))
  {
  }

  lemma {:induction false} OthersLeaveMine(env: Env, w: World, steps: seq<Step>, n: Id)
    requires Run(env, w, steps) && n in w.clients
    requires forall i :: 0 <= i < |steps| ==> NotBy(steps[i], n)
    ensures n in After(env, w, steps).clients
    ensures After(env, w, steps).clients[n] == w.clients[n]
    decreases |steps|
  {
    if |steps| > 0 {
      assert NotBy(steps[0], n);
      OthersLeaveMine(env, Next(env, w, steps[0]), steps[1..], n);
    }
  }

  /**
   Resync: whatever other clients and agents do between the manifest and the final pull, afterwards
   every path of the client is exactly the hub's as of that pull. Only ignored local files that the
   hub has never heard of are left over.
   */
  lemma ResyncAdoptsTheHub(env: Env, w: World, n: Id, between: seq<Step>, now: nat, p: Path)
    requires Inv(env, w) && n in w.clients && Enabled(env, w, Discard(n))
    requires Run(env, Next(env, w, Discard(n)), between)
    requires forall i :: 0 <= i < |between| ==> NotBy(between[i], n)
    requires Enabled(env, After(env, Next(env, w, Discard(n)), between), Down(n, {}, now))
    ensures
      var pulled := After(env, Next(env, w, Discard(n)), between);
      var done := Next(env, pulled, Down(n, {}, now));
      n in done.clients && Adopted(At(done.clients[n], p), Past(pulled.hub, p), env.ignored(p))
  {
    hide Adopted, DownCell, DiscardCell, CellShape, Next, WellFormed;
    var reset := Next(env, w, Discard(n));
    NextAt(env, w, Discard(n), p);
    NextKeepsInv(env, w, Discard(n));
    OthersLeaveMine(env, reset, between, n);
    HistoryOnlyGrows(env, reset, between, p);
    RunKeepsInv(env, reset, between);
    var pulled := After(env, reset, between);
    assert HistoryOk(Past(w.hub, p)) && HistoryOk(Past(pulled.hub, p)) && PathOk(env, w, n, p);
    NextAt(env, pulled, Down(n, {}, now), p);
    ResyncAdopts(At(w.clients[n], p), Past(w.hub, p), Past(pulled.hub, p), env.ignored(p), now);
  }

  // ---------------------------------------------------------------- markers stay off the hub

  /**
   In every run, what a client pushed carries markers at the hub exactly when the pushed text slips
   through: an opening marker, and a middle marker line that ends in CR LF wherever it stands.
   */
  lemma MarkersNeverPushed(env: Env, w: World, steps: seq<Step>, p: Path, i: nat)
    requires Initial(w) && Run(env, w, steps)
    requires i < |Past(After(env, w, steps).hub, p)|
    ensures
      var written := Past(After(env, w, steps).hub, p)[i];
      written.origin.ByPush? && !written.state.deleted ==>
        (HasConflictMarkers(written.state.content) <==> SlipsThrough(written.origin.raw))
  {
    hide HasConflictMarkers, SlipsThrough;
    ReachableInv(env, w, steps);
    var past := Past(After(env, w, steps).hub, p);
    assert HistoryOk(past);
    if past[i].origin.ByPush? {
      SlipsThroughExactly(past[i].origin.raw);
    }
  }
}

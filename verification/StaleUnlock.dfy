/**
 A run of the system that loses work to a stale unlock: the agent of a client edits a locked file free
 of markers and also resolves the conflict at the hub. The push of the edit is refused and marked anew
 at the resolved version; the queued unlock arrives only then.
 */
module StaleUnlock {
  import opened Text
  import opened Markers
  import opened FileHub
  import opened Scan
  import opened PathSync
  import opened CellInvariant
  import opened Options
  import opened Protocol

  // ---------------------------------------------------------------- one client, one path

  /** A system with one remote client that has nothing but the path p. */
  datatype Solo = Solo(cell: Cell, past: seq<Write>, busy: bool, firstBatch: bool, firstSync: bool, queued: bool)

  function PastOf(s: Solo, p: Path, q: Path): seq<Write> { if q == p then s.past else [] }

  function CellOf(s: Solo, p: Path, q: Path): Cell { if q == p then s.cell else EMPTY }

  function QueuedOf(s: Solo, p: Path): set<Path> { if s.queued then {p} else {} }

  ghost function ClientOf(s: Solo, p: Path): Client {
    Client(imap q: Path | true :: CellOf(s, p, q), false, s.busy, s.firstBatch, s.firstSync)
  }

  ghost function WorldOf(s: Solo, n: Id, p: Path): World {
    World(imap q: Path | true :: PastOf(s, p, q), map[n := ClientOf(s, p)], map[n := QueuedOf(s, p)])
  }

  /** The steps of such a system. */
  predicate OfSolo(s: Step, n: Id, p: Path) {
    match s
    case Edit(m, q, _) => m == n && q == p
    case Plan(m) => m == n
    case Send(m, q) => m == n && q == p
    case Absorb(m, _) => m == n
    case Down(m, unlock, _) => m == n && unlock <= {p}
    case AgentResolve(_, q, _) => q == p
    case _ => false
  }

  function SoloNext(env: Env, s: Solo, n: Id, p: Path, step: Step): Solo {
    match step
    case Edit(_, _, file) => s.(cell := s.cell.(file := file))
    case Plan(_) =>
      s.(cell := PlanCell(s.cell, env.ignored(p)), busy := true, firstBatch := s.firstSync, firstSync := false)
    case Send(_, _) => s.(cell := SendCell(s.cell, s.past), past := SendPast(s.cell, s.past, n))
    case Absorb(_, now) => s.(cell := AbsorbCell(s.cell, s.firstBatch, env.diff, now), busy := false)
    case Down(_, unlock, now) =>
      s.(cell := DownCell(if p in unlock then UnlockCell(s.cell) else s.cell, s.past, now),
         queued := s.queued && p !in unlock)
    case AgentResolve(agent, _, merged) =>
      s.(past := ResolvePast(s.past, agent, merged), queued := s.queued || agent == n)
    case _ => s
  }

  predicate SoloEnabled(s: Solo, p: Path, step: Step) {
    match step
    case Plan(_) => !s.busy
    case Send(_, _) => s.cell.flight.Sending?
    case Absorb(_, _) => s.busy && !s.cell.flight.Sending?
    case Down(_, unlock, _) => !s.busy && (p in unlock ==> s.queued)
    case _ => true
  }

  lemma SoloEnabledIs(env: Env, s: Solo, n: Id, p: Path, step: Step)
    requires OfSolo(step, n, p) && SoloEnabled(s, p, step)
    ensures Enabled(env, WorldOf(s, n, p), step)
  {
  }

  lemma SoloMail(env: Env, s: Solo, n: Id, p: Path, step: Step)
    requires OfSolo(step, n, p) && SoloEnabled(s, p, step)
    ensures MailAfter(WorldOf(s, n, p), step) == map[n := QueuedOf(SoloNext(env, s, n, p, step), p)]
  {
    hide PlanCell, SendCell, SendPast, AbsorbCell, DownCell, ResolvePast;
    var w := WorldOf(s, n, p);
    assert MailOf(w, n) == QueuedOf(s, p);
    if step.Down? {
      assert step.unlock == if p in step.unlock then {p} else {};
    }
    assert MailAfter(w, step).Keys == {n};
    assert MailAfter(w, step)[n] == QueuedOf(SoloNext(env, s, n, p, step), p);
  }

  /** What the step makes of each path: of p as said, of the others nothing. */
  lemma SoloPath(env: Env, s: Solo, n: Id, p: Path, step: Step, q: Path)
    requires OfSolo(step, n, p) && SoloEnabled(s, p, step) && n in WorldOf(s, n, p).clients
    ensures PastAfter(WorldOf(s, n, p), step, q) == PastOf(SoloNext(env, s, n, p, step), p, q)
    ensures ClientStep(step) ==>
      CellAfter(env, WorldOf(s, n, p), step, q) == CellOf(SoloNext(env, s, n, p, step), p, q)
    ensures !ClientStep(step) ==>
      var s' := SoloNext(env, s, n, p, step);
      && CellOf(s, p, q) == CellOf(s', p, q)
      && s.busy == s'.busy && s.firstBatch == s'.firstBatch && s.firstSync == s'.firstSync
  {
    hide HasConflictMarkers, PushAnswer, PushPast, ResolvePast, Merged;
    if q == p {
      hide PlanCell, SendCell, SendPast, AbsorbCell, DownCell;
    }
  }

  lemma SoloHub(env: Env, s: Solo, n: Id, p: Path, step: Step)
    requires OfSolo(step, n, p) && SoloEnabled(s, p, step) && Enabled(env, WorldOf(s, n, p), step)
    ensures Next(env, WorldOf(s, n, p), step).hub == WorldOf(SoloNext(env, s, n, p, step), n, p).hub
  {
    forall q
      ensures PastAfter(WorldOf(s, n, p), step, q) == PastOf(SoloNext(env, s, n, p, step), p, q)
    {
      SoloPath(env, s, n, p, step, q);
    }
    hide PastAfter, PastOf, SoloNext, CellAfter, MailAfter, ModeAfter, OfSolo, SoloEnabled, Enabled;
  }

  lemma SoloClients(env: Env, s: Solo, n: Id, p: Path, step: Step)
    requires OfSolo(step, n, p) && SoloEnabled(s, p, step) && Enabled(env, WorldOf(s, n, p), step)
    ensures Next(env, WorldOf(s, n, p), step).clients == WorldOf(SoloNext(env, s, n, p, step), n, p).clients
  {
    var w, s' := WorldOf(s, n, p), SoloNext(env, s, n, p, step);
    if ClientStep(step) {
      forall q ensures CellAfter(env, w, step, q) == CellOf(s', p, q) {
        SoloPath(env, s, n, p, step, q);
      }
      OwnClient(s, n, p, step);
      SoloMode(env, s, n, p, step);
      hide WorldOf, PastAfter, CellAfter, CellOf, MailAfter, SoloNext, ModeAfter, Enabled, OfSolo, SoloEnabled;
      SameCells(env, w, step, s', p);
      WorldHas(s', n, p);
    } else {
      forall q ensures CellOf(s, p, q) == CellOf(s', p, q) {
        SoloPath(env, s, n, p, step, q);
      }
      hide CellOf, PastAfter, MailAfter, SoloNext, OfSolo, SoloEnabled, PastOf, QueuedOf;
      UntouchedClient(s, s', p);
    }
  }

  lemma OwnClient(s: Solo, n: Id, p: Path, step: Step)
    requires OfSolo(step, n, p) && ClientStep(step)
    ensures step.n == n && WorldOf(s, n, p).clients == map[n := ClientOf(s, p)]
  {
  }

  lemma WorldHas(s: Solo, n: Id, p: Path)
    ensures WorldOf(s, n, p).clients == map[n := ClientOf(s, p)]
  {
  }

  lemma SameCells(env: Env, w: World, step: Step, s: Solo, p: Path)
    requires ClientStep(step) && step.n in w.clients
    requires forall q :: CellAfter(env, w, step, q) == CellOf(s, p, q)
    ensures (imap q: Path | true :: CellAfter(env, w, step, q)) == ClientOf(s, p).cells
  {
    hide CellAfter, CellOf;
  }

  lemma UntouchedClient(s: Solo, later: Solo, p: Path)
    requires forall q :: CellOf(s, p, q) == CellOf(later, p, q)
    requires s.busy == later.busy && s.firstBatch == later.firstBatch && s.firstSync == later.firstSync
    ensures ClientOf(s, p) == ClientOf(later, p)
  {
    hide CellOf;
    assert ClientOf(s, p).cells == ClientOf(later, p).cells;
  }

  lemma SoloMode(env: Env, s: Solo, n: Id, p: Path, step: Step)
    requires OfSolo(step, n, p) && ClientStep(step)
    ensures
      var s' := SoloNext(env, s, n, p, step);
      ModeAfter(ClientOf(s, p), step).(cells := ClientOf(s', p).cells) == ClientOf(s', p)
  {
    hide PlanCell, SendCell, SendPast, AbsorbCell, DownCell, CellOf;
  }

  lemma SoloStep(env: Env, s: Solo, n: Id, p: Path, step: Step)
    requires OfSolo(step, n, p) && SoloEnabled(s, p, step)
    ensures Enabled(env, WorldOf(s, n, p), step)
    ensures Next(env, WorldOf(s, n, p), step) == WorldOf(SoloNext(env, s, n, p, step), n, p)
  {
    SoloEnabledIs(env, s, n, p, step);
    SoloMail(env, s, n, p, step);
    SoloHub(env, s, n, p, step);
    SoloClients(env, s, n, p, step);
    NextAt(env, WorldOf(s, n, p), step, p);
    hide Next, MailAfter, ClientOf, SoloNext, Enabled, CellAfter, PastAfter, PastOf;
  }

  // ---------------------------------------------------------------- runs of it

  predicate SoloRun(env: Env, s: Solo, n: Id, p: Path, steps: seq<Step>)
    decreases |steps|
  {
    |steps| > 0 ==>
      && OfSolo(steps[0], n, p) && SoloEnabled(s, p, steps[0])
      && SoloRun(env, SoloNext(env, s, n, p, steps[0]), n, p, steps[1..])
  }

  function SoloAfter(env: Env, s: Solo, n: Id, p: Path, steps: seq<Step>): Solo
    decreases |steps|
  {
    if |steps| == 0 then s else SoloAfter(env, SoloNext(env, s, n, p, steps[0]), n, p, steps[1..])
  }

  lemma {:induction false} SoloRunIsRun(env: Env, s: Solo, n: Id, p: Path, steps: seq<Step>)
    requires SoloRun(env, s, n, p, steps)
    ensures Run(env, WorldOf(s, n, p), steps)
    ensures After(env, WorldOf(s, n, p), steps) == WorldOf(SoloAfter(env, s, n, p, steps), n, p)
    decreases |steps|
  {
    hide WorldOf, SoloNext, Next, Enabled, OfSolo, SoloEnabled;
    if |steps| > 0 {
      SoloStep(env, s, n, p, steps[0]);
      SoloRunIsRun(env, SoloNext(env, s, n, p, steps[0]), n, p, steps[1..]);
    }
  }

  lemma SoloConcat(env: Env, s: Solo, n: Id, p: Path, a: seq<Step>, b: seq<Step>)
    requires SoloRun(env, s, n, p, a) && SoloRun(env, SoloAfter(env, s, n, p, a), n, p, b)
    ensures SoloRun(env, s, n, p, a + b)
    ensures SoloAfter(env, s, n, p, a + b) == SoloAfter(env, SoloAfter(env, s, n, p, a), n, p, b)
    decreases |a|
  {
    hide SoloNext, OfSolo, SoloEnabled;
    if |a| == 0 {
      assert a + b == b;
    } else {
      assert (a + b)[0] == a[0] && (a + b)[1..] == a[1..] + b;
      SoloConcat(env, SoloNext(env, s, n, p, a[0]), n, p, a[1..], b);
    }
  }

  // ---------------------------------------------------------------- the run

  const START := Solo(EMPTY, [], false, false, true, false)

  /** A file whose last-synced revision is the file itself, at a base version. */
  function Tracked(f: File, v: nat, locked: bool): Cell {
    EMPTY.(file := Some(f), base := Some(v), stamp := Some(StampOf(f)), locked := locked)
  }

  function At1(s: seq<Write>, agent: Id, text: Content): seq<Write> {
    s + [Write(FileState(text, |s| + 1, agent, false), ByResolve)]
  }

  lemma ResolvedAs(past: seq<Write>, agent: Id, text: Content)
    requires WellFormed(past) && CR !in text
    ensures ResolvePast(past, agent, text) == At1(past, agent, text) && WellFormed(At1(past, agent, text))
  {
    NoCrIsFixed(text);
  }

  /** The first version arrives: a peer writes it, the client scans nothing and pulls. */
  function Arrival(n: Id, p: Path, text: Content, now: nat): seq<Step> {
    [AgentResolve("peer", p, text)] + ([Plan(n)] + ([Absorb(n, now)] + ([Down(n, {}, now)] + [])))
  }

  /** The file is edited, the hub's version moves on, and the edit is pushed, refused and marked. */
  function Refusal(n: Id, p: Path, agent: Id, edit: File, text: Content, now: nat): seq<Step> {
    [Step.Edit(n, p, Some(edit))]
    + ([AgentResolve(agent, p, text)] + ([Plan(n)] + ([Send(n, p)] + ([Absorb(n, now)] + []))))
  }

  /** The queued unlock is applied, a peer writes once more, the client scans and pulls. */
  function UnlockAndPull(n: Id, p: Path, text: Content, now: nat): seq<Step> {
    [Down(n, {p}, now)]
    + ([AgentResolve("peer", p, text)] + ([Plan(n)] + ([Absorb(n, now)] + ([Down(n, {}, now)] + []))))
  }

  lemma SoloCons(env: Env, s: Solo, n: Id, p: Path, step: Step, rest: seq<Step>)
    requires OfSolo(step, n, p) && SoloEnabled(s, p, step) && SoloRun(env, SoloNext(env, s, n, p, step), n, p, rest)
    ensures SoloRun(env, s, n, p, [step] + rest)
    ensures SoloAfter(env, s, n, p, [step] + rest) == SoloAfter(env, SoloNext(env, s, n, p, step), n, p, rest)
  {
    hide SoloNext, OfSolo, SoloEnabled;
    assert ([step] + rest)[1..] == rest;
  }

  lemma SoloNil(env: Env, s: Solo, n: Id, p: Path)
    ensures SoloRun(env, s, n, p, []) && SoloAfter(env, s, n, p, []) == s
  {
  }

  lemma Arrives(env: Env, n: Id, p: Path, text: Content, now: nat)
    requires CR !in text && n != "peer"
    ensures SoloRun(env, START, n, p, Arrival(n, p, text, now))
    ensures
      SoloAfter(env, START, n, p, Arrival(n, p, text, now))
      == Solo(Tracked(File(text, now), 1, false), At1([], "peer", text), false, true, false, false)
  {
    var s1 := SoloNext(env, START, n, p, AgentResolve("peer", p, text));
    ResolvedAs([], "peer", text);
    var s2 := SoloNext(env, s1, n, p, Plan(n));
    var s3 := SoloNext(env, s2, n, p, Absorb(n, now));
    var s4 := SoloNext(env, s3, n, p, Down(n, {}, now));
    assert s2 == Solo(EMPTY, At1([], "peer", text), true, true, false, false);
    assert s3 == Solo(EMPTY, At1([], "peer", text), false, true, false, false);
    assert s4 == Solo(Tracked(File(text, now), 1, false), At1([], "peer", text), false, true, false, false);
    hide SoloNext, SoloRun, SoloAfter, ResolvePast, Tracked, At1;
    SoloNil(env, s4, n, p);
    SoloCons(env, s3, n, p, Down(n, {}, now), []);
    SoloCons(env, s2, n, p, Absorb(n, now), [Down(n, {}, now)] + []);
    SoloCons(env, s1, n, p, Plan(n), [Absorb(n, now)] + ([Down(n, {}, now)] + []));
    SoloCons(env, START, n, p, AgentResolve("peer", p, text),
             [Plan(n)] + ([Absorb(n, now)] + ([Down(n, {}, now)] + [])));
  }

  /** The requirements of one refusal: a tracked file, an unmarked edit of it, a new text at the hub. */
  ghost predicate Refusable(s: Solo, f: File, edit: File, text: Content) {
    && WellFormed(s.past) && |s.past| > 0 && !s.busy && !s.firstSync
    && s.cell == Tracked(f, |s.past|, s.cell.locked)
    && edit.modNano != f.modNano && edit.content != f.content && !HasConflictMarkers(edit.content)
    && CR !in text
  }

  function Marked(env: Env, edit: File, text: Content, v: nat, now: nat): File {
    File(Merged(edit.content, 0, env.diff(edit.content, text), v), now)
  }

  /** The push of the edit is refused at the newer version, and the file marked and locked there. */
  lemma IsRefused(env: Env, s: Solo, n: Id, p: Path, agent: Id, f: File, edit: File, text: Content, now: nat)
    requires Refusable(s, f, edit, text) && !env.ignored(p)
    ensures SoloRun(env, s, n, p, Refusal(n, p, agent, edit, text, now))
    ensures
      SoloAfter(env, s, n, p, Refusal(n, p, agent, edit, text, now))
      == Solo(Tracked(Marked(env, edit, text, |s.past| + 1, now), |s.past| + 1, true), At1(s.past, agent, text),
              false, false, false, s.queued || agent == n)
  {
    var later := At1(s.past, agent, text);
    ResolvedAs(s.past, agent, text);
    var s1 := SoloNext(env, s, n, p, Step.Edit(n, p, Some(edit)));
    var s2 := SoloNext(env, s1, n, p, AgentResolve(agent, p, text));
    var s3 := SoloNext(env, s2, n, p, Plan(n));
    var s4 := SoloNext(env, s3, n, p, Send(n, p));
    var s5 := SoloNext(env, s4, n, p, Absorb(n, now));
    PlannedAndRefused(env, s2, n, p, f, edit, later, now);
    hide SoloNext, SoloRun, SoloAfter, ResolvePast, Tracked, At1, Marked;
    SoloNil(env, s5, n, p);
    SoloCons(env, s4, n, p, Absorb(n, now), []);
    SoloCons(env, s3, n, p, Send(n, p), [Absorb(n, now)] + []);
    SoloCons(env, s2, n, p, Plan(n), [Send(n, p)] + ([Absorb(n, now)] + []));
    SoloCons(env, s1, n, p, AgentResolve(agent, p, text), [Plan(n)] + ([Send(n, p)] + ([Absorb(n, now)] + [])));
    SoloCons(env, s, n, p, Step.Edit(n, p, Some(edit)),
             [AgentResolve(agent, p, text)] + ([Plan(n)] + ([Send(n, p)] + ([Absorb(n, now)] + []))));
  }

  lemma PlannedAndRefused(env: Env, s2: Solo, n: Id, p: Path, f: File, edit: File, later: seq<Write>, now: nat)
    requires WellFormed(later) && |later| > 1 && !env.ignored(p) && !s2.busy && !s2.firstSync && s2.past == later
    requires s2.cell == Tracked(f, |later| - 1, s2.cell.locked).(file := Some(edit))
    requires edit.modNano != f.modNano && edit.content != f.content && !HasConflictMarkers(edit.content)
    ensures SoloEnabled(s2, p, Plan(n))
    ensures
      var s3 := SoloNext(env, s2, n, p, Plan(n));
      && SoloEnabled(s3, p, Send(n, p))
      && var s4 := SoloNext(env, s3, n, p, Send(n, p));
         && SoloEnabled(s4, p, Absorb(n, now))
         && SoloNext(env, s4, n, p, Absorb(n, now))
            == Solo(Tracked(Marked(env, edit, Current(later).content, |later|, now), |later|, true), later,
                    false, false, false, s2.queued)
  {
    hide HasConflictMarkers;
    var ch := Change(edit.content, false, |later| - 1);
    assert PlanCell(s2.cell, false)
        == s2.cell.(locked := false, flight := Sending(ch, Some(StampOf(edit))));
    assert PushAnswer(later, ch) == Rejected(Current(later)) && PushPast(later, n, ch) == later;
  }

  /** The unlock releases the marked file at the hub's own version; the scan passes it; the pull replaces it. */
  lemma IsOverwritten(env: Env, s: Solo, n: Id, p: Path, f: File, text: Content, now: nat)
    requires WellFormed(s.past) && |s.past| > 0 && !s.busy && !s.firstSync && s.queued && n != "peer"
    requires s.cell == Tracked(f, |s.past|, true) && CR !in text && !env.ignored(p)
    ensures SoloRun(env, s, n, p, UnlockAndPull(n, p, text, now))
    ensures SoloAfter(env, s, n, p, UnlockAndPull(n, p, text, now)).past == At1(s.past, "peer", text)
    ensures SoloAfter(env, s, n, p, UnlockAndPull(n, p, text, now)).cell.file == Some(File(text, now))
  {
    var s1 := SoloNext(env, s, n, p, Down(n, {p}, now));
    var s2 := SoloNext(env, s1, n, p, AgentResolve("peer", p, text));
    ResolvedAs(s.past, "peer", text);
    var s3 := SoloNext(env, s2, n, p, Plan(n));
    var s4 := SoloNext(env, s3, n, p, Absorb(n, now));
    var s5 := SoloNext(env, s4, n, p, Down(n, {}, now));
    assert s1 == s.(cell := Tracked(f, |s.past|, false), queued := false);
    assert s2 == s1.(past := At1(s.past, "peer", text));
    assert s3.cell == s2.cell;
    assert s4.cell == s2.cell && !s4.busy && s4.past == s2.past;
    hide SoloNext, SoloRun, SoloAfter, ResolvePast, Tracked, At1;
    SoloNil(env, s5, n, p);
    SoloCons(env, s4, n, p, Down(n, {}, now), []);
    SoloCons(env, s3, n, p, Absorb(n, now), [Down(n, {}, now)] + []);
    SoloCons(env, s2, n, p, Plan(n), [Absorb(n, now)] + ([Down(n, {}, now)] + []));
    SoloCons(env, s1, n, p, AgentResolve("peer", p, text), [Plan(n)] + ([Absorb(n, now)] + ([Down(n, {}, now)] + [])));
    SoloCons(env, s, n, p, Down(n, {p}, now),
             [AgentResolve("peer", p, text)] + ([Plan(n)] + ([Absorb(n, now)] + ([Down(n, {}, now)] + []))));
  }

  /** Two texts the client's side writes, mine and fixed, and four that the hub stores. */
  datatype Texts = Texts(
    synced: Content, mine: Content, theirs: Content, fixed: Content, merged: Content, last: Content)

  predicate Suitable(x: Texts) {
    && CR !in x.synced && CR !in x.theirs && CR !in x.fixed && CR !in x.merged && CR !in x.last
    && x.mine != x.synced && x.mine != x.theirs && !HasConflictMarkers(x.mine)
    && x.fixed !in {x.synced, x.theirs, x.merged, x.last} && !HasConflictMarkers(x.fixed)
  }

  function StaleRun(n: Id, p: Path, x: Texts, now: nat): seq<Step> {
    Arrival(n, p, x.synced, now)
    + (Refusal(n, p, "peer", File(x.mine, now + 1), x.theirs, now + 2)
    + (Refusal(n, p, n, File(x.fixed, now + 3), x.merged, now + 4)
    + UnlockAndPull(n, p, x.last, now + 5)))
  }

  /**
   The run: p is synced, edited and refused, so marked and locked. The agent writes the file free of
   markers and resolves the conflict at the hub as well; the file is refused and marked anew at the
   resolved version; the unlock then releases it, the next scan passes it, the next pull replaces it.
   The hub has never held what the agent wrote, and no user has broken the bargain.
   */
  lemma StaleUnlockLosesWork(env: Env, n: Id, p: Path, x: Texts, now: nat)
    requires Suitable(x) && n != "peer" && !env.ignored(p)
    ensures Initial(WorldOf(START, n, p))
    ensures Run(env, WorldOf(START, n, p), StaleRun(n, p, x, now))
    ensures
      var end := After(env, WorldOf(START, n, p), StaleRun(n, p, x, now));
      && n in end.clients && At(end.clients[n], p).file == Some(File(x.last, now + 5))
      && !Preserved(Past(end.hub, p), x.fixed)
  {
    StartsInitial(n, p);
    StaleRunEnds(env, n, p, x, now);
    NeverHeld(x, n);
    hide SoloRun, SoloAfter, StaleRun, Initial, Preserved, Suitable, At1;
    SoloRunIsRun(env, START, n, p, StaleRun(n, p, x, now));
  }

  lemma StaleRunEnds(env: Env, n: Id, p: Path, x: Texts, now: nat)
    requires Suitable(x) && n != "peer" && !env.ignored(p)
    ensures SoloRun(env, START, n, p, StaleRun(n, p, x, now))
    ensures
      var end := SoloAfter(env, START, n, p, StaleRun(n, p, x, now));
      && end.cell.file == Some(File(x.last, now + 5))
      && end.past == At1(At1(At1(At1([], "peer", x.synced), "peer", x.theirs), n, x.merged), "peer", x.last)
  {
    var a, b := Arrival(n, p, x.synced, now), Refusal(n, p, "peer", File(x.mine, now + 1), x.theirs, now + 2);
    var c, d := Refusal(n, p, n, File(x.fixed, now + 3), x.merged, now + 4), UnlockAndPull(n, p, x.last, now + 5);
    var s1, s2, s3 := AfterArrival(x, now), AfterFirst(env, x, now), AfterSecond(env, n, x, now);
    Arrives(env, n, p, x.synced, now);
    FirstRefusal(env, n, p, x, now);
    SecondRefusal(env, n, p, x, now);
    LastOverwrite(env, n, p, x, now);
    assert s1 == AfterArrival(x, now);
    hide *;
    SoloConcat(env, s2, n, p, c, d);
    SoloConcat(env, s1, n, p, b, c + d);
    SoloConcat(env, START, n, p, a, b + (c + d));
    StaleRunIs(n, p, x, now);
  }

  lemma LastOverwrite(env: Env, n: Id, p: Path, x: Texts, now: nat)
    requires Suitable(x) && n != "peer" && !env.ignored(p)
    ensures
      var d := UnlockAndPull(n, p, x.last, now + 5);
      var end := SoloAfter(env, AfterSecond(env, n, x, now), n, p, d);
      && SoloRun(env, AfterSecond(env, n, x, now), n, p, d)
      && end.cell.file == Some(File(x.last, now + 5))
      && end.past == At1(At1(At1(At1([], "peer", x.synced), "peer", x.theirs), n, x.merged), "peer", x.last)
  {
    hide HasConflictMarkers, Merged, SoloRun, SoloAfter, UnlockAndPull;
    Histories(x, n);
    IsOverwritten(env, AfterSecond(env, n, x, now), n, p,
                  Marked(env, File(x.fixed, now + 3), x.merged, 3, now + 4), x.last, now + 5);
  }

  lemma StaleRunIs(n: Id, p: Path, x: Texts, now: nat)
    ensures StaleRun(n, p, x, now) ==
      Arrival(n, p, x.synced, now)
      + (Refusal(n, p, "peer", File(x.mine, now + 1), x.theirs, now + 2)
      + (Refusal(n, p, n, File(x.fixed, now + 3), x.merged, now + 4)
      + UnlockAndPull(n, p, x.last, now + 5)))
  {
  }

  function AfterArrival(x: Texts, now: nat): Solo {
    Solo(Tracked(File(x.synced, now), 1, false), At1([], "peer", x.synced), false, true, false, false)
  }

  function FirstMarked(env: Env, x: Texts, now: nat): File {
    Marked(env, File(x.mine, now + 1), x.theirs, 2, now + 2)
  }

  function AfterFirst(env: Env, x: Texts, now: nat): Solo {
    Solo(Tracked(FirstMarked(env, x, now), 2, true), At1(At1([], "peer", x.synced), "peer", x.theirs),
         false, false, false, false)
  }

  function AfterSecond(env: Env, n: Id, x: Texts, now: nat): Solo {
    Solo(Tracked(Marked(env, File(x.fixed, now + 3), x.merged, 3, now + 4), 3, true),
         At1(At1(At1([], "peer", x.synced), "peer", x.theirs), n, x.merged), false, false, false, true)
  }

  lemma Histories(x: Texts, n: Id)
    requires Suitable(x)
    ensures
      var h1 := At1([], "peer", x.synced);
      var h2 := At1(h1, "peer", x.theirs);
      var h3 := At1(h2, n, x.merged);
      && WellFormed(h1) && |h1| == 1 && WellFormed(h2) && |h2| == 2 && WellFormed(h3) && |h3| == 3
  {
    hide HasConflictMarkers;
    var h1 := At1([], "peer", x.synced);
    ResolvedAs([], "peer", x.synced);
    ResolvedAs(h1, "peer", x.theirs);
    ResolvedAs(At1(h1, "peer", x.theirs), n, x.merged);
  }

  lemma FirstRefusal(env: Env, n: Id, p: Path, x: Texts, now: nat)
    requires Suitable(x) && n != "peer" && !env.ignored(p)
    ensures
      var b := Refusal(n, p, "peer", File(x.mine, now + 1), x.theirs, now + 2);
      && SoloRun(env, AfterArrival(x, now), n, p, b)
      && SoloAfter(env, AfterArrival(x, now), n, p, b) == AfterFirst(env, x, now)
  {
    hide HasConflictMarkers, Merged, SoloRun, SoloAfter, Refusal;
    Histories(x, n);
    IsRefused(env, AfterArrival(x, now), n, p, "peer", File(x.synced, now), File(x.mine, now + 1), x.theirs, now + 2);
  }

  lemma SecondRefusal(env: Env, n: Id, p: Path, x: Texts, now: nat)
    requires Suitable(x) && n != "peer" && !env.ignored(p)
    ensures
      var c := Refusal(n, p, n, File(x.fixed, now + 3), x.merged, now + 4);
      && SoloRun(env, AfterFirst(env, x, now), n, p, c)
      && SoloAfter(env, AfterFirst(env, x, now), n, p, c) == AfterSecond(env, n, x, now)
  {
    hide HasConflictMarkers, Merged, SoloRun, SoloAfter, Refusal;
    Histories(x, n);
    MarkedDiffers(env, x, now);
    assert FirstMarked(env, x, now).modNano == now + 2;
    hide FirstMarked;
    IsRefused(env, AfterFirst(env, x, now), n, p, n, FirstMarked(env, x, now), File(x.fixed, now + 3),
              x.merged, now + 4);
  }

  lemma StartsInitial(n: Id, p: Path)
    ensures Initial(WorldOf(START, n, p))
  {
  }

  /** The marked file differs from the unmarked text written over it. */
  lemma MarkedDiffers(env: Env, x: Texts, now: nat)
    requires Suitable(x)
    ensures FirstMarked(env, x, now).content != x.fixed
  {
    hide HasConflictMarkers;
    MergedIsMarked(x.mine, x.theirs, env.diff(x.mine, x.theirs), 2);
  }

  lemma NeverHeld(x: Texts, n: Id)
    requires Suitable(x)
    ensures
      var past := At1(At1(At1(At1([], "peer", x.synced), "peer", x.theirs), n, x.merged), "peer", x.last);
      !Preserved(past, x.fixed)
  {
    NoCrIsFixed(x.fixed);
  }
}

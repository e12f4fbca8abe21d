/**
 What a client knew of the version it replaced. A push stores a new version on top of the client's
 base; over every run that base is a version the client had on disk or was shown in a conflict, unless
 it was merely adopted after a restart. After a restart, a file left behind by the hub is pushed over it.
 */
module Provenance {
  import opened Text
  import opened Markers
  import opened FileHub
  import opened PathSync
  import opened CellInvariant
  import opened Options
  import opened Protocol

  // ---------------------------------------------------------------- after a restart

  /**
   What a restarted client's first sync does to a live path, exactly: an unmarked file, edited or not,
   is stored as the hub's next version if and only if its text, normalised, is not the hub's. So a file
   that is merely behind reverts the hub's newer version.
   */
  lemma ResumedPushRevertsExactly(c: Cell, past: seq<Write>, node: string)
    requires c == RestartCell(c) && c.file.Some? && !HasConflictMarkers(c.file.value.content)
    requires WellFormed(past) && Live(past)
    ensures
      var later := UpPast(ResumeCell(c, past), past, false, node);
      && (later != past <==> NormalizeForTransit(c.file.value.content) != Current(past).content)
      && Live(later) && Current(later).content == NormalizeForTransit(c.file.value.content)
    ensures UpPast(ViewResumeCell(c, past), past, false, node) == UpPast(ResumeCell(c, past), past, false, node)
  {
    hide HasConflictMarkers, NormalizeForTransit;
  }

  // ---------------------------------------------------------------- what a client has seen

  /** What stands at the path: a text, or nothing. */
  function OnDisk(c: Cell): Option<Content> { if c.file.Some? then Some(c.file.value.content) else None }

  /** The client had the version on disk, up to line ends, or a conflict written from it. */
  ghost predicate Knew(seen: iset<Option<Content>>, diff: LineDiff, f: FileState) {
    || (f.deleted && None in seen)
    || (!f.deleted && exists x: Content :: Some(x) in seen && Agrees(x, f.content))
    || exists local: Content :: Some(Merged(local, 0, diff(local, f.content), f.version)) in seen
  }

  lemma KnewMore(seen: iset<Option<Content>>, more: iset<Option<Content>>, diff: LineDiff, f: FileState)
    requires Knew(seen, diff, f) && seen <= more
    ensures Knew(more, diff, f)
  {
    hide Merged, Agrees;
  }

  /** The client's record agrees with what it has seen; `adopted` says its base is only taken over. */
  ghost predicate Informed(c: Cell, past: seq<Write>, seen: iset<Option<Content>>, adopted: bool, diff: LineDiff) {
    && OnDisk(c) in seen
    && (c.base.Some? && !adopted ==>
          KnownVersion(past, c.base.value) && Knew(seen, diff, past[c.base.value - 1].state))
    && (!c.flight.Idle? ==> (if c.flight.scanned.Some? then Some(c.flight.scanned.value.hash.of) else None) in seen)
  }

  /** The base is taken over without being seen, or set to something seen, or left. */
  predicate AdoptedAfter(env: Env, w: World, s: Step, n: Id, p: Path, adopted: bool)
    requires n in w.clients
  {
    if !ClientStep(s) || s.n != n then adopted
    else
      var c := w.clients[n];
      var cell, cell' := At(c, p), CellAfter(env, w, s, p);
      match s
      case Resume(_) => cell'.base.Some?
      case Restart(_) => false
      case Discard(_) => false
      case Absorb(_, _) =>
        if cell.flight.Answered? && cell.flight.result.Applied? then false
        else if c.inProcess && cell.file.Some? && HasConflictMarkers(cell.file.value.content)
        then adopted || cell'.base != cell.base
        else adopted && cell'.base == cell.base
      case _ => adopted && cell'.base == cell.base
  }

  lemma InformedAsHubGrows(c: Cell, past: seq<Write>, later: seq<Write>, seen: iset<Option<Content>>,
                           adopted: bool, diff: LineDiff)
    requires Informed(c, past, seen, adopted, diff) && past <= later
    ensures Informed(c, later, seen, adopted, diff)
  {
    hide Knew;
  }

  lemma PlanInforms(c: Cell, past: seq<Write>, seen: iset<Option<Content>>, adopted: bool, diff: LineDiff)
    requires Informed(c, past, seen, adopted, diff) && c.flight.Idle?
    ensures Informed(PlanCell(c, false), past, seen, adopted, diff) && PlanCell(c, false).base == c.base
  {
    hide Knew, HasConflictMarkers;
  }

  lemma SendInforms(c: Cell, past: seq<Write>, seen: iset<Option<Content>>, adopted: bool, diff: LineDiff)
    requires Informed(c, past, seen, adopted, diff)
    ensures Informed(SendCell(c, past), past, seen, adopted, diff) && SendCell(c, past).base == c.base
  {
    hide Knew, PushAnswer;
  }

  /** An accepted push: the version is what was sent, and that was seen. */
  lemma AcceptedWasSeen(c: Cell, past: seq<Write>, seen: iset<Option<Content>>, adopted: bool, diff: LineDiff)
    requires Informed(c, past, seen, adopted, diff) && CellShape(c, past)
    requires c.flight.Answered? && c.flight.result.Applied?
    ensures
      var v := c.flight.result.version;
      KnownVersion(past, v) && Knew(seen, diff, past[v - 1].state)
  {
    hide Merged;
    if c.flight.scanned.Some? {
      assert Agrees(c.flight.scanned.value.hash.of, past[c.flight.result.version - 1].state.content);
    }
  }

  /** A conflict written over the file shows the version it was written from. */
  lemma MarkedIsShown(c: Cell, past: seq<Write>, hub: FileState, seen: iset<Option<Content>>, diff: LineDiff, now: nat)
    requires c.file.Some? && IsVersion(past, hub) && OnDisk(MarkCell(c, hub, diff, now)) in seen
    ensures Knew(seen, diff, past[hub.version - 1].state)
  {
    hide Merged;
    var local := c.file.value.content;
    assert Some(Merged(local, 0, diff(local, hub.content), hub.version)) in seen;
  }

  lemma TakenIsSeen(c: Cell, past: seq<Write>, seen: iset<Option<Content>>, diff: LineDiff, now: nat)
    requires WellFormed(past) && |past| > 0 && OnDisk(TakenCell(c, Current(past), now)) in seen
    ensures Knew(seen, diff, past[|past| - 1].state)
  {
    hide Merged;
    if !Current(past).deleted {
      assert Agrees(Current(past).content, Current(past).content);
    }
  }

  // ---------------------------------------------------------------- one step

  /** The record stays informed when the base is left alone or set to a version seen. */
  lemma StaysInformed(c: Cell, d: Cell, past: seq<Write>, seen: iset<Option<Content>>, more: iset<Option<Content>>,
                      adopted: bool, later: bool, diff: LineDiff)
    requires Informed(c, past, seen, adopted, diff) && seen <= more && OnDisk(d) in more
    requires d.flight.Idle? || d.flight == c.flight
    requires d.base.Some? && !later ==>
               || (d.base == c.base && !adopted)
               || (KnownVersion(past, d.base.value) && Knew(more, diff, past[d.base.value - 1].state))
    ensures Informed(d, past, more, later, diff)
  {
    hide Knew;
    if d.base.Some? && !later && d.base == c.base && !adopted {
      KnewMore(seen, more, diff, past[d.base.value - 1].state);
    }
  }

  lemma InformedMore(c: Cell, past: seq<Write>, seen: iset<Option<Content>>, more: iset<Option<Content>>,
                     adopted: bool, diff: LineDiff)
    requires Informed(c, past, seen, adopted, diff) && seen <= more
    ensures Informed(c, past, more, adopted, diff)
  {
    StaysInformed(c, c, past, seen, more, adopted, adopted, diff);
    hide Knew;
  }

  lemma AbsorbInforms(c: Cell, past: seq<Write>, seen: iset<Option<Content>>, more: iset<Option<Content>>,
                      adopted: bool, first: bool, diff: LineDiff, now: nat)
    requires Informed(c, past, seen, adopted, diff) && CellShape(c, past) && !c.flight.Sending?
    requires seen <= more && OnDisk(AbsorbCell(c, first, diff, now)) in more
    ensures
      var d := AbsorbCell(c, first, diff, now);
      var accepted := c.flight.Answered? && c.flight.result.Applied?;
      Informed(d, past, more, !accepted && adopted && d.base == c.base, diff)
  {
    hide Knew, CellShape;
    var d := AbsorbCell(c, first, diff, now);
    if c.flight.Answered? {
      ShapeOfAnswer(c, past);
      if c.flight.result.Applied? {
        AcceptedWasSeen(c, past, seen, adopted, diff);
        KnewMore(seen, more, diff, past[c.flight.result.version - 1].state);
      } else if !first && c.file.Some? {
        MarkedIsShown(c.(flight := Idle), past, c.flight.result.hub, more, diff, now);
      }
    }
    StaysInformed(c, d, past, seen, more, adopted,
                  !(c.flight.Answered? && c.flight.result.Applied?) && adopted && d.base == c.base, diff);
  }

  lemma ShapeOfAnswer(c: Cell, past: seq<Write>)
    requires CellShape(c, past)
    ensures c.flight.Answered? && c.flight.result.Rejected? ==> IsVersion(past, c.flight.result.hub)
    ensures c.copy.Some? ==> IsVersion(past, c.copy.value)
  {
  }

  lemma ViewAbsorbInforms(c: Cell, past: seq<Write>, seen: iset<Option<Content>>, more: iset<Option<Content>>,
                          adopted: bool, diff: LineDiff, now: nat)
    requires Informed(c, past, seen, adopted, diff) && CellShape(c, past) && !c.flight.Sending?
    requires seen <= more && OnDisk(ViewAbsorbCell(c, diff, now)) in more
    ensures
      var d := ViewAbsorbCell(c, diff, now);
      var later :=
        if c.flight.Answered? && c.flight.result.Applied? then false
        else if c.file.Some? && HasConflictMarkers(c.file.value.content) then adopted || d.base != c.base
        else adopted && d.base == c.base;
      Informed(d, past, more, later, diff)
  {
    hide Knew, CellShape, HasConflictMarkers;
    var d := ViewAbsorbCell(c, diff, now);
    var marked := c.file.Some? && HasConflictMarkers(c.file.value.content);
    if c.flight.Answered? {
      ShapeOfAnswer(c, past);
      if c.flight.result.Applied? {
        AcceptedWasSeen(c, past, seen, adopted, diff);
        KnewMore(seen, more, diff, past[c.flight.result.version - 1].state);
      } else if c.file.Some? && !marked {
        MarkedIsShown(c.(flight := Idle), past, c.flight.result.hub, more, diff, now);
      }
    }
    var later :=
      if c.flight.Answered? && c.flight.result.Applied? then false
      else if marked then adopted || d.base != c.base
      else adopted && d.base == c.base;
    StaysInformed(c, d, past, seen, more, adopted, later, diff);
  }

  lemma DownInforms(c: Cell, past: seq<Write>, seen: iset<Option<Content>>, more: iset<Option<Content>>,
                    adopted: bool, unlocked: bool, diff: LineDiff, now: nat)
    requires Informed(c, past, seen, adopted, diff) && c.flight.Idle? && WellFormed(past)
    requires seen <= more && OnDisk(DownCell(if unlocked then UnlockCell(c) else c, past, now)) in more
    ensures
      var d := DownCell(if unlocked then UnlockCell(c) else c, past, now);
      Informed(d, past, more, adopted && d.base == c.base, diff)
  {
    hide Knew;
    var b := if unlocked then UnlockCell(c) else c;
    var d := DownCell(b, past, now);
    if Behind(past, BaseOf(b)) && !Frozen(b) {
      TakenIsSeen(b, past, more, diff, now);
    }
    StaysInformed(c, d, past, seen, more, adopted, adopted && d.base == c.base, diff);
  }

  lemma DiscardInforms(c: Cell, past: seq<Write>, seen: iset<Option<Content>>, more: iset<Option<Content>>,
                       adopted: bool, diff: LineDiff)
    requires Informed(c, past, seen, adopted, diff) && c.flight.Idle? && WellFormed(past)
    requires seen <= more && OnDisk(DiscardCell(c, past, false)) in more
    ensures Informed(DiscardCell(c, past, false), past, more, false, diff)
  {
    var d := DiscardCell(c, past, false);
    if d.base.Some? {
      assert Agrees(c.file.value.content, past[|past| - 1].state.content);
      assert Some(c.file.value.content) in more;
      assert Knew(more, diff, past[d.base.value - 1].state);
    }
    hide Knew;
    StaysInformed(c, d, past, seen, more, adopted, false, diff);
  }

  lemma VerdictInforms(c: Cell, past: seq<Write>, seen: iset<Option<Content>>, more: iset<Option<Content>>,
                       adopted: bool, diff: LineDiff, now: nat)
    requires Informed(c, past, seen, adopted, diff) && CellShape(c, past) && c.flight.Idle?
    requires seen <= more && OnDisk(VerdictCell(c, diff, now)) in more
    ensures Informed(VerdictCell(c, diff, now), past, more, adopted && VerdictCell(c, diff, now).base == c.base, diff)
  {
    hide Knew, CellShape;
    ShapeOfAnswer(c, past);
    var d := VerdictCell(c, diff, now);
    if c.copy.Some? && c.file.Some? {
      MarkedIsShown(c.(held := false, copy := None), past, c.copy.value, more, diff, now);
    }
    StaysInformed(c, d, past, seen, more, adopted, adopted && d.base == c.base, diff);
  }

  lemma OwnStepInforms(env: Env, w: World, s: Step, p: Path, seen: iset<Option<Content>>,
                       more: iset<Option<Content>>, adopted: bool)
    requires ClientStep(s) && s.n in w.clients && !env.ignored(p)
    requires AllowedWhen(w.clients[s.n], s) && AllowedAt(w, s, p)
    requires PathOk(env, w, s.n, p) && HistoryOk(Past(w.hub, p))
    requires Informed(At(w.clients[s.n], p), Past(w.hub, p), seen, adopted, env.diff)
    requires seen <= more && OnDisk(CellAfter(env, w, s, p)) in more
    ensures Informed(CellAfter(env, w, s, p), Past(w.hub, p), more, AdoptedAfter(env, w, s, s.n, p, adopted), env.diff)
  {
    hide Informed, CellShape, HistoryOk, Knew, HasConflictMarkers;
    var c := w.clients[s.n];
    var cell, past, diff := At(c, p), Past(w.hub, p), env.diff;
    HistoryFacts(past);
    match s
    case Edit(_, q, file) => EditInforms(cell, CellAfter(env, w, s, p), past, seen, more, adopted, diff);
    case Plan(_) =>
      PlanInforms(cell, past, seen, adopted, diff);
      InformedMore(PlanCell(cell, false), past, seen, more, adopted, diff);
    case Send(_, q) =>
      SendInforms(cell, past, seen, adopted, diff);
      InformedMore(SendCell(cell, past), past, seen, more, adopted, diff);
      InformedMore(cell, past, seen, more, adopted, diff);
    case Absorb(_, now) =>
      if c.inProcess {
        ViewAbsorbInforms(cell, past, seen, more, adopted, diff, now);
      } else {
        AbsorbInforms(cell, past, seen, more, adopted, c.firstBatch, diff, now);
      }
    case Down(_, unlock, now) => DownInforms(cell, past, seen, more, adopted, p in unlock, diff, now);
    case Discard(_) => DiscardInforms(cell, past, seen, more, adopted, diff);
    case Verdict(_, now) => VerdictInforms(cell, past, seen, more, adopted, diff, now);
    case Restart(_) => FreshInforms(RestartCell(cell), past, more, false, diff);
    case Resume(_) => FreshInforms(CellAfter(env, w, s, p), past, more, CellAfter(env, w, s, p).base.Some?, diff);
  }

  lemma EditInforms(c: Cell, d: Cell, past: seq<Write>, seen: iset<Option<Content>>, more: iset<Option<Content>>,
                    adopted: bool, diff: LineDiff)
    requires Informed(c, past, seen, adopted, diff) && seen <= more && OnDisk(d) in more
    requires d.base == c.base && d.flight == c.flight
    ensures Informed(d, past, more, adopted, diff)
  {
    StaysInformed(c, d, past, seen, more, adopted, adopted, diff);
  }

  lemma FreshInforms(d: Cell, past: seq<Write>, more: iset<Option<Content>>, adopted: bool, diff: LineDiff)
    requires d.flight.Idle? && OnDisk(d) in more && (d.base.Some? ==> adopted)
    ensures Informed(d, past, more, adopted, diff)
  {
  }

  // ---------------------------------------------------------------- whole runs

  /** The step is client n's push at p, and the hub stores it on top of an existing version. */
  predicate Replaces(w: World, s: Step, n: Id, p: Path)
    requires n in w.clients
  {
    s == Send(n, p) && |Past(w.hub, p)| > 0 && PastAfter(w, s, p) != Past(w.hub, p)
  }

  /** What client n has at p after the step, added to what it has had. */
  ghost function SeenAfter(env: Env, w: World, s: Step, n: Id, p: Path, seen: iset<Option<Content>>)
    : iset<Option<Content>>
    requires Enabled(env, w, s)
  {
    var w' := Next(env, w, s);
    if n in w'.clients then seen + iset{OnDisk(At(w'.clients[n], p))} else seen
  }

  /**
   Throughout the run, whenever client n's push at p replaces a version, it is one that the client knew,
   unless its base is only adopted.
   */
  ghost predicate ReplacesOnlyKnown(env: Env, w: World, steps: seq<Step>, n: Id, p: Path,
                                    seen: iset<Option<Content>>, adopted: bool)
    requires Run(env, w, steps)
    decreases |steps|
  {
    |steps| > 0 ==>
      && n in w.clients
      && (Replaces(w, steps[0], n, p) && !adopted ==> Knew(seen, env.diff, Current(Past(w.hub, p))))
      && ReplacesOnlyKnown(env, Next(env, w, steps[0]), steps[1..], n, p,
                           SeenAfter(env, w, steps[0], n, p, seen), AdoptedAfter(env, w, steps[0], n, p, adopted))
  }

  lemma InformedStep(env: Env, w: World, s: Step, n: Id, p: Path, seen: iset<Option<Content>>, adopted: bool)
    requires Inv(env, w) && Enabled(env, w, s) && n in w.clients && !env.ignored(p)
    requires Informed(At(w.clients[n], p), Past(w.hub, p), seen, adopted, env.diff)
    ensures n in Next(env, w, s).clients
    ensures Informed(At(Next(env, w, s).clients[n], p), Past(Next(env, w, s).hub, p),
                     SeenAfter(env, w, s, n, p, seen), AdoptedAfter(env, w, s, n, p, adopted), env.diff)
  {
    NextAt(env, w, s, p);
    HistoryKept(env, w, s, p);
    assert PathOk(env, w, n, p) && HistoryOk(Past(w.hub, p));
    var more := SeenAfter(env, w, s, n, p, seen);
    var past, later := Past(w.hub, p), Past(Next(env, w, s).hub, p);
    hide Informed, CellAfter, PastAfter, HistoryOk, PathOk, Next, Inv;
    if ClientStep(s) && s.n == n {
      assert AllowedAt(w, s, p);
      OwnStepInforms(env, w, s, p, seen, more, adopted);
      InformedAsHubGrows(CellAfter(env, w, s, p), past, later, more, AdoptedAfter(env, w, s, n, p, adopted), env.diff);
    } else {
      InformedMore(At(w.clients[n], p), past, seen, more, adopted, env.diff);
      InformedAsHubGrows(At(w.clients[n], p), past, later, more, adopted, env.diff);
    }
  }

  lemma ReplacedWasKnown(env: Env, w: World, s: Step, n: Id, p: Path, seen: iset<Option<Content>>)
    requires Inv(env, w) && Enabled(env, w, s) && n in w.clients && Replaces(w, s, n, p)
    requires Informed(At(w.clients[n], p), Past(w.hub, p), seen, false, env.diff)
    ensures Knew(seen, env.diff, Current(Past(w.hub, p)))
  {
    hide Knew;
    assert PathOk(env, w, n, p) && HistoryOk(Past(w.hub, p)) && AllowedAt(w, s, p);
  }

  lemma {:induction false} RunReplacesOnlyKnown(env: Env, w: World, steps: seq<Step>, n: Id, p: Path,
                                                seen: iset<Option<Content>>, adopted: bool)
    requires Inv(env, w) && Run(env, w, steps) && n in w.clients && !env.ignored(p)
    requires Informed(At(w.clients[n], p), Past(w.hub, p), seen, adopted, env.diff)
    ensures ReplacesOnlyKnown(env, w, steps, n, p, seen, adopted)
    decreases |steps|
  {
    hide Informed, Knew, Inv, Next, SeenAfter, AdoptedAfter, Replaces;
    if |steps| > 0 {
      if Replaces(w, steps[0], n, p) && !adopted {
        ReplacedWasKnown(env, w, steps[0], n, p, seen);
      }
      InformedStep(env, w, steps[0], n, p, seen, adopted);
      NextKeepsInv(env, w, steps[0]);
      RunReplacesOnlyKnown(env, Next(env, w, steps[0]), steps[1..], n, p,
                           SeenAfter(env, w, steps[0], n, p, seen), AdoptedAfter(env, w, steps[0], n, p, adopted));
    }
  }

  /**
   Over every run, whatever users, operators and agents do: a version that a client's push replaces was
   on the client's disk before, up to line ends, or was shown to it in a conflict, except where the
   client's base was adopted, after a restart or with a conflict file of its own standing there.
   */
  lemma PushesReplaceKnownVersions(env: Env, w: World, steps: seq<Step>, n: Id, p: Path)
    requires Initial(w) && Run(env, w, steps) && n in w.clients && !env.ignored(p)
    ensures ReplacesOnlyKnown(env, w, steps, n, p, iset{OnDisk(At(w.clients[n], p))}, false)
  {
    InitialInv(env, w);
    assert At(w.clients[n], p) == RestartCell(At(w.clients[n], p));
    RunReplacesOnlyKnown(env, w, steps, n, p, iset{OnDisk(At(w.clients[n], p))}, false);
  }
}

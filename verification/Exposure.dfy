/**
 When a client lets unpushed work be overwritten, exactly: which pull does it, and which breach of the
 environment's side of the bargain leaves a file that no later scan will guard.
 */
module Exposure {
  import opened Text
  import Markers
  import opened FileHub
  import opened Scan
  import opened PathSync
  import opened CellInvariant
  import opened Options
  import opened Protocol
  import opened SyncTheorems

  // ---------------------------------------------------------------- the pull

  lemma ReplacedIfUnpreserved(c: Cell, past: seq<Write>, now: nat)
    requires c.file.Some? && !Preserved(past, c.file.value.content)
    ensures DownCell(c, past, now).file != c.file <==> Behind(past, BaseOf(c)) && !Frozen(c)
  {
    if Live(past) {
      CurrentIsPreserved(past);
    }
  }

  lemma CurrentIsPreserved(past: seq<Write>)
    requires Live(past)
    ensures Preserved(past, Current(past).content)
  {
    assert Backs(past, |past|, Current(past).content);
  }

  /**
   A pull replaces content that the hub has never held exactly when the path is behind the hub, not
   frozen, and the file is one that a scan would report (or one that scans ignore). So a scan just
   before the pull is both needed and enough.
   */
  lemma PullReplacesExactly(c: Cell, past: seq<Write>, ignored: bool, now: nat)
    requires CellOk(c, past) && c.flight.Idle?
    requires c.file.Some? && !Preserved(past, c.file.value.content)
    ensures DownCell(c, past, now).file != c.file
       <==> (ignored || Inspect(c.file, c.stamp, ignored).Edited?) && Behind(past, BaseOf(c)) && !Frozen(c)
  {
    ReplacedIfUnpreserved(c, past, now);
    if !Frozen(c) && c.stamp.Some? {
      assert Backs(past, c.base.value, c.stamp.value.hash.of);
    }
  }

  // ---------------------------------------------------------------- files no scan will guard

  /** The next scan leaves the file alone, and the pull after it replaces it. */
  predicate Lost(c: Cell, later: seq<Write>, now: nat) {
    PlanCell(c, false).flight.Idle? && DownCell(PlanCell(c, false), later, now).file != c.file
  }

  /** An unfrozen file with unheld content is lost to a hub that moved on exactly when the scan overlooks it. */
  lemma LostExactly(c: Cell, later: seq<Write>, now: nat)
    requires c.flight.Idle? && !Frozen(c)
    requires c.file.Some? && !Preserved(later, c.file.value.content) && Behind(later, BaseOf(c))
    ensures Lost(c, later, now) <==> !Inspect(c.file, c.stamp, false).Edited?
  {
    hide Markers.HasConflictMarkers;
    ReplacedIfUnpreserved(PlanCell(c, false), later, now);
  }

  /**
   A local edit is lost in this way exactly when it hides behind an unchanged size and time. Stated
   for every file in order, any edit of it, and any later history without the edited text.
   */
  lemma EditLostExactly(c: Cell, g: File, past: seq<Write>, later: seq<Write>, now: nat)
    requires CellOk(c, past) && c.flight.Idle? && !Frozen(c)
    requires past <= later && Behind(later, BaseOf(c)) && !Preserved(later, g.content)
    ensures Lost(c.(file := Some(g)), later, now) <==> !Truthful(Some(g), c.stamp)
  {
    LostExactly(c.(file := Some(g)), later, now);
    if c.stamp.Some? {
      assert Backs(later, c.base.value, c.stamp.value.hash.of);
    }
  }

  /**
   Releasing a frozen path that the hub has not moved past leaves its file to be lost, whatever the
   hub stores next, exactly when the file is the revision the client last stamped.
   */
  lemma UnlockLostExactly(c: Cell, past: seq<Write>, later: seq<Write>, now: nat)
    requires CellOk(c, past) && WellFormed(later) && c.flight.Idle? && !Behind(past, BaseOf(c))
    requires past <= later && |past| < |later|
    requires c.file.Some? && !Preserved(later, c.file.value.content)
    ensures
      var released := DownCell(UnlockCell(c), past, now);
      && released.file == c.file
      && (Lost(released, later, now) <==> !Inspect(c.file, c.stamp, false).Edited?)
  {
    LostExactly(UnlockCell(c), later, now);
  }

  /**
   The verdict "resolve" on a hold whose file is gone: a file put back afterwards is lost exactly
   when the client's stamp, left over from before, already carries its content.
   */
  lemma VerdictLostExactly(c: Cell, g: File, past: seq<Write>, later: seq<Write>, diff: LineDiff, now: nat)
    requires CellOk(c, past) && c.flight.Idle? && c.copy.Some? && c.file.None? && !c.locked
    requires Truthful(Some(g), c.stamp)
    requires Behind(later, BaseOf(c)) && !Preserved(later, g.content)
    ensures Lost(VerdictCell(c, diff, now).(file := Some(g)), later, now)
       <==> c.stamp.Some? && c.stamp.value.hash.of == g.content
  {
    LostExactly(VerdictCell(c, diff, now).(file := Some(g)), later, now);
  }

  /**
   A file removed while the push of its content was under way, and the push refused: a file put back
   is lost exactly when the stamp from before already carries its content.
   */
  lemma RemovalLostExactly(c: Cell, g: File, past: seq<Write>, later: seq<Write>, diff: LineDiff, now: nat)
    requires CellOk(c, past) && Pushing(c) && Refused(c)
    requires Truthful(Some(g), c.stamp)
    requires Behind(later, BaseOf(c)) && !Preserved(later, g.content)
    ensures Lost(AbsorbCell(c.(file := None), false, diff, now).(file := Some(g)), later, now)
       <==> c.stamp.Some? && c.stamp.value.hash.of == g.content
  {
    LostExactly(AbsorbCell(c.(file := None), false, diff, now).(file := Some(g)), later, now);
  }

  // ---------------------------------------------------------------- the tick's unlock pull

  /** The file is the hub's current revision by the client's own record. */
  predicate Synced(c: Cell, past: seq<Write>) {
    && c.flight.Idle? && !Frozen(c) && c.base == Some(|past|)
    && c.file.Some? && c.stamp == Some(StampOf(c.file.value))
  }

  /** p is edited and moved on by a peer; the agent resolves q, and the client is told to unlock q. */
  function UnlockRun(n: Id, p: Path, q: Path, mine: File, theirs: Content, merged: Content, now: nat): seq<Step> {
    [Edit(n, p, Some(mine)), AgentResolve("peer", p, theirs), AgentResolve(n, q, merged), Down(n, {q}, now)]
  }

  /**
   A tick applies unlocks, with their pull, before it scans. So while the edit of one synced path is
   still unscanned, the unlocking of any other path overwrites it, although nobody breaks the bargain
   there, and the hub has never held the edit.
   */
  lemma UnlockPullLosesWork(env: Env, w: World, n: Id, p: Path, q: Path,
                            mine: File, theirs: Content, merged: Content, now: nat)
    requires n in w.clients && !w.clients[n].busy && !w.clients[n].inProcess && p != q
    requires WellFormed(Past(w.hub, p)) && Synced(At(w.clients[n], p), Past(w.hub, p))
    requires Truthful(Some(mine), At(w.clients[n], p).stamp)
    requires !Preserved(ResolvePast(Past(w.hub, p), "peer", theirs), mine.content)
    ensures
      var steps := UnlockRun(n, p, q, mine, theirs, merged, now);
      && Run(env, w, steps) && BargainRun(env, w, steps, n, p)
      && var end := After(env, w, steps);
         && n in end.clients
         && At(end.clients[n], p).file == Some(File(NormalizeForTransit(theirs), now))
         && !Preserved(Past(end.hub, p), mine.content)
  {
    var s0, s1 := Edit(n, p, Some(mine)), AgentResolve("peer", p, theirs);
    var s2, s3 := AgentResolve(n, q, merged), Down(n, {q}, now);
    var w3 := EditedAndMoved(env, w, n, p, q, mine, theirs, merged);
    UnlockedElsewhere(env, w3, n, p, q, mine, now);
    var w1 := Next(env, w, s0);
    var w2 := Next(env, w1, s1);
    hide *;
    RunNil(env, Next(env, w3, s3), n, p);
    RunCons(env, w3, s3, [], n, p);
    RunCons(env, w2, s2, [s3] + [], n, p);
    RunCons(env, w1, s1, [s2] + ([s3] + []), n, p);
    RunCons(env, w, s0, [s1] + ([s2] + ([s3] + [])), n, p);
    UnlockRunIs(n, p, q, mine, theirs, merged, now);
  }

  lemma UnlockRunIs(n: Id, p: Path, q: Path, mine: File, theirs: Content, merged: Content, now: nat)
    ensures UnlockRun(n, p, q, mine, theirs, merged, now) ==
      [Edit(n, p, Some(mine))] + ([AgentResolve("peer", p, theirs)]
      + ([AgentResolve(n, q, merged)] + ([Down(n, {q}, now)] + [])))
  {
  }

  lemma EditedAndMoved(env: Env, w: World, n: Id, p: Path, q: Path, mine: File, theirs: Content, merged: Content)
    returns (w3: World)
    requires n in w.clients && !w.clients[n].busy && !w.clients[n].inProcess && p != q
    requires Synced(At(w.clients[n], p), Past(w.hub, p)) && Truthful(Some(mine), At(w.clients[n], p).stamp)
    ensures
      var w1 := Next(env, w, Edit(n, p, Some(mine)));
      && Enabled(env, w, Edit(n, p, Some(mine))) && Bargain(w, Edit(n, p, Some(mine)), n, p)
      && n in w1.clients && Bargain(w1, AgentResolve("peer", p, theirs), n, p)
      && var w2 := Next(env, w1, AgentResolve("peer", p, theirs));
         && n in w2.clients && Bargain(w2, AgentResolve(n, q, merged), n, p)
         && w3 == Next(env, w2, AgentResolve(n, q, merged))
    ensures n in w3.clients && !w3.clients[n].busy && !w3.clients[n].inProcess && q in MailOf(w3, n)
    ensures At(w3.clients[n], p) == At(w.clients[n], p).(file := Some(mine))
    ensures Past(w3.hub, p) == ResolvePast(Past(w.hub, p), "peer", theirs)
  {
    var w1 := Next(env, w, Edit(n, p, Some(mine)));
    NextAt(env, w, Edit(n, p, Some(mine)), p);
    var w2 := Next(env, w1, AgentResolve("peer", p, theirs));
    NextAt(env, w1, AgentResolve("peer", p, theirs), p);
    w3 := Next(env, w2, AgentResolve(n, q, merged));
    NextAt(env, w2, AgentResolve(n, q, merged), p);
    hide ResolvePast, PastAfter;
  }

  lemma UnlockedElsewhere(env: Env, w3: World, n: Id, p: Path, q: Path, mine: File, now: nat)
    requires n in w3.clients && !w3.clients[n].busy && !w3.clients[n].inProcess && q in MailOf(w3, n) && p != q
    requires
      var c, past := At(w3.clients[n], p), Past(w3.hub, p);
      Live(past) && Behind(past, BaseOf(c)) && !Frozen(c) && !Preserved(past, mine.content)
    ensures Enabled(env, w3, Down(n, {q}, now)) && Bargain(w3, Down(n, {q}, now), n, p)
    ensures
      var end := Next(env, w3, Down(n, {q}, now));
      && n in end.clients && At(end.clients[n], p).file == Some(File(Current(Past(w3.hub, p)).content, now))
      && !Preserved(Past(end.hub, p), mine.content)
  {
    NextAt(env, w3, Down(n, {q}, now), p);
    hide Next, Preserved;
  }

  lemma RunNil(env: Env, w: World, n: Id, p: Path)
    ensures Run(env, w, []) && After(env, w, []) == w && BargainRun(env, w, [], n, p)
  {
  }

  lemma RunCons(env: Env, w: World, s: Step, rest: seq<Step>, n: Id, p: Path)
    requires Enabled(env, w, s) && n in w.clients && Bargain(w, s, n, p)
    requires Run(env, Next(env, w, s), rest) && BargainRun(env, Next(env, w, s), rest, n, p)
    ensures Run(env, w, [s] + rest) && BargainRun(env, w, [s] + rest, n, p)
    ensures After(env, w, [s] + rest) == After(env, Next(env, w, s), rest)
  {
    hide Next, Enabled, Bargain;
    assert ([s] + rest)[1..] == rest;
  }

  // ---------------------------------------------------------------- the unlock mailbox

  lemma {:induction false} MailStays(env: Env, w: World, steps: seq<Step>, n: Id, p: Path)
    requires Inv(env, w) && Run(env, w, steps) && n in w.clients && p in MailOf(w, n)
    requires Frozen(At(w.clients[n], p)) && NeverReleased(env, w, steps, n, p)
    ensures p in MailOf(After(env, w, steps), n)
    decreases |steps|
  {
    if |steps| > 0 {
      var s := steps[0];
      FrozenStep(env, w, s, n, p);
      NextKeepsInv(env, w, s);
      NextAt(env, w, s, p);
      hide Inv, Next, Frozen;
      MailStays(env, Next(env, w, s), steps[1..], n, p);
    }
  }

  /** The unlock queued for the client names a path where the hub is not ahead of its base. */
  predicate Stale(w: World, n: Id, p: Path)
    requires n in w.clients
  {
    p in MailOf(w, n) && !Behind(Past(w.hub, p), BaseOf(At(w.clients[n], p)))
  }

  /** Exactly when a queued unlock is stale: the client's base is the hub's current version already. */
  lemma StaleExactly(env: Env, w: World, n: Id, p: Path)
    requires Inv(env, w) && n in w.clients && p in MailOf(w, n)
    ensures Stale(w, n, p) <==> BaseOf(At(w.clients[n], p)) == |Past(w.hub, p)|
  {
    assert PathOk(env, w, n, p) && HistoryOk(Past(w.hub, p));
  }

  /**
   When unlocks are sound: an agent resolves a path that its client has locked or held. Until a step of
   the client releases the path, whatever else happens, the unlock stays queued and is not stale. So a
   stale unlock means that the client itself released the path in between (its file was edited free
   of markers and scanned, say, while the resolve was on its way).
   */
  lemma UnlockIsFreshWhileFrozen(env: Env, w: World, n: Id, p: Path, merged: Content, during: seq<Step>)
    requires Inv(env, w) && n in w.clients && !w.clients[n].inProcess && Frozen(At(w.clients[n], p))
    requires Run(env, Next(env, w, AgentResolve(n, p, merged)), during)
    requires n in Next(env, w, AgentResolve(n, p, merged)).clients
             && NeverReleased(env, Next(env, w, AgentResolve(n, p, merged)), during, n, p)
    ensures
      var end := After(env, Next(env, w, AgentResolve(n, p, merged)), during);
      n in end.clients && p in MailOf(end, n) && !Stale(end, n, p)
  {
    var w1 := Next(env, w, AgentResolve(n, p, merged));
    NextAt(env, w, AgentResolve(n, p, merged), p);
    NextKeepsInv(env, w, AgentResolve(n, p, merged));
    assert PathOk(env, w, n, p) && HistoryOk(Past(w.hub, p));
    assert p in MailOf(w1, n);
    assert BaseOf(At(w.clients[n], p)) < |Past(w1.hub, p)|;
    hide Inv, Next, Frozen, NeverReleased, Run, After;
    FrozenPathIsUntouched(env, w1, during, n, p);
    MailStays(env, w1, during, n, p);
    RunKeepsInv(env, w1, during);
    var end := After(env, w1, during);
    HistoryAt(env, end, p);
  }

  lemma HistoryAt(env: Env, w: World, p: Path)
    requires Inv(env, w)
    ensures WellFormed(Past(w.hub, p))
  {
    assert HistoryOk(Past(w.hub, p));
  }
}

/**
 The facilitator's stuck detection: a loop detector that looks at each agent's last twelve actions
 and stands for one that remembers them all, and the cooldown between nudges.
 */
module Facilitator {
  import opened Options

  type Action = string

  const LOOP_N: nat := 3           // repetitions that count as a loop
  const LOOP_MAX_PERIOD: nat := 4  // longest repeating block looked for
  const CIRCLE_N: nat := 6         // consecutive actions bringing nothing new
  const WINDOW: nat := LOOP_MAX_PERIOD * LOOP_N
  const COOLDOWN: int := 45_000_000_000 // nanoseconds

  function LastN<T>(s: seq<T>, n: nat): (r: seq<T>)
    ensures |r| == if |s| <= n then |s| else n
  {
    if |s| <= n then s else s[|s| - n..]
  }

  // ---------------------------------------------------------------- cycles

  predicate Cyclic(tail: seq<Action>, p: nat) {
    forall i :: p <= i < |tail| ==> tail[i] == tail[i - p]
  }

  method IsCycle(tail: seq<Action>, p: nat) returns (b: bool)
    ensures b <==> Cyclic(tail, p)
  {
    var i := p;
    while i < |tail|
      invariant p <= i
      invariant forall j :: p <= j < i && j < |tail| ==> tail[j] == tail[j - p]
    {
      if tail[i] != tail[i - p] {
        return false;
      }
      i := i + 1;
    }
    return true;
  }

  /** The block of length p at `from` is followed by two copies of itself. */
  predicate Tripled(s: seq<Action>, from: nat, p: nat) {
    && from + 3 * p <= |s|
    && s[from..from + p] == s[from + p..from + 2 * p]
    && s[from..from + p] == s[from + 2 * p..from + 3 * p]
  }

  /** A block of one to four actions three times in a row, ending at the last action. */
  predicate EndsInTriple(s: seq<Action>, p: nat) {
    1 <= p <= 4 && 3 * p <= |s| && Tripled(s, |s| - 3 * p, p)
  }

  ghost predicate NoTriple(s: seq<Action>) {
    forall from: nat, p: nat :: 1 <= p <= 4 ==> !Tripled(s, from, p)
  }

  /** The detector's test on a tail of three periods is the test for a tripled block. */
  lemma CyclicIsTripled(s: seq<Action>, p: nat)
    requires 1 <= p && 3 * p <= |s|
    ensures Cyclic(s[|s| - p * LOOP_N..], p) <==> Tripled(s, |s| - 3 * p, p)
  {
    var from := |s| - 3 * p;
    var x, y, z := s[from..from + p], s[from + p..from + 2 * p], s[from + 2 * p..from + 3 * p];
    assert s[from..] == x + y + z;
    CyclicOfThree(x, y, z);
    hide Cyclic;
  }

  /** In full: each of the last 2p actions is the one p before it, with p at most four. */
  lemma EndsInTripleExactly(s: seq<Action>, p: nat)
    ensures EndsInTriple(s, p) <==>
      1 <= p <= 4 && 3 * p <= |s| && forall i :: |s| - 2 * p <= i < |s| ==> s[i] == s[i - p]
  {
    if 1 <= p <= 4 && 3 * p <= |s| {
      CyclicIsTripled(s, p);
      var tail := s[|s| - 3 * p..];
      assert forall i :: |s| - 3 * p <= i < |s| ==> s[i] == tail[i - (|s| - 3 * p)];
      assert forall j :: 0 <= j < 3 * p ==> tail[j] == s[|s| - 3 * p + j];
      hide Tripled;
    }
  }

  lemma CyclicOfThree(x: seq<Action>, y: seq<Action>, z: seq<Action>)
    requires |x| == |y| == |z|
    ensures Cyclic(x + y + z, |x|) <==> x == y && x == z
  {
    var tail, p := x + y + z, |x|;
    if Cyclic(tail, p) {
      forall i | 0 <= i < p ensures x[i] == y[i] && y[i] == z[i] {
        assert tail[p + i] == tail[i];
        assert tail[2 * p + i] == tail[p + i];
      }
    }
  }

  // ---------------------------------------------------------------- the detector that forgets nothing

  /** One agent since its last loop trigger: every recorded action, and the run without novelty. */
  datatype Mind = Mind(history: seq<Action>, stale: nat)

  datatype Verdict = Fine | Looping(block: seq<Action>) | Circling(window: seq<Action>)

  const BLANK := Mind([], 0)

  /** A file-mutating action repeated back to back counts as progress and is not recorded. */
  predicate Repeated(m: Mind, sig: Action, mutating: bool) {
    mutating && |m.history| > 0 && m.history[|m.history| - 1] == sig
  }

  function ShortestPeriod(s: seq<Action>, p: nat): nat
    requires p <= LOOP_MAX_PERIOD + 1
    decreases LOOP_MAX_PERIOD + 1 - p
  {
    if p > LOOP_MAX_PERIOD || EndsInTriple(s, p) then p else ShortestPeriod(s, p + 1)
  }

  function Track(m: Mind, sig: Action, mutating: bool): (Mind, Verdict) {
    if Repeated(m, sig, mutating) then (m.(stale := 0), Fine)
    else
      var h := m.history + [sig];
      var p := ShortestPeriod(h, 1);
      if p <= LOOP_MAX_PERIOD then (BLANK, Looping(LastN(h, p)))
      else if sig !in LastN(m.history, WINDOW) then (Mind(h, 0), Fine)
      else if m.stale + 1 >= CIRCLE_N then (BLANK, Circling(LastN(h, WINDOW)))
      else (Mind(h, m.stale + 1), Fine)
  }

  // ---------------------------------------------------------------- the cooldown

  datatype Kind = Blocked | Loop

  datatype Trigger = Trigger(kind: Kind, agent: string)

  /** What one journal record amounts to: a detected trigger, or a report of progress, at a time. */
  datatype Seen = Seen(trigger: Option<Trigger>, progressBy: Option<string>, at: int)

  predicate Within(last: Option<int>, now: int) { last.Some? && now - last.value < COOLDOWN }

  /** When the trigger's agent was last nudged for it; a report of progress forgets a blocked nudge. */
  function LastNudge(log: seq<Seen>, t: Trigger): Option<int>
    decreases |log|, 0
  {
    if |log| == 0 then None
    else
      var e := log[|log| - 1];
      var last := Known(log, |log| - 1, t);
      if e.trigger == Some(t) && !Within(last, e.at) then Some(e.at) else last
  }

  /** What record i finds on file for the trigger, its own report of progress taken into account. */
  function Known(log: seq<Seen>, i: nat, t: Trigger): Option<int>
    requires i < |log|
    decreases i, 1
  {
    if t.kind.Blocked? && log[i].progressBy == Some(t.agent) then None else LastNudge(log[..i], t)
  }

  /** Record i leads to a nudge. */
  predicate Nudges(log: seq<Seen>, i: nat, t: Trigger)
    requires i < |log|
  {
    log[i].trigger == Some(t) && !Within(Known(log, i, t), log[i].at)
  }

  lemma LastNudgeStep(log: seq<Seen>, i: nat, t: Trigger)
    requires i < |log|
    ensures LastNudge(log[..i + 1], t) == if Nudges(log, i, t) then Some(log[i].at) else Known(log, i, t)
  {
    assert log[..i + 1][..i] == log[..i];
  }

  ghost predicate Monotone(log: seq<Seen>) {
    forall i, j :: 0 <= i <= j < |log| ==> log[i].at <= log[j].at
  }

  /** A nudge stays on file until progress is reported; only a later nudge replaces it. */
  lemma {:induction false} NudgeIsRemembered(log: seq<Seen>, i: nat, j: nat, t: Trigger)
    requires Monotone(log) && i < j <= |log| && Nudges(log, i, t)
    requires forall m :: i < m < j ==> !(t.kind.Blocked? && log[m].progressBy == Some(t.agent))
    ensures
      var last := LastNudge(log[..j], t);
      last.Some? && log[i].at <= last.value
    decreases j
  {
    LastNudgeStep(log, j - 1, t);
    if i < j - 1 {
      NudgeIsRemembered(log, i, j - 1, t);
    }
  }

  /**
   Over any run with a monotone clock, two nudges of one agent for one kind of trigger are at least
   forty-five seconds apart, unless the agent reported progress after being nudged as blocked.
   */
  lemma NudgesAreSpaced(log: seq<Seen>, i: nat, j: nat, t: Trigger)
    requires Monotone(log) && i < j < |log| && Nudges(log, i, t) && Nudges(log, j, t)
    ensures
      || log[j].at - log[i].at >= 45_000_000_000
      || exists m :: i < m <= j && t.kind.Blocked? && log[m].progressBy == Some(t.agent)
  {
    if forall m :: i < m <= j ==> !(t.kind.Blocked? && log[m].progressBy == Some(t.agent)) {
      NudgeIsRemembered(log, i, j, t);
    }
  }

  /** A nudge for the trigger at record i, less than forty-five seconds ago and not taken back since. */
  predicate StillFresh(log: seq<Seen>, i: nat, j: nat, t: Trigger)
    requires i < j < |log|
  {
    && Nudges(log, i, t) && log[j].at - log[i].at < 45_000_000_000
    && forall m :: i < m <= j ==> !(t.kind.Blocked? && log[m].progressBy == Some(t.agent))
  }

  /** The last nudge on file is a nudge given, with no progress of a blocked agent and no other nudge since. */
  lemma {:induction false} OnFileExactly(log: seq<Seen>, j: nat, t: Trigger) returns (i: nat)
    requires j <= |log|
    ensures LastNudge(log[..j], t).Some? ==>
      && i < j && Nudges(log, i, t) && LastNudge(log[..j], t) == Some(log[i].at)
      && (forall m :: i < m < j ==> !(t.kind.Blocked? && log[m].progressBy == Some(t.agent)) && !Nudges(log, m, t))
    decreases j
  {
    i := 0;
    if j > 0 {
      LastNudgeStep(log, j - 1, t);
      hide Nudges, LastNudge;
      if Nudges(log, j - 1, t) {
        i := j - 1;
      } else {
        i := OnFileExactly(log, j - 1, t);
      }
    }
  }

  /**
   Over any run with a monotone clock: a detected trigger leads to a nudge exactly when no nudge of the
   same agent for the same kind is still fresh. (Records decide one after the other, so this says for
   every run which of its triggers nudge.)
   */
  lemma NudgesExactly(log: seq<Seen>, j: nat, t: Trigger)
    requires Monotone(log) && j < |log|
    ensures Nudges(log, j, t) <==>
      log[j].trigger == Some(t) && !(exists i :: 0 <= i < j && StillFresh(log, i, j, t))
  {
    var last := OnFileExactly(log, j, t);
    if i :| 0 <= i < j && StillFresh(log, i, j, t) {
      FreshIsOnFile(log, i, j, t);
    }
    if log[j].trigger == Some(t) && !Nudges(log, j, t) {
      OnFileIsFresh(log, last, j, t);
    }
  }

  lemma FreshIsOnFile(log: seq<Seen>, i: nat, j: nat, t: Trigger)
    requires Monotone(log) && i < j < |log| && StillFresh(log, i, j, t)
    ensures !Nudges(log, j, t)
  {
    NudgeIsRemembered(log, i, j, t);
  }

  lemma OnFileIsFresh(log: seq<Seen>, i: nat, j: nat, t: Trigger)
    requires j < |log| && log[j].trigger == Some(t) && !Nudges(log, j, t)
    requires LastNudge(log[..j], t).Some? ==>
      && i < j && Nudges(log, i, t) && LastNudge(log[..j], t) == Some(log[i].at)
      && (forall m :: i < m < j ==> !(t.kind.Blocked? && log[m].progressBy == Some(t.agent)) && !Nudges(log, m, t))
    ensures i < j && StillFresh(log, i, j, t)
  {
  }

  /** A detected trigger goes without a nudge only within forty-five seconds of an earlier nudge. */
  lemma {:induction false} SilenceHasAReason(log: seq<Seen>, j: nat, t: Trigger) returns (i: nat)
    requires j <= |log| && LastNudge(log[..j], t).Some?
    ensures i < j && Nudges(log, i, t) && LastNudge(log[..j], t) == Some(log[i].at)
    decreases j
  {
    LastNudgeStep(log, j - 1, t);
    if Nudges(log, j - 1, t) {
      i := j - 1;
    } else {
      i := SilenceHasAReason(log, j - 1, t);
    }
  }

  // ---------------------------------------------------------------- keys

  function KindName(k: Kind): string {
    match k case Blocked => "blocked" case Loop => "loop"
  }

  /** The cooldown map's key: agent id, a NUL byte, the trigger's kind. */
  function NudgeKey(t: Trigger): string { t.agent + "\0" + KindName(t.kind) }

  /** Keys never collide, whatever the agent ids contain. */
  lemma NudgeKeyInjective(s: Trigger, t: Trigger)
    requires NudgeKey(s) == NudgeKey(t)
    ensures s == t
  {
    var a, b := NudgeKey(s), NudgeKey(t);
    assert a[|a| - 1] == KindName(s.kind)[|KindName(s.kind)| - 1];
    assert b[|b| - 1] == KindName(t.kind)[|KindName(t.kind)| - 1];
    assert s.agent == a[..|a| - |KindName(s.kind)| - 1];
    assert t.agent == b[..|b| - |KindName(t.kind)| - 1];
  }

  // ---------------------------------------------------------------- the object

  /** The journal records the facilitator acts on. */
  datatype Event =
    | Report(agent: string, status: string)
    | ToolUse(agent: string, sig: Action, mutating: bool)
    | Other

  predicate IsBlocked(status: string) { status == "blocked" || status == "low_confidence" }

  /** The agent that reports something other than being stuck. */
  function ProgressBy(e: Event): Option<string> {
    if e.Report? && !IsBlocked(e.status) then Some(e.agent) else None
  }

  /** Which records count, exactly. */
  lemma DetectExactly(e: Event, m: Mind)
    ensures e.Report? ==>
      && Detect(e, m) == (if e.status == "blocked" || e.status == "low_confidence" then Some(Trigger(Blocked, e.agent))
                          else None)
      && ProgressBy(e) == (if e.status == "blocked" || e.status == "low_confidence" then None else Some(e.agent))
    ensures e.ToolUse? ==>
      && ProgressBy(e) == None
      && Detect(e, m) == (if e.sig != "" && Track(m, e.sig, e.mutating).1 != Fine then Some(Trigger(Loop, e.agent))
                          else None)
    ensures e.Other? ==> Detect(e, m) == None && ProgressBy(e) == None
  {
    hide Track;
  }

  /** The trigger a record amounts to, given what the acting agent did before. */
  function Detect(e: Event, m: Mind): Option<Trigger> {
    match e
    case Report(agent, status) => if IsBlocked(status) then Some(Trigger(Blocked, agent)) else None
    case ToolUse(agent, sig, mutating) =>
      if sig != "" && !Track(m, sig, mutating).1.Fine? then Some(Trigger(Loop, agent)) else None
    case Other => None
  }

  class Facilitator {
    var recent: map<string, seq<Action>>
    var stale: map<string, nat>
    var lastNudge: map<string, int>
    ghost var history: map<string, seq<Action>>  // everything since the agent's last loop trigger
    ghost var log: seq<Seen>                     // everything observed

    ghost function MindOf(agent: string): Mind
      reads this`history, this`stale
    {
      Mind(if agent in history then history[agent] else [], if agent in stale then stale[agent] else 0)
    }

    ghost function RecentOf(agent: string): seq<Action>
      reads this`recent
    {
      if agent in recent then recent[agent] else []
    }

    ghost predicate Valid()
      reads this`recent, this`stale, this`history
    {
      forall agent :: RecentOf(agent) == LastN(MindOf(agent).history, WINDOW)
    }

    lemma ValidAt(agent: string)
      requires Valid()
      ensures RecentOf(agent) == LastN(MindOf(agent).history, WINDOW)
    {
    }

    constructor ()
      ensures Valid() && CooldownsValid() && log == []
      ensures forall agent :: MindOf(agent) == BLANK
    {
      recent, stale, history := map[], map[], map[];
      lastNudge, log := map[], [];
    }

    ghost predicate CooldownsValid()
      reads this`lastNudge, this`log
    {
      forall t :: NudgedAt(t) == LastNudge(log, t)
    }

    ghost function NudgedAt(t: Trigger): Option<int>
      reads this`lastNudge
    {
      if NudgeKey(t) in lastNudge then Some(lastNudge[NudgeKey(t)]) else None
    }

    /** Forget a nudge, or put a new one on file. */
    method SetNudge(t: Trigger, at: Option<int>)
      modifies this`lastNudge
      ensures forall u :: NudgedAt(u) == if u == t then at else old(NudgedAt(u))
    {
      forall u | NudgeKey(u) == NudgeKey(t) ensures u == t {
        NudgeKeyInjective(u, t);
      }
      if at.Some? {
        lastNudge := lastNudge[NudgeKey(t) := at.value];
      } else {
        lastNudge := lastNudge - {NudgeKey(t)};
      }
    }

    /** Inspect one record: returns the trigger to nudge for, unless none is due. */
    method Observe(event: Event, now: int) returns (nudge: Option<Trigger>)
      requires Valid() && CooldownsValid()
      modifies this
      ensures Valid() && CooldownsValid()
      ensures
        var detected := Detect(event, if event.Other? then BLANK else old(MindOf(event.agent)));
        && log == old(log) + [Seen(detected, ProgressBy(event), now)]
        && nudge == (
             if detected.Some? && Nudges(log, |log| - 1, detected.value) then detected else None)
    {
      hide Track, NudgeKey, LastNudge, Nudges;
      if event.Report? && !IsBlocked(event.status) {
        SetNudge(Trigger(Blocked, event.agent), None);
      }
      var t: Option<Trigger> := None;
      if event.Report? && IsBlocked(event.status) {
        t := Some(Trigger(Blocked, event.agent));
      } else if event.ToolUse? && event.sig != "" {
        var verdict := TrackLoop(event.agent, event.sig, event.mutating);
        if !verdict.Fine? {
          t := Some(Trigger(Loop, event.agent));
        }
      }
      nudge := Decide(t, ProgressBy(event), now);
    }

    /** Let a trigger through unless its agent was nudged for it within the cooldown. */
    method Decide(t: Option<Trigger>, ghost progressBy: Option<string>, now: int) returns (nudge: Option<Trigger>)
      requires forall u :: (NudgedAt(u) ==
        if u.kind.Blocked? && progressBy == Some(u.agent) then None else LastNudge(log, u))
      modifies this`lastNudge, this`log
      ensures CooldownsValid()
      ensures log == old(log) + [Seen(t, progressBy, now)]
      ensures nudge == if t.Some? && Nudges(log, |log| - 1, t.value) then t else None
    {
      ghost var before := log;
      log := before + [Seen(t, progressBy, now)];
      assert log[..|before|] == before;
      assert forall u :: NudgedAt(u) == Known(log, |before|, u);
      if t.None? {
        return None;
      }
      if NudgeKey(t.value) in lastNudge && now - lastNudge[NudgeKey(t.value)] < COOLDOWN {
        return None; // nudged for this not long ago
      }
      SetNudge(t.value, Some(now));
      return t;
    }

    method ResetLoop(agent: string)
      requires Valid()
      modifies this`recent, this`stale, this`history
      ensures Valid()
      ensures forall other :: MindOf(other) == if other == agent then BLANK else old(MindOf(other))
    {
      recent := recent[agent := []];
      stale := stale - {agent};
      history := history[agent := []];
      assert forall other :: other != agent ==> RecentOf(other) == old(RecentOf(other));
    }

    method SetStale(agent: string, n: nat)
      requires Valid()
      modifies this`stale
      ensures Valid()
      ensures forall other :: (MindOf(other) ==
        if other == agent then old(MindOf(agent)).(stale := n) else old(MindOf(other)))
    {
      stale := stale[agent := n];
      assert forall other :: RecentOf(other) == old(RecentOf(other));
      assert forall other :: MindOf(other).history == old(MindOf(other)).history;
    }

    /** Append an action to the agent's window, dropping what falls out of it. */
    method Record(agent: string, sig: Action) returns (w: seq<Action>)
      requires Valid()
      modifies this`recent, this`history
      ensures Valid()
      ensures w == LastN(old(MindOf(agent)).history + [sig], WINDOW)
      ensures forall other :: (MindOf(other) ==
        if other == agent then Mind(old(MindOf(agent)).history + [sig], old(MindOf(agent)).stale)
        else old(MindOf(other)))
    {
      hide LastN;
      ghost var h := MindOf(agent).history + [sig];
      w := if agent in recent then recent[agent] else [];
      assert w == RecentOf(agent);
      WindowSlides(MindOf(agent).history, sig);
      w := w + [sig];
      if |w| > WINDOW {
        w := w[|w| - WINDOW..];
      }
      recent := recent[agent := w];
      history := history[agent := h];
      assert forall other :: other != agent ==> RecentOf(other) == old(RecentOf(other));
    }

    /** The shortest block that the window ends in three times; five if there is none. */
    method FindPeriod(w: seq<Action>, ghost h: seq<Action>) returns (p: nat)
      requires w == LastN(h, WINDOW)
      ensures p == ShortestPeriod(h, 1)
    {
      hide *;
      LongestPeriod();
      p := 1;
      while p <= LOOP_MAX_PERIOD && p * LOOP_N <= |w|
        invariant 1 <= p <= LOOP_MAX_PERIOD + 1
        invariant ShortestPeriod(h, 1) == ShortestPeriod(h, p)
      {
        PeriodInWindow(h, p);
        var cycle := IsCycle(w[|w| - p * LOOP_N..], p);
        if cycle {
          return;
        }
        p := p + 1;
      }
      NoLongerPeriod(h, p);
      p := LOOP_MAX_PERIOD + 1;
    }

    /** Record one tool action; the twelve-action window decides as the whole history would. */
    method TrackLoop(agent: string, sig: Action, mutating: bool) returns (verdict: Verdict)
      requires Valid()
      modifies this`recent, this`stale, this`history
      ensures Valid()
      ensures verdict == Track(old(MindOf(agent)), sig, mutating).1
      ensures forall other :: (MindOf(other) ==
        if other == agent then Track(old(MindOf(agent)), sig, mutating).0 else old(MindOf(other)))
    {
      hide ShortestPeriod, LastN, Track, Valid;
      ghost var m := MindOf(agent);
      ghost var h := m.history + [sig];
      var seen := if agent in recent then recent[agent] else [];
      assert seen == LastN(m.history, WINDOW) by {
        assert seen == RecentOf(agent);
        ValidAt(agent);
      }
      TrackFromWindow(m, sig, mutating);
      if mutating && |seen| > 0 && seen[|seen| - 1] == sig {
        SetStale(agent, 0);
        return Fine;
      }
      var novel := sig !in seen;
      var w := Record(agent, sig);
      var p := FindPeriod(w, h);
      if p <= LOOP_MAX_PERIOD {
        ResetLoop(agent);
        return Looping(w[|w| - p..]);
      }
      if novel {
        SetStale(agent, 0);
        return Fine;
      }
      var n := (if agent in stale then stale[agent] else 0) + 1;
      SetStale(agent, n);
      if n >= CIRCLE_N {
        ResetLoop(agent);
        return Circling(w);
      }
      return Fine;
    }
  }

  /** The decision on the whole history, read off the two windows before and after the action. */
  lemma TrackFromWindow(m: Mind, sig: Action, mutating: bool)
    ensures
      var seen, h := LastN(m.history, WINDOW), m.history + [sig];
      var w, p := LastN(h, WINDOW), ShortestPeriod(h, 1);
      if mutating && |seen| > 0 && seen[|seen| - 1] == sig then
        Track(m, sig, mutating) == (m.(stale := 0), Fine)
      else if p <= LOOP_MAX_PERIOD then
        1 <= p <= |w| && Track(m, sig, mutating) == (BLANK, Looping(w[|w| - p..]))
      else if sig !in seen then Track(m, sig, mutating) == (Mind(h, 0), Fine)
      else if m.stale + 1 >= CIRCLE_N then Track(m, sig, mutating) == (BLANK, Circling(w))
      else Track(m, sig, mutating) == (Mind(h, m.stale + 1), Fine)
  {
    hide EndsInTriple, ShortestPeriod;
    LastIsLast(m.history);
    if ShortestPeriod(m.history + [sig], 1) <= LOOP_MAX_PERIOD {
      FoundPeriodFits(m.history + [sig]);
    }
  }

  lemma WindowSlides(s: seq<Action>, sig: Action)
    ensures
      var w := LastN(s, WINDOW) + [sig];
      LastN(s + [sig], WINDOW) == if |w| > WINDOW then w[|w| - WINDOW..] else w
  {
  }

  lemma LastIsLast(s: seq<Action>)
    ensures |LastN(s, WINDOW)| > 0 <==> |s| > 0
    ensures |s| > 0 ==> LastN(s, WINDOW)[|LastN(s, WINDOW)| - 1] == s[|s| - 1]
  {
  }

  lemma TailOfWindow(h: seq<Action>, n: nat)
    requires n <= |LastN(h, WINDOW)|
    ensures n <= |h| && LastN(h, WINDOW)[|LastN(h, WINDOW)| - n..] == h[|h| - n..]
  {
  }

  lemma FoundPeriodFits(h: seq<Action>)
    requires ShortestPeriod(h, 1) <= LOOP_MAX_PERIOD
    ensures
      var p, w := ShortestPeriod(h, 1), LastN(h, WINDOW);
      1 <= p <= |w| && w[|w| - p..] == LastN(h, p)
  {
    ShortestPeriodIsShortest(h, 1);
  }

  lemma LongestPeriod()
    ensures LOOP_MAX_PERIOD == 4 && LOOP_N == 3 && WINDOW == 12
  {
  }

  /** One turn of the search for a period: the tail of the window decides as the history does. */
  lemma PeriodInWindow(h: seq<Action>, p: nat)
    requires 1 <= p <= LOOP_MAX_PERIOD && p * LOOP_N <= |LastN(h, WINDOW)|
    ensures
      var w := LastN(h, WINDOW);
      ShortestPeriod(h, p) == if Cyclic(w[|w| - p * LOOP_N..], p) then p else ShortestPeriod(h, p + 1)
  {
    hide *;
    LongestPeriod();
    TailOfWindow(h, p * LOOP_N);
    EndsInTripleIsCyclic(h, p);
    PeriodStep(h, p);
  }

  lemma EndsInTripleIsCyclic(h: seq<Action>, p: nat)
    requires 1 <= p <= 4 && 3 * p <= |h|
    ensures EndsInTriple(h, p) <==> Cyclic(h[|h| - p * LOOP_N..], p)
  {
    hide Cyclic, Tripled;
    CyclicIsTripled(h, p);
  }

  lemma PeriodStep(h: seq<Action>, p: nat)
    requires 1 <= p <= LOOP_MAX_PERIOD
    ensures ShortestPeriod(h, p) == if EndsInTriple(h, p) then p else ShortestPeriod(h, p + 1)
  {
    hide EndsInTriple;
  }

  lemma NoLongerPeriod(h: seq<Action>, p: nat)
    requires 1 <= p <= LOOP_MAX_PERIOD + 1
    requires p > LOOP_MAX_PERIOD || p * LOOP_N > |LastN(h, WINDOW)|
    ensures ShortestPeriod(h, p) == LOOP_MAX_PERIOD + 1
    decreases LOOP_MAX_PERIOD + 1 - p
  {
    if p <= LOOP_MAX_PERIOD {
      NoLongerPeriod(h, p + 1);
    }
  }

  // ---------------------------------------------------------------- whole runs

  /** An action as the detector sees it. */
  datatype Act = Act(sig: Action, mutating: bool)

  function MindAfter(acts: seq<Act>): Mind {
    if |acts| == 0 then BLANK
    else Track(MindAfter(acts[..|acts| - 1]), acts[|acts| - 1].sig, acts[|acts| - 1].mutating).0
  }

  /** The detector's mind follows the actions in turn. */
  lemma MindInTurn(acts: seq<Act>, act: Act)
    ensures MindAfter([]) == Mind([], 0)
    ensures MindAfter(acts + [act]) == Track(MindAfter(acts), act.sig, act.mutating).0
  {
    assert (acts + [act])[..|acts|] == acts;
    hide Track;
  }

  lemma {:induction false} ShortestPeriodIsShortest(s: seq<Action>, p: nat)
    requires 1 <= p <= LOOP_MAX_PERIOD + 1
    ensures
      var q := ShortestPeriod(s, p);
      && p <= q <= LOOP_MAX_PERIOD + 1
      && (q <= LOOP_MAX_PERIOD ==> EndsInTriple(s, q))
      && forall r :: p <= r < q ==> !EndsInTriple(s, r)
    decreases LOOP_MAX_PERIOD + 1 - p
  {
    if p <= LOOP_MAX_PERIOD && !EndsInTriple(s, p) {
      ShortestPeriodIsShortest(s, p + 1);
    }
  }

  /** A cycle trigger fires exactly when the history with the new action ends in a tripled block. */
  lemma LoopFiresExactly(m: Mind, sig: Action, mutating: bool)
    ensures
      var h := m.history + [sig];
      var verdict := Track(m, sig, mutating).1;
      && (verdict.Looping? <==>
            && !(mutating && |m.history| > 0 && m.history[|m.history| - 1] == sig)
            && exists p :: EndsInTriple(h, p))
      && (verdict.Looping? ==>
            && EndsInTriple(h, |verdict.block|) && verdict.block == LastN(h, |verdict.block|)
            && forall r :: 1 <= r < |verdict.block| ==> !EndsInTriple(h, r))
  {
    var h := m.history + [sig];
    ShortestPeriodIsShortest(h, 1);
  }

  /**
   Everything else an action does, exactly. A file-mutating action that repeats the one before it is
   progress and leaves the history alone. An action not among the last twelve is progress. The sixth
   action in a row that is neither, and closes no cycle, is circling. A trigger wipes the slate.
   */
  lemma TrackExactly(m: Mind, sig: Action, mutating: bool)
    ensures
      var (m', verdict) := Track(m, sig, mutating);
      var h := m.history + [sig];
      if mutating && |m.history| > 0 && m.history[|m.history| - 1] == sig
      then m' == Mind(m.history, 0) && verdict == Fine
      else if exists p :: EndsInTriple(h, p) then m' == Mind([], 0) && verdict.Looping?
      else if sig !in LastN(m.history, 12) then m' == Mind(h, 0) && verdict == Fine
      else if m.stale >= 5 then m' == Mind([], 0) && verdict == Circling(LastN(h, 12))
      else m' == Mind(h, m.stale + 1) && verdict == Fine
  {
    ShortestPeriodIsShortest(m.history + [sig], 1);
    hide Tripled, ShortestPeriod;
  }

  lemma LastNIsSuffix<T>(s: seq<T>, n: nat)
    ensures |s| <= n ==> LastN(s, n) == s
    ensures |s| > n ==> |LastN(s, n)| == n && LastN(s, n) == s[|s| - n..]
  {
  }

  lemma TripleIsOldOrLast(s: seq<Action>, a: Action, from: nat, p: nat)
    requires 1 <= p <= LOOP_MAX_PERIOD && Tripled(s + [a], from, p)
    ensures Tripled(s, from, p) || EndsInTriple(s + [a], p)
  {
    var t := s + [a];
    if from + 3 * p <= |s| {
      assert s[from..from + p] == t[from..from + p];
      assert s[from + p..from + 2 * p] == t[from + p..from + 2 * p];
      assert s[from + 2 * p..from + 3 * p] == t[from + 2 * p..from + 3 * p];
    }
  }

  /** The last `stale` recorded actions each recur within the twelve before them. */
  ghost predicate StaleRun(m: Mind) {
    && m.stale <= |m.history|
    && forall i :: |m.history| - m.stale <= i < |m.history| ==> m.history[i] in LastN(m.history[..i], 12)
  }

  /**
   Over every run: what the agent did since its last loop trigger holds no block of one to four
   actions three times in a row, anywhere; the stale counter stays below six and counts actions
   that brought nothing new.
   */
  lemma {:induction false} NoLoopGoesUnseen(acts: seq<Act>)
    ensures NoTriple(MindAfter(acts).history)
    ensures MindAfter(acts).stale < 6 && StaleRun(MindAfter(acts))
  {
    if |acts| > 0 {
      var m, act := MindAfter(acts[..|acts| - 1]), acts[|acts| - 1];
      NoLoopGoesUnseen(acts[..|acts| - 1]);
      LoopFiresExactly(m, act.sig, act.mutating);
      var m' := Track(m, act.sig, act.mutating).0;
      if m'.history == m.history + [act.sig] {
        forall from: nat, p: nat | 1 <= p <= LOOP_MAX_PERIOD ensures !Tripled(m'.history, from, p) {
          if Tripled(m'.history, from, p) {
            TripleIsOldOrLast(m.history, act.sig, from, p);
          }
        }
        forall i | |m'.history| - m'.stale <= i < |m'.history|
          ensures m'.history[i] in LastN(m'.history[..i], WINDOW)
        {
          assert m'.history[..i] == m.history[..i];
          assert i == |m.history| ==> m.history[..i] == m.history;
        }
      }
    }
  }

  /** A circling trigger means six actions in a row that each recur within the twelve before them. */
  lemma CirclingIsSixStale(acts: seq<Act>, act: Act)
    requires Track(MindAfter(acts), act.sig, act.mutating).1.Circling?
    ensures
      var h := MindAfter(acts).history + [act.sig];
      && |h| >= 6
      && forall i :: |h| - 6 <= i < |h| ==> h[i] in LastN(h[..i], 12)
  {
    hide MindAfter, Tripled, EndsInTriple, ShortestPeriod, LastN;
    NoLoopGoesUnseen(acts);
    var m := MindAfter(acts);
    var h := m.history + [act.sig];
    forall i | |h| - CIRCLE_N <= i < |h| ensures h[i] in LastN(h[..i], WINDOW) {
      assert h[..i] == m.history[..i];
      assert i == |m.history| ==> m.history[..i] == m.history;
    }
  }
}

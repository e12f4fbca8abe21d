/**
 The task board and its rebuilding from the journal. An operation changes the board inside a
 critical section and appends its record to the journal after leaving it, so records of overlapping
 calls are in flight together and may be appended in another order.
 */
module TaskBoard {
  import opened Options
  import Decimal

  const OPEN := "open"
  const CLAIMED := "claimed"

  datatype Task = Task(
    id: string, title: string, state: string, needs: map<string, string>, deps: seq<string>,
    claimant: string, createdBy: string)

  datatype Kind = TaskKind | Handover | OtherKind

  /** A journal record; `data` is the task its payload decodes to, if it decodes to one. */
  datatype Record = Record(kind: Kind, data: Option<Task>)

  datatype View = View(tasks: map<string, Task>, counter: nat)

  datatype Error = NotFound | NotClaimable | CapMismatch

  datatype Outcome = Done(task: Task) | Failed(error: Error)

  const EMPTY := View(map[], 0)

  // ---------------------------------------------------------------- ids

  function IdOf(n: nat): string { "t" + Decimal.Print(n) }

  function TaskSeq(id: string): nat {
    Decimal.Parse(if |id| > 0 && id[0] == 't' then id[1..] else id)
  }

  /** Ids and numbers as they are written: t1 is the first; what is no such id counts as zero. */
  lemma FirstId()
    ensures IdOf(1) == "t1" && TaskSeq("t12") == 12 && TaskSeq("12") == 12 && TaskSeq("x") == 0 && TaskSeq("") == 0
  {
    assert "t12"[1..] == "12" && "12"[..1] == "1" && "1"[..0] == "";
    assert Decimal.Value("1") == 1 && Decimal.Value("12") == 12;
    assert !Decimal.IsDigit("x"[0]);
  }

  lemma TaskSeqOfId(n: nat)
    requires n <= Decimal.MAX_UINT64
    ensures TaskSeq(IdOf(n)) == n && IdOf(n) != ""
  {
    assert IdOf(n)[1..] == Decimal.Print(n);
    Decimal.ParseOfPrint(n);
  }

  // ---------------------------------------------------------------- operations

  /** A capability that is not reported reads as the empty string. */
  predicate Satisfies(caps: map<string, string>, needs: map<string, string>) {
    forall k :: k in needs ==> (if k in caps then caps[k] else "") == needs[k]
  }

  datatype Op =
    | Post(createdBy: string, title: string, needs: map<string, string>, deps: seq<string>)
    | Claim(id: string, agent: string, caps: map<string, string>)
    | SetState(id: string, state: string)

  /** What the operation answers. */
  function Answer(v: View, op: Op): Outcome {
    match op
    case Post(creator, title, needs, deps) =>
      Done(Task(IdOf((v.counter + 1) % (Decimal.MAX_UINT64 + 1)), title, OPEN, needs, deps, "", creator))
    case Claim(id, agent, caps) =>
      if id !in v.tasks then Failed(NotFound)
      else if v.tasks[id].state != OPEN then Failed(NotClaimable)
      else if !Satisfies(caps, v.tasks[id].needs) then Failed(CapMismatch)
      else Done(v.tasks[id].(state := CLAIMED, claimant := agent))
    case SetState(id, state) =>
      if id !in v.tasks then Failed(NotFound) else Done(v.tasks[id].(state := state))
  }

  /** The board after the critical section. */
  function Changed(v: View, op: Op): View {
    match Answer(v, op)
    case Failed(_) => v
    case Done(t) =>
      View(v.tasks[(if op.Post? then t.id else op.id) := t],
           if op.Post? then (v.counter + 1) % (Decimal.MAX_UINT64 + 1) else v.counter)
  }

  function Journaled(v: View, op: Op): seq<Record> {
    match Answer(v, op)
    case Failed(_) => []
    case Done(t) => [Record(if op.Claim? then Handover else TaskKind, Some(t))]
  }

  // ---------------------------------------------------------------- what each operation leaves

  /** The other tasks and the counter are as they were, and the tasks on the board are the same ones. */
  ghost predicate OnlyTouches(v: View, later: View, id: string) {
    && later.counter == v.counter && later.tasks.Keys == v.tasks.Keys
    && forall other :: other in v.tasks && other != id ==> later.tasks[other] == v.tasks[other]
  }

  /**
   A claim succeeds exactly when the task is on the board and open and every required capability is
   reported with the required value (a missing one counts as empty). Then the task is claimed by the
   caller and otherwise as it was; a failed claim changes nothing, and its error says what was wrong.
   */
  lemma ClaimExactly(v: View, id: string, agent: string, caps: map<string, string>)
    ensures
      var answer, later := Answer(v, Claim(id, agent, caps)), Changed(v, Claim(id, agent, caps));
      && (answer.Done? <==>
            && id in v.tasks && v.tasks[id].state == "open"
            && forall k :: k in v.tasks[id].needs ==>
                 (if k in caps then caps[k] == v.tasks[id].needs[k] else v.tasks[id].needs[k] == ""))
      && (answer.Done? ==>
            && OnlyTouches(v, later, id) && answer.task == later.tasks[id]
            && var was, now := v.tasks[id], later.tasks[id];
               && now.state == "claimed" && now.claimant == agent
               && now.id == was.id && now.title == was.title && now.needs == was.needs
               && now.deps == was.deps && now.createdBy == was.createdBy)
      && (answer.Failed? ==> later == v)
      && (answer == Failed(NotFound) <==> id !in v.tasks)
      && (answer == Failed(NotClaimable) <==> id in v.tasks && v.tasks[id].state != "open")
  {
  }

  /** A post adds one open, unclaimed task under the next id and touches no other. */
  lemma PostExactly(v: View, creator: string, title: string, needs: map<string, string>, deps: seq<string>)
    requires Numbered(v) && v.counter < Decimal.MAX_UINT64
    ensures
      var answer, later := Answer(v, Post(creator, title, needs, deps)), Changed(v, Post(creator, title, needs, deps));
      && answer == Done(Task("t" + Decimal.Print(v.counter + 1), title, "open", needs, deps, "", creator))
      && answer.task.id !in v.tasks
      && later.counter == v.counter + 1
      && later.tasks.Keys == v.tasks.Keys + {answer.task.id}
      && later.tasks[answer.task.id] == answer.task
      && forall other :: other in v.tasks ==> later.tasks[other] == v.tasks[other]
  {
    NextKeepsNumbered(v, Post(creator, title, needs, deps));
    hide TaskSeq, Numbered;
  }

  /** A change of state succeeds exactly when the task is on the board, and changes nothing else. */
  lemma SetStateExactly(v: View, id: string, state: string)
    ensures
      var answer, later := Answer(v, SetState(id, state)), Changed(v, SetState(id, state));
      && (answer.Done? <==> id in v.tasks)
      && (answer.Done? ==>
            && OnlyTouches(v, later, id) && answer.task == later.tasks[id]
            && var was, now := v.tasks[id], later.tasks[id];
               && now.state == state && now.claimant == was.claimant
               && now.id == was.id && now.title == was.title && now.needs == was.needs
               && now.deps == was.deps && now.createdBy == was.createdBy)
      && (answer.Failed? ==> later == v && answer == Failed(NotFound))
  {
  }

  // ---------------------------------------------------------------- replay

  /** The task a record restores, if it is of a kind that carries one. */
  function Carried(r: Record): Option<Task> {
    if r.kind.OtherKind? || r.data.None? || r.data.value.id == "" then None else r.data
  }

  function Replayed(v: View, r: Record): View {
    if Carried(r).None? then v
    else
      var t := Carried(r).value;
      View(v.tasks[t.id := t], if TaskSeq(t.id) > v.counter then TaskSeq(t.id) else v.counter)
  }

  /** A successful call journals the task it answers, a claim as a handover; a failed call journals nothing. */
  lemma JournaledExactly(v: View, op: Op)
    ensures Answer(v, op).Failed? ==> Journaled(v, op) == []
    ensures Answer(v, op).Done? && op.Claim? ==> Journaled(v, op) == [Record(Handover, Some(Answer(v, op).task))]
    ensures Answer(v, op).Done? && !op.Claim? ==> Journaled(v, op) == [Record(TaskKind, Some(Answer(v, op).task))]
  {
    hide Satisfies;
  }

  /** Other records, and records without a task or whose task has no id, restore nothing. */
  lemma RestoredExactly(v: View, r: Record)
    ensures r.kind == OtherKind || r.data == None || r.data.value.id == "" ==> Replayed(v, r) == v
    ensures r.kind != OtherKind && r.data.Some? && r.data.value.id != "" ==>
      && Replayed(v, r).tasks == v.tasks[r.data.value.id := r.data.value]
      && Replayed(v, r).counter == Max(v.counter, TaskSeq(r.data.value.id))
  {
    hide TaskSeq;
  }

  function Replay(v: View, records: seq<Record>): View
    decreases |records|
  {
    if |records| == 0 then v else Replay(Replayed(v, records[0]), records[1..])
  }

  lemma {:induction false} ReplayConcat(v: View, a: seq<Record>, b: seq<Record>)
    ensures Replay(v, a + b) == Replay(Replay(v, a), b)
    decreases |a|
  {
    if |a| == 0 {
      assert a + b == b;
    } else {
      assert (a + b)[1..] == a[1..] + b;
      ReplayConcat(Replayed(v, a[0]), a[1..], b);
    }
  }

  predicate About(r: Record, id: string) { Carried(r).Some? && Carried(r).value.id == id }

  /** What the last of the records about a task says. */
  function LastFor(records: seq<Record>, id: string): Option<Task> {
    if |records| == 0 then None
    else if LastFor(records[1..], id).Some? then LastFor(records[1..], id)
    else if About(records[0], id) then Carried(records[0])
    else None
  }

  lemma {:induction false} LastForConcat(a: seq<Record>, b: seq<Record>, id: string)
    ensures LastFor(a + b, id) == if LastFor(b, id).Some? then LastFor(b, id) else LastFor(a, id)
    decreases |a|
  {
    if |a| == 0 {
      assert a + b == b;
    } else {
      assert (a + b)[1..] == a[1..] + b;
      LastForConcat(a[1..], b, id);
    }
  }

  function Lookup(tasks: map<string, Task>, id: string): Option<Task> {
    if id in tasks then Some(tasks[id]) else None
  }

  /** Last write wins: replay leaves each task as the last record about it says. */
  lemma {:induction false} LastWriteWins(v: View, records: seq<Record>, id: string)
    ensures Lookup(Replay(v, records).tasks, id)
         == if LastFor(records, id).Some? then LastFor(records, id) else Lookup(v.tasks, id)
    decreases |records|
  {
    if |records| > 0 {
      LastWriteWins(Replayed(v, records[0]), records[1..], id);
    }
  }

  function Max(a: nat, b: nat): nat { if a > b then a else b }

  function HighestSeq(records: seq<Record>): nat {
    if |records| == 0 then 0
    else Max(if Carried(records[0]).Some? then TaskSeq(Carried(records[0]).value.id) else 0, HighestSeq(records[1..]))
  }

  lemma {:induction false} SeqIsHighest(v: View, records: seq<Record>)
    ensures Replay(v, records).counter == Max(v.counter, HighestSeq(records))
    decreases |records|
  {
    if |records| > 0 {
      SeqIsHighest(Replayed(v, records[0]), records[1..]);
    }
  }

  lemma {:induction false} HighestConcat(a: seq<Record>, b: seq<Record>)
    ensures HighestSeq(a + b) == Max(HighestSeq(a), HighestSeq(b))
    decreases |a|
  {
    if |a| == 0 {
      assert a + b == b;
    } else {
      assert (a + b)[1..] == a[1..] + b;
      HighestConcat(a[1..], b);
    }
  }

  // ---------------------------------------------------------------- overlapping calls

  /** The board, the records on their way to the journal in the order of their critical sections, and the journal. */
  datatype World = World(view: View, inflight: seq<Record>, journal: seq<Record>)

  datatype Step =
    | Act(op: Op)            // a critical section
    | Append(i: nat)         // an in-flight record reaches the journal
    | Other(data: Option<Task>) // some other part of the system journals a record

  predicate Enabled(w: World, s: Step) { s.Append? ==> s.i < |w.inflight| }

  function Next(w: World, s: Step): World
    requires Enabled(w, s)
  {
    match s
    case Act(op) => w.(view := Changed(w.view, op), inflight := w.inflight + Journaled(w.view, op))
    case Append(i) =>
      w.(inflight := w.inflight[..i] + w.inflight[i + 1..], journal := w.journal + [w.inflight[i]])
    case Other(data) => w.(journal := w.journal + [Record(OtherKind, data)])
  }

  predicate Run(w: World, steps: seq<Step>)
    decreases |steps|
  {
    |steps| > 0 ==> Enabled(w, steps[0]) && Run(Next(w, steps[0]), steps[1..])
  }

  function After(w: World, steps: seq<Step>): World
    requires Run(w, steps)
    decreases |steps|
  {
    if |steps| == 0 then w else After(Next(w, steps[0]), steps[1..])
  }

  const START := World(EMPTY, [], [])

  /** What a board restored from the journal would be once every record in flight has landed in order. */
  function Landed(w: World): View { Replay(EMPTY, w.journal + w.inflight) }

  /** Every task is filed under its own id, which is t1, t2, ... up to the counter. */
  ghost predicate Numbered(v: View) {
    && v.counter <= Decimal.MAX_UINT64
    && forall id :: id in v.tasks ==>
         v.tasks[id].id == id && id != "" && 1 <= TaskSeq(id) <= v.counter && id == IdOf(TaskSeq(id))
  }

  function PostsIn(s: Step): nat { if s.Act? && s.op.Post? then 1 else 0 }

  function Posts(steps: seq<Step>): nat {
    if |steps| == 0 then 0 else PostsIn(steps[0]) + Posts(steps[1..])
  }

  lemma NextKeepsNumbered(v: View, op: Op)
    requires Numbered(v) && v.counter + PostsIn(Act(op)) <= Decimal.MAX_UINT64
    ensures Numbered(Changed(v, op)) && Changed(v, op).counter == v.counter + PostsIn(Act(op))
    ensures op.Post? ==> Answer(v, op).task.id !in v.tasks
  {
    hide IdOf, TaskSeq;
    if op.Post? {
      TaskSeqOfId(v.counter + 1);
    }
  }

  /** An operation's own record carries exactly what the operation did. */
  lemma RecordTellsAll(v: View, op: Op)
    requires Numbered(v) && v.counter + PostsIn(Act(op)) <= Decimal.MAX_UINT64
    ensures Replay(v, Journaled(v, op)) == Changed(v, op)
  {
    hide IdOf, TaskSeq, Satisfies;
    if op.Post? {
      TaskSeqOfId(v.counter + 1);
    }
    if Answer(v, op).Done? {
      ReplayOne(v, Journaled(v, op)[0]);
    }
  }

  lemma ReplayOne(v: View, r: Record)
    ensures Replay(v, [r]) == Replayed(v, r)
  {
    assert [r][1..] == [];
  }

  lemma ActLands(w: World, op: Op)
    requires Numbered(w.view) && w.view.counter + PostsIn(Act(op)) <= Decimal.MAX_UINT64
    ensures Landed(Next(w, Act(op))) == Replay(Landed(w), Journaled(w.view, op))
    ensures Landed(w) == w.view ==> Landed(Next(w, Act(op))) == Next(w, Act(op)).view
  {
    var added := Journaled(w.view, op);
    assert w.journal + (w.inflight + added) == (w.journal + w.inflight) + added;
    ReplayConcat(EMPTY, w.journal + w.inflight, added);
    RecordTellsAll(w.view, op);
  }

  /** The appended record passes an earlier one about the same task, which says otherwise and is the last left. */
  predicate Overtakes(inflight: seq<Record>, i: nat)
    requires i < |inflight|
  {
    var t := Carried(inflight[i]);
    && t.Some?
    && LastFor(inflight[i + 1..], t.value.id).None?
    && LastFor(inflight[..i], t.value.id).Some?
    && LastFor(inflight[..i], t.value.id) != t
  }

  lemma OneRecord(r: Record, id: string)
    ensures LastFor([r], id) == if About(r, id) then Carried(r) else None
  {
  }

  lemma LastForFour(a: seq<Record>, b: seq<Record>, c: seq<Record>, d: seq<Record>, id: string)
    ensures LastFor(a + b + c + d, id)
         == if LastFor(d, id).Some? then LastFor(d, id) else if LastFor(c, id).Some? then LastFor(c, id)
            else if LastFor(b, id).Some? then LastFor(b, id) else LastFor(a, id)
  {
    LastForConcat(a + b + c, d, id);
    LastForConcat(a + b, c, id);
    LastForConcat(a, b, id);
  }

  lemma HighestFour(a: seq<Record>, b: seq<Record>, c: seq<Record>, d: seq<Record>)
    ensures HighestSeq(a + b + c + d) == Max(Max(HighestSeq(a), HighestSeq(b)), Max(HighestSeq(c), HighestSeq(d)))
  {
    HighestConcat(a + b + c, d);
    HighestConcat(a + b, c);
    HighestConcat(a, b);
  }

  /** Where one append leaves each task: only the appended record's own task can read differently. */
  lemma AppendLands(w: World, i: nat, id: string)
    requires i < |w.inflight|
    ensures
      var was, now := Landed(w), Landed(Next(w, Append(i)));
      && now.counter == was.counter
      && (id in now.tasks <==> id in was.tasks)
      && (Lookup(now.tasks, id) != Lookup(was.tasks, id) <==> About(w.inflight[i], id) && Overtakes(w.inflight, i))
  {
    var r, before, behind := w.inflight[i], w.inflight[..i], w.inflight[i + 1..];
    assert w.journal + w.inflight == w.journal + before + [r] + behind;
    var w' := Next(w, Append(i));
    assert w'.journal + w'.inflight == w.journal + [r] + before + behind;
    LastForFour(w.journal, before, [r], behind, id);
    LastForFour(w.journal, [r], before, behind, id);
    OneRecord(r, id);
    LastWriteWins(EMPTY, w.journal + w.inflight, id);
    LastWriteWins(EMPTY, w'.journal + w'.inflight, id);
    HighestFour(w.journal, before, [r], behind);
    HighestFour(w.journal, [r], before, behind);
    SeqIsHighest(EMPTY, w.journal + w.inflight);
    SeqIsHighest(EMPTY, w'.journal + w'.inflight);
  }

  /** An append keeps the journal's story exactly unless its record overtakes another. */
  lemma AppendExactly(w: World, i: nat)
    requires Landed(w) == w.view && i < |w.inflight|
    ensures Landed(Next(w, Append(i))) == w.view <==> !Overtakes(w.inflight, i)
  {
    hide Landed, Overtakes, LastFor, Next;
    var now := Landed(Next(w, Append(i)));
    AppendLands(w, i, "");
    if Overtakes(w.inflight, i) {
      AppendLands(w, i, OvertakerId(w.inflight, i));
    } else {
      forall id ensures Lookup(now.tasks, id) == Lookup(w.view.tasks, id) {
        AppendLands(w, i, id);
      }
      SameLookups(now.tasks, w.view.tasks);
    }
  }

  function OvertakerId(inflight: seq<Record>, i: nat): (id: string)
    requires i < |inflight| && Overtakes(inflight, i)
    ensures About(inflight[i], id)
  {
    Carried(inflight[i]).value.id
  }

  lemma SameLookups(a: map<string, Task>, b: map<string, Task>)
    requires forall id :: Lookup(a, id) == Lookup(b, id)
    ensures a == b
  {
    forall id ensures id in a <==> id in b {
      assert Lookup(a, id) == Lookup(b, id);
    }
    forall id | id in a ensures a[id] == b[id] {
      assert Lookup(a, id) == Lookup(b, id);
    }
  }

  // ---------------------------------------------------------------- restoring

  /** No append of the run overtakes another record about its task. */
  predicate InOrder(w: World, steps: seq<Step>)
    requires Run(w, steps)
    decreases |steps|
  {
    |steps| > 0 ==>
      && (steps[0].Append? ==> !Overtakes(w.inflight, steps[0].i))
      && InOrder(Next(w, steps[0]), steps[1..])
  }

  /** The journal, with what is in flight, names the same tasks and the same counter as the board. */
  ghost predicate SameIds(w: World) {
    Landed(w).counter == w.view.counter && forall id :: id in Landed(w).tasks <==> id in w.view.tasks
  }

  lemma OtherLands(w: World, data: Option<Task>)
    ensures Landed(Next(w, Other(data))) == Landed(w)
  {
    var r := Record(OtherKind, data);
    assert w.journal + [r] + w.inflight == w.journal + ([r] + w.inflight);
    ReplayConcat(EMPTY, w.journal, [r] + w.inflight);
    ReplayConcat(EMPTY, w.journal, w.inflight);
    assert ([r] + w.inflight)[1..] == w.inflight;
  }

  lemma NextKeepsIds(w: World, s: Step)
    requires Enabled(w, s) && Numbered(w.view) && w.view.counter + PostsIn(s) <= Decimal.MAX_UINT64
    requires SameIds(w)
    ensures SameIds(Next(w, s)) && Numbered(Next(w, s).view) && Next(w, s).view.counter == w.view.counter + PostsIn(s)
  {
    hide Landed, IdOf, TaskSeq;
    match s
    case Act(op) =>
      NextKeepsNumbered(w.view, op);
      ActLands(w, op);
      RecordTellsAll(w.view, op);
      SameIdsReplay(Landed(w), w.view, Journaled(w.view, op));
    case Append(i) =>
      forall id ensures id in Landed(Next(w, s)).tasks <==> id in w.view.tasks {
        AppendLands(w, i, id);
      }
      AppendLands(w, i, "");
    case Other(data) => OtherLands(w, data);
  }

  lemma {:induction false} SameIdsReplay(a: View, b: View, records: seq<Record>)
    requires a.counter == b.counter && forall id :: id in a.tasks <==> id in b.tasks
    ensures Replay(a, records).counter == Replay(b, records).counter
    ensures forall id :: id in Replay(a, records).tasks <==> id in Replay(b, records).tasks
    decreases |records|
  {
    if |records| > 0 {
      SameIdsReplay(Replayed(a, records[0]), Replayed(b, records[0]), records[1..]);
    }
  }

  lemma {:induction false} RunKeepsIds(w: World, steps: seq<Step>)
    requires Run(w, steps) && Numbered(w.view) && w.view.counter + Posts(steps) <= Decimal.MAX_UINT64
    requires SameIds(w)
    ensures SameIds(After(w, steps)) && Numbered(After(w, steps).view)
    decreases |steps|
  {
    if |steps| > 0 {
      NextKeepsIds(w, steps[0]);
      RunKeepsIds(Next(w, steps[0]), steps[1..]);
    }
  }

  /**
   Once nothing is in flight, whatever the overlaps were, a board restored from the journal knows
   every task and the counter, so the id it gives out next is new.
   */
  lemma RestoredIdsAreFresh(steps: seq<Step>, op: Op)
    requires Run(START, steps) && Posts(steps) < Decimal.MAX_UINT64 && op.Post?
    requires After(START, steps).inflight == []
    ensures
      var restored, live := Replay(EMPTY, After(START, steps).journal), After(START, steps).view;
      && restored.counter == live.counter
      && restored.tasks.Keys == live.tasks.Keys
      && Answer(restored, op).task.id !in live.tasks
  {
    hide IdOf, TaskSeq;
    RunKeepsIds(START, steps);
    var w := After(START, steps);
    assert w.journal + w.inflight == w.journal;
    SeqCountsPosts(START, steps);
    NextKeepsNumbered(w.view, op);
  }

  lemma {:induction false} SeqCountsPosts(w: World, steps: seq<Step>)
    requires Run(w, steps) && Numbered(w.view) && w.view.counter + Posts(steps) <= Decimal.MAX_UINT64
    ensures After(w, steps).view.counter == w.view.counter + Posts(steps)
    decreases |steps|
  {
    if |steps| > 0 {
      if steps[0].Act? {
        NextKeepsNumbered(w.view, steps[0].op);
      }
      SeqCountsPosts(Next(w, steps[0]), steps[1..]);
    }
  }

  /** Without overtaking, at every moment the journal and what is in flight tell the whole board. */
  lemma {:induction false} InOrderRestores(w: World, steps: seq<Step>)
    requires Run(w, steps) && Numbered(w.view) && w.view.counter + Posts(steps) <= Decimal.MAX_UINT64
    requires Landed(w) == w.view && InOrder(w, steps)
    ensures Landed(After(w, steps)) == After(w, steps).view
    decreases |steps|
  {
    if |steps| > 0 {
      hide Landed, Overtakes;
      match steps[0] {
        case Act(op) =>
          NextKeepsNumbered(w.view, op);
          ActLands(w, op);
        case Append(i) => AppendExactly(w, i);
        case Other(data) => OtherLands(w, data);
      }
      InOrderRestores(Next(w, steps[0]), steps[1..]);
    }
  }

  // ---------------------------------------------------------------- one claimant at a time

  predicate Reopens(s: Step, id: string) { s == Act(SetState(id, "open")) }

  predicate HeldBy(v: View, id: string, claimant: string) {
    id in v.tasks && v.tasks[id].state != "open" && v.tasks[id].claimant == claimant
  }

  lemma ClaimantStaysOneStep(v: View, op: Op, id: string, claimant: string)
    requires Numbered(v) && v.counter + PostsIn(Act(op)) <= Decimal.MAX_UINT64
    requires HeldBy(v, id, claimant) && op != SetState(id, "open")
    ensures HeldBy(Changed(v, op), id, claimant)
  {
    hide Answer, Changed, Numbered, IdOf, TaskSeq;
    match op
    case Post(creator, title, needs, deps) => PostExactly(v, creator, title, needs, deps);
    case Claim(task, agent, caps) => ClaimExactly(v, task, agent, caps);
    case SetState(task, state) => SetStateExactly(v, task, state);
  }

  /** A claimed task that nobody reopens stays with its claimant. */
  lemma {:induction false} ClaimantStays(w: World, steps: seq<Step>, id: string, claimant: string)
    requires Run(w, steps) && Numbered(w.view) && w.view.counter + Posts(steps) <= Decimal.MAX_UINT64
    requires HeldBy(w.view, id, claimant)
    requires forall i :: 0 <= i < |steps| ==> !Reopens(steps[i], id)
    ensures HeldBy(After(w, steps).view, id, claimant)
    decreases |steps|
  {
    if |steps| > 0 {
      hide Numbered, HeldBy, Changed, Answer;
      var s := steps[0];
      assert !Reopens(s, id);
      if s.Act? {
        NextKeepsNumbered(w.view, s.op);
        ClaimantStaysOneStep(w.view, s.op, id, claimant);
      }
      ClaimantStays(Next(w, s), steps[1..], id, claimant);
    }
  }

  /**
   Over every run: between two successful claims of one task some SetState put it back to open. Until
   then the task is the first claimant's, and every other claim is answered as not claimable.
   */
  lemma OneClaimantAtATime(w: World, id: string, agent: string, caps: map<string, string>, during: seq<Step>,
                           other: string, otherCaps: map<string, string>)
    requires Numbered(w.view) && w.view.counter + Posts(during) <= Decimal.MAX_UINT64
    requires Answer(w.view, Claim(id, agent, caps)).Done?
    requires Run(Next(w, Act(Claim(id, agent, caps))), during)
    ensures
      var later := After(Next(w, Act(Claim(id, agent, caps))), during).view;
      || (exists i :: 0 <= i < |during| && Reopens(during[i], id))
      || (id in later.tasks && later.tasks[id].claimant == agent
          && Answer(later, Claim(id, other, otherCaps)) == Failed(NotClaimable))
  {
    ClaimExactly(w.view, id, agent, caps);
    NextKeepsNumbered(w.view, Claim(id, agent, caps));
    hide Answer, Changed, Numbered, IdOf, TaskSeq, After;
    if forall i :: 0 <= i < |during| ==> !Reopens(during[i], id) {
      ClaimantStays(Next(w, Act(Claim(id, agent, caps))), during, id, agent);
      ClaimExactly(After(Next(w, Act(Claim(id, agent, caps))), during).view, id, other, otherCaps);
    }
  }

  // ---------------------------------------------------------------- calls that do not overlap

  /** One call, with its append, before the next begins. */
  function Call(w: World, s: Step): World
    requires !s.Append?
  {
    var w' := Next(w, s);
    if |w'.inflight| > 0 then Next(w', Append(0)) else w'
  }

  predicate Calls(steps: seq<Step>) { forall i :: 0 <= i < |steps| ==> !steps[i].Append? }

  function AfterCalls(steps: seq<Step>): World
    requires Calls(steps)
  {
    if |steps| == 0 then START else Call(AfterCalls(steps[..|steps| - 1]), steps[|steps| - 1])
  }

  /** Calls one after the other: each call of the run, and its append, from where the ones before it left off. */
  lemma CallsInTurn(steps: seq<Step>, s: Step)
    requires Calls(steps) && !s.Append?
    ensures Calls(steps + [s]) && AfterCalls([]) == START
    ensures AfterCalls(steps + [s]) == Call(AfterCalls(steps), s)
    ensures
      var w := AfterCalls(steps);
      var acted := Next(w, s);
      Call(w, s) == if |acted.inflight| > 0 then Next(acted, Append(0)) else acted
  {
    assert (steps + [s])[..|steps|] == steps;
    hide Next;
  }

  /** The board and the journal agree, and nothing is in flight. */
  ghost predicate Settled(w: World) {
    Numbered(w.view) && w.inflight == [] && Replay(EMPTY, w.journal) == w.view
  }

  lemma CallKeepsSettled(w: World, s: Step)
    requires Settled(w) && !s.Append? && w.view.counter + PostsIn(s) <= Decimal.MAX_UINT64
    ensures Settled(Call(w, s)) && Call(w, s).view.counter == w.view.counter + PostsIn(s)
    ensures exists add: seq<Record> :: |add| <= 1 && Call(w, s).journal == w.journal + add
  {
    hide IdOf, TaskSeq, Replay;
    assert w.journal + w.inflight == w.journal;
    match s
    case Act(op) =>
      NextKeepsNumbered(w.view, op);
      RecordTellsAll(w.view, op);
      ReplayConcat(EMPTY, w.journal, Journaled(w.view, op));
      assert Call(w, s).journal == w.journal + Journaled(w.view, op);
    case Other(data) =>
      OtherLands(w, data);
      var r := [Record(OtherKind, data)];
      assert w.journal + r + w.inflight == w.journal + r;
      assert Call(w, s).journal == w.journal + r;
  }

  lemma {:induction false} CallsStaySettled(steps: seq<Step>)
    requires Calls(steps) && |steps| <= Decimal.MAX_UINT64
    ensures Settled(AfterCalls(steps)) && AfterCalls(steps).view.counter <= |steps|
    decreases |steps|
  {
    hide Settled, Call, Replay;
    if |steps| == 0 {
      SettledAtStart();
    } else {
      CallsStaySettled(steps[..|steps| - 1]);
      CallKeepsSettled(AfterCalls(steps[..|steps| - 1]), steps[|steps| - 1]);
    }
  }

  lemma SettledAtStart()
    ensures Settled(START)
  {
  }

  /** The first `cut` records restore exactly the board as it stood after the first `calls` calls. */
  ghost predicate RestoresAt(steps: seq<Step>, cut: nat, calls: nat)
    requires Calls(steps) && cut <= |AfterCalls(steps).journal|
  {
    && calls <= |steps|
    && AfterCalls(steps[..calls]).journal == AfterCalls(steps).journal[..cut]
    && Replay(EMPTY, AfterCalls(steps).journal[..cut]) == AfterCalls(steps[..calls]).view
  }

  /**
   Cut the journal of a sequential run anywhere: what a fresh board restores from the prefix is
   exactly the board, tasks and counter, as it stood after some prefix of the calls.
   */
  lemma {:induction false} AnyPrefixRestores(steps: seq<Step>, cut: nat)
    requires Calls(steps) && |steps| <= Decimal.MAX_UINT64 && cut <= |AfterCalls(steps).journal|
    ensures exists calls: nat :: RestoresAt(steps, cut, calls)
    decreases |steps|
  {
    hide Settled, Call, Replay;
    CallsStaySettled(steps);
    var w := AfterCalls(steps);
    if cut == |w.journal| {
      assert steps[..|steps|] == steps && w.journal[..cut] == w.journal;
      SettledRestores(w);
      assert RestoresAt(steps, cut, |steps|);
    } else {
      var before := steps[..|steps| - 1];
      CallsStaySettled(before);
      CallKeepsSettled(AfterCalls(before), steps[|steps| - 1]);
      AnyPrefixRestores(before, cut);
      var calls: nat :| RestoresAt(before, cut, calls);
      assert steps[..calls] == before[..calls];
      assert w.journal[..cut] == AfterCalls(before).journal[..cut];
      assert RestoresAt(steps, cut, calls);
    }
  }

  lemma SettledRestores(w: World)
    requires Settled(w)
    ensures Replay(EMPTY, w.journal) == w.view
  {
  }

  // ---------------------------------------------------------------- two overlapping calls

  lemma RunNil(w: World)
    ensures Run(w, []) && After(w, []) == w
  {
  }

  lemma RunCons(w: World, step: Step, w': World, rest: seq<Step>, end: World)
    requires Enabled(w, step) && Next(w, step) == w'
    requires Run(w', rest) && After(w', rest) == end
    ensures Run(w, [step] + rest) && After(w, [step] + rest) == end
  {
    assert ([step] + rest)[1..] == rest;
  }

  const POSTED := Task(IdOf(1), "", OPEN, map[], [], "", "")

  const POSTING := Post("", "", map[], [])

  /**
   On a fresh board one task is posted and two calls then set its state; the second to leave its
   critical section journals first. The board ends up with the second state, a board restored from
   the journal with the first.
   */
  lemma OverlapRestoresStale(first: string, second: string)
    requires first != second
    ensures
      var id := IdOf(1);
      var steps := [Act(POSTING), Append(0), Act(SetState(id, first)), Act(SetState(id, second)), Append(1), Append(0)];
      && Run(START, steps)
      && After(START, steps).inflight == []
      && Lookup(After(START, steps).view.tasks, id) == Some(POSTED.(state := second))
      && Lookup(Replay(EMPTY, After(START, steps).journal).tasks, id) == Some(POSTED.(state := first))
  {
    hide *;
    var id := IdOf(1);
    var tail := [Act(SetState(id, first)), Act(SetState(id, second)), Append(1), Append(0)];
    OnePosted();
    TwoCallsOverlap(id, POSTED, first, second);
    var w := World(View(map[id := POSTED], TaskSeq(id)), [], [Saying(POSTED)]);
    var posted := Next(START, Act(POSTING));
    RunCons(posted, Append(0), w, tail, After(w, tail));
    RunCons(START, Act(POSTING), posted, [Append(0)] + tail, After(w, tail));
    assert [Act(POSTING)] + ([Append(0)] + tail)
        == [Act(POSTING), Append(0), Act(SetState(id, first)), Act(SetState(id, second)), Append(1), Append(0)];
    StaleReplay(POSTED, first, second);
    LookupOne(id, POSTED.(state := second));
  }

  lemma LookupOne(id: string, t: Task)
    ensures Lookup(map[id := t], id) == Some(t)
  {
  }

  /** A post on a fresh board, journaled. */
  lemma OnePosted()
    ensures IdOf(1) != "" && POSTED.id == IdOf(1)
    ensures
      var posted := Next(START, Act(POSTING));
      && Enabled(START, Act(POSTING)) && Enabled(posted, Append(0))
      && Next(posted, Append(0)) == World(View(map[IdOf(1) := POSTED], TaskSeq(IdOf(1))), [], [Saying(POSTED)])
  {
    hide IdOf, TaskSeq;
    TaskSeqOfId(1);
    var posted := Next(START, Act(POSTING));
    assert posted.inflight == [Saying(POSTED)];
  }

  lemma StaleReplay(t: Task, first: string, second: string)
    requires t.id != ""
    ensures Lookup(Replay(EMPTY, [Saying(t), Saying(t.(state := second)), Saying(t.(state := first))]).tasks, t.id)
         == Some(t.(state := first))
  {
    LastThree(Saying(t), Saying(t.(state := second)), Saying(t.(state := first)), t.id);
  }

  function Saying(t: Task): Record { Record(TaskKind, Some(t)) }

  lemma TwoCallsOverlap(id: string, t: Task, first: string, second: string)
    requires id != "" && t.id == id
    ensures
      var w := World(View(map[id := t], TaskSeq(id)), [], [Saying(t)]);
      var steps := [Act(SetState(id, first)), Act(SetState(id, second)), Append(1), Append(0)];
      && Run(w, steps)
      && After(w, steps) == World(View(map[id := t.(state := second)], TaskSeq(id)), [],
                                  [Saying(t), Saying(t.(state := second)), Saying(t.(state := first))])
  {
    hide TaskSeq, Run, After;
    var n := TaskSeq(id);
    var r, r1, r2 := Saying(t), Saying(t.(state := first)), Saying(t.(state := second));
    var w := World(View(map[id := t], n), [], [r]);
    var w1 := World(View(map[id := t.(state := first)], n), [r1], [r]);
    var w2 := World(View(map[id := t.(state := second)], n), [r1, r2], [r]);
    var w3 := w2.(inflight := [r1], journal := [r, r2]);
    var w4 := w2.(inflight := [], journal := [r, r2, r1]);
    assert Next(w, Act(SetState(id, first))) == w1;
    assert Next(w1, Act(SetState(id, second))) == w2;
    assert Next(w2, Append(1)) == w3 && Next(w3, Append(0)) == w4;
    hide Next, Saying;
    RunNil(w4);
    RunCons(w3, Append(0), w4, [], w4);
    RunCons(w2, Append(1), w3, [Append(0)] + [], w4);
    RunCons(w1, Act(SetState(id, second)), w2, [Append(1)] + ([Append(0)] + []), w4);
    RunCons(w, Act(SetState(id, first)), w1, [Act(SetState(id, second))] + ([Append(1)] + ([Append(0)] + [])), w4);
    assert [Act(SetState(id, first))] + ([Act(SetState(id, second))] + ([Append(1)] + ([Append(0)] + [])))
        == [Act(SetState(id, first)), Act(SetState(id, second)), Append(1), Append(0)];
  }

  lemma LastThree(a: Record, b: Record, c: Record, id: string)
    requires About(c, id)
    ensures Lookup(Replay(EMPTY, [a, b, c]).tasks, id) == Carried(c)
  {
    assert [a, b, c] == [a, b] + [c];
    LastForConcat([a, b], [c], id);
    OneRecord(c, id);
    LastWriteWins(EMPTY, [a, b, c], id);
  }

  // ---------------------------------------------------------------- the object

  class Board {
    var counter: nat
    var tasks: map<string, Task>

    function Now(): View
      reads this
    {
      View(tasks, counter)
    }

    constructor ()
      ensures Now() == EMPTY
    {
      counter, tasks := 0, map[];
    }

    /** Add a new open task; the record to journal once the call has left its critical section. */
    method AddTask(createdBy: string, title: string, needs: map<string, string>, deps: seq<string>)
      returns (out: Task, journal: seq<Record>)
      modifies this
      ensures var op := Post(createdBy, title, needs, deps);
              && Now() == Changed(old(Now()), op) && Done(out) == Answer(old(Now()), op)
              && journal == Journaled(old(Now()), op)
    {
      counter := (counter + 1) % (Decimal.MAX_UINT64 + 1);
      out := Task(IdOf(counter), title, OPEN, needs, deps, "", createdBy);
      tasks := tasks[out.id := out];
      journal := [Record(TaskKind, Some(out))];
    }

    /** Assign an open task to an agent whose capabilities meet its requirements. */
    method ClaimTask(id: string, agent: string, caps: map<string, string>)
      returns (out: Outcome, journal: seq<Record>)
      modifies this
      ensures var op := Claim(id, agent, caps);
              Now() == Changed(old(Now()), op) && out == Answer(old(Now()), op) && journal == Journaled(old(Now()), op)
    {
      if id !in tasks {
        return Failed(NotFound), [];
      }
      var t := tasks[id];
      if t.state != OPEN {
        return Failed(NotClaimable), [];
      }
      if !Satisfies(caps, t.needs) {
        return Failed(CapMismatch), [];
      }
      t := t.(state := CLAIMED, claimant := agent);
      tasks := tasks[id := t];
      return Done(t), [Record(Handover, Some(t))];
    }

    method MoveTask(id: string, state: string) returns (out: Outcome, journal: seq<Record>)
      modifies this
      ensures var op := SetState(id, state);
              Now() == Changed(old(Now()), op) && out == Answer(old(Now()), op) && journal == Journaled(old(Now()), op)
    {
      if id !in tasks {
        return Failed(NotFound), [];
      }
      var t := tasks[id].(state := state);
      tasks := tasks[id := t];
      return Done(t), [Record(TaskKind, Some(t))];
    }

    /** Replay task and handover records in order, and move the counter past the highest id. */
    method Restore(records: seq<Record>)
      modifies this
      ensures Now() == Replay(old(Now()), records)
    {
      hide TaskSeq;
      for i := 0 to |records|
        invariant Replay(Now(), records[i..]) == Replay(old(Now()), records)
      {
        var r := records[i];
        assert records[i..][1..] == records[i + 1..];
        if r.kind.OtherKind? || r.data.None? || r.data.value.id == "" {
          continue;
        }
        var t := r.data.value;
        tasks := tasks[t.id := t];
        if TaskSeq(t.id) > counter {
          counter := TaskSeq(t.id);
        }
      }
    }
  }
}

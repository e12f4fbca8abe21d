/**
 The approvals broker. Agents ask, the operator resolves, requests time out or are cancelled, all
 concurrently: a state machine whose steps are the broker's critical sections, its channel
 operations and the caller's giving up, and an object whose critical sections are those steps.
 */
module Approvals {
  import opened Options
  import Decimal

  const ALLOW := "allow"
  const DENY := "deny"
  const ALLOW_FOR_SESSION := "allow_for_session"

  /** What a blanket grant is filed under: agent id, a NUL byte, the kind of action. */
  function SessionKey(agent: string, kind: string): string { agent + "\0" + kind }

  predicate NulFree(s: string) { '\0' !in s }

  /** A string without NUL that agrees with another up to that one's first NUL is no longer than it. */
  lemma FirstNul(a: string, k: string, b: string, l: string)
    requires NulFree(a) && SessionKey(a, k) == SessionKey(b, l)
    ensures |a| <= |b|
  {
    assert SessionKey(b, l)[|b|] == '\0';
    assert forall i :: 0 <= i < |a| ==> SessionKey(a, k)[i] == a[i];
  }

  lemma SessionKeyInjective(a: string, k: string, b: string, l: string)
    requires NulFree(a) && NulFree(b) && SessionKey(a, k) == SessionKey(b, l)
    ensures a == b && k == l
  {
    FirstNul(a, k, b, l);
    FirstNul(b, l, a, k);
    assert a == SessionKey(a, k)[..|a|] && b == SessionKey(b, l)[..|b|];
    assert k == SessionKey(a, k)[|a| + 1..] && l == SessionKey(b, l)[|b| + 1..];
  }

  /** The first agent id is the second followed by a NUL and t, and the second kind is t, a NUL, the first kind. */
  predicate Shifted(a: string, k: string, b: string, l: string, t: string) {
    a == b + "\0" + t && l == t + "\0" + k
  }

  /** Which requests share a key, exactly: the same agent and kind, or ids with a NUL that shift into each other. */
  lemma KeysCollideExactly(a: string, k: string, b: string, l: string)
    ensures SessionKey(a, k) == SessionKey(b, l)
       <==> (a == b && k == l) || (exists t :: Shifted(a, k, b, l, t)) || (exists t :: Shifted(b, l, a, k, t))
  {
    if t :| Shifted(a, k, b, l, t) {
      ShiftedKeys(a, k, b, l, t);
    }
    if t :| Shifted(b, l, a, k, t) {
      ShiftedKeys(b, l, a, k, t);
    }
    if SessionKey(a, k) == SessionKey(b, l) {
      if |a| > |b| {
        LongerShifts(a, k, b, l);
      } else if |b| > |a| {
        LongerShifts(b, l, a, k);
      } else {
        SameLength(a, k, b, l);
      }
    }
  }

  lemma ShiftedKeys(a: string, k: string, b: string, l: string, t: string)
    requires Shifted(a, k, b, l, t)
    ensures SessionKey(a, k) == SessionKey(b, l)
  {
    assert b + "\0" + t + "\0" + k == b + "\0" + (t + "\0" + k);
  }

  lemma SameLength(a: string, k: string, b: string, l: string)
    requires SessionKey(a, k) == SessionKey(b, l) && |a| == |b|
    ensures a == b && k == l
  {
    assert a == SessionKey(a, k)[..|a|] && b == SessionKey(b, l)[..|b|];
    assert k == SessionKey(a, k)[|a| + 1..] && l == SessionKey(b, l)[|b| + 1..];
  }

  lemma LongerShifts(a: string, k: string, b: string, l: string)
    requires SessionKey(a, k) == SessionKey(b, l) && |a| > |b|
    ensures Shifted(a, k, b, l, a[|b| + 1..])
  {
    var key, t := SessionKey(a, k), a[|b| + 1..];
    assert key[..|b|] == b && key[|b|] == '\0' && key[..|a|] == a;
    assert a == a[..|b|] + [a[|b|]] + t;
    assert l == key[|b| + 1..] == t + "\0" + k;
  }

  /** Such as these two. */
  lemma NulKeysCollide()
    ensures SessionKey("a\0b", "c") == SessionKey("a", "b\0c")
  {
  }

  // ---------------------------------------------------------------- the state machine

  datatype AskState = Waiting | Decided(d: string) | Returned(d: string)

  /** One registered request, known by its number; the channel has one slot. */
  datatype Ticket = Ticket(
    agent: string, kind: string,
    pending: bool,             // in the broker's pending map
    verdict: Option<string>,   // what the Resolve that took it carries
    sent: bool,                // that Resolve has put it on the channel
    chan: Option<string>,
    ask: AskState)

  /** A request that a blanket grant answered without registering. */
  datatype Auto = Auto(agent: string, kind: string)

  datatype Broker = Broker(tickets: seq<Ticket>, allow: set<string>, autos: seq<Auto>)

  const EMPTY := Broker([], {}, [])

  datatype Step =
    | Ask(agent: string, kind: string)   // register, or the blanket grant's short cut
    | Take(k: nat, d: string)            // Resolve's critical section
    | Send(k: nat)                       // Resolve's send
    | Receive(k: nat)                    // the waiting Ask gets the verdict
    | GiveUp(k: nat)                     // ... or its timer or its context wins
    | Remove(k: nat)                     // Ask's last critical section; it returns

  predicate Enabled(b: Broker, s: Step) {
    match s
    case Ask(_, _) => true
    case Take(k, _) => k < |b.tickets|
    case Send(k) => k < |b.tickets| && b.tickets[k].verdict.Some? && !b.tickets[k].sent && b.tickets[k].chan.None?
    case Receive(k) => k < |b.tickets| && b.tickets[k].ask.Waiting? && b.tickets[k].chan.Some?
    case GiveUp(k) => k < |b.tickets| && b.tickets[k].ask.Waiting?
    case Remove(k) => k < |b.tickets| && b.tickets[k].ask.Decided?
  }

  function Put(b: Broker, k: nat, t: Ticket): Broker
    requires k < |b.tickets|
  {
    b.(tickets := b.tickets[k := t])
  }

  function Next(b: Broker, s: Step): Broker
    requires Enabled(b, s)
  {
    match s
    case Ask(agent, kind) =>
      if SessionKey(agent, kind) in b.allow then b.(autos := b.autos + [Auto(agent, kind)])
      else b.(tickets := b.tickets + [Ticket(agent, kind, true, None, false, None, Waiting)])
    case Take(k, d) =>
      var t := b.tickets[k];
      if !t.pending then b // already resolved or gone
      else
        var b' := Put(b, k, t.(pending := false, verdict := Some(d)));
        if d == ALLOW_FOR_SESSION then b'.(allow := b'.allow + {SessionKey(t.agent, t.kind)}) else b'
    case Send(k) => Put(b, k, b.tickets[k].(sent := true, chan := b.tickets[k].verdict))
    case Receive(k) => Put(b, k, b.tickets[k].(chan := None, ask := Decided(b.tickets[k].chan.value)))
    case GiveUp(k) => Put(b, k, b.tickets[k].(ask := Decided(DENY)))
    case Remove(k) => Put(b, k, b.tickets[k].(pending := false, ask := Returned(b.tickets[k].ask.d)))
  }

  predicate Run(b: Broker, steps: seq<Step>)
    decreases |steps|
  {
    |steps| > 0 ==> Enabled(b, steps[0]) && Run(Next(b, steps[0]), steps[1..])
  }

  function After(b: Broker, steps: seq<Step>): Broker
    requires Run(b, steps)
    decreases |steps|
  {
    if |steps| == 0 then b else After(Next(b, steps[0]), steps[1..])
  }

  // ---------------------------------------------------------------- what every run keeps

  predicate TicketOk(t: Ticket) {
    && (t.pending ==> t.verdict.None? && !t.ask.Returned?)
    && (t.sent ==> t.verdict.Some?)
    && (t.chan.Some? ==> t.sent && t.chan == t.verdict)
    && (!t.ask.Waiting? && t.ask.d != DENY ==> t.verdict == Some(t.ask.d))
    && (t.sent && t.chan.None? ==> !t.ask.Waiting?)
  }

  /** Some operator's verdict on a request of this agent and kind was a blanket grant. */
  ghost predicate Granted(b: Broker, agent: string, kind: string) {
    exists k :: 0 <= k < |b.tickets| && b.tickets[k].verdict == Some("allow_for_session")
             && b.tickets[k].agent == agent && b.tickets[k].kind == kind
  }

  ghost predicate GrantFiled(b: Broker, key: string) {
    exists k :: 0 <= k < |b.tickets| && b.tickets[k].verdict == Some(ALLOW_FOR_SESSION)
             && SessionKey(b.tickets[k].agent, b.tickets[k].kind) == key
  }

  ghost predicate Inv(b: Broker) {
    && (forall k :: 0 <= k < |b.tickets| ==> TicketOk(b.tickets[k]))
    && (forall key :: key in b.allow <==> GrantFiled(b, key))
    && (forall i :: 0 <= i < |b.autos| ==> GrantFiled(b, SessionKey(b.autos[i].agent, b.autos[i].kind)))
  }

  /** Requests keep their number, agent and kind; a verdict once given never changes. */
  ghost predicate Extends(b: Broker, later: Broker) {
    && |b.tickets| <= |later.tickets|
    && forall k :: 0 <= k < |b.tickets| ==>
         && later.tickets[k].agent == b.tickets[k].agent && later.tickets[k].kind == b.tickets[k].kind
         && (b.tickets[k].verdict.Some? ==> later.tickets[k].verdict == b.tickets[k].verdict)
  }

  lemma GrantsPersist(b: Broker, later: Broker)
    requires Extends(b, later)
    ensures forall agent, kind :: Granted(b, agent, kind) ==> Granted(later, agent, kind)
    ensures forall key :: GrantFiled(b, key) ==> GrantFiled(later, key)
  {
  }

  lemma StepExtends(b: Broker, s: Step)
    requires Inv(b) && Enabled(b, s)
    ensures Extends(b, Next(b, s))
    ensures forall k :: 0 <= k < |Next(b, s).tickets| ==> TicketOk(Next(b, s).tickets[k])
  {
  }

  lemma NextKeepsInv(b: Broker, s: Step)
    requires Inv(b) && Enabled(b, s)
    ensures Inv(Next(b, s)) && Extends(b, Next(b, s))
  {
    hide TicketOk, SessionKey;
    var b' := Next(b, s);
    StepExtends(b, s);
    GrantsPersist(b, b');
    forall key ensures key in b'.allow <==> GrantFiled(b', key) {
      if GrantFiled(b', key) && !GrantFiled(b, key) {
        var k :| 0 <= k < |b'.tickets| && b'.tickets[k].verdict == Some(ALLOW_FOR_SESSION)
              && SessionKey(b'.tickets[k].agent, b'.tickets[k].kind) == key;
        assert s.Take? && s.k == k;
      }
      if key in b'.allow && key !in b.allow {
        assert s.Take? && b'.tickets[s.k].verdict == Some(ALLOW_FOR_SESSION);
      }
    }
  }

  lemma {:induction false} RunKeepsInv(b: Broker, steps: seq<Step>)
    requires Inv(b) && Run(b, steps)
    ensures Inv(After(b, steps)) && Extends(b, After(b, steps))
    decreases |steps|
  {
    if |steps| > 0 {
      NextKeepsInv(b, steps[0]);
      RunKeepsInv(Next(b, steps[0]), steps[1..]);
    }
  }

  // ---------------------------------------------------------------- the guarantees

  /**
   Fail closed, under every interleaving: an Ask that registered returns something other than deny
   only if a Resolve carried exactly that verdict to its own id.
   */
  lemma FailsClosed(steps: seq<Step>, k: nat)
    requires Run(EMPTY, steps) && k < |After(EMPTY, steps).tickets|
    ensures
      var t := After(EMPTY, steps).tickets[k];
      t.ask.Returned? && t.ask.d != "deny" ==> t.verdict == Some(t.ask.d)
  {
    RunKeepsInv(EMPTY, steps);
    assert TicketOk(After(EMPTY, steps).tickets[k]);
  }

  predicate NulFreeAsks(steps: seq<Step>) {
    forall i :: 0 <= i < |steps| && steps[i].Ask? ==> NulFree(steps[i].agent)
  }

  predicate NulFreeTickets(b: Broker) {
    forall k :: 0 <= k < |b.tickets| ==> NulFree(b.tickets[k].agent)
  }

  lemma {:induction false} TicketsStayNulFree(b: Broker, steps: seq<Step>)
    requires Run(b, steps) && NulFreeTickets(b) && NulFreeAsks(steps)
    ensures NulFreeTickets(After(b, steps))
    decreases |steps|
  {
    if |steps| > 0 {
      assert steps[0].Ask? ==> NulFree(steps[0].agent);
      TicketsStayNulFree(Next(b, steps[0]), steps[1..]);
    }
  }

  predicate WavedThrough(b: Broker, agent: string, kind: string) {
    Next(b, Ask(agent, kind)) == b.(autos := b.autos + [Auto(agent, kind)])
  }

  /**
   At any moment of any run an Ask is waved through exactly when an operator's verdict before it was
   a blanket grant for the same agent and kind (for agent ids without NUL).
   */
  lemma WavedThroughExactly(steps: seq<Step>, agent: string, kind: string)
    requires Run(EMPTY, steps) && NulFreeAsks(steps) && NulFree(agent)
    ensures WavedThrough(After(EMPTY, steps), agent, kind) <==> Granted(After(EMPTY, steps), agent, kind)
  {
    RunKeepsInv(EMPTY, steps);
    TicketsStayNulFree(EMPTY, steps);
    var b := After(EMPTY, steps);
    if GrantFiled(b, SessionKey(agent, kind)) {
      var k :| 0 <= k < |b.tickets| && b.tickets[k].verdict == Some(ALLOW_FOR_SESSION)
            && SessionKey(b.tickets[k].agent, b.tickets[k].kind) == SessionKey(agent, kind);
      SessionKeyInjective(b.tickets[k].agent, b.tickets[k].kind, agent, kind);
    }
  }

  /** How many Resolves of the run took request k. */
  function TakeCount(b: Broker, steps: seq<Step>, k: nat): nat
    requires Run(b, steps)
    decreases |steps|
  {
    if |steps| == 0 then 0
    else
      (if steps[0].Take? && steps[0].k == k && b.tickets[k].pending then 1 else 0)
      + TakeCount(Next(b, steps[0]), steps[1..], k)
  }

  lemma TakeCountStep(b: Broker, s: Step, rest: seq<Step>, k: nat)
    requires Enabled(b, s) && Run(Next(b, s), rest) && Run(b, [s] + rest)
    ensures TakeCount(b, [s] + rest, k)
         == (if s.Take? && s.k == k && b.tickets[k].pending then 1 else 0) + TakeCount(Next(b, s), rest, k)
  {
    assert ([s] + rest)[1..] == rest;
  }

  predicate Takable(b: Broker, k: nat) { k >= |b.tickets| || b.tickets[k].pending }

  /** Each request is taken by at most one Resolve, and by none once it has been removed. */
  lemma {:induction false} TakenAtMostOnce(b: Broker, steps: seq<Step>, k: nat)
    requires Inv(b) && Run(b, steps)
    ensures TakeCount(b, steps, k) <= if Takable(b, k) then 1 else 0
    decreases |steps|
  {
    if |steps| > 0 {
      NextKeepsInv(b, steps[0]);
      TakenAtMostOnce(Next(b, steps[0]), steps[1..], k);
    }
  }

  /** The send of a Resolve that took a request never finds the one-slot channel full. */
  lemma SendNeverBlocks(steps: seq<Step>, k: nat)
    requires Run(EMPTY, steps) && k < |After(EMPTY, steps).tickets|
    requires After(EMPTY, steps).tickets[k].verdict.Some? && !After(EMPTY, steps).tickets[k].sent
    ensures After(EMPTY, steps).tickets[k].chan.None? && Enabled(After(EMPTY, steps), Send(k))
  {
    RunKeepsInv(EMPTY, steps);
    assert TicketOk(After(EMPTY, steps).tickets[k]);
  }

  /** The other requests are as they were. */
  predicate OnlyRequest(b: Broker, later: Broker, k: nat) {
    && |later.tickets| == |b.tickets| && later.autos == b.autos
    && forall j :: 0 <= j < |b.tickets| && j != k ==> later.tickets[j] == b.tickets[j]
  }

  /** What a request is before anybody has ruled on it. */
  predicate Unruled(t: Ticket, agent: string, kind: string) {
    t == Ticket(agent, kind, true, None, false, None, Waiting)
  }

  /** An Ask registers a new unruled request, or is waved through and registers none. */
  lemma AskRegistersExactly(b: Broker, agent: string, kind: string)
    ensures
      var later := Next(b, Ask(agent, kind));
      && later.allow == b.allow
      && (SessionKey(agent, kind) !in b.allow ==>
            && later.autos == b.autos && |later.tickets| == |b.tickets| + 1 && later.tickets[..|b.tickets|] == b.tickets
            && Unruled(later.tickets[|b.tickets|], agent, kind))
      && (SessionKey(agent, kind) in b.allow ==>
            later.tickets == b.tickets && later.autos == b.autos + [Auto(agent, kind)])
  {
  }

  /**
   A Resolve takes exactly a pending request, with its verdict, and files a grant exactly with a blanket
   verdict; of one already taken or gone it changes nothing.
   */
  lemma TakeRulesExactly(b: Broker, k: nat, d: string)
    requires k < |b.tickets|
    ensures
      var later, t := Next(b, Take(k, d)), b.tickets[k];
      && (!t.pending ==> later == b)
      && (t.pending ==>
            && OnlyRequest(b, later, k) && later.tickets[k] == t.(pending := false, verdict := Some(d))
            && later.allow == b.allow + (if d == "allow_for_session" then {SessionKey(t.agent, t.kind)} else {}))
  {
  }

  /**
   The channel and the Ask, exactly: a Send fills the empty slot with the verdict taken, a Receive empties
   it into the Ask, giving up denies, and the last step ends the request; none touches another request.
   */
  lemma DeliversExactly(b: Broker, s: Step)
    requires Enabled(b, s) && (s.Send? || s.Receive? || s.GiveUp? || s.Remove?)
    ensures
      var later, t := Next(b, s), b.tickets[s.k];
      && later.allow == b.allow && OnlyRequest(b, later, s.k)
      && later.tickets[s.k] ==
           (match s
            case Send(_) => t.(sent := true, chan := t.verdict)
            case Receive(_) => t.(chan := None, ask := Decided(t.chan.value))
            case GiveUp(_) => t.(ask := Decided("deny"))
            case Remove(_) => t.(pending := false, ask := Returned(t.ask.d))
            case _ => t)
    ensures s.Send? ==> b.tickets[s.k].verdict.Some? && !b.tickets[s.k].sent && b.tickets[s.k].chan.None?
    ensures s.Receive? ==> b.tickets[s.k].ask.Waiting? && b.tickets[s.k].chan.Some?
  {
  }

  /**
   A verdict gets through: from any state of any run, an operator who resolves a request that is pending
   and still waited for can have whatever the verdict is delivered and returned, and a request that
   nobody resolves in time is denied.
   */
  lemma VerdictGetsThrough(steps: seq<Step>, k: nat, d: string)
    requires Run(EMPTY, steps) && k < |After(EMPTY, steps).tickets|
    requires After(EMPTY, steps).tickets[k].pending && After(EMPTY, steps).tickets[k].ask.Waiting?
    ensures
      var b := After(EMPTY, steps);
      var delivered, late := [Take(k, d), Send(k), Receive(k), Remove(k)], [GiveUp(k), Remove(k)];
      && Run(b, delivered) && k < |After(b, delivered).tickets| && After(b, delivered).tickets[k].ask == Returned(d)
      && Run(b, late) && k < |After(b, late).tickets| && After(b, late).tickets[k].ask == Returned("deny")
      && !After(b, late).tickets[k].pending
  {
    RunKeepsInv(EMPTY, steps);
    var b := After(EMPTY, steps);
    assert TicketOk(b.tickets[k]);
    hide Inv, TicketOk, SessionKey;
    var b1 := Next(b, Take(k, d));
    var b2 := Next(b1, Send(k));
    var b3 := Next(b2, Receive(k));
    var b4 := Next(b3, Remove(k));
    RunOf(b4, [], b4);
    RunOf(b3, [Remove(k)], b4);
    RunOf(b2, [Receive(k), Remove(k)], b4);
    RunOf(b1, [Send(k), Receive(k), Remove(k)], b4);
    RunOf(b, [Take(k, d), Send(k), Receive(k), Remove(k)], b4);
    var c1 := Next(b, GiveUp(k));
    var c2 := Next(c1, Remove(k));
    RunOf(c2, [], c2);
    RunOf(c1, [Remove(k)], c2);
    RunOf(b, [GiveUp(k), Remove(k)], c2);
  }

  predicate GivesUp(steps: seq<Step>, k: nat) { exists i :: 0 <= i < |steps| && steps[i] == GiveUp(k) }

  lemma GivesUpCases(steps: seq<Step>, k: nat)
    requires |steps| > 0
    ensures GivesUp(steps, k) <==> steps[0] == GiveUp(k) || GivesUp(steps[1..], k)
  {
    if i :| 0 <= i < |steps[1..]| && steps[1..][i] == GiveUp(k) {
      assert steps[i + 1] == GiveUp(k);
    }
    if GivesUp(steps, k) && steps[0] != GiveUp(k) {
      var i :| 0 <= i < |steps| && steps[i] == GiveUp(k);
      assert steps[1..][i - 1] == GiveUp(k);
    }
  }

  /** So far request k has its verdict from the channel, if it has one. */
  predicate Heeds(b: Broker, k: nat) {
    k < |b.tickets| && !b.tickets[k].ask.Waiting? ==> b.tickets[k].verdict == Some(b.tickets[k].ask.d)
  }

  predicate GaveUp(b: Broker, k: nat) {
    k < |b.tickets| && !b.tickets[k].ask.Waiting? && b.tickets[k].ask.d == DENY
  }

  lemma {:induction false} HeedsUnlessGivingUp(b: Broker, steps: seq<Step>, k: nat)
    requires Inv(b) && Run(b, steps) && Heeds(b, k) && !GivesUp(steps, k)
    ensures Heeds(After(b, steps), k)
    decreases |steps|
  {
    if |steps| > 0 {
      NextKeepsInv(b, steps[0]);
      GivesUpCases(steps, k);
      HeedsStep(b, steps[0], k);
      HeedsUnlessGivingUp(Next(b, steps[0]), steps[1..], k);
    }
  }

  lemma HeedsStep(b: Broker, s: Step, k: nat)
    requires Inv(b) && Enabled(b, s) && Heeds(b, k) && s != GiveUp(k)
    ensures Heeds(Next(b, s), k)
  {
    hide SessionKey, GrantFiled;
    if k < |b.tickets| {
      assert TicketOk(b.tickets[k]);
    }
  }

  lemma {:induction false} GaveUpForGood(b: Broker, steps: seq<Step>, k: nat)
    requires Run(b, steps) && (GaveUp(b, k) || GivesUp(steps, k))
    ensures GaveUp(After(b, steps), k)
    decreases |steps|
  {
    if |steps| > 0 {
      GivesUpCases(steps, k);
      GaveUpForGood(Next(b, steps[0]), steps[1..], k);
    }
  }

  /**
   When a successful Resolve binds the Ask, exactly: over every run, a request that was taken and has
   returned returned the verdict it was taken with if and only if that verdict is deny or its timer
   and its context never won.
   */
  lemma ResolveBindsExactly(steps: seq<Step>, k: nat)
    requires Run(EMPTY, steps) && k < |After(EMPTY, steps).tickets|
    requires After(EMPTY, steps).tickets[k].verdict.Some? && After(EMPTY, steps).tickets[k].ask.Returned?
    ensures
      var t := After(EMPTY, steps).tickets[k];
      t.ask.d == t.verdict.value <==> t.verdict.value == "deny" || !GivesUp(steps, k)
  {
    RunKeepsInv(EMPTY, steps);
    if GivesUp(steps, k) {
      GaveUpForGood(EMPTY, steps, k);
    } else {
      HeedsUnlessGivingUp(EMPTY, steps, k);
    }
    assert TicketOk(After(EMPTY, steps).tickets[k]);
  }

  /** A Resolve that reports success does not bind the Ask: the timer may win the race, and deny. */
  lemma ResolveMayComeTooLate(agent: string, kind: string)
    ensures
      var steps := [Ask(agent, kind), Take(0, ALLOW), Send(0), GiveUp(0), Remove(0)];
      && Run(EMPTY, steps)
      && After(EMPTY, steps) == Broker(
           [Ticket(agent, kind, false, Some(ALLOW), true, Some(ALLOW), Returned(DENY))], {}, [])
  {
    var t := Ticket(agent, kind, true, None, false, None, Waiting);
    var b1 := Broker([t], {}, []);
    var b2 := Broker([t.(pending := false, verdict := Some(ALLOW))], {}, []);
    var b3 := Broker([b2.tickets[0].(sent := true, chan := Some(ALLOW))], {}, []);
    var b4 := Broker([b3.tickets[0].(ask := Decided(DENY))], {}, []);
    var b5 := Broker([b4.tickets[0].(ask := Returned(DENY))], {}, []);
    RunOf(b5, [], b5);
    RunOf(b4, [Remove(0)], b5);
    RunOf(b3, [GiveUp(0), Remove(0)], b5);
    RunOf(b2, [Send(0), GiveUp(0), Remove(0)], b5);
    RunOf(b1, [Take(0, ALLOW), Send(0), GiveUp(0), Remove(0)], b5);
    RunOf(EMPTY, [Ask(agent, kind), Take(0, ALLOW), Send(0), GiveUp(0), Remove(0)], b5);
  }

  lemma RunOf(b: Broker, steps: seq<Step>, end: Broker)
    requires |steps| == 0 ==> b == end
    requires |steps| > 0 ==> Enabled(b, steps[0]) && Run(Next(b, steps[0]), steps[1..])
                             && After(Next(b, steps[0]), steps[1..]) == end
    ensures Run(b, steps) && After(b, steps) == end
  {
  }

  // ---------------------------------------------------------------- the object

  datatype Waiter = Waiter(agent: string, kind: string)

  /** The id of request number k; the first is ap1. */
  function IdOf(k: nat): string { "ap" + Decimal.Print(k + 1) }

  lemma FirstId()
    ensures IdOf(0) == "ap1"
  {
  }

  lemma IdInjective(m: nat, n: nat)
    requires IdOf(m) == IdOf(n)
    ensures m == n
  {
    assert IdOf(m)[2..] == Decimal.Print(m + 1) && IdOf(n)[2..] == Decimal.Print(n + 1);
    Decimal.PrintInjective(m + 1, n + 1);
  }

  /** The pending map holds exactly the machine's pending requests, each under its id. */
  ghost predicate Shows(pending: map<string, Waiter>, tickets: seq<Ticket>) {
    && (forall id :: id in pending ==> exists k :: 0 <= k < |tickets| && id == IdOf(k))
    && (forall k :: 0 <= k < |tickets| ==>
          && (IdOf(k) in pending <==> tickets[k].pending)
          && (tickets[k].pending ==> pending[IdOf(k)] == Waiter(tickets[k].agent, tickets[k].kind)))
  }

  lemma ShowsNew(pending: map<string, Waiter>, tickets: seq<Ticket>, t: Ticket)
    requires Shows(pending, tickets) && t.pending
    ensures IdOf(|tickets|) !in pending
    ensures Shows(pending[IdOf(|tickets|) := Waiter(t.agent, t.kind)], tickets + [t])
  {
    hide IdOf;
    forall k | 0 <= k < |tickets| ensures IdOf(k) != IdOf(|tickets|) {
      if IdOf(k) == IdOf(|tickets|) {
        IdInjective(k, |tickets|);
      }
    }
  }

  lemma ShowsGone(pending: map<string, Waiter>, tickets: seq<Ticket>, k: nat, t: Ticket)
    requires Shows(pending, tickets) && k < |tickets| && !t.pending
    ensures Shows(pending - {IdOf(k)}, tickets[k := t])
  {
    hide IdOf;
    forall j | 0 <= j < |tickets| && IdOf(j) == IdOf(k) ensures j == k {
      IdInjective(j, k);
    }
  }

  class Approvals {
    var counter: nat
    var pending: map<string, Waiter>
    var sessionAllow: set<string>
    ghost var state: Broker

    /** The broker's maps show exactly the pending requests and the blanket grants of the machine. */
    ghost predicate Valid()
      reads this
    {
      counter == |state.tickets| && sessionAllow == state.allow && Shows(pending, state.tickets)
    }

    constructor ()
      ensures Valid() && state == EMPTY
    {
      counter, pending, sessionAllow := 0, map[], {};
      state := EMPTY;
    }

    /** Assign the request an id and file it, unless a blanket grant covers it. */
    method Register(agent: string, kind: string) returns (id: Option<string>)
      requires Valid()
      modifies this
      ensures Valid() && state == Next(old(state), Ask(agent, kind))
      ensures id.None? <==> SessionKey(agent, kind) in old(sessionAllow)
      ensures id.Some? ==> id.value !in old(pending) && id.value == IdOf(|old(state.tickets)|)
    {
      hide IdOf, SessionKey, Shows;
      ghost var tickets := state.tickets;
      state := Next(state, Ask(agent, kind));
      if SessionKey(agent, kind) in sessionAllow {
        return None;
      }
      ShowsNew(pending, tickets, state.tickets[|tickets|]);
      counter := counter + 1;
      pending := pending[IdOf(counter - 1) := Waiter(agent, kind)];
      return Some(IdOf(counter - 1));
    }

    /** Remove a pending request and file a blanket grant; the waiter, if it was still pending. */
    method Take(id: string, decision: string) returns (w: Option<Waiter>)
      requires Valid()
      modifies this
      ensures Valid()
      ensures id !in old(pending) ==> w.None? && state == old(state)
      ensures id in old(pending) ==> w == Some(old(pending)[id])
      ensures id in old(pending) ==>
                exists k: nat :: k < |old(state.tickets)| && id == IdOf(k) && old(state.tickets)[k].pending
                              && state == Next(old(state), Step.Take(k, decision))
    {
      hide IdOf, SessionKey;
      if id !in pending {
        return None;
      }
      ghost var k: nat :| k < |state.tickets| && id == IdOf(k);
      ghost var t := state.tickets[k];
      w := Some(pending[id]);
      hide Shows;
      ShowsGone(pending, state.tickets, k, t.(pending := false, verdict := Some(decision)));
      pending := pending - {id};
      if decision == ALLOW_FOR_SESSION {
        sessionAllow := sessionAllow + {SessionKey(w.value.agent, w.value.kind)};
      }
      state := Next(state, Step.Take(k, decision));
    }

    /** Ask number k is done, with or without a verdict. */
    method Remove(id: string, ghost k: nat)
      requires Valid()
      requires k < |state.tickets| && id == IdOf(k) && state.tickets[k].ask.Decided?
      modifies this
      ensures Valid() && id !in pending
      ensures state == Next(old(state), Step.Remove(k))
    {
      hide IdOf, Shows;
      state := Next(state, Step.Remove(k));
      ShowsGone(pending, old(state.tickets), k, state.tickets[k]);
      pending := pending - {id};
    }
  }
}

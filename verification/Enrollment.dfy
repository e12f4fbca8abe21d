/**
 Enrolment of nodes: the operator's current token, the binding of a token to the first node that
 uses it, admission by client certificate, and the sessions handed out. Random tokens are drawn by
 the environment and are fresh: never empty and never drawn before.
 */
module Enrollment {
  import opened Options

  type Token = string
  type NodeId = string

  // ---------------------------------------------------------------- state and steps

  datatype Means = ByCertificate(certified: NodeId) | ByToken(token: Token)

  datatype Admission = Admission(node: NodeId, means: Means, session: Token)

  datatype State = State(
    requireClientCert: bool,
    pending: Token,                // what the operator hands to the next node; empty before the first
    bound: map<Token, NodeId>,
    sessions: map<Token, NodeId>,
    nodes: map<NodeId, bool>,      // whether the node is ephemeral
    drawn: set<Token>,             // every random token so far
    log: seq<Admission>)           // every admission so far

  function Fresh(requireClientCert: bool): State {
    State(requireClientCert, "", map[], map[], map[], {}, [])
  }

  /** `certId` is the id in the verified client certificate, empty without one. */
  datatype Request = Request(node: NodeId, token: Token, certId: NodeId)

  /** By what the request is admitted, when it is. */
  function MeansOf(req: Request): Means {
    if req.certId != "" then ByCertificate(req.certId) else ByToken(req.token)
  }

  datatype Refusal = MissingNode | CertificateRequired | NoCredential | WrongCertificate | BadToken

  datatype Reply = Enrolled(session: Token, rejoin: bool) | Refused(why: Refusal)

  datatype Step =
    | CurrentToken(draw: Token)
    | NewPendingToken(draw: Token)
    | Enroll(req: Request, next: Token, session: Token)
    | Forget(node: NodeId)        // an ephemeral node that went offline

  function Check(s: State, req: Request): Option<Refusal> {
    if req.node == "" then Some(MissingNode)
    else if s.requireClientCert && req.certId == "" then Some(CertificateRequired)
    else if req.certId == "" && req.token == "" then Some(NoCredential)
    else if req.certId != "" && req.certId != req.node then Some(WrongCertificate)
    else if req.certId != "" || req.token == s.pending then None
    else if req.token in s.bound && s.bound[req.token] == req.node then None
    else Some(BadToken)
  }

  function Answer(s: State, req: Request, session: Token): Reply {
    match Check(s, req)
    case Some(why) => Refused(why)
    case None => Enrolled(session, if req.certId != "" then req.node in s.nodes else req.token != s.pending)
  }

  function Admit(s: State, req: Request, next: Token, session: Token): State {
    var first := req.certId == "" && req.token == s.pending;
    s.(bound := if first then s.bound[req.token := req.node] else s.bound,
       pending := if first then next else s.pending,
       sessions := s.sessions[session := req.node],
       nodes := s.nodes[req.node := req.certId == ""],
       drawn := s.drawn + {next, session},
       log := s.log + [Admission(req.node, MeansOf(req), session)])
  }

  predicate Enabled(s: State, step: Step) {
    match step
    case CurrentToken(draw) => draw != "" && draw !in s.drawn
    case NewPendingToken(draw) => draw != "" && draw !in s.drawn
    case Enroll(_, next, session) =>
      next != "" && next !in s.drawn && session != "" && session !in s.drawn && session != next
    case Forget(node) => node in s.nodes && s.nodes[node]
  }

  function Next(s: State, step: Step): State
    requires Enabled(s, step)
  {
    match step
    case CurrentToken(draw) => if s.pending == "" then s.(pending := draw, drawn := s.drawn + {draw}) else s
    case NewPendingToken(draw) => s.(pending := draw, drawn := s.drawn + {draw})
    case Enroll(req, next, session) =>
      if Check(s, req).Some? then s.(drawn := s.drawn + {next, session}) else Admit(s, req, next, session)
    case Forget(node) => s.(nodes := s.nodes - {node})
  }

  predicate Run(s: State, steps: seq<Step>)
    decreases |steps|
  {
    |steps| > 0 ==> Enabled(s, steps[0]) && Run(Next(s, steps[0]), steps[1..])
  }

  function After(s: State, steps: seq<Step>): State
    requires Run(s, steps)
    decreases |steps|
  {
    if |steps| == 0 then s else After(Next(s, steps[0]), steps[1..])
  }

  // ---------------------------------------------------------------- what every run keeps

  /** An admission was earned: a matching certificate, or a token that is now this node's own. */
  predicate Earned(s: State, a: Admission) {
    && a.node != ""
    && match a.means
       case ByCertificate(certified) => certified == a.node
       case ByToken(token) => !s.requireClientCert && token in s.bound && s.bound[token] == a.node
  }

  ghost predicate AdmittedBy(s: State, token: Token, node: NodeId) {
    exists i :: 0 <= i < |s.log| && s.log[i].means == ByToken(token) && s.log[i].node == node
  }

  /** A bound token was used by the node it is bound to; every admission was earned. */
  ghost predicate TokensOk(s: State) {
    && (s.pending != "" ==> s.pending in s.drawn) && s.pending !in s.bound
    && (forall t :: t in s.bound ==> t in s.drawn && t != "" && AdmittedBy(s, t, s.bound[t]))
    && (forall i :: 0 <= i < |s.log| ==> Earned(s, s.log[i]))
  }

  ghost predicate SessionFor(s: State, t: Token) { exists i :: 0 <= i < |s.log| && s.log[i].session == t }

  /** Every admission has a session of its own, for the admitted node, and there are no others. */
  ghost predicate SessionsOk(s: State) {
    && (forall i :: 0 <= i < |s.log| ==>
          s.log[i].session in s.sessions && s.sessions[s.log[i].session] == s.log[i].node)
    && (forall t :: t in s.sessions ==> t in s.drawn && SessionFor(s, t))
    && (forall i, j :: 0 <= i < j < |s.log| ==> s.log[i].session != s.log[j].session)
  }

  ghost predicate Inv(s: State) { TokensOk(s) && SessionsOk(s) }

  /** What once happened stays: admissions, bindings, sessions, and the tokens drawn. */
  ghost predicate Extends(s: State, later: State) {
    && later.requireClientCert == s.requireClientCert
    && s.log <= later.log && s.drawn <= later.drawn
    && (forall t :: t in s.bound ==> t in later.bound && later.bound[t] == s.bound[t])
    && (forall t :: t in s.sessions ==> t in later.sessions && later.sessions[t] == s.sessions[t])
  }

  lemma AdmissionsStay(s: State, later: State)
    requires s.log <= later.log
    ensures forall t, node :: AdmittedBy(s, t, node) ==> AdmittedBy(later, t, node)
    ensures forall t :: SessionFor(s, t) ==> SessionFor(later, t)
  {
  }

  lemma AdmitExtends(s: State, req: Request, next: Token, session: Token)
    requires Inv(s) && Enabled(s, Enroll(req, next, session)) && Check(s, req).None?
    ensures Extends(s, Admit(s, req, next, session))
  {
  }

  lemma AdmitKeepsTokens(s: State, req: Request, next: Token, session: Token)
    requires TokensOk(s) && Enabled(s, Enroll(req, next, session)) && Check(s, req).None?
    ensures TokensOk(Admit(s, req, next, session))
  {
    var s' := Admit(s, req, next, session);
    AdmissionsStay(s, s');
    assert s'.log[|s.log|] == s'.log[|s'.log| - 1];
    hide AdmittedBy;
    forall t | t in s'.bound ensures t != "" && AdmittedBy(s', t, s'.bound[t]) {
      if t !in s.bound {
        LastAdmitted(s');
      }
    }
    forall i | 0 <= i < |s'.log| ensures Earned(s', s'.log[i]) {
      if i < |s.log| {
        assert Earned(s, s.log[i]);
      }
    }
  }

  lemma LastAdmitted(s: State)
    requires |s.log| > 0 && s.log[|s.log| - 1].means.ByToken?
    ensures AdmittedBy(s, s.log[|s.log| - 1].means.token, s.log[|s.log| - 1].node)
  {
  }

  lemma AdmitKeepsSessions(s: State, req: Request, next: Token, session: Token)
    requires SessionsOk(s) && Enabled(s, Enroll(req, next, session)) && Check(s, req).None?
    ensures SessionsOk(Admit(s, req, next, session))
  {
    var s' := Admit(s, req, next, session);
    AdmissionsStay(s, s');
    assert s'.log[|s.log|].session == session;
    assert SessionFor(s', session);
  }

  /** Drawing tokens, rotating the pending one and forgetting nodes touch nothing the invariant records. */
  lemma SameRecords(s: State, s': State)
    requires Inv(s) && s' == s.(pending := s'.pending, nodes := s'.nodes, drawn := s'.drawn)
    requires s.drawn <= s'.drawn && (s'.pending == s.pending || (s'.pending in s'.drawn && s'.pending !in s.drawn))
    ensures TokensOk(s') && SessionsOk(s') && Extends(s, s')
  {
    AdmissionsStay(s, s');
    hide AdmittedBy, SessionFor;
    forall i | 0 <= i < |s.log| ensures Earned(s', s.log[i]) {
      assert Earned(s, s.log[i]);
    }
  }

  lemma NoAdmissionKeepsInv(s: State, step: Step)
    requires Inv(s) && Enabled(s, step) && (step.Enroll? ==> Check(s, step.req).Some?)
    ensures Inv(Next(s, step)) && Extends(s, Next(s, step))
  {
    hide TokensOk, SessionsOk, Extends, Check;
    SameRecords(s, Next(s, step));
  }

  lemma NextKeepsInv(s: State, step: Step)
    requires Inv(s) && Enabled(s, step)
    ensures Inv(Next(s, step)) && Extends(s, Next(s, step))
  {
    hide TokensOk, SessionsOk, Extends;
    if step.Enroll? && Check(s, step.req).None? {
      hide Check, Admit;
      AdmitExtends(s, step.req, step.next, step.session);
      AdmitKeepsTokens(s, step.req, step.next, step.session);
      AdmitKeepsSessions(s, step.req, step.next, step.session);
    } else {
      hide Next;
      NoAdmissionKeepsInv(s, step);
    }
  }

  lemma {:induction false} RunKeepsInv(s: State, steps: seq<Step>)
    requires Inv(s) && Run(s, steps)
    ensures Inv(After(s, steps)) && Extends(s, After(s, steps))
    decreases |steps|
  {
    hide Inv;
    if |steps| > 0 {
      NextKeepsInv(s, steps[0]);
      RunKeepsInv(Next(s, steps[0]), steps[1..]);
    }
  }

  // ---------------------------------------------------------------- the guarantees

  /** In every run, all admissions by one token are of one node: the first that used it. */
  lemma TokenAdmitsOneNode(requireClientCert: bool, steps: seq<Step>, i: nat, j: nat)
    requires Run(Fresh(requireClientCert), steps)
    requires i < |After(Fresh(requireClientCert), steps).log| && j < |After(Fresh(requireClientCert), steps).log|
    ensures
      var log := After(Fresh(requireClientCert), steps).log;
      log[i].means.ByToken? && log[i].means == log[j].means ==> log[i].node == log[j].node
  {
    RunKeepsInv(Fresh(requireClientCert), steps);
    var s := After(Fresh(requireClientCert), steps);
    assert Earned(s, s.log[i]) && Earned(s, s.log[j]);
  }

  /**
   Who is let in, exactly, at any moment of any run: the node its certificate names, or, where
   tokens are allowed, the bearer of the current token or a node admitted by this token before.
   */
  lemma AdmittedExactly(requireClientCert: bool, steps: seq<Step>, req: Request, session: Token)
    requires Run(Fresh(requireClientCert), steps)
    ensures
      var s := After(Fresh(requireClientCert), steps);
      Answer(s, req, session).Enrolled? <==> (
        && req.node != ""
        && (if req.certId != "" then req.certId == req.node
            else !requireClientCert && req.token != ""
                 && (req.token == s.pending || AdmittedBy(s, req.token, req.node))))
  {
    RunKeepsInv(Fresh(requireClientCert), steps);
    var s := After(Fresh(requireClientCert), steps);
    if AdmittedBy(s, req.token, req.node) {
      var i :| 0 <= i < |s.log| && s.log[i].means == ByToken(req.token) && s.log[i].node == req.node;
      assert Earned(s, s.log[i]);
    }
  }

  /** Which refusal a request gets, in order. */
  lemma RefusedInOrder(s: State, req: Request, session: Token)
    ensures
      var answer := Answer(s, req, session);
      && (req.node == "" ==> answer == Refused(MissingNode))
      && (req.node != "" && s.requireClientCert && req.certId == "" ==> answer == Refused(CertificateRequired))
      && (req.node != "" && !s.requireClientCert && req.certId == "" && req.token == "" ==>
            answer == Refused(NoCredential))
      && (req.node != "" && req.certId != "" && req.certId != req.node ==> answer == Refused(WrongCertificate))
      && (req.node != "" && req.certId == "" && !s.requireClientCert && req.token != "" && answer.Refused? ==>
            answer == Refused(BadToken))
  {
  }

  /**
   What an admission leaves: a session of its own for the node, the node ephemeral exactly if it came by
   token, the token bound and replaced exactly on its first use; a refusal leaves everything. The node
   counts as rejoining exactly if it is known (by certificate) or bears its own old token.
   */
  lemma AdmissionLeaves(s: State, req: Request, next: Token, session: Token)
    requires Inv(s) && Enabled(s, Enroll(req, next, session))
    ensures
      var answer, later := Answer(s, req, session), Next(s, Enroll(req, next, session));
      && (answer.Refused? ==>
            later.pending == s.pending && later.bound == s.bound && later.sessions == s.sessions
            && later.nodes == s.nodes && later.log == s.log)
      && (answer.Enrolled? ==>
            && answer.session == session && session !in s.sessions
            && later.sessions == s.sessions[session := req.node]
            && later.nodes == s.nodes[req.node := req.certId == ""]
            && (if req.certId == "" && req.token == s.pending
                then later.pending == next && later.bound == s.bound[req.token := req.node]
                else later.pending == s.pending && later.bound == s.bound)
            && (answer.rejoin <==>
                  if req.certId != "" then req.node in s.nodes
                  else req.token in s.bound && s.bound[req.token] == req.node))
  {
  }

  /** A node that is forgotten leaves nothing but its place in the roster. */
  lemma ForgettingLeaves(s: State, node: NodeId)
    requires Enabled(s, Forget(node))
    ensures
      var later := Next(s, Forget(node));
      node !in later.nodes && later == s.(nodes := later.nodes)
      && forall other :: other in s.nodes && other != node ==>
           other in later.nodes && later.nodes[other] == s.nodes[other]
  {
  }

  /** No admission by the token is added to the log. */
  ghost predicate NotUsed(s: State, later: State, token: Token) {
    forall i :: |s.log| <= i < |later.log| ==> later.log[i].means != ByToken(token)
  }

  lemma TokenLeavesByUse(s: State, step: Step)
    requires Enabled(s, step) && s.pending != "" && !step.NewPendingToken?
    ensures s.log <= Next(s, step).log
    ensures NotUsed(s, Next(s, step), s.pending) ==> Next(s, step).pending == s.pending
  {
    if step.Enroll? && Check(s, step.req).None? {
      assert Next(s, step).log[|s.log|] == Admission(step.req.node, MeansOf(step.req), step.session);
    }
  }

  lemma UnusedInParts(s: State, mid: State, end: State, token: Token)
    requires s.log <= mid.log <= end.log && NotUsed(s, end, token)
    ensures NotUsed(s, mid, token) && NotUsed(mid, end, token)
  {
  }

  /**
   The operator's token stays: over every run without a rotation and without an admission by it, the
   token once shown is still the current one, reading it again shows it, and any node with an id that
   bears it without a certificate is admitted where tokens are allowed.
   */
  lemma {:induction false} CurrentTokenStays(s: State, steps: seq<Step>, req: Request, session: Token)
    requires Inv(s) && Run(s, steps) && s.pending != ""
    requires forall i :: 0 <= i < |steps| ==> !steps[i].NewPendingToken?
    requires NotUsed(s, After(s, steps), s.pending)
    ensures After(s, steps).pending == s.pending
    ensures req.node != "" && req.certId == "" && req.token == s.pending && !s.requireClientCert ==>
              Answer(After(s, steps), req, session) == Enrolled(session, false)
    decreases |steps|
  {
    if |steps| > 0 {
      var s1 := Next(s, steps[0]);
      NextKeepsInv(s, steps[0]);
      RunKeepsInv(s1, steps[1..]);
      TokenLeavesByUse(s, steps[0]);
      UnusedInParts(s, s1, After(s, steps), s.pending);
      hide Inv, Next, NotUsed, Enabled, Answer;
      CurrentTokenStays(s1, steps[1..], req, session);
    }
  }

  /** Reading the token mints one only when there is none. */
  lemma ReadingKeepsTheToken(s: State, draw: Token)
    requires Enabled(s, CurrentToken(draw))
    ensures s.pending != "" ==> Next(s, CurrentToken(draw)) == s
    ensures s.pending == "" ==> Next(s, CurrentToken(draw)) == s.(pending := draw, drawn := s.drawn + {draw})
  {
  }

  predicate RotatedAway(s: State, token: Token) {
    token in s.drawn && token != s.pending && token !in s.bound
  }

  ghost predicate Unused(s: State, token: Token) {
    forall i :: 0 <= i < |s.log| ==> s.log[i].means != ByToken(token)
  }

  /** A token rotated away before anyone used it admits nobody, ever. */
  lemma {:induction false} RotatedAwayAdmitsNobody(s: State, steps: seq<Step>, token: Token)
    requires Inv(s) && Run(s, steps) && RotatedAway(s, token)
    ensures RotatedAway(After(s, steps), token) && Unused(After(s, steps), token)
    decreases |steps|
  {
    if |steps| == 0 {
      forall i | 0 <= i < |s.log| ensures s.log[i].means != ByToken(token) {
        assert Earned(s, s.log[i]);
      }
    } else {
      NextKeepsInv(s, steps[0]);
      StaysRotatedAway(s, steps[0], token);
      RotatedAwayAdmitsNobody(Next(s, steps[0]), steps[1..], token);
    }
  }

  lemma StaysRotatedAway(s: State, step: Step, token: Token)
    requires Enabled(s, step) && RotatedAway(s, token)
    ensures RotatedAway(Next(s, step), token)
  {
  }

  /** Rotating an unused token away is what puts it there. */
  lemma RotationRetires(s: State, draw: Token)
    requires Inv(s) && Enabled(s, NewPendingToken(draw)) && s.pending != ""
    ensures RotatedAway(Next(s, NewPendingToken(draw)), s.pending)
  {
  }

  /** Once admitted by a token, a node may rejoin with it for good, where tokens are allowed. */
  lemma RejoinsForGood(s: State, steps: seq<Step>, req: Request, session: Token)
    requires Inv(s) && Run(s, steps)
    requires req.certId == "" && AdmittedBy(s, req.token, req.node)
    ensures Answer(After(s, steps), req, session) == Enrolled(session, true)
  {
    var i :| 0 <= i < |s.log| && s.log[i].means == ByToken(req.token) && s.log[i].node == req.node;
    assert Earned(s, s.log[i]);
    RunKeepsInv(s, steps);
    assert Earned(After(s, steps), After(s, steps).log[i]);
  }

  /** Every session is one admission's, and names the node admitted. */
  lemma EverySessionWasAdmitted(requireClientCert: bool, steps: seq<Step>, t: Token)
    requires Run(Fresh(requireClientCert), steps)
    ensures
      var s := After(Fresh(requireClientCert), steps);
      t in s.sessions ==> exists i :: 0 <= i < |s.log| && s.log[i].session == t && s.log[i].node == s.sessions[t]
  {
    RunKeepsInv(Fresh(requireClientCert), steps);
  }

  /** With client certificates required, every session's node is the one a verified certificate named. */
  lemma SessionsAreCertified(steps: seq<Step>, t: Token)
    requires Run(Fresh(true), steps)
    ensures
      var s := After(Fresh(true), steps);
      t in s.sessions ==>
        exists i :: 0 <= i < |s.log| && s.log[i].session == t && s.log[i].means == ByCertificate(s.sessions[t])
  {
    RunKeepsInv(Fresh(true), steps);
    var s := After(Fresh(true), steps);
    if t in s.sessions {
      var i :| 0 <= i < |s.log| && s.log[i].session == t;
      assert Earned(s, s.log[i]);
    }
  }

  // ---------------------------------------------------------------- the object

  class Core {
    const requireClientCert: bool
    var pending: Token
    var bound: map<Token, NodeId>
    var sessions: map<Token, NodeId>
    var nodes: map<NodeId, bool>
    ghost var drawn: set<Token>
    ghost var log: seq<Admission>

    ghost function Now(): State
      reads this
    {
      State(requireClientCert, pending, bound, sessions, nodes, drawn, log)
    }

    constructor (requireClientCert: bool)
      ensures Now() == Fresh(requireClientCert) && Inv(Now())
    {
      this.requireClientCert := requireClientCert;
      pending, bound, sessions, nodes := "", map[], map[], map[];
      drawn, log := {}, [];
    }

    /** The operator's token for the next node, minted when there is none. */
    method Current(draw: Token) returns (token: Token)
      requires Inv(Now()) && Enabled(Now(), CurrentToken(draw))
      modifies this
      ensures Inv(Now()) && Now() == Next(old(Now()), CurrentToken(draw))
      ensures token == pending && token != ""
      ensures old(pending) != "" ==> token == old(pending) && Now() == old(Now())
    {
      NextKeepsInv(Now(), CurrentToken(draw));
      hide Inv;
      if pending == "" {
        pending := draw;
        drawn := drawn + {draw};
      }
      return pending;
    }

    method Rotate(draw: Token) returns (token: Token)
      requires Inv(Now()) && Enabled(Now(), NewPendingToken(draw))
      modifies this
      ensures Inv(Now()) && Now() == Next(old(Now()), NewPendingToken(draw))
      ensures token == pending && token == draw
    {
      NextKeepsInv(Now(), NewPendingToken(draw));
      hide Inv;
      pending := draw;
      drawn := drawn + {draw};
      return pending;
    }

    method HandleEnroll(req: Request, next: Token, session: Token) returns (reply: Reply)
      requires Inv(Now()) && Enabled(Now(), Enroll(req, next, session))
      modifies this
      ensures Inv(Now()) && Now() == Next(old(Now()), Enroll(req, next, session))
      ensures reply == Answer(old(Now()), req, session)
    {
      NextKeepsInv(Now(), Enroll(req, next, session));
      hide Inv;
      drawn := drawn + {next, session};
      if req.node == "" {
        return Refused(MissingNode);
      }
      if requireClientCert && req.certId == "" {
        return Refused(CertificateRequired);
      }
      if req.certId == "" && req.token == "" {
        return Refused(NoCredential);
      }
      if req.certId != "" && req.certId != req.node {
        return Refused(WrongCertificate);
      }
      var accepted, rejoin := false, false;
      if req.certId != "" {
        accepted, rejoin := true, req.node in nodes;
      } else if req.token == pending {
        bound := bound[req.token := req.node];
        pending := next;
        accepted := true;
      } else if req.token in bound && bound[req.token] == req.node {
        accepted, rejoin := true, true;
      }
      if !accepted {
        return Refused(BadToken);
      }
      sessions := sessions[session := req.node];
      nodes := nodes[req.node := req.certId == ""];
      log := log + [Admission(req.node, MeansOf(req), session)];
      return Enrolled(session, rejoin);
    }

    /** An ephemeral node went offline: its slot is freed, its bound token and its sessions stay. */
    method ForgetNode(node: NodeId)
      requires Inv(Now()) && Enabled(Now(), Forget(node))
      modifies this
      ensures Inv(Now()) && Now() == Next(old(Now()), Forget(node))
    {
      NextKeepsInv(Now(), Forget(node));
      nodes := nodes - {node};
    }
  }
}

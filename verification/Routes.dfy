/** What becomes of one client's route and of one session in every interleaving, told on the
    tables alone; and the rules a session plays by, told by the room requests made. */
module Routes {
  import opened Common
  import opened Server
  import opened Routing

  /** Running a removal erases its session and the routes to it; every other session and every
      other route is as it was. */
  lemma RemovalSparesOthers(s: System, k: nat)
    requires s.net == Idle && k < |s.posts|
    ensures var id, t, t' := s.posts[k], s.t, Apply(s, RunRemoval(k)).t;
      && (forall a :: a in t.clients && t.clients[a] != id ==> a in t'.clients && t'.clients[a] == t.clients[a])
      && (forall a :: a in t'.clients ==> a in t.clients && t.clients[a] != id)
      && (forall i :: i in t.sessions && i != id ==> i in t'.sessions && t'.sessions[i] == t.sessions[i])
      && (forall i :: i in t'.sessions ==> i in t.sessions && i != id)
      && t'.rules == t.rules && t'.next == t.next
  {
  }

  // Routes, step by step.

  /** The step unmaps the address, accepts a join of it, or removes the session it is routed to. */
  predicate Reroutes(s: System, step: Step, a: Addr) {
    || step == Unmap(a)
    || (step.FinishJoin? && step.accepted && s.net.Entering? && s.net.addr == a)
    || (step.RunRemoval? && s.net == Idle && step.position < |s.posts| &&
        a in s.t.clients && s.t.clients[a] == s.posts[step.position])
  }

  lemma RouteStays(s: System, step: Step, a: Addr)
    requires RoutingOk(s) && a in s.t.clients && !Reroutes(s, step, a)
    ensures var t := Apply(s, step).t; a in t.clients && t.clients[a] == s.t.clients[a]
  {
  }

  lemma RunStep(steps: seq<Step>, j: nat)
    requires j < |steps|
    ensures Run(steps[..j + 1]) == Apply(Run(steps[..j]), steps[j])
  {
    assert steps[..j + 1][..j] == steps[..j];
  }

  lemma RoomyBefore(steps: seq<Step>, j: nat)
    requires j < |steps| && AlwaysRoomy(steps[..j + 1])
    ensures AlwaysRoomy(steps[..j])
  {
    assert steps[..j + 1][..j] == steps[..j];
  }

  /** A route stays through every run until one of these steps. */
  lemma {:induction false} RouteStaysOn(steps: seq<Step>, i: nat, j: nat, a: Addr)
    requires i <= j <= |steps| && AlwaysRoomy(steps[..j]) && a in Run(steps[..i]).t.clients
    requires forall k :: i <= k < j ==> !Reroutes(Run(steps[..k]), steps[k], a)
    ensures var t := Run(steps[..j]).t; a in t.clients && t.clients[a] == Run(steps[..i]).t.clients[a]
    decreases j
  {
    if i < j {
      RoomyBefore(steps, j - 1);
      RouteStaysOn(steps, i, j - 1, a);
      RunKeeps(steps[..j - 1]);
      RunStep(steps, j - 1);
      RouteStays(Run(steps[..j - 1]), steps[j - 1], a);
    }
  }

  /** From a join that has its session id to the route. */
  lemma FetchAndFinish(s: System, a: Addr, id: u32)
    requires s.net == Joining(a, id)
    ensures var t := Apply(Apply(s, FetchSession), FinishJoin(true));
      && t.net == Idle && t.t.clients == s.t.clients[a := id]
      && t.t.sessions.Keys == s.t.sessions.Keys + {id}
      && (forall i :: i in s.t.sessions ==> t.t.sessions[i] == s.t.sessions[i])
  {
  }

  lemma ReceiveGivesId(s: System, a: Addr, target: u32)
    requires Inv(s) && Roomy(s) && s.net == Idle
    ensures var s' := Apply(s, ReceiveJoin(a, target));
      && s'.net.Joining? && s'.net.addr == a
      && s'.t.sessions == s.t.sessions && s'.t.clients == s.t.clients
      && (if target != 0 then s'.net.id == target else s'.net.id !in s.t.sessions)
  {
    AllocateKeeps(s);
  }

  /** A join whose session accepts it: a request for a session that is named goes to that one, and
      one that names none to a new one; the session is there, the client is routed to it, and
      nobody else's route changes. */
  lemma AcceptedJoinRoutes(steps: seq<Step>, a: Addr, target: u32)
    requires AlwaysRoomy(steps) && Run(steps).net == Idle
    ensures var s := Run(steps);
      var s' := Apply(Apply(Apply(s, ReceiveJoin(a, target)), FetchSession), FinishJoin(true));
      && s'.net == Idle && a in s'.t.clients
      && s'.t.clients == s.t.clients[a := s'.t.clients[a]]
      && s'.t.sessions.Keys == s.t.sessions.Keys + {s'.t.clients[a]}
      && (forall id :: id in s.t.sessions ==> s'.t.sessions[id] == s.t.sessions[id])
      && (target != 0 ==> s'.t.clients[a] == target)
      && (target == 0 ==> s'.t.clients[a] !in s.t.sessions)
  {
    var s := Run(steps);
    RunKeeps(steps);
    ReceiveGivesId(s, a, target);
    var s1 := Apply(s, ReceiveJoin(a, target));
    FetchAndFinish(s1, a, s1.net.id);
  }

  // Sessions.

  /** The step runs the session's removal. */
  predicate Removes(s: System, step: Step, id: u32) {
    step.RunRemoval? && s.net == Idle && step.position < |s.posts| && s.posts[step.position] == id
  }

  lemma SessionStays(s: System, step: Step, id: u32)
    requires id in s.t.sessions && !Removes(s, step, id)
    ensures var m := Apply(s, step).t.sessions; id in m && m[id].rules == s.t.sessions[id].rules
  {
  }

  /** A session stays, with its rules, until its own removal runs. */
  lemma {:induction false} SessionStaysOn(steps: seq<Step>, i: nat, j: nat, id: u32)
    requires i <= j <= |steps| && id in Run(steps[..i]).t.sessions
    requires forall k :: i <= k < j ==> !Removes(Run(steps[..k]), steps[k], id)
    ensures var m := Run(steps[..j]).t.sessions; id in m && m[id].rules == Run(steps[..i]).t.sessions[id].rules
    decreases j
  {
    if i < j {
      SessionStaysOn(steps, i, j - 1, id);
      RunStep(steps, j - 1);
      SessionStays(Run(steps[..j - 1]), steps[j - 1], id);
    }
  }

  // Rules.

  /** The last room request recorded for a session id. */
  function LastRequest(steps: seq<Step>, id: u32): Option<RoomRequest>
    decreases |steps|
  {
    if steps == [] then None
    else
      var front, last := steps[..|steps| - 1], steps[|steps| - 1];
      var s := Run(front);
      if last == RecordRules && s.net.Recording? && s.net.id == id then Some(s.net.asked)
      else LastRequest(front, id)
  }

  /** Only recording a request changes the recorded rules, and only its own. */
  lemma RulesStep(s: System, step: Step, id: u32)
    ensures var m, m' := s.t.rules, Apply(s, step).t.rules;
      if step == RecordRules && s.net.Recording? && s.net.id == id then
        var r := s.net.asked;
        id in m' && m'[id] == Rules(r.mode, r.difficulty, r.mode == 1 || r.friendlyFire != 0, r.lives)
      else (id in m' <==> id in m) && (id in m ==> m'[id] == m[id])
  {
  }

  lemma {:induction false} RecordedRules(steps: seq<Step>, id: u32)
    ensures var rules := Run(steps).t.rules;
      match LastRequest(steps, id)
      case None => id !in rules
      case Some(r) =>
        id in rules && rules[id] == Rules(r.mode, r.difficulty, r.mode == 1 || r.friendlyFire != 0, r.lives)
    decreases |steps|
  {
    if steps != [] {
      var front := steps[..|steps| - 1];
      RecordedRules(front, id);
      RulesStep(Run(front), steps[|steps| - 1], id);
    }
  }

  /** In every interleaving a live session plays by the last room request recorded for its id: its
      mode, difficulty and lives, with friendly fire exactly if the request has it or the mode is
      player against player; and without a request, cooperatively, on normal difficulty, without
      friendly fire, with three lives. */
  lemma SessionsPlayByTheirRequest(steps: seq<Step>, id: u32)
    requires AlwaysRoomy(steps) && id in Run(steps).t.sessions
    ensures var rules := Run(steps).t.sessions[id].rules;
      match LastRequest(steps, id)
      case None => rules == Rules(0, 1, false, 3)
      case Some(r) =>
        && rules.mode == r.mode && rules.difficulty == r.difficulty && rules.lives == r.lives
        && (rules.friendlyFire <==> r.mode == 1 || r.friendlyFire != 0)
  {
    RunKeeps(steps);
    RecordedRules(steps, id);
  }
}

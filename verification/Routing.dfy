/** The server as interleaved atomic steps: one network thread, which handles messages and
    posted removals one after the other, and a game thread per session. */
module Routing {
  import opened Common
  import opened Server

  /** Where the network thread stands in the handler it is running. */
  datatype Net =
    | Idle
    | Joining(addr: Addr, id: u32)              // a join has its target session id
    | Entering(addr: Addr, id: u32)             // it holds the session and asks it to admit the player
    | Found(addr: Addr, id: u32)                // another message has its session id
    | Dispatching(addr: Addr, id: u32)          // it holds the session
    | Missing(addr: Addr)                       // the "session not found" branch
    | Recording(id: u32, asked: RoomRequest)    // a room request has its id

  /** `posts` is the queue of posted removals. `issued` are the ids handed out so far and
      `wrapped` whether the 32-bit counter has ever gone round. */
  datatype System = System(t: Tables, net: Net, posts: seq<u32>, issued: seq<u32>, wrapped: bool)

  const INITIAL := System(Tables(map[], map[], map[], 1), Idle, [], [], false)

  datatype Step =
    // The network thread.
    | ReceiveJoin(addr: Addr, target: u32)
    | FetchSession
    | FinishJoin(accepted: bool)
    | ReceiveOther(addr: Addr)
    | LookUp
    | FinishOther
    | ReceiveCreateRoom(asked: RoomRequest)
    | RecordRules
    | RunRemoval(position: nat)
    // A session's game thread. Leaving players are unmapped by either thread.
    | EndLoop(id: u32)
    | PostRemoval(id: u32)
    | Unmap(key: Addr)

  function Allocate(s: System): (u32, System) {
    var id := FreeId(s.t.sessions.Keys, s.t.next);
    (id, s.(t := s.t.(next := After(id)), issued := s.issued + [id],
            wrapped := s.wrapped || id < s.t.next || After(id) == 0))
  }

  /** One atomic step; a step that is not possible in this state changes nothing. */
  function Apply(s: System, step: Step): System {
    match step
    case ReceiveJoin(a, target) =>
      if s.net != Idle then s
      else if target != 0 then s.(net := Joining(a, target))
      else var (id, s') := Allocate(s); s'.(net := Joining(a, id))
    case FetchSession =>
      if !s.net.Joining? then s else s.(t := GetOrCreate(s.t, s.net.id), net := Entering(s.net.addr, s.net.id))
    case FinishJoin(accepted) =>
      if !s.net.Entering? then s
      else if accepted then s.(t := s.t.(clients := s.t.clients[s.net.addr := s.net.id]), net := Idle)
      else s.(net := Idle)
    case ReceiveOther(a) =>
      if s.net != Idle || a !in s.t.clients || s.t.clients[a] == 0 then s
      else s.(net := Found(a, s.t.clients[a]))
    case LookUp =>
      if !s.net.Found? then s
      else if s.net.id in s.t.sessions then s.(net := Dispatching(s.net.addr, s.net.id))
      else s.(net := Missing(s.net.addr))
    case FinishOther =>
      if s.net.Missing? then s.(t := s.t.(clients := s.t.clients - {s.net.addr}), net := Idle)
      else if s.net.Dispatching? then s.(net := Idle)
      else s
    case ReceiveCreateRoom(asked) =>
      if s.net != Idle then s else var (id, s') := Allocate(s); s'.(net := Recording(id, asked))
    case RecordRules =>
      if !s.net.Recording? then s
      else s.(t := s.t.(rules := s.t.rules[s.net.id := RequestedRules(s.net.asked)]), net := Idle)
    case RunRemoval(k) =>
      if s.net != Idle || k >= |s.posts| then s
      else s.(t := Remove(s.t, s.posts[k]), posts := s.posts[..k] + s.posts[k + 1..])
    case EndLoop(id) =>
      if id !in s.t.sessions || s.t.sessions[id].phase != Looping then s
      else SetPhase(s, id, Ended)
    case PostRemoval(id) =>
      if id !in s.t.sessions || s.t.sessions[id].phase != Ended then s
      else SetPhase(s, id, Posted).(posts := s.posts + [id])
    case Unmap(a) =>
      s.(t := s.t.(clients := s.t.clients - {a}))
  }

  function SetPhase(s: System, id: u32, p: Phase): System
    requires id in s.t.sessions
  {
    s.(t := s.t.(sessions := s.t.sessions[id := s.t.sessions[id].(phase := p)]))
  }

  function Run(steps: seq<Step>): System
    decreases |steps|
  {
    if steps == [] then INITIAL else Apply(Run(steps[..|steps| - 1]), steps[|steps| - 1])
  }

  /** Every client is routed to a live session; the session a handler holds is live. */
  predicate RoutingOk(s: System) {
    && (forall a :: a in s.t.clients ==> s.t.clients[a] in s.t.sessions)
    && !s.net.Missing?
    && (s.net.Entering? || s.net.Found? || s.net.Dispatching? ==> s.net.id in s.t.sessions)
  }

  /** A session's removal is in the queue at most once, and is there exactly while its loop has
      ended, it has posted, and it is still in the table. */
  predicate RemovalsOk(s: System) {
    && (forall i, j :: 0 <= i < j < |s.posts| ==> s.posts[i] != s.posts[j])
    && (forall i :: 0 <= i < |s.posts| ==> s.posts[i] in s.t.sessions && s.t.sessions[s.posts[i]].phase == Posted)
    && (forall id :: id in s.t.sessions && s.t.sessions[id].phase == Posted ==> id in s.posts)
  }

  /** Every live session plays by the rules its room request recorded, else by the defaults. */
  predicate RulesOk(s: System) {
    && (forall id :: id in s.t.sessions ==>
          s.t.sessions[id].rules == if id in s.t.rules then s.t.rules[id] else DEFAULT_RULES)
    && (s.net.Recording? ==> s.net.id !in s.t.sessions)
  }

  /** Until the counter wraps, ids are handed out in strictly increasing order and zero, which
      means "no session", is never one of them. */
  predicate IdsOk(s: System) {
    !s.wrapped ==>
      && (forall i, j :: 0 <= i < j < |s.issued| ==> s.issued[i] < s.issued[j])
      && (forall i :: 0 <= i < |s.issued| ==> s.issued[i] < s.t.next)
      && s.t.next >= 1 && 0 !in s.t.sessions && (s.net.Joining? ==> s.net.id != 0)
  }

  predicate Inv(s: System) {
    RoutingOk(s) && RemovalsOk(s) && RulesOk(s) && IdsOk(s)
  }

  /** There are never as many live sessions as ids. */
  predicate Roomy(s: System) {
    |s.t.sessions.Keys| < U32_LIMIT
  }

  lemma AllocateKeeps(s: System)
    requires Inv(s) && s.net == Idle && Roomy(s)
    ensures var (id, s') := Allocate(s); Inv(s') && id !in s'.t.sessions && (!s'.wrapped ==> id != 0)
  {
    AllocatedIdIsFresh(s.t.sessions.Keys, s.t.next);
  }

  /** The queue without its entry `k` still holds every other id once. */
  lemma WithoutOne(posts: seq<u32>, k: nat, id: u32)
    requires k < |posts| && id in posts && id != posts[k]
    ensures id in posts[..k] + posts[k + 1..]
  {
    var i :| 0 <= i < |posts| && posts[i] == id;
    assert (posts[..k] + posts[k + 1..])[if i < k then i else i - 1] == id;
  }

  lemma RemovalKeepsPosts(s: System, k: nat)
    requires RemovalsOk(s) && s.net == Idle && k < |s.posts|
    ensures RemovalsOk(Apply(s, RunRemoval(k)))
  {
    var s' := Apply(s, RunRemoval(k));
    forall id | id in s'.t.sessions && s'.t.sessions[id].phase == Posted
      ensures id in s'.posts
    {
      WithoutOne(s.posts, k, id);
    }
  }

  lemma RemovalKeeps(s: System, k: nat)
    requires Inv(s) && s.net == Idle && k < |s.posts|
    ensures Inv(Apply(s, RunRemoval(k)))
  {
    RemovalKeepsPosts(s, k);
  }

  lemma PostKeeps(s: System, id: u32)
    requires Inv(s) && id in s.t.sessions && s.t.sessions[id].phase == Ended
    ensures Inv(Apply(s, PostRemoval(id)))
  {
    var s' := Apply(s, PostRemoval(id));
    assert s'.posts[|s.posts|] == id;
    assert id !in s.posts;
  }

  lemma FetchKeeps(s: System)
    requires Inv(s)
    ensures Inv(Apply(s, FetchSession))
  {
  }

  lemma JoinStepKeeps(s: System, step: Step)
    requires Inv(s) && Roomy(s) && (step.ReceiveJoin? || step.FinishJoin?)
    ensures Inv(Apply(s, step))
  {
    if step.ReceiveJoin? && s.net == Idle && step.target == 0 {
      AllocateKeeps(s);
    }
  }

  lemma MessageStepKeeps(s: System, step: Step)
    requires Inv(s) && (step.ReceiveOther? || step.LookUp? || step.FinishOther?)
    ensures Inv(Apply(s, step))
  {
  }

  lemma RoomStepKeeps(s: System, step: Step)
    requires Inv(s) && Roomy(s) && (step.ReceiveCreateRoom? || step.RecordRules?)
    ensures Inv(Apply(s, step))
  {
    if step.ReceiveCreateRoom? && s.net == Idle {
      AllocateKeeps(s);
    }
  }

  lemma GameStepKeeps(s: System, step: Step)
    requires Inv(s) && (step.EndLoop? || step.PostRemoval? || step.Unmap?)
    ensures Inv(Apply(s, step))
  {
    if step.PostRemoval? && step.id in s.t.sessions && s.t.sessions[step.id].phase == Ended {
      PostKeeps(s, step.id);
    }
  }

  lemma StepKeeps(s: System, step: Step)
    requires Inv(s) && Roomy(s)
    ensures Inv(Apply(s, step))
  {
    if step.FetchSession? {
      FetchKeeps(s);
    } else if step.ReceiveJoin? || step.FinishJoin? {
      JoinStepKeeps(s, step);
    } else if step.ReceiveOther? || step.LookUp? || step.FinishOther? {
      MessageStepKeeps(s, step);
    } else if step.ReceiveCreateRoom? || step.RecordRules? {
      RoomStepKeeps(s, step);
    } else if step.RunRemoval? {
      if s.net == Idle && step.position < |s.posts| {
        RemovalKeeps(s, step.position);
      }
    } else {
      GameStepKeeps(s, step);
    }
  }

  predicate AlwaysRoomy(steps: seq<Step>)
    decreases |steps|
  {
    Roomy(Run(steps)) && (steps != [] ==> AlwaysRoomy(steps[..|steps| - 1]))
  }

  /** In every interleaving, routing, removals, rules and ids are as stated. */
  lemma {:induction false} RunKeeps(steps: seq<Step>)
    requires AlwaysRoomy(steps)
    ensures Inv(Run(steps))
    decreases |steps|
  {
    if steps != [] {
      var front := steps[..|steps| - 1];
      RunKeeps(front);
      StepKeeps(Run(front), steps[|steps| - 1]);
    }
  }

  predicate SafeRemoval(s: System, k: nat)
    requires k < |s.posts|
  {
    var id, s' := s.posts[k], Apply(s, RunRemoval(k));
    && id in s.t.sessions && s.t.sessions[id].phase == Posted
    && id !in s'.t.sessions && id !in s'.posts && (forall a :: a in s'.t.clients ==> s'.t.clients[a] != id)
  }

  lemma RemovalFromGoodState(s: System, k: nat)
    requires Inv(s) && s.net == Idle && k < |s.posts|
    ensures SafeRemoval(s, k)
  {
  }

  /** A removal that the network thread runs erases a session whose loop has ended, and no
      client is left routed to it. */
  lemma RemovalIsSafe(steps: seq<Step>, k: nat)
    requires AlwaysRoomy(steps)
    requires Run(steps).net == Idle && k < |Run(steps).posts|
    ensures SafeRemoval(Run(steps), k)
  {
    RunKeeps(steps);
    RemovalFromGoodState(Run(steps), k);
  }

  lemma ArrivalInGoodState(s: System, a: Addr)
    requires Inv(s) && s.net == Idle && a in s.t.clients
    ensures Apply(Apply(s, ReceiveOther(a)), LookUp).net == Dispatching(a, s.t.clients[a]) <==> s.t.clients[a] != 0
    ensures s.t.clients[a] == 0 ==> s.wrapped && Apply(s, ReceiveOther(a)) == s
  {
  }

  /** A routed client's message reaches its session exactly when the session's id is not 0, which
      stands for "no session"; with that id, which takes a counter that has wrapped, it is dropped. */
  lemma RoutedMessagesArrive(steps: seq<Step>, a: Addr)
    requires AlwaysRoomy(steps)
    requires Run(steps).net == Idle && a in Run(steps).t.clients
    ensures var s := Run(steps);
      && (Apply(Apply(s, ReceiveOther(a)), LookUp).net == Dispatching(a, s.t.clients[a]) <==> s.t.clients[a] != 0)
      && (s.t.clients[a] == 0 ==> s.wrapped && Apply(s, ReceiveOther(a)) == s)
  {
    RunKeeps(steps);
    ArrivalInGoodState(Run(steps), a);
  }
}

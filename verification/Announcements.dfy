/** What a tick owes to every entity: who is given an id and told of, who is not, and that each
    "stage cleared" notice is sent once. */
module Announcements {
  import opened Common
  import opened GameSession
  import opened Replication
  import opened ReplicaRuns
  import opened NetworkIds

  // Ids and spawns.

  lemma AnnouncedOr(s: State, order: seq<nat>, e: nat)
    requires Wf(s) && Enumerates(order, s.valid) && s.nextNetworkId + |Pending(s, order)| <= U32_LIMIT
    requires e in s.entities
    ensures var t := Announced(s, order);
      && e in t.entities
      && (HasPending(Pending(s, order), e) <==> e in s.valid && Unannounced(s, e))
      && (!HasPending(Pending(s, order), e) ==> t.entities[e] == s.entities[e])
      && (HasPending(Pending(s, order), e) ==>
            exists id :: s.nextNetworkId <= id < t.nextNetworkId && t.entities[e] == s.entities[e].(netId := Some(id)))
  {
    var p := Pending(s, order);
    AnnouncedEntities(s, order);
    if e in s.valid && Unannounced(s, e) {
      PendingCovers(s, order, e);
    }
    if HasPending(p, e) {
      var i :| 0 <= i < |p| && p[i].0 == e;
      assert p[i].0 in s.valid && Unannounced(s, p[i].0) && p[i].1 == s.nextNetworkId + i;
      assert Announced(s, order).entities[e] == s.entities[e].(netId := Some(p[i].1));
    }
  }

  /** What a tick with clients does to one entity: it gives an id to a live one with position and
      velocity that is neither player nor world and has none yet, from the dynamic counter; it
      takes none away, gives no other, and changes nothing else but that a notice is sent. */
  lemma TickOnEntity(s: State, order: seq<nat>, lastOrder: seq<nat>, e: nat)
    requires Wf(s) && s.clients != map[] && Enumerates(order, s.valid) && e in s.entities
    requires Update(s, order, lastOrder).0.nextNetworkId <= U32_LIMIT
    ensures var t := Update(s, order, lastOrder).0;
      var c := s.entities[e];
      && e in t.entities
      && var d := t.entities[e];
      && (e in s.valid && c.hasPosition && c.hasVelocity && !c.player && !c.world && c.netId.None? ==>
            d.netId.Some? && s.nextNetworkId <= d.netId.value < t.nextNetworkId)
      && (!(e in s.valid && c.hasPosition && c.hasVelocity && !c.player && !c.world && c.netId.None?) ==>
            d.netId == c.netId)
      && d == c.(netId := d.netId, stage := d.stage)
      && d.stage == (if e in s.valid && c.stage == Some(false) then Some(true) else c.stage)
  {
    AnnouncedOr(s, order, e);
  }

  /** In every run, after every tick with clients: each live entity with position and velocity
      that is neither player nor world has an id, and every client that has had its snapshot
      holds it. */
  lemma EveryoneIsAnnounced(base: nat, n: nat, steps: seq<Step>, order: seq<nat>, lastOrder: seq<nat>, e: nat)
    requires BaseOk(base)
    requires var h := Run(Start(base, n), steps);
      && h.s.clients != map[] && Enumerates(order, h.s.valid) && Enumerates(lastOrder, h.s.lastKnown)
      && InRange(Apply(h, Tick(order, lastOrder)).s)
    requires var t := Apply(Run(Start(base, n), steps), Tick(order, lastOrder)).s;
      && e in t.valid && e in t.entities
      && t.entities[e].hasPosition && t.entities[e].hasVelocity && !t.entities[e].player && !t.entities[e].world
    ensures var h' := Apply(Run(Start(base, n), steps), Tick(order, lastOrder));
      && h'.s.entities[e].netId.Some?
      && forall a :: a in h'.synced ==> a in h'.sent && h'.s.entities[e].netId.value in Copy(h', a)
  {
    var h := Run(Start(base, n), steps);
    var h' := Apply(h, Tick(order, lastOrder));
    Counters(h, Tick(order, lastOrder));
    RunKeeps(base, n, steps);
    TickGivesId(h, order, lastOrder, e);
    forall a | a in h'.synced
      ensures a in h'.sent && h'.s.entities[e].netId.value in Copy(h', a)
    {
      ReplicaIsExact(base, n, steps, order, lastOrder, a);
    }
  }

  lemma TickGivesId(h: History, order: seq<nat>, lastOrder: seq<nat>, e: nat)
    requires Wf(h.s) && h.s.clients != map[] && Enumerates(order, h.s.valid) && Enumerates(lastOrder, h.s.lastKnown)
    requires InRange(Apply(h, Tick(order, lastOrder)).s)
    requires var t := Apply(h, Tick(order, lastOrder)).s;
      && e in t.valid && e in t.entities
      && t.entities[e].hasPosition && t.entities[e].hasVelocity && !t.entities[e].player && !t.entities[e].world
    ensures var h' := Apply(h, Tick(order, lastOrder));
      && h'.synced == h.synced
      && h'.s.entities[e].netId.Some? && h'.s.entities[e].netId.value in NonPlayerIds(h'.s)
  {
    TickIs(h, order, lastOrder);
    LiveBefore(h.s, order, lastOrder, e);
    TickOnEntity(h.s, order, lastOrder, e);
    assert Replicated(Apply(h, Tick(order, lastOrder)).s, e);
  }

  lemma LiveBefore(s: State, order: seq<nat>, lastOrder: seq<nat>, e: nat)
    requires Wf(s) && e in Update(s, order, lastOrder).0.valid
    ensures e in s.valid && e in s.entities
  {
  }

  // Notices.

  function Copies(messages: seq<Message>, m: Message): nat {
    multiset(messages)[m]
  }

  lemma {:induction false} NoticeCopies(s: State, order: seq<nat>, e: nat)
    requires forall i, j :: 0 <= i < j < |order| ==> order[i] != order[j]
    ensures Copies(Notices(s, order), Cleared(e)) == if e in order && UnsentNotice(s, e) then 1 else 0
    decreases |order|
  {
    if order != [] {
      var front, last := order[..|order| - 1], order[|order| - 1];
      NoticeCopies(s, front, e);
      assert order == front + [last] && last !in front;
    }
  }

  lemma {:induction false} NoNoticeAmongDeaths(order: seq<nat>, current: set<nat>, e: nat)
    ensures Cleared(e) !in Deaths(order, current)
    decreases |order|
  {
    if order != [] {
      NoNoticeAmongDeaths(order[..|order| - 1], current, e);
    }
  }

  lemma {:induction false} WithIdsOnly(entities: map<nat, Entity>, p: seq<(nat, nat)>)
    ensures var m := WithIds(entities, p);
      && m.Keys == entities.Keys
      && forall e :: e in entities ==> m[e] == entities[e].(netId := m[e].netId)
    decreases |p|
  {
    if p != [] {
      WithIdsOnly(entities, p[..|p| - 1]);
    }
  }

  /** A tick with clients sends one message for each live unsent notice and none for any other,
      and destroys just the entities of these. */
  lemma TickOnNotices(s: State, order: seq<nat>, lastOrder: seq<nat>, e: nat)
    requires Wf(s) && s.clients != map[] && Enumerates(order, s.valid) && e in s.entities
    ensures var (t, messages) := Update(s, order, lastOrder);
      var due := e in s.valid && s.entities[e].stage == Some(false);
      && Copies(messages, Cleared(e)) == (if due then 1 else 0)
      && (e in t.valid <==> e in s.valid && !due)
  {
    var s1 := Announced(s, order);
    WithIdsOnly(s.entities, Pending(s, order));
    NoticeCopies(s1, order, e);
    NoNoticeAmongDeaths(lastOrder, NetIds(s1), e);
    assert Cleared(e) !in Spawns(Pending(s, order));
  }

  /** The messages of a step to the clients. */
  function Sent(h: History, step: Step): seq<Message> {
    if step.Tick? && Enumerates(step.order, h.s.valid) && Enumerates(step.lastOrder, h.s.lastKnown) then
      Update(h.s, step.order, step.lastOrder).1
    else []
  }

  /** Entity ids are issued in order, and what is destroyed stays so. */
  lemma StepOnLife(h: History, step: Step)
    requires Wf(h.s)
    ensures Wf(Apply(h, step).s) && h.s.next <= Apply(h, step).s.next
    ensures forall e: nat :: e < h.s.next && e !in h.s.valid ==> e !in Apply(h, step).s.valid
  {
    if step.Tick? {
      WithIdsOnly(h.s.entities, Pending(h.s, step.order));
    }
  }

  lemma RunStep(start: History, steps: seq<Step>, j: nat)
    requires j < |steps|
    ensures Run(start, steps[..j + 1]) == Apply(Run(start, steps[..j]), steps[j])
  {
    assert steps[..j + 1][..j] == steps[..j];
  }

  lemma {:induction false} RunWf(base: nat, n: nat, steps: seq<Step>, j: nat)
    requires j <= |steps|
    ensures Wf(Run(Start(base, n), steps[..j]).s)
    decreases j
  {
    if j == 0 {
      StartedEntities(base, n);
    } else {
      RunWf(base, n, steps, j - 1);
      RunStep(Start(base, n), steps, j - 1);
      StepOnLife(Run(Start(base, n), steps[..j - 1]), steps[j - 1]);
    }
  }

  predicate IsGone(s: State, e: nat) {
    e < s.next && e !in s.valid
  }

  lemma {:induction false} StaysGone(base: nat, n: nat, steps: seq<Step>, i: nat, j: nat, e: nat)
    requires i <= j <= |steps| && IsGone(Run(Start(base, n), steps[..i]).s, e)
    ensures IsGone(Run(Start(base, n), steps[..j]).s, e)
    decreases j
  {
    if i < j {
      StaysGone(base, n, steps, i, j - 1, e);
      RunWf(base, n, steps, j - 1);
      RunStep(Start(base, n), steps, j - 1);
      StepOnLife(Run(Start(base, n), steps[..j - 1]), steps[j - 1]);
    }
  }

  lemma {:induction false} NoticeFrom(s: State, order: seq<nat>, e: nat)
    requires Cleared(e) in Notices(s, order)
    ensures e in order && UnsentNotice(s, e)
    decreases |order|
  {
    var front := order[..|order| - 1];
    if Cleared(e) in Notices(s, front) {
      NoticeFrom(s, front, e);
    }
  }

  /** A notice that is sent was live before and is not after. */
  lemma SentIsGone(h: History, step: Step, e: nat)
    requires Wf(h.s) && Cleared(e) in Sent(h, step)
    ensures e in h.s.valid && IsGone(Apply(h, step).s, e)
  {
    var order, lastOrder := step.order, step.lastOrder;
    var s1 := Announced(h.s, order);
    TickIs(h, order, lastOrder);
    NoNoticeAmongDeaths(lastOrder, NetIds(s1), e);
    assert Cleared(e) !in Spawns(Pending(h.s, order));
    NoticeFrom(s1, order, e);
    TickOnNotices(h.s, order, lastOrder, e);
  }

  /** Over any run, no notice is sent twice. */
  lemma NoticeIsSentOnce(base: nat, n: nat, steps: seq<Step>, i: nat, j: nat, e: nat)
    requires i < j < |steps| && Cleared(e) in Sent(Run(Start(base, n), steps[..i]), steps[i])
    ensures Cleared(e) !in Sent(Run(Start(base, n), steps[..j]), steps[j])
  {
    var start := Start(base, n);
    RunWf(base, n, steps, i);
    RunStep(start, steps, i);
    SentIsGone(Run(start, steps[..i]), steps[i], e);
    StaysGone(base, n, steps, i + 1, j, e);
    RunWf(base, n, steps, j);
    if Cleared(e) in Sent(Run(start, steps[..j]), steps[j]) {
      SentIsGone(Run(start, steps[..j]), steps[j], e);
    }
  }
}

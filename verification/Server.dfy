/** The server's tables (server/src/Server.cpp): live sessions, which client is routed to which
    session, the rules recorded for rooms and the next session id. Each method is one critical
    section under the sessions lock. */
module Server {
  import opened Common

  datatype Rules = Rules(mode: nat, difficulty: nat, friendlyFire: bool, lives: nat)

  const PVP := 1
  const DEFAULT_RULES := Rules(0, 1, false, 3)

  /** The fields of a room request that make its rules. */
  datatype RoomRequest = RoomRequest(mode: u8, difficulty: u8, friendlyFire: u8, lives: u8)

  /** The rules that a room request asks for. */
  function RequestedRules(r: RoomRequest): Rules {
    Rules(r.mode, r.difficulty, r.mode == PVP || r.friendlyFire != 0, r.lives)
  }

  /** How far a session's game loop has got: looping, out of the loop, removal posted. */
  datatype Phase = Looping | Ended | Posted
  datatype Session = Session(phase: Phase, rules: Rules)

  datatype Tables = Tables(sessions: map<u32, Session>, clients: map<Addr, u32>, rules: map<u32, Rules>, next: u32)

  // Session ids.

  /** The first id from `n` on that is not live, below the end of the 32-bit range. */
  function FirstFree(live: set<u32>, n: nat): (r: Option<u32>)
    requires n <= U32_LIMIT
    ensures r.Some? ==> n <= r.value && r.value !in live && forall j: u32 :: n <= j < r.value ==> j in live
    ensures r.None? ==> forall j: u32 :: n <= j ==> j in live
    decreases U32_LIMIT - n
  {
    if n == U32_LIMIT then None
    else if n !in live then Some(n)
    else FirstFree(live, n + 1)
  }

  /** The id the allocation loop settles on; the counter wraps around. */
  function FreeId(live: set<u32>, next: u32): u32 {
    match FirstFree(live, next)
    case Some(id) => id
    case None => match FirstFree(live, 0) case Some(id) => id case None => 0
  }

  function After(id: u32): u32 {
    (id + 1) % U32_LIMIT
  }

  lemma {:induction false} AtLeast(s: set<u32>, n: nat)
    requires n <= U32_LIMIT && forall j: u32 :: 0 <= j < n ==> j in s
    ensures |s| >= n
  {
    if n > 0 {
      var top: u32 := n - 1;
      AtLeast(s - {top}, n - 1);
    }
  }

  lemma SomeIdIsFree(live: set<u32>)
    requires |live| < U32_LIMIT
    ensures FirstFree(live, 0).Some?
  {
    if FirstFree(live, 0).None? {
      AtLeast(live, U32_LIMIT);
    }
  }

  /** An allocated id is not live, and unless the counter wraps it is not below the counter,
      which then ends up beyond it. */
  lemma AllocatedIdIsFresh(live: set<u32>, next: u32)
    requires |live| < U32_LIMIT
    ensures FreeId(live, next) !in live
    ensures (exists j: u32 :: next <= j && j !in live) <==> next <= FreeId(live, next)
    ensures var id := FreeId(live, next); next <= id && id < U32_LIMIT - 1 ==> After(id) > id
  {
    SomeIdIsFree(live);
    if FirstFree(live, next).None? {
      assert FreeId(live, next) !in live;
    }
  }

  lemma PassOver(live: set<u32>, n: u32)
    requires n in live
    ensures FirstFree(live, n) == FirstFree(live, n + 1)
  {
  }

  lemma PassOverLast(live: set<u32>, n: u32)
    requires n == U32_LIMIT - 1 && n in live && |live| < U32_LIMIT
    ensures After(n) == 0 && FirstFree(live, n).None? && FirstFree(live, After(n)).Some?
  {
    PassOver(live, n);
    SomeIdIsFree(live);
  }

  /** Passing over a live id does not change which one the search finds. */
  lemma SameFreeId(live: set<u32>, n: u32)
    requires n in live && |live| < U32_LIMIT
    ensures FreeId(live, After(n)) == FreeId(live, n)
    ensures FirstFree(live, n).Some? ==> n < U32_LIMIT - 1
    ensures FirstFree(live, n).Some? || n == U32_LIMIT - 1 ==> FirstFree(live, After(n)).Some?
  {
    if n == U32_LIMIT - 1 {
      PassOverLast(live, n);
    } else {
      PassOver(live, n);
    }
  }

  // The critical sections, as functions on the tables.

  function GetOrCreate(t: Tables, id: u32): Tables {
    if id in t.sessions then t
    else t.(sessions := t.sessions[id := Session(Looping, if id in t.rules then t.rules[id] else DEFAULT_RULES)])
  }

  function Remove(t: Tables, id: u32): Tables {
    t.(sessions := t.sessions - {id}, clients := map a | a in t.clients && t.clients[a] != id :: t.clients[a])
  }

  class Server {
    var sessions: map<u32, Session>
    var clientSessionMap: map<Addr, u32>
    var sessionRules: map<u32, Rules>
    var nextSessionId: u32

    function State(): Tables
      reads this
    {
      Tables(sessions, clientSessionMap, sessionRules, nextSessionId)
    }

    constructor ()
      ensures State() == Tables(map[], map[], map[], 1)
    {
      sessions, clientSessionMap, sessionRules, nextSessionId := map[], map[], map[], 1;
    }

    /** The loop ends because not every id can be live. */
    method AllocateSessionId() returns (id: u32)
      requires |sessions.Keys| < U32_LIMIT
      modifies this`nextSessionId
      ensures id == FreeId(sessions.Keys, old(nextSessionId)) && nextSessionId == After(id)
    {
      ghost var wrapped := false;
      while nextSessionId in sessions
        invariant FreeId(sessions.Keys, nextSessionId) == FreeId(sessions.Keys, old(nextSessionId))
        invariant wrapped ==> FirstFree(sessions.Keys, nextSessionId).Some?
        decreases if wrapped then 0 else 1, U32_LIMIT - nextSessionId
      {
        SameFreeId(sessions.Keys, nextSessionId);
        if nextSessionId == U32_LIMIT - 1 {
          wrapped := true;
        }
        nextSessionId := (nextSessionId + 1) % U32_LIMIT;
      }
      id := nextSessionId;
      nextSessionId := (nextSessionId + 1) % U32_LIMIT;
    }

    method GetOrCreateSession(id: u32)
      modifies this`sessions
      ensures State() == GetOrCreate(old(State()), id)
    {
      if id !in sessions {
        var rules := DEFAULT_RULES;
        if id in sessionRules {
          rules := sessionRules[id];
        }
        sessions := sessions[id := Session(Looping, rules)];
      }
    }

    method UnmapClient(key: Addr)
      modifies this`clientSessionMap
      ensures clientSessionMap == old(clientSessionMap) - {key}
    {
      clientSessionMap := clientSessionMap - {key};
    }

    method RemoveSession(id: u32)
      modifies this`sessions, this`clientSessionMap
      ensures State() == Remove(old(State()), id)
    {
      sessions := sessions - {id};
      ghost var wanted := Remove(old(State()), id).clients;
      var left := clientSessionMap.Keys;
      while left != {}
        invariant sessions == old(sessions) - {id} && unchanged(`sessionRules) && unchanged(`nextSessionId)
        invariant left <= clientSessionMap.Keys <= old(clientSessionMap).Keys
        invariant forall a :: a in clientSessionMap ==> clientSessionMap[a] == old(clientSessionMap)[a]
        invariant forall a :: a in old(clientSessionMap) ==>
          (a in clientSessionMap <==> a in left || old(clientSessionMap)[a] != id)
      {
        var key :| key in left;
        left := left - {key};
        if clientSessionMap[key] == id {
          clientSessionMap := clientSessionMap - {key};
        }
      }
      assert clientSessionMap.Keys == wanted.Keys;
      assert clientSessionMap == wanted;
    }

    /** A room request's rules; player against player always allows friendly fire. */
    method RecordRoom(id: u32, request: RoomRequest)
      modifies this`sessionRules
      ensures sessionRules == old(sessionRules)[id := RequestedRules(request)]
    {
      var rules := Rules(request.mode, request.difficulty, request.mode == PVP, request.lives);
      if request.friendlyFire != 0 {
        rules := rules.(friendlyFire := true);
      }
      sessionRules := sessionRules[id := rules];
    }

    method MapClient(key: Addr, id: u32)
      modifies this`clientSessionMap
      ensures clientSessionMap == old(clientSessionMap)[key := id]
    {
      clientSessionMap := clientSessionMap[key := id];
    }
  }
}

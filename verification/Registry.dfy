/** The entity registry over growable sparse arrays (ecs/include/Registry.hpp,
    ecs/src/Registry.cpp), and the plain map it refines. */
module Registry {
  import opened Common
  import opened SparseArray

  /** What a registry means: the next id, the live entities, and which entity has which
      component. Entities that are no longer live may still have components. */
  datatype Store<!K(==), V> = Store(next: nat, valid: set<nat>, components: imap<(K, nat), V>)

  /** Components sit on issued ids only. */
  ghost predicate IssuedOnly<K(!new), V>(s: Store<K, V>) {
    && (forall e :: e in s.valid ==> e < s.next)
    && (forall k: K, e: nat :: (k, e) in s.components ==> e < s.next)
  }

  class Registry<K(==,!new), V(!new)> {
    var nextEntity: nat
    var validEntities: set<nat>
    var componentArrays: map<K, SparseArray<V>>

    /** Different component types have different storage. */
    ghost predicate Valid()
      reads this
    {
      forall k, l :: k in componentArrays && l in componentArrays && componentArrays[k] == componentArrays[l] ==> k == l
    }

    ghost function Lookup(k: K, e: nat): Option<V>
      reads this, componentArrays.Values
    {
      if k in componentArrays then componentArrays[k].At(e) else None
    }

    ghost function Abstract(): Store<K, V>
      reads this, componentArrays.Values
    {
      Store(nextEntity, validEntities, imap k: K, e: nat | Lookup(k, e).Some? :: (k, e) := Lookup(k, e).value)
    }

    constructor ()
      ensures Valid() && Abstract() == Store(0, {}, imap[])
    {
      nextEntity, validEntities, componentArrays := 0, {}, map[];
    }

    method CreateEntity() returns (entity: nat)
      requires Valid()
      modifies this
      ensures Valid() && componentArrays == old(componentArrays)
      ensures entity == old(nextEntity)
      ensures var s := old(Abstract()); Abstract() == Store(s.next + 1, s.valid + {entity}, s.components)
    {
      entity := nextEntity;
      nextEntity := nextEntity + 1;
      validEntities := validEntities + {entity};
    }

    method DestroyEntity(entity: nat)
      requires Valid()
      modifies this
      ensures Valid() && componentArrays == old(componentArrays)
      ensures Abstract() == old(Abstract()).(valid := old(validEntities) - {entity})
    {
      if entity in validEntities {
        validEntities := validEntities - {entity};
      }
    }

    method IsValid(entity: nat) returns (r: bool)
      ensures r <==> entity in validEntities
    {
      r := entity in validEntities;
    }

    method Clear()
      modifies this
      ensures Valid() && Abstract() == Store(0, {}, imap[])
    {
      validEntities, componentArrays, nextEntity := {}, map[], 0;
    }

    /** Makes an empty storage for a component type seen for the first time. */
    method GetOrCreateStorage(k: K) returns (storage: SparseArray<V>)
      requires Valid()
      modifies this
      ensures Valid() && k in componentArrays && componentArrays[k] == storage
      ensures fresh(storage) || storage in old(componentArrays.Values)
      ensures componentArrays == old(componentArrays)[k := storage]
      ensures nextEntity == old(nextEntity) && validEntities == old(validEntities)
      ensures forall l: K, e: nat :: Lookup(l, e) == old(Lookup(l, e))
    {
      if k !in componentArrays {
        storage := new SparseArray();
        componentArrays := componentArrays[k := storage];
      } else {
        storage := componentArrays[k];
      }
    }

    method AddComponent(k: K, entity: nat, component: V)
      requires Valid()
      modifies this, componentArrays.Values
      ensures Valid() && fresh(componentArrays.Values - old(componentArrays.Values))
      ensures var s := old(Abstract()); Abstract() == s.(components := s.components[(k, entity) := component])
    {
      ghost var before := Abstract();
      var storage := GetOrCreateStorage(k);
      storage.EmplaceAt(entity, component);
      assert forall l: K, e: nat ::
        Lookup(l, e) == if l == k && e == entity then Some(component) else old(Lookup(l, e));
      OneWritten(before, Abstract(), k, entity, component);
    }

    /** Reading may create storage and grow it; a missing component is an error. */
    method GetComponent(k: K, entity: nat) returns (r: Option<V>)
      requires Valid()
      modifies this, componentArrays.Values
      ensures Valid() && fresh(componentArrays.Values - old(componentArrays.Values))
      ensures Abstract() == old(Abstract())
      ensures var c := old(Abstract()).components; r == if (k, entity) in c then Some(c[(k, entity)]) else None
    {
      var storage := GetOrCreateStorage(k);
      r := storage.Index(entity);
      assert forall l: K, e: nat :: Lookup(l, e) == old(Lookup(l, e));
    }

    method RemoveComponent(k: K, entity: nat)
      requires Valid()
      modifies this, componentArrays.Values
      ensures Valid() && fresh(componentArrays.Values - old(componentArrays.Values))
      ensures var s := old(Abstract()); Abstract() == s.(components := s.components - {(k, entity)})
    {
      var storage := GetOrCreateStorage(k);
      storage.Erase(entity);
      assert forall l: K, e: nat :: Lookup(l, e) == if l == k && e == entity then None else old(Lookup(l, e));
    }

    /** Grows the storage of a known component type even though it only asks. */
    method HasComponent(k: K, entity: nat) returns (r: bool)
      requires Valid()
      modifies componentArrays.Values
      ensures Valid() && Abstract() == old(Abstract())
      ensures r <==> (k, entity) in Abstract().components
    {
      if k !in componentArrays {
        return false;
      }
      var slot := componentArrays[k].Index(entity);
      assert forall l: K, e: nat :: Lookup(l, e) == old(Lookup(l, e));
      r := slot.Some?;
    }

    method HasAllComponents(kinds: seq<K>, entity: nat) returns (r: bool)
      requires Valid()
      modifies componentArrays.Values
      ensures Valid() && Abstract() == old(Abstract())
      ensures r <==> forall i :: 0 <= i < |kinds| ==> (kinds[i], entity) in Abstract().components
    {
      for i := 0 to |kinds|
        invariant Valid() && Abstract() == old(Abstract())
        invariant forall j :: 0 <= j < i ==> (kinds[j], entity) in Abstract().components
      {
        var has := HasComponent(kinds[i], entity);
        if !has {
          return false;
        }
      }
      return true;
    }

    /** A view: the live entities with all the given components, each once, in the unknown
        order in which the set of live entities is walked. */
    method View(kinds: seq<K>) returns (entities: seq<nat>)
      requires Valid()
      modifies componentArrays.Values
      ensures Valid() && Abstract() == old(Abstract())
      ensures NoDuplicates(entities)
      ensures forall e :: e in entities <==> e in validEntities && HasAll(Abstract(), kinds, e)
    {
      entities := [];
      var left := validEntities;
      while left != {}
        invariant Valid() && Abstract() == old(Abstract()) && left <= validEntities
        invariant NoDuplicates(entities)
        invariant forall e :: e in entities <==> e in validEntities - left && HasAll(Abstract(), kinds, e)
        decreases left
      {
        var entity :| entity in left;
        assert entity !in entities;
        left := left - {entity};
        var has := HasAllComponents(kinds, entity);
        if has {
          entities := entities + [entity];
        }
      }
    }
  }

  /** A store that differs from another in one component. */
  lemma OneWritten<K(!new), V>(s: Store<K, V>, t: Store<K, V>, k: K, e: nat, v: V)
    requires t.next == s.next && t.valid == s.valid && (k, e) in t.components && t.components[(k, e)] == v
    requires forall l: K, d: nat :: (l, d) != (k, e) ==> ((l, d) in t.components <==> (l, d) in s.components)
    requires forall l: K, d: nat :: (l, d) != (k, e) && (l, d) in s.components && (l, d) in t.components ==>
      t.components[(l, d)] == s.components[(l, d)]
    ensures t == s.(components := s.components[(k, e) := v])
  {
    var wanted := s.components[(k, e) := v];
    forall key: (K, nat)
      ensures key in t.components <==> key in wanted
      ensures key in t.components ==> t.components[key] == wanted[key]
    {
      var (l, d) := key;
      assert key == (l, d);
    }
    assert t.components == wanted;
  }

  ghost predicate HasAll<K, V>(s: Store<K, V>, kinds: seq<K>, e: nat) {
    forall i :: 0 <= i < |kinds| ==> (kinds[i], e) in s.components
  }

  predicate NoDuplicates(s: seq<nat>) {
    forall i, j :: 0 <= i < j < |s| ==> s[i] != s[j]
  }

  // Any run of the operations that change the abstract state.

  datatype Op<K, V> =
    Create | Destroy(entity: nat) | Add(kind: K, entity: nat, value: V) | Remove(kind: K, entity: nat) | Clear

  ghost function Apply<K, V>(s: Store<K, V>, op: Op<K, V>): Store<K, V> {
    match op
    case Create => Store(s.next + 1, s.valid + {s.next}, s.components)
    case Destroy(e) => s.(valid := s.valid - {e})
    case Add(k, e, v) => s.(components := s.components[(k, e) := v])
    case Remove(k, e) => s.(components := s.components - {(k, e)})
    case Clear => Store(0, {}, imap[])
  }

  ghost function Run<K, V>(s: Store<K, V>, ops: seq<Op<K, V>>): Store<K, V>
    decreases |ops|
  {
    if ops == [] then s else Apply(Run(s, ops[..|ops| - 1]), ops[|ops| - 1])
  }

  /** Components are added only to ids already issued. */
  ghost predicate AddsToIssued<K, V>(s: Store<K, V>, ops: seq<Op<K, V>>) {
    forall i :: 0 <= i < |ops| && ops[i].Add? ==> ops[i].entity < Run(s, ops[..i]).next
  }

  lemma {:induction false} RunKeepsIssuedOnly<K(!new), V>(s: Store<K, V>, ops: seq<Op<K, V>>)
    requires IssuedOnly(s) && AddsToIssued(s, ops)
    ensures IssuedOnly(Run(s, ops))
    decreases |ops|
  {
    if ops != [] {
      var front := ops[..|ops| - 1];
      assert forall i :: 0 <= i < |front| ==> front[..i] == ops[..i];
      RunKeepsIssuedOnly(s, front);
    }
  }

  /** A destroyed entity keeps its components in storage, yet an entity created later, in any
      run, has none: its id was not issued before, or everything was cleared since. */
  lemma NewEntityIsBare<K(!new), V>(s: Store<K, V>, ops: seq<Op<K, V>>, k: K)
    requires IssuedOnly(s) && AddsToIssued(s, ops)
    ensures var before := Run(s, ops);
      before.next !in before.valid && (k, before.next) !in Apply(before, Create).components
  {
    RunKeepsIssuedOnly(s, ops);
  }

  /** The condition is needed: a component added to an id ahead of its issue shows up on the
      entity created next. */
  lemma EarlyComponentShows<K(!new), V>(s: Store<K, V>, k: K, v: V)
    requires IssuedOnly(s)
    ensures var before := Run(s, [Add(k, s.next, v)]); (k, before.next) in Apply(before, Create).components
  {
    var ops := [Add(k, s.next, v)];
    assert ops[..0] == [] && Run(s, ops) == Apply(Run(s, ops[..0]), ops[0]);
  }

  // Which entities are live after a run.

  /** Operation `j` creates entity `e`, and nothing after it destroys or clears it. */
  ghost predicate CreatedAt<K, V>(s: Store<K, V>, ops: seq<Op<K, V>>, e: nat, j: nat) {
    && j < |ops| && ops[j].Create? && Run(s, ops[..j]).next == e
    && forall k :: j < k < |ops| ==> !ops[k].Clear? && ops[k] != Destroy(e)
  }

  ghost predicate Survives<K, V>(ops: seq<Op<K, V>>, e: nat) {
    forall k :: 0 <= k < |ops| ==> !ops[k].Clear? && ops[k] != Destroy(e)
  }

  lemma CreatedBefore<K, V>(s: Store<K, V>, ops: seq<Op<K, V>>, e: nat, j: nat)
    requires ops != [] && j < |ops| - 1 && !ops[|ops| - 1].Clear? && ops[|ops| - 1] != Destroy(e)
    ensures CreatedAt(s, ops, e, j) <==> CreatedAt(s, ops[..|ops| - 1], e, j)
  {
    var front := ops[..|ops| - 1];
    assert front[..j] == ops[..j];
    if CreatedAt(s, front, e, j) {
      forall k | j < k < |ops|
        ensures !ops[k].Clear? && ops[k] != Destroy(e)
      {
        assert k < |front| ==> front[k] == ops[k];
      }
    }
    if CreatedAt(s, ops, e, j) {
      forall k | j < k < |front|
        ensures !front[k].Clear? && front[k] != Destroy(e)
      {
        assert front[k] == ops[k];
      }
    }
  }

  /** An entity is live after a run exactly if it was before and nothing destroyed or cleared it,
      or the run created it and nothing destroyed or cleared it since. */
  lemma {:induction false} LiveExactly<K, V>(s: Store<K, V>, ops: seq<Op<K, V>>, e: nat)
    ensures e in Run(s, ops).valid <==>
      (e in s.valid && Survives(ops, e)) || exists j: nat :: CreatedAt(s, ops, e, j)
    decreases |ops|
  {
    if ops != [] {
      var front, last := ops[..|ops| - 1], ops[|ops| - 1];
      LiveExactly(s, front, e);
      if !last.Clear? && last != Destroy(e) {
        forall j: nat | j < |front|
          ensures CreatedAt(s, ops, e, j) <==> CreatedAt(s, front, e, j)
        {
          CreatedBefore(s, ops, e, j);
        }
        assert CreatedAt(s, ops, e, |front|) <==> last.Create? && Run(s, front).next == e;
        assert Survives(ops, e) <==> Survives(front, e);
        if j: nat :| CreatedAt(s, front, e, j) {
          assert CreatedAt(s, ops, e, j);
        }
      } else {
        assert !Survives(ops, e);
        forall j: nat
          ensures !CreatedAt(s, ops, e, j)
        {
        }
      }
    }
  }

  predicate HasClear<K, V>(ops: seq<Op<K, V>>) {
    exists i :: 0 <= i < |ops| && ops[i].Clear?
  }

  lemma {:induction false} CounterGrows<K, V>(s: Store<K, V>, ops: seq<Op<K, V>>)
    requires !HasClear(ops)
    ensures s.next <= Run(s, ops).next
    decreases |ops|
  {
    if ops != [] {
      var front := ops[..|ops| - 1];
      assert forall i :: 0 <= i < |front| ==> front[i] == ops[i];
      CounterGrows(s, front);
    }
  }

  /** A destroyed entity's id is live again after a run exactly if the run cleared the registry
      and then created an entity with that id which it did not destroy or clear again. */
  lemma DeadReturnsExactly<K, V>(s: Store<K, V>, ops: seq<Op<K, V>>, e: nat)
    requires e < s.next && e !in s.valid
    ensures e in Run(s, ops).valid <==> exists j: nat :: CreatedAt(s, ops, e, j) && HasClear(ops[..j])
  {
    LiveExactly(s, ops, e);
    forall j: nat | CreatedAt(s, ops, e, j)
      ensures HasClear(ops[..j])
    {
      if !HasClear(ops[..j]) {
        CounterGrows(s, ops[..j]);
      }
    }
    if j: nat :| CreatedAt(s, ops, e, j) {
      assert HasClear(ops[..j]);
    }
  }

  /** So without clearing, a destroyed entity never becomes live again. */
  lemma DeadStaysDead<K, V>(s: Store<K, V>, ops: seq<Op<K, V>>, e: nat)
    requires e < s.next && e !in s.valid && !HasClear(ops)
    ensures e !in Run(s, ops).valid
  {
    DeadReturnsExactly(s, ops, e);
    assert forall j: nat :: j <= |ops| ==> !HasClear(ops[..j]);
  }

  /** Destroying an entity leaves its components where they were. */
  lemma ComponentsOutliveEntities<K, V>(s: Store<K, V>, k: K, e: nat, v: V)
    ensures Run(s, [Add(k, e, v), Destroy(e)]).components == s.components[(k, e) := v]
  {
    var ops := [Add(k, e, v), Destroy(e)];
    assert ops[..1] == [Add(k, e, v)] && ops[..1][..0] == [];
    assert Run(s, ops[..1][..0]) == s && Run(s, ops[..1]) == Apply(s, Add(k, e, v));
  }
}

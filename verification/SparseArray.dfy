/** Component storage: a vector of optional components indexed by entity, which grows when it
    is written and also when it is merely indexed (ecs/include/SparseArray.hpp). */
module SparseArray {
  import opened Common

  class SparseArray<T> {
    var data: seq<Option<T>>

    /** The component at `idx`; beyond the end there is none. This is the const `operator[]`. */
    function At(idx: nat): Option<T>
      reads this
    {
      if idx < |data| then data[idx] else None
    }

    constructor ()
      ensures data == []
    {
      data := [];
    }

    method Grow(size: nat)
      modifies this
      ensures |data| == (if size > |old(data)| then size else |old(data)|)
      ensures forall i: nat :: At(i) == old(At(i))
    {
      if size > |data| {
        data := data + seq(size - |data|, i => None);
      }
    }

    /** The non-const `operator[]`: resizes to make the slot exist, then reads it. */
    method Index(idx: nat) returns (slot: Option<T>)
      modifies this
      ensures slot == old(At(idx)) && idx < |data|
      ensures forall i: nat :: At(i) == old(At(i))
    {
      if idx >= |data| {
        Grow(idx + 1);
      }
      slot := data[idx];
    }

    method EmplaceAt(pos: nat, component: T)
      modifies this
      ensures forall i: nat :: At(i) == if i == pos then Some(component) else old(At(i))
    {
      if pos >= |data| {
        Grow(pos + 1);
      }
      data := data[pos := Some(component)];
    }

    method Erase(pos: nat)
      modifies this
      ensures forall i: nat :: At(i) == if i == pos then None else old(At(i))
    {
      if pos < |data| {
        data := data[pos := None];
      }
    }
  }
}

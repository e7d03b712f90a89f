/** The resources container the accessors borrow from. Each registered
    resource type owns one cell; an accessor remembers the index of that cell
    in place of the address of the boxed value. */
module ResourceStore {
  import opened Wrappers
  import opened Access

  /** A cell index: what an accessor holds in place of a raw pointer. */
  type Slot = nat

  class Resources<V> {
    /** Which cell holds the value of each registered type. */
    const table: map<ResourceTypeId, Slot>
    /** The values themselves; writes through a mutable accessor land here. */
    const cells: array<V>

    /** Every registered type has a cell of its own. */
    ghost predicate Valid()
    {
      && (forall t :: t in table ==> table[t] < cells.Length)
      && (forall t, u :: t in table && u in table && t != u ==> table[t] != table[u])
    }

    constructor (table: map<ResourceTypeId, Slot>, values: seq<V>)
      requires forall t :: t in table ==> table[t] < |values|
      requires forall t, u :: t in table && u in table && t != u ==> table[t] != table[u]
      ensures Valid() && fresh(cells)
      ensures this.table == table && cells[..] == values
    {
      this.table := table;
      cells := new V[|values|](i requires 0 <= i < |values| => values[i]);
    }

    /** The checked lookup `resources.get::<T>()`: the value registered for `t`,
        or nothing when `t` was never registered. */
    function Get(t: ResourceTypeId): (r: Option<V>)
      requires Valid()
      reads cells
      ensures r.Some? <==> t in table
      ensures r.Some? ==> r.value == cells[table[t]]
    {
      if t in table then Some(cells[table[t]]) else None
    }
  }
}

/** The four resource accessors (`Resource`, `ResourceMut`, `PreparedRead`,
    `PreparedWrite`), their `ResourceSet` declarations and unchecked fetch,
    and the location-based comparisons of `Resource` and `ResourceMut`. */
module Accessors {
  import opened Wrappers
  import opened Access
  import opened ResourceStore

  /** Which accessor type a `ResourceSet` element is. */
  datatype AccessorKind = ResourceKind | ResourceMutKind | PreparedReadKind | PreparedWriteKind

  /** An accessor: a thin, non-owning reference to one cell of the container. */
  datatype Accessor =
    | Resource(value: Slot)
    | ResourceMut(value: Slot)
    | PreparedRead(value: Slot)
    | PreparedWrite(value: Slot)
  {
    function Kind(): AccessorKind
    {
      match this
      case Resource(_) => ResourceKind
      case ResourceMut(_) => ResourceMutKind
      case PreparedRead(_) => PreparedReadKind
      case PreparedWrite(_) => PreparedWriteKind
    }

    /** The types that compare with each other (`Resource` with `Resource`,
        `ResourceMut` with `ResourceMut`). */
    predicate Comparable(other: Accessor)
    {
      Kind() == other.Kind() && (Resource? || ResourceMut?)
    }

    /** `clone`: a new accessor of the same type over the same cell. */
    function Clone(): (c: Accessor)
      requires Resource? || ResourceMut?
      ensures c.Comparable(this) && c.Eq(this)
    {
      New(Kind(), value)
    }

    /** `Resource::map`: an accessor over the location the projection `f`
        picks out of this one. */
    function Map(f: Slot -> Slot): (r: Accessor)
      requires Resource?
      ensures r.Resource?
      ensures r.Eq(Resource(f(value)))
    {
      Resource(f(value))
    }

    /** `eq`: the two accessors refer to the same location. */
    predicate Eq(other: Accessor)
      requires Comparable(other)
    {
      value == other.value
    }

    /** `cmp`: the order of the referenced locations. */
    function Cmp(other: Accessor): (o: Ordering)
      requires Comparable(other)
      ensures o == Equal <==> Eq(other)
    {
      CmpSlots(value, other.value)
    }

    /** `partial_cmp`: always defined, and agrees with `cmp`. */
    function PartialCmp(other: Accessor): (o: Option<Ordering>)
      requires Comparable(other)
      ensures o.Some? && o.value == Cmp(other)
    {
      Some(CmpSlots(value, other.value))
    }

    /** `hash`: feeds the referenced location, and nothing else, to the hasher
        (whose state is modelled as the words written to it so far). */
    function Hash(state: seq<nat>): (s: seq<nat>)
      requires Resource? || ResourceMut?
      ensures |s| == |state| + 1 && s[..|state|] == state
    {
      state + [value]
    }
  }

  /** `Resource::new` and its siblings: wrap a location. */
  function New(kind: AccessorKind, slot: Slot): (a: Accessor)
    ensures a.Kind() == kind && a.value == slot
  {
    match kind
    case ResourceKind => Resource(slot)
    case ResourceMutKind => ResourceMut(slot)
    case PreparedReadKind => PreparedRead(slot)
    case PreparedWriteKind => PreparedWrite(slot)
  }

  datatype Ordering = Less | Equal | Greater

  /** Address order. */
  function CmpSlots(a: Slot, b: Slot): Ordering
  {
    if a < b then Less else if a == b then Equal else Greater
  }

  // ---------------------------------------------------------------------
  // Reading and writing through an accessor

  /** `deref` (and `as_ref`, `borrow`): the current value of the cell. */
  function Deref<V>(a: Accessor, res: Resources<V>): (v: V)
    requires res.Valid() && a.value < res.cells.Length
    reads res.cells
    ensures forall t :: t in res.table && res.table[t] == a.value ==> res.Get(t) == Some(v)
  {
    res.cells[a.value]
  }

  /** What dereferencing each of `accs` reads, in order: the values a closure
      sees through the accessors it is handed. */
  function DerefAll<V>(accs: seq<Accessor>, res: Resources<V>): (vs: seq<V>)
    requires res.Valid() && forall i :: 0 <= i < |accs| ==> accs[i].value < res.cells.Length
    reads res.cells
    ensures |vs| == |accs| && forall i :: 0 <= i < |accs| ==> vs[i] == Deref(accs[i], res)
  {
    if accs == [] then [] else [Deref(accs[0], res)] + DerefAll(accs[1..], res)
  }

  /** `*deref_mut() = v` on a `ResourceMut`: the referenced cell now holds `v`,
      every other cell is untouched, and a checked read of any registered type
      sees the new value exactly when that type owns the cell. */
  method DerefMut<V>(a: Accessor, res: Resources<V>, v: V)
    requires a.ResourceMut? && res.Valid() && a.value < res.cells.Length
    modifies res.cells
    ensures res.cells[..] == old(res.cells[..])[a.value := v]
    ensures Deref(a, res) == v
    ensures forall t :: t in res.table ==>
      res.Get(t) == if res.table[t] == a.value then Some(v) else old(res.Get(t))
  {
    res.cells[a.value] := v;
  }

  // ---------------------------------------------------------------------
  // ResourceSet: declarations and unchecked fetch

  /** `read_types()` of the accessor for type `t`, as written: `ResourceMut`
      lists its type among the reads. */
  function ReadTypes(kind: AccessorKind, t: ResourceTypeId): (r: seq<ResourceTypeId>)
    ensures |r| <= 1 && forall u :: u in r ==> u == t
  {
    match kind
    case ResourceKind => [t]
    case ResourceMutKind => [t]
    case PreparedReadKind => [t]
    case PreparedWriteKind => []
  }

  /** `write_types()` of the accessor for type `t`, as written: only
      `PreparedWrite` declares a write. */
  function WriteTypes(kind: AccessorKind, t: ResourceTypeId): (r: seq<ResourceTypeId>)
    ensures |r| <= 1 && forall u :: u in r ==> u == t
  {
    match kind
    case ResourceKind => []
    case ResourceMutKind => []
    case PreparedReadKind => []
    case PreparedWriteKind => [t]
  }

  /** The accessors that hand out a mutable reference (`deref_mut`). */
  predicate CanWrite(kind: AccessorKind)
  {
    kind == ResourceMutKind || kind == PreparedWriteKind
  }

  /** The fatal failure of a fetch: the process aborts naming the type. */
  datatype FetchPanic = MissingResource(missing: ResourceTypeId)

  /** The diagnostic the abort prints. */
  function PanicMessage(p: FetchPanic): (m: string)
    ensures |m| > |p.missing.typeName| && m[|m| - |p.missing.typeName|..] == p.missing.typeName
  {
    "Failed to fetch resource!: " + p.missing.typeName
  }

  /** `fetch_unchecked` of one accessor type: an accessor of that type over the
      cell registered for `t`, or the fatal failure naming `t` when `t` was
      never registered. */
  function FetchUnchecked<V>(kind: AccessorKind, res: Resources<V>, t: ResourceTypeId): (r: Result<Accessor, FetchPanic>)
    requires res.Valid()
    reads res.cells
    ensures r.Success? <==> res.Get(t).Some?
    ensures r.Success? ==>
      && r.value.Kind() == kind
      && r.value.value == res.table[t]
      && r.value.value < res.cells.Length
      && Deref(r.value, res) == res.Get(t).value
    ensures r.Failure? ==> r.error == MissingResource(t)
  {
    if t in res.table then Success(New(kind, res.table[t])) else Failure(MissingResource(t))
  }

  /** Two fetches of one type through one accessor type refer to the same cell,
      so they compare equal. */
  lemma FetchesOfOneTypeAreEqual<V>(kind: AccessorKind, res: Resources<V>, t: ResourceTypeId)
    requires res.Valid() && (kind == ResourceKind || kind == ResourceMutKind) && t in res.table
    ensures var a, b := FetchUnchecked(kind, res, t), FetchUnchecked(kind, res, t);
      a.Success? && b.Success? && a.value.Comparable(b.value) && a.value.Eq(b.value)
  {
  }

  /** A write through a freshly fetched `ResourceMut<T>` is what the next
      checked read of `T` sees, and every other registered type reads what it
      read before. */
  method WriteThroughFetchedResourceMut<V>(res: Resources<V>, t: ResourceTypeId, v: V)
      returns (r: Result<Accessor, FetchPanic>)
    requires res.Valid()
    modifies res.cells
    ensures r == old(FetchUnchecked(ResourceMutKind, res, t))
    ensures r.Failure? ==> res.cells[..] == old(res.cells[..])
    ensures r.Success? ==> res.Get(t) == Some(v)
    ensures forall u :: u in res.table && u != t ==> res.Get(u) == old(res.Get(u))
  {
    r := FetchUnchecked(ResourceMutKind, res, t);
    if r.Success? {
      DerefMut(r.value, res, v);
    }
  }

  /** One element of the resource tuple `R` a system is built with. */
  datatype ResourceDecl = ResourceDecl(kind: AccessorKind, ty: ResourceTypeId)

  /** `R::fetch_unchecked` for a tuple: the elements are fetched left to right
      and the first unregistered type aborts the whole fetch. */
  function FetchAll<V>(decls: seq<ResourceDecl>, res: Resources<V>): (r: Result<seq<Accessor>, FetchPanic>)
    requires res.Valid()
    reads res.cells
    ensures r.Success? <==> forall i :: 0 <= i < |decls| ==> decls[i].ty in res.table
    ensures r.Success? ==>
      && |r.value| == |decls|
      && forall i :: 0 <= i < |decls| ==> Success(r.value[i]) == FetchUnchecked(decls[i].kind, res, decls[i].ty)
    ensures r.Failure? ==>
      exists i :: && 0 <= i < |decls|
                  && r.error == MissingResource(decls[i].ty)
                  && decls[i].ty !in res.table
                  && forall j :: 0 <= j < i ==> decls[j].ty in res.table
  {
    if decls == [] then Success([])
    else
      match FetchUnchecked(decls[0].kind, res, decls[0].ty)
      case Failure(e) => Failure(e)
      case Success(a) =>
        match FetchAll(decls[1..], res)
        case Failure(e) => Failure(e)
        case Success(rest) => Success([a] + rest)
  }

  /** The tuple's `read_types()`/`write_types()`: the concatenation of the
      element declarations produced by `declare`. */
  function Collect(decls: seq<ResourceDecl>, declare: (AccessorKind, ResourceTypeId) -> seq<ResourceTypeId>): (r: seq<ResourceTypeId>)
    ensures forall u :: u in r <==> exists i :: 0 <= i < |decls| && u in declare(decls[i].kind, decls[i].ty)
  {
    if decls == [] then [] else declare(decls[0].kind, decls[0].ty) + Collect(decls[1..], declare)
  }

  /** The resource half of the system's access, as the tuple declares it. */
  function DeclaredAccess(decls: seq<ResourceDecl>): Access<ResourceTypeId>
  {
    Access(Collect(decls, ReadTypes), Collect(decls, WriteTypes))
  }

  // ---------------------------------------------------------------------
  // What the declarations promise

  /** `Resource<T>` and `PreparedRead<T>` declare exactly `[T]` as reads and
      nothing as writes; `PreparedWrite<T>` declares no reads and exactly `[T]`
      as writes. */
  lemma ReadAndWriteAccessorDeclarations(t: ResourceTypeId)
    ensures ReadTypes(ResourceKind, t) == [t] && WriteTypes(ResourceKind, t) == []
    ensures ReadTypes(PreparedReadKind, t) == [t] && WriteTypes(PreparedReadKind, t) == []
    ensures ReadTypes(PreparedWriteKind, t) == [] && WriteTypes(PreparedWriteKind, t) == [t]
  {
  }

  /** As written, `ResourceMut<T>` declares `[T]` as a read and no write,
      although it can write `T`. */
  lemma ResourceMutDeclaresNoWrite(t: ResourceTypeId)
    ensures ReadTypes(ResourceMutKind, t) == [t] && WriteTypes(ResourceMutKind, t) == []
    ensures CanWrite(ResourceMutKind)
  {
  }

  /** Every accessor that can write, except `ResourceMut`, lists its type among
      the declared writes of any tuple holding it. */
  lemma DeclaredWritesCoverWritersButResourceMut(decls: seq<ResourceDecl>, i: nat)
    requires i < |decls| && CanWrite(decls[i].kind) && decls[i].kind != ResourceMutKind
    ensures decls[i].ty in DeclaredAccess(decls).writeList
  {
  }

  /** The discrepancy: two systems that each fetch `ResourceMut<T>` both write
      `T`, yet their declared accesses do not conflict, so the scheduler may run
      them in the same batch. */
  lemma AsWrittenMutWritersDoNotConflict(t: ResourceTypeId)
    ensures var decls := [ResourceDecl(ResourceMutKind, t)];
      var sys := SystemAccess(DeclaredAccess(decls), Access([], []));
      CanWrite(decls[0].kind) && !Conflicts(sys, sys)
  {
  }

  /** The evidently intended `read_types()`: a `ResourceMut` declares no read. */
  function CorrectedReadTypes(kind: AccessorKind, t: ResourceTypeId): (r: seq<ResourceTypeId>)
    ensures r == if kind == ResourceMutKind then [] else ReadTypes(kind, t)
  {
    match kind
    case ResourceKind => [t]
    case ResourceMutKind => []
    case PreparedReadKind => [t]
    case PreparedWriteKind => []
  }

  /** The evidently intended `write_types()`: a `ResourceMut` declares its type
      as a write, like `PreparedWrite`. */
  function CorrectedWriteTypes(kind: AccessorKind, t: ResourceTypeId): (r: seq<ResourceTypeId>)
    ensures r == if kind == ResourceMutKind then [t] else WriteTypes(kind, t)
    ensures t in r <==> CanWrite(kind)
  {
    match kind
    case ResourceKind => []
    case ResourceMutKind => [t]
    case PreparedReadKind => []
    case PreparedWriteKind => [t]
  }

  function CorrectedDeclaredAccess(decls: seq<ResourceDecl>): Access<ResourceTypeId>
  {
    Access(Collect(decls, CorrectedReadTypes), Collect(decls, CorrectedWriteTypes))
  }

  /** With the corrected declarations, the declared writes are exactly the
      types of the accessors that can write. */
  lemma CorrectedWritesAreWriters(decls: seq<ResourceDecl>, u: ResourceTypeId)
    ensures u in CorrectedDeclaredAccess(decls).writeList <==>
      exists i :: 0 <= i < |decls| && decls[i].ty == u && CanWrite(decls[i].kind)
  {
  }

  /** With the corrected declarations, two systems whose accessors can both
      write the same resource always conflict. */
  lemma CorrectedWritersConflict(d1: seq<ResourceDecl>, i: nat, d2: seq<ResourceDecl>, j: nat, c1: Access<ComponentTypeId>, c2: Access<ComponentTypeId>)
    requires i < |d1| && j < |d2| && d1[i].ty == d2[j].ty
    requires CanWrite(d1[i].kind) && CanWrite(d2[j].kind)
    ensures Conflicts(SystemAccess(CorrectedDeclaredAccess(d1), c1), SystemAccess(CorrectedDeclaredAccess(d2), c2))
  {
    var t := d1[i].ty;
    CorrectedWritesAreWriters(d1, t);
    CorrectedWritesAreWriters(d2, t);
    assert t in CorrectedDeclaredAccess(d1).writeList && t in CorrectedDeclaredAccess(d2).writeList;
  }

  // ---------------------------------------------------------------------
  // What the location-based comparisons promise

  /** `cmp` is a total order on comparable accessors: antisymmetric, and
      transitive in its strict part. */
  lemma CmpIsTotalOrder(a: Accessor, b: Accessor, c: Accessor)
    requires a.Comparable(b) && b.Comparable(c)
    ensures a.Cmp(b) == Less <==> b.Cmp(a) == Greater
    ensures a.Cmp(b) == Equal <==> b.Cmp(a) == Equal
    ensures a.Cmp(b) == Less && b.Cmp(c) == Less ==> a.Comparable(c) && a.Cmp(c) == Less
  {
  }

  /** `impl Eq`: location equality is an equivalence relation. */
  lemma EqIsEquivalence(a: Accessor, b: Accessor, c: Accessor)
    requires a.Comparable(b) && b.Comparable(c)
    ensures a.Eq(a)
    ensures a.Eq(b) <==> b.Eq(a)
    ensures a.Eq(b) && b.Eq(c) ==> a.Comparable(c) && a.Eq(c)
  {
  }

  /** Hashing agrees with equality: equal accessors hash alike from any state,
      and accessors over different locations never do. */
  lemma HashAgreesWithEq(a: Accessor, b: Accessor, state: seq<nat>)
    requires a.Comparable(b)
    ensures a.Eq(b) <==> a.Hash(state) == b.Hash(state)
  {
  }

  /** Equal accessors read the same value; the converse fails: comparing two
      accessors never looks at the values they refer to. */
  lemma EqualAccessorsReadEqualValues<V>(a: Accessor, b: Accessor, res: Resources<V>)
    requires a.Comparable(b) && res.Valid() && a.value < res.cells.Length && b.value < res.cells.Length
    ensures a.Eq(b) ==> Deref(a, res) == Deref(b, res)
    ensures a.value != b.value ==> !a.Eq(b)
  {
  }

  /** A clone refers to the original's cell, so it reads the same value. */
  lemma CloneSharesCell<V>(a: Accessor, res: Resources<V>)
    requires (a.Resource? || a.ResourceMut?) && res.Valid() && a.value < res.cells.Length
    ensures a.Clone().value < res.cells.Length && Deref(a.Clone(), res) == Deref(a, res)
  {
  }

  /** `Resource::map` respects location equality. */
  lemma MapRespectsEq(a: Accessor, b: Accessor, f: Slot -> Slot)
    requires a.Resource? && b.Resource? && a.Eq(b)
    ensures a.Map(f).Eq(b.Map(f))
  {
  }
}

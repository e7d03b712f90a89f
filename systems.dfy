/** `FuncSystem`: the runnable object the scheduler drives. It owns the
    declared access, the archetype cache, the query holder, the user closure
    and one command buffer per world it has run on. */
module Systems {
  import Wrappers
  import opened Access
  import opened ResourceStore
  import opened Accessors

  type WorldId = nat

  /** A world: its stable identity and its archetypes (each a set of component
      types). Its storage is not part of this model. */
  datatype World = World(id: WorldId, archetypes: seq<set<ComponentTypeId>>)

  /** Which archetypes the system's queries touch: all of them, none of them,
      or those whose indices are in the cached bit set. */
  datatype ArchetypeAccess = All | None | Some(bitset: set<nat>)

  /** A deferred structural edit; its meaning belongs to the apply phase. */
  datatype Command = Command(code: nat)

  /** The prepared query views handed to the closure (opaque). */
  datatype PreparedQueries = PreparedQueries(views: seq<nat>)

  /** The query holder `Q`: `filter_archetypes` as an opaque function giving
      the refreshed bit set, and the views `prepare` produces. */
  datatype QuerySet = QuerySet(filter: (World, set<nat>) -> set<nat>, prepared: PreparedQueries)

  /** The restricted world view `SubWorld::new(world, components, archetypes)`. */
  datatype SubWorld = SubWorld(world: World, components: Access<ComponentTypeId>, archetypes: ArchetypeAccess)

  /** The resources argument of the closure: the fetched accessors, and the
      values that dereferencing them reads when the closure is called. */
  datatype FetchedResources<V> = FetchedResources(accessors: seq<Accessor>, values: seq<V>)

  /** `FuncSystemFnWrapper`: the user closure. Given the buffer's commands, the
      restricted view, the fetched resources and the prepared queries, it gives
      the commands the buffer holds afterwards. */
  datatype FuncSystemFnWrapper<!V> =
    FuncSystemFnWrapper(f: (seq<Command>, SubWorld, FetchedResources<V>, PreparedQueries) -> seq<Command>)
  {
    /** `run`: hands its four arguments to the closure unchanged. */
    function Run(commands: seq<Command>, world: SubWorld, resources: FetchedResources<V>, queries: PreparedQueries): (r: seq<Command>)
      ensures r == f(commands, world, resources, queries)
    {
      f(commands, world, resources, queries)
    }
  }

  /** The closure's resources argument for the accessors `accs` fetched from
      `res`: each accessor with the value it reads now. */
  function Fetched<V>(accs: seq<Accessor>, res: Resources<V>): (r: FetchedResources<V>)
    requires res.Valid() && forall i :: 0 <= i < |accs| ==> accs[i].value < res.cells.Length
    reads res.cells
    ensures r.accessors == accs && |r.values| == |accs|
    ensures forall i :: 0 <= i < |accs| ==> r.values[i] == Deref(accs[i], res)
  {
    FetchedResources(accs, DerefAll(accs, res))
  }

  /** The archetype cache after `prepare`: only a cached bit set is refreshed,
      through the query holder's filter; `All` and `None` stay as they are. */
  function Refresh(cache: ArchetypeAccess, queries: QuerySet, world: World): (r: ArchetypeAccess)
    ensures r.Some? <==> cache.Some?
    ensures !cache.Some? ==> r == cache
    ensures cache.Some? ==> r.bitset == queries.filter(world, cache.bitset)
  {
    match cache
    case Some(bitset) => Some(queries.filter(world, bitset))
    case _ => cache
  }

  /** Refreshing twice against the same world gives what refreshing once
      gives, whenever the filter itself is idempotent on that world. */
  lemma RefreshIdempotent(cache: ArchetypeAccess, queries: QuerySet, world: World)
    requires forall b :: queries.filter(world, queries.filter(world, b)) == queries.filter(world, b)
    ensures Refresh(Refresh(cache, queries, world), queries, world) == Refresh(cache, queries, world)
  {
  }

  /** A per-(system, world) log of deferred structural edits. */
  class CommandBuffer {
    var commands: seq<Command>

    /** `CommandBuffer::new(world)`: an empty log. */
    constructor (world: World)
      ensures commands == []
    {
      commands := [];
    }
  }

  class FuncSystem<V> {
    const name: string
    /** The resource tuple `R` the system fetches on every run. */
    const resources: seq<ResourceDecl>
    const queries: QuerySet
    const runFn: FuncSystemFnWrapper<V>
    var archetypes: ArchetypeAccess
    /** Fixed at build time: no method assigns it. */
    const access: SystemAccess
    var commandBuffer: map<WorldId, CommandBuffer>

    /** Each world has a buffer object of its own. */
    ghost predicate Valid()
      reads this
    {
      forall w, v :: w in commandBuffer && v in commandBuffer && w != v ==> commandBuffer[w] != commandBuffer[v]
    }

    /** What the system builder hands over: no buffer exists yet. */
    constructor (name: string, resources: seq<ResourceDecl>, queries: QuerySet, runFn: FuncSystemFnWrapper<V>,
                 archetypes: ArchetypeAccess, access: SystemAccess)
      ensures Valid()
      ensures this.name == name && this.resources == resources && this.queries == queries
      ensures this.runFn == runFn && this.archetypes == archetypes && this.access == access
      ensures commandBuffer == map[]
      ensures forall w :: CommandBufferMut(w).None?
    {
      this.name := name;
      this.resources := resources;
      this.queries := queries;
      this.runFn := runFn;
      this.archetypes := archetypes;
      this.access := access;
      commandBuffer := map[];
    }

    /** `name()`. */
    function Name(): (r: string)
      ensures r == name
    {
      name
    }

    /** `reads()`: the declared resource and component read lists. */
    function Reads(): (r: (seq<ResourceTypeId>, seq<ComponentTypeId>))
      ensures r.0 == access.resources.readList && r.1 == access.components.readList
    {
      (access.resources.readList, access.components.readList)
    }

    /** `writes()`: the declared resource and component write lists. */
    function Writes(): (r: (seq<ResourceTypeId>, seq<ComponentTypeId>))
      ensures r.0 == access.resources.writeList && r.1 == access.components.writeList
    {
      (access.resources.writeList, access.components.writeList)
    }

    /** `accesses_archetypes()`: the current cache. */
    function AccessesArchetypes(): (r: ArchetypeAccess)
      reads this
      ensures r == archetypes
    {
      archetypes
    }

    /** `command_buffer_mut(world)`: the buffer of that world if the system
      has run on it, and nothing otherwise; it never creates one. */
    function CommandBufferMut(world: WorldId): (r: Wrappers.Option<CommandBuffer>)
      reads this
      ensures r.Some? <==> world in commandBuffer
      ensures r.Some? ==> r.value == commandBuffer[world]
    {
      if world in commandBuffer then Wrappers.Some(commandBuffer[world]) else Wrappers.None
    }

    /** `prepare(world)`: refreshes the cache when it is a bit set; nothing
      else changes. */
    method Prepare(world: World)
      requires Valid()
      modifies this`archetypes
      ensures Valid()
      ensures archetypes == Refresh(old(archetypes), queries, world)
      ensures commandBuffer == old(commandBuffer)
      ensures forall w :: w in commandBuffer ==> commandBuffer[w].commands == old(commandBuffer[w].commands)
    {
      match archetypes
      case Some(bitset) =>
        archetypes := Some(queries.filter(world, bitset));
      case _ =>
    }

    /** `run_unsafe(world, resources)`. The resources are fetched first; a
      missing one aborts before anything changes. Otherwise the buffer for
      `world.id` is reused, or created when there is none, the closure runs on
      it with the restricted view built from the declared component access and
      the current cache and with the fetched accessors and the values they read,
      and every other buffer is left as it was. */
    method RunUnsafe(world: World, res: Resources<V>) returns (outcome: Wrappers.Result<(), FetchPanic>)
      requires Valid() && res.Valid()
      modifies this`commandBuffer, commandBuffer.Values
      ensures Valid()
      ensures outcome.Failure? <==> FetchAll(resources, res).Failure?
      ensures outcome.Failure? ==>
        && outcome.error == FetchAll(resources, res).error
        && commandBuffer == old(commandBuffer)
        && forall w :: w in commandBuffer ==> commandBuffer[w].commands == old(commandBuffer[w].commands)
      ensures outcome.Success? ==>
        && commandBuffer.Keys == old(commandBuffer).Keys + {world.id}
        && CommandBufferMut(world.id) == Wrappers.Some(commandBuffer[world.id])
        && (forall w :: w in old(commandBuffer) ==> commandBuffer[w] == old(commandBuffer)[w])
        && (world.id !in old(commandBuffer) ==> fresh(commandBuffer[world.id]))
        && (forall w :: w in old(commandBuffer) && w != world.id ==>
              commandBuffer[w].commands == old(commandBuffer[w].commands))
        && commandBuffer[world.id].commands ==
             runFn.Run(if world.id in old(commandBuffer) then old(commandBuffer[world.id].commands) else [],
                       SubWorld(world, access.components, archetypes),
                       Fetched(FetchAll(resources, res).value, res),
                       queries.prepared)
      ensures archetypes == old(archetypes)
    {
      var fetched := FetchAll(resources, res);
      if fetched.Failure? {
        return Wrappers.Failure(fetched.error);
      }
      var preparedQueries := queries.prepared;
      var worldShim := SubWorld(world, access.components, archetypes);
      var cmd: CommandBuffer;
      if world.id in commandBuffer {
        cmd := commandBuffer[world.id];
      } else {
        cmd := new CommandBuffer(world);
        commandBuffer := commandBuffer[world.id := cmd];
      }
      cmd.commands := runFn.Run(cmd.commands, worldShim, Fetched(fetched.value, res), preparedQueries);
      outcome := Wrappers.Success(());
    }
  }

  /** Two runs on the same world share one buffer, which the second run keeps
      filling; a world the system never ran on still has none. */
  method ScenarioRunTwiceOnOneWorld(runFn: FuncSystemFnWrapper<int>, queries: QuerySet, world: World, other: WorldId)
    requires other != world.id
  {
    var score := ResourceTypeId("Score");
    var res := new Resources(map[score := 0], [7]);
    var access := SystemAccess(Access([score], []), Access([], []));
    var sys := new FuncSystem("tick", [ResourceDecl(ResourceKind, score)], queries, runFn, Some({}), access);
    assert sys.CommandBufferMut(world.id).None?;
    assert res.cells[..] == [7];
    var first := sys.RunUnsafe(world, res);
    assert first.Success?;
    var buffer := sys.CommandBufferMut(world.id);
    assert buffer.Some?;
    var afterFirst := buffer.value.commands;
    var fetched := FetchAll(sys.resources, res);
    assert fetched.value == [Resource(0)] by {
      assert fetched.value[0] == New(ResourceKind, 0);
    }
    var seen := Fetched(fetched.value, res);
    assert seen == FetchedResources([Resource(0)], [7]) by {
      assert seen.values[0] == res.cells[0] == 7;
    }
    assert res.cells[..] == [7];
    var second := sys.RunUnsafe(world, res);
    assert res.cells[..] == [7];
    assert sys.CommandBufferMut(world.id) == buffer;
    assert buffer.value.commands ==
      runFn.Run(afterFirst, SubWorld(world, access.components, Some({})), seen, queries.prepared);
    assert sys.CommandBufferMut(other).None?;
  }

  /** A system that reads a resource nobody registered aborts, naming it, and
      leaves no buffer behind. */
  method ScenarioMissingResource(runFn: FuncSystemFnWrapper<int>, queries: QuerySet, world: World)
  {
    var r := ResourceTypeId("R");
    var res := new Resources<int>(map[], []);
    var sys := new FuncSystem("reader", [ResourceDecl(ResourceKind, r)], queries, runFn, All,
                              SystemAccess(Access([r], []), Access([], [])));
    var outcome := sys.RunUnsafe(world, res);
    assert outcome == Wrappers.Failure(MissingResource(r));
    assert PanicMessage(outcome.error) == "Failed to fetch resource!: R";
    assert sys.CommandBufferMut(world.id).None?;
  }
}

# System kernel of the legion ECS runtime, modelled in Dafny

This project models `FuncSystem`, the execution kernel of the legion systems
crate, and the resource accessors it fetches. A system is a user closure that
declares ahead of time which resources and components it reads and writes.
The scheduler uses those declarations to decide which systems may share a
batch. Each tick it calls `prepare` to refresh the system's archetype cache
and then `run_unsafe` to execute the closure.

The model has five modules:

- `Wrappers`: `Option` and `Result`.
- `Access`: resource and component type identities, `SystemAccess`, and the
  scheduler's conflict rule. Under that rule a write on one side meets a read
  or a write of the same type on the other side.
- `ResourceStore`: the resources container. It is a class with a table from
  resource type to cell index and an array of cells. The checked lookup
  `Get` stands for `resources.get::<T>()`.
- `Accessors`: the four accessor types `Resource`, `ResourceMut`,
  `PreparedRead` and `PreparedWrite`, as one datatype holding a cell index
  in place of a raw pointer. The module also holds their `ResourceSet`
  declarations (`read_types`, `write_types`), the unchecked fetch with its
  fatal failure, the fetch of the whole resource tuple `R`, reading and
  writing through an accessor, and the location-based `eq`, `cmp`,
  `partial_cmp` and `hash`.
- `Systems`: `FuncSystem` as a class. It has the constant name, resource
  tuple, query holder, closure and access declaration. Two fields change:
  the archetype cache and the map from world id to command buffer object.
  `Prepare`, `CommandBufferMut` and `RunUnsafe` act on that state. The
  module also holds the closure adapter `FuncSystemFnWrapper` and two client
  scenarios. The first runs a system twice on one world and shows the buffer
  is reused. The second runs a system whose resource is missing and shows
  the abort.

A panic in `fetch_unchecked` is modelled as `Failure(MissingResource(t))`.
It is raised before `run_unsafe` changes anything. Accessor equality,
ordering and hashing look only at the referenced cell, never at the value in
it, as the source does. `ResourceMut` declares its type as a read and
declares no write, exactly as the source does (see "## Findings").

## Model

| member | source | states |
|---|---|---|
| `ResourceStore.Resources.Get` | crates/bevy_legion/legion_systems/src/system_fn_types.rs:100-102 | the checked lookup yields a value exactly when the type is registered, and that value is the one in the type's cell |
| `Accessors.New` | crates/bevy_legion/legion_systems/src/system_fn_types.rs:34-41 | `new` wraps a location in an accessor of the requested type |
| `Accessors.Accessor.Clone` | crates/bevy_legion/legion_systems/src/system_fn_types.rs:29-32 | a clone has the same type as the original and is equal to it |
| `Accessors.CloneSharesCell` | crates/bevy_legion/legion_systems/src/system_fn_types.rs:118-121 | a clone refers to the original's cell, so it reads the same value |
| `Accessors.Accessor.Map` | crates/bevy_legion/legion_systems/src/system_fn_types.rs:43-46 | `map` gives a read accessor over the location the projection picks |
| `Accessors.MapRespectsEq` | crates/bevy_legion/legion_systems/src/system_fn_types.rs:43-46 | equal accessors map to equal accessors |
| `Accessors.Accessor.Eq` | crates/bevy_legion/legion_systems/src/system_fn_types.rs:66-72 | two accessors of the same type are equal exactly when they refer to the same cell; the values in the cells are never consulted (`ResourceMut` at lines 160-166 likewise) |
| `Accessors.EqIsEquivalence` | crates/bevy_legion/legion_systems/src/system_fn_types.rs:66-72 | location equality is reflexive, symmetric and transitive, as `impl Eq` requires |
| `Accessors.EqualAccessorsReadEqualValues` | crates/bevy_legion/legion_systems/src/system_fn_types.rs:160-166 | equal accessors read equal values; accessors over different cells are never equal, whatever the cells hold |
| `Accessors.Accessor.Cmp` | crates/bevy_legion/legion_systems/src/system_fn_types.rs:82-87 | `cmp` answers Equal exactly when the two accessors are equal |
| `Accessors.CmpIsTotalOrder` | crates/bevy_legion/legion_systems/src/system_fn_types.rs:176-181 | `cmp` is antisymmetric and its strict part is transitive |
| `Accessors.Accessor.PartialCmp` | crates/bevy_legion/legion_systems/src/system_fn_types.rs:74-81 | `partial_cmp` is always defined and agrees with `cmp` |
| `Accessors.Accessor.Hash` | crates/bevy_legion/legion_systems/src/system_fn_types.rs:89-94 | `hash` writes one word to the hasher and keeps what was already written |
| `Accessors.HashAgreesWithEq` | crates/bevy_legion/legion_systems/src/system_fn_types.rs:183-188 | two accessors hash alike from any hasher state exactly when they are equal |
| `Accessors.Deref` | crates/bevy_legion/legion_systems/src/system_fn_types.rs:49-54 | for a cell that a registered type owns, reading through an accessor yields what the checked lookup of that type returns; for a cell no type owns (one reached through `map`) the contract says nothing |
| `Accessors.DerefAll` | crates/bevy_legion/legion_systems/src/system_fn_types.rs:311-315 | the values the closure sees are, in order, what dereferencing each fetched accessor reads at the call |
| `Accessors.FetchesOfOneTypeAreEqual` | crates/bevy_legion/legion_systems/src/system_fn_types.rs:99-104 | two fetches of one registered type refer to the type's own cell, so they compare equal |
| `Accessors.WriteThroughFetchedResourceMut` | crates/bevy_legion/legion_systems/src/system_fn_types.rs:193-198 | writing through a freshly fetched `ResourceMut<T>` is seen by the next checked read of `T`, and every other registered type reads what it read before; a missing `T` fails and changes nothing |
| `Accessors.DerefMut` | crates/bevy_legion/legion_systems/src/system_fn_types.rs:145-148 | writing through a `ResourceMut` changes its cell and no other; afterwards a checked read of the owning type sees the new value and every other type reads what it read before |
| `Accessors.ReadTypes` | crates/bevy_legion/legion_systems/src/system_fn_types.rs:105-225 | each accessor declares at most one read, of its own type |
| `Accessors.WriteTypes` | crates/bevy_legion/legion_systems/src/system_fn_types.rs:106-226 | each accessor declares at most one write, of its own type |
| `Accessors.ReadAndWriteAccessorDeclarations` | crates/bevy_legion/legion_systems/src/system_fn_types.rs:96-227 | `Resource` and `PreparedRead` declare exactly `[T]` as reads and no writes; `PreparedWrite` declares no reads and exactly `[T]` as writes |
| `Accessors.ResourceMutDeclaresNoWrite` | crates/bevy_legion/legion_systems/src/system_fn_types.rs:199-200 | as written, `ResourceMut<T>` declares `[T]` as a read and nothing as a write, although it can write `T` |
| `Accessors.DeclaredWritesCoverWritersButResourceMut` | crates/bevy_legion/legion_systems/src/system_fn_types.rs:216-227 | every accessor that can write, other than `ResourceMut`, appears among the declared writes of a tuple holding it |
| `Accessors.PanicMessage` | crates/bevy_legion/legion_systems/src/system_fn_types.rs:102 | the abort message ends with the name of the missing type |
| `Accessors.FetchUnchecked` | crates/bevy_legion/legion_systems/src/system_fn_types.rs:96-104 | the unchecked fetch succeeds exactly when the checked lookup finds the type; the accessor has the requested type, refers to the type's own cell and reads the checked value; otherwise the failure names the type |
| `Accessors.FetchAll` | crates/bevy_legion/legion_systems/src/system_fn_types.rs:300 | fetching the tuple `R` succeeds exactly when every element's type is registered, and then yields each element's own fetch in order; otherwise it fails naming the first unregistered type |
| `Accessors.Collect` | crates/bevy_legion/legion_systems/src/system_fn_types.rs:241 | the tuple's declared list holds exactly the types some element declares; the tuple impl of `read_types`/`write_types` lives outside this file and is assumed (see "## Left out"), line 241 is only the `R: ResourceSet` bound |
| `Accessors.AsWrittenMutWritersDoNotConflict` | crates/bevy_legion/legion_systems/src/system_fn_types.rs:199-200 | two systems that each fetch `ResourceMut<T>` both write `T`, yet their declared accesses do not conflict |
| `Accessors.CorrectedReadTypes` | crates/bevy_legion/legion_systems/src/system_fn_types.rs:190-201 | the intended declaration drops the read of `ResourceMut` and agrees with `read_types` for the other accessors |
| `Accessors.CorrectedWriteTypes` | crates/bevy_legion/legion_systems/src/system_fn_types.rs:190-201 | the intended declaration lists an accessor's type as a write exactly when the accessor can write; it changes only `ResourceMut` |
| `Accessors.CorrectedWritesAreWriters` | crates/bevy_legion/legion_systems/src/system_fn_types.rs:190-201 | under the intended declarations a tuple's declared writes are exactly the types of its accessors that can write |
| `Accessors.CorrectedWritersConflict` | crates/bevy_legion/legion_systems/src/system_fn_types.rs:190-201 | under the intended declarations two systems whose accessors can write the same resource always conflict |
| `Systems.FuncSystemFnWrapper.Run` | crates/bevy_legion/legion_systems/src/system_fn_types.rs:349-357 | the adapter passes its four arguments to the closure unchanged |
| `Systems.Fetched` | crates/bevy_legion/legion_systems/src/system_fn_types.rs:300-314 | the closure's resources argument holds the fetched accessors unchanged, each paired with the value it reads when the closure is called |
| `Systems.Refresh` | crates/bevy_legion/legion_systems/src/system_fn_types.rs:283-287 | the cache keeps its variant; only a bit set is refreshed, by the query holder's filter, and `All` and `None` stay as they are |
| `Systems.RefreshIdempotent` | crates/bevy_legion/legion_systems/src/system_fn_types.rs:284-286 | refreshing twice against one world gives what refreshing once gives, when the filter is idempotent on that world |
| `Systems.CommandBuffer.constructor` | crates/bevy_legion/legion_systems/src/system_fn_types.rs:307 | a new command buffer holds no commands |
| `Systems.FuncSystem.constructor` | crates/bevy_legion/legion_systems/src/system_fn_types.rs:239-260 | a built system holds what the builder gave it and has no command buffer for any world |
| `Systems.FuncSystem.Name` | crates/bevy_legion/legion_systems/src/system_fn_types.rs:271 | `name()` is the stored name |
| `Systems.FuncSystem.Reads` | crates/bevy_legion/legion_systems/src/system_fn_types.rs:273-275 | `reads()` returns exactly the declared resource and component read lists |
| `Systems.FuncSystem.Writes` | crates/bevy_legion/legion_systems/src/system_fn_types.rs:276-281 | `writes()` returns exactly the declared resource and component write lists |
| `Systems.FuncSystem.AccessesArchetypes` | crates/bevy_legion/legion_systems/src/system_fn_types.rs:289 | `accesses_archetypes()` returns the current cache |
| `Systems.FuncSystem.CommandBufferMut` | crates/bevy_legion/legion_systems/src/system_fn_types.rs:291-293 | there is a buffer exactly for the worlds the system has run on, and it is the stored buffer object; the call never creates one |
| `Systems.FuncSystem.Prepare` | crates/bevy_legion/legion_systems/src/system_fn_types.rs:283-287 | `prepare` changes only the archetype cache, as `Refresh` says; the command buffers and their contents are untouched |
| `Systems.FuncSystem.RunUnsafe` | crates/bevy_legion/legion_systems/src/system_fn_types.rs:295-317 | a missing resource aborts before any change, naming the first missing type. Otherwise the buffer for `world.id()` is reused, or created fresh when absent, so afterwards `command_buffer_mut` finds it. Every other world's buffer is the same object with the same contents. The closure runs on the buffer with the view built from the declared component access and the current cache, and with the fetched accessors together with the values they read. The cache is unchanged |

`name`, `resources`, `queries`, `runFn` and `access` are `const`
fields of `FuncSystem`. So neither `Prepare` nor `RunUnsafe` can change what
`Name`, `Reads` and `Writes` return. `AsRef::as_ref` and `Borrow::borrow`
(lines 56-64 and 150-158) read exactly what `Deref` reads, so they have no
member of their own.

## Left out

- Tracing spans and log events (lines 296-299, 309): diagnostics only.
- `unsafe impl Send/Sync`, lifetimes, `PhantomData` and the `AtomicRefCell` borrow counting: they concern concurrency and Rust aliasing. Whether a batch is conflict-free is the scheduler's contract, not this file's behaviour.
- `ResourceMut::map_into` (line 134): it stores the address of a temporary return value, so there is no sound behaviour to state.
- `Accessors.Accessor.Map`: the projection is an arbitrary function on locations. The model does not say that the new location lies inside the original resource.
- The internals of `filter_archetypes`, `QuerySet::prepare`, `SubWorld::new` and `CommandBuffer::new` are foreign calls. The filter is a function value, the prepared queries are an opaque value, the restricted view is a record of its three arguments, and a new buffer is empty.
- `Systems.RefreshIdempotent`: idempotence of `prepare` holds only under a stated requirement on the filter, because the filter's body is not part of this model.
- The user closure's body, its captured `FnMut` state, and the writes it makes directly to resources and components: the closure is modelled as a function of the buffer's commands, the restricted view, the fetched accessors with the values they read at the call, and the prepared queries, giving the buffer's new commands. A write through a `ResourceMut` is modelled on its own by `DerefMut`; because the closure's own resource writes are not modelled, the values it sees are those read when it is called.
- Component data: a `World` carries only its id and its archetypes' component types, so the commands a run produces are modelled as independent of the component values stored in the world.
- The query holder's own mutable state (`queries.get_mut()`): the holder is a constant.
- The `ResourceSet` impl for tuples, the `Resources` container, `ArchetypeAccess` and `SystemAccess` are defined in files that are not part of this model. `FetchAll` and `Collect` assume that a tuple fetches its elements left to right and concatenates their declarations. `ArchetypeAccess` is given the three variants the system is described with: all, none, and a cached bit set.
- `ResourceStore.Resources`: every resource value has one type `V`, while the Rust container holds a value of a different type for each resource type.
- Resource and component types are identified by their type names, so two distinct Rust types with the same name would be one type here.
- The scheduler, the stage executor and the apply phase that drains command buffers: they are external collaborators.
- `src/render/shader/uniforms/local_to_world.rs`: rendering glue (a constant vertex-buffer table and dispatch into foreign byte conversion), with no logic of this kernel.

## Findings

| source | as written | input that shows it | evidently intended | confidence | as-written member | corrected member |
|---|---|---|---|---|---|---|
| crates/bevy_legion/legion_systems/src/system_fn_types.rs:199-200 | `ResourceMut<T>` declares `[T]` as a read and an empty write list, although `deref_mut` (lines 145-148) writes `T` | two systems whose resource tuple is `ResourceMut<Score>`: both write `Score`, but their declared accesses do not conflict, so the scheduler may batch them together | declare no read and `[T]` as a write, as `PreparedWrite` does at lines 225-226 | medium; not executed | `Accessors.AsWrittenMutWritersDoNotConflict` | `Accessors.CorrectedWritersConflict` |

`ReadTypes` and `WriteTypes` keep the declarations as written.
`CorrectedReadTypes` and `CorrectedWriteTypes` carry the intended ones, and
the conflict-soundness lemmas `CorrectedWritesAreWriters` and
`CorrectedWritersConflict` are proved about the intended ones.
`FuncSystem` takes its `SystemAccess` as built elsewhere, so neither version
feeds into it.

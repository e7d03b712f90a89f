/** Type identities and the access declarations a system publishes to the
    scheduler. */
module Access {

  /** `ResourceTypeId::of::<T>()`: a resource type, identified here by its name
      (the name is also what the fatal fetch message prints). */
  datatype ResourceTypeId = ResourceTypeId(typeName: string)

  /** `ComponentTypeId`: a component type. */
  datatype ComponentTypeId = ComponentTypeId(typeName: string)

  /** Read and write lists for one family of types (`reads`, `writes`). */
  datatype Access<T> = Access(readList: seq<T>, writeList: seq<T>)

  /** `SystemAccess`: resource lists and component lists, fixed when the
      system is built. */
  datatype SystemAccess = SystemAccess(resources: Access<ResourceTypeId>, components: Access<ComponentTypeId>)

  /** The scheduler's rule for one family: a write of one side meets a read or
      a write of the other side. Read against read is no conflict. */
  predicate Clash<T(==)>(a: Access<T>, b: Access<T>)
  {
    (exists t :: t in a.writeList && (t in b.readList || t in b.writeList))
    || (exists t :: t in b.writeList && (t in a.readList || t in a.writeList))
  }

  /** Two systems may not share a batch when they clash on resources or on
      components. */
  predicate Conflicts(a: SystemAccess, b: SystemAccess)
  {
    Clash(a.resources, b.resources) || Clash(a.components, b.components)
  }
}

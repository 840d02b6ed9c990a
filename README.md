# Map joins and service bindings

A model of two small classes of an object-relational mapping framework:

- `BasicMapJoinImpl` belongs to the criteria-query API. It is a join to a persistent collection of type `java.util.Map`. It offers the map key as a path (`key`) or as a further join (`joinKey`). It offers the map value (`value`, the join itself) and the map entry (`entry`). It can also be correlated into a subquery (`correlateTo`, `isCorrelated`, `getCorrelationParent`).
- `ServiceBinding` belongs to the internal service registry. It binds a service role to the registry that owns it. The binding is built in one of two ways: eagerly, with a service instance, or lazily, with an initiator that supplies the role. Afterwards only the service can change, through `setService`.

Files:

- `wrappers.dfy`: `Option`, which stands for a Java reference that may be null, and `Result`, which stands for a value or a thrown exception.
- `map_join.dfy` (module `CriteriaMapJoin`): the class `BasicMapJoin`. The fields the join's superclass sets once are `const`. The join scope and the correlation parent are `var`, because `correlateTo` assigns them on the fresh copy. The path objects the join builds (`MapPath`, `MapKeyAttribute`, `MapKeyJoin`, `MapKeyPath`, `MapEntryExpression`) are datatypes that record only their constructor arguments.
- `service_binding.dfy` (module `ServiceBindings`): the class `ServiceBinding` with `const` registry, role and initiator and a `var` service. A value `BindingState` and the functions `EagerState`, `LazyState` and `AfterSetService` specify what the class's constructors and `SetService` produce. The lemmas relate these functions to each other.

## Model

| member | source | states |
|---|---|---|
| `CriteriaMapJoin.BasicMapJoin.constructor` | entitymanager/src/main/java/org/hibernate/ejb/criteria/BasicMapJoinImpl.java:52-59 | a new join stores the query builder, Java type, owner path, map attribute and join type it is given; it has no correlation parent and is not correlated |
| `CriteriaMapJoin.BasicMapJoin.GetAttribute` | entitymanager/src/main/java/org/hibernate/ejb/criteria/BasicMapJoinImpl.java:61-64 | the attribute is the map attribute the join was built with |
| `CriteriaMapJoin.BasicMapJoin.GetModel` | entitymanager/src/main/java/org/hibernate/ejb/criteria/BasicMapJoinImpl.java:66-69 | the model of the join equals its attribute |
| `CriteriaMapJoin.BasicMapJoin.MapSource` | entitymanager/src/main/java/org/hibernate/ejb/criteria/BasicMapJoinImpl.java:90-96 | the map path that `joinKey` and `key` build is over the join's query builder, the attribute's Java type, this join, its attribute and the owner path's model |
| `CriteriaMapJoin.BasicMapJoin.JoinKey` | entitymanager/src/main/java/org/hibernate/ejb/criteria/BasicMapJoinImpl.java:81-106 | fails exactly when the key is BASIC or the join type is RIGHT; a BASIC key is reported as the basic-path-usage error whatever the join type, so that check comes first; a non-BASIC key with RIGHT gives the unsupported-operation error; otherwise the key join carries exactly the requested join type, and its source is a map path built from the join's query builder, the attribute's Java type, this join, its attribute and the owner model |
| `CriteriaMapJoin.BasicMapJoin.JoinKeyDefault` | entitymanager/src/main/java/org/hibernate/ejb/criteria/BasicMapJoinImpl.java:74-76 | behaves exactly like `JoinKey(DEFAULT_JOIN_TYPE)`, so it fails exactly when the key is BASIC |
| `CriteriaMapJoin.BasicMapJoin.Key` | entitymanager/src/main/java/org/hibernate/ejb/criteria/BasicMapJoinImpl.java:113-123 | the key path never fails (a BASIC key is allowed too); it is built over a map path from the join's query builder, the attribute's Java type, this join, its attribute and the owner's model, and over the map-key attribute of this join's attribute |
| `CriteriaMapJoin.KeyAndJoinKeyShareSource` | entitymanager/src/main/java/org/hibernate/ejb/criteria/BasicMapJoinImpl.java:90-122 | a successful `joinKey(jt)` and `key()` are built over equal map paths and equal key attributes; each builds its own, from the same arguments |
| `CriteriaMapJoin.BasicMapJoin.Value` | entitymanager/src/main/java/org/hibernate/ejb/criteria/BasicMapJoinImpl.java:128-131 | the value path is the join itself (identity) |
| `CriteriaMapJoin.BasicMapJoin.Entry` | entitymanager/src/main/java/org/hibernate/ejb/criteria/BasicMapJoinImpl.java:136-138 | the entry expression has type `Map.Entry` and is over this join's attribute and query builder |
| `CriteriaMapJoin.BasicMapJoin.DefineJoinScope` | entitymanager/src/main/java/org/hibernate/ejb/criteria/BasicMapJoinImpl.java:151 | the join is placed in the given scope and nothing else about it changes |
| `CriteriaMapJoin.BasicMapJoin.CorrelateTo` | entitymanager/src/main/java/org/hibernate/ejb/criteria/BasicMapJoinImpl.java:140-154 | returns a new join with the same query builder, Java type, owner path, attribute and join type, placed in the subquery's join scope, whose correlation parent is the original and which is therefore correlated; the original join is unchanged |
| `CriteriaMapJoin.BasicMapJoin.IsCorrelated` | entitymanager/src/main/java/org/hibernate/ejb/criteria/BasicMapJoinImpl.java:159-161 | true if and only if the correlation parent is non-null |
| `CriteriaMapJoin.BasicMapJoin.GetCorrelationParent` | entitymanager/src/main/java/org/hibernate/ejb/criteria/BasicMapJoinImpl.java:166-168 | returns the stored correlation parent |
| `ServiceBindings.EagerState` | hibernate-core/src/main/java/org/hibernate/service/spi/ServiceBinding.java:46-51 | an eager binding holds the given registry, role and service, and no initiator |
| `ServiceBindings.LazyState` | hibernate-core/src/main/java/org/hibernate/service/spi/ServiceBinding.java:53-57 | a lazy binding holds the given registry and initiator, takes its role from the initiator's initiated role, and has no service |
| `ServiceBindings.ServiceBinding.Eager` | hibernate-core/src/main/java/org/hibernate/service/spi/ServiceBinding.java:46-51 | the eager constructor builds exactly `EagerState` |
| `ServiceBindings.ServiceBinding.Lazy` | hibernate-core/src/main/java/org/hibernate/service/spi/ServiceBinding.java:53-57 | the lazy constructor builds exactly `LazyState` |
| `ServiceBindings.ServiceBinding.GetServiceRegistry` | hibernate-core/src/main/java/org/hibernate/service/spi/ServiceBinding.java:59-61 | returns the stored registry, with no side effect |
| `ServiceBindings.ServiceBinding.GetServiceRole` | hibernate-core/src/main/java/org/hibernate/service/spi/ServiceBinding.java:63-65 | returns the stored role, with no side effect |
| `ServiceBindings.ServiceBinding.GetServiceInitiator` | hibernate-core/src/main/java/org/hibernate/service/spi/ServiceBinding.java:67-69 | returns the stored initiator (none for an eager binding), with no side effect |
| `ServiceBindings.ServiceBinding.GetService` | hibernate-core/src/main/java/org/hibernate/service/spi/ServiceBinding.java:71-73 | returns the stored service, with no side effect |
| `ServiceBindings.AfterSetService` | hibernate-core/src/main/java/org/hibernate/service/spi/ServiceBinding.java:75-80 | after `setService(s)` the service is `s`, whether or not a service was bound before, and every other part of the binding is as it was |
| `ServiceBindings.ServiceBinding.SetService` | hibernate-core/src/main/java/org/hibernate/service/spi/ServiceBinding.java:75-80 | the new state is `AfterSetService` of the old one, so `GetService` returns `s`; only the service field may change |
| `ServiceBindings.SetServiceOverrides` | hibernate-core/src/main/java/org/hibernate/service/spi/ServiceBinding.java:76-79 | overriding a bound service is never an error: setting two services in a row is the same as setting the second |
| `ServiceBindings.SetServicesKeepsFinalFields` | hibernate-core/src/main/java/org/hibernate/service/spi/ServiceBinding.java:41-44 | after any series of `setService` calls, the registry, role and initiator are still those the binding was built with, and the service is the one passed last, or the original one if there was no call |
| `ServiceBindings.LazyBindingLifecycle` | hibernate-core/src/main/java/org/hibernate/service/spi/ServiceBinding.java:53-80 | a lazy binding starts with no service, has the first service after one `setService` call, and after a second call has the second service, with its registry, initiator and the initiator's role unchanged |

## Left out

- `DEFAULT_JOIN_TYPE` is declared in a superclass that is not part of this model, where it is `INNER`; the model uses that value. Any value other than `RIGHT` gives the same `JoinKeyDefault` behaviour.
- The superclasses `AbstractBasicPluralJoin` and `QueryBuilderImpl` are not part of this model. `defineJoinScope` is reduced to recording the scope. The scope a new join starts in is a placeholder value, `InitialScope`.
- The internals of the `MapKeyHelpers` path classes are not part of this model. Each is a value that records only its constructor arguments.
- The JPA metamodel and criteria interfaces (`MapAttribute`, `PersistenceType`, `JoinType`, `Path`, `From`) become small enums and records. Java generics and the unchecked narrowing in `getAttribute` have no behaviour to model.
- `ServiceBinding.SetService` does not model the debug log message written when a bound service is overridden. It is output only.
- `ServiceBinding.Lazy`: the initiator is never null in the model. Java would throw a NullPointerException while reading the initiator's role if it were null.
- Null arguments to the other constructors are not modelled. The registry and role are plain values and can never be null in the model. The service is an `Option`, so a null service is modelled.
- `ServiceBinding.SetService`: a null role is not modelled. In Java, `setService` reads the role's name whenever a service is already bound, so a binding built with a null role throws a NullPointerException on its next `setService`. The model's `SetService` always succeeds.
- `BasicMapJoin.JoinKey`: a null join type is not modelled, because join types are plain values. In Java, `joinKey(null)` throws a NullPointerException when the key is not BASIC.
- `BasicMapJoin.CorrelateTo`: a null subquery is not modelled, because subqueries are plain values. In Java, `correlateTo(null)` throws a NullPointerException when it reads the subquery's join scope.
- `OwningRegistry.initiateService` and `ServiceInitiator` have no implementation in these sources. An initiator is a value that yields a role.

/**
 * The binding of one internal service in a service registry (ServiceBinding):
 * the owning registry, the service role, the initiator that can create the
 * service on demand, and the service instance once there is one.
 *
 * The registry, role and initiator are fixed when the binding is built; only
 * the service is replaced later, by setService.
 */
module ServiceBindings {

  import opened Wrappers

  /** The registry that owns the binding (ServiceBinding.OwningRegistry). */
  datatype OwningRegistry = OwningRegistry(id: nat)

  /** The service role: the class object naming the service interface. */
  datatype ServiceRole = ServiceRole(name: string)

  /** A service initiator, as far as the binding uses it: the role it initiates. */
  datatype ServiceInitiator = ServiceInitiator(id: nat, serviceInitiated: ServiceRole)

  /** A service instance. */
  datatype Service = Service(id: nat)

  /** What a binding holds, as one value. */
  datatype BindingState = BindingState(
    registry: OwningRegistry,
    role: ServiceRole,
    initiator: Option<ServiceInitiator>,
    service: Option<Service>)

  /** The state the eager constructor builds: a known role and a given service, no initiator. */
  function EagerState(registry: OwningRegistry, role: ServiceRole, service: Option<Service>): (b: BindingState)
    ensures b.registry == registry && b.role == role && b.service == service
    ensures b.initiator.None?
  {
    BindingState(registry, role, None, service)
  }

  /** The state the lazy constructor builds: the role comes from the initiator, and there is no service yet. */
  function LazyState(registry: OwningRegistry, initiator: ServiceInitiator): (b: BindingState)
    ensures b.registry == registry && b.initiator == Some(initiator)
    ensures b.role == initiator.serviceInitiated
    ensures b.service.None?
  {
    BindingState(registry, initiator.serviceInitiated, Some(initiator), None)
  }

  /**
   * The state after setService(s): the service becomes s whether or not one
   * was bound before, and nothing else changes.
   */
  function AfterSetService(b: BindingState, s: Option<Service>): (b': BindingState)
    ensures b'.service == s
    ensures b'.(service := b.service) == b
  {
    b.(service := s)
  }

  /** The state after a series of setService calls, in order. */
  function AfterSetServices(b: BindingState, ss: seq<Option<Service>>): BindingState
    decreases |ss|
  {
    if ss == [] then b else AfterSetServices(AfterSetService(b, ss[0]), ss[1..])
  }

  /**
   * However many times setService is called, the registry, role and initiator
   * stay as they were built, and the last call decides the service.
   */
  lemma {:induction false} SetServicesKeepsFinalFields(b: BindingState, ss: seq<Option<Service>>)
    ensures AfterSetServices(b, ss).registry == b.registry
    ensures AfterSetServices(b, ss).role == b.role
    ensures AfterSetServices(b, ss).initiator == b.initiator
    ensures AfterSetServices(b, ss).service == if ss == [] then b.service else ss[|ss| - 1]
    decreases |ss|
  {
    if ss != [] {
      SetServicesKeepsFinalFields(AfterSetService(b, ss[0]), ss[1..]);
    }
  }

  /** Setting a service twice is the same as setting only the second one. */
  lemma SetServiceOverrides(b: BindingState, s1: Option<Service>, s2: Option<Service>)
    ensures AfterSetService(AfterSetService(b, s1), s2) == AfterSetService(b, s2)
  {
  }

  /**
   * A lazily built binding moves from "no service" to "service present" and,
   * on a second call, to "service replaced", keeping the initiator's role.
   */
  lemma LazyBindingLifecycle(registry: OwningRegistry, initiator: ServiceInitiator, first: Service, second: Service)
    ensures LazyState(registry, initiator).service.None?
    ensures AfterSetService(LazyState(registry, initiator), Some(first)).service == Some(first)
    ensures AfterSetServices(LazyState(registry, initiator), [Some(first), Some(second)])
            == BindingState(registry, initiator.serviceInitiated, Some(initiator), Some(second))
  {
    SetServicesKeepsFinalFields(LazyState(registry, initiator), [Some(first), Some(second)]);
  }

  class ServiceBinding {
    const serviceRegistry: OwningRegistry
    const serviceRole: ServiceRole
    const serviceInitiator: Option<ServiceInitiator>
    var service: Option<Service>

    /** The binding's fields as one value. */
    function State(): BindingState
      reads this
    {
      BindingState(serviceRegistry, serviceRole, serviceInitiator, service)
    }

    /** A binding for a service that already exists. */
    constructor Eager(serviceRegistry: OwningRegistry, serviceRole: ServiceRole, service: Option<Service>)
      ensures State() == EagerState(serviceRegistry, serviceRole, service)
    {
      this.serviceRegistry := serviceRegistry;
      this.serviceRole := serviceRole;
      this.serviceInitiator := None;
      this.service := service;
    }

    /** A binding whose service the initiator creates later. */
    constructor Lazy(serviceRegistry: OwningRegistry, serviceInitiator: ServiceInitiator)
      ensures State() == LazyState(serviceRegistry, serviceInitiator)
    {
      this.serviceRegistry := serviceRegistry;
      this.serviceRole := serviceInitiator.serviceInitiated;
      this.serviceInitiator := Some(serviceInitiator);
      this.service := None;
    }

    function GetServiceRegistry(): (r: OwningRegistry)
      ensures r == State().registry
    {
      serviceRegistry
    }

    function GetServiceRole(): (r: ServiceRole)
      ensures r == State().role
    {
      serviceRole
    }

    function GetServiceInitiator(): (i: Option<ServiceInitiator>)
      ensures i == State().initiator
    {
      serviceInitiator
    }

    function GetService(): (s: Option<Service>)
      reads this
      ensures s == State().service
    {
      service
    }

    /** Binds the service, replacing any service bound before; replacing is not an error. */
    method SetService(s: Option<Service>)
      modifies this`service
      ensures State() == AfterSetService(old(State()), s)
      ensures GetService() == s
    {
      service := s;
    }
  }
}

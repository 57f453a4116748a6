/**
 * The `ApiIntegrator` class (8jgo_craft_a_minimal.ts, lines 72-93): a table
 * from service name to client, held in the field `services` and updated in
 * place by `register`.
 */
module Integrator {
  import opened Wrappers
  import opened ApiTypes
  import opened Registry

  class ApiIntegrator {
    /** The `services` table. */
    var services: Services
    /** Every `register` call so far, in order; the table is what they leave behind. */
    ghost var registrations: seq<Registration>

    ghost predicate Valid()
      reads this
    {
      services == Replay(registrations)
    }

    /** A new integrator starts with an empty table: no name is registered. */
    constructor ()
      ensures Valid()
      ensures registrations == [] && services == map[]
      ensures forall n :: Lookup(services, n) == None
    {
      services := map[];
      registrations := [];
    }

    /**
     * `register(name, config)`: stores a client built from `config` under
     * `name`, overwriting any earlier client for `name` and leaving every
     * other name as it was.
     */
    method Register(name: string, config: ApiConfig)
      requires Valid()
      modifies this
      ensures Valid()
      ensures registrations == old(registrations) + [Registration(name, config)]
      ensures services == Registered(old(services), name, config)
      ensures Lookup(services, name) == Some(NewClient(config))
      ensures forall n :: n != name ==> Lookup(services, n) == Lookup(old(services), n)
      ensures old(services).Keys <= services.Keys
    {
      services := services[name := NewClient(config)];
      registrations := registrations + [Registration(name, config)];
    }

    /**
     * `getService(name)`: a pure read of the table. It returns the client of
     * the latest registration under `name`, and `None` for a name never
     * registered instead of failing.
     */
    method GetService(name: string) returns (service: Option<Client>)
      requires Valid()
      ensures service == Lookup(services, name)
      ensures service == LatestClient(registrations, name)
    {
      service := if name in services then Some(services[name]) else None;
      ReplayLookup(registrations, name);
    }
  }

  /**
   * What a caller of the class can rely on: on a fresh integrator, a name
   * registered twice yields the second client, and another name that was
   * never registered yields `None`.
   */
  method RegisterTwiceThenGet(name: string, first: ApiConfig, second: ApiConfig, other: string)
    returns (found: Option<Client>, missing: Option<Client>)
    requires other != name
    ensures found == Some(NewClient(second))
    ensures missing == None
  {
    var integrator := new ApiIntegrator();
    integrator.Register(name, first);
    integrator.Register(name, second);
    found := integrator.GetService(name);
    missing := integrator.GetService(other);
  }
}

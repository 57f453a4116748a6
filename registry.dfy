/**
 * The value-level meaning of the integrator's `services` table
 * (8jgo_craft_a_minimal.ts, lines 73-93): what one `register` does to it,
 * what `getService` reads from it, and what a whole history of
 * registrations leaves in it.
 */
module Registry {
  import opened Wrappers
  import opened ApiTypes

  /** The `services` table: service name to client. */
  type Services = map<string, Client>

  /** One call `register(name, config)`. */
  datatype Registration = Registration(name: string, config: ApiConfig)

  /** `getService(name)`: the client stored under `name`, or `None` (the source's `undefined`) on a miss. */
  function Lookup(services: Services, name: string): (r: Option<Client>)
    ensures r.None? <==> name !in services
    ensures r.Some? ==> name in services && services[name] == r.value
  {
    if name in services then Some(services[name]) else None
  }

  /**
   * The table after `register(name, config)`: the entry for `name` now holds a
   * client built from `config`, whatever it held before; every other name
   * looks up exactly as before; no name is dropped.
   */
  function Registered(services: Services, name: string, config: ApiConfig): (r: Services)
    ensures Lookup(r, name) == Some(NewClient(config))
    ensures forall n :: n != name ==> Lookup(r, n) == Lookup(services, n)
    ensures r.Keys == services.Keys + {name}
  {
    services[name := NewClient(config)]
  }

  /** The table left by a history of registrations applied in order to the empty table. */
  function Replay(history: seq<Registration>): (r: Services)
  {
    if history == [] then map[]
    else
      var last := history[|history| - 1];
      Registered(Replay(history[..|history| - 1]), last.name, last.config)
  }

  /**
   * Reference definition of what `getService(name)` should return after a
   * history: a client built from the config of the LAST registration under
   * `name`, or `None` if `name` was never registered.
   */
  function LatestClient(history: seq<Registration>, name: string): (r: Option<Client>)
  {
    if history == [] then None
    else if history[|history| - 1].name == name then Some(NewClient(history[|history| - 1].config))
    else LatestClient(history[..|history| - 1], name)
  }

  /** The names that occur in a history. */
  function NamesOf(history: seq<Registration>): (r: set<string>)
  {
    set i | 0 <= i < |history| :: history[i].name
  }

  /** After any history, `getService` answers with the client of the latest registration under that name. */
  lemma {:induction false} ReplayLookup(history: seq<Registration>, name: string)
    ensures Lookup(Replay(history), name) == LatestClient(history, name)
  {
    if history != [] {
      ReplayLookup(history[..|history| - 1], name);
    }
  }

  /** The registered names are exactly the names that occur in the history. */
  lemma {:induction false} ReplayKeys(history: seq<Registration>)
    ensures Replay(history).Keys == NamesOf(history)
  {
    if history != [] {
      var prefix := history[..|history| - 1];
      ReplayKeys(prefix);
      assert NamesOf(history) == NamesOf(prefix) + {history[|history| - 1].name} by {
        forall n | n in NamesOf(history) ensures n in NamesOf(prefix) + {history[|history| - 1].name} {
          var i :| 0 <= i < |history| && history[i].name == n;
          if i < |history| - 1 { assert prefix[i] == history[i]; }
        }
        forall n | n in NamesOf(prefix) ensures n in NamesOf(history) {
          var i :| 0 <= i < |prefix| && prefix[i].name == n;
          assert history[i] == prefix[i];
        }
      }
    }
  }

  /** Entries are never removed: later registrations only add names. */
  lemma NamesOnlyGrow(history: seq<Registration>, later: seq<Registration>)
    ensures Replay(history).Keys <= Replay(history + later).Keys
  {
    ReplayKeys(history);
    ReplayKeys(history + later);
    forall n | n in NamesOf(history) ensures n in NamesOf(history + later) {
      var i :| 0 <= i < |history| && history[i].name == n;
      assert (history + later)[i] == history[i];
    }
  }

  /** Last write wins: registering `name` twice leaves the same table as registering only the second config. */
  lemma Overwrite(services: Services, name: string, first: ApiConfig, second: ApiConfig)
    ensures Registered(Registered(services, name, first), name, second) == Registered(services, name, second)
  {
  }

  /**
   * Last write wins over any history: once `name` is registered with `config`,
   * registrations of other names never hide it.
   */
  lemma {:induction false} LatestRegistrationVisible(history: seq<Registration>, name: string, config: ApiConfig, later: seq<Registration>)
    requires forall i :: 0 <= i < |later| ==> later[i].name != name
    ensures Lookup(Replay(history + [Registration(name, config)] + later), name) == Some(NewClient(config))
  {
    var whole := history + [Registration(name, config)] + later;
    ReplayLookup(whole, name);
    LatestSkipsOthers(history + [Registration(name, config)], later, name);
  }

  /** Registrations of other names do not change which registration of `name` is the latest. */
  lemma {:induction false} LatestSkipsOthers(history: seq<Registration>, later: seq<Registration>, name: string)
    requires forall i :: 0 <= i < |later| ==> later[i].name != name
    ensures LatestClient(history + later, name) == LatestClient(history, name)
  {
    if later != [] {
      var whole := history + later;
      assert whole[|whole| - 1] == later[|later| - 1];
      assert whole[..|whole| - 1] == history + later[..|later| - 1];
      LatestSkipsOthers(history, later[..|later| - 1], name);
    } else {
      assert history + later == history;
    }
  }

  /** Registrations under two different names do not interfere: their order does not matter. */
  lemma Commute(services: Services, a: string, x: ApiConfig, b: string, y: ApiConfig)
    requires a != b
    ensures Registered(Registered(services, a, x), b, y) == Registered(Registered(services, b, y), a, x)
  {
  }

  /**
   * The table is keyed by the `name` argument, not by `config.name`: the two
   * are never compared, so a client can live under a name other than its
   * config's, and the config's own name is left as it was.
   */
  lemma KeyIsRegisteredName(services: Services, name: string, config: ApiConfig)
    requires config.name != name
    ensures Lookup(Registered(services, name, config), name).value.config.name != name
    ensures Lookup(Registered(services, name, config), config.name) == Lookup(services, config.name)
  {
  }
}

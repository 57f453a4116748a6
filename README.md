# Minimal API service integrator — verified model

The repository defines an `ApiIntegrator`, a registry of named API clients. Its table `services` maps a service name to a client. The table starts empty. `register(name, config)` is meant to store a client built from an `ApiConfig` under `name`. `getService(name)` reads the table back and returns `undefined` on a miss. `ApiConfig` holds a service name, an endpoint URL and optional basic credentials. `ApiService` is the client interface. It only declares `get`/`post`/`put`/`delete` and has no implementation. Because of that, line 82 as written does not run: `new ApiService(config)` names an interface, which is not a value. TypeScript rejects the line, and the emitted JavaScript would throw a `ReferenceError` on every `register`, so the table would never gain an entry. The model describes the intended behaviour, in which `register` stores a client.

The model has four modules:

- `Wrappers` (`wrappers.dfy`): `Option`, which stands for the source's `undefined`.
- `ApiTypes` (`api_types.dfy`): `Credentials`, `ApiConfig`, and `Client`. A client is the configuration it was built from.
- `Registry` (`registry.dfy`): the meaning of the table as a value.
  - `Lookup` gives what `getService` returns.
  - `Registered` gives the table after one `register`.
  - `Replay` gives the table after a history of registrations.
  - `LatestClient` is an independent reference definition: the client of the last registration under a name.
  - The lemmas prove that `Replay` and `LatestClient` agree, that names are never removed, that the last write wins, and that registrations under different names do not interfere.
- `Integrator` (`api_integrator.dfy`): the class `ApiIntegrator` with a real `services` map field that `Register` updates in place. A ghost history of registrations is kept with the invariant `services == Replay(registrations)`. `GetService` is a read-only method with no `modifies` clause, so Dafny guarantees it changes nothing.

Three points of behaviour:

- A miss returns `undefined` (line 91). The model gives it as `None`, not as an error.
- `register` checks neither the name nor the config (lines 81-83), so `Register` accepts any name and any config.
- The table is keyed by the `name` argument, which is never compared with `config.name` (line 82). `Registry.KeyIsRegisteredName` states this.

## Model

| member | source | states |
|---|---|---|
| `ApiTypes.NewClient` | 8jgo_craft_a_minimal.ts:82 | the client built by `new ApiService(config)` carries exactly `config` |
| `Registry.Lookup` | 8jgo_craft_a_minimal.ts:90-92 | `getService` yields `None` exactly when the name is not in the table; otherwise it yields the stored client |
| `Registry.Registered` | 8jgo_craft_a_minimal.ts:81-83 | after `register(name, config)`, `name` looks up to a client built from `config`; every other name looks up as before; the key set gains `name` and loses nothing |
| `Registry.ReplayLookup` | 8jgo_craft_a_minimal.ts:73-93 | after any history of registrations, lookup of a name equals the client of the latest registration under that name, or `None` if there is none |
| `Registry.ReplayKeys` | 8jgo_craft_a_minimal.ts:74-83 | the registered names are exactly the names that occur in the history |
| `Registry.NamesOnlyGrow` | 8jgo_craft_a_minimal.ts:73-93 | later registrations never remove a name: the key set only grows |
| `Registry.Overwrite` | 8jgo_craft_a_minimal.ts:82 | registering a name twice leaves the same table as registering only the second config |
| `Registry.LatestRegistrationVisible` | 8jgo_craft_a_minimal.ts:82 | after `name` is registered with `config`, later registrations of other names never hide that client |
| `Registry.LatestSkipsOthers` | 8jgo_craft_a_minimal.ts:82 | registrations of other names do not change which registration of a name is the latest |
| `Registry.Commute` | 8jgo_craft_a_minimal.ts:82 | registrations under two different names give the same table in either order |
| `Registry.KeyIsRegisteredName` | 8jgo_craft_a_minimal.ts:81-82 | the key is the `name` argument, not `config.name`: a client can be stored under a name other than its config's, and the config's own name keeps its old entry |
| `Integrator.ApiIntegrator.constructor` | 8jgo_craft_a_minimal.ts:74 | a new integrator has an empty table and an empty history, so every name looks up to `None` |
| `Integrator.ApiIntegrator.Register` | 8jgo_craft_a_minimal.ts:81-83 | updates `services` in place to `Registered(old(services), name, config)`: lookup-after-register, other names unchanged, no name removed; the history gains the registration and the invariant is kept |
| `Integrator.ApiIntegrator.GetService` | 8jgo_craft_a_minimal.ts:90-92 | a read that changes nothing; its result is `Lookup(services, name)`, so `None` on a miss and never an error; it equals the client of the latest registration under the name |
| `Integrator.RegisterTwiceThenGet` | 8jgo_craft_a_minimal.ts:73-93 | on a fresh integrator, a name registered twice yields the second client, and a never-registered name yields `None` |

## Left out

- The `get`, `post`, `put` and `delete` methods of `ApiService` (lines 43-66). They are asynchronous HTTP calls, and the source only declares them. Request dispatch, credential injection, and HTTP or decode errors are not implemented anywhere in the source.
- Client construction. Line 82 applies `new` to `ApiService`, which is an interface with no constructor body. A client is modelled as a value that carries the config it was built from. So two clients built from equal configs are equal values in the model, while in the source each `register` would create a distinct object under `===`.
- The `@Injectable()` decorator and the `./injectable` import (lines 9 and 72). They hook into a dependency-injection framework, and `./injectable` is not part of this model.
- JavaScript plain-object behaviour. The source table is a plain object, so keys such as `"__proto__"` or `"toString"` would reach inherited members. The model uses a clean finite `map`. Dafny `string` keys also cannot hold lone UTF-16 surrogates, which JavaScript keys can.
- Concurrency. The source is single-threaded, and registration and lookup never interleave within one call.

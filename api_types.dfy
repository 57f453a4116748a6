/**
 * The records of the integrator: a service configuration and the client
 * built from it (8jgo_craft_a_minimal.ts, lines 14-67).
 */
module ApiTypes {
  import opened Wrappers

  /** Basic credentials of a service (the `auth` object). */
  datatype Credentials = Credentials(username: string, password: string)

  /** `ApiConfig`: a service name, its endpoint URL and optional credentials. */
  datatype ApiConfig = ApiConfig(name: string, endpoint: string, auth: Option<Credentials>)

  /**
   * A service client. `ApiService` is only an interface, so a client is
   * represented by the configuration it was built from and nothing else.
   */
  datatype Client = Client(config: ApiConfig)

  /** Building a client from a configuration loses nothing: the client determines its configuration. */
  function NewClient(config: ApiConfig): (c: Client)
    ensures c.config == config
  {
    Client(config)
  }
}

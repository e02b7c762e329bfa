/** The parts of the `stow` package that the S3 backend and the overlay use:
    errors, the configuration lookup and the registration tuple. */
module Stow {
  import opened Wrappers
  import opened NetUrl

  /** Errors as values. `New` is `errors.New`; `Errorf` is `fmt.Errorf` with a
      format ending in `%w`, its prefix being the format's text before `%w`;
      `Wrap` is `errors.Wrap(cause, message)`. */
  datatype Error =
    | NotFound
    | New(text: string)
    | Errorf(prefix: string, cause: Error)
    | Wrap(message: string, cause: Error)

  /** `stow.Config`: option name to value; a key that is absent is told
      apart from one that is present with the empty string. */
  type Config = map<string, string>

  /** `config.Config(name)`: the value and whether the key is present; an
      absent key reads as the empty string. */
  function Lookup(config: Config, name: string): (r: (string, bool))
    ensures r.1 <==> name in config
    ensures !r.1 ==> r.0 == ""
  {
    if name in config then (config[name], true) else ("", false)
  }

  /** The value of `name`, ignoring presence (`v, _ := config.Config(name)`). */
  function Get(config: Config, name: string): string {
    Lookup(config, name).0
  }

  /** What a backend's `init` hands to `stow.Register`, without the
      constructor (a method, which a value cannot hold): its kind, its URL
      matcher and its validator. */
  datatype Registration = Registration(
    kind: string,
    urlMatches: UrlValue -> bool,
    validate: Config -> Option<Error>)
}

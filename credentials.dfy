/**
 * API key lookup: `os.getenv(NAME) or getattr(settings, NAME, None)`, then
 * `if not key: raise RuntimeError(...)`.
 */
module Credentials {
  import opened Wrappers
  import opened PyStr

  /** Where one API key may come from: the process environment and the settings module. */
  datatype KeySources = KeySources(environment: Option<string>, settings: Option<string>)

  /** Python's `a or b`: the environment value when it is truthy, else the settings value. */
  function ResolveKey(src: KeySources): (key: Option<string>)
    ensures Truthy(key) <==> Truthy(src.environment) || Truthy(src.settings)
    ensures Truthy(src.environment) ==> key == src.environment
    ensures Truthy(key) && !Truthy(src.environment) ==> key == src.settings
  {
    if Truthy(src.environment) then src.environment else src.settings
  }

  /** The key is usable: the stage does not raise its "API key not set" error. */
  predicate KeyPresent(src: KeySources) {
    Truthy(ResolveKey(src))
  }
}

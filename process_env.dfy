/** The process environment, passed around as a map from variable name to value.
    A JavaScript lookup `process.env[name]` is `undefined` for a name not in the map. */
module ProcessEnv {

  type Env = map<string, string>

  const Production := "production"

  /** `process.env[name] || ''`. */
  function Get(env: Env, name: string): (v: string)
    ensures v != "" <==> IsSet(env, name)
    ensures v == "" || v in env.Values
  {
    if name in env then env[name] else ""
  }

  /** JavaScript truthiness of `process.env[name]`: defined and not the empty string. */
  predicate IsSet(env: Env, name: string) {
    name in env && env[name] != ""
  }

  /** `process.env[name] || fallback`. */
  function GetOr(env: Env, name: string, fallback: string): (v: string)
    ensures fallback != "" ==> v != ""
    ensures v == fallback || v in env.Values
  {
    if IsSet(env, name) then env[name] else fallback
  }

  /** `process.env[name] === value`. */
  predicate Is(env: Env, name: string, value: string) {
    name in env && env[name] == value
  }

  predicate IsProduction(env: Env) {
    Is(env, "NODE_ENV", Production)
  }
}

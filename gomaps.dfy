/**
  Reading a Go `map[string]string`: a missing key reads as the zero value "".
  The same rule gives `os.Getenv`, which returns "" for an unset variable, so the
  process environment is modelled as such a map.
 */
module GoMaps {

  /** The process environment: variable name to value. */
  type Environment = map<string, string>

  /** `m[k]` in Go: the stored value, or "" when `k` is absent. */
  function Lookup(m: map<string, string>, k: string): (v: string)
    ensures k in m ==> v == m[k]
    ensures k !in m ==> v == ""
  {
    if k in m then m[k] else ""
  }

  /** `os.Getenv(name)`: unset and empty variables read alike. */
  function Getenv(env: Environment, name: string): string {
    Lookup(env, name)
  }
}

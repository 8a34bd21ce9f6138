/** The process environment, as the scripts read it through `os.getenv`. */
module Environment {

  /** `os.getenv(name)` is truthy: the name is present with a non-empty value. */
  predicate IsSet(env: map<string, string>, name: string) {
    name in env && env[name] != ""
  }
}

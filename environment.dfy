/** The process environment as pat_helper.py reads it: a variable counts
    as set only when it is present and not empty. */
module Environment {
  import opened Values

  type Env = map<string, string>

  /** Exit code when a required variable is missing or empty. */
  const MissingVariable := 255

  /** `os.environ.get(name)` taken as a truth value. */
  predicate IsSet(env: Env, name: string) {
    name in env && env[name] != ""
  }

  /** `get_from_env(name)`: the variable's value, or exit 255 when it is
      missing or empty. */
  function GetFromEnv(env: Env, name: string): (r: Result<string>)
    ensures r.Ok? <==> name in env && env[name] != ""
    ensures r.Ok? ==> r.value == env[name] && |r.value| > 0
    ensures r.Fail? ==> r.code == MissingVariable
  {
    if IsSet(env, name) then Ok(env[name]) else Fail(MissingVariable)
  }

  const Repository := "GITHUB_REPOSITORY"

  /** `token_name()`: the name the issued token is given. Which repository
      it names is stated by `TokenNameIdentifiesRepository` below. */
  function TokenName(env: Env): (name: string)
    ensures name == "local-test" || (|name| > 7 && name[..7] == "github-")
  {
    if IsSet(env, Repository) then "github-" + env[Repository] else "local-test"
  }

  /** The token name tells runs apart exactly by their repository: two
      environments give the same name iff both name no repository or both
      name the same one. */
  lemma TokenNameIdentifiesRepository(e1: Env, e2: Env)
    ensures TokenName(e1) == TokenName(e2) <==>
      (IsSet(e1, Repository) <==> IsSet(e2, Repository)) &&
      (IsSet(e1, Repository) ==> e1[Repository] == e2[Repository])
  {
    var n1, n2 := TokenName(e1), TokenName(e2);
    if IsSet(e1, Repository) && IsSet(e2, Repository) && n1 == n2 {
      assert e1[Repository] == n1[7..] == n2[7..] == e2[Repository];
    }
    if IsSet(e1, Repository) != IsSet(e2, Repository) {
      assert n1[0] != n2[0];
    }
  }
}

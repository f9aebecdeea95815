/** pat_helper.py itself: its module globals as the fields of one object,
    the functions that assign them step by step, and the main block that
    reads the configuration, optionally probes the LDAP hosts, and then
    either creates or revokes a token. */
module PatHelper {
  import opened Values
  import opened Text
  import opened Environment
  import opened Retry
  import opened Directory
  import opened Stash

  datatype Mode = Create | Revoke

  const DefaultLdapPort := "389"
  const DefaultMaxAttempts := 10
  const DefaultPatValid := 1
  const DefaultPatUri := "rest/access-tokens/1.0/users"
  const DefaultWaitBetweenAttempts := 30

  /** The three variables `parse_env` cannot do without. */
  predicate HasRequired(env: Env) {
    IsSet(env, "username") && IsSet(env, "password") && IsSet(env, "base_url")
  }

  /** An optional numeric variable: `int()` of its value when set, else
      `default`. */
  function IntSetting(env: Env, name: string, toInt: string -> int, default: int): int {
    if IsSet(env, name) then toInt(env[name]) else default
  }

  /** An optional text variable: its value when set, else `default`. */
  function TextSetting(env: Env, name: string, default: string): string {
    if IsSet(env, name) then env[name] else default
  }

  /** The module globals of pat_helper.py. */
  class Helper {
    var ldapPath: string
    var ldapHosts: seq<string>
    var ldapPort: string
    var maxAttempts: int
    var password: Option<string>
    var pat: Option<Json>
    var patId: Option<Json>
    var patValid: int
    var stashHost: string
    var stashPatUri: string
    var userLdap: Option<string>
    var username: Option<string>
    var waitBetweenAttempts: int

    /** The globals as the module is loaded. */
    constructor ()
      ensures ldapPath == "" && ldapHosts == [] && ldapPort == DefaultLdapPort
      ensures maxAttempts == DefaultMaxAttempts && patValid == DefaultPatValid
      ensures password == None && pat == None && patId == None && userLdap == None && username == None
      ensures stashHost == "" && stashPatUri == DefaultPatUri
      ensures waitBetweenAttempts == DefaultWaitBetweenAttempts
    {
      ldapPath, ldapHosts, ldapPort := "", [], DefaultLdapPort;
      maxAttempts, patValid := DefaultMaxAttempts, DefaultPatValid;
      password, pat, patId, userLdap, username := None, None, None, None, None;
      stashHost, stashPatUri := "", DefaultPatUri;
      waitBetweenAttempts := DefaultWaitBetweenAttempts;
    }

    /** `parse_env()`: the required variables in order, each exiting 255
        when missing and assigned otherwise; then the optional ones, each
        replacing its default only when set. `toInt` is Python's `int()`. */
    method ParseEnv(env: Env, toInt: string -> int) returns (outcome: Outcome)
      modifies this`username, this`password, this`stashHost, this`stashPatUri,
               this`maxAttempts, this`waitBetweenAttempts, this`patValid
      ensures outcome == if HasRequired(env) then Proceed else Exit(MissingVariable)
      ensures outcome == Proceed ==>
        username == Some(env["username"]) && password == Some(env["password"]) &&
        stashHost == RStripSlash(env["base_url"])
      ensures outcome == Proceed ==>
        stashPatUri == if IsSet(env, "pat_uri") then LStripSlash(env["pat_uri"]) else old(stashPatUri)
      ensures outcome == Proceed ==>
        && maxAttempts == IntSetting(env, "max_attempts", toInt, old(maxAttempts))
        && waitBetweenAttempts == IntSetting(env, "seconds_between_attempts", toInt, old(waitBetweenAttempts))
        && patValid == IntSetting(env, "valid_days", toInt, old(patValid))
      ensures outcome != Proceed ==>
        && username == (if IsSet(env, "username") then Some(env["username"]) else old(username))
        && password == (if IsSet(env, "username") && IsSet(env, "password") then Some(env["password"]) else old(password))
        && stashHost == old(stashHost) && stashPatUri == old(stashPatUri) && maxAttempts == old(maxAttempts)
        && waitBetweenAttempts == old(waitBetweenAttempts) && patValid == old(patValid)
    {
      var user := GetFromEnv(env, "username");
      if user.Fail? { return Exit(user.code); }
      username := Some(user.value);
      var secret := GetFromEnv(env, "password");
      if secret.Fail? { return Exit(secret.code); }
      password := Some(secret.value);
      var baseUrl := GetFromEnv(env, "base_url");
      if baseUrl.Fail? { return Exit(baseUrl.code); }
      stashHost := RStripSlash(baseUrl.value);

      if IsSet(env, "pat_uri") {
        stashPatUri := LStripSlash(env["pat_uri"]);
      }
      if IsSet(env, "max_attempts") {
        maxAttempts := toInt(env["max_attempts"]);
      }
      if IsSet(env, "seconds_between_attempts") {
        waitBetweenAttempts := toInt(env["seconds_between_attempts"]);
      }
      if IsSet(env, "valid_days") {
        patValid := toInt(env["valid_days"]);
      }
      outcome := Proceed;
    }

    /** `get_pat_id()`: `PAT_ID` from the environment, or exit 255. */
    method GetPatId(env: Env) returns (outcome: Outcome)
      modifies this`patId
      ensures outcome == if IsSet(env, "pat_id") then Proceed else Exit(MissingVariable)
      ensures patId == if IsSet(env, "pat_id") then Some(JStr(env["pat_id"])) else old(patId)
    {
      var id := GetFromEnv(env, "pat_id");
      if id.Fail? { return Exit(id.code); }
      patId := Some(JStr(id.value));
      outcome := Proceed;
    }

    /** `get_ldap_vars()`: the LDAP path and the comma-separated host list
        (each exiting 255 when missing), the optional port, and the user's
        distinguished name. */
    method GetLdapVars(env: Env) returns (outcome: Outcome)
      requires username.Some?
      modifies this`ldapPath, this`ldapHosts, this`ldapPort, this`userLdap
      ensures var complete := IsSet(env, "ldap_path") && IsSet(env, "ldap_hosts");
        && outcome == (if complete then Proceed else Exit(MissingVariable))
        && ldapPath == (if IsSet(env, "ldap_path") then env["ldap_path"] else old(ldapPath))
        && ldapHosts == (if complete then Split(env["ldap_hosts"]) else old(ldapHosts))
        && ldapPort == (if complete then TextSetting(env, "ldap_port", old(ldapPort)) else old(ldapPort))
        && userLdap == (if complete then Some(UserDn(username.value, ldapPath)) else old(userLdap))
    {
      var path := GetFromEnv(env, "ldap_path");
      if path.Fail? { return Exit(path.code); }
      ldapPath := path.value;
      var hosts := GetFromEnv(env, "ldap_hosts");
      if hosts.Fail? { return Exit(hosts.code); }
      ldapHosts := Split(hosts.value);

      if IsSet(env, "ldap_port") {
        ldapPort := env["ldap_port"];
      }
      userLdap := Some(UserDn(username.value, ldapPath));
      outcome := Proceed;
    }

    /** `test_password(host)`: the retry loop over bind attempts. */
    method TestPassword(host: string, directory: BindRequest -> nat -> BindOutcome) returns (t: Tally)
      requires userLdap.Some? && password.Some?
      ensures t == HostTally(directory, host, ldapPort, userLdap.value, password.value, maxAttempts)
      ensures t.outcome == Proceed || t.outcome == Exit(GiveUp)
    {
      var binds := directory(BindRequest(host, ldapPort, userLdap.value, password.value));
      t := RetryLoop(BindSteps(binds), maxAttempts);
      BindNeverFatal(binds, maxAttempts);
    }

    /** The main block's `for ldap_host in LDAP_HOSTS: test_password(ldap_host)`:
        the hosts in order, stopping (exit 127) at the first that gives up. */
    method ProbeHosts(directory: BindRequest -> nat -> BindOutcome) returns (probes: seq<Tally>, outcome: Outcome)
      requires userLdap.Some? && password.Some?
      ensures probes == Probes(directory, ldapHosts, ldapPort, userLdap.value, password.value, maxAttempts)
      ensures outcome == Proceed <==> forall k :: 0 <= k < |probes| ==> probes[k].outcome == Proceed
      ensures outcome == Proceed ==> |probes| == |ldapHosts|
      ensures outcome != Proceed ==> outcome == Exit(GiveUp)
    {
      var hosts, port, dn, secret, max := ldapHosts, ldapPort, userLdap.value, password.value, maxAttempts;
      ghost var all := Probes(directory, hosts, port, dn, secret, max);
      probes := [];
      var k := 0;
      while k < |hosts|
        invariant k <= |hosts| && |probes| == k
        invariant probes + Probes(directory, hosts[k..], port, dn, secret, max) == all
        invariant forall j :: 0 <= j < |probes| ==> probes[j].outcome == Proceed
      {
        ProbesFrom(directory, hosts, port, dn, secret, max, k);
        ghost var later := Probes(directory, hosts[k + 1..], port, dn, secret, max);
        var t := TestPassword(hosts[k], directory);
        if t.outcome != Proceed {
          probes := probes + [t];
          assert probes[k] == t;
          return probes, t.outcome;
        }
        assert probes + ([t] + later) == (probes + [t]) + later;
        probes := probes + [t];
        k := k + 1;
      }
      outcome := Proceed;
    }

    /** The main block's LDAP check: `get_ldap_vars()`, then the probe of
        every host; a missing variable exits 255 before any bind. */
    method CheckPassword(env: Env, directory: BindRequest -> nat -> BindOutcome)
      returns (probes: seq<Tally>, outcome: Outcome)
      requires username.Some? && password.Some?
      modifies this`ldapPath, this`ldapHosts, this`ldapPort, this`userLdap
      ensures !(IsSet(env, "ldap_path") && IsSet(env, "ldap_hosts")) ==>
        outcome == Exit(MissingVariable) && probes == []
      ensures IsSet(env, "ldap_path") && IsSet(env, "ldap_hosts") ==>
        && ldapHosts == Split(env["ldap_hosts"])
        && ldapPort == TextSetting(env, "ldap_port", old(ldapPort))
        && userLdap == Some(UserDn(username.value, env["ldap_path"]))
        && probes == Probes(directory, ldapHosts, ldapPort, userLdap.value, password.value, maxAttempts)
        && (outcome == Proceed <==> forall k :: 0 <= k < |probes| ==> probes[k].outcome == Proceed)
        && (outcome != Proceed ==> outcome == Exit(GiveUp))
    {
      probes := [];
      outcome := GetLdapVars(env);
      if outcome.Exit? {
        return;
      }
      probes, outcome := ProbeHosts(directory);
    }

    /** `create_pat()`: the retry loop over PUT requests, then the checks of
        the response; on success `PAT` and `PAT_ID` are the issued token. */
    method CreatePat(env: Env, server: Request -> nat -> Response) returns (t: Tally, outcome: Outcome)
      requires username.Some? && password.Some?
      modifies this`pat, this`patId
      ensures var request := CreateRequest(stashHost, stashPatUri, username.value, password.value,
                                           TokenName(env), patValid);
        var issued := Issue(server(request), maxAttempts);
        && t == Poll(CreateSteps(server(request)), maxAttempts, 0)
        && outcome == (if issued.Ok? then Proceed else Exit(issued.code))
        && pat == (if issued.Ok? then Some(issued.value.secret) else old(pat))
        && patId == (if issued.Ok? then Some(issued.value.id) else old(patId))
    {
      var request := CreateRequest(stashHost, stashPatUri, username.value, password.value,
                                   TokenName(env), patValid);
      var responses := server(request);
      t := RetryLoop(CreateSteps(responses), maxAttempts);
      if t.outcome.Exit? {
        return t, t.outcome;
      }
      if t.attempts == 0 {
        return t, Exit(UndecodableBody);
      }
      var checked := Validate(responses(t.attempts - 1).body);
      if checked.Fail? {
        return t, Exit(checked.code);
      }
      pat := Some(checked.value.secret);
      patId := Some(checked.value.id);
      outcome := Proceed;
    }

    /** `revoke_pat()`: the retry loop over DELETE requests; once it leaves
        normally `PAT` becomes "revoked" and `PAT_ID` stays as it was. */
    method RevokePat(server: Request -> nat -> Response) returns (t: Tally, outcome: Outcome)
      requires username.Some? && password.Some? && patId.Some? && patId.value.JStr?
      modifies this`pat
      ensures var request := RevokeRequest(stashHost, stashPatUri, username.value, password.value, patId.value.s);
        && t == Poll(RevokeSteps(server(request)), maxAttempts, 0)
        && outcome == t.outcome
        && pat == (if outcome == Proceed then Some(JStr(Revoked)) else old(pat))
      ensures patId == old(patId)
    {
      var request := RevokeRequest(stashHost, stashPatUri, username.value, password.value, patId.value.s);
      t := RetryLoop(RevokeSteps(server(request)), maxAttempts);
      outcome := t.outcome;
      if outcome == Proceed {
        pat := Some(JStr(Revoked));
      }
    }
    /** The main block once the configuration is read: the LDAP check when
        asked for, then exactly one of `create_pat()` and `revoke_pat()`
        unless the check exited. `http` is the tally of the request loop,
        `None` when it never ran. */
    method Run(mode: Mode, checkUsingLdapBind: bool, env: Env,
               directory: BindRequest -> nat -> BindOutcome, server: Request -> nat -> Response)
      returns (probes: seq<Tally>, http: Option<Tally>, outcome: Outcome)
      requires username.Some? && password.Some?
      requires mode == Revoke ==> patId.Some? && patId.value.JStr?
      modifies this`ldapPath, this`ldapHosts, this`ldapPort, this`userLdap, this`pat, this`patId
      ensures !checkUsingLdapBind ==> probes == []
      ensures checkUsingLdapBind && !(IsSet(env, "ldap_path") && IsSet(env, "ldap_hosts")) ==>
        outcome == Exit(MissingVariable) && probes == [] && http == None
      ensures checkUsingLdapBind && IsSet(env, "ldap_path") && IsSet(env, "ldap_hosts") ==>
        && ldapHosts == Split(env["ldap_hosts"])
        && ldapPort == TextSetting(env, "ldap_port", old(ldapPort))
        && userLdap == Some(UserDn(username.value, env["ldap_path"]))
        && probes == Probes(directory, ldapHosts, ldapPort, userLdap.value, password.value, maxAttempts)
      ensures (checkUsingLdapBind ==> IsSet(env, "ldap_path") && IsSet(env, "ldap_hosts")) ==>
        && (http == None <==> exists k :: 0 <= k < |probes| && probes[k].outcome != Proceed)
        && (http == None ==> outcome == Exit(GiveUp))
      ensures mode == Create && http.Some? ==>
        var request := CreateRequest(stashHost, stashPatUri, username.value, password.value,
                                     TokenName(env), patValid);
        var issued := Issue(server(request), maxAttempts);
        && http.value == Poll(CreateSteps(server(request)), maxAttempts, 0)
        && outcome == (if issued.Ok? then Proceed else Exit(issued.code))
        && pat == (if issued.Ok? then Some(issued.value.secret) else old(pat))
        && patId == (if issued.Ok? then Some(issued.value.id) else old(patId))
      ensures mode == Revoke && http.Some? ==>
        var request := RevokeRequest(stashHost, stashPatUri, username.value, password.value, old(patId).value.s);
        && http.value == Poll(RevokeSteps(server(request)), maxAttempts, 0)
        && outcome == http.value.outcome
        && pat == (if outcome == Proceed then Some(JStr(Revoked)) else old(pat))
        && patId == old(patId)
    {
      probes, http, outcome := [], None, Proceed;
      if checkUsingLdapBind {
        probes, outcome := CheckPassword(env, directory);
      }
      if outcome == Proceed {
        var t: Tally;
        if mode == Create {
          t, outcome := CreatePat(env, server);
        } else {
          t, outcome := RevokePat(server);
        }
        http := Some(t);
      }
    }
  }

  /** Every variable the run needs, given its mode and whether it probes LDAP. */
  predicate Configured(mode: Mode, checkUsingLdapBind: bool, env: Env) {
    && HasRequired(env)
    && (mode == Revoke ==> IsSet(env, "pat_id"))
    && (checkUsingLdapBind ==> IsSet(env, "ldap_path") && IsSet(env, "ldap_hosts"))
  }

  /** Every variable `parse_env()` and, in revoke mode, `get_pat_id()` need. */
  predicate Readable(mode: Mode, env: Env) {
    HasRequired(env) && (mode == Revoke ==> IsSet(env, "pat_id"))
  }

  /** The globals `parse_env()` settles, as it sets them from a complete
      environment: the credentials, the host without trailing slashes, the
      token path without leading slashes (or its default), and the attempt
      budget and token validity read with `int()` (or their defaults). */
  predicate Parsed(h: Helper, env: Env, toInt: string -> int)
    reads h`username, h`password, h`stashHost, h`stashPatUri, h`maxAttempts, h`patValid
  {
    && HasRequired(env)
    && h.username == Some(env["username"]) && h.password == Some(env["password"])
    && h.stashHost == RStripSlash(env["base_url"])
    && h.stashPatUri == (if IsSet(env, "pat_uri") then LStripSlash(env["pat_uri"]) else DefaultPatUri)
    && h.maxAttempts == IntSetting(env, "max_attempts", toInt, DefaultMaxAttempts)
    && h.patValid == IntSetting(env, "valid_days", toInt, DefaultPatValid)
  }

  /** The main block up to the LDAP probe: a fresh set of globals,
      `parse_env()`, and `get_pat_id()` in revoke mode; the first missing
      variable exits 255. */
  method Configure(mode: Mode, env: Env, toInt: string -> int) returns (h: Helper, outcome: Outcome)
    ensures fresh(h)
    ensures outcome == if Readable(mode, env) then Proceed else Exit(MissingVariable)
    ensures outcome == Proceed ==>
      && Parsed(h, env, toInt)
      && h.pat == None
      && h.patId == (if mode == Revoke then Some(JStr(env["pat_id"])) else None)
      && h.ldapHosts == [] && h.ldapPort == DefaultLdapPort && h.userLdap == None
  {
    h := new Helper();
    outcome := h.ParseEnv(env, toInt);
    if outcome == Proceed && mode == Revoke {
      outcome := h.GetPatId(env);
    }
  }

  /** The main block: read the configuration, probe every LDAP host when
      asked to, then run exactly one of creation and revocation. `probes`
      are the tallies of the hosts probed and `http` that of the request
      loop (`None` when it never ran). */
  method Execute(mode: Mode, checkUsingLdapBind: bool, env: Env, toInt: string -> int,
                 directory: BindRequest -> nat -> BindOutcome, server: Request -> nat -> Response)
    returns (h: Helper, probes: seq<Tally>, http: Option<Tally>, outcome: Outcome)
    ensures fresh(h)
    ensures !Configured(mode, checkUsingLdapBind, env) ==>
      outcome == Exit(MissingVariable) && probes == [] && http == None
    ensures Configured(mode, checkUsingLdapBind, env) ==> Parsed(h, env, toInt)
    ensures Configured(mode, checkUsingLdapBind, env) && checkUsingLdapBind ==>
      h.ldapPort == TextSetting(env, "ldap_port", DefaultLdapPort)
    ensures Configured(mode, checkUsingLdapBind, env) && checkUsingLdapBind ==>
      && h.ldapHosts == Split(env["ldap_hosts"])
      && h.userLdap == Some(UserDn(h.username.value, env["ldap_path"]))
      && probes == Probes(directory, h.ldapHosts, h.ldapPort, h.userLdap.value, h.password.value, h.maxAttempts)
    ensures !checkUsingLdapBind ==> probes == []
    ensures Configured(mode, checkUsingLdapBind, env) ==>
      (http == None <==> exists k :: 0 <= k < |probes| && probes[k].outcome != Proceed)
    ensures Configured(mode, checkUsingLdapBind, env) && http == None ==> outcome == Exit(GiveUp)
    ensures Configured(mode, checkUsingLdapBind, env) && mode == Create && http.Some? ==>
      var request := CreateRequest(h.stashHost, h.stashPatUri, h.username.value, h.password.value,
                                   TokenName(env), h.patValid);
      var issued := Issue(server(request), h.maxAttempts);
      && http.value == Poll(CreateSteps(server(request)), h.maxAttempts, 0)
      && outcome == (if issued.Ok? then Proceed else Exit(issued.code))
      && h.pat == (if issued.Ok? then Some(issued.value.secret) else None)
      && h.patId == (if issued.Ok? then Some(issued.value.id) else None)
    ensures Configured(mode, checkUsingLdapBind, env) && mode == Revoke && http.Some? ==>
      var request := RevokeRequest(h.stashHost, h.stashPatUri, h.username.value, h.password.value, env["pat_id"]);
      && http.value == Poll(RevokeSteps(server(request)), h.maxAttempts, 0)
      && outcome == http.value.outcome
      && h.pat == (if outcome == Proceed then Some(JStr(Revoked)) else None)
      && h.patId == Some(JStr(env["pat_id"]))
  {
    probes, http := [], None;
    h, outcome := Configure(mode, env, toInt);
    if outcome == Proceed {
      probes, http, outcome := h.Run(mode, checkUsingLdapBind, env, directory, server);
    }
  }
}

# pat_helper in Dafny

A model of `pat_helper.py`, the GitHub Actions helper that creates or revokes
a personal access token (PAT) on a Bitbucket Server (Stash). Before doing so it
can check that an LDAP account's password is already accepted by every
configured directory host.

The model covers:

- the bounded retry loop. The script writes it three times: for the LDAP bind
  in `test_password`, for the token PUT in `create_pat` and for the token
  DELETE in `revoke_pat`;
- how each loop classifies an attempt;
- the checks `create_pat` makes on the response after it succeeds;
- the string rules of the configuration readers;
- the main block that sequences all of the above.

The network is an oracle:

- `directory(request)(k)` is what bind attempt `k` returns or raises;
- `server(request)(k)` is the response to HTTP attempt `k`.

Modules (one file each):

- `Values` (values.dfy): `Option`, `Outcome` (carry on, or `sys.exit(code)`), `Result`, and a `Json` value with Python's truth value.
- `Text` (text.dfy): the slash stripping, the comma split of the host list and its inverse, the distinguished name, and the two request URLs.
- `Environment` (environment.dfy): `get_from_env` (exit 255 on a missing or empty variable) and `token_name`.
- `Retry` (retry.dfy):
  - `Poll` is the loop as a function of what each attempt says.
  - `RetryLoop` is the loop itself, written as a `while` loop and proved equal to `Poll`.
  - The lemmas count attempts and sleeps and show how the loop ends.
- `Directory` (directory.dfy): the bind classification, the per-host probe, and the walk over the hosts.
- `Stash` (stash.dfy): the two requests, the status classification (200 or 204 is success and 401 means retry, as section 15 of RFC 9110 names them; any other status is fatal), and the response validation.
- `PatHelper` (pat_helper.dfy):
  - the module globals, as the fields of class `Helper`;
  - `parse_env`, `get_pat_id`, `get_ldap_vars`, `create_pat` and `revoke_pat`, as methods that update those fields, and `test_password`, as a method that only reads them;
  - the main block: `Helper.CheckPassword` (the LDAP check), `Helper.Run` (the check, then create or revoke), `Configure` (reading the configuration) and `Execute` (all of it).

Two facts about the code shape the model:

- The code has no permission-scope mapping. It always requests `["REPO_WRITE", "PROJECT_WRITE"]` (pat_helper.py:131-134), and `Stash.Permissions` is that fixed list.
- `max_attempts` is read with `int()` and has no lower bound, so the model takes any integer. At zero or below, no loop runs any attempt:
  - the LDAP probe passes without a bind;
  - `create_pat` exits 32, because `None.json()` raises inside the `try`;
  - `revoke_pat` sets `PAT` to `'revoked'` without sending a request.

## Model

| member | source | states |
|---|---|---|
| Text.RStripSlash | pat_helper.py:61 | `rstrip('/')`: the result is a prefix of the input, everything removed is `/`, and the result does not end in `/` |
| Text.LStripSlash | pat_helper.py:66 | `lstrip('/')`: the result is a suffix of the input, everything removed is `/`, and the result does not start with `/` |
| Text.StripIdempotent | pat_helper.py:61-66 | stripping an already stripped base URL or token path changes nothing |
| Text.Split | pat_helper.py:89 | `split(',')` gives one more part than there are commas, and no part contains a comma |
| Text.JoinSplit | pat_helper.py:89 | joining the split host list with `,` gives back the variable's value |
| Text.SplitJoin | pat_helper.py:89 | splitting the join of nonempty comma-free parts gives back the parts |
| Text.DnSplitsAtUser | pat_helper.py:97 | the DN `CN=<user>,<path>` splits at its commas into `CN=<user>` followed by the parts of the path, when the user name has no comma |
| Text.UserDn | pat_helper.py:97 | `CN=<user>,<path>`; how it splits is stated by `DnSplitsAtUser` |
| Text.TokensUrl | pat_helper.py:140 | `<host>/<path>/<user>`, the PUT URL; its single joining slash is stated by `SingleSlashBetweenHostAndPath` |
| Text.TokenUrl | pat_helper.py:182 | `<host>/<path>/<user>/<id>`, the DELETE URL; `SingleSlashBetweenHostAndPath` states that it extends the PUT URL |
| Text.SingleSlashBetweenHostAndPath | pat_helper.py:140 | with the base URL and token path normalised, both request URLs join host and path with exactly one `/`; the DELETE URL extends the PUT URL |
| Environment.GetFromEnv | pat_helper.py:48-52 | the value when the variable is present and nonempty, otherwise exit 255 |
| Environment.TokenName | pat_helper.py:121-125 | the name is `local-test` or starts with `github-` |
| Environment.TokenNameIdentifiesRepository | pat_helper.py:121-125 | two environments give the same token name exactly when both set no `GITHUB_REPOSITORY` or both set the same one |
| Retry.Poll | pat_helper.py:103-118 | with a positive budget, between 1 and max attempts and one sleep fewer than attempts; with a budget of zero or less, no attempt, no sleep and no exit |
| Retry.RetryLoop | pat_helper.py:103-118 | the `for _ in range(MAX_ATTEMPTS)` loop with `break` and `sys.exit`, which counts attempts and sleeps, ends exactly as `Poll` says |
| Retry.SettlesAt | pat_helper.py:103-118 | "not ready" up to attempt j-1 and a decisive attempt j within the budget: exactly j attempts, j-1 sleeps, and the loop ends as attempt j says |
| Retry.GivesUp | pat_helper.py:113-118 | "not ready" on every attempt: max attempts, max-1 sleeps (none after the last) and exit 127 |
| Retry.EndsOnLastAttempt | pat_helper.py:103-118 | conversely, every attempt before the last was "not ready", and the last one decides: success leaves normally, a fatal answer exits with its code, "not ready" happens only at the end of the budget and exits 127 |
| Retry.NoFatalStepExitsOnlyOnGiveUp | pat_helper.py:103-118 | a loop whose attempts are never fatal leaves normally or exits 127 |
| Directory.HostTally | pat_helper.py:100-118 | `test_password(host)`: the retry loop over binds with the host, port, DN and password, with a fresh budget; its outcomes are stated by `BindNeverFatal` and the `Retry` lemmas |
| Directory.Probes | pat_helper.py:231-232 | `for ldap_host in LDAP_HOSTS: test_password(ldap_host)`, stopping at the first host that exits; its meaning is stated by `ProbesInOrder` |
| Directory.ClassifyBind | pat_helper.py:104-111 | a bind that returns true ends the loop; false and an exception are both "not yet valid"; nothing is fatal |
| Directory.BindNeverFatal | pat_helper.py:104-118 | whatever the binds return or raise, the probe of one host leaves normally or exits 127 |
| Directory.RaisedActsAsRejected | pat_helper.py:104-111 | two bind sequences that agree on which attempts succeed give the same tally, so raising and rejecting are the same |
| Directory.ProbesInOrder | pat_helper.py:229-232 | the walk probes a prefix of the hosts in list order, each with its own budget; every probed host but the last passed; it stops early only after a host that exited |
| Directory.ProbesStopAtExhaustedHost | pat_helper.py:229-232 | if host i is the first that fails, it is the last probed, it exited 127, and no later host is tried |
| Directory.ProbesReachEveryPassingHost | pat_helper.py:229-232 | if every host passes, every host is probed |
| Stash.CreateRequest | pat_helper.py:128-140 | the PUT to `TokensUrl` with basic auth and the JSON body: the token name, the fixed permissions `REPO_WRITE` and `PROJECT_WRITE`, and the validity in days; `CreatePat` states that it is the request sent on every attempt |
| Stash.RevokeRequest | pat_helper.py:182 | the DELETE to `TokenUrl` with basic auth; `RevokePat` states that it is the request sent on every attempt |
| Stash.ClassifyCreate | pat_helper.py:141-149 | 200 is success, 401 is retry, and any other status is fatal with exit 63 |
| Stash.ClassifyRevoke | pat_helper.py:183-191 | 204 is success, 401 is retry, and any other status is fatal with exit 62 |
| Stash.Validate | pat_helper.py:158-174 | the ordered checks, each case exactly when it happens: undecodable body exits 32, a non-object body raises (exit 1), falsy or missing `token` exits 31, then falsy or missing `id` exits 30; otherwise the token is the body's `token` and `id` |
| Stash.Issue | pat_helper.py:138-174 | a token `create_pat` keeps has a truthy secret and id |
| Stash.CreateSucceedsAt | pat_helper.py:139-174 | 401 up to attempt j-1 and 200 on attempt j: j attempts, j-1 sleeps, and the result is the validation of that response, never retried |
| Stash.CreateAbortsAt | pat_helper.py:143-149 | a status other than 200 or 401 on attempt j exits 63 on that attempt, with no sleep after it |
| Stash.CreateGivesUp | pat_helper.py:151-156 | 401 on every attempt: max attempts, max-1 sleeps, exit 127 |
| Stash.CreateWithoutBudget | pat_helper.py:138-162 | a budget of zero or less sends nothing and exits 32 |
| Stash.IssueExitCodes | pat_helper.py:139-169 | when every request returns a response, `create_pat` fails only with 127, 63, 32, 31 or 30, or with the uncaught exception of a body that is not an object |
| Stash.RevokeSucceedsAt | pat_helper.py:181-198 | 401 up to attempt j-1 and 204 on attempt j: j attempts, j-1 sleeps, no exit |
| Stash.RevokeAbortsAt | pat_helper.py:185-191 | a status other than 204 or 401 on attempt j exits 62 on that attempt, with no sleep after it |
| Stash.RevokeGivesUp | pat_helper.py:193-198 | 401 on every attempt: max attempts, max-1 sleeps, exit 127 |
| Stash.RevokeOutcomes | pat_helper.py:181-200 | when every request returns a response, `revoke_pat` leaves normally or exits 62 or 127; leaving normally means the last DELETE got 204, or none was sent |
| PatHelper.Helper.constructor | pat_helper.py:27-39 | the globals' initial values |
| PatHelper.Helper.ParseEnv | pat_helper.py:54-75 | exit 255 unless username, password and base_url are set; otherwise the globals hold them (base URL right-stripped), the token path is left-stripped when set, and the three numbers are `int()` of their variables when set or keep their defaults; on an exit, exactly the variables read before it were assigned |
| PatHelper.Helper.GetPatId | pat_helper.py:78-80 | `PAT_ID` becomes `pat_id`, or exit 255 with `PAT_ID` unchanged |
| PatHelper.Helper.GetLdapVars | pat_helper.py:83-97 | exit 255 unless ldap_path and ldap_hosts are set; otherwise the host list is the comma split, the port is `ldap_port` when set, and `USER_LDAP` is `CN=<user>,<path>` |
| PatHelper.Helper.TestPassword | pat_helper.py:100-118 | the bind loop against one host with the configured port, DN and password; when every bind returns or raises, it leaves normally or exits 127 |
| PatHelper.Helper.ProbeHosts | pat_helper.py:229-232 | the loop over the hosts gives the walk `Probes`; it leaves normally exactly when every probed host passed, and then every host was probed; otherwise it exits 127 |
| PatHelper.Helper.CreatePat | pat_helper.py:128-176 | the PUT request to `<host>/<path>/<user>` with the token name, the fixed permissions and the validity; the loop's tally; the exit as `Issue` says; and `PAT`, `PAT_ID` set from the body on success and unchanged otherwise |
| PatHelper.Helper.RevokePat | pat_helper.py:179-203 | the DELETE request to `<host>/<path>/<user>/<id>`; the loop's tally and exit; `PAT` becomes exactly `'revoked'` when the loop leaves normally; `PAT_ID` never changes |
| PatHelper.Helper.CheckPassword | pat_helper.py:229-232 | `get_ldap_vars()` then the host walk: exit 255 with no bind when ldap_path or ldap_hosts is missing; otherwise the split hosts, the optional port, the DN, the probes equal to `Probes`, and a normal end exactly when every probe passed, else exit 127 |
| PatHelper.Helper.Run | pat_helper.py:229-237 | the LDAP check when asked for; the request loop runs exactly when no probe exited (else exit 127 or 255); then create or revoke with the request built from the globals, its tally, its exit, and `PAT`/`PAT_ID` as `CreatePat` and `RevokePat` state |
| PatHelper.Configure | pat_helper.py:224-227 | exit 255 unless the required variables (and `pat_id` in revoke mode) are set; otherwise the globals hold the parsed configuration (`Parsed`: credentials, stripped host and token path, `int()` of the budget and validity or their defaults), `PAT` is unset and `PAT_ID` is `pat_id` in revoke mode |
| PatHelper.Execute | pat_helper.py:224-237 | a missing variable exits 255 before anything is sent; otherwise the globals are `Parsed` from the environment (and the LDAP port is `ldap_port` or 389); with the LDAP check, the hosts are probed in order, and create or revoke runs exactly when no probe exited, otherwise the run exits 127; then exactly one of create and revoke runs, with the results `CreatePat` and `RevokePat` state |

## Left out

- The HTTP transport (`requests.put`, `requests.delete`, basic auth) and the LDAP connection and simple bind (`ldap3`). Both are oracles from a request and an attempt number to an outcome. As a result, two hosts with the same name in the list see the same bind answers.
- `time.sleep`: sleeps are counted. `WAIT_BETWEEN_ATTEMPTS` is parsed but its duration is not modelled.
- `argparse`: the mode and the LDAP-check flag are parameters of `Execute`.
- Building the LDAP `Server` and `Connection` (pat_helper.py:101-102) happens outside the `try`. Anything those constructors raise ends `test_password` uncaught, and this is not modelled: the directory oracle covers only binds that return or raise.
- A request that raises (a connection error, a time-out) is not modelled: the server oracle always returns a response. In the script such an exception propagates uncaught from `requests.put` or `requests.delete`.
- Python's `int()` is the `toInt` parameter. A value `int()` rejects (it raises) is not modelled.
- `LDAP_PORT`: its default is the integer 389, while a set `ldap_port` stays a string. The model keeps it as text (`"389"` by default), because it is only passed on to the LDAP library.
- JSON decoding itself: a body is undecodable, an object, or another JSON value. JSON numbers are integers here, so the truth value of a float is not modelled.
- `print_outputs` (`urllib.parse.quote`, the `::add-mask::`, `::set-output::` and `::save-state::` lines) and every progress `print`.
- The process exit status after an uncaught exception is taken to be 1, as CPython sets it.

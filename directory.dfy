/** The LDAP probe of `test_password`: repeated simple binds of the user's
    distinguished name against one host, and the walk over the configured
    hosts in the main block. The directory is an oracle: `directory(r)(k)`
    is what bind attempt `k` with request `r` returns or raises. */
module Directory {
  import opened Values
  import opened Retry

  /** One bind attempt: `connection.bind()` returned true, returned false,
      or raised. */
  datatype BindOutcome = Bound | Rejected | Raised

  /** The connection `test_password` opens: host, port, DN and password. */
  datatype BindRequest = BindRequest(host: string, port: string, dn: string, password: string)

  /** A successful bind ends the loop; a rejected bind and an exception are
      both "not yet valid", and nothing is fatal. */
  function ClassifyBind(b: BindOutcome): (s: Step)
    ensures s == Ready <==> b == Bound
    ensures !s.Fatal?
  {
    if b == Bound then Ready else NotReady
  }

  function BindSteps(binds: nat -> BindOutcome): nat -> Step {
    (k: nat) => ClassifyBind(binds(k))
  }

  /** `test_password(host)`, with a fresh budget for the host. */
  function HostTally(directory: BindRequest -> nat -> BindOutcome, host: string, port: string,
                     dn: string, password: string, max: int): Tally
  {
    Poll(BindSteps(directory(BindRequest(host, port, dn, password))), max, 0)
  }

  /** No sequence of bind outcomes makes the probe exit with anything but
      127: an exception is never fatal. */
  lemma BindNeverFatal(binds: nat -> BindOutcome, max: int)
    ensures Poll(BindSteps(binds), max, 0).outcome in {Proceed, Exit(GiveUp)}
  {
    var steps := BindSteps(binds);
    forall k: nat ensures !steps(k).Fatal? {
      assert steps(k) == ClassifyBind(binds(k));
    }
    NoFatalStepExitsOnlyOnGiveUp(steps, max);
  }

  /** A bind that raises is handled exactly like a rejected one: two
      directories that agree on which attempts bind give the same tally. */
  lemma RaisedActsAsRejected(b1: nat -> BindOutcome, b2: nat -> BindOutcome, max: int)
    requires forall k :: b1(k) == Bound <==> b2(k) == Bound
    ensures Poll(BindSteps(b1), max, 0) == Poll(BindSteps(b2), max, 0)
  {
    PollRespectsSteps(BindSteps(b1), BindSteps(b2), max, 0);
  }

  /** `for ldap_host in LDAP_HOSTS: test_password(ldap_host)`: the tallies of
      the hosts probed, in list order, each with its own budget; the walk
      stops after the first host that exits. */
  function Probes(directory: BindRequest -> nat -> BindOutcome, hosts: seq<string>, port: string,
                  dn: string, password: string, max: int): seq<Tally>
  {
    if hosts == [] then []
    else
      var t := HostTally(directory, hosts[0], port, dn, password, max);
      if t.outcome.Exit? then [t]
      else [t] + Probes(directory, hosts[1..], port, dn, password, max)
  }

  /** The walk probes a prefix of the host list in order, each host with a
      fresh budget; every host but the last probed passed, and the walk
      stops early only after a host that exited. */
  lemma {:induction false} ProbesInOrder(directory: BindRequest -> nat -> BindOutcome, hosts: seq<string>,
                                         port: string, dn: string, password: string, max: int)
    ensures var r := Probes(directory, hosts, port, dn, password, max);
      && |r| <= |hosts|
      && (forall k :: 0 <= k < |r| ==> r[k] == HostTally(directory, hosts[k], port, dn, password, max))
      && (forall k :: 0 <= k < |r| - 1 ==> r[k].outcome == Proceed)
      && (|r| < |hosts| ==> r != [] && r[|r| - 1].outcome.Exit?)
  {
    if hosts != [] {
      ProbesInOrder(directory, hosts[1..], port, dn, password, max);
    }
  }

  /** The walk from host k on: probe host k, then stop or go on. */
  lemma ProbesFrom(directory: BindRequest -> nat -> BindOutcome, hosts: seq<string>, port: string,
                   dn: string, password: string, max: int, k: nat)
    requires k < |hosts|
    ensures var t := HostTally(directory, hosts[k], port, dn, password, max);
      Probes(directory, hosts[k..], port, dn, password, max) ==
        if t.outcome.Exit? then [t] else [t] + Probes(directory, hosts[k + 1..], port, dn, password, max)
  {
    assert hosts[k..][0] == hosts[k];
    assert hosts[k..][1..] == hosts[k + 1..];
  }

  /** If the hosts before host i pass and host i does not, host i is the
      last one probed, it exhausted its budget (exit 127), and no later
      host is tried. */
  lemma ProbesStopAtExhaustedHost(directory: BindRequest -> nat -> BindOutcome, hosts: seq<string>,
                                  port: string, dn: string, password: string, max: int, i: nat)
    requires i < |hosts|
    requires forall k :: 0 <= k < i ==> HostTally(directory, hosts[k], port, dn, password, max).outcome == Proceed
    requires HostTally(directory, hosts[i], port, dn, password, max).outcome != Proceed
    ensures var r := Probes(directory, hosts, port, dn, password, max);
      |r| == i + 1 && r[i].outcome == Exit(GiveUp)
  {
    ProbesInOrder(directory, hosts, port, dn, password, max);
    BindNeverFatal(directory(BindRequest(hosts[i], port, dn, password)), max);
  }

  /** If every host passes, every host is probed. */
  lemma ProbesReachEveryPassingHost(directory: BindRequest -> nat -> BindOutcome, hosts: seq<string>,
                                    port: string, dn: string, password: string, max: int)
    requires forall k :: 0 <= k < |hosts| ==> HostTally(directory, hosts[k], port, dn, password, max).outcome == Proceed
    ensures |Probes(directory, hosts, port, dn, password, max)| == |hosts|
  {
    ProbesInOrder(directory, hosts, port, dn, password, max);
  }
}

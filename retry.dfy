/** The bounded retry loop that pat_helper.py writes out three times
    (`test_password`, `create_pat`, `revoke_pat`): up to MAX_ATTEMPTS
    attempts, a sleep between two attempts and none after the last, leave
    on success, exit at once on a fatal answer, exit 127 when the budget is
    spent. The attempt itself is an oracle: `step(k)` is what attempt `k`
    (counting from 0) tells the loop once its operation has classified it. */
module Retry {
  import opened Values

  /** What one attempt tells the loop. */
  datatype Step = Ready | NotReady | Fatal(code: int)

  /** What the loop did: the attempts it made, the sleeps it took, and
      whether it left normally or exited the process. */
  datatype Tally = Tally(attempts: nat, sleeps: nat, outcome: Outcome)

  /** Exit code when every attempt of the budget was "not ready". */
  const GiveUp := 127

  /** The loop `for _ in range(max)` from attempt `i` on. A budget of zero
      or less runs no attempt and leaves normally. */
  function Poll(step: nat -> Step, max: int, i: nat): (t: Tally)
    ensures i < max ==> 1 <= t.attempts <= max - i && t.sleeps == t.attempts - 1
    ensures max <= i ==> t == Tally(0, 0, Proceed)
    decreases max - i
  {
    if max <= i then Tally(0, 0, Proceed)
    else
      match step(i)
      case Ready => Tally(1, 0, Proceed)
      case Fatal(c) => Tally(1, 0, Exit(c))
      case NotReady =>
        if i == max - 1 then Tally(1, 0, Exit(GiveUp))
        else
          var rest := Poll(step, max, i + 1);
          Tally(rest.attempts + 1, rest.sleeps + 1, rest.outcome)
  }

  /** The loop itself, counting attempts and sleeps as it goes. */
  method RetryLoop(step: nat -> Step, max: int) returns (t: Tally)
    ensures t == Poll(step, max, 0)
  {
    var attempts, sleeps := 0, 0;
    var i: nat := 0;
    while i < max
      invariant i == 0 || i <= max
      invariant attempts == i && sleeps == i
      invariant var rest := Poll(step, max, i);
        Poll(step, max, 0) == Tally(rest.attempts + i, rest.sleeps + i, rest.outcome)
    {
      attempts := attempts + 1;
      match step(i) {
        case Ready => return Tally(attempts, sleeps, Proceed);
        case Fatal(c) => return Tally(attempts, sleeps, Exit(c));
        case NotReady =>
      }
      if i != max - 1 {
        sleeps := sleeps + 1;
      } else {
        return Tally(attempts, sleeps, Exit(GiveUp));
      }
      i := i + 1;
    }
    t := Tally(attempts, sleeps, Proceed);
  }

  /** How an attempt that is not "not ready" ends the loop. */
  function Settle(s: Step): Outcome
    requires s != NotReady
  {
    if s == Ready then Proceed else Exit(s.code)
  }

  /** If attempts i .. j-2 are "not ready" and attempt j-1 is not, with
      j within the budget, the loop makes exactly j - i attempts, sleeps
      once fewer, and ends as attempt j-1 says. */
  lemma {:induction false} SettlesAt(step: nat -> Step, max: int, i: nat, j: nat)
    requires i < j <= max
    requires forall k :: i <= k < j - 1 ==> step(k) == NotReady
    requires step(j - 1) != NotReady
    ensures Poll(step, max, i) == Tally(j - i, j - i - 1, Settle(step(j - 1)))
    decreases j - i
  {
    if i < j - 1 {
      SettlesAt(step, max, i + 1, j);
    }
  }

  /** If every attempt from i to the end of the budget is "not ready", the
      loop uses the whole budget, sleeps once fewer (never after the last
      attempt) and exits 127. */
  lemma {:induction false} GivesUp(step: nat -> Step, max: int, i: nat)
    requires i < max
    requires forall k :: i <= k < max ==> step(k) == NotReady
    ensures Poll(step, max, i) == Tally(max - i, max - i - 1, Exit(GiveUp))
    decreases max - i
  {
    if i < max - 1 {
      GivesUp(step, max, i + 1);
    }
  }

  /** The converse: whatever the loop does, the attempts before its last
      one were all "not ready", and the last one decides how it ends. */
  lemma {:induction false} EndsOnLastAttempt(step: nat -> Step, max: int, i: nat)
    requires i < max
    ensures var t := Poll(step, max, i);
      var last := i + t.attempts - 1;
      && (forall k :: i <= k < last ==> step(k) == NotReady)
      && (step(last) == Ready ==> t.outcome == Proceed)
      && (step(last).Fatal? ==> t.outcome == Exit(step(last).code))
      && (step(last) == NotReady ==> last == max - 1 && t.outcome == Exit(GiveUp))
    decreases max - i
  {
    if step(i) == NotReady && i != max - 1 {
      EndsOnLastAttempt(step, max, i + 1);
    }
  }

  /** A loop whose attempts are never fatal leaves normally or exits 127. */
  lemma NoFatalStepExitsOnlyOnGiveUp(step: nat -> Step, max: int)
    requires forall k :: !step(k).Fatal?
    ensures Poll(step, max, 0).outcome == Proceed || Poll(step, max, 0).outcome == Exit(GiveUp)
  {
    if 0 < max {
      EndsOnLastAttempt(step, max, 0);
    }
  }

  /** The loop depends on nothing but what its attempts say. */
  lemma {:induction false} PollRespectsSteps(s1: nat -> Step, s2: nat -> Step, max: int, i: nat)
    requires forall k :: s1(k) == s2(k)
    ensures Poll(s1, max, i) == Poll(s2, max, i)
    decreases max - i
  {
    if i < max - 1 {
      PollRespectsSteps(s1, s2, max, i + 1);
    }
  }
}

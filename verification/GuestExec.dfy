/** guestexec.run: start a guest process once and wait for it within a deadline. */
module GuestExec {
  import opened Wrappers

  /** What guest-exec-status says of an exited command. */
  datatype ExecResult = ExecResult(exitCode: Option<int>, signal: Option<int>, stdout: string)

  /** agent.poll: PidGone is the AgentError that denies the pid, Raised any other exception. */
  datatype PollReply = NotExited | Exited(result: ExecResult) | PidGone | Raised

  datatype Outcome = Finished(result: ExecResult) | TimedOut | Failed

  function Positive(x: real): real {
    if x < 0.0 then 0.0 else x
  }

  function Min(x: real, y: real): real {
    if x < y then x else y
  }

  lemma MinIsOne(x: real, y: real)
    ensures Min(x, y) in {x, y} && Min(x, y) <= x && Min(x, y) <= y
  {
  }

  /** The time a call takes and how it fares. */
  datatype Event = Event(takes: real, stop: bool, pid: Option<nat>, poll: PollReply)

  /** A result that poll returned, and when it had it. */
  datatype Receipt = Receipt(result: ExecResult, at: real)

  /** What run does, in order: it asks whether to stop, and calls at these instants. */
  datatype Act = Checked(stop: bool) | LaunchAt(at: real) | PollAt(at: real) | NapAt(at: real, seconds: real)

  /**
   * Every call comes straight after a check that said no. The agent is called before the deadline
   * only, and each nap lasts the whole interval, or until the deadline if that is sooner.
   */
  ghost predicate Disciplined(acts: seq<Act>, deadline: real, interval: real) {
    forall i :: 0 <= i < |acts| ==> acts[i].Checked? || (i > 0 && acts[i - 1] == Checked(false) && Timely(acts[i], deadline, interval))
  }

  predicate Timely(a: Act, deadline: real, interval: real) {
    match a
    case Checked(_) => true
    case LaunchAt(at) => at < deadline
    case PollAt(at) => at < deadline
    case NapAt(at, seconds) =>
      && (seconds == interval || (0.0 <= seconds < interval && at + seconds >= deadline))
      && (seconds > 0.0 ==> at + seconds <= deadline)
  }

  lemma DisciplinedOn(acts: seq<Act>, a: Act, deadline: real, interval: real)
    requires Disciplined(acts, deadline, interval)
    requires a.Checked? || (acts != [] && acts[|acts| - 1] == Checked(false) && Timely(a, deadline, interval))
    ensures Disciplined(acts + [a], deadline, interval)
  {

    var more := acts + [a];
    assert more[|acts|] == a;
    forall i | 0 <= i < |more|
      ensures more[i].Checked? || (i > 0 && more[i - 1] == Checked(false) && Timely(more[i], deadline, interval))
    {
      if i < |acts| {
        assert more[i] == acts[i];
        assert acts[i].Checked? || (i > 0 && acts[i - 1] == Checked(false) && Timely(acts[i], deadline, interval));
      } else {
        assert more[i] == a;
        assert a.Checked? || more[i - 1] == acts[i - 1];
      }
    }
  }

  lemma NoActs(deadline: real, interval: real)
    ensures Disciplined([], deadline, interval)
  {
  }

  ghost method Extended(before: seq<Act>, acts: seq<Act>, a: Act, deadline: real, interval: real) returns (more: seq<Act>)
    requires Disciplined(acts, deadline, interval)
    requires a.Checked? || (acts != [] && acts[|acts| - 1] == Checked(false) && Timely(a, deadline, interval))
    ensures more == acts + [a] && Disciplined(more, deadline, interval)
    ensures before + acts + [a] == before + more
  {
    DisciplinedOn(acts, a, deadline, interval);
    assert before + acts + [a] == before + (acts + [a]);
    more := acts + [a];
  }

  lemma CallIsTimely(deadline: real, interval: real, at: real)
    requires at < deadline
    ensures Timely(LaunchAt(at), deadline, interval) && Timely(PollAt(at), deadline, interval)
  {
  }

  lemma NapIsTimely(deadline: real, interval: real, now: real)
    requires interval > 0.0
    ensures Timely(NapAt(now, Min(interval, Positive(deadline - now))), deadline, interval)
  {
  }

  /** The clock, the sleep and the guest agent that run is given. */
  class Agent {
    var clock: real
    var launches: nat
    var polls: nat
    var receipts: seq<Receipt>
    var acts: seq<Act>
    /** should_stop said yes; the agent raised. */
    var cancelled: bool
    var raised: bool
    var script: seq<Event>

    constructor (script: seq<Event>)
      ensures this.script == script && launches == 0 && polls == 0 && receipts == [] && acts == [] && !cancelled && !raised
    {
      clock, launches, polls, receipts, acts, this.script := 0.0, 0, 0, [], [], script;
      cancelled, raised := false, false;
    }

    method Pass() returns (e: Event)
      modifies this`clock, this`script
      ensures old(clock) <= clock
    {
      e := Event(0.0, false, None, NotExited);
      if script != [] {
        e, script := script[0], script[1..];
      }
      clock := clock + Positive(e.takes);
    }

    method Now() returns (t: real)
      modifies this`clock, this`script
      ensures old(clock) <= clock == t
    {
      var _ := Pass();
      t := clock;
    }

    method ShouldStop() returns (stop: bool)
      modifies this`clock, this`script, this`cancelled, this`acts
      ensures old(clock) <= clock && cancelled == (old(cancelled) || stop) && acts == old(acts) + [Checked(stop)]
    {
      var e := Pass();
      stop := e.stop;
      acts := acts + [Checked(stop)];
      cancelled := cancelled || stop;
    }

    /** The two checks before every call: nobody asks to stop, and the deadline is not reached. */
    method MayGoOn(deadline: real) returns (go: bool)
      requires !cancelled
      modifies this`clock, this`script, this`cancelled, this`acts
      ensures old(clock) <= clock && acts == old(acts) + [Checked(cancelled)]
      ensures go <==> !cancelled && clock < deadline
    {
      var stop := ShouldStop();
      if stop {
        return false;
      }
      var now := Now();
      go := now < deadline;
    }

    method Start() returns (pid: Option<nat>)
      modifies this`clock, this`script, this`launches, this`raised, this`acts
      ensures acts == old(acts) + [LaunchAt(old(clock))]
      ensures old(clock) <= clock && launches == old(launches) + 1 && raised == (old(raised) || pid.None?)
    {
      acts := acts + [LaunchAt(clock)];
      var e := Pass();
      launches := launches + 1;
      pid := e.pid;
      raised := raised || pid.None?;
    }

    method Poll(pid: nat) returns (r: PollReply)
      modifies this`clock, this`script, this`polls, this`receipts, this`raised, this`acts
      ensures acts == old(acts) + [PollAt(old(clock))]
      ensures old(clock) <= clock && polls == old(polls) + 1 && raised == (old(raised) || r.PidGone? || r.Raised?)
      ensures receipts == if r.Exited? then old(receipts) + [Receipt(r.result, clock)] else old(receipts)
    {
      acts := acts + [PollAt(clock)];
      var e := Pass();
      polls := polls + 1;
      r := e.poll;
      raised := raised || r.PidGone? || r.Raised?;
      if r.Exited? {
        receipts := receipts + [Receipt(r.result, clock)];
      }
    }

    /** A sleep takes at least as long as asked. */
    method Sleep(seconds: real)
      modifies this`clock, this`script, this`acts
      ensures old(clock) + seconds <= clock && acts == old(acts) + [NapAt(old(clock), seconds)]
    {
      acts := acts + [NapAt(clock, seconds)];
      var _ := Pass();
      clock := clock + Positive(seconds);
    }
  }

  /** How long k rounds of sleep take. */
  function Rest(k: nat, interval: real): real {
    k as real * interval
  }

  lemma RestGrows(k: nat, n: nat, interval: real)
    requires interval > 0.0
    ensures Rest(0, interval) == 0.0 && Rest(k + 1, interval) == Rest(k, interval) + interval
    ensures k <= n ==> Rest(k, interval) <= Rest(n, interval)
  {
    assert (k + 1) as real == k as real + 1.0;
    if k <= n {
      Scaled(k as real, n as real, interval);
    }
  }

  lemma Scaled(a: real, b: real, k: real)
    requires k > 0.0
    ensures a <= b ==> a * k <= b * k
    ensures a < b ==> a * k < b * k
  {
  }

  /** ceil(timeout / interval). */
  function Rounds(timeout: real, interval: real): nat
    requires interval > 0.0
  {
    if timeout <= 0.0 then 0
    else
      var x := timeout / interval;
      assert x > 0.0;
      if x.Floor as real == x then x.Floor else x.Floor + 1
  }

  /** The fewest rounds whose sleep uses up the timeout. */
  lemma RoundsSuffice(timeout: real, interval: real)
    requires interval > 0.0
    ensures Rest(Rounds(timeout, interval), interval) >= timeout
    ensures Rounds(timeout, interval) > 0 ==> Rest(Rounds(timeout, interval) - 1, interval) < timeout
  {
    if timeout > 0.0 {
      var x := timeout / interval;
      assert x * interval == timeout;
      Enough(x, Rounds(timeout, interval), interval);
    }
  }

  lemma Enough(x: real, n: nat, interval: real)
    requires interval > 0.0 && n > 0 && (n - 1) as real < x <= n as real
    ensures Rest(n, interval) >= x * interval && Rest(n - 1, interval) < x * interval
  {
    Scaled(x, n as real, interval);
    Scaled((n - 1) as real, x, interval);
  }

  /**
   * run. The process is launched at most once; a result is returned only if it was in hand before
   * the deadline; and there are at most ceil(timeout / interval) polls, so the wait ends.
   */
  method Run(agent: Agent, timeout: real, interval: real) returns (r: Outcome, ghost start: real, ghost acts: seq<Act>)
    requires interval > 0.0 && !agent.cancelled && !agent.raised
    modifies agent
    ensures agent.launches <= old(agent.launches) + 1
    ensures agent.polls <= old(agent.polls) + Rounds(timeout, interval)
    ensures agent.polls > old(agent.polls) || r.Finished? ==> agent.launches == old(agent.launches) + 1
    ensures old(agent.clock) <= start
    // No call without a check before it, none to the agent after the deadline, and no sleep past it.
    ensures agent.acts == old(agent.acts) + acts && Disciplined(acts, start + timeout, interval)
    ensures r.Finished? ==> acts != [] && acts[|acts| - 1] == Checked(false)
    // No other outcome but for a reason: the deadline passed, the caller cancelled, or the agent raised.
    ensures r.TimedOut? ==> agent.cancelled || agent.clock >= start + timeout
    ensures r.Failed? <==> agent.raised
    ensures r.Finished? ==>
              && |agent.receipts| > |old(agent.receipts)|
              && agent.receipts[|agent.receipts| - 1].result == r.result
              && agent.receipts[|agent.receipts| - 1].at < start + timeout
  {
    hide Rest, Rounds, Min, Positive, Disciplined, Timely;
    RoundsSuffice(timeout, interval);
    RestGrows(0, 0, interval);
    var first := agent.Now();
    start := first;
    var deadline := first + timeout;
    acts := [];
    NoActs(deadline, interval);
    var go := agent.MayGoOn(deadline);
    acts := Extended(old(agent.acts), acts, Checked(agent.cancelled), deadline, interval);
    if !go {
      return TimedOut, start, acts;
    }
    ghost var at := agent.clock;
    CallIsTimely(deadline, interval, at);
    var pid := agent.Start();
    acts := Extended(old(agent.acts), acts, LaunchAt(at), deadline, interval);
    if pid.None? {
      return Failed, start, acts;
    }
    ghost var k := 0;
    while true
      invariant agent.launches == old(agent.launches) + 1 && agent.polls == old(agent.polls) + k
      invariant k <= Rounds(timeout, interval)
      invariant first + Rest(k, interval) <= agent.clock || deadline <= agent.clock
      invariant old(agent.clock) <= start == first <= agent.clock
      invariant agent.acts == old(agent.acts) + acts && Disciplined(acts, deadline, interval)
      invariant agent.receipts == old(agent.receipts) && !agent.cancelled && !agent.raised
      decreases Rounds(timeout, interval) - k
    {
      go := agent.MayGoOn(deadline);
      acts := Extended(old(agent.acts), acts, Checked(agent.cancelled), deadline, interval);
      if !go {
        return TimedOut, start, acts;
      }
      RestGrows(Rounds(timeout, interval), k, interval);
      RestGrows(k, k, interval);
      assert k < Rounds(timeout, interval);
      at := agent.clock;
      CallIsTimely(deadline, interval, at);
      var reply := agent.Poll(pid.value);
      acts := Extended(old(agent.acts), acts, PollAt(at), deadline, interval);
      k := k + 1;
      if reply.PidGone? || reply.Raised? {
        return Failed, start, acts;
      }
      go := agent.MayGoOn(deadline);
      acts := Extended(old(agent.acts), acts, Checked(agent.cancelled), deadline, interval);
      if !go {
        return TimedOut, start, acts;
      }
      if reply.Exited? {
        return Finished(reply.result), start, acts;
      }
      var now := agent.Now();
      MinIsOne(interval, Positive(deadline - now));
      NapIsTimely(deadline, interval, now);
      agent.Sleep(Min(interval, Positive(deadline - now)));
      acts := Extended(old(agent.acts), acts, NapAt(now, Min(interval, Positive(deadline - now))), deadline, interval);
    }
  }
}

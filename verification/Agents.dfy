/** The guests, their agents and the clock, as observer.py meets them. */
module Agents {
  import opened Wrappers
  import Meta
  import opened GuestExec

  /** A status command that runs in guest u; its guest-side timeout ends it within four seconds. */
  datatype Job = Job(u: string, pid: nat, at: real)

  /** What happens around the next call: time passes, commands end, and the call fares so. */
  datatype Event = Event(before: real, after: real, ended: set<Job>, launched: bool, replied: bool, pid: nat, poll: PollReply,
                         stop: bool)

  const STATUS_LIFETIME := 4.0

  datatype Ask =
    | Update(u: string, generation: nat, state: Meta.State, error: Option<string>, expected: Meta.State)
    | CleanUp(u: string, generation: nat, state: Meta.State)

  /** Jobs neither start by themselves nor outlive their timeout. */
  ghost predicate Passes(clock: real, alive: set<Job>, clock': real, alive': set<Job>) {
    clock <= clock' && alive' <= alive && forall j :: j in alive' ==> clock' < j.at + STATUS_LIFETIME
  }

  /** One command of u may have been added, at the given instant. */
  ghost predicate MayRun(clock: real, alive: set<Job>, clock': real, alive': set<Job>, u: string, at: real, pid: Option<nat>) {
    && clock <= at <= clock'
    && (forall j :: j in alive' ==> j in alive || (j.u == u && j.at == at && (pid.Some? ==> j.pid == pid.value)))
    && (forall i, j :: i in alive' && j in alive' && i !in alive && j !in alive ==> i == j)
  }

  /** What the agents answered, in order: a submission at the given instant, and its pid if the reply came, or a poll. */
  datatype Answer = Submitted(u: string, got: Option<nat>, at: real) | Polled(u: string, pid: nat, reply: PollReply)

  /** What was sent to get an answer. */
  datatype Contact = Submit(u: string) | Query(u: string, pid: nat)

  function Sent(a: Answer): Contact {
    match a
    case Submitted(u, _, _) => Submit(u)
    case Polled(u, pid, _) => Query(u, pid)
  }

  function Contacts(answers: seq<Answer>): (sent: seq<Contact>)
    ensures |sent| == |answers|
  {
    seq(|answers|, i requires 0 <= i < |answers| => Sent(answers[i]))
  }

  lemma ContactsMore(answers: seq<Answer>, more: seq<Answer>)
    ensures Contacts(answers + more) == Contacts(answers) + Contacts(more)
  {
  }

  class World {
    var clock: real
    var alive: set<Job>
    var asked: seq<Ask>
    var answers: seq<Answer>
    /** The stop event, which nothing clears. */
    var stopped: bool
    var script: seq<Event>

    ghost predicate Valid() reads this {
      forall j :: j in alive ==> j.at <= clock < j.at + STATUS_LIFETIME
    }

    constructor (script: seq<Event>)
      ensures Valid() && alive == {} && asked == [] && answers == [] && !stopped && this.script == script
    {
      clock, alive, asked, answers, stopped, this.script := 0.0, {}, [], [], false, script;
    }

    method Wait(seconds: real, ended: set<Job>)
      requires Valid()
      modifies this`clock, this`alive
      ensures Valid() && Passes(old(clock), old(alive), clock, alive)
    {
      clock := clock + Positive(seconds);
      alive := set j | j in alive && j !in ended && clock < j.at + STATUS_LIFETIME;
    }

    method NextEvent() returns (e: Event)
      modifies this`script
    {
      if script == [] {
        return Event.Event(0.0, 0.0, {}, true, true, 0, NotExited, false);
      }
      e, script := script[0], script[1..];
    }

    /** time.monotonic. */
    method Now() returns (t: real)
      requires Valid()
      modifies this`clock, this`alive, this`script
      ensures Valid() && Passes(old(clock), old(alive), clock, alive) && t == clock
    {
      var e := NextEvent();
      Wait(e.before, e.ended);
      t := clock;
    }

    /** agent.start: the command may run although no pid comes back. */
    method Start(u: string) returns (pid: Option<nat>, ghost at: real)
      requires Valid()
      modifies this`clock, this`alive, this`script, this`answers
      ensures answers == old(answers) + [Submitted(u, pid, at)]
      ensures Valid() && MayRun(old(clock), old(alive), clock, alive, u, at, pid)
    {
      var e := NextEvent();
      Wait(e.before, e.ended);
      var when := clock;
      at := when;
      if e.launched {
        alive := alive + {Job(u, e.pid, clock)};
      }
      Wait(e.after, e.ended);
      pid := if e.launched && e.replied then Some(e.pid) else None;
      answers := answers + [Submitted(u, pid, when)];
    }

    /** agent.poll: a result, or an AgentError that denies the pid, means that the command is gone. */
    method Poll(u: string, pid: nat) returns (r: PollReply)
      requires Valid()
      modifies this`clock, this`alive, this`script, this`answers
      ensures Valid() && Passes(old(clock), old(alive), clock, alive)
      ensures answers == old(answers) + [Polled(u, pid, r)]
      ensures r.Exited? || r.PidGone? ==> forall j :: j in alive ==> !(j.u == u && j.pid == pid)
    {
      var e := NextEvent();
      Wait(e.before, e.ended);
      r := e.poll;
      if r.Exited? || r.PidGone? {
        alive := set j | j in alive && !(j.u == u && j.pid == pid);
      }
      Wait(e.after, e.ended);
      answers := answers + [Polled(u, pid, r)];
    }

    /** A call to the node manager, which may raise. */
    method Request(ask: Ask) returns (ok: bool)
      requires Valid()
      modifies this`clock, this`alive, this`script, this`asked
      ensures Valid() && Passes(old(clock), old(alive), clock, alive) && asked == old(asked) + [ask]
    {
      var e := NextEvent();
      asked := asked + [ask];
      Wait(e.before, e.ended);
      ok := e.replied;
    }

    method Stopping() returns (stop: bool)
      modifies this`script, this`stopped
      ensures stop == stopped && (old(stopped) ==> stopped)
    {
      var e := NextEvent();
      stopped := stopped || e.stop;
      stop := stopped;
    }
  }
}

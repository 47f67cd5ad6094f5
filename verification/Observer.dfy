/** observer.py: one status command per node at a time, and evidence that is fresh, matched and current. */
module Observer {
  import opened Wrappers
  import opened Names
  import Meta
  import Saga
  import Status
  import Rotation
  import opened GuestExec
  import opened Agents
  import opened Evidence

  // ----- one observation --------------------------------------------------------------

  /** One node as the observer has it: its entry, its evidence, and the time. */
  datatype View = View(entry: Option<Pending>, seen: Option<Observation>, clock: real)

  /** What is sent to u's agent, given its entry. */
  function ContactFor(u: string, entry: Option<Pending>): seq<Contact> {
    match entry
    case None => [Submit(u)]
    case Some(p) => if p.pid.None? then [] else [Query(u, p.pid.value)]
  }

  function TagsFor(node: Node, entry: Option<Pending>, said: seq<Answer>): seq<Tag> {
    if said == [] then [] else [Tag(if entry.None? then node.generation else entry.value.generation, node.generation)]
  }

  /** The answer is the result of a command of the node's own generation, and means a status. */
  predicate Understood(node: Node, entry: Option<Pending>, said: seq<Answer>)
    requires Hex32(node.uuid)
  {
    && entry.Some? && entry.value.generation == node.generation && |said| == 1
    && said[0].Polled? && said[0].reply.Exited? && Meaning(node.uuid, said[0].reply.result).Some?
  }

  function StatusIn(node: Node, entry: Option<Pending>, said: seq<Answer>): Status.GuestStatus
    requires Hex32(node.uuid) && Understood(node, entry, said)
  {
    Meaning(node.uuid, said[0].reply.result).value
  }

  function NewEvidence(node: Node, at: real, status: Status.GuestStatus): Observation {
    Observation(node.generation, at, Some(status), ProgressOf(status))
  }

  /** The durable change the answer calls for. */
  function Prompt(node: Node, entry: Option<Pending>, said: seq<Answer>): Option<Ask>
    requires Hex32(node.uuid)
  {
    if Understood(node, entry, said) && StatusIn(node, entry, said).nodeUuid != "" && CallsFor(node, StatusIn(node, entry, said))
    then Some(ChangeFor(node, StatusIn(node, entry, said)))
    else None
  }

  /** What becomes of the entry. */
  predicate EntryAfter(node: Node, v: View, v': View, said: seq<Answer>) {
    match v.entry
    case None =>
      && v'.entry.Some? && v'.entry.value.generation == node.generation && v.clock <= v'.entry.value.at <= v'.clock
      && |said| == 1 && said[0].Submitted? && v'.entry.value.pid == said[0].got
      && (if said[0].got.Some? then v'.entry.value.at <= said[0].at else said[0].at <= v'.entry.value.at)
    case Some(p) =>
      if p.pid.None? then v'.entry == if v'.clock - p.at < STATUS_LIFETIME then v.entry else None
      else
        && |said| == 1 && said[0].Polled?
        && v'.entry == if said[0].reply.Exited? || said[0].reply.PidGone? then None else v.entry
  }

  /** An attempt that raises nothing: evidence changes only for a timeout or a result of this generation. */
  predicate Settled(node: Node, v: View, v': View, said: seq<Answer>, staleAfter: real, timeout: nat)
    requires Hex32(node.uuid) && EntryAfter(node, v, v', said)
  {
    match v.entry
    case None => said[0].got.Some? && v'.seen == v.seen
    case Some(p) =>
      if p.pid.None? then v'.seen == v.seen
      else
        match said[0].reply
        case NotExited =>
          var limit := STATUS_LIFETIME + timeout as real;
          && (v'.seen == v.seen || (Blanked(node, v, v', Some(Progress.TimedOut)) && v'.seen.value.at - p.at >= limit))
          && (v.clock - p.at >= limit ==> Blanked(node, v, v', Some(Progress.TimedOut)))
        case Exited(result) =>
          if p.generation != node.generation then v'.seen == v.seen
          else
            && v.clock - p.at < staleAfter && Understood(node, v.entry, said)
            && v'.seen == Some(NewEvidence(node, p.at, StatusIn(node, v.entry, said)))
        case _ => false
  }

  /** What an attempt may raise for. */
  predicate Refused(node: Node, v: View, v': View, said: seq<Answer>, staleAfter: real)
    requires Hex32(node.uuid) && EntryAfter(node, v, v', said)
  {
    match v.entry
    case None => said[0].got.None?
    case Some(p) =>
      && p.pid.Some? && !said[0].reply.NotExited?
      && (said[0].reply.Exited? ==>
            && p.generation == node.generation
            && (Understood(node, v.entry, said) && v'.clock - p.at < staleAfter ==> Prompt(node, v.entry, said).Some?))
  }

  /** The manager is asked for the change the answer calls for, unless it grew old, and for nothing else. */
  predicate Answered(node: Node, v: View, v': View, said: seq<Answer>, before: seq<Ask>, after: seq<Ask>, staleAfter: real)
    requires Hex32(node.uuid)
  {
    var ask := Prompt(node, v.entry, said);
    && (after == before || (ask.Some? && after == before + [ask.value]))
    && (ask.Some? && v'.clock - v.entry.value.at < staleAfter ==> after != before)
    && (ask.Some? && v.clock - v.entry.value.at >= staleAfter ==> after == before)
  }

  /** The evidence became an observation without a status, made just now. */
  predicate Blanked(node: Node, v: View, v': View, progress: Option<Progress>) {
    && v'.seen.Some? && v.clock <= v'.seen.value.at <= v'.clock
    && v'.seen.value == Observation(node.generation, v'.seen.value.at, None, progress)
  }

  /** An observation from beginning to end, by what was said to the agent and what came back. */
  predicate Concluded(node: Node, v: View, v': View, said: seq<Answer>, staleAfter: real, timeout: nat)
    requires Hex32(node.uuid)
  {
    && Contacts(said) == ContactFor(node.uuid, v.entry)
    && EntryAfter(node, v, v', said)
    && (Settled(node, v, v', said, staleAfter, timeout)
        || (Refused(node, v, v', said, staleAfter) && Blanked(node, v, v', Some(GuestUnknown))))
  }

  /**
   * Once a poll raised, or brought a result of the node's own generation, the node has a status
   * only if that very result means it, and it is dated by the command's launch.
   */
  lemma StatusIsTheResult(node: Node, v: View, v': View, said: seq<Answer>, staleAfter: real, timeout: nat)
    requires Hex32(node.uuid) && Concluded(node, v, v', said, staleAfter, timeout)
    requires v.entry.Some? && v.entry.value.pid.Some? && !said[0].reply.NotExited?
    requires said[0].reply.Exited? ==> v.entry.value.generation == node.generation
    ensures v'.seen.Some? && v'.seen.value.generation == node.generation
    ensures v'.seen.value.status.Some? ==>
              && said[0] == Polled(node.uuid, v.entry.value.pid.value, said[0].reply) && said[0].reply.Exited?
              && Meaning(node.uuid, said[0].reply.result) == v'.seen.value.status
              && v'.seen.value.at == v.entry.value.at && v.clock - v.entry.value.at < staleAfter
  {
    hide Meaning, ProgressOf;
    assert Contacts(said)[0] == Sent(said[0]);
  }

  /** min(2, max(1, int(qga_timeout_s))). */
  function AgentTimeout(seconds: real): (t: nat)
    ensures t == if seconds < 2.0 then 1 else 2
  {
    if seconds < 1.0 || seconds.Floor < 1 then 1 else if seconds.Floor > 2 then 2 else seconds.Floor
  }

  class Observer {
    const staleAfter: real
    const timeout: nat
    var observations: map<string, Observation>
    var pending: map<string, Pending>
    var cursor: nat
    /** For each answer, the generation it belongs to and the node's when it came. */
    ghost var tags: seq<Tag>
    ghost var dropped: set<string>

    ghost function State(w: World): Ledger reads this, w {
      Ledger(observations, pending, w.answers, tags, dropped)
    }

    ghost function ViewOf(w: World, u: string): View reads this, w {
      View(Lookup(pending, u), Lookup(observations, u), w.clock)
    }

    ghost predicate ValidBut(w: World, but: Option<string>) reads this, w {
      w.Valid() && |tags| == |w.answers| && Sound(State(w), w.clock, w.alive, but)
    }

    ghost predicate Valid(w: World) reads this, w {
      ValidBut(w, None)
    }

    constructor (w: World, staleAfter: real, qgaTimeout: real)
      requires w.Valid()
      ensures Valid(w) && observations == map[] && pending == map[] && cursor == 0
      ensures dropped == set j | j in w.alive :: j.u
      ensures this.staleAfter == staleAfter && this.timeout == AgentTimeout(qgaTimeout)
    {
      this.staleAfter, this.timeout := staleAfter, AgentTimeout(qgaTimeout);
      observations, pending, cursor := map[], map[], 0;
      tags, dropped := seq(|w.answers|, _ => Tag(0, 0)), set j | j in w.alive :: j.u;
    }

    method Now(w: World, ghost but: Option<string>) returns (t: real)
      requires ValidBut(w, but)
      modifies w`clock, w`alive, w`script
      ensures ValidBut(w, but) && Passes(old(w.clock), old(w.alive), w.clock, w.alive) && t == w.clock
    {
      hide Sound;
      t := w.Now();
      TimePasses(State(w), old(w.clock), old(w.alive), w.clock, w.alive, but);
    }

    /** Submit a status command, keeping an entry for it whatever the reply. */
    method Launch(w: World, node: Node) returns (ok: bool, ghost said: Answer)
      requires Valid(w) && Hex32(node.uuid) && node.uuid !in pending
      modifies this`pending, this`tags, w`clock, w`alive, w`script, w`answers
      ensures ValidBut(w, if ok then None else Some(node.uuid)) && pending - {node.uuid} == old(pending)
      ensures w.answers == old(w.answers) + [said] && tags == old(tags) + [Tag(node.generation, node.generation)]
      ensures said.Submitted? && said.u == node.uuid && said.got.Some? == ok
      ensures EntryAfter(node, old(ViewOf(w, node.uuid)), ViewOf(w, node.uuid), [said])
    {
      hide Sound, Tracks;
      var u := node.uuid;
      ghost var l, clock0, alive0 := State(w), w.clock, w.alive;
      var at := w.Now();
      TimePasses(l, clock0, alive0, w.clock, w.alive, None);
      ghost var clock1, alive1 := w.clock, w.alive;
      // A lost reply can hide a running command: without a pid the entry waits out its lifetime.
      pending := pending[u := Pending(node.generation, at, None)];
      var pid;
      ghost var when;
      pid, when := w.Start(u);
      said := Submitted(u, pid, when);
      tags := tags + [Tag(node.generation, node.generation)];
      ghost var clock2, alive2 := w.clock, w.alive;
      if pid.Some? {
        pending := pending[u := Pending(node.generation, at, pid)];
      } else {
        var later := w.Now();
        pending := pending[u := Pending(node.generation, later, None)];
      }
      assert pending == l.pending[u := pending[u]] && pending - {u} == l.pending;
      ghost var p := pending[u];
      Launched(l, clock1, alive1, clock2, alive2, w.clock, w.alive, u, p, when);
      ok := pid.Some?;
    }

    /** An entry without a pid is dropped once nothing it may stand for can still run. */
    method Await(w: World, node: Node)
      requires Valid(w) && node.uuid in pending && pending[node.uuid].pid.None?
      modifies this`pending, w`clock, w`alive, w`script
      ensures Valid(w) && pending - {node.uuid} == old(pending) - {node.uuid}
      ensures node.uuid in pending <==> w.clock - old(pending)[node.uuid].at < STATUS_LIFETIME
      ensures node.uuid in pending ==> pending[node.uuid] == old(pending)[node.uuid]
      ensures old(w.clock) <= w.clock
    {
      hide Sound, Tracks;
      var at := Now(w, None);
      var p := pending[node.uuid];
      if at - p.at >= STATUS_LIFETIME {
        Expired(State(w), w.clock, w.alive, node.uuid);
        pending := pending - {node.uuid};
      }
    }

    /** Ask for the result of a known pid; the entry goes only with the command. */
    method Reap(w: World, node: Node) returns (r: PollReply, at: real)
      requires Valid(w) && Hex32(node.uuid) && node.uuid in pending && pending[node.uuid].pid.Some?
      modifies this`pending, this`tags, w`clock, w`alive, w`script, w`answers
      ensures var p := old(pending)[node.uuid];
              var a, t := Polled(node.uuid, p.pid.value, r), Tag(p.generation, node.generation);
              && w.answers == old(w.answers) + [a] && tags == old(tags) + [t]
              && ValidBut(w, if Passed(a, t) then None else Some(node.uuid))
              && (r.Exited? && p.generation == node.generation && Meaning(node.uuid, r.result).Some? ==>
                    Backed(w.answers, tags, w.clock, node.uuid, NewEvidence(node, p.at, Meaning(node.uuid, r.result).value)))
      ensures old(w.clock) <= at <= w.clock
      ensures pending == if r.Exited? || r.PidGone? then old(pending) - {node.uuid} else old(pending)
    {
      hide Sound, Tracks, Passed, Meaning, ProgressOf, Backed, PendingBacked;
      at := Now(w, None);
      ghost var clock1, alive1, l := w.clock, w.alive, State(w);
      var p := pending[node.uuid];
      r := w.Poll(node.uuid, p.pid.value);
      TimePasses(l, clock1, alive1, w.clock, w.alive, None);
      ghost var a, t := Polled(node.uuid, p.pid.value, r), Tag(p.generation, node.generation);
      ghost var clock2, alive2 := w.clock, w.alive;
      Heard(l, clock2, alive2, a, t);
      tags := tags + [t];
      if r.Exited? && p.generation == node.generation && Meaning(node.uuid, r.result).Some? {
        Accounted(l, clock2, alive2, node.uuid);
        Newest(l.answers, l.tags, w.clock, node.uuid, p, r.result, NewEvidence(node, p.at, Meaning(node.uuid, r.result).value));
      }
      if r.Exited? || r.PidGone? {
        CommandGone(State(w), w.clock, w.alive, node.uuid, if Passed(a, t) then None else Some(node.uuid));
        pending := pending - {node.uuid};
      }
    }

    /** What _observe makes of a result: None for the ValueErrors it raises. */
    method Judge(w: World, node: Node, p: Pending, result: ExecResult, ghost but: Option<string>)
      returns (status: Option<Status.GuestStatus>)
      requires ValidBut(w, but) && Hex32(node.uuid)
      modifies w`clock, w`alive, w`script
      ensures ValidBut(w, but) && Passes(old(w.clock), old(w.alive), w.clock, w.alive)
      ensures status == if w.clock - p.at < staleAfter then Meaning(node.uuid, result) else None
    {
      hide Sound, Status.Parsed;
      var now := Now(w, but);
      if now - p.at >= staleAfter || result.exitCode != Some(0) || result.signal.Some? {
        return None;
      }
      status := Status.ParseGuestStatus(result.stdout);
      if status.Some? && status.value.nodeUuid != "" && status.value.nodeUuid != UuidText(node.uuid) {
        return None;
      }
    }

    /** The status becomes the evidence for its node. */
    method Record(node: Node, p: Pending, status: Status.GuestStatus, ghost w: World)
      requires ValidBut(w, Some(node.uuid)) && Hex32(node.uuid)
      requires Backed(w.answers, tags, w.clock, node.uuid, NewEvidence(node, p.at, status))
      modifies this`observations
      ensures Valid(w) && observations == old(observations)[node.uuid := NewEvidence(node, p.at, status)]
    {
      hide Sound, Backed, ProgressOf;
      ghost var l := State(w);
      observations := observations[node.uuid := Observation(node.generation, p.at, Some(status), ProgressOf(status))];
      Recorded(l, w.clock, w.alive, Some(node.uuid), node.uuid, observations[node.uuid]);
    }

    /** Ask for the durable change the status calls for, unless it names no node or grew old. */
    method Advise(w: World, node: Node, at: real, status: Status.GuestStatus) returns (ok: bool)
      requires Valid(w)
      modifies w`clock, w`alive, w`script, w`asked
      ensures Valid(w) && old(w.clock) <= w.clock
      ensures w.asked == old(w.asked) || w.asked == old(w.asked) + [ChangeFor(node, status)]
      ensures w.asked != old(w.asked) ==> status.nodeUuid != "" && CallsFor(node, status)
      ensures w.asked == old(w.asked) ==> ok
      ensures status.nodeUuid != "" && w.clock - at < staleAfter && w.asked == old(w.asked) ==>
                !CallsFor(node, status) && StateAfter(node.state, status) == node.state && ErrorOf(status) == node.error
      ensures old(w.clock) - at >= staleAfter ==> w.asked == old(w.asked)
    {
      hide Sound, StateAfter, ErrorOf;
      if status.nodeUuid == "" {
        return true;
      }
      var now := Now(w, None);
      if now - at >= staleAfter || !CallsFor(node, status) {
        return true;
      }
      ghost var clock1, alive1 := w.clock, w.alive;
      ok := w.Request(ChangeFor(node, status));
      TimePasses(State(w), clock1, alive1, w.clock, w.alive, None);
    }

    /** _observe: not ok where the source raises. */
    method Observe(w: World, node: Node) returns (ok: bool, ghost said: seq<Answer>)
      requires Valid(w) && Hex32(node.uuid)
      modifies this`observations, this`pending, this`tags, w`clock, w`alive, w`script, w`answers, w`asked
      ensures ValidBut(w, if ok then None else Some(node.uuid))
      ensures observations - {node.uuid} == old(observations) - {node.uuid}
      ensures pending - {node.uuid} == old(pending) - {node.uuid}
      ensures w.answers == old(w.answers) + said && Contacts(said) == ContactFor(node.uuid, Lookup(old(pending), node.uuid))
      ensures tags == old(tags) + TagsFor(node, Lookup(old(pending), node.uuid), said)
      ensures old(w.clock) <= w.clock
      ensures var v, v' := old(ViewOf(w, node.uuid)), ViewOf(w, node.uuid);
              && EntryAfter(node, v, v', said)
              && (ok ==> Settled(node, v, v', said, staleAfter, timeout))
              && (!ok ==> Refused(node, v, v', said, staleAfter))
              && Answered(node, v, v', said, old(w.asked), w.asked, staleAfter)
    {
      hide Sound, Tracks, Status.Parsed, UuidText, Meaning, StateAfter, ErrorOf, ProgressOf, Backed;
      said := [];
      ghost var v := ViewOf(w, node.uuid);
      if node.uuid !in pending {
        ghost var a;
        ok, a := Launch(w, node);
        said := [a];
        return;
      }
      var p := pending[node.uuid];
      if p.pid.None? {
        Await(w, node);
        return true, [];
      }
      var r, at := Reap(w, node);
      said := [Polled(node.uuid, p.pid.value, r)];
      ghost var clock2 := w.clock;
      match r
      case NotExited =>
        if at - p.at >= STATUS_LIFETIME + timeout as real {
          Blank(node, at, Some(Progress.TimedOut), w, None);
        }
        ok := true;
      case PidGone => ok := false;
      case Raised => ok := false;
      case Exited(result) =>
        if p.generation != node.generation {
          return true, said;
        }
        var status := Judge(w, node, p, result, Some(node.uuid));
        if status.None? {
          return false, said;
        }
        BackedLater(w.answers, tags, clock2, w.clock, node.uuid, NewEvidence(node, p.at, status.value));
        Record(node, p, status.value, w);
        ok := Advise(w, node, p.at, status.value);
        Excepting(State(w), w.clock, w.alive, node.uuid);
    }

    /** Record an observation without a status. */
    method Blank(node: Node, at: real, progress: Option<Progress>, ghost w: World, ghost but: Option<string>)
      requires ValidBut(w, but) && Hex32(node.uuid) && but in {None, Some(node.uuid)}
      modifies this`observations
      ensures Valid(w) && observations == old(observations)[node.uuid := Observation(node.generation, at, None, progress)]
    {
      hide Sound, Backed;
      ghost var l := State(w);
      observations := observations[node.uuid := Observation(node.generation, at, None, progress)];
      NothingToBack(w.answers, tags, w.clock, node.uuid, observations[node.uuid]);
      Recorded(l, w.clock, w.alive, but, node.uuid, observations[node.uuid]);
    }

    /** An observation attempt: whatever it raises costs the node its evidence. */
    method TryObserve(w: World, node: Node) returns (ok: bool, ghost said: seq<Answer>)
      requires Valid(w) && Hex32(node.uuid)
      modifies this`observations, this`pending, this`tags, w`clock, w`alive, w`script, w`answers, w`asked
      ensures Valid(w) && observations - {node.uuid} == old(observations) - {node.uuid}
      ensures pending - {node.uuid} == old(pending) - {node.uuid}
      ensures w.answers == old(w.answers) + said && tags == old(tags) + TagsFor(node, Lookup(old(pending), node.uuid), said)
      ensures var v, v' := old(ViewOf(w, node.uuid)), ViewOf(w, node.uuid);
              && Concluded(node, v, v', said, staleAfter, timeout)
              && (!ok ==> Blanked(node, v, v', Some(GuestUnknown)))
              && Answered(node, v, v', said, old(w.asked), w.asked, staleAfter)
    {
      hide Sound, Meaning, Prompt, Understood, StatusIn, NewEvidence;
      ghost var seen := observations;
      ok, said := Observe(w, node);
      if !ok {
        var now := Now(w, Some(node.uuid));
        Blank(node, now, Some(GuestUnknown), w, Some(node.uuid));
        assert observations - {node.uuid} == seen - {node.uuid};
      }
    }

    /** Forget what is no longer listed. */
    method Forget(live: set<string>, ghost w: World)
      requires Valid(w)
      modifies this`observations, this`pending, this`dropped
      ensures Valid(w)
      ensures observations == map u | u in old(observations) && u in live :: old(observations)[u]
      ensures pending == map u | u in old(pending) && u in live :: old(pending)[u]
      ensures dropped == old(dropped) + (old(pending.Keys) - live)
    {
      hide Sound;
      ghost var l := State(w);
      observations := map u | u in observations && u in live :: observations[u];
      dropped := dropped + (pending.Keys - live);
      pending := map u | u in pending && u in live :: pending[u];
      Forgotten(l, w.clock, w.alive, live);
    }

    /** A node that is off or has an operation pending is not observed; the latter is to be cleaned up. */
    method Skip(w: World, node: Node)
      requires Valid(w) && Hex32(node.uuid)
      modifies this`observations, w`clock, w`alive, w`script, w`asked
      ensures Valid(w) && observations - {node.uuid} == old(observations) - {node.uuid}
      ensures Blanked(node, old(ViewOf(w, node.uuid)), ViewOf(w, node.uuid), None)
      ensures w.asked == if Meta.Incomplete(node.state)
                         then old(w.asked) + [CleanUp(node.uuid, node.generation, node.state)] else old(w.asked)
    {
      hide Sound;
      var now := Now(w, None);
      Blank(node, now, None, w, None);
      if Meta.Incomplete(node.state) {
        ghost var clock1, alive1 := w.clock, w.alive;
        var ok := w.Request(CleanUp(node.uuid, node.generation, node.state));
        TimePasses(State(w), clock1, alive1, w.clock, w.alive, None);
      }
    }

    /** One node of the scan: whether it was observed, and what was said to its agent. */
    method Visit(w: World, node: Node, calls: nat, next: nat) returns (observed: bool, ghost said: seq<Answer>)
      requires Valid(w) && Hex32(node.uuid)
      modifies this, w`clock, w`alive, w`script, w`answers, w`asked
      ensures Valid(w) && dropped == old(dropped)
      ensures observed <==> Eligible(node) && calls < Rotation.MAX_CALLS_PER_PASS
      ensures cursor == if observed then next else old(cursor)
      ensures observations - {node.uuid} == old(observations) - {node.uuid}
      ensures pending - {node.uuid} == old(pending) - {node.uuid}
      ensures w.answers == old(w.answers) + said && (!observed ==> said == [] && pending == old(pending))
      ensures tags == old(tags) + TagsFor(node, Lookup(old(pending), node.uuid), said)
      ensures var v, v' := old(ViewOf(w, node.uuid)), ViewOf(w, node.uuid);
              && (observed ==> Concluded(node, v, v', said, staleAfter, timeout)
                               && Answered(node, v, v', said, old(w.asked), w.asked, staleAfter))
              && (!Eligible(node) ==> Blanked(node, v, v', None))
              && (Eligible(node) && !observed ==> v == v' && w.asked == old(w.asked))
      ensures !Eligible(node) ==> w.asked == if Meta.Incomplete(node.state) then old(w.asked) + [CleanUpOf(node)] else old(w.asked)
    {
      hide Sound, Concluded, Answered, Blanked;
      said := [];
      if !Eligible(node) {
        Skip(w, node);
        return false, [];
      }
      if calls >= Rotation.MAX_CALLS_PER_PASS {
        return false, [];
      }
      cursor := next;
      var ok;
      ok, said := TryObserve(w, node);
      observed := true;
    }

    /**
     * reconcile, over one listing, of which it visits `reach` nodes, all unless it is stopped: it
     * observes exactly the nodes the rotation chooses, sending their agents what their entries
     * call for and nothing else; each node that is interrupted is cleaned up, and nothing else
     * is asked of the manager but what the last results call for.
     */
    method Reconcile(w: World, nodes: seq<Node>) returns (observed: seq<nat>, reach: nat)
      requires Valid(w) && forall i :: 0 <= i < |nodes| ==> Hex32(nodes[i].uuid)
      modifies this, w
      ensures Valid(w) && old(w.answers) <= w.answers && reach <= |nodes|
      ensures nodes != [] ==> (reach < |nodes| <==> w.stopped)
      ensures old(w.stopped) ==> State(w) == old(State(w)) && w.stopped
      ensures reach > 0 ==> observations.Keys <= Live(nodes)
      ensures dropped <= old(dropped) + (old(pending.Keys) - Live(nodes))
      ensures if nodes == [] then observed == [] && cursor == old(cursor)
              else observed == Rotation.Chosen(Eligibles(nodes), old(cursor) % |nodes|, reach)
      ensures nodes != [] && reach == |nodes| ==> cursor == Rotation.NextCursor(Eligibles(nodes), old(cursor))
      ensures nodes == [] ==> w.answers == old(w.answers)
      ensures nodes != [] && Distinct(nodes) ==>
                Contacts(w.answers) == Contacts(old(w.answers)) + Sendings(nodes, old(cursor) % |nodes|, observed, old(pending))
      ensures Asked(nodes, old(w.asked), w.asked)
      ensures nodes != [] ==> CleanedUp(nodes, old(cursor) % |nodes|, reach, old(w.asked), w.asked)
    {
      hide Sound, Proper, Asked, CleanedUp, Live, Contacts, Place, Eligibles, Eligible, Distinct;
      observed, reach := [], 0;
      Nothing(nodes, if nodes == [] then 0 else cursor % |nodes|, w.asked, w.answers, pending);
      var stop := w.Stopping();
      if stop {
        return;
      }
      ghost var entries := pending;
      Forget(Live(nodes), w);
      if nodes != [] {
        observed, reach := Scan(w, nodes, cursor % |nodes|);
        SameSendings(nodes, old(cursor) % |nodes|, observed, entries, map u | u in entries && u in Live(nodes) :: entries[u]);
      }
    }

    method Scan(w: World, nodes: seq<Node>, offset: nat) returns (observed: seq<nat>, reach: nat)
      requires Valid(w) && forall i :: 0 <= i < |nodes| ==> Hex32(nodes[i].uuid)
      requires nodes != [] && offset < |nodes| && observations.Keys <= Live(nodes) && !w.stopped
      modifies this, w
      ensures reach < |nodes| <==> w.stopped
      ensures Valid(w) && old(w.answers) <= w.answers && reach <= |nodes| && dropped == old(dropped) && observations.Keys <= Live(nodes)
      ensures observed == Rotation.Chosen(Eligibles(nodes), offset, reach)
      ensures cursor == Rotation.CursorPast(old(cursor), offset, observed, |nodes|)
      ensures Distinct(nodes) ==> Contacts(w.answers) == Contacts(old(w.answers)) + Sendings(nodes, offset, observed, old(pending))
      ensures Asked(nodes, old(w.asked), w.asked)
      ensures CleanedUp(nodes, offset, reach, old(w.asked), w.asked)
    {
      hide Sound, Proper, Asked, CleanedUp, Eligible, Meta.Incomplete, Live, Place, Eligibles, Distinct;
      hide Rotation.Chosen, Rotation.CursorPast, Contacts, Sendings, Untouched, Concluded, Answered, Blanked, TagsFor;
      observed, reach := [], 0;
      ghost var entries := pending;
      Nothing(nodes, offset, w.asked, w.answers, pending);
      Rotation.PastOneMore(cursor, offset, observed, 0, |nodes|);
      while reach < |nodes|
        invariant reach <= |nodes| && Valid(w) && old(w.answers) <= w.answers && dropped == old(dropped)
        invariant observations.Keys <= Live(nodes) && !w.stopped
        invariant observed == Rotation.Chosen(Eligibles(nodes), offset, reach)
        invariant cursor == Rotation.CursorPast(old(cursor), offset, observed, |nodes|)
        invariant Untouched(nodes, offset, reach, entries, pending)
        invariant Distinct(nodes) ==> Contacts(w.answers) == Contacts(old(w.answers)) + Sendings(nodes, offset, observed, entries)
        invariant Asked(nodes, old(w.asked), w.asked)
        invariant CleanedUp(nodes, offset, reach, old(w.asked), w.asked)
        decreases |nodes| - reach
      {
        var stop := w.Stopping();
        if stop {
          return;
        }
        var node := Place(nodes, offset, reach);
        PlaceIsListed(nodes, offset, reach);
        ghost var asked, answers, waiting, seen, v := w.asked, w.answers, pending, observations, ViewOf(w, node.uuid);
        var one;
        ghost var said;
        one, said := Visit(w, node, |observed|, (offset + reach + 1) % |nodes|);
        ghost var v' := ViewOf(w, node.uuid);
        KeysBeside(seen, observations, node.uuid);
        if one {
          WhatWasAsked(node, v, v', said, asked, w.asked, staleAfter, timeout);
        } else {
          WhatElseWasAsked(node, asked, w.asked);
        }
        AskedMore(nodes, offset, reach, old(w.asked), asked, w.asked);
        CleanedUpMore(nodes, offset, reach, old(w.asked), asked, w.asked);
        UntouchedMore(nodes, offset, reach, entries, waiting, pending);
        if Distinct(nodes) {
          SentMore(nodes, offset, observed, reach, entries, waiting, old(w.answers), answers, said, one);
        }
        NextPick(nodes, offset, reach);
        Rotation.PastOneMore(old(cursor), offset, observed, reach, |nodes|);
        if one {
          observed := observed + [reach];
        }
        reach := reach + 1;
      }
    }
  }

  // ----- one pass ---------------------------------------------------------------------

  lemma PlaceIsListed(nodes: seq<Node>, offset: nat, d: nat)
    requires nodes != [] && forall i :: 0 <= i < |nodes| ==> Hex32(nodes[i].uuid)
    ensures Place(nodes, offset, d).uuid in Live(nodes) && Hex32(Place(nodes, offset, d).uuid)
  {
  }

  lemma NextPick(nodes: seq<Node>, offset: nat, d: nat)
    requires nodes != []
    ensures var before := Rotation.Chosen(Eligibles(nodes), offset, d);
            Rotation.Chosen(Eligibles(nodes), offset, d + 1) ==
            if Eligible(Place(nodes, offset, d)) && |before| < Rotation.MAX_CALLS_PER_PASS then before + [d] else before
  {
    Rotation.ChosenStep(Eligibles(nodes), offset, d);
  }

  /** Every new request is a proper one about a listed node. */
  ghost predicate Asked(nodes: seq<Node>, before: seq<Ask>, after: seq<Ask>) {
    && |before| <= |after| && after[..|before|] == before
    && forall k :: |before| <= k < |after| ==> exists i :: 0 <= i < |nodes| && Proper(nodes[i], after[k])
  }

  /** Each interrupted node among the first `reach` from the offset was to be cleaned up. */
  predicate CleanedUp(nodes: seq<Node>, offset: nat, reach: nat, before: seq<Ask>, after: seq<Ask>)
    requires nodes != []
  {
    && |before| <= |after|
    && forall d :: 0 <= d < reach && Meta.Incomplete(Place(nodes, offset, d).state) ==>
         CleanUpOf(Place(nodes, offset, d)) in after[|before|..]
  }

  /** The node d places on from the offset. */
  function Place(nodes: seq<Node>, offset: nat, d: nat): Node
    requires nodes != []
  {
    nodes[(offset + d) % |nodes|]
  }

  function CleanUpOf(node: Node): Ask {
    CleanUp(node.uuid, node.generation, node.state)
  }

  predicate Distinct(nodes: seq<Node>) {
    forall i, j :: 0 <= i < j < |nodes| ==> nodes[i].uuid != nodes[j].uuid
  }

  /** What the agents of the nodes at these places are sent, given their entries. */
  function Sendings(nodes: seq<Node>, offset: nat, observed: seq<nat>, entries: map<string, Pending>): (sent: seq<Contact>)
    requires nodes != []
    ensures |sent| <= |observed|
  {
    if observed == [] then []
    else
      var n := |observed| - 1;
      var u := Place(nodes, offset, observed[n]).uuid;
      Sendings(nodes, offset, observed[..n], entries) + ContactFor(u, Lookup(entries, u))
  }

  lemma {:induction false} SameSendings(nodes: seq<Node>, offset: nat, observed: seq<nat>, entries: map<string, Pending>,
                                        kept: map<string, Pending>)
    requires nodes != [] && kept == map u | u in entries && u in Live(nodes) :: entries[u]
    ensures Sendings(nodes, offset, observed, kept) == Sendings(nodes, offset, observed, entries)
  {
    if observed != [] {
      SameSendings(nodes, offset, observed[..|observed| - 1], entries, kept);
      assert Place(nodes, offset, observed[|observed| - 1]).uuid in Live(nodes);
    }
  }

  /** What is sent to a chosen place is among what is sent. */
  lemma {:induction false} SentThere(nodes: seq<Node>, offset: nat, observed: seq<nat>, entries: map<string, Pending>, i: nat)
    requires nodes != [] && i < |observed|
    ensures var u := Place(nodes, offset, observed[i]).uuid;
            forall c :: c in ContactFor(u, Lookup(entries, u)) ==> c in Sendings(nodes, offset, observed, entries)
  {
    hide Place, ContactFor;
    if i < |observed| - 1 {
      SentThere(nodes, offset, observed[..|observed| - 1], entries, i);
    }
  }

  /** The entries of the nodes still to be visited are as they were. */
  ghost predicate Untouched(nodes: seq<Node>, offset: nat, d: nat, entries: map<string, Pending>, now: map<string, Pending>)
    requires nodes != []
  {
    Distinct(nodes) ==>
      forall e :: d <= e < |nodes| ==> Lookup(now, Place(nodes, offset, e).uuid) == Lookup(entries, Place(nodes, offset, e).uuid)
  }

  lemma UntouchedMore(nodes: seq<Node>, offset: nat, d: nat, entries: map<string, Pending>, mid: map<string, Pending>,
                      now: map<string, Pending>)
    requires nodes != [] && d < |nodes| && Untouched(nodes, offset, d, entries, mid)
    requires var u := Place(nodes, offset, d).uuid; now - {u} == mid - {u}
    ensures Untouched(nodes, offset, d + 1, entries, now)
  {
    if Distinct(nodes) {
      var u := Place(nodes, offset, d).uuid;
      forall e | d < e < |nodes| ensures Lookup(now, Place(nodes, offset, e).uuid) == Lookup(entries, Place(nodes, offset, e).uuid) {
        Rotation.Apart(offset + d, offset + e, |nodes|);
        var v := Place(nodes, offset, e).uuid;
        assert v != u;
        Beside(mid, now, u, v);
      }
    }
  }

  lemma Beside<V>(m: map<string, V>, m': map<string, V>, u: string, v: string)
    requires m' - {u} == m - {u} && v != u
    ensures Lookup(m', v) == Lookup(m, v)
  {
    assert v in m' <==> v in m' - {u};
    assert v in m <==> v in m - {u};
    if v in m {
      assert m[v] == (m - {u})[v] == (m' - {u})[v] == m'[v];
    }
  }

  lemma SentMore(nodes: seq<Node>, offset: nat, observed: seq<nat>, d: nat, entries: map<string, Pending>,
                 waiting: map<string, Pending>, start: seq<Answer>, answers: seq<Answer>, said: seq<Answer>, one: bool)
    requires nodes != [] && d < |nodes| && Distinct(nodes) && Untouched(nodes, offset, d, entries, waiting)
    requires Contacts(answers) == Contacts(start) + Sendings(nodes, offset, observed, entries)
    requires var u := Place(nodes, offset, d).uuid;
             if one then Contacts(said) == ContactFor(u, Lookup(waiting, u)) else said == []
    ensures Contacts(answers + said)
            == Contacts(start) + Sendings(nodes, offset, if one then observed + [d] else observed, entries)
  {
    hide Place, ContactFor, Distinct;
    ContactsMore(answers, said);
    if one {
      assert (observed + [d])[..|observed|] == observed;
    }
  }

  /** What a visit may ask of the manager. */
  ghost predicate StepOf(node: Node, before: seq<Ask>, after: seq<Ask>) {
    && before <= after && |after| <= |before| + 1
    && (|after| > |before| ==> Proper(node, after[|before|]))
    && (Meta.Incomplete(node.state) ==> after == before + [CleanUpOf(node)])
  }

  lemma WhatWasAsked(node: Node, v: View, v': View, said: seq<Answer>, before: seq<Ask>, after: seq<Ask>, staleAfter: real,
                     timeout: nat)
    requires Hex32(node.uuid) && Eligible(node) && Concluded(node, v, v', said, staleAfter, timeout)
    requires Answered(node, v, v', said, before, after, staleAfter)
    ensures StepOf(node, before, after) && Contacts(said) == ContactFor(node.uuid, v.entry)
  {
    hide Meaning, UuidText, ErrorOf, Contacts;
  }

  lemma WhatElseWasAsked(node: Node, before: seq<Ask>, after: seq<Ask>)
    requires after == if !Eligible(node) && Meta.Incomplete(node.state) then before + [CleanUpOf(node)] else before
    ensures StepOf(node, before, after)
  {
  }

  lemma Nothing(nodes: seq<Node>, offset: nat, asked: seq<Ask>, answers: seq<Answer>, entries: map<string, Pending>)
    ensures Asked(nodes, asked, asked)
    ensures nodes != [] ==> CleanedUp(nodes, offset, 0, asked, asked) && Rotation.Chosen(Eligibles(nodes), offset, 0) == []
    ensures nodes != [] ==> Sendings(nodes, offset, [], entries) == [] && Untouched(nodes, offset, 0, entries, entries)
    ensures Contacts(answers) + [] == Contacts(answers)
  {
  }

  lemma AskedMore(nodes: seq<Node>, offset: nat, d: nat, before: seq<Ask>, mid: seq<Ask>, after: seq<Ask>)
    requires nodes != [] && Asked(nodes, before, mid)
    requires StepOf(Place(nodes, offset, d), mid, after)
    ensures Asked(nodes, before, after)
  {
    hide Proper;
    if after != mid {
      var ask := after[|mid|];
      forall k | |before| <= k < |after| ensures exists i :: 0 <= i < |nodes| && Proper(nodes[i], after[k]) {
        if k < |mid| {
          assert after[k] == mid[k];
        }
      }
    }
  }

  lemma CleanedUpMore(nodes: seq<Node>, offset: nat, reach: nat, before: seq<Ask>, mid: seq<Ask>, after: seq<Ask>)
    requires nodes != [] && CleanedUp(nodes, offset, reach, before, mid)
    requires StepOf(Place(nodes, offset, reach), mid, after)
    ensures CleanedUp(nodes, offset, reach + 1, before, after)
  {
    forall ask | ask in mid[|before|..] ensures ask in after[|before|..] {
      var k :| |before| <= k < |mid| && mid[k] == ask;
      assert after[k] == ask && after[|before|..][k - |before|] == ask;
    }
    var node := Place(nodes, offset, reach);
    if Meta.Incomplete(node.state) {
      assert after[|mid|] == CleanUpOf(node) && after[|before|..][|mid| - |before|] == CleanUpOf(node);
    }
    forall d | 0 <= d < reach + 1 && Meta.Incomplete(Place(nodes, offset, d).state)
      ensures CleanUpOf(Place(nodes, offset, d)) in after[|before|..]
    {
      if d < reach {
        assert CleanUpOf(Place(nodes, offset, d)) in mid[|before|..];
      }
    }
  }

  lemma KeysBeside<V>(m: map<string, V>, m': map<string, V>, u: string)
    requires m' - {u} == m - {u}
    ensures m'.Keys <= m.Keys + {u}
  {
    forall k | k in m'.Keys && k != u ensures k in m.Keys {
      assert k in m' - {u};
    }
  }

  /** What the node manager may be asked about a node of the list. */
  predicate Proper(node: Node, ask: Ask) {
    ask.u == node.uuid && ask.generation == node.generation
    && match ask
       case Update(_, _, state, _, expected) =>
         expected == node.state && Eligible(node) && Saga.ObserverCall(state, Some({expected}))
       case CleanUp(_, _, state) => state == node.state && Meta.Incomplete(state)
  }

  function Live(nodes: seq<Node>): set<string> {
    set i | 0 <= i < |nodes| :: nodes[i].uuid
  }

  function Eligibles(nodes: seq<Node>): (eligible: seq<bool>)
    ensures |eligible| == |nodes|
  {
    seq(|nodes|, i requires 0 <= i < |nodes| => Eligible(nodes[i]))
  }

  /** While a node stays listed, at most one status command of this observer is alive in it. */
  lemma OneCommandAtMost(l: Ledger, clock: real, alive: set<Job>, u: string)
    requires Sound(l, clock, alive, None) && u !in l.dropped
    ensures |set j | j in alive && j.u == u| <= 1
  {
    assert Tracks(alive, u, Lookup(l.pending, u));
    var jobs := set j | j in alive && j.u == u;
    if a :| a in jobs {
      assert jobs == {a};
    }
  }

  // ----- join readiness ---------------------------------------------------------------

  /** _recent: evidence of this generation that is not stale. */
  predicate Recent(observations: map<string, Observation>, node: Node, now: real, staleAfter: real) {
    && Eligible(node) && node.uuid in observations && observations[node.uuid].generation == node.generation
    && 0.0 <= now - observations[node.uuid].at < staleAfter
  }

  predicate Ready(status: Status.GuestStatus, u: string)
    requires Hex32(u)
  {
    && status.nodeUuid == UuidText(u) && status.started && status.prepared && status.prepareState.Active?
    && status.errorCode.NoError? && status.k3sState.Active?
  }

  /** join_ready. */
  predicate JoinReady(observations: map<string, Observation>, node: Node, now: real, staleAfter: real)
    requires Hex32(node.uuid)
  {
    && Recent(observations, node, now, staleAfter)
    && observations[node.uuid].status.Some? && Ready(observations[node.uuid].status.value, node.uuid)
  }

  /**
   * Join evidence is sound: a node is ready to be joined only if its agent's answers hold the result
   * of a command of this very node and generation, submitted less than staleAfter ago, that is
   * successful and ready, and nothing this agent answered since speaks against it: no submission
   * without a reply, no error, and no other result of the node's generation.
   */
  lemma JoinEvidenceIsSound(l: Ledger, clock: real, alive: set<Job>, node: Node, now: real, staleAfter: real)
    requires Sound(l, clock, alive, None) && Hex32(node.uuid) && clock <= now
    requires JoinReady(l.observations, node, now, staleAfter)
    ensures exists i: nat, k: nat, status ::
              && ProbeAt(l.answers, l.tags, i, k, node.uuid, node.generation, status)
              && 0.0 <= now - l.answers[i].at < staleAfter
              && l.answers[k].reply.result.exitCode == Some(0) && l.answers[k].reply.result.signal == None
              && Status.Parsed(l.answers[k].reply.result.stdout) == Some(status) && Ready(status, node.uuid)
              && Standing(l.answers, l.tags, k, node.uuid)
  {
    hide Status.Parsed, UuidText, Standing, Tracks, PendingBacked;
    var o := l.observations[node.uuid];
    assert Backed(l.answers, l.tags, clock, node.uuid, o);
    var i: nat, k: nat :| ProbeAt(l.answers, l.tags, i, k, node.uuid, o.generation, o.status.value)
                          && Dated(l.answers, i, o.at, clock) && Standing(l.answers, l.tags, k, node.uuid);
  }

  /** Its converse: after an observation that settled on a ready result, the node is ready until it grows stale. */
  lemma ReadyUntilStale(observations: map<string, Observation>, node: Node, v: View, v': View, said: seq<Answer>,
                        staleAfter: real, timeout: nat, now: real)
    requires Hex32(node.uuid) && Eligible(node) && v'.clock <= now && Lookup(observations, node.uuid) == v'.seen
    requires Concluded(node, v, v', said, staleAfter, timeout) && Settled(node, v, v', said, staleAfter, timeout)
    requires Understood(node, v.entry, said) && v.entry.value.pid.Some? && v.entry.value.at <= v.clock <= v'.clock
    ensures JoinReady(observations, node, now, staleAfter)
            <==> now - v.entry.value.at < staleAfter && Ready(StatusIn(node, v.entry, said), node.uuid)
  {
    hide Meaning, ProgressOf, UuidText;
  }

  // ----- many passes ------------------------------------------------------------------

  /** In the stretch [from, to) of the answers u's agent was called, or the reply to its last submission had been lost. */
  ghost predicate Served(answers: seq<Answer>, u: string, from: nat, to: nat) {
    && from <= to <= |answers|
    && ((exists j :: from <= j < to && answers[j].u == u)
        || exists i: nat, at :: LostAt(answers[..from], i, u, at))
  }

  lemma ServedLater(answers: seq<Answer>, more: seq<Answer>, u: string, from: nat, to: nat)
    requires Served(answers, u, from, to) && answers <= more
    ensures Served(more, u, from, to)
  {
    hide LostAt;
    assert answers[..from] == more[..from];
    if j :| from <= j < to && answers[j].u == u {
      assert more[j] == answers[j];
    }
  }

  /** A pass serves each of the nodes it observes. */
  lemma PassServes(l: Ledger, clock: real, alive: set<Job>, nodes: seq<Node>, offset: nat, observed: seq<nat>, after: seq<Answer>,
                   i: nat)
    requires Sound(l, clock, alive, None) && nodes != [] && i < |observed| && l.answers <= after
    requires Contacts(after) == Contacts(l.answers) + Sendings(nodes, offset, observed, l.pending)
    ensures Served(after, Place(nodes, offset, observed[i]).uuid, |l.answers|, |after|)
  {
    hide Place, Sound, Sendings;
    var u := Place(nodes, offset, observed[i]).uuid;
    SentThere(nodes, offset, observed, l.pending, i);
    var due := ContactFor(u, Lookup(l.pending, u));
    if due == [] {
      Accounted(l, clock, alive, u);
      var k: nat :| LostAt(l.answers, k, u, l.pending[u].at);
      assert after[..|l.answers|] == l.answers;
      assert LostAt(after[..|l.answers|], k, u, l.pending[u].at);
    } else {
      var sent := Sendings(nodes, offset, observed, l.pending);
      assert due[0] in sent;
      var j :| 0 <= j < |sent| && sent[j] == due[0];
      assert Contacts(after)[|l.answers| + j] == due[0] == Sent(after[|l.answers| + j]);
      assert after[|l.answers| + j].u == u;
    }
  }

  ghost predicate ServedIn(answers: seq<Answer>, u: string, marks: seq<nat>) {
    exists k :: 0 <= k < |marks| - 1 && Served(answers, u, marks[k], marks[k + 1])
  }

  lemma ServedInLater(answers: seq<Answer>, more: seq<Answer>, u: string, marks: seq<nat>, mark: nat)
    requires ServedIn(answers, u, marks) && answers <= more
    ensures ServedIn(more, u, marks + [mark])
  {
    hide Served;
    var k :| 0 <= k < |marks| - 1 && Served(answers, u, marks[k], marks[k + 1]);
    ServedLater(answers, more, u, marks[k], marks[k + 1]);
    assert (marks + [mark])[k] == marks[k] && (marks + [mark])[k + 1] == marks[k + 1];
  }

  /** The places a pass over n nodes observed, given how far they are from its offset. */
  function Places(offset: nat, observed: seq<nat>, n: nat): set<nat>
    requires n > 0
  {
    set i | 0 <= i < |observed| :: (offset + observed[i]) % n
  }

  lemma AllServed(l: Ledger, clock: real, alive: set<Job>, nodes: seq<Node>, offset: nat, observed: seq<nat>,
                  after: seq<Answer>, marks: seq<nat>, seen: set<nat>)
    requires Sound(l, clock, alive, None) && nodes != [] && l.answers <= after
    requires Contacts(after) == Contacts(l.answers) + Sendings(nodes, offset, observed, l.pending)
    requires marks != [] && marks[|marks| - 1] == |l.answers|
    requires forall t :: t in seen ==> t < |nodes| && ServedIn(l.answers, nodes[t].uuid, marks)
    ensures forall t :: t in seen + Places(offset, observed, |nodes|) ==>
              t < |nodes| && ServedIn(after, nodes[t].uuid, marks + [|after|])
    ensures |after| <= |l.answers| + |observed|
  {
    hide Sound, Served, ServedIn, ContactFor, Sent;
    assert |Contacts(after)| == |after| && |Contacts(l.answers)| == |l.answers|;
    forall t | t in seen ensures ServedIn(after, nodes[t].uuid, marks + [|after|]) {
      ServedInLater(l.answers, after, nodes[t].uuid, marks, |after|);
    }
    forall t | t in Places(offset, observed, |nodes|) ensures t < |nodes| && ServedIn(after, nodes[t].uuid, marks + [|after|]) {
      var i :| 0 <= i < |observed| && t == (offset + observed[i]) % |nodes|;
      PassServes(l, clock, alive, nodes, offset, observed, after, i);
      JustServed(after, nodes[t].uuid, marks);
    }
  }

  lemma JustServed(answers: seq<Answer>, u: string, marks: seq<nat>)
    requires marks != [] && Served(answers, u, marks[|marks| - 1], |answers|)
    ensures ServedIn(answers, u, marks + [|answers|])
  {
    hide Served;
    var more, k := marks + [|answers|], |marks| - 1;
    assert more[k] == marks[k] && more[k + 1] == |answers|;
  }

  /** Where each pass began and ended among the answers; a pass brings at most eight. */
  ghost predicate Marked(marks: seq<nat>, first: nat, last: nat) {
    && marks != [] && marks[0] == first && marks[|marks| - 1] == last
    && forall k :: 0 <= k < |marks| - 1 ==> marks[k] <= marks[k + 1] <= marks[k] + Rotation.MAX_CALLS_PER_PASS
  }

  lemma MarkedOn(marks: seq<nat>, first: nat, last: nat, next: nat)
    requires Marked(marks, first, last) && last <= next <= last + Rotation.MAX_CALLS_PER_PASS
    ensures Marked(marks + [next], first, next)
  {
    var more := marks + [next];
    forall k | 0 <= k < |more| - 1 ensures more[k] <= more[k + 1] <= more[k] + Rotation.MAX_CALLS_PER_PASS {
      assert more[k] == marks[k];
      if k < |marks| - 1 {
        assert more[k + 1] == marks[k + 1];
      }
    }
  }

  /**
   * Passes over a list that does not change. If none of them is stopped, and there are at least
   * ceil(E / 8) for E eligible nodes, then every eligible node was served in one of them: its
   * agent was called, or it was waited for because a reply to it had been lost. No pass calls
   * more than eight agents.
   */
  method Repeat(o: Observer, w: World, nodes: seq<Node>, passes: nat) returns (seen: set<nat>, complete: bool, ghost marks: seq<nat>)
    requires o.Valid(w) && nodes != [] && forall i :: 0 <= i < |nodes| ==> Hex32(nodes[i].uuid)
    requires Distinct(nodes)
    modifies o, w
    ensures o.Valid(w) && old(w.answers) <= w.answers && (!complete ==> w.stopped)
    ensures complete ==> |marks| == passes + 1 && Marked(marks, |old(w.answers)|, |w.answers|)
    ensures complete ==>
              forall t :: 0 <= t < |nodes| ==>
                (t in seen <==> exists k :: 0 <= k < passes
                                  && Rotation.Observes(Eligibles(nodes), Rotation.CursorAfter(Eligibles(nodes), old(o.cursor), k), t))
    ensures complete ==> forall t :: t in seen ==> t < |nodes| && ServedIn(w.answers, nodes[t].uuid, marks)
    ensures complete && Rotation.MAX_CALLS_PER_PASS * passes >= Rotation.Count(Eligibles(nodes), 0, |nodes|) ==>
              forall t :: 0 <= t < |nodes| && Eligible(nodes[t]) ==> ServedIn(w.answers, nodes[t].uuid, marks)
  {
    hide Sound, Eligibles, Eligible, Rotation.Chosen, Rotation.Observes, Rotation.CursorAfter, Rotation.NextCursor, Places;
    hide Distinct, Sendings, Contacts, ServedIn, Marked;
    seen, complete := {}, true;
    ghost var eligible, cursor := Eligibles(nodes), o.cursor;
    marks := [|w.answers|];
    Rotation.CursorSteps(eligible, cursor, 0);
    Begun(|w.answers|);
    for k := 0 to passes
      invariant o.Valid(w) && complete && o.cursor == Rotation.CursorAfter(eligible, cursor, k)
      invariant old(w.answers) <= w.answers && |marks| == k + 1 && Marked(marks, |old(w.answers)|, |w.answers|)
      invariant forall t :: 0 <= t < |nodes| ==>
                  (t in seen <==> exists j :: 0 <= j < k && Rotation.Observes(eligible, Rotation.CursorAfter(eligible, cursor, j), t))
      invariant forall t :: t in seen ==> t < |nodes| && ServedIn(w.answers, nodes[t].uuid, marks)
    {
      var offset := o.cursor % |nodes|;
      ghost var before, l, clock, alive := o.cursor, o.State(w), w.clock, w.alive;
      var observed, reach := o.Reconcile(w, nodes);
      if reach < |nodes| {
        return seen, false, marks;
      }
      Rotation.CursorSteps(eligible, cursor, k);
      PlacesAreObserved(eligible, before, observed);
      LastMark(marks, |old(w.answers)|, |l.answers|);
      AllServed(l, clock, alive, nodes, offset, observed, w.answers, marks, seen);
      AtMostEight(eligible, offset, observed);
      MarkedOn(marks, |old(w.answers)|, |l.answers|, |w.answers|);
      marks := marks + [|w.answers|];
      seen := seen + Places(offset, observed, |nodes|);
    }
    if Rotation.MAX_CALLS_PER_PASS * passes >= Rotation.Count(eligible, 0, |nodes|) {
      forall t | 0 <= t < |nodes| && Eligible(nodes[t]) ensures ServedIn(w.answers, nodes[t].uuid, marks) {
        EligibleAt(nodes, t);
        Rotation.EveryEligibleNodeIsObserved(eligible, cursor, t, passes);
      }
    }
  }

  lemma Begun(n: nat)
    ensures Marked([n], n, n)
  {
  }

  lemma LastMark(marks: seq<nat>, first: nat, last: nat)
    requires Marked(marks, first, last)
    ensures marks != [] && marks[|marks| - 1] == last
  {
  }

  lemma AtMostEight(eligible: seq<bool>, offset: nat, observed: seq<nat>)
    requires eligible != [] && observed == Rotation.Chosen(eligible, offset, |eligible|)
    ensures |observed| <= Rotation.MAX_CALLS_PER_PASS
  {
    Rotation.ScanIsBounded(eligible, offset, |eligible|);
  }

  lemma EligibleAt(nodes: seq<Node>, t: nat)
    requires t < |nodes|
    ensures Eligibles(nodes)[t] == Eligible(nodes[t])
  {
    hide Eligible;
  }

  lemma PlacesAreObserved(eligible: seq<bool>, cursor: nat, observed: seq<nat>)
    requires eligible != [] && observed == Rotation.Chosen(eligible, cursor % |eligible|, |eligible|)
    ensures forall t :: 0 <= t < |eligible| ==>
              (t in Places(cursor % |eligible|, observed, |eligible|) <==> Rotation.Observes(eligible, cursor, t))
  {
    hide Rotation.Chosen;
  }
}

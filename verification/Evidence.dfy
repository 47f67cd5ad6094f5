/** What the observer knows of each node, and what its knowledge is worth. */
module Evidence {
  import opened Wrappers
  import opened Names
  import Meta
  import Status
  import opened GuestExec
  import opened Agents

  datatype Node = Node(uuid: string, generation: nat, state: Meta.State, error: Option<string>, running: bool)

  datatype Progress = GuestUnknown | TimedOut | NoIdentity | NotPrepared | NotStarted | Fault(code: string)

  datatype Observation = Observation(generation: nat, at: real, status: Option<Status.GuestStatus>, progress: Option<Progress>)

  datatype Pending = Pending(generation: nat, at: real, pid: Option<nat>)

  predicate Eligible(node: Node) {
    node.running && !Meta.Incomplete(node.state)
  }

  /** A successful result whose status names this node or none: what _observe makes of it. */
  function Meaning(u: string, result: ExecResult): Option<Status.GuestStatus>
    requires Hex32(u)
  {
    if result.exitCode != Some(0) || result.signal.Some? then None
    else
      var status := Status.Parsed(result.stdout);
      if status.Some? && status.value.nodeUuid in {"", UuidText(u)} then status else None
  }

  /** The failure a status reports. */
  function ErrorOf(status: Status.GuestStatus): Option<string> {
    if status.prepareState.Failed? then Some("prepare-failed")
    else if status.errorCode.NoError? then None else Some(Status.ErrorName(status.errorCode))
  }

  function ProgressOf(status: Status.GuestStatus): Option<Progress> {
    if ErrorOf(status).Some? then Some(Fault(ErrorOf(status).value))
    else if status.nodeUuid == "" then Some(NoIdentity)
    else if !status.prepared then Some(NotPrepared)
    else if !status.started then Some(NotStarted)
    else None
  }

  function StateAfter(state: Meta.State, status: Status.GuestStatus): Meta.State {
    if status.started then Meta.Configured
    else if state.Configured? then state
    else if ErrorOf(status) == Some("prepare-failed") then Meta.Failed
    else if status.prepared then Meta.Configuring
    else state
  }

  function ChangeFor(node: Node, status: Status.GuestStatus): Ask {
    Update(node.uuid, node.generation, StateAfter(node.state, status), ErrorOf(status), node.state)
  }

  /** What a status, from whatever guest, does to a node's record. */
  lemma StatusDecides(state: Meta.State, status: Status.GuestStatus)
    ensures
      var broken := status.prepareState.Failed? || status.errorCode.PrepareFailed?;
      var open := !status.started && !state.Configured?;
      && (ErrorOf(status) == Some("prepare-failed") <==> broken)
      && (ErrorOf(status) == Some("k3s-failed") <==> !broken && status.errorCode.K3sFailed?)
      && (ErrorOf(status) == None <==> !broken && status.errorCode.NoError?)
      && (StateAfter(state, status) == Meta.Configured <==> !open)
      && (StateAfter(state, status) == Meta.Failed <==> open && (broken || (state.Failed? && !status.prepared)))
      && (StateAfter(state, status) == Meta.Configuring <==> open && !broken && (status.prepared || state.Configuring?))
      && (StateAfter(state, status) in {Meta.Configured, Meta.Failed, Meta.Configuring, state})
      && (ProgressOf(status) == None <==> !broken && status.errorCode.NoError? && status.nodeUuid != "" && status.prepared && status.started)
  {
  }

  lemma NamesNode(u: string, result: ExecResult, status: Status.GuestStatus)
    requires Hex32(u) && Meaning(u, result) == Some(status)
    ensures status.nodeUuid == "" || status.nodeUuid == UuidText(u)
  {
  }

  /** The status does not say what the record already says. */
  predicate CallsFor(node: Node, status: Status.GuestStatus) {
    StateAfter(node.state, status) != node.state || ErrorOf(status) != node.error
  }

  // ----- at most one command ----------------------------------------------------------

  ghost predicate OneJob(alive: set<Job>, u: string) {
    forall i, j :: i in alive && j in alive && i.u == j.u == u ==> i == j
  }

  /** The pending entry accounts for every command that may run in u. */
  ghost predicate Tracks(alive: set<Job>, u: string, p: Option<Pending>) {
    && OneJob(alive, u)
    && forall j :: j in alive && j.u == u ==>
         p.Some? && if p.value.pid.Some? then j.pid == p.value.pid.value else j.at <= p.value.at
  }

  function Lookup<V>(m: map<string, V>, u: string): Option<V> {
    if u in m then Some(m[u]) else None
  }

  lemma TracksLater(clock: real, alive: set<Job>, clock': real, alive': set<Job>, u: string, p: Option<Pending>)
    requires Passes(clock, alive, clock', alive') && Tracks(alive, u, p)
    ensures Tracks(alive', u, p)
  {
  }

  // ----- evidence ---------------------------------------------------------------------

  /** The generation of the entry an answer belongs to, and that of the node when it came. */
  datatype Tag = Tag(generation: nat, seen: nat)

  /** Answer i submitted the command of this entry, and nothing was submitted to u since. */
  predicate LaunchedAt(answers: seq<Answer>, tags: seq<Tag>, i: nat, u: string, generation: nat, pid: nat, at: real, clock: real) {
    && i < |answers| == |tags| && answers[i].Submitted? && answers[i].u == u && answers[i].got == Some(pid)
    && tags[i].generation == generation && at <= answers[i].at <= clock
    && forall j :: i < j < |answers| && answers[j].u == u ==> answers[j].Polled?
  }

  /** Answer i is a submission, made by then, whose reply was lost; u's agent has not been called since. */
  predicate LostAt(answers: seq<Answer>, i: nat, u: string, at: real) {
    && i < |answers| && answers[i].Submitted? && answers[i].u == u && answers[i].got.None? && answers[i].at <= at
    && forall j :: i < j < |answers| ==> answers[j].u != u
  }

  /** An entry stands for the last command submitted to u. */
  ghost predicate PendingBacked(answers: seq<Answer>, tags: seq<Tag>, clock: real, u: string, p: Pending) {
    && p.at <= clock
    && (p.pid.Some? ==> exists i: nat :: LaunchedAt(answers, tags, i, u, p.generation, p.pid.value, p.at, clock))
    && (p.pid.None? ==> exists i: nat :: LostAt(answers, i, u, p.at))
  }

  /** Answer k is the result of the command that answer i submitted, came while the node was of its generation, and means this. */
  predicate ProbeAt(answers: seq<Answer>, tags: seq<Tag>, i: nat, k: nat, u: string, generation: nat, status: Status.GuestStatus)
    requires Hex32(u)
  {
    && i < k < |answers| == |tags| && answers[i].Submitted? && answers[i].u == u && answers[i].got.Some?
    && answers[k].Polled? && answers[k].u == u && answers[k].pid == answers[i].got.value && answers[k].reply.Exited?
    && tags[i].generation == tags[k].generation == tags[k].seen == generation
    && Meaning(u, answers[k].reply.result) == Some(status)
    && forall j :: i < j < k && answers[j].u == u ==> answers[j].Polled?
  }

  /** An answer that says nothing against earlier evidence: it is still running, or of another generation. */
  predicate Passed(a: Answer, t: Tag) {
    match a
    case Submitted(_, pid, _) => pid.Some?
    case Polled(_, _, r) => r.NotExited? || (r.Exited? && t.generation != t.seen)
  }

  /** Nothing that u's agent answered since says anything against answer k. */
  predicate Standing(answers: seq<Answer>, tags: seq<Tag>, k: nat, u: string)
    requires |tags| == |answers|
  {
    forall j :: k < j < |answers| && answers[j].u == u ==> Passed(answers[j], tags[j])
  }

  predicate Dated(answers: seq<Answer>, i: nat, at: real, clock: real) {
    i < |answers| && answers[i].Submitted? && at <= answers[i].at <= clock
  }

  /** A recorded status is what the last result meant. */
  ghost predicate Backed(answers: seq<Answer>, tags: seq<Tag>, clock: real, u: string, o: Observation)
    requires Hex32(u) && |tags| == |answers|
  {
    o.status.Some? ==>
      exists i: nat, k: nat :: ProbeAt(answers, tags, i, k, u, o.generation, o.status.value)
                               && Dated(answers, i, o.at, clock) && Standing(answers, tags, k, u)
  }

  lemma BackedLater(answers: seq<Answer>, tags: seq<Tag>, clock: real, clock': real, u: string, o: Observation)
    requires Hex32(u) && |tags| == |answers| && Backed(answers, tags, clock, u, o) && clock <= clock'
    ensures Backed(answers, tags, clock', u, o)
  {
    hide ProbeAt, Standing;
    if o.status.Some? {
      var i: nat, k: nat :| ProbeAt(answers, tags, i, k, u, o.generation, o.status.value)
                            && Dated(answers, i, o.at, clock) && Standing(answers, tags, k, u);
      assert Dated(answers, i, o.at, clock');
    }
  }

  lemma ProbeStays(answers: seq<Answer>, tags: seq<Tag>, a: Answer, t: Tag, i: nat, k: nat, u: string, generation: nat,
                   status: Status.GuestStatus)
    requires Hex32(u) && ProbeAt(answers, tags, i, k, u, generation, status)
    ensures ProbeAt(answers + [a], tags + [t], i, k, u, generation, status)
    ensures forall at, clock :: Dated(answers, i, at, clock) ==> Dated(answers + [a], i, at, clock)
  {
    hide Meaning;
  }

  lemma BackedBeside(answers: seq<Answer>, tags: seq<Tag>, a: Answer, t: Tag, clock: real, u: string, o: Observation)
    requires Hex32(u) && |tags| == |answers| && Backed(answers, tags, clock, u, o) && (a.u == u ==> Passed(a, t))
    ensures Backed(answers + [a], tags + [t], clock, u, o)
  {
    hide ProbeAt, Passed, Dated;
    if o.status.Some? {
      var i: nat, k: nat :| ProbeAt(answers, tags, i, k, u, o.generation, o.status.value)
                            && Dated(answers, i, o.at, clock) && Standing(answers, tags, k, u);
      ProbeStays(answers, tags, a, t, i, k, u, o.generation, o.status.value);
      assert Standing(answers + [a], tags + [t], k, u);
    }
  }

  /** A result that means a status backs an observation dated by its entry. */
  lemma Newest(answers: seq<Answer>, tags: seq<Tag>, clock: real, u: string, p: Pending, result: ExecResult, o: Observation)
    requires Hex32(u) && |tags| == |answers| && PendingBacked(answers, tags, clock, u, p) && p.pid.Some?
    requires o.status.Some? && Meaning(u, result) == o.status && o.generation == p.generation && o.at == p.at
    ensures Backed(answers + [Polled(u, p.pid.value, Exited(result))], tags + [Tag(p.generation, p.generation)], clock, u, o)
  {
    hide Meaning;
    var i: nat :| LaunchedAt(answers, tags, i, u, p.generation, p.pid.value, p.at, clock);
    var more, k := answers + [Polled(u, p.pid.value, Exited(result))], |answers|;
    assert ProbeAt(more, tags + [Tag(p.generation, p.generation)], i, k, u, o.generation, o.status.value);
    assert Standing(more, tags + [Tag(p.generation, p.generation)], k, u);
    assert more[i] == answers[i] && Dated(more, i, o.at, clock);
  }

  lemma NothingToBack(answers: seq<Answer>, tags: seq<Tag>, clock: real, u: string, o: Observation)
    requires Hex32(u) && |tags| == |answers| && o.status.None?
    ensures Backed(answers, tags, clock, u, o)
  {
  }

  lemma PendingLater(answers: seq<Answer>, tags: seq<Tag>, clock: real, clock': real, u: string, p: Pending)
    requires PendingBacked(answers, tags, clock, u, p) && clock <= clock'
    ensures PendingBacked(answers, tags, clock', u, p)
  {
    if p.pid.Some? {
      var i: nat :| LaunchedAt(answers, tags, i, u, p.generation, p.pid.value, p.at, clock);
      assert LaunchedAt(answers, tags, i, u, p.generation, p.pid.value, p.at, clock');
    }
  }

  lemma PendingBeside(answers: seq<Answer>, tags: seq<Tag>, a: Answer, t: Tag, clock: real, u: string, p: Pending)
    requires PendingBacked(answers, tags, clock, u, p) && |tags| == |answers| && (a.u == u ==> a.Polled? && p.pid.Some?)
    ensures PendingBacked(answers + [a], tags + [t], clock, u, p)
  {
    if p.pid.None? {
      var i: nat :| LostAt(answers, i, u, p.at);
      assert LostAt(answers + [a], i, u, p.at);
    }
    if p.pid.Some? {
      var i: nat :| LaunchedAt(answers, tags, i, u, p.generation, p.pid.value, p.at, clock);
      assert LaunchedAt(answers + [a], tags + [t], i, u, p.generation, p.pid.value, p.at, clock);
    }
  }

  // ----- the observer's state ---------------------------------------------------------

  /** The observer's fields, with the answers that evidence is judged by; `dropped` were unlisted. */
  datatype Ledger = Ledger(observations: map<string, Observation>, pending: map<string, Pending>, answers: seq<Answer>,
                           tags: seq<Tag>, dropped: set<string>)

  /**
   * One command at most in every listed node, every entry accounted for, and every status backed
   * but that of a node whose last answer is still being dealt with.
   */
  ghost predicate Sound(l: Ledger, clock: real, alive: set<Job>, but: Option<string>) {
    && |l.tags| == |l.answers|
    && (forall u :: u !in l.dropped ==> Tracks(alive, u, Lookup(l.pending, u)))
    && (forall u :: u in l.pending ==> PendingBacked(l.answers, l.tags, clock, u, l.pending[u]))
    && (forall u :: u in l.observations ==> Hex32(u) && (but != Some(u) ==> Backed(l.answers, l.tags, clock, u, l.observations[u])))
  }

  lemma Accounted(l: Ledger, clock: real, alive: set<Job>, u: string)
    requires Sound(l, clock, alive, None) && u in l.pending
    ensures PendingBacked(l.answers, l.tags, clock, u, l.pending[u])
  {
  }

  /** A sound state is also sound but for one node. */
  lemma Excepting(l: Ledger, clock: real, alive: set<Job>, u: string)
    requires Sound(l, clock, alive, None)
    ensures Sound(l, clock, alive, Some(u))
  {
    hide Tracks, Backed, PendingBacked;
  }

  lemma TimePasses(l: Ledger, clock: real, alive: set<Job>, clock': real, alive': set<Job>, but: Option<string>)
    requires Sound(l, clock, alive, but) && Passes(clock, alive, clock', alive')
    ensures Sound(l, clock', alive', but)
  {
    hide Tracks, Backed, PendingBacked;
    forall u | u !in l.dropped ensures Tracks(alive', u, Lookup(l.pending, u)) {
      TracksLater(clock, alive, clock', alive', u, Lookup(l.pending, u));
    }
    forall u | u in l.pending ensures PendingBacked(l.answers, l.tags, clock', u, l.pending[u]) {
      PendingLater(l.answers, l.tags, clock, clock', u, l.pending[u]);
    }
    forall u | u in l.observations && but != Some(u) ensures Backed(l.answers, l.tags, clock', u, l.observations[u]) {
      BackedLater(l.answers, l.tags, clock, clock', u, l.observations[u]);
    }
  }

  /** What is recorded for the node in question settles it. */
  lemma Recorded(l: Ledger, clock: real, alive: set<Job>, but: Option<string>, u: string, o: Observation)
    requires Sound(l, clock, alive, but) && Hex32(u) && Backed(l.answers, l.tags, clock, u, o) && but in {None, Some(u)}
    ensures Sound(l.(observations := l.observations[u := o]), clock, alive, None)
  {
    hide Tracks, Backed, PendingBacked;
  }

  /** The answer to a poll. */
  lemma Heard(l: Ledger, clock: real, alive: set<Job>, a: Answer, t: Tag)
    requires Sound(l, clock, alive, None) && a.Polled? && (a.u in l.pending ==> l.pending[a.u].pid.Some?)
    ensures Sound(l.(answers := l.answers + [a], tags := l.tags + [t]), clock, alive, if Passed(a, t) then None else Some(a.u))
  {
    hide Tracks, Backed, PendingBacked, Passed;
    forall u | u in l.pending ensures PendingBacked(l.answers + [a], l.tags + [t], clock, u, l.pending[u]) {
      PendingBeside(l.answers, l.tags, a, t, clock, u, l.pending[u]);
    }
    forall u | u in l.observations && (a.u == u ==> Passed(a, t))
      ensures Backed(l.answers + [a], l.tags + [t], clock, u, l.observations[u])
    {
      BackedBeside(l.answers, l.tags, a, t, clock, u, l.observations[u]);
    }
  }

  /** The answer to a submission: an entry is kept for it, and only a known pid leaves the evidence standing. */
  lemma Launched(l: Ledger, clock: real, alive: set<Job>, clock1: real, alive1: set<Job>, clock': real, alive': set<Job>,
                 u: string, p: Pending, at: real)
    requires Sound(l, clock, alive, None) && Hex32(u) && u !in l.pending && forall j :: j in alive ==> j.at <= clock
    requires MayRun(clock, alive, clock1, alive1, u, at, p.pid) && Passes(clock1, alive1, clock', alive')
    requires if p.pid.Some? then p.at <= clock else p.at == clock'
    ensures Sound(l.(pending := l.pending[u := p], answers := l.answers + [Submitted(u, p.pid, at)],
                     tags := l.tags + [Tag(p.generation, p.generation)]), clock', alive', if p.pid.Some? then None else Some(u))
  {
    hide Backed, PendingBacked;
    var a, t := Submitted(u, p.pid, at), Tag(p.generation, p.generation);
    assert Lookup(l.pending, u) == None;
    forall v | v in l.observations && (v == u ==> p.pid.Some?)
      ensures Backed(l.answers + [a], l.tags + [t], clock', v, l.observations[v])
    {
      BackedBeside(l.answers, l.tags, a, t, clock, v, l.observations[v]);
      BackedLater(l.answers + [a], l.tags + [t], clock, clock', v, l.observations[v]);
    }
    forall v | v in l.pending ensures PendingBacked(l.answers + [a], l.tags + [t], clock', v, l.pending[v]) {
      PendingBeside(l.answers, l.tags, a, t, clock, v, l.pending[v]);
      PendingLater(l.answers + [a], l.tags + [t], clock, clock', v, l.pending[v]);
    }
    JustLaunched(l.answers, l.tags, clock', u, p, at);
    forall v | v !in l.dropped ensures Tracks(alive', v, Lookup(l.pending[u := p], v)) {
      assert Tracks(alive, v, Lookup(l.pending, v));
    }
  }

  lemma JustLaunched(answers: seq<Answer>, tags: seq<Tag>, clock: real, u: string, p: Pending, at: real)
    requires |tags| == |answers| && p.at <= clock && (if p.pid.Some? then p.at <= at <= clock else at <= p.at)
    ensures PendingBacked(answers + [Submitted(u, p.pid, at)], tags + [Tag(p.generation, p.generation)], clock, u, p)
  {
    if p.pid.Some? {
      assert LaunchedAt(answers + [Submitted(u, p.pid, at)], tags + [Tag(p.generation, p.generation)], |answers|, u,
                        p.generation, p.pid.value, p.at, clock);
    } else {
      assert LostAt(answers + [Submitted(u, p.pid, at)], |answers|, u, p.at);
    }
  }

  lemma NoMoreJobs(alive: set<Job>, alive': set<Job>, u: string, p: Pending)
    requires Tracks(alive, u, Some(p)) && alive' <= alive
    requires p.pid.Some? && forall j :: j in alive' ==> !(j.u == u && j.pid == p.pid.value)
    ensures Tracks(alive', u, None)
  {
  }

  lemma WaitedOut(clock: real, alive: set<Job>, u: string, p: Pending)
    requires Tracks(alive, u, Some(p)) && p.pid.None? && forall j :: j in alive ==> clock < j.at + STATUS_LIFETIME
    requires clock - p.at >= STATUS_LIFETIME
    ensures Tracks(alive, u, None)
  {
  }

  lemma Expired(l: Ledger, clock: real, alive: set<Job>, u: string)
    requires Sound(l, clock, alive, None) && u in l.pending && l.pending[u].pid.None?
    requires clock - l.pending[u].at >= STATUS_LIFETIME && forall j :: j in alive ==> clock < j.at + STATUS_LIFETIME
    ensures Sound(l.(pending := l.pending - {u}), clock, alive, None)
  {
    hide Tracks, Backed, PendingBacked;
    if u !in l.dropped {
      assert Tracks(alive, u, Lookup(l.pending, u));
      WaitedOut(clock, alive, u, l.pending[u]);
    }
  }

  lemma CommandGone(l: Ledger, clock: real, alive: set<Job>, u: string, but: Option<string>)
    requires Sound(l, clock, alive, but) && u in l.pending && l.pending[u].pid.Some?
    requires forall j :: j in alive ==> !(j.u == u && j.pid == l.pending[u].pid.value)
    ensures Sound(l.(pending := l.pending - {u}), clock, alive, but)
  {
    hide Tracks, Backed, PendingBacked;
    if u !in l.dropped {
      assert Tracks(alive, u, Lookup(l.pending, u));
      NoMoreJobs(alive, alive, u, l.pending[u]);
    }
  }

  lemma Forgotten(l: Ledger, clock: real, alive: set<Job>, live: set<string>)
    requires Sound(l, clock, alive, None)
    ensures Sound(Ledger(map u | u in l.observations && u in live :: l.observations[u],
                         map u | u in l.pending && u in live :: l.pending[u],
                         l.answers, l.tags, l.dropped + (l.pending.Keys - live)), clock, alive, None)
  {
    hide Backed, Tracks, PendingBacked;
    var kept := map u | u in l.pending && u in live :: l.pending[u];
    forall u | u !in l.dropped + (l.pending.Keys - live) ensures Tracks(alive, u, Lookup(kept, u)) {
      assert Tracks(alive, u, Lookup(l.pending, u));
    }
  }
}

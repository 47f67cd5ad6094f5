/** NodeManager: the operations on nodes, each one critical section that may die at any call. */
module Saga {
  import opened Wrappers
  import opened Text
  import opened Names
  import opened Paths
  import opened Xml
  import opened Meta
  import opened Disks
  import opened Built
  import opened Lifecycle
  import opened Hypervisor
  import opened Deletion

  // ----- electing a server ------------------------------------------------------------

  /** What plan() reads of a node; `ip` is "" when no lease is known. */
  datatype View = View(name: string, meta: NodeMeta, running: bool, ip: string)

  datatype Plan = Bootstrap | Join(server: string) | Refused

  /** A server that passed its readiness probe and can be joined. */
  predicate Usable(nodes: map<string, View>, ready: set<string>, u: string) {
    && u in nodes && nodes[u].meta.role.Server? && nodes[u].meta.state.Configured?
    && nodes[u].running && nodes[u].ip != "" && u in ready
  }

  /** The order of min(..., key=(created, name)). */
  predicate Earlier(a: View, b: View) {
    Less(a.meta.created, b.meta.created) || (a.meta.created == b.meta.created && Less(a.name, b.name))
  }

  lemma EarlierTrans(a: View, b: View, c: View)
    requires Earlier(a, b) && Earlier(b, c)
    ensures Earlier(a, c)
  {
    if Less(a.meta.created, b.meta.created) && Less(b.meta.created, c.meta.created) {
      LessTrans(a.meta.created, b.meta.created, c.meta.created);
    }
    if Less(a.name, b.name) && Less(b.name, c.name) {
      LessTrans(a.name, b.name, c.name);
    }
  }

  /** A bootstrap is elected only in an empty scope; otherwise the oldest usable server is joined. */
  method Elect(nodes: map<string, View>, role: Role, ready: set<string>) returns (p: Plan)
    ensures p.Bootstrap? <==> nodes.Keys == {} && role.Server?
    ensures p.Join? <==> exists u :: Usable(nodes, ready, u)
    ensures p.Join? ==> Usable(nodes, ready, p.server) &&
                        forall u :: Usable(nodes, ready, u) ==> !Earlier(nodes[u], nodes[p.server])
  {
    if role.Server? && nodes.Keys == {} {
      return Bootstrap;
    }
    p := Refused;
    var todo := nodes.Keys;
    while todo != {}
      invariant todo <= nodes.Keys && !p.Bootstrap?
      invariant p.Refused? ==> forall u :: u in nodes.Keys - todo ==> !Usable(nodes, ready, u)
      invariant p.Join? ==> Usable(nodes, ready, p.server)
      invariant p.Join? ==> forall u :: u in nodes.Keys - todo && Usable(nodes, ready, u) ==> !Earlier(nodes[u], nodes[p.server])
      decreases todo
    {
      var u :| u in todo;
      ghost var done := nodes.Keys - todo;
      todo := todo - {u};
      assert nodes.Keys - todo == done + {u};
      if Usable(nodes, ready, u) && (p.Refused? || Earlier(nodes[u], nodes[p.server])) {
        forall x | x in nodes.Keys - todo && Usable(nodes, ready, x) ensures !Earlier(nodes[x], nodes[u]) {
          if Earlier(nodes[x], nodes[u]) {
            EarlierIsStrict(nodes, x, u);
            if p.Join? {
              EarlierTrans(nodes[x], nodes[u], nodes[p.server]);
            }
          }
        }
        p := Join(u);
      }
    }
    assert nodes.Keys - todo == nodes.Keys;
  }

  lemma EarlierIsStrict(nodes: map<string, View>, x: string, u: string)
    requires x in nodes && u in nodes && Earlier(nodes[x], nodes[u])
    ensures x != u
  {
    if Less(nodes[x].meta.created, nodes[u].meta.created) {
      LessAsym(nodes[x].meta.created, nodes[u].meta.created);
    } else {
      LessAsym(nodes[x].name, nodes[u].name);
    }
  }

  function Views(cfg: Config, h: Host, leases: map<string, string>): map<string, View> {
    map u | u in Nodes(cfg, h) ::
      View(h.domains[u].name, h.domains[u].record.meta, u in h.active,
           if u in h.active && u in leases then leases[u] else "")
  }

  // ----- durable writes ---------------------------------------------------------------

  /** The guard of update_state: the caller's view is current and the transition is allowed. */
  predicate Admits(m: NodeMeta, generation: nat, state: State, expected: Option<set<State>>) {
    && m.generation == generation && !m.state.Deleting?
    && (expected.Some? ==> m.state in expected.value)
    && (state.Creating? ==> m.state.Creating?)
    && (m.state.Configured? ==> !state.Booting? && !state.Configuring? && !state.Failed?)
  }

  /** The call the observer makes: from and to states in which no operation is pending. */
  predicate ObserverCall(state: State, expected: Option<set<State>>) {
    !Incomplete(state) && expected.Some? && forall s :: s in expected.value ==> !Incomplete(s)
  }

  /** h' is h, up to guests stopping, with u's record advanced. */
  ghost predicate Advances(cfg: Config, u: string, h: Host, h': Host, state: State, error: Option<string>) {
    && IsNode(cfg, h, u)
    && OnlyStops(h, h'.(domains := h.domains))
    && h'.domains == h.domains[u := h.domains[u].(record := Managed(Advanced(MetaOf(cfg, h, u), state, error)))]
  }

  lemma AdvancedValid(m: NodeMeta, state: State, error: Option<string>)
    requires Valid(m)
    ensures Valid(Advanced(m, state, error))
    ensures Stored(Advanced(m, state, error)) == Managed(Advanced(m, state, error))
  {
    ClipIsIdempotent(error);
    StoredValid(Advanced(m, state, error));
  }

  /** update_state: a write that is skipped whenever the node moved on without the caller. */
  method UpdateState(cfg: Config, host: Libvirt, u: string, generation: nat, state: State, error: Option<string>,
                     expected: Option<set<State>>)
    returns (e: Ending, wrote: bool)
    requires WellRead(host.State())
    requires !host.dead
    modifies host
    ensures host.dead == e.Perished?
    ensures OnlyStops(old(host.State()), host.State())
            || Advances(cfg, u, old(host.State()), host.State(), state, error)
    ensures !(IsNode(cfg, old(host.State()), u) && Admits(MetaOf(cfg, old(host.State()), u), generation, state, expected)) ==>
              !wrote && OnlyStops(old(host.State()), host.State())
    ensures e.Returned? ==> (wrote <==> IsNode(cfg, old(host.State()), u)
                                        && Admits(MetaOf(cfg, old(host.State()), u), generation, state, expected))
    // Nothing is written over a record that moved on, belongs to a deletion, or is not in an expected state.
    ensures !OnlyStops(old(host.State()), host.State()) ==>
              && Compatible(old(host.State())) && IsNode(cfg, old(host.State()), u)
              && var m := MetaOf(cfg, old(host.State()), u);
                 m.generation == generation && !m.state.Deleting? && (expected.Some? ==> m.state in expected.value)
    ensures wrote ==> Advances(cfg, u, old(host.State()), host.State(), state, error)
    ensures Quiet(old(host.script)) && Compatible(old(host.State())) ==> e.Returned?
  {
    hide InScope, Valid, Stored, Outcome, Admits, Advances;
    wrote := false;
    ghost var h := host.State();
    e := CheckCompatible(host);
    if !e.Returned? || !IsNode(cfg, host.State(), u) {
      return;
    }
    var current := MetaOf(cfg, host.State(), u);
    AdmitsMeans(current, generation, state, expected);
    if !Admits(current, generation, state, expected) {
      return;
    }
    NodeIsValid(cfg, h, u);
    AdvancedValid(current, state, error);
    if Quiet(host.script) {
      QuietScript(host.script);
    }
    ghost var h1, event := host.State(), Head(host.script);
    var written := host.Call(WriteRecord(u, Advanced(current, state, error)));
    e := EndingOf(written);
    wrote := e.Returned?;
    WriteOutcome(h1, event, u, Advanced(current, state, error));
    OnlyStopsTrans(h, h1, host.State().(domains := h.domains));
    Written(cfg, u, h, host.State(), state, error);
  }

  lemma Written(cfg: Config, u: string, h: Host, h': Host, state: State, error: Option<string>)
    requires IsNode(cfg, h, u) && OnlyStops(h, h'.(domains := h.domains))
    ensures h'.domains == h.domains ==> OnlyStops(h, h')
    ensures h'.domains == h.domains[u := h.domains[u].(record := Managed(Advanced(MetaOf(cfg, h, u), state, error)))] ==>
              Advances(cfg, u, h, h', state, error)
  {
    hide Advanced, InScope;
  }

  lemma AdmitsMeans(m: NodeMeta, generation: nat, state: State, expected: Option<set<State>>)
    ensures Admits(m, generation, state, expected) ==>
              m.generation == generation && !m.state.Deleting? && (expected.Some? ==> m.state in expected.value)
  {
  }

  lemma WriteOutcome(h: Host, e: Event, u: string, m: NodeMeta)
    requires u in h.domains && Stored(m) == Managed(m)
    ensures var (h', reply) := Outcome(h, e, WriteRecord(u, m));
            && OnlyStops(h, h'.(domains := h.domains)) && (reply.Fine? <==> e.fault.Done?)
            && h'.domains == if Landed(e) then h.domains[u := h.domains[u].(record := Managed(m))] else h.domains
  {
    hide Stored;
  }

  lemma OnlyStopsTrans(a: Host, b: Host, c: Host)
    requires OnlyStops(a, b) && OnlyStops(b, c)
    ensures OnlyStops(a, c)
  {
  }

  /**
   * An admitted write keeps the invariant exactly when it does not forge a deletion and, leaving
   * `creating`, finds both volumes; the observer only ever makes such calls.
   */
  lemma UpdateKeepsExactly(cfg: Config, u: string, h: Host, h': Host, generation: nat, state: State,
                           error: Option<string>, expected: Option<set<State>>)
    requires Inv(cfg, h) && Advances(cfg, u, h, h', state, error)
    requires Admits(MetaOf(cfg, h, u), generation, state, expected)
    ensures Inv(cfg, h') <==> !state.Deleting? && (state.Creating? || HasBoth(cfg, h, u))
    ensures ObserverCall(state, expected) ==> Inv(cfg, h')
    ensures !state.Deleting? ==> Evolves(cfg, h, h')
  {
    hide AsBuilt, Valid, InScope, Stored, Clip;
    var m, m' := MetaOf(cfg, h, u), Advanced(MetaOf(cfg, h, u), state, error);
    assert Sound(cfg, h, u);
    BuiltIsValid(cfg, u, h.domains[u]);
    AdvancedValid(m, state, error);
    RewrittenAsBuilt(cfg, u, h.domains[u], m');
    StillNode(cfg, h.domains[u], m');
    assert h'.domains - {u} == h.domains - {u};
    if !state.Deleting? && (state.Creating? || HasBoth(cfg, h, u)) {
      forall v | IsNode(cfg, h, v) ensures Together(cfg, h, u, v) {
      }
      LocalChange(cfg, u, h, h');
    } else {
      assert IsNode(cfg, h', u) && !Agrees(cfg, h', u);
      assert !Sound(cfg, h', u);
    }
    if !state.Deleting? {
      LocalHistory(cfg, u, h, h');
    }
  }

  lemma StillNode(cfg: Config, d: Domain, m: NodeMeta)
    requires InScope(cfg, d) && m.poolUuid == d.record.meta.poolUuid && m.prefix == d.record.meta.prefix
    ensures InScope(cfg, d.(record := Managed(m)))
  {
  }

  // ----- launch recovery of one node --------------------------------------------------

  predicate Startable(s: State) {
    s.Booting? || s.Configuring? || s.Configured?
  }

  predicate StartableNow(cfg: Config, h: Host, u: string, generation: nat, expected: State) {
    && IsNode(cfg, h, u) && Startable(MetaOf(cfg, h, u).state)
    && MetaOf(cfg, h, u).generation == generation && MetaOf(cfg, h, u).state == expected
  }

  /** The one call that start_if_current makes. */
  method PowerOn(cfg: Config, host: Libvirt, u: string) returns (e: Ending)
    requires u in host.domains && u !in host.active && !host.dead
    modifies host
    ensures host.dead == e.Perished? && !e.Conflicted? && host.started == old(host.started) + [u]
    ensures OnlyAt(cfg, u, old(host.State()), host.State())
    ensures host.State() == old(host.State()).(active := host.active, halted := host.halted)
    ensures e.Returned? ==> u in host.active
    ensures Calm(old(host.script)) ==> Calm(host.script) && host.active in {old(host.active), old(host.active) + {u}}
    ensures Single(old(host.script)) ==> Single(host.script) && (e.Returned? || Quiet(host.script))
    ensures Quiet(old(host.script)) ==> Quiet(host.script) && e.Returned? && host.active == old(host.active) + {u}
  {
    hide OnlyAt, Outcome, Single, Calm, Quiet, TailOf;
    ghost var h, event := host.State(), Head(host.script);
    if Quiet(host.script) {
      QuietScript(host.script);
    }
    SingleScript(host.script);
    if Calm(host.script) {
      CalmCall(host.script);
    }
    var reply := host.Call(Start(u));
    StartOutcome(cfg, h, event, u);
    e := EndingOf(reply);
  }

  /** start_if_current: start a retained guest that is off, touching nothing durable. */
  method StartIfCurrent(cfg: Config, host: Libvirt, u: string, generation: nat, expected: State)
    returns (e: Ending, started: bool)
    requires !host.dead
    modifies host
    ensures host.dead == e.Perished?
    ensures OnlyAt(cfg, u, old(host.State()), host.State())
    ensures host.domains == old(host.domains) && host.volumes == old(host.volumes)
    ensures host.used == old(host.used) && host.nextCluster == old(host.nextCluster)
    ensures u in host.active && u !in old(host.active) ==> StartableNow(cfg, old(host.State()), u, generation, expected)
    ensures started ==> u in host.active
    ensures host.started == old(host.started)
            || (host.started == old(host.started) + [u] && StartableNow(cfg, old(host.State()), u, generation, expected)
                && NamesMatch(cfg, u, old(host.domains)[u]) && Compatible(old(host.State())))
    ensures !e.Returned? ==> !started
    ensures StartableNow(cfg, old(host.State()), u, generation, expected) && !NamesMatch(cfg, u, old(host.domains)[u]) ==> !e.Returned?
    ensures e.Conflicted? <==> Head(old(host.script)).fault.Done? && !Compatible(old(host.State()))
    ensures !Compatible(old(host.State())) ==> !started && !e.Returned? && host.script == TailOf(old(host.script))
    // With faults but no guest stopping on its own: a failure says nothing of u, and nothing else changes.
    ensures Calm(old(host.script)) && Inv(cfg, old(host.State())) && Compatible(old(host.State())) ==>
              && Calm(host.script) && !e.Conflicted? && host.active in {old(host.active), old(host.active) + {u}}
              && (e.Returned? && StartableNow(cfg, old(host.State()), u, generation, expected) ==> u in host.active)
    ensures Single(old(host.script)) && Inv(cfg, old(host.State())) && Compatible(old(host.State())) ==>
              Single(host.script) && (e.Returned? || Quiet(host.script))
    ensures Inv(cfg, old(host.State())) ==> Inv(cfg, host.State()) && Evolves(cfg, old(host.State()), host.State())
    ensures Quiet(old(host.script)) && Inv(cfg, old(host.State())) && Compatible(old(host.State())) ==>
              && e.Returned? && Quiet(host.script) && (started ==> u !in old(host.active))
              && host.active == (if started then old(host.active) + {u} else old(host.active))
              && (StartableNow(cfg, old(host.State()), u, generation, expected) ==> u in host.active)
  {
    hide AsBuilt, InScope, Valid, Inv, Evolves, NamesMatch, Outcome, OnlyAt, Single, Calm, Quiet, Compatible, Ran, TailOf, Startable, OnlyStops;
    started := false;
    ghost var h := host.State();
    if Inv(cfg, h) && IsNode(cfg, h, u) {
      NodeNames(cfg, h, u);
    }
    e := CheckCompatible(host);
    ghost var h1 := host.State();
    OnlyStopsKeeps(cfg, h, h1);
    if !e.Returned? || !IsNode(cfg, host.State(), u) {
      return;
    }
    var current := MetaOf(cfg, host.State(), u);
    if current.generation != generation || current.state != expected || !Startable(current.state) {
      return;
    }
    if !NamesMatch(cfg, u, host.domains[u]) {
      return Threw, false;
    }
    if u in host.active {
      return;
    }
    e := PowerOn(cfg, host, u);
    started := e.Returned?;
    StopsThenAt(cfg, u, h, h1, host.State());
    if Inv(cfg, h) {
      StartKeeps(cfg, u, h1, host.State());
      EvolvesTrans(cfg, h, h1, host.State());
    }
  }

  lemma StartOutcome(cfg: Config, h: Host, e: Event, u: string)
    requires u in h.domains && u !in h.active
    ensures var (h', reply) := Outcome(h, e, Start(u));
            && OnlyAt(cfg, u, h, h') && h' == h.(active := h'.active, halted := h'.halted)
            && (reply.Fine? ==> u in h'.active)
            && (e == QUIET ==> reply.Fine? && h'.active == h.active + {u}) && (reply.Fine? <==> e.fault.Done?)
            && (e.stopped == {} ==> h'.active in {h.active, h.active + {u}})
  {
    hide ClaimsOf;
    assert h.active - {} == h.active;
  }

  lemma StopsThenAt(cfg: Config, u: string, a: Host, b: Host, c: Host)
    requires OnlyStops(a, b) && OnlyAt(cfg, u, b, c)
    ensures OnlyAt(cfg, u, a, c)
  {
    hide ClaimsOf, OnlyStops, OnlyAt;
    OnlyStopsKeeps(cfg, a, b);
    OnlyAtTrans(cfg, u, a, b, c);
  }

  lemma NodeNames(cfg: Config, h: Host, u: string)
    requires Inv(cfg, h) && IsNode(cfg, h, u)
    ensures NamesMatch(cfg, u, h.domains[u])
  {
    hide AsBuilt;
    assert Sound(cfg, h, u);
    BuiltIsValid(cfg, u, h.domains[u]);
  }

  lemma StartKeeps(cfg: Config, u: string, h: Host, h': Host)
    requires Inv(cfg, h) && OnlyAt(cfg, u, h, h') && h'.domains == h.domains && h'.volumes == h.volumes
    requires IsNode(cfg, h, u) && Startable(MetaOf(cfg, h, u).state)
    ensures Inv(cfg, h') && Evolves(cfg, h, h')
  {
    hide AsBuilt, InScope;
    assert Sound(cfg, h, u);
    forall v | IsNode(cfg, h, v) ensures Together(cfg, h, u, v) {
    }
    LocalChange(cfg, u, h, h');
    LocalHistory(cfg, u, h, h');
  }

  // ----- creating a node --------------------------------------------------------------

  const MARKER := "k3s-kvm-demo.marker"

  /** require_owned: the marker is there and every other volume has a name of this scope. */
  predicate OwnedPool(cfg: Config, h: Host) {
    MARKER in h.volumes && forall v :: v in h.volumes && v != MARKER ==> VolumePattern(cfg.prefix, v)
  }

  function NewMeta(cfg: Config, u: string, role: Role, bootstrap: bool, created: string): NodeMeta {
    var name := NodeName(cfg.prefix, u);
    NodeMeta(role, bootstrap, VolumeName(name), SeedName(name), cfg.poolUuid, cfg.prefix, created, 1, Creating, 1, None)
  }

  /** What libvirt makes of the disks it was given, in its two definitions. */
  datatype Rendering = Rendering(config: seq<Element>, live: seq<Element>)

  /** An oracle's rendering, or the disks verbatim if it is none of them. */
  function Rendered(cfg: Config, name: string, r: Rendering): Rendering {
    if Renders(r.config, cfg.target, name, cfg.baseImage) && Renders(r.live, cfg.target, name, cfg.baseImage) then r
    else Rendering(BuiltDisks(cfg.target, name, cfg.baseImage), BuiltDisks(cfg.target, name, cfg.baseImage))
  }

  /** The domain build_domain_xml describes; its inline record is the qualified element. */
  function NewDomain(cfg: Config, u: string, m: NodeMeta, origin: Origin, r: Rendering): Domain {
    var name := NodeName(cfg.prefix, u);
    var disks := Rendered(cfg, name, r);
    Domain(name, AsRead(Build(m, true)), true, disks.config, disks.live, cfg.baseImage, origin)
  }

  lemma NewMetaValid(cfg: Config, u: string, role: Role, bootstrap: bool, created: string)
    requires ValidPrefix(cfg.prefix) && Canonical(cfg.poolUuid) && Hex32(u) && ValidCreated(created)
    requires bootstrap ==> role.Server?
    ensures Valid(NewMeta(cfg, u, role, bootstrap, created))
  {
    hide ValidCreated, Canonical, ValidPrefix, VolumePattern, EndsWith, NodeName;
    ClaimsMatchPattern(cfg.prefix, u);
    assert Clip(None) == None;
  }

  lemma NewDomainAsBuilt(cfg: Config, u: string, role: Role, bootstrap: bool, created: string, origin: Origin, r: Rendering)
    requires ConfigOk(cfg) && Hex32(u) && ValidCreated(created) && (bootstrap ==> role.Server?)
    ensures var m := NewMeta(cfg, u, role, bootstrap, created);
            var d := NewDomain(cfg, u, m, origin, r);
            Valid(m) && d.record == Managed(m) && InScope(cfg, d) && AsBuilt(cfg, u, d)
  {
    hide Renders, BuiltDisks, ValidCreated, Canonical, Outside, Absolute, Valid, Stored, AsRead, Build, NodeName;
    BuiltRenders(cfg.target, NodeName(cfg.prefix, u), cfg.baseImage);
    var m := NewMeta(cfg, u, role, bootstrap, created);
    NewMetaValid(cfg, u, role, bootstrap, created);
    StoredValid(m);
    assert IsBuilt(GuestOf(NewDomain(cfg, u, m, origin, r), false), cfg.target, cfg.prefix, u, cfg.baseImage);
  }

  /** The parts of a record that are settled when it is first written. */
  predicate Alike(m: NodeMeta, m0: NodeMeta) {
    m == m0.(state := m.state, generation := m.generation)
  }

  /** What create may have built of u by the time it stops: nothing, or a sound node. */
  ghost predicate Building(cfg: Config, u: string, h0: Host, h: Host, origin: Origin, m0: NodeMeta) {
    && OnlyAt(cfg, u, h0, h) && m0.error == None
    && (u in h.domains ==>
          && IsNode(cfg, h, u) && Sound(cfg, h, u)
          && h.domains[u].origin == origin && Alike(MetaOf(cfg, h, u), m0))
    && (u !in h.domains ==> ClaimsOf(cfg, u) !! h.volumes && u !in h.active)
  }

  lemma OnlyAtTrans(cfg: Config, u: string, a: Host, b: Host, c: Host)
    requires OnlyAt(cfg, u, a, b) && OnlyAt(cfg, u, b, c)
    ensures OnlyAt(cfg, u, a, c)
  {
    hide ClaimsOf;
    forall v | v in a.active && v != u && v !in c.active ensures v in c.halted {
      if v !in b.active {
        assert v in b.halted;
        assert v in c.halted + {u};
      } else {
        assert v in b.active - {u} - c.active;
      }
    }
  }

  /** A step that changes only stops, volumes and the record, and leaves u in agreement. */
  lemma BuildStep(cfg: Config, u: string, h0: Host, h: Host, h': Host, origin: Origin, m0: NodeMeta)
    requires Building(cfg, u, h0, h, origin, m0) && OnlyAt(cfg, u, h, h') && u in h.domains && u in h'.domains
    requires IsNode(cfg, h', u) && h'.domains[u] == h.domains[u].(record := h'.domains[u].record)
    requires AsBuilt(cfg, u, h'.domains[u]) && Agrees(cfg, h', u)
    requires Alike(MetaOf(cfg, h', u), MetaOf(cfg, h, u))
    ensures Building(cfg, u, h0, h', origin, m0)
  {
    hide AsBuilt, InScope, Agrees;
    OnlyAtTrans(cfg, u, h0, h, h');
  }

  lemma BuildStops(cfg: Config, u: string, h0: Host, h: Host, h': Host, origin: Origin, m0: NodeMeta)
    requires Building(cfg, u, h0, h, origin, m0) && OnlyStops(h, h')
    ensures Building(cfg, u, h0, h', origin, m0)
  {
    hide AsBuilt, InScope;
    OnlyAtTrans(cfg, u, h0, h, h');
  }

  method DefineNode(cfg: Config, host: Libvirt, u: string, m: NodeMeta, origin: Origin, r: Rendering) returns (e: Ending)
    requires ConfigOk(cfg) && Hex32(u) && m.generation == 1 && m.state.Creating? && m.error == None
    requires var d := NewDomain(cfg, u, m, origin, r); d.record == Managed(m) && InScope(cfg, d) && AsBuilt(cfg, u, d)
    requires u !in host.domains && u !in host.active && ClaimsOf(cfg, u) !! host.volumes
    requires !host.dead
    modifies host
    ensures host.dead == e.Perished?
    ensures !e.Conflicted? && host.script == TailOf(old(host.script)) && (e.Returned? <==> Head(old(host.script)).fault.Done?)
    ensures Ran(old(host.replies), host.replies, e.Returned?)
    ensures Building(cfg, u, old(host.State()), host.State(), origin, m)
    ensures host.volumes == old(host.volumes) && u !in host.active
    ensures u in host.domains ==> host.domains[u].record == Managed(m)
    ensures e.Returned? ==> u in host.domains
    ensures Quiet(old(host.script)) ==> e.Returned? && Quiet(host.script)
    ensures Single(old(host.script)) ==> Single(host.script) && (e.Returned? || Quiet(host.script))
  {
    hide AsBuilt, InScope, Stored, AsRead, NewDomain, ClaimsOf, ConfigOk;
    SingleScript(host.script);
    if Quiet(host.script) {
      QuietScript(host.script);
    }
    NewDomainFields(cfg, u, m, origin, r);
    ghost var h, event := host.State(), Head(host.script);
    var reply := host.Call(Define(u, NewDomain(cfg, u, m, origin, r)));
    e := EndingOf(reply);
    DefineOutcome(cfg, h, event, u, NewDomain(cfg, u, m, origin, r), m);
  }

  lemma DefineOutcome(cfg: Config, h: Host, e: Event, u: string, d: Domain, m: NodeMeta)
    requires u !in h.domains && u !in h.active && ClaimsOf(cfg, u) !! h.volumes && Hex32(u)
    requires m.generation == 1 && m.state.Creating? && m.error == None && d.record == Managed(m) && InScope(cfg, d) && AsBuilt(cfg, u, d)
    ensures var h' := Outcome(h, e, Define(u, d)).0;
            && Building(cfg, u, h, h', d.origin, m) && h'.volumes == h.volumes && u !in h'.active
            && (u in h'.domains ==> h'.domains[u] == d)
  {
    hide AsBuilt, InScope, ClaimsOf;
    var h' := Outcome(h, e, Define(u, d)).0;
    assert h'.domains - {u} == h.domains - {u};
    if u in h'.domains {
      assert Agrees(cfg, h', u);
    }
  }

  lemma NewDomainFields(cfg: Config, u: string, m: NodeMeta, origin: Origin, r: Rendering)
    ensures NewDomain(cfg, u, m, origin, r).origin == origin
  {
  }

  method AddVolume(cfg: Config, host: Libvirt, u: string, v: string, ghost h0: Host, ghost origin: Origin, ghost m0: NodeMeta)
    returns (e: Ending)
    requires Building(cfg, u, h0, host.State(), origin, m0) && v in ClaimsOf(cfg, u)
    requires u in host.domains && u !in host.active && MetaOf(cfg, host.State(), u).state.Creating?
    requires !host.dead
    modifies host
    ensures host.dead == e.Perished?
    ensures !e.Conflicted? && host.script == TailOf(old(host.script))
    ensures v !in old(host.volumes) ==> (e.Returned? <==> Head(old(host.script)).fault.Done?)
    ensures Ran(old(host.replies), host.replies, e.Returned?)
    ensures Building(cfg, u, h0, host.State(), origin, m0)
    ensures host.domains == old(host.domains) && u !in host.active
    ensures old(host.volumes) <= host.volumes <= old(host.volumes) + {v}
    ensures e.Returned? ==> v in host.volumes
    ensures Quiet(old(host.script)) && v !in old(host.volumes) ==> e.Returned? && Quiet(host.script)
    ensures Single(old(host.script)) && v !in old(host.volumes) ==> Single(host.script) && (e.Returned? || Quiet(host.script))
  {
    hide AsBuilt, InScope, ClaimsOf, Outcome, OnlyAt, Agrees;
    SingleScript(host.script);
    if Quiet(host.script) {
      QuietScript(host.script);
    }
    ghost var h, event := host.State(), Head(host.script);
    var reply := host.Call(CreateVolume(v));
    e := EndingOf(reply);
    CreateOutcome(cfg, h, event, u, v);
    BuildStep(cfg, u, h0, h, host.State(), origin, m0);
  }

  lemma CreateOutcome(cfg: Config, h: Host, e: Event, u: string, v: string)
    requires v in ClaimsOf(cfg, u) && IsNode(cfg, h, u) && Agrees(cfg, h, u)
    requires MetaOf(cfg, h, u).state.Creating? && u !in h.active
    ensures var (h', reply) := Outcome(h, e, CreateVolume(v));
            && OnlyAt(cfg, u, h, h') && h'.domains == h.domains && u !in h'.active
            && h.volumes <= h'.volumes <= h.volumes + {v}
            && IsNode(cfg, h', u) && Agrees(cfg, h', u)
            && (reply.Fine? ==> v in h'.volumes)
            && (v !in h.volumes ==> (reply.Fine? <==> e.fault.Done?)) && (e == QUIET && v !in h.volumes ==> reply.Fine?)
  {
    hide ClaimsOf, InScope;
    var h' := Outcome(h, e, CreateVolume(v)).0;
    assert h'.volumes - ClaimsOf(cfg, u) == h.volumes - ClaimsOf(cfg, u);
  }

  predicate IsBooting(cfg: Config, h: Host, u: string) {
    IsNode(cfg, h, u) && MetaOf(cfg, h, u).state.Booting?
  }

  predicate IsCreating(cfg: Config, h: Host, u: string) {
    IsNode(cfg, h, u) && MetaOf(cfg, h, u).state.Creating?
  }

  /** Record `booting`: the node is ready to launch. */
  method CommitBooting(cfg: Config, host: Libvirt, u: string, ghost h0: Host, ghost origin: Origin, ghost m0: NodeMeta)
    returns (e: Ending)
    requires Building(cfg, u, h0, host.State(), origin, m0) && HasBoth(cfg, host.State(), u)
    requires u in host.domains && u !in host.active
    requires IsCreating(cfg, host.State(), u)
    requires !host.dead
    modifies host
    ensures host.dead == e.Perished?
    ensures !e.Conflicted? && host.script == TailOf(old(host.script)) && (e.Returned? <==> Head(old(host.script)).fault.Done?)
    ensures if Landed(Head(old(host.script))) then IsBooting(cfg, host.State(), u) else IsCreating(cfg, host.State(), u)
    ensures Ran(old(host.replies), host.replies, e.Returned?)
    ensures Building(cfg, u, h0, host.State(), origin, m0)
    ensures u !in host.active && host.volumes == old(host.volumes)
    ensures Quiet(old(host.script)) ==> e.Returned? && Quiet(host.script)
    ensures Single(old(host.script)) ==> Single(host.script) && (e.Returned? || Quiet(host.script))
  {
    hide AsBuilt, InScope, Valid, Stored, ClaimsOf, Outcome, OnlyAt, Ran, Building, Agrees, Advanced, Single, Quiet, Alike, HasBoth, Sound;
    SingleScript(host.script);
    if Quiet(host.script) {
      QuietScript(host.script);
    }
    ghost var h, event, before := host.State(), Head(host.script), host.replies;
    BuildingMeans(cfg, u, h0, h, origin, m0);
    var m := MetaOf(cfg, host.State(), u);
    var reply := host.Call(WriteRecord(u, Advanced(m, Booting, None)));
    e := EndingOf(reply);
    RanOne(before, reply, reply.Fine?);
    BootOutcome(cfg, h, event, u, m0);
    AlikeStill(MetaOf(cfg, h, u), MetaOf(cfg, host.State(), u));
    BuildStep(cfg, u, h0, h, host.State(), origin, m0);
  }

  lemma AlikeStill(m: NodeMeta, m': NodeMeta)
    requires m' == m.(state := m'.state)
    ensures Alike(m', m)
  {
  }

  lemma BuildingMeans(cfg: Config, u: string, h0: Host, h: Host, origin: Origin, m0: NodeMeta)
    requires Building(cfg, u, h0, h, origin, m0) && u in h.domains
    ensures IsNode(cfg, h, u) && AsBuilt(cfg, u, h.domains[u]) && Agrees(cfg, h, u) && Alike(MetaOf(cfg, h, u), m0) && m0.error == None
  {
    hide AsBuilt, InScope, OnlyAt, Agrees;
  }

  lemma BootOutcome(cfg: Config, h: Host, e: Event, u: string, m0: NodeMeta)
    requires IsNode(cfg, h, u) && AsBuilt(cfg, u, h.domains[u]) && Agrees(cfg, h, u) && HasBoth(cfg, h, u)
    requires u !in h.active && MetaOf(cfg, h, u).state.Creating? && Alike(MetaOf(cfg, h, u), m0) && m0.error == None
    ensures var m := MetaOf(cfg, h, u);
            var (h', reply) := Outcome(h, e, WriteRecord(u, Advanced(m, Booting, None)));
            && OnlyAt(cfg, u, h, h') && h'.volumes == h.volumes && u !in h'.active && (reply.Fine? <==> e.fault.Done?)
            && IsNode(cfg, h', u) && AsBuilt(cfg, u, h'.domains[u]) && Agrees(cfg, h', u)
            && h'.domains[u] == h.domains[u].(record := h'.domains[u].record)
            && MetaOf(cfg, h', u) == (if Landed(e) then m.(state := Booting) else m)
  {
    hide AsBuilt, InScope, Valid, Stored, ClaimsOf, Outcome;
    var m := MetaOf(cfg, h, u);
    assert Clip(None) == None;
    BuiltIsValid(cfg, u, h.domains[u]);
    AdvancedValid(m, Booting, None);
    RewrittenAsBuilt(cfg, u, h.domains[u], Advanced(m, Booting, None));
    StillNode(cfg, h.domains[u], Advanced(m, Booting, None));
    WriteOutcome(h, e, u, Advanced(m, Booting, None));
    assert h.domains[u := h.domains[u].(record := Managed(Advanced(m, Booting, None)))] - {u} == h.domains - {u};
  }

  lemma FiveCalls(script: seq<Event>)
    ensures DoneFor(script, 0) && Rest(script, 0) == script
    ensures (DoneFor(script, 1) <==> DoneFor(script, 0) && Head(Rest(script, 0)).fault.Done?) && Rest(script, 1) == TailOf(Rest(script, 0))
    ensures (DoneFor(script, 2) <==> DoneFor(script, 1) && Head(Rest(script, 1)).fault.Done?) && Rest(script, 2) == TailOf(Rest(script, 1))
    ensures (DoneFor(script, 3) <==> DoneFor(script, 2) && Head(Rest(script, 2)).fault.Done?) && Rest(script, 3) == TailOf(Rest(script, 2))
    ensures (DoneFor(script, 4) <==> DoneFor(script, 3) && Head(Rest(script, 3)).fault.Done?) && Rest(script, 4) == TailOf(Rest(script, 3))
    ensures (DoneFor(script, 5) <==> DoneFor(script, 4) && Head(Rest(script, 4)).fault.Done?) && Rest(script, 5) == TailOf(Rest(script, 4))
    ensures EventAt(script, 4) == Head(Rest(script, 4))
  {
    hide DoneFor, Rest, Head, TailOf, EventAt;
    DoneOneMore(script, 0);
    DoneOneMore(script, 1);
    DoneOneMore(script, 2);
    DoneOneMore(script, 3);
    DoneOneMore(script, 4);
  }

  lemma TwoClaims(cfg: Config, u: string)
    ensures ClaimsOf(cfg, u) == {VolumeName(NodeName(cfg.prefix, u)), SeedName(NodeName(cfg.prefix, u))}
  {
  }

  lemma StillCreating(cfg: Config, u: string, h0: Host, h: Host, origin: Origin, m: NodeMeta)
    requires Building(cfg, u, h0, h, origin, m)
    ensures u in h.domains ==> IsNode(cfg, h, u) && (!Incomplete(MetaOf(cfg, h, u).state) ==> HasBoth(cfg, h, u))
    ensures IsCreating(cfg, h, u) ==> MetaOf(cfg, h, u).generation == 1
    ensures u !in h.domains ==> ClaimsOf(cfg, u) !! h.volumes && u !in h.active
  {
  }

  /** The steps inside create's try block up to launch_ready. */
  method Provision(cfg: Config, host: Libvirt, u: string, role: Role, bootstrap: bool, created: string, origin: Origin, r: Rendering)
    returns (e: Ending)
    requires ConfigOk(cfg) && Hex32(u) && ValidCreated(created) && (bootstrap ==> role.Server?)
    requires u !in host.domains && u !in host.active && ClaimsOf(cfg, u) !! host.volumes
    requires !host.dead
    modifies host
    ensures host.dead == e.Perished?
    ensures !e.Conflicted? && Ran(old(host.replies), host.replies, e.Returned?)
    // It commits exactly if the four calls before are done and the write of `booting` lands.
    ensures e.Returned? <==> DoneFor(old(host.script), 5)
    ensures IsBooting(cfg, host.State(), u) <==>
              DoneFor(old(host.script), 4) && Landed(EventAt(old(host.script), 4))
    ensures e.Returned? ==> host.script == Rest(old(host.script), 5)
    ensures SeedName(NodeName(cfg.prefix, u)) in host.volumes ==> VolumeName(NodeName(cfg.prefix, u)) in host.volumes
    ensures Building(cfg, u, old(host.State()), host.State(), origin, NewMeta(cfg, u, role, bootstrap, created))
    ensures u in host.domains ==> u !in host.active && (IsCreating(cfg, host.State(), u) || IsBooting(cfg, host.State(), u))
    ensures e.Returned? ==> u in host.domains && IsBooting(cfg, host.State(), u)
    ensures Quiet(old(host.script)) ==> e.Returned? && Quiet(host.script)
    ensures Single(old(host.script)) ==> Single(host.script) && (e.Returned? || Quiet(host.script))
  {
    hide AsBuilt, InScope, Valid, ValidCreated, Stored, AsRead, Outside, Absolute, Canonical, NewDomain, Head, TailOf, Rest, EventAt,
      DoneFor, Ran, Building, OnlyAt, ClaimsOf;
    ghost var script, replies := host.script, host.replies;
    FiveCalls(script);
    TwoClaims(cfg, u);
    RanOne(replies, Fine, true);
    ghost var h0 := host.State();
    var m := NewMeta(cfg, u, role, bootstrap, created);
    var name := NodeName(cfg.prefix, u);
    NewDomainAsBuilt(cfg, u, role, bootstrap, created, origin, r);
    e := DefineNode(cfg, host, u, m, origin, r);
    RanLess(replies, host.replies);
    StillCreating(cfg, u, h0, host.State(), origin, m);
    if !e.Returned? {
      return;
    }
    ghost var made := host.replies;
    ClaimsDisjoint(cfg.prefix, u, cfg.prefix, u);
    e := AddVolume(cfg, host, u, VolumeName(name), h0, origin, m);
    RanOn(replies, made, host.replies, e.Returned?);
    if !e.Returned? {
      return;
    }
    made := host.replies;
    e := AddVolume(cfg, host, u, SeedName(name), h0, origin, m);
    RanOn(replies, made, host.replies, e.Returned?);
    if !e.Returned? {
      return;
    }
    ghost var h1 := host.State();
    made := host.replies;
    e := Read(host);  // upload_seed, which changes nothing the model keeps
    RanOn(replies, made, host.replies, e.Returned?);
    BuildStops(cfg, u, h0, h1, host.State(), origin, m);
    if !e.Returned? {
      return;
    }
    made := host.replies;
    e := CommitBooting(cfg, host, u, h0, origin, m);
    RanOn(replies, made, host.replies, e.Returned?);
  }

  /** Compensation, complete or not, leaves u built or gone. */
  lemma BuildFootprint(cfg: Config, u: string, h0: Host, h: Host, h': Host, origin: Origin, m0: NodeMeta)
    requires Building(cfg, u, h0, h, origin, m0) && Footprint(cfg, u, h, h')
    ensures Building(cfg, u, h0, h', origin, m0)
  {
    hide AsBuilt, InScope, ClaimsOf;
    OnlyAtTrans(cfg, u, h0, h, h');
    if u in h.domains {
      StaysSound(cfg, u, h, h');
      assert Clip(None) == None;
    }
  }

  lemma StartStep(cfg: Config, u: string, h0: Host, h: Host, e: Event, origin: Origin, m0: NodeMeta)
    requires Building(cfg, u, h0, h, origin, m0) && u in h.domains && MetaOf(cfg, h, u).state.Booting?
    ensures var h' := Outcome(h, e, Start(u)).0;
            && Building(cfg, u, h0, h', origin, m0) && h'.domains == h.domains && h'.volumes == h.volumes
            && (u !in h.active ==> (u in h'.active <==> Landed(e)) && (Outcome(h, e, Start(u)).1.Fine? <==> e.fault.Done?))
  {
    hide AsBuilt, InScope, ClaimsOf;
    var h' := Outcome(h, e, Start(u)).0;
    assert OnlyAt(cfg, u, h, h');
    BuildStep(cfg, u, h0, h, h', origin, m0);
  }

  /** Whatever create left of u fits the cluster it found. */
  lemma BuildKeeps(cfg: Config, u: string, h0: Host, h: Host, origin: Origin, m0: NodeMeta)
    requires Inv(cfg, h0) && Building(cfg, u, h0, h, origin, m0) && Hex32(u)
    requires u !in h0.domains && ClaimsOf(cfg, u) !! h0.volumes
    requires forall v :: IsNode(cfg, h0, v) ==> h0.domains[v].origin.cluster == origin.cluster && !m0.bootstrap
    ensures Inv(cfg, h)
    ensures u !in h0.used ==> Evolves(cfg, h0, h)
    ensures Nodes(cfg, h) <= Nodes(cfg, h0) + {u}
  {
    hide AsBuilt, InScope, ClaimsOf, Agrees;
    LocalChange(cfg, u, h0, h);
    if u !in h0.used {
      LocalHistory(cfg, u, h0, h);
    }
    forall v | v in Nodes(cfg, h) && v != u ensures v in Nodes(cfg, h0) {
      OtherNodes(cfg, u, h0, h, v);
    }
  }

  /** The name allocate() returns is not on the host. */
  predicate Allocated(cfg: Config, h: Host, u: string) {
    Hex32(u) && forall v :: v in h.domains ==> h.domains[v].name != NodeName(cfg.prefix, u)
  }

  predicate Electable(cfg: Config, h: Host, role: Role, ready: set<string>, leases: map<string, string>) {
    || (role.Server? && Nodes(cfg, h) == {})
    || exists s :: s in Nodes(cfg, h) && Usable(Views(cfg, h, leases), ready, s)
  }

  /** Nothing on the host stands in the way of creating u. */
  predicate Creatable(cfg: Config, h: Host, u: string, role: Role, ready: set<string>, leases: map<string, string>) {
    && (forall v :: v in h.domains ==> !h.domains[v].record.Incompatible?)
    && |Nodes(cfg, h)| < cfg.maxNodes && Electable(cfg, h, role, ready, leases) && OwnedPool(cfg, h)
    && u !in h.domains && ClaimsOf(cfg, u) !! h.volumes
  }

  lemma UsableBefore(cfg: Config, h: Host, h': Host, ready: set<string>, leases: map<string, string>)
    requires OnlyStops(h, h')
    ensures Views(cfg, h', leases).Keys == Nodes(cfg, h) == Nodes(cfg, h')
    ensures forall s :: Usable(Views(cfg, h', leases), ready, s) ==> IsNode(cfg, h, s) && Usable(Views(cfg, h, leases), ready, s)
  {
    hide InScope;
  }

  /** Every domain that is not a node can be read and leaves u's volumes alone. */
  ghost predicate OutsidersApart(cfg: Config, h: Host, u: string) {
    forall v :: v in h.domains && !IsNode(cfg, h, v) ==> Harmless(cfg, h, u, v)
  }

  /** Nothing but faults can hold up the compensation for a failed creation of u. */
  ghost predicate Unhindered(cfg: Config, h: Host, u: string, cluster: nat, bootstrap: bool) {
    && Inv(cfg, h)
    && OutsidersApart(cfg, h, u)
    && (forall v :: IsNode(cfg, h, v) ==> h.domains[v].origin.cluster == cluster && !bootstrap)
  }

  lemma BuiltUnhindered(cfg: Config, u: string, h0: Host, h: Host, origin: Origin, m0: NodeMeta)
    requires Unhindered(cfg, h0, u, origin.cluster, m0.bootstrap) && Building(cfg, u, h0, h, origin, m0)
    requires IsNode(cfg, h, u) && Hex32(u) && u !in h0.domains && ClaimsOf(cfg, u) !! h0.volumes
    ensures Inv(cfg, h) && Clear(cfg, h, u)
  {
    hide Inv, InScope, ClaimsOf, Harmless, Sound;
    BuildKeeps(cfg, u, h0, h, origin, m0);
    forall v | v in h.domains && !IsNode(cfg, h, v) ensures Harmless(cfg, h, u, v) {
      OtherNodes(cfg, u, h0, h, v);
      assert Harmless(cfg, h0, u, v);
      assert v in h.active ==> v in h.active - {u};
      HarmlessLater(cfg, h0, h, u, v);
    }
  }

  /** create's try block and its compensation. */
  method Launch(cfg: Config, host: Libvirt, u: string, role: Role, bootstrap: bool, created: string, origin: Origin, r: Rendering)
    returns (e: Ending, launched: bool)
    requires ConfigOk(cfg) && Hex32(u) && ValidCreated(created) && (bootstrap ==> role.Server?)
    requires u !in host.domains && u !in host.active && ClaimsOf(cfg, u) !! host.volumes && WellRead(host.State())
    requires !host.dead
    modifies host
    ensures host.dead == e.Perished?
    ensures Building(cfg, u, old(host.State()), host.State(), origin, NewMeta(cfg, u, role, bootstrap, created))
    ensures u in host.domains ==> IsNode(cfg, host.State(), u) && host.domains[u].origin == origin
                                  && Alike(MetaOf(cfg, host.State(), u), NewMeta(cfg, u, role, bootstrap, created))
    // Once the write of `booting` has landed the node stays, however the start fares; before, it does not come to that.
    ensures IsBooting(cfg, host.State(), u) <==>
              DoneFor(old(host.script), 4) && Landed(EventAt(old(host.script), 4))
    ensures IsBooting(cfg, host.State(), u) ==> HasBoth(cfg, host.State(), u)
    ensures u in host.active <==> DoneFor(old(host.script), 5) && Landed(EventAt(old(host.script), 5))
    ensures launched <==> DoneFor(old(host.script), 6)
    ensures launched ==> e.Returned? && u in host.active && u in host.domains && MetaOf(cfg, host.State(), u).state.Booting?
    ensures Quiet(old(host.script)) ==> launched
    ensures Single(old(host.script)) && Unhindered(cfg, old(host.State()), u, origin.cluster, bootstrap) && !e.Perished? ==>
              Gone(cfg, host.State(), u) || IsBooting(cfg, host.State(), u)
  {
    hide AsBuilt, InScope, Valid, ValidCreated, ConfigOk, ClaimsOf, OnlyAt, Hex32, Sound, DoneFor, EventAt, Rest, Building, Ran,
      Outcome, Footprint;
    launched := false;
    ghost var h0, m0 := host.State(), NewMeta(cfg, u, role, bootstrap, created);
    ghost var script := host.script;
    DoneOneMore(script, 4);
    DoneOneMore(script, 5);
    e := Provision(cfg, host, u, role, bootstrap, created, origin, r);
    ghost var h1 := host.State();
    StillCreating(cfg, u, h0, h1, origin, m0);
    if e.Returned? {
      if Quiet(host.script) {
        QuietScript(host.script);
      }
      ghost var event := Head(host.script);
      var reply := host.Call(Start(u));
      StartStep(cfg, u, h0, h1, event, origin, m0);
      e := EndingOf(reply);
      launched := e.Returned?;
    } else if e.Threw? {
      BuildingIsWellRead(cfg, u, h0, h1, origin, m0);
      if Unhindered(cfg, h0, u, origin.cluster, bootstrap) && IsNode(cfg, h1, u) {
        BuiltUnhindered(cfg, u, h0, h1, origin, m0);
      }
      var cleanup, _ := DeleteIfCurrent(cfg, host, u, 1, Creating);
      BuildFootprint(cfg, u, h0, h1, host.State(), origin, m0);
      NeverToBooting(cfg, u, h1, host.State());
      e := if cleanup.Perished? then Perished else Threw;
    }
    StillCreating(cfg, u, h0, host.State(), origin, m0);
    BuildingOrigin(cfg, u, h0, host.State(), origin, m0);
  }

  lemma BuildingOrigin(cfg: Config, u: string, h0: Host, h: Host, origin: Origin, m0: NodeMeta)
    requires Building(cfg, u, h0, h, origin, m0)
    ensures u in h.domains ==> IsNode(cfg, h, u) && h.domains[u].origin == origin && Alike(MetaOf(cfg, h, u), m0)
  {
  }

  /** Compensation makes no node `booting`, and stops no guest of one that is not there. */
  lemma NeverToBooting(cfg: Config, u: string, h: Host, h': Host)
    requires Footprint(cfg, u, h, h')
    ensures IsBooting(cfg, h', u) ==> IsBooting(cfg, h, u)
    ensures OnlyStops(h, h') ==> (IsBooting(cfg, h', u) <==> IsBooting(cfg, h, u))
    ensures u !in h.active ==> u !in h'.active
  {
    hide InScope, ClaimsOf;
  }

  lemma BuildingIsWellRead(cfg: Config, u: string, h0: Host, h: Host, origin: Origin, m0: NodeMeta)
    requires WellRead(h0) && Building(cfg, u, h0, h, origin, m0)
    ensures WellRead(h)
  {
    hide Valid, InScope, ClaimsOf;
    forall v | v in h.active ensures v in h.domains {
      if v != u {
        OtherNodes(cfg, u, h0, h, v);
        assert v in h.active - {u};
      }
    }
    forall v | v in h.domains && h.domains[v].record.Managed? ensures Valid(h.domains[v].record.meta) {
      if v != u {
        OtherNodes(cfg, u, h0, h, v);
      } else {
        BuiltIsValid(cfg, u, h.domains[u]);
      }
    }
  }

  lemma CreateKeeps(cfg: Config, u: string, h: Host, h2: Host, h': Host, origin: Origin, m0: NodeMeta)
    requires OnlyStops(h, h2) && Building(cfg, u, h2, h', origin, m0) && Hex32(u)
    requires u !in h2.domains && ClaimsOf(cfg, u) !! h2.volumes && |Nodes(cfg, h2)| < cfg.maxNodes
    requires if m0.bootstrap then Nodes(cfg, h2) == {}
             else exists s :: IsNode(cfg, h2, s) && h2.domains[s].origin.cluster == origin.cluster
    ensures OnlyAt(cfg, u, h, h')
    ensures Inv(cfg, h) ==>
              && Inv(cfg, h') && |Nodes(cfg, h')| <= cfg.maxNodes
              && (u !in h.used ==> Evolves(cfg, h, h'))
  {
    hide AsBuilt, InScope, ClaimsOf, Evolves, Sound;
    OnlyStopsKeeps(cfg, h, h2);
    OnlyAtTrans(cfg, u, h, h2, h');
    if Inv(cfg, h) {
      forall v | IsNode(cfg, h2, v) ensures h2.domains[v].origin.cluster == origin.cluster && !m0.bootstrap {
        assert v in Nodes(cfg, h2);
        var s :| IsNode(cfg, h2, s) && h2.domains[s].origin.cluster == origin.cluster;
        assert Together(cfg, h2, s, v);
      }
      BuildKeeps(cfg, u, h2, h', origin, m0);
      Smaller(Nodes(cfg, h'), Nodes(cfg, h2), u);
      if u !in h.used {
        EvolvesTrans(cfg, h, h2, h');
      }
    }
  }

  lemma Smaller(a: set<string>, b: set<string>, u: string)
    requires a <= b + {u}
    ensures |a| <= |b| + 1
  {
    if a - {u} != b {
      assert a - {u} <= b;
    }
    var rest := b - a;
    assert b + {u} == a + (b + {u} - a);
    assert |b + {u}| == |a| + |b + {u} - a|;
  }

  lemma SameNodes(cfg: Config, h: Host, h': Host)
    requires OnlyStops(h, h')
    ensures Nodes(cfg, h') == Nodes(cfg, h) && forall u :: IsNode(cfg, h', u) <==> IsNode(cfg, h, u)
  {
  }

  lemma SamePool(cfg: Config, h: Host, h': Host)
    requires h'.volumes == h.volumes
    ensures OwnedPool(cfg, h') <==> OwnedPool(cfg, h)
  {
  }

  lemma TwoCalls(script: seq<Event>)
    ensures Rest(script, 2) == TailOf(TailOf(script))
    ensures QuietFor(script, 2) ==> Head(script) == QUIET && Head(TailOf(script)) == QUIET
  {
    OneCall(script, 0);
    OneCall(script, 1);
    assert QuietFor(script, 2) ==> EventAt(script, 0) == QUIET && EventAt(script, 1) == QUIET;
  }

  /** Everything create does before its try block: election and the checks that end in a refusal. */
  method Prepare(cfg: Config, host: Libvirt, role: Role, u: string, ready: set<string>, leases: map<string, string>)
    returns (e: Ending, plan: Plan)
    requires !host.dead
    modifies host
    ensures host.dead == e.Perished?
    ensures OnlyStops(old(host.State()), host.State())
    ensures e.Returned? ==>
              && u !in host.domains && ClaimsOf(cfg, u) !! host.volumes && |Nodes(cfg, host.State())| < cfg.maxNodes
              && !plan.Refused? && (plan.Bootstrap? ==> role.Server? && Nodes(cfg, old(host.State())) == {})
              && (plan.Join? ==> IsNode(cfg, old(host.State()), plan.server)
                                 && Usable(Views(cfg, old(host.State()), leases), ready, plan.server)
                                 && (Calm(old(host.script)) ==> Oldest(Views(cfg, old(host.State()), leases), ready, plan.server)))
    ensures Quiet(old(host.script)) ==> Quiet(host.script) && host.State() == old(host.State())
    ensures Quiet(old(host.script)) && Creatable(cfg, old(host.State()), u, role, ready, leases) ==> e.Returned?
    ensures Single(old(host.script)) ==> e.Returned? ==> Single(host.script)
    ensures e.Returned? ==> host.script == Rest(old(host.script), 2)
    ensures QuietFor(old(host.script), 2) && Creatable(cfg, old(host.State()), u, role, ready, leases) ==> e.Returned?
    ensures e.Returned? ==> Compatible(old(host.State())) && OwnedPool(cfg, old(host.State()))
  {
    hide InScope, ClaimsOf, OwnedPool, Usable, Views, Ran, Single, Quiet, Calm, Outcome, TailOf, Rest, QuietFor, EventAt;
    ghost var h := host.State();
    plan := Refused;
    TwoCalls(host.script);
    e := CheckCompatible(host);
    ghost var h1 := host.State();
    SameNodes(cfg, h, h1);
    if !e.Returned? || |Nodes(cfg, host.State())| >= cfg.maxNodes {
      e := if e.Returned? then Threw else e;
      return;
    }
    plan := Elect(Views(cfg, host.State(), leases), role, ready);
    UsableBefore(cfg, h, h1, ready, leases);
    if plan.Refused? {
      return Threw, plan;
    }
    e := Read(host);
    OnlyStopsTrans(h, h1, host.State());
    SameNodes(cfg, h, host.State());
    SamePool(cfg, h, host.State());
    if e.Returned? && (!OwnedPool(cfg, host.State()) || !(ClaimsOf(cfg, u) !! host.volumes) || u in host.domains) {
      e := Threw;
    }
  }

  lemma StillUnhindered(cfg: Config, h: Host, h': Host, u: string, cluster: nat, bootstrap: bool)
    requires Inv(cfg, h) && OnlyStops(h, h')
    requires if bootstrap then Nodes(cfg, h) == {} else exists s :: IsNode(cfg, h, s) && h.domains[s].origin.cluster == cluster
    ensures OutsidersApart(cfg, h, u) ==> Unhindered(cfg, h', u, cluster, bootstrap)
  {
    hide Inv, InScope, Harmless, Sound;
    OnlyStopsKeeps(cfg, h, h');
    if OutsidersApart(cfg, h, u) {
      forall v | v in h'.domains && !IsNode(cfg, h', v) ensures Harmless(cfg, h', u, v) {
        assert !IsNode(cfg, h, v);
        HarmlessLater(cfg, h, h', u, v);
      }
    }
    forall v | IsNode(cfg, h', v) ensures h'.domains[v].origin.cluster == cluster && !bootstrap {
      OneCluster(cfg, h, v, cluster, bootstrap);
    }
  }

  lemma OneCluster(cfg: Config, h: Host, v: string, cluster: nat, bootstrap: bool)
    requires Inv(cfg, h) && IsNode(cfg, h, v)
    requires if bootstrap then Nodes(cfg, h) == {} else exists s :: IsNode(cfg, h, s) && h.domains[s].origin.cluster == cluster
    ensures h.domains[v].origin.cluster == cluster && !bootstrap
  {
    hide Sound, InScope;
    assert v in Nodes(cfg, h);
    var s :| IsNode(cfg, h, s) && h.domains[s].origin.cluster == cluster;
    assert Together(cfg, h, s, v);
  }

  /**
   * How a creation that passed its checks ends, given how its calls fare: define, two volumes,
   * upload, commit, start. From the commit on the node stays, with both its volumes, however the
   * start fares; it runs exactly if the start lands.
   */
  predicate EndsAsCalled(cfg: Config, h: Host, u: string, script: seq<Event>, launched: bool) {
    && (IsBooting(cfg, h, u) <==> DoneFor(script, 4) && Landed(EventAt(script, 4)))
    && (IsBooting(cfg, h, u) ==> HasBoth(cfg, h, u))
    && (u in h.active <==> DoneFor(script, 5) && Landed(EventAt(script, 5)))
    && (launched <==> DoneFor(script, 6))
  }

  /** The oldest of the servers that can be joined. */
  predicate Oldest(nodes: map<string, View>, ready: set<string>, s: string) {
    Usable(nodes, ready, s) && forall t :: t in nodes && Usable(nodes, ready, t) ==> !Earlier(nodes[t], nodes[s])
  }

  /**
   * The record is the new one but for its state, and the node begins a cluster of its own or is
   * told a usable server, the oldest if none stopped meanwhile.
   */
  ghost predicate Admitted(cfg: Config, h: Host, h': Host, u: string, role: Role, created: string, ready: set<string>,
                           leases: map<string, string>, calm: bool)
    requires IsNode(cfg, h', u)
  {
    var m, origin := MetaOf(cfg, h', u), h'.domains[u].origin;
    && Alike(m, NewMeta(cfg, u, role, m.bootstrap, created))
    && if m.bootstrap then role.Server? && Nodes(cfg, h) == {} && origin == Origin(h.nextCluster, None)
       else && origin.server.Some? && IsNode(cfg, h, origin.server.value)
            && Usable(Views(cfg, h, leases), ready, origin.server.value)
            && (calm ==> Oldest(Views(cfg, h, leases), ready, origin.server.value))
            && origin.cluster == h.domains[origin.server.value].origin.cluster
  }

  lemma AdmittedAsPlanned(cfg: Config, h: Host, h': Host, u: string, role: Role, created: string, ready: set<string>,
                          leases: map<string, string>, calm: bool, plan: Plan, origin: Origin)
    requires IsNode(cfg, h', u) && h'.domains[u].origin == origin && !plan.Refused?
    requires Alike(MetaOf(cfg, h', u), NewMeta(cfg, u, role, plan.Bootstrap?, created))
    requires plan.Bootstrap? ==> role.Server? && Nodes(cfg, h) == {} && origin == Origin(h.nextCluster, None)
    requires plan.Join? ==> IsNode(cfg, h, plan.server) && Usable(Views(cfg, h, leases), ready, plan.server)
                            && (calm ==> Oldest(Views(cfg, h, leases), ready, plan.server))
                            && origin == Origin(h.domains[plan.server].origin.cluster, Some(plan.server))
    ensures Admitted(cfg, h, h', u, role, created, ready, leases, calm)
  {
    hide InScope, Usable, Views, Oldest;
  }

  /**
   * create. `ready` are the servers with fresh readiness evidence, `leases` the known addresses,
   * and `r` is what libvirt makes of the definition. However it ends, only u and its two volumes
   * may differ, the invariant holds, the node limit is kept, and a bootstrap happens only in an
   * empty scope, under a fresh identity.
   */
  method Create(cfg: Config, host: Libvirt, role: Role, u: string, created: string, ready: set<string>,
                leases: map<string, string>, r: Rendering)
    returns (e: Ending, launched: bool)
    requires WellRead(host.State()) && ConfigOk(cfg) && Allocated(cfg, host.State(), u) && ValidCreated(created)
    requires !host.dead
    modifies host
    ensures host.dead == e.Perished?
    ensures OnlyAt(cfg, u, old(host.State()), host.State())
    ensures u in old(host.domains) ==> OnlyStops(old(host.State()), host.State())
    ensures u in host.domains && u !in old(host.domains) ==> IsNode(cfg, host.State(), u)
    ensures Inv(cfg, old(host.State())) ==>
              && Inv(cfg, host.State())
              && (u !in old(host.used) ==> Evolves(cfg, old(host.State()), host.State()))
              && (|Nodes(cfg, host.State())| <= cfg.maxNodes || Nodes(cfg, host.State()) == Nodes(cfg, old(host.State())))
    ensures IsNode(cfg, host.State(), u) && !IsNode(cfg, old(host.State()), u) ==>
              Admitted(cfg, old(host.State()), host.State(), u, role, created, ready, leases, Calm(old(host.script)))
    ensures launched ==> IsNode(cfg, host.State(), u) && MetaOf(cfg, host.State(), u).state.Booting?
                         && u in host.active && u !in old(host.domains)
    ensures launched ==> e.Returned?
    ensures QuietFor(old(host.script), 2) && Creatable(cfg, old(host.State()), u, role, ready, leases) ==>
              EndsAsCalled(cfg, host.State(), u, Rest(old(host.script), 2), launched)
    ensures !Compatible(old(host.State())) || !OwnedPool(cfg, old(host.State())) || u in old(host.domains)
            || !(ClaimsOf(cfg, u) !! old(host.volumes)) || |Nodes(cfg, old(host.State()))| >= cfg.maxNodes ==>
              OnlyStops(old(host.State()), host.State())
    // One fault, at whichever call, leaves no half-built node: it is compensated, or ready to boot.
    ensures Single(old(host.script)) && Inv(cfg, old(host.State())) && !e.Perished?
            && OutsidersApart(cfg, old(host.State()), u) ==>
              || OnlyStops(old(host.State()), host.State()) || Gone(cfg, host.State(), u)
              || IsBooting(cfg, host.State(), u)
    ensures
      (Quiet(old(host.script)) && Inv(cfg, old(host.State())) && Creatable(cfg, old(host.State()), u, role, ready, leases))
      ==> launched
  {
    hide AsBuilt, InScope, Valid, ValidCreated, ConfigOk, Evolves, Inv, ClaimsOf, OnlyAt, Building, Usable, Electable, OwnedPool,
      OutsidersApart, Views, Single, Compatible, Admitted, Alike, Oldest, QuietFor, Rest, DoneFor, EventAt, Landed;
    launched := false;
    ghost var h := host.State();
    var plan;
    e, plan := Prepare(cfg, host, role, u, ready, leases);
    OnlyStopsKeeps(cfg, h, host.State());
    if !e.Returned? {
      return;
    }
    var origin := if plan.Join? then Origin(host.domains[plan.server].origin.cluster, Some(plan.server))
                  else Origin(host.nextCluster, None);
    ghost var h2 := host.State();
    SameNodes(cfg, h, h2);
    if Inv(cfg, h) {
      StillUnhindered(cfg, h, h2, u, origin.cluster, plan.Bootstrap?);
    }
    e, launched := Launch(cfg, host, u, role, plan.Bootstrap?, created, origin, r);
    if u in host.domains {
      AdmittedAsPlanned(cfg, h, host.State(), u, role, created, ready, leases, Calm(old(host.script)), plan, origin);
    }
    CreateKeeps(cfg, u, h, h2, host.State(), origin, NewMeta(cfg, u, role, plan.Bootstrap?, created));
  }
}

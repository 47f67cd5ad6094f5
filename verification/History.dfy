/**
 * Histories: any series of operations by requests, the observer and launch recovery, each on
 * whatever stale view its caller holds, with faults, deaths and restarts anywhere, while other
 * people's domains come and go.
 */
module History {
  import opened Wrappers
  import opened Names
  import opened Meta
  import opened Built
  import opened Lifecycle
  import opened Hypervisor
  import opened Deletion
  import opened Saga
  import opened Runs
  import opened Pool

  datatype Op =
    | Deploy(role: Role, u: string, created: string, ready: set<string>, leases: map<string, string>, r: Rendering)
    | Kill(u: string)
    | KillIfCurrent(u: string, generation: nat, state: State)
    | Observed(u: string, generation: nat, state: State, error: Option<string>, expected: Option<set<State>>)
    | Restart(u: string, generation: nat, state: State)
    | ResetAll
    | Recover(autostart: bool)
    | Others(domains: map<string, Domain>, active: set<string>)

  /** An operation, and how the calls it makes fare. */
  datatype Turn = Turn(op: Op, script: seq<Event>)

  /**
   * Other users of the host change their own domains and leave the nodes and the pool alone;
   * libvirt may render the nodes' disks anew.
   */
  predicate OthersOnly(cfg: Config, h: Host, domains: map<string, Domain>, active: set<string>) {
    && active <= domains.Keys
    && (forall v :: v in Nodes(cfg, h) ==> v in domains && Rerendered(cfg, h.domains[v], domains[v]) && (v in active <==> v in h.active))
    && (forall v :: v in domains && v !in Nodes(cfg, h) ==> !InScope(cfg, domains[v]))
    && (forall v :: v in domains && domains[v].record.Managed? ==> Valid(domains[v].record.meta))
  }

  predicate Rerendered(cfg: Config, d: Domain, d': Domain) {
    && d' == d.(config := d'.config, live := d'.live)
    && Renders(d'.config, cfg.target, d.name, d.image) && Renders(d'.live, cfg.target, d.name, d.image)
  }

  /** The host is well read, the invariant holds, records moved forward, and the node limit is kept. */
  ghost predicate Step(cfg: Config, h: Host, h': Host) {
    && WellRead(h')
    && (Inv(cfg, h) ==> Inv(cfg, h') && Evolves(cfg, h, h'))
    && (Inv(cfg, h) && |Nodes(cfg, h)| <= cfg.maxNodes ==> |Nodes(cfg, h')| <= cfg.maxNodes)
  }

  lemma StepTrans(cfg: Config, a: Host, b: Host, c: Host)
    requires Step(cfg, a, b) && Step(cfg, b, c)
    ensures Step(cfg, a, c)
  {
    hide Inv, Evolves, WellRead;
    if Inv(cfg, a) {
      EvolvesTrans(cfg, a, b, c);
    }
  }

  lemma FewerNodes(cfg: Config, h: Host, h': Host)
    requires Onward(cfg, h, h') && Nodes(cfg, h') <= Nodes(cfg, h)
    ensures Step(cfg, h, h')
  {
    hide Inv, WellRead, Evolves, KeepsDoom;
    SubsetSize(Nodes(cfg, h'), Nodes(cfg, h));
  }

  lemma FewerDomains(cfg: Config, us: set<string>, h: Host, h': Host, op: Op)
    requires Onward(cfg, h, h') && Removed(cfg, us, h, h')
    requires us <= Nodes(cfg, h)
    ensures Step(cfg, h, h') && LeadsOn(cfg, h, h', op)
  {
    hide Onward, Inv, InScope;
    forall u | u in Nodes(cfg, h') ensures u in Nodes(cfg, h) {
    }
    TakenOnward(cfg, h, h', op);
  }

  lemma FootprintStep(cfg: Config, u: string, h: Host, h': Host, op: Op)
    requires WellRead(h) && Footprint(cfg, u, h, h')
    ensures Step(cfg, h, h') && LeadsOn(cfg, h, h', op)
  {
    hide Onward, InScope, ClaimsOf, WellRead;
    OnwardFootprint(cfg, u, h, h');
    forall v | v in Nodes(cfg, h') ensures v in Nodes(cfg, h) {
      if v != u {
        OtherNodes(cfg, u, h, h', v);
      }
    }
    TakenOnward(cfg, h, h', op);
  }

  lemma CreatedWellRead(cfg: Config, u: string, h: Host, h': Host)
    requires WellRead(h) && OnlyAt(cfg, u, h, h') && Inv(cfg, h')
    requires u in h'.domains && u !in h.domains ==> IsNode(cfg, h', u)
    requires u in h.domains ==> OnlyStops(h, h')
    ensures WellRead(h')
  {
    hide InScope, Valid, ClaimsOf, AsBuilt;
    forall v | v in h'.domains && h'.domains[v].record.Managed? ensures Valid(h'.domains[v].record.meta) {
      if v != u {
        OtherNodes(cfg, u, h, h', v);
      } else if u !in h.domains {
        assert Sound(cfg, h', u);
        BuiltIsValid(cfg, u, h'.domains[u]);
      }
    }
  }

  lemma AdvancedStep(cfg: Config, u: string, h: Host, h': Host, generation: nat, state: State, error: Option<string>,
                     expected: Option<set<State>>)
    requires WellRead(h) && Inv(cfg, h) && Advances(cfg, u, h, h', state, error)
    requires Admits(MetaOf(cfg, h, u), generation, state, expected) && ObserverCall(state, expected)
    ensures Onward(cfg, h, h') && Nodes(cfg, h') == Nodes(cfg, h)
  {
    hide Inv, Evolves, InScope, ObserverCall, WellRead, Advances, Admits, KeepsDoom;
    AdvancedRecord(cfg, u, h, h', state, error);
    assert !state.Deleting? by {
      hide *;
      ObserverNeverDeletes(state, expected);
    }
    UpdateKeepsExactly(cfg, u, h, h', generation, state, error, expected);
    AdvancedKeepsDoom(cfg, u, h, h', generation, state, error, expected);
  }

  lemma ObserverNeverDeletes(state: State, expected: Option<set<State>>)
    requires ObserverCall(state, expected)
    ensures !state.Deleting?
  {
  }

  lemma AdvancedRecord(cfg: Config, u: string, h: Host, h': Host, state: State, error: Option<string>)
    requires WellRead(h) && Advances(cfg, u, h, h', state, error)
    ensures WellRead(h') && Nodes(cfg, h') == Nodes(cfg, h) && OnlyAt(cfg, u, h, h') && NoNewOutsider(cfg, u, h, h')
    ensures IsNode(cfg, h, u)
  {
    hide Valid, Stored, Clip;
    NodeIsValid(cfg, h, u);
    AdvancedValid(MetaOf(cfg, h, u), state, error);
    assert h'.domains - {u} == h.domains - {u};
    forall v ensures IsNode(cfg, h', v) <==> IsNode(cfg, h, v) {
    }
  }

  /** The observer's writes are about nodes that no operation is pending on. */
  lemma AdvancedKeepsDoom(cfg: Config, u: string, h: Host, h': Host, generation: nat, state: State, error: Option<string>,
                          expected: Option<set<State>>)
    requires Inv(cfg, h) && Inv(cfg, h') && OnlyAt(cfg, u, h, h') && NoNewOutsider(cfg, u, h, h') && IsNode(cfg, h, u)
    requires Admits(MetaOf(cfg, h, u), generation, state, expected) && ObserverCall(state, expected)
    ensures KeepsDoom(cfg, h, h')
  {
    hide Inv, InScope, OnlyAt, Toward, Clear, ClaimsOf, NoNewOutsider, Sound;
    NodeHex(cfg, h, u);
    forall v | Doomed(cfg, h, v) ensures Toward(cfg, v, h, h') {
      ElsewhereToward(cfg, v, u, h, h');
    }
  }

  lemma NodeHex(cfg: Config, h: Host, u: string)
    requires Inv(cfg, h) && IsNode(cfg, h, u)
    ensures Hex32(u) && u in h.used
  {
    hide AsBuilt, InScope;
    assert Sound(cfg, h, u);
  }

  lemma OthersStep(cfg: Config, h: Host, h': Host, domains: map<string, Domain>, active: set<string>)
    requires WellRead(h) && OthersOnly(cfg, h, domains, active)
    requires h' == h.(domains := domains, active := active, halted := h.halted - active)
    ensures Step(cfg, h, h')
  {
    hide Valid, InScope, Renders, AsBuilt, Evolves;
    forall u ensures IsNode(cfg, h', u) <==> IsNode(cfg, h, u) {
      assert u in Nodes(cfg, h) <==> IsNode(cfg, h, u);
      if u in Nodes(cfg, h) {
        SameScope(cfg, h.domains[u], domains[u]);
      }
    }
    assert Nodes(cfg, h') == Nodes(cfg, h);
    if Inv(cfg, h) {
      forall u | IsNode(cfg, h', u) ensures Sound(cfg, h', u) {
        assert u in Nodes(cfg, h) && Sound(cfg, h, u);
        RerenderedAsBuilt(cfg, u, h.domains[u], domains[u]);
      }
      forall u, v | IsNode(cfg, h', u) && IsNode(cfg, h', v) ensures Together(cfg, h', u, v) {
        assert u in Nodes(cfg, h) && v in Nodes(cfg, h) && Together(cfg, h, u, v);
      }
      OthersEvolve(cfg, h, h');
    }
  }

  lemma RerenderedAsBuilt(cfg: Config, u: string, d: Domain, d': Domain)
    requires d.record.Managed? && AsBuilt(cfg, u, d) && Rerendered(cfg, d, d')
    ensures AsBuilt(cfg, u, d')
  {
    hide Renders, Valid, Outside;
  }

  lemma OthersEvolve(cfg: Config, h: Host, h': Host)
    requires h'.used == h.used && h'.nextCluster == h.nextCluster && h'.volumes == h.volumes && Nodes(cfg, h') == Nodes(cfg, h)
    requires forall u :: u in Nodes(cfg, h) ==> u in h'.domains && Rerendered(cfg, h.domains[u], h'.domains[u])
    requires forall u :: IsNode(cfg, h', u) <==> IsNode(cfg, h, u)
    ensures Evolves(cfg, h, h')
  {
    hide Renders, InScope;
    assert Unclaimed(cfg, h') == Unclaimed(cfg, h);
    forall u | IsNode(cfg, h, u)
      ensures RecordStep(MetaOf(cfg, h, u), MetaOf(cfg, h', u)) && SameDomain(h.domains[u], h'.domains[u])
    {
      assert u in Nodes(cfg, h);
    }
  }

  /** Others neither stand in the way of deleting u nor take its UUID. */
  ghost predicate StaysAway(cfg: Config, h: Host, h': Host, u: string) {
    OutsidersApart(cfg, h', u) && (u in h'.domains ==> u in h.domains)
  }

  /** Others who can be read and leave u's volumes alone lead u nowhere else. */
  lemma OthersToward(cfg: Config, u: string, h: Host, h': Host, domains: map<string, Domain>, active: set<string>)
    requires WellRead(h) && OthersOnly(cfg, h, domains, active) && Doomed(cfg, h, u)
    requires h' == h.(domains := domains, active := active, halted := h.halted - active)
    requires StaysAway(cfg, h, h', u)
    ensures Toward(cfg, u, h, h')
  {
    hide Valid, InScope, Renders, AsBuilt, Harmless, Evolves, ClaimsOf, Inv;
    OthersStep(cfg, h, h', domains, active);
    assert u in Nodes(cfg, h) <==> IsNode(cfg, h, u);
    if IsNode(cfg, h, u) {
      SameScope(cfg, h.domains[u], domains[u]);
    }
  }

  lemma SameScope(cfg: Config, d: Domain, d': Domain)
    requires d'.record == d.record
    ensures InScope(cfg, d') <==> InScope(cfg, d)
  {
  }

  /** An operation that deletes u if none of its calls fails and u is as the caller saw it. */
  ghost predicate Finishes(cfg: Config, h: Host, op: Op, u: string) {
    match op
    case Kill(v) => v == u
    case KillIfCurrent(v, generation, state) =>
      v == u && (IsNode(cfg, h, u) ==> MetaOf(cfg, h, u).generation == generation && MetaOf(cfg, h, u).state == state)
    // A reset stops at the first node whose deletion is refused.
    case ResetAll => AllClear(cfg, h, Nodes(cfg, h))
    case Recover(_) => true
    case _ => false
  }

  /** Each interrupted node is led towards its end, or left as it is. */
  ghost predicate LeadsOn(cfg: Config, h: Host, h': Host, op: Op) {
    forall u :: Doomed(cfg, h, u) && (op.Others? ==> StaysAway(cfg, h, h', u)) ==> Toward(cfg, u, h, h')
  }

  ghost predicate Settles(cfg: Config, h: Host, h': Host, op: Op) {
    forall u :: Doomed(cfg, h, u) && Finishes(cfg, h, op, u) ==> Gone(cfg, h', u)
  }

  /** What any one operation keeps, and what it achieves if it is untroubled. */
  ghost predicate Taken(cfg: Config, h: Host, h': Host, op: Op, quiet: bool) {
    Step(cfg, h, h') && LeadsOn(cfg, h, h', op) && (quiet ==> Settles(cfg, h, h', op))
  }

  /** What an untroubled creation, write, start or foreign change achieves. */
  ghost predicate Performed(cfg: Config, h: Host, h': Host, op: Op) {
    match op
    case Deploy(role, u, created, ready, leases, r) =>
      (&& ConfigOk(cfg) && Inv(cfg, h) && Allocated(cfg, h, u) && u !in h.used && ValidCreated(created)
       && Creatable(cfg, h, u, role, ready, leases)) ==>
        IsNode(cfg, h', u) && MetaOf(cfg, h', u).state.Booting? && u in h'.active
    case Observed(u, generation, state, error, expected) =>
      (&& ObserverCall(state, expected) && Compatible(h) && IsNode(cfg, h, u)
       && Admits(MetaOf(cfg, h, u), generation, state, expected)) ==> Advances(cfg, u, h, h', state, error)
    case Restart(u, generation, state) =>
      Inv(cfg, h) && Compatible(h) && StartableNow(cfg, h, u, generation, state) ==> u in h'.active
    case Others(domains, active) => OthersOnly(cfg, h, domains, active) ==> h'.domains == domains && h'.active == active
    case _ => true
  }

  lemma TakenOnward(cfg: Config, h: Host, h': Host, op: Op)
    requires Onward(cfg, h, h') && Nodes(cfg, h') <= Nodes(cfg, h)
    ensures Step(cfg, h, h') && LeadsOn(cfg, h, h', op)
  {
    hide Inv, WellRead, Evolves, Doomed, Toward;
    FewerNodes(cfg, h, h');
  }

  /** A node that is gone needs no more settling. */
  lemma SettledIfGone(cfg: Config, h: Host, h': Host, op: Op)
    requires LeadsOn(cfg, h, h', op) && !op.Others?
    requires forall u :: Clear(cfg, h, u) && Doomed(cfg, h, u) && Finishes(cfg, h, op, u) ==> Gone(cfg, h', u)
    ensures Settles(cfg, h, h', op)
  {
    hide Finishes, Toward, Inv, Clear, Gone;
    forall u | Doomed(cfg, h, u) && Finishes(cfg, h, op, u) ensures Gone(cfg, h', u) {
      if Gone(cfg, h, u) {
        TowardKeeps(cfg, u, h, h');
      }
    }
  }

  /** One operation, whatever becomes of it. */
  method Perform(cfg: Config, host: Libvirt, op: Op)
    requires WellRead(host.State()) && Inv(cfg, host.State())
    requires !host.dead
    modifies host
    ensures Taken(cfg, old(host.State()), host.State(), op, Quiet(old(host.script)))
    ensures Quiet(old(host.script)) ==> Performed(cfg, old(host.State()), host.State(), op)
  {
    hide Inv, Evolves, WellRead, InScope, Valid, ValidCreated, ClaimsOf, Footprint, OnlyAt, Clear, Gone, ConfigOk, Cleared, Step,
      LeadsOn, Settles, Onward, Doomed, Toward, Finishes, AllClear, StaysAway, OthersOnly, Creatable, Admits, Advances, StartableNow;
    ghost var h := host.State();
    Untouched(cfg, h, op);
    match op
    case Deploy(role, u, created, ready, leases, r) =>
      // allocate() only returns a name and UUID that were never used.
      if ConfigOk(cfg) && Allocated(cfg, host.State(), u) && u !in host.used && ValidCreated(created) {
        var e, launched := Create(cfg, host, role, u, created, ready, leases, r);
        Deployed(cfg, u, h, host.State(), op);
      }
    case Kill(u) =>
      var e := Delete(cfg, host, u);
      Killed(cfg, u, h, host.State(), op);
    case KillIfCurrent(u, generation, state) =>
      var e, attempted := DeleteIfCurrent(cfg, host, u, generation, state);
      CurrentMeans(cfg, h, u, generation, state);
      Killed(cfg, u, h, host.State(), op);
    case Observed(u, generation, state, error, expected) =>
      if ObserverCall(state, expected) {
        var e, wrote := UpdateState(cfg, host, u, generation, state, error, expected);
        Updated(cfg, u, h, host.State(), generation, state, error, expected, op);
      }
    case Restart(u, generation, state) =>
      var e, started := StartIfCurrent(cfg, host, u, generation, state);
      Restarted(cfg, u, h, host.State(), generation, state, op);
    case ResetAll => PerformReset(cfg, host);
    case Recover(autostart) => PerformRecover(cfg, host, autostart);
    case Others(domains, active) =>
      if OthersOnly(cfg, host.State(), domains, active) {
        host.domains, host.active, host.halted := domains, active, host.halted - active;
        OthersTaken(cfg, h, host.State(), domains, active);
      }
  }

  method PerformReset(cfg: Config, host: Libvirt)
    requires WellRead(host.State()) && Inv(cfg, host.State())
    requires !host.dead
    modifies host
    ensures Taken(cfg, old(host.State()), host.State(), ResetAll, Quiet(old(host.script)))
  {
    hide Inv, Evolves, WellRead, InScope, Clear, Gone, Cleared, Onward, Doomed, AllClear;
    ghost var h := host.State();
    var e, removed := Reset(cfg, host);
    ClearedMeans(cfg, Nodes(cfg, h), h, host.State());
    FewerDomains(cfg, Nodes(cfg, h), h, host.State(), ResetAll);
    if Quiet(old(host.script)) {
      ResetSettles(cfg, h, host.State());
    }
  }

  lemma ResetSettles(cfg: Config, h: Host, h': Host)
    requires LeadsOn(cfg, h, h', ResetAll) && Inv(cfg, h)
    requires Resettable(cfg, h) ==> forall u :: u in Nodes(cfg, h) ==> Gone(cfg, h', u)
    ensures Settles(cfg, h, h', ResetAll)
  {
    hide Inv, InScope, Gone, Harmless, Toward;
    forall u | Clear(cfg, h, u) && Doomed(cfg, h, u) && Finishes(cfg, h, ResetAll, u) ensures Gone(cfg, h', u) {
      ClearIsCompatible(cfg, h, u);
      assert u in Nodes(cfg, h);
    }
    SettledIfGone(cfg, h, h', ResetAll);
  }

  method PerformRecover(cfg: Config, host: Libvirt, autostart: bool)
    requires WellRead(host.State()) && Inv(cfg, host.State())
    requires !host.dead
    modifies host
    ensures Taken(cfg, old(host.State()), host.State(), Recover(autostart), Quiet(old(host.script)))
  {
    hide Inv, Evolves, WellRead, InScope, Clear, Gone, Cleared, Onward, Doomed, AllClear;
    ghost var h := host.State();
    var e, failed := RecoverNodes(cfg, host, autostart);
    FewerDomains(cfg, Interrupted(Snapshot(cfg, h)), h, host.State(), Recover(autostart));
    if Quiet(old(host.script)) {
      RecoverSettles(cfg, h, host.State(), autostart);
    }
  }

  lemma RecoverSettles(cfg: Config, h: Host, h': Host, autostart: bool)
    requires LeadsOn(cfg, h, h', Recover(autostart))
    requires forall u :: u in Interrupted(Snapshot(cfg, h)) && Clear(cfg, h, u) ==> Gone(cfg, h', u)
    ensures Settles(cfg, h, h', Recover(autostart))
  {
    hide Inv, InScope, Gone, Harmless, Toward;
    forall u | Clear(cfg, h, u) && Doomed(cfg, h, u) ensures Gone(cfg, h', u) {
      if !Gone(cfg, h, u) {
        assert u in Interrupted(Snapshot(cfg, h));
      } else {
        TowardKeeps(cfg, u, h, h');
      }
    }
    SettledIfGone(cfg, h, h', Recover(autostart));
  }

  lemma Untouched(cfg: Config, h: Host, op: Op)
    requires WellRead(h)
    ensures Step(cfg, h, h) && LeadsOn(cfg, h, h, op)
    ensures !op.Kill? && !op.KillIfCurrent? && !op.ResetAll? && !op.Recover? ==> forall h' :: Settles(cfg, h, h', op)
  {
    hide Inv, Evolves, WellRead, Doomed, Toward, Gone, StaysAway;
    OnwardStops(cfg, h, h);
    TakenOnward(cfg, h, h, op);
  }

  lemma Killed(cfg: Config, u: string, h: Host, h': Host, op: Op)
    requires WellRead(h) && Inv(cfg, h) && Footprint(cfg, u, h, h') && (op.Kill? || op.KillIfCurrent?) && op.u == u
    ensures Step(cfg, h, h') && LeadsOn(cfg, h, h', op)
    ensures (Clear(cfg, h, u) && Finishes(cfg, h, op, u) ==> Gone(cfg, h', u)) ==> Settles(cfg, h, h', op)
  {
    hide Onward, Inv, Footprint, Clear, Gone, Doomed, Toward, WellRead, Step;
    FootprintStep(cfg, u, h, h', op);
    if Clear(cfg, h, u) && Finishes(cfg, h, op, u) ==> Gone(cfg, h', u) {
      SettledIfGone(cfg, h, h', op);
    }
  }

  lemma CurrentMeans(cfg: Config, h: Host, u: string, generation: nat, state: State)
    ensures Clear(cfg, h, u) && Finishes(cfg, h, KillIfCurrent(u, generation, state), u) ==>
              IsNode(cfg, h, u) && MetaOf(cfg, h, u).generation == generation && MetaOf(cfg, h, u).state == state
  {
    hide InScope, Harmless;
  }

  lemma Deployed(cfg: Config, u: string, h: Host, h': Host, op: Op)
    requires Inv(cfg, h) && WellRead(h) && OnlyAt(cfg, u, h, h') && Hex32(u) && u !in h.used && !op.Others?
    requires u in h.domains ==> OnlyStops(h, h')
    requires u in h'.domains && u !in h.domains ==> IsNode(cfg, h', u)
    requires Inv(cfg, h') && Evolves(cfg, h, h')
    requires |Nodes(cfg, h')| <= cfg.maxNodes || Nodes(cfg, h') == Nodes(cfg, h)
    ensures Step(cfg, h, h') && LeadsOn(cfg, h, h', op)
  {
    hide Inv, Evolves, InScope, ClaimsOf, Toward, Clear;
    CreatedWellRead(cfg, u, h, h');
    forall v | Doomed(cfg, h, v) ensures Toward(cfg, v, h, h') {
      if u in h.domains {
        StopsToward(cfg, v, h, h');
      } else {
        ElsewhereToward(cfg, v, u, h, h');
      }
    }
  }

  lemma Updated(cfg: Config, u: string, h: Host, h': Host, generation: nat, state: State, error: Option<string>,
                expected: Option<set<State>>, op: Op)
    requires WellRead(h) && Inv(cfg, h) && ObserverCall(state, expected)
    requires OnlyStops(h, h') || Advances(cfg, u, h, h', state, error)
    requires !(IsNode(cfg, h, u) && Admits(MetaOf(cfg, h, u), generation, state, expected)) ==> OnlyStops(h, h')
    ensures Step(cfg, h, h') && LeadsOn(cfg, h, h', op)
  {
    hide Onward, WellRead, InScope, Advances, ObserverCall, Admits, Inv, LeadsOn, Step;
    if OnlyStops(h, h') {
      OnwardStops(cfg, h, h');
      SameNodes(cfg, h, h');
    } else {
      AdvancedStep(cfg, u, h, h', generation, state, error, expected);
    }
    TakenOnward(cfg, h, h', op);
  }

  lemma Restarted(cfg: Config, u: string, h: Host, h': Host, generation: nat, state: State, op: Op)
    requires WellRead(h) && OnlyAt(cfg, u, h, h')
    requires h'.domains == h.domains && h'.volumes == h.volumes && h'.used == h.used && h'.nextCluster == h.nextCluster
    requires u in h'.active && u !in h.active ==> StartableNow(cfg, h, u, generation, state)
    requires Inv(cfg, h) ==> Inv(cfg, h') && Evolves(cfg, h, h')
    ensures Step(cfg, h, h') && LeadsOn(cfg, h, h', op)
  {
    hide Inv, Evolves, InScope, ClaimsOf, Valid, Toward, Harmless;
    assert forall v :: v in h'.active - {u} ==> v in h.active;
    assert WellRead(h');
    forall v | Doomed(cfg, h, v) ensures Toward(cfg, v, h, h') {
      PowerToward(cfg, v, h, h');
    }
    TakenOnward(cfg, h, h', op);
  }

  lemma OthersTaken(cfg: Config, h: Host, h': Host, domains: map<string, Domain>, active: set<string>)
    requires WellRead(h) && OthersOnly(cfg, h, domains, active)
    requires h' == h.(domains := domains, active := active, halted := h.halted - active)
    ensures Step(cfg, h, h') && LeadsOn(cfg, h, h', Others(domains, active))
  {
    hide Step, Doomed, Toward, StaysAway, OthersOnly, WellRead;
    OthersStep(cfg, h, h', domains, active);
    forall u | Doomed(cfg, h, u) && StaysAway(cfg, h, h', u) ensures Toward(cfg, u, h, h') {
      OthersToward(cfg, u, h, h', domains, active);
    }
  }

  /** The hosts of a run: each turn takes one to the next. */
  ghost predicate Trace(cfg: Config, hosts: seq<Host>, turns: seq<Turn>) {
    && |hosts| == |turns| + 1
    && (forall i :: 0 <= i < |turns| ==> Taken(cfg, hosts[i], hosts[i + 1], turns[i].op, Quiet(turns[i].script)))
    && forall i :: 0 <= i < |turns| && Quiet(turns[i].script) ==> Performed(cfg, hosts[i], hosts[i + 1], turns[i].op)
  }

  /**
   * Any run at all, from a host on which the invariant holds: each turn is an operation whose calls
   * may fail, or end the process, in any way.
   */
  method Run(cfg: Config, host: Libvirt, turns: seq<Turn>) returns (ghost hosts: seq<Host>)
    requires WellRead(host.State()) && Inv(cfg, host.State()) && |Nodes(cfg, host.State())| <= cfg.maxNodes
    requires !host.dead
    modifies host
    ensures Inv(cfg, host.State()) && |Nodes(cfg, host.State())| <= cfg.maxNodes
    ensures Evolves(cfg, old(host.State()), host.State())
    ensures Trace(cfg, hosts, turns) && hosts[0] == old(host.State()) && hosts[|turns|] == host.State()
    // Of the nodes interrupted at the start, all are gone that a single untroubled operation was to delete.
    ensures forall u :: Doomed(cfg, hosts[0], u) && Undisturbed(cfg, hosts, turns, u) && Attended(cfg, hosts, turns, u) ==>
              Gone(cfg, host.State(), u)
  {
    hide Inv, Evolves, WellRead, Doomed, Gone, Taken, Performed, Undisturbed, Attended;
    hosts := [host.State()];
    ghost var h0 := host.State();
    assert Step(cfg, h0, h0) by {
      OnwardStops(cfg, h0, h0);
      FewerNodes(cfg, h0, h0);
    }
    for i := 0 to |turns|
      invariant Step(cfg, h0, host.State())
      invariant |hosts| == i + 1 && hosts[0] == h0 && hosts[i] == host.State()
      invariant forall j :: 0 <= j < i ==> Taken(cfg, hosts[j], hosts[j + 1], turns[j].op, Quiet(turns[j].script))
      invariant forall j :: 0 <= j < i && Quiet(turns[j].script) ==> Performed(cfg, hosts[j], hosts[j + 1], turns[j].op)
    {
      ghost var h := host.State();
      host.script, host.dead := turns[i].script, false;
      Perform(cfg, host, turns[i].op);
      TakenIsStep(cfg, h, host.State(), turns[i].op, Quiet(turns[i].script));
      StepTrans(cfg, h0, h, host.State());
      hosts := hosts + [host.State()];
    }
    forall u | Doomed(cfg, hosts[0], u) && Undisturbed(cfg, hosts, turns, u) && Attended(cfg, hosts, turns, u)
      ensures Gone(cfg, host.State(), u)
    {
      AttendedIsGone(cfg, hosts, turns, u);
    }
  }

  lemma TakenIsStep(cfg: Config, h: Host, h': Host, op: Op, quiet: bool)
    requires Taken(cfg, h, h', op, quiet)
    ensures Step(cfg, h, h')
  {
  }

  // ----- interrupted work over whole runs ---------------------------------------------

  /** Whatever others did meanwhile, they stayed away from u. */
  ghost predicate Undisturbed(cfg: Config, hosts: seq<Host>, turns: seq<Turn>, u: string)
    requires |hosts| == |turns| + 1
  {
    forall i :: 0 <= i < |turns| && turns[i].op.Others? ==> StaysAway(cfg, hosts[i], hosts[i + 1], u)
  }

  /** Turn i was to delete u, and none of its calls failed. */
  ghost predicate FinishedAt(cfg: Config, hosts: seq<Host>, turns: seq<Turn>, u: string, i: nat)
    requires |hosts| == |turns| + 1 && i < |turns|
  {
    Quiet(turns[i].script) && Finishes(cfg, hosts[i], turns[i].op, u)
  }

  ghost predicate Attended(cfg: Config, hosts: seq<Host>, turns: seq<Turn>, u: string)
    requires |hosts| == |turns| + 1
  {
    exists i: nat :: i < |turns| && FinishedAt(cfg, hosts, turns, u, i)
  }

  /**
   * Whatever a run consists of, what remains to be done of an interrupted node never grows; and
   * after a single untroubled operation that was to delete it, it is gone and stays gone.
   */
  lemma {:induction false} InterruptedWorkConverges(cfg: Config, hosts: seq<Host>, turns: seq<Turn>, u: string, k: nat, j: nat)
    requires Trace(cfg, hosts, turns) && Undisturbed(cfg, hosts, turns, u) && Doomed(cfg, hosts[0], u)
    requires k < j <= |turns|
    ensures NoMore(Remaining(cfg, hosts[j], u), Remaining(cfg, hosts[k], u)) && Doomed(cfg, hosts[j], u)
    ensures (exists i: nat :: k <= i < j && FinishedAt(cfg, hosts, turns, u, i)) ==> Gone(cfg, hosts[j], u)
  {
    hide Doomed, Gone, Remaining, NoMore, Quiet, Finishes, Toward, StaysAway;
    var finished := seq(|turns|, i requires 0 <= i < |turns| => FinishedAt(cfg, hosts, turns, u, i));
    forall i | 0 <= i < |turns| ensures TurnOf(cfg, u, hosts[i], hosts[i + 1], finished[i]) {
      TurnIsTaken(cfg, u, hosts[i], hosts[i + 1], turns[i]);
    }
    DeletionConverges(cfg, u, hosts, finished, k, j);
    if i: nat :| k <= i < j && FinishedAt(cfg, hosts, turns, u, i) {
      assert finished[i];
    }
  }

  lemma TurnIsTaken(cfg: Config, u: string, h: Host, h': Host, turn: Turn)
    requires Taken(cfg, h, h', turn.op, Quiet(turn.script)) && (turn.op.Others? ==> StaysAway(cfg, h, h', u))
    ensures TurnOf(cfg, u, h, h', Quiet(turn.script) && Finishes(cfg, h, turn.op, u))
  {
    hide Step, Doomed, Toward, Gone, StaysAway, Finishes, Quiet;
  }

  lemma AttendedIsGone(cfg: Config, hosts: seq<Host>, turns: seq<Turn>, u: string)
    requires Trace(cfg, hosts, turns) && Undisturbed(cfg, hosts, turns, u) && Doomed(cfg, hosts[0], u)
    requires Attended(cfg, hosts, turns, u)
    ensures Gone(cfg, hosts[|turns|], u)
  {
    hide Doomed, Gone, Remaining, NoMore, Taken, Undisturbed, FinishedAt;
    var i: nat :| i < |turns| && FinishedAt(cfg, hosts, turns, u, i);
    InterruptedWorkConverges(cfg, hosts, turns, u, 0, |turns|);
  }

  // ----- what the invariant and the history mean --------------------------------------

  /** A run may begin on any host without nodes. */
  lemma NoNodesIsSound(cfg: Config, h: Host)
    requires ConfigOk(cfg) && Nodes(cfg, h) == {} && h.halted !! h.active && h.active <= h.domains.Keys
    ensures Inv(cfg, h)
  {
    hide InScope;
    forall u ensures !IsNode(cfg, h, u) {
      assert IsNode(cfg, h, u) <==> u in Nodes(cfg, h);
    }
  }

  /** Volumes, durable state and power, in the terms of the host. */
  lemma NodesAreWhole(cfg: Config, h: Host, u: string)
    requires Inv(cfg, h) && IsNode(cfg, h, u)
    ensures MetaOf(cfg, h, u).state in {Booting, Configuring, Configured, Failed} ==>
              VolumeName(NodeName(cfg.prefix, u)) in h.volumes && SeedName(NodeName(cfg.prefix, u)) in h.volumes
    ensures u in h.active ==> !MetaOf(cfg, h, u).state.Creating? && HasBoth(cfg, h, u)
  {
    hide AsBuilt, InScope;
    assert Sound(cfg, h, u);
  }

  /** A volume that a run left behind is claimed by a defined domain: no run adds an unclaimed one. */
  lemma NewVolumesAreClaimed(cfg: Config, h: Host, h': Host, v: string)
    requires Evolves(cfg, h, h') && v in h'.volumes && v !in h.volumes
    ensures exists u :: IsNode(cfg, h', u) && v in ClaimsOf(cfg, u)
  {
    hide ClaimsOf, InScope;
    assert v !in Unclaimed(cfg, h');
    var u :| u in Nodes(cfg, h') && v in ClaimsOf(cfg, u);
  }

  /** No split brain: whoever holds an address a joiner was told, if it is a node, is of its cluster. */
  lemma NoSplitBrain(cfg: Config, h: Host)
    requires Inv(cfg, h)
    ensures forall u, v :: u in Nodes(cfg, h) && v in Nodes(cfg, h) ==> h.domains[u].origin.cluster == h.domains[v].origin.cluster
    ensures |set u | u in Nodes(cfg, h) && h.domains[u].record.meta.bootstrap| <= 1
  {
    hide InScope, Sound;
    forall u, v | u in Nodes(cfg, h) && v in Nodes(cfg, h) ensures Together(cfg, h, u, v) {
    }
    var first := set u | u in Nodes(cfg, h) && h.domains[u].record.meta.bootstrap;
    if u :| u in first {
      forall v | v in first ensures v == u {
        assert Together(cfg, h, u, v);
      }
      assert first == {u};
    }
  }

  /** The record is what the holder of this view takes it to be. */
  predicate Matches(cfg: Config, h: Host, u: string, view: NodeMeta) {
    IsNode(cfg, h, u) && MetaOf(cfg, h, u).generation == view.generation && MetaOf(cfg, h, u).state == view.state
  }

  /** The record has left `creating`, or carries the intent. */
  predicate MovedOn(view: NodeMeta, m: NodeMeta) {
    (view.state.Creating? && !m.state.Creating?) || (!view.state.Deleting? && m.state.Deleting?)
  }

  /**
   * A view that is out of date stays so: once a record has left `creating`, or carries the intent,
   * no later state of the host matches a view from before, so the guarded calls of a holder of
   * that view change nothing.
   */
  lemma StaleViewNeverMatches(cfg: Config, seen: Host, now: Host, later: Host, u: string)
    requires Inv(cfg, seen) && Inv(cfg, now) && Evolves(cfg, seen, now) && Evolves(cfg, now, later) && IsNode(cfg, seen, u)
    requires IsNode(cfg, now, u) ==> MovedOn(MetaOf(cfg, seen, u), MetaOf(cfg, now, u))
    ensures !Matches(cfg, later, u, MetaOf(cfg, seen, u))
  {
    hide AsBuilt, InScope;
    assert Sound(cfg, seen, u);
    assert u in now.used;
  }

  // ----- an update the guard admits and the invariant does not -------------------------

  /**
   * From an empty host: a server is created without any fault, and then update_state is asked to
   * record `deleting`, which no deletion wrote. Its guard admits the call, and the invariant is lost.
   */
  method ForgedDeletion(cfg: Config, u: string, created: string, r: Rendering) returns (host: Libvirt, wrote: bool)
    requires ConfigOk(cfg) && Hex32(u) && ValidCreated(created) && cfg.maxNodes > 0
    ensures wrote && !Inv(cfg, host.State())
  {
    hide Inv, ConfigOk, ValidCreated, InScope, Valid, Evolves, ClaimsOf, Views, Usable, Stored, Clip;
    host := new Libvirt(Host(map[], {}, {MARKER}, {}, {}, 0), []);
    ghost var h := host.State();
    assert Nodes(cfg, h) == {};
    NoNodesIsSound(cfg, h);
    ClaimsArePatterned(cfg, u);
    assert Creatable(cfg, h, u, Server, {}, map[]);
    var e, launched := Create(cfg, host, Server, u, created, {}, map[], r);
    ghost var h1 := host.State();
    OnlyOne(cfg, u, h, h1);
    CreatedWellRead(cfg, u, h, h1);
    AfterCreation(cfg, h1, u);
    host.script := [];
    e, wrote := UpdateState(cfg, host, u, 1, Deleting, None, None);
    UpdateKeepsExactly(cfg, u, h1, host.State(), 1, Deleting, None, None);
  }

  lemma OnlyOne(cfg: Config, u: string, h: Host, h': Host)
    requires h.domains == map[] && OnlyAt(cfg, u, h, h') && IsNode(cfg, h', u)
    ensures Compatible(h')
  {
    forall v | v in h'.domains ensures v == u {
      assert v != u ==> v in h'.domains - {u};
    }
  }

  lemma AfterCreation(cfg: Config, h: Host, u: string)
    requires Inv(cfg, h) && IsNode(cfg, h, u) && MetaOf(cfg, h, u).state.Booting?
    ensures MetaOf(cfg, h, u).generation == 1
  {
    hide AsBuilt, InScope, Valid;
    assert Sound(cfg, h, u);
  }
}

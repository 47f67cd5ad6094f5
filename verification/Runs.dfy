/** Whole runs: reset, launch recovery, and any series of operations cut short anywhere. */
module Runs {
  import opened Names
  import opened Meta
  import opened Disks
  import opened Lifecycle
  import opened Hypervisor
  import opened Deletion
  import opened Saga

  // ----- deleting several nodes -------------------------------------------------------

  /** Nothing but the nodes `us` and their volumes is gone or rewritten, and nothing is new. */
  ghost predicate Removed(cfg: Config, us: set<string>, h: Host, h': Host) {
    && h'.used == h.used && h'.nextCluster == h.nextCluster
    && h'.volumes <= h.volumes && h'.domains.Keys <= h.domains.Keys
    && (forall v :: v in h.domains && v !in us ==> v in h'.domains && h'.domains[v] == h.domains[v])
    && (forall x :: x in h.volumes && (forall u :: u in us ==> x !in ClaimsOf(cfg, u)) ==> x in h'.volumes)
  }

  /** Everything deletions of the nodes `us` may have done. */
  ghost predicate Cleared(cfg: Config, us: set<string>, h: Host, h': Host) {
    && Removed(cfg, us, h, h') && h'.active <= h.active
    // Any other guest that is off now went off by itself.
    && h.halted <= h'.halted && h.active - us - h'.active <= h'.halted
  }

  lemma ClearedStep(cfg: Config, us: set<string>, u: string, a: Host, b: Host, c: Host)
    requires Cleared(cfg, us, a, b) && Footprint(cfg, u, b, c) && u in us
    ensures Cleared(cfg, us, a, c)
  {
    hide ClaimsOf, SameOrIntended, InScope;
    forall v | v in b.domains && v != u ensures v in c.domains && c.domains[v] == b.domains[v] {
      OtherNodes(cfg, u, b, c, v);
    }
    forall v | v in c.domains ensures v in a.domains {
      if v != u {
        OtherNodes(cfg, u, b, c, v);
      }
    }
    forall x | x in b.volumes && x !in ClaimsOf(cfg, u) ensures x in c.volumes {
      assert x in b.volumes - ClaimsOf(cfg, u);
    }
  }

  /** Deleting one node leaves nothing in the way of deleting another. */
  lemma PeerStaysClear(cfg: Config, u: string, v: string, h: Host, h': Host)
    requires Inv(cfg, h) && Footprint(cfg, u, h, h') && u != v && Clear(cfg, h, v)
    ensures Clear(cfg, h', v) && v in h.domains && v in h'.domains && h'.domains[v] == h.domains[v]
  {
    hide AsBuilt, InScope, Harmless, SameOrIntended, ClaimsOf, Sound;
    OtherNodes(cfg, u, h, h', v);
    forall w | w in h'.domains && !IsNode(cfg, h', w) ensures Harmless(cfg, h', v, w) {
      if w == u {
        if IsNode(cfg, h, u) {
          assert Sound(cfg, h, u);
          StaysSound(cfg, u, h, h');
        }
        NotNodeSame(cfg, u, h, h');
      } else {
        OtherNodes(cfg, u, h, h', w);
      }
      assert Harmless(cfg, h, v, w);
      StaysHarmless(cfg, h, h', v, w);
    }
  }

  lemma NotNodeSame(cfg: Config, u: string, h: Host, h': Host)
    requires Footprint(cfg, u, h, h') && u in h'.domains && !IsNode(cfg, h, u)
    ensures u in h.domains && h'.domains[u] == h.domains[u]
  {
  }

  lemma StaysHarmless(cfg: Config, h: Host, h': Host, v: string, w: string)
    requires w in h.domains && w in h'.domains && h'.domains[w] == h.domains[w] && h'.active <= h.active
    requires Harmless(cfg, h, v, w)
    ensures Harmless(cfg, h', v, w)
  {
    hide AllFit, Refer;
    ExaminedWhenStopped(cfg.pools, GuestOf(h.domains[w], true), GuestOf(h.domains[w], false));
  }

  lemma FootprintWellRead(cfg: Config, u: string, h: Host, h': Host)
    requires WellRead(h) && Footprint(cfg, u, h, h')
    ensures WellRead(h')
  {
    hide InScope, ClaimsOf, Valid, Stored;
    forall v | v in h'.active ensures v in h'.domains {
      if v != u {
        OtherNodes(cfg, u, h, h', v);
      }
    }
    forall v | v in h'.domains && h'.domains[v].record.Managed? ensures Valid(h'.domains[v].record.meta) {
      if v != u {
        OtherNodes(cfg, u, h, h', v);
      } else if h'.domains[u] != h.domains[u] {
        NodeIsValid(cfg, h, u);
        IntentOfNode(MetaOf(cfg, h, u));
      }
    }
  }

  /** What holds of the host at the boundary of any two operations, and how it got there. */
  ghost predicate Onward(cfg: Config, h: Host, h': Host) {
    && WellRead(h')
    && (Inv(cfg, h) ==> Inv(cfg, h') && Evolves(cfg, h, h'))
    && KeepsDoom(cfg, h, h')
  }

  lemma OnwardTrans(cfg: Config, a: Host, b: Host, c: Host)
    requires Onward(cfg, a, b) && Onward(cfg, b, c)
    ensures Onward(cfg, a, c)
  {
    hide Inv, Evolves, WellRead, KeepsDoom;
    KeepsDoomTrans(cfg, a, b, c);
    if Inv(cfg, a) {
      EvolvesTrans(cfg, a, b, c);
    }
  }

  lemma OnwardFootprint(cfg: Config, u: string, h: Host, h': Host)
    requires WellRead(h) && Footprint(cfg, u, h, h')
    ensures Onward(cfg, h, h')
  {
    hide Inv, Evolves, Footprint, WellRead, KeepsDoom;
    FootprintWellRead(cfg, u, h, h');
    FootprintKeepsDoom(cfg, u, h, h');
    if Inv(cfg, h) {
      FootprintKeeps(cfg, u, h, h');
    }
  }

  lemma OnwardStops(cfg: Config, h: Host, h': Host)
    requires WellRead(h) && OnlyStops(h, h')
    ensures Onward(cfg, h, h')
  {
    hide Inv, Evolves, KeepsDoom;
    OnlyStopsKeeps(cfg, h, h');
    StopsKeepDoom(cfg, h, h');
  }

  ghost predicate AllClear(cfg: Config, h: Host, us: set<string>) {
    forall u :: u in us ==> Clear(cfg, h, u)
  }

  lemma GoneStaysGone(cfg: Config, u: string, v: string, h: Host, h': Host)
    requires Gone(cfg, h, v) && Footprint(cfg, u, h, h')
    ensures Gone(cfg, h', v)
  {
    hide ClaimsOf;
    if v != u {
      OtherNodes(cfg, u, h, h', v);
    }
  }

  lemma RestStaysClear(cfg: Config, u: string, rest: set<string>, done: set<string>, h: Host, h': Host)
    requires Inv(cfg, h) && Footprint(cfg, u, h, h') && u !in rest
    requires AllClear(cfg, h, rest) && forall v :: v in done ==> Gone(cfg, h, v)
    ensures AllClear(cfg, h', rest) && forall v :: v in done ==> Gone(cfg, h', v)
    ensures forall v :: v in rest ==> v in h.domains && v in h'.domains && h'.domains[v] == h.domains[v]
  {
    hide Inv, Footprint, Clear, Gone;
    forall v | v in rest ensures Clear(cfg, h', v) && v in h.domains && v in h'.domains && h'.domains[v] == h.domains[v] {
      PeerStaysClear(cfg, u, v, h, h');
    }
    forall v | v in done ensures Gone(cfg, h', v) {
      GoneStaysGone(cfg, u, v, h, h');
    }
  }

  /** Nothing but faults can hold up a reset. */
  ghost predicate Resettable(cfg: Config, h: Host) {
    Inv(cfg, h) && Compatible(h) && AllClear(cfg, h, Nodes(cfg, h))
  }

  /**
   * reset: delete every node, stopping at the first failure. However it ends, only nodes and
   * their volumes changed; if it returns, no node it saw is left; untroubled, nothing of them is.
   */
  method Reset(cfg: Config, host: Libvirt) returns (e: Ending, removed: nat)
    requires WellRead(host.State())
    requires !host.dead
    modifies host
    ensures host.dead == e.Perished?
    ensures Cleared(cfg, Nodes(cfg, old(host.State())), old(host.State()), host.State())
    ensures Onward(cfg, old(host.State()), host.State())
    ensures !Compatible(old(host.State())) ==> OnlyStops(old(host.State()), host.State())
    ensures e.Returned? ==> removed == |Nodes(cfg, old(host.State()))| && Nodes(cfg, host.State()) == {}
    ensures Quiet(old(host.script)) && Resettable(cfg, old(host.State())) ==>
              e.Returned? && forall u :: u in Nodes(cfg, old(host.State())) ==> Gone(cfg, host.State(), u)
  {
    hide Inv, Footprint, Evolves, WellRead, Clear, Gone, Cleared, InScope;
    ghost var h0, fair := host.State(), Quiet(host.script) && Resettable(cfg, host.State());
    removed := 0;
    e := CheckCompatible(host);
    OnwardStops(cfg, h0, host.State());
    SameNodes(cfg, h0, host.State());
    assert Cleared(cfg, Nodes(cfg, h0), h0, host.State()) by {
      hide *;
      NothingCleared(cfg, Nodes(cfg, h0), h0, host.State());
    }
    if !e.Returned? {
      return;
    }
    var us := Nodes(cfg, host.State());
    var todo := us;
    while todo != {}
      invariant todo <= us && e.Returned? && !host.dead
      invariant Cleared(cfg, us, h0, host.State()) && Onward(cfg, h0, host.State())
      invariant forall u :: u in us - todo ==> u !in host.domains
      invariant fair ==> Quiet(host.script) && AllClear(cfg, host.State(), todo)
                         && forall u :: u in us - todo ==> Gone(cfg, host.State(), u)
      decreases todo
    {
      var u :| u in todo;
      ghost var h := host.State();
      e := Delete(cfg, host, u);
      ClearedStep(cfg, us, u, h0, h, host.State());
      OnwardFootprint(cfg, u, h, host.State());
      OnwardTrans(cfg, h0, h, host.State());
      if fair {
        RestStaysClear(cfg, u, todo - {u}, us - todo, h, host.State());
      }
      StillAbsent(cfg, u, us - todo, h, host.State());
      if !e.Returned? {
        return;
      }
      todo := todo - {u};
    }
    removed := |us|;
    NodesLeft(cfg, h0, host.State());
  }

  lemma NothingCleared(cfg: Config, us: set<string>, h: Host, h': Host)
    requires OnlyStops(h, h')
    ensures Cleared(cfg, us, h, h')
  {
  }

  lemma StillAbsent(cfg: Config, u: string, done: set<string>, h: Host, h': Host)
    requires Footprint(cfg, u, h, h') && forall v :: v in done ==> v !in h.domains
    ensures forall v :: v in done ==> v !in h'.domains
  {
    hide SameOrIntended;
    forall v | v in done ensures v !in h'.domains {
      if v != u {
        OtherNodes(cfg, u, h, h', v);
      }
    }
  }

  /** Deleting nodes makes no new ones. */
  lemma NodesLeft(cfg: Config, h: Host, h': Host)
    requires Cleared(cfg, Nodes(cfg, h), h, h')
    ensures Nodes(cfg, h') <= Nodes(cfg, h)
  {
  }

  // ----- launch recovery --------------------------------------------------------------

  /** What list_nodes shows of the durable records. */
  function Snapshot(cfg: Config, h: Host): map<string, NodeMeta> {
    map u | u in Nodes(cfg, h) :: h.domains[u].record.meta
  }

  function Interrupted(nodes: map<string, NodeMeta>): set<string> {
    set u | u in nodes && Incomplete(nodes[u].state)
  }

  /** The view of u is up to date, and only faults can hold up its deletion. */
  ghost predicate Due(cfg: Config, h: Host, nodes: map<string, NodeMeta>, u: string) {
    u in nodes && Clear(cfg, h, u) && MetaOf(cfg, h, u) == nodes[u]
  }

  lemma DueLater(cfg: Config, u: string, v: string, nodes: map<string, NodeMeta>, h: Host, h': Host)
    requires Inv(cfg, h) && Footprint(cfg, u, h, h') && u != v && Due(cfg, h, nodes, v)
    ensures Due(cfg, h', nodes, v)
  {
    hide Inv, Footprint, InScope, Harmless;
    PeerStaysClear(cfg, u, v, h, h');
  }

  /** What a clean-up without faults has come to: what was due is gone, or still to be done. */
  ghost predicate Cleaning(cfg: Config, h0: Host, h: Host, nodes: map<string, NodeMeta>, todo: set<string>) {
    forall v :: v in Interrupted(nodes) && Due(cfg, h0, nodes, v) ==> if v in todo then Due(cfg, h, nodes, v) else Gone(cfg, h, v)
  }

  lemma CleaningStep(cfg: Config, u: string, h0: Host, h: Host, h': Host, nodes: map<string, NodeMeta>, todo: set<string>)
    requires Inv(cfg, h) && Footprint(cfg, u, h, h') && Cleaning(cfg, h0, h, nodes, todo) && u in todo
    requires Due(cfg, h, nodes, u) ==> Gone(cfg, h', u)
    ensures Cleaning(cfg, h0, h', nodes, todo - {u})
  {
    hide Inv, Footprint, Gone, Due;
    forall v | v in Interrupted(nodes) && Due(cfg, h0, nodes, v) && v != u
      ensures if v in todo then Due(cfg, h', nodes, v) else Gone(cfg, h', v)
    {
      if v in todo {
        DueLater(cfg, u, v, nodes, h, h');
      } else {
        GoneStaysGone(cfg, u, v, h, h');
      }
    }
  }

  /** A record of another version stops the clean-up, but then nothing was due. */
  lemma NothingDue(cfg: Config, h0: Host, h: Host, nodes: map<string, NodeMeta>, todo: set<string>)
    requires Cleaning(cfg, h0, h, nodes, todo) && !Compatible(h)
    ensures Cleaning(cfg, h0, h, nodes, {})
  {
    hide Gone, Compatible, Clear;
    forall v | v in todo ensures Due(cfg, h, nodes, v) ==> Compatible(h) {
      if Due(cfg, h, nodes, v) {
        ClearIsCompatible(cfg, h, v);
      }
    }
  }

  /**
   * The first loop of launch recovery, over a snapshot that may be stale: whatever was interrupted
   * is deleted, and a failure on one node does not keep the others waiting.
   */
  method CleanUp(cfg: Config, host: Libvirt, nodes: map<string, NodeMeta>) returns (e: Ending)
    requires WellRead(host.State())
    requires !host.dead
    modifies host
    ensures host.dead == e.Perished?
    ensures !e.Threw? && host.started == old(host.started)
    ensures e.Conflicted? ==> !Compatible(old(host.State()))
    ensures Quiet(old(host.script)) && Interrupted(nodes) != {} ==> (e.Conflicted? <==> !Compatible(old(host.State())))
    ensures Cleared(cfg, Interrupted(nodes), old(host.State()), host.State()) && Onward(cfg, old(host.State()), host.State())
    ensures Quiet(old(host.script)) ==> Quiet(host.script) && (e.Returned? || !Compatible(host.State()))
    ensures Quiet(old(host.script)) && Inv(cfg, old(host.State())) ==>
              forall u :: u in Interrupted(nodes) && Due(cfg, old(host.State()), nodes, u) ==> Gone(cfg, host.State(), u)
  {
    hide Inv, Footprint, Evolves, WellRead, Clear, Gone, Cleared, InScope, KeepsDoom, Cleaning, Due, Compatible;
    ghost var h0, fair := host.State(), Quiet(host.script) && Inv(cfg, host.State());
    var us := Interrupted(nodes);
    assert Cleared(cfg, us, h0, h0) && Onward(cfg, h0, h0) by {
      NothingCleared(cfg, us, h0, h0);
      OnwardStops(cfg, h0, h0);
    }
    assert Cleaning(cfg, h0, h0, nodes, us) by {
      hide *;
      CleaningBegins(cfg, h0, nodes);
    }
    e := Returned;
    var todo := us;
    while todo != {}
      invariant todo <= us && e.Returned? && !host.dead && host.started == old(host.started)
      invariant Cleared(cfg, us, h0, host.State()) && Onward(cfg, h0, host.State())
      invariant Quiet(old(host.script)) ==> Quiet(host.script)
      invariant Compatible(h0) ==> Compatible(host.State())
      invariant !Compatible(h0) ==> !Compatible(host.State()) && (Quiet(old(host.script)) ==> todo == us)
      invariant fair ==> Cleaning(cfg, h0, host.State(), nodes, todo)
      decreases todo
    {
      var u :| u in todo;
      ghost var h, script := host.State(), host.script;
      var attempted;
      e, attempted := DeleteIfCurrent(cfg, host, u, nodes[u].generation, nodes[u].state);
      ClearedStep(cfg, us, u, h0, h, host.State());
      OnwardFootprint(cfg, u, h, host.State());
      OnwardTrans(cfg, h0, h, host.State());
      if Compatible(h) {
        CompatibleStill(cfg, u, h, host.State());
      }
      QuietHead(script);
      if !Compatible(h) {
        StillIncompatible(cfg, u, h, host.State());
      }
      if fair {
        DueMeans(cfg, h, nodes, u);
        CleaningStep(cfg, u, h0, h, host.State(), nodes, todo);
        if e.Conflicted? {
          NothingDue(cfg, h0, host.State(), nodes, todo - {u});
          CleaningEnds(cfg, h0, host.State(), nodes);
        }
      }
      if e.Conflicted? || e.Perished? {
        return;
      }
      e := Returned;
      todo := todo - {u};
    }
    if fair {
      CleaningEnds(cfg, h0, host.State(), nodes);
    }
  }

  lemma CleaningBegins(cfg: Config, h: Host, nodes: map<string, NodeMeta>)
    ensures Cleaning(cfg, h, h, nodes, Interrupted(nodes))
  {
    hide Due, Gone;
  }

  lemma CleaningEnds(cfg: Config, h0: Host, h: Host, nodes: map<string, NodeMeta>)
    requires Cleaning(cfg, h0, h, nodes, {})
    ensures forall u :: u in Interrupted(nodes) && Due(cfg, h0, nodes, u) ==> Gone(cfg, h, u)
  {
    hide Due, Gone;
  }

  lemma DueMeans(cfg: Config, h: Host, nodes: map<string, NodeMeta>, u: string)
    ensures Due(cfg, h, nodes, u) ==> u in nodes && Clear(cfg, h, u) && IsNode(cfg, h, u) && MetaOf(cfg, h, u) == nodes[u]
  {
    hide Harmless, InScope;
  }

  /** Where another version's record stops a deletion, it still does afterwards. */
  lemma CompatibleStill(cfg: Config, u: string, h: Host, h': Host)
    requires Compatible(h) && Footprint(cfg, u, h, h')
    ensures Compatible(h')
  {
    forall v | v in h'.domains ensures !h'.domains[v].record.Incompatible? {
      if v != u {
        assert v in h'.domains - {u};
      }
    }
  }

  lemma QuietHead(script: seq<Event>)
    ensures Quiet(script) ==> Head(script).fault.Done?
  {
    if Quiet(script) {
      QuietScript(script);
    }
  }

  lemma StillIncompatible(cfg: Config, u: string, h: Host, h': Host)
    requires !Compatible(h) && OnlyStops(h, h')
    ensures !Compatible(h')
  {
  }

  /** The sort key of launch recovery: the bootstrap server, other servers, then agents. */
  function Rank(m: NodeMeta): nat {
    (if m.role.Server? then 0 else 2) + (if m.bootstrap then 0 else 1)
  }

  /** m may be started before m': no agent before a server, and no other server before the bootstrap one. */
  predicate Precedes(m: NodeMeta, m': NodeMeta) {
    && (m'.role.Server? ==> m.role.Server?)
    && (m.role.Server? && m'.role.Server? && m'.bootstrap ==> m.bootstrap)
  }

  /** sorted() by rank: every node once, in an order in which it may be started. */
  method LaunchOrder(nodes: map<string, NodeMeta>) returns (order: seq<string>)
    ensures forall u :: u in order <==> u in nodes
    ensures forall i :: 0 <= i < |order| ==> order[i] in nodes
    ensures forall i, j :: 0 <= i < j < |order| ==> order[i] != order[j]
    ensures forall i, j :: 0 <= i < j < |order| ==> Precedes(nodes[order[i]], nodes[order[j]])
    ensures |order| == |nodes|
  {
    order := [];
    var todo := nodes.Keys;
    var rank := 0;
    while todo != {}
      invariant todo <= nodes.Keys && rank <= 3 && |order| + |todo| == |nodes|
      invariant forall u :: u in order <==> u in nodes.Keys - todo
      invariant forall i :: 0 <= i < |order| ==> order[i] in nodes
      invariant forall u :: u in todo ==> rank <= Rank(nodes[u])
      invariant forall i :: 0 <= i < |order| ==> Rank(nodes[order[i]]) <= rank
      invariant forall i, j :: 0 <= i < j < |order| ==> order[i] != order[j]
      invariant forall i, j :: 0 <= i < j < |order| ==> Rank(nodes[order[i]]) <= Rank(nodes[order[j]])
      decreases 3 - rank, |todo|
    {
      if u :| u in todo && Rank(nodes[u]) == rank {
        assert u !in order;
        order, todo := order + [u], todo - {u};
      } else {
        assert exists u :: u in todo && Rank(nodes[u]) > rank;
        rank := rank + 1;
      }
    }
  }

  /** Starting guests changes their power and nothing else. */
  ghost predicate Powered(cfg: Config, nodes: map<string, NodeMeta>, h: Host, h': Host) {
    && h'.domains == h.domains && h'.volumes == h.volumes && h'.used == h.used && h'.nextCluster == h.nextCluster
    && forall u :: u in h'.active && u !in h.active ==>
         u in nodes && StartableNow(cfg, h, u, nodes[u].generation, nodes[u].state)
  }

  lemma PoweredTrans(cfg: Config, nodes: map<string, NodeMeta>, a: Host, b: Host, c: Host)
    requires Powered(cfg, nodes, a, b) && Powered(cfg, nodes, b, c)
    ensures Powered(cfg, nodes, a, c)
  {
    hide InScope;
    forall u | u in c.active && u !in b.active
      ensures u in nodes && StartableNow(cfg, a, u, nodes[u].generation, nodes[u].state)
    {
      assert StartableNow(cfg, b, u, nodes[u].generation, nodes[u].state);
    }
  }

  lemma PoweredWellRead(cfg: Config, nodes: map<string, NodeMeta>, h: Host, h': Host)
    requires WellRead(h) && Powered(cfg, nodes, h, h')
    ensures WellRead(h')
  {
    hide InScope, Valid;
  }

  predicate Once(order: seq<string>) {
    forall i, j :: 0 <= i < j < |order| ==> order[i] != order[j]
  }

  predicate StartableIn(cfg: Config, h: Host, nodes: map<string, NodeMeta>, u: string) {
    u in nodes && StartableNow(cfg, h, u, nodes[u].generation, nodes[u].state)
  }

  predicate AllNodes(cfg: Config, h: Host, order: seq<string>) {
    forall u :: u in order ==> IsNode(cfg, h, u)
  }

  /** Of the first n, every one that may run does, but for the one counted as failed, which does not run. */
  ghost predicate Reached(cfg: Config, h: Host, active: set<string>, nodes: map<string, NodeMeta>, order: seq<string>, n: nat,
                          failed: nat, miss: nat)
    requires n <= |order|
  {
    && failed <= 1 && (failed == 1 ==> miss < n && order[miss] !in active)
    && forall j :: 0 <= j < n && !(failed == 1 && j == miss) && StartableIn(cfg, h, nodes, order[j]) ==> order[j] in active
  }

  lemma ReachedOn(cfg: Config, h: Host, active: set<string>, active': set<string>, nodes: map<string, NodeMeta>,
                  order: seq<string>, n: nat, failed: nat, miss: nat)
    requires n < |order| && Once(order) && Reached(cfg, h, active, nodes, order, n, failed, miss)
    requires active' in {active, active + {order[n]}} && (StartableIn(cfg, h, nodes, order[n]) ==> order[n] in active')
    ensures Reached(cfg, h, active', nodes, order, n + 1, failed, miss)
  {
    hide StartableIn;
  }

  lemma ReachedFailed(cfg: Config, h: Host, active: set<string>, nodes: map<string, NodeMeta>, order: seq<string>, n: nat, miss: nat)
    requires n < |order| && Once(order) && Reached(cfg, h, active, nodes, order, n, 0, miss) && order[n] !in active
    ensures Reached(cfg, h, active, nodes, order, n + 1, 1, n)
  {
    hide StartableIn;
  }

  /** These are some of the first n of the order, in the same order. */
  ghost predicate InOrder(some: seq<string>, order: seq<string>, n: nat)
    requires n <= |order|
  {
    if some == [] then true
    else exists k: nat :: k < n && order[k] == some[|some| - 1] && InOrder(some[..|some| - 1], order, k)
  }

  lemma {:induction false} InOrderLonger(some: seq<string>, order: seq<string>, n: nat, n': nat)
    requires n <= n' <= |order| && InOrder(some, order, n)
    ensures InOrder(some, order, n')
  {
  }

  lemma InOrderMore(some: seq<string>, order: seq<string>, n: nat)
    requires n < |order| && InOrder(some, order, n)
    ensures InOrder(some + [order[n]], order, n + 1) && InOrder(some, order, n + 1)
  {
    InOrderLonger(some, order, n, n + 1);
    assert (some + [order[n]])[..|some|] == some;
  }

  /** What was started since is some of the first n of the order, in the same order. */
  ghost predicate StartedFrom(before: seq<string>, after: seq<string>, order: seq<string>, n: nat)
    requires n <= |order|
  {
    before <= after && InOrder(after[|before|..], order, n)
  }

  lemma StartedMore(before: seq<string>, mid: seq<string>, after: seq<string>, order: seq<string>, n: nat)
    requires n < |order| && StartedFrom(before, mid, order, n) && (after == mid || after == mid + [order[n]])
    ensures StartedFrom(before, after, order, n + 1) && StartedFrom(before, after, order, |order|)
  {
    hide InOrder;
    InOrderMore(mid[|before|..], order, n);
    assert after == mid + [order[n]] ==> after[|before|..] == mid[|before|..] + [order[n]];
    InOrderLonger(after[|before|..], order, n + 1, |order|);
  }

  /** So what holds of every two nodes of the order holds of these. */
  lemma {:induction false} InOrderPrecedes(some: seq<string>, order: seq<string>, n: nat, nodes: map<string, NodeMeta>, i: nat, j: nat)
    requires n <= |order| && InOrder(some, order, n) && (forall u :: u in order ==> u in nodes) && i < j < |some|
    requires forall k, l :: 0 <= k < l < |order| ==> Precedes(nodes[order[k]], nodes[order[l]])
    ensures some[i] in nodes && some[j] in nodes && Precedes(nodes[some[i]], nodes[some[j]])
  {
    hide Precedes;
    var last := |some| - 1;
    var k: nat :| k < n && order[k] == some[last] && InOrder(some[..last], order, k);
    if j < last {
      InOrderPrecedes(some[..last], order, k, nodes, i, j);
    } else {
      var l := InOrderAt(some[..last], order, k, i);
    }
  }

  lemma {:induction false} InOrderAt(some: seq<string>, order: seq<string>, n: nat, i: nat) returns (k: nat)
    requires n <= |order| && InOrder(some, order, n) && i < |some|
    ensures k < n && order[k] == some[i]
  {
    var last := |some| - 1;
    k :| k < n && order[k] == some[last] && InOrder(some[..last], order, k);
    if i < last {
      k := InOrderAt(some[..last], order, k, i);
    }
  }

  /**
   * The second loop of launch recovery. Every node is counted exactly once, a lost reply is
   * resolved by a read and never replayed, and untroubled every node that may run does.
   */
  method StartAll(cfg: Config, host: Libvirt, nodes: map<string, NodeMeta>, order: seq<string>)
    returns (e: Ending, started: nat, skipped: nat, failed: nat)
    requires WellRead(host.State()) && forall u :: u in order ==> u in nodes
    requires !host.dead
    modifies host
    ensures host.dead == e.Perished?
    ensures !e.Threw?
    ensures e.Returned? ==> started + skipped + failed == |order|
    ensures Powered(cfg, nodes, old(host.State()), host.State()) && Onward(cfg, old(host.State()), host.State())
    // Guests are told to start in the given order, each once at most.
    ensures StartedFrom(old(host.started), host.started, order, |order|)
    // One fault costs one node at most, and a start whose reply was lost is no failure.
    ensures Single(old(host.script)) && Calm(old(host.script)) && Inv(cfg, old(host.State())) && Compatible(old(host.State()))
            && Once(order) && AllNodes(cfg, old(host.State()), order) && !e.Perished? ==>
              e.Returned? && exists miss: nat :: Reached(cfg, old(host.State()), host.active, nodes, order, |order|, failed, miss)
    ensures Quiet(old(host.script)) && Inv(cfg, old(host.State())) && Compatible(old(host.State())) ==>
              && e.Returned? && failed == 0 && old(host.active) <= host.active && started == |host.active - old(host.active)|
              && Reached(cfg, old(host.State()), host.active, nodes, order, |order|, 0, 0)
  {
    hide Inv, Evolves, WellRead, InScope, KeepsDoom, OnlyAt, Startable, StartedFrom, Single, Calm, Reached, Compatible, Once,
      StartableIn, Onward, Powered, Quiet, Fairly, Lonely, UpIfQuiet, UpUnlessFault;
    ghost var h0 := host.State();
    ghost var fair := Quiet(host.script) && Inv(cfg, h0) && Compatible(h0);
    ghost var lone := Single(host.script) && Calm(host.script) && Inv(cfg, h0) && Compatible(h0) && Once(order)
                      && AllNodes(cfg, h0, order);
    Standing(cfg, h0, nodes, order);
    e, started, skipped, failed := Returned, 0, 0, 0;
    ghost var miss: nat := 0;
    AtFirst(cfg, h0, host.script, nodes, order);
    for i := 0 to |order|
      invariant e.Returned? && !host.dead && started + skipped + failed == i && host.domains == h0.domains
      invariant Powered(cfg, nodes, h0, host.State()) && Onward(cfg, h0, host.State())
      invariant StartedFrom(old(host.started), host.started, order, i)
      invariant fair ==> Fairly(cfg, h0, host.State(), host.script, nodes, order, i, started, failed)
      invariant lone ==> Lonely(cfg, h0, host.State(), host.script, nodes, order, i, failed, miss)
    {
      var u := order[i];
      ghost var h, before, script := host.State(), host.started, host.script;
      FairlyMeans(cfg, h0, h, script, nodes, order, i, started, failed);
      LonelyMeans(cfg, h0, h, script, nodes, order, i, failed, miss);
      OnwardInv(cfg, h0, h);
      SameView(cfg, h0, h, nodes, u);
      SameNode(cfg, h0, h, u);
      var v;
      e, v := StartOne(cfg, host, nodes, u);
      PoweredTrans(cfg, nodes, h0, h, host.State());
      OnwardTrans(cfg, h0, h, host.State());
      StartedMore(old(host.started), before, host.started, order, i);
      if !e.Returned? {
        return;
      }
      if fair {
        FairlyOn(cfg, h0, h, host.State(), script, host.script, nodes, order, i, started, failed, v);
      }
      if lone {
        LonelyOn(cfg, h0, h, host.State(), script, host.script, nodes, order, i, failed, miss, v);
        miss := if v.Lost? then i else miss;
      }
      match v
      case Up => started := started + 1;
      case Skipped => skipped := skipped + 1;
      case Lost => failed := failed + 1;
    }
    FairlyMeans(cfg, h0, host.State(), host.script, nodes, order, |order|, started, failed);
    LonelyMeans(cfg, h0, host.State(), host.script, nodes, order, |order|, failed, miss);
  }

  lemma AtFirst(cfg: Config, h: Host, script: seq<Event>, nodes: map<string, NodeMeta>, order: seq<string>)
    ensures Quiet(script) ==> Fairly(cfg, h, h, script, nodes, order, 0, 0, 0)
    ensures Calm(script) && Single(script) ==> Lonely(cfg, h, h, script, nodes, order, 0, 0, 0)
    ensures forall started :: StartedFrom(started, started, order, 0)
  {
    hide Quiet, Single, Calm;
    forall started ensures StartedFrom(started, started, order, 0) {
      assert started[|started|..] == [];
    }
    assert h.active - h.active == {};
  }

  lemma FairlyMeans(cfg: Config, h0: Host, h: Host, script: seq<Event>, nodes: map<string, NodeMeta>, order: seq<string>, n: nat,
                    started: nat, failed: nat)
    requires n <= |order|
    ensures Fairly(cfg, h0, h, script, nodes, order, n, started, failed) ==>
              && Quiet(script) && failed == 0 && h0.active <= h.active && started == |h.active - h0.active|
              && Reached(cfg, h0, h.active, nodes, order, n, 0, 0)
  {
    hide Quiet, Reached;
  }

  lemma LonelyMeans(cfg: Config, h0: Host, h: Host, script: seq<Event>, nodes: map<string, NodeMeta>, order: seq<string>, n: nat,
                    failed: nat, miss: nat)
    requires n <= |order|
    ensures Lonely(cfg, h0, h, script, nodes, order, n, failed, miss) ==>
              && Calm(script) && Single(script) && (failed == 0 || Quiet(script))
              && Reached(cfg, h0, h.active, nodes, order, n, failed, miss)
  {
    hide Quiet, Reached, Single, Calm;
  }

  /** What launch recovery counts a node as. */
  datatype Verdict = Up | Skipped | Lost

  /** Untroubled, a node that may run does, and is counted as up if it was not before. */
  ghost predicate UpIfQuiet(cfg: Config, h: Host, h': Host, script: seq<Event>, nodes: map<string, NodeMeta>, u: string, v: Verdict) {
    && !v.Lost? && Quiet(script) && (v.Up? ==> u !in h.active)
    && h'.active == (if v.Up? then h.active + {u} else h.active)
    && (StartableIn(cfg, h, nodes, u) ==> u in h'.active)
  }

  /** With one fault, it does unless it is counted as lost, and then it does not and no fault is left. */
  ghost predicate UpUnlessFault(cfg: Config, h: Host, h': Host, script: seq<Event>, nodes: map<string, NodeMeta>, u: string,
                                v: Verdict)
  {
    && Calm(script) && Single(script) && h'.active in {h.active, h.active + {u}}
    && if v.Lost? then u !in h'.active && Quiet(script) else StartableIn(cfg, h, nodes, u) ==> u in h'.active
  }

  ghost predicate Fairly(cfg: Config, h0: Host, h: Host, script: seq<Event>, nodes: map<string, NodeMeta>, order: seq<string>,
                         n: nat, started: nat, failed: nat)
    requires n <= |order|
  {
    && Quiet(script) && failed == 0 && h0.active <= h.active && started == |h.active - h0.active|
    && Reached(cfg, h0, h.active, nodes, order, n, 0, 0)
  }

  lemma FairlyOn(cfg: Config, h0: Host, h: Host, h': Host, script: seq<Event>, script': seq<Event>, nodes: map<string, NodeMeta>,
                 order: seq<string>, n: nat, started: nat, failed: nat, v: Verdict)
    requires n < |order| && Fairly(cfg, h0, h, script, nodes, order, n, started, failed) && h.domains == h0.domains
    requires UpIfQuiet(cfg, h, h', script', nodes, order[n], v)
    ensures Fairly(cfg, h0, h', script', nodes, order, n + 1, if v.Up? then started + 1 else started, failed) && !v.Lost?
  {
    hide Reached, StartableIn, Quiet;
    SameView(cfg, h0, h, nodes, order[n]);
    ReachedFair(cfg, h0, h.active, h'.active, nodes, order, n);
    OneMoreUp(h0.active, h.active, h'.active, order[n]);
  }

  ghost predicate Lonely(cfg: Config, h0: Host, h: Host, script: seq<Event>, nodes: map<string, NodeMeta>, order: seq<string>,
                         n: nat, failed: nat, miss: nat)
    requires n <= |order|
  {
    && Calm(script) && Single(script) && (failed == 0 || Quiet(script))
    && Reached(cfg, h0, h.active, nodes, order, n, failed, miss)
  }

  lemma LonelyOn(cfg: Config, h0: Host, h: Host, h': Host, script: seq<Event>, script': seq<Event>, nodes: map<string, NodeMeta>,
                 order: seq<string>, n: nat, failed: nat, miss: nat, v: Verdict)
    requires n < |order| && Once(order) && Lonely(cfg, h0, h, script, nodes, order, n, failed, miss) && h.domains == h0.domains
    requires UpUnlessFault(cfg, h, h', script', nodes, order[n], v) && (Quiet(script) ==> Quiet(script') && !v.Lost?)
    ensures Lonely(cfg, h0, h', script', nodes, order, n + 1, if v.Lost? then failed + 1 else failed, if v.Lost? then n else miss)
  {
    hide Reached, StartableIn, Quiet, Single, Calm, Once;
    SameView(cfg, h0, h, nodes, order[n]);
    if v.Lost? {
      ReachedUnchanged(h.active, h'.active, order[n]);
      ReachedFailed(cfg, h0, h.active, nodes, order, n, miss);
    } else {
      ReachedOn(cfg, h0, h.active, h'.active, nodes, order, n, failed, miss);
    }
  }

  /** One node of the second loop: a start that raised is looked into, and never repeated. */
  method StartOne(cfg: Config, host: Libvirt, nodes: map<string, NodeMeta>, u: string) returns (e: Ending, v: Verdict)
    requires WellRead(host.State()) && u in nodes
    requires !host.dead
    modifies host
    ensures host.dead == e.Perished?
    ensures !e.Threw?
    ensures Powered(cfg, nodes, old(host.State()), host.State()) && Onward(cfg, old(host.State()), host.State())
    ensures host.domains == old(host.domains)
    ensures host.started == old(host.started) || host.started == old(host.started) + [u]
    ensures e.Conflicted? ==> !Compatible(old(host.State()))
    // A record of another version is passed over only if it could not be read twice.
    ensures u in host.domains && host.domains[u].record.Incompatible? && e.Returned? ==>
              v.Lost? && !Head(old(host.script)).fault.Done? && !EventAt(old(host.script), 1).fault.Done?
    ensures Quiet(old(host.script)) && Inv(cfg, old(host.State())) && Compatible(old(host.State())) ==>
              e.Returned? && !v.Lost? && UpIfQuiet(cfg, old(host.State()), host.State(), host.script, nodes, u, v)
    ensures Single(old(host.script)) && Calm(old(host.script)) && Inv(cfg, old(host.State())) && Compatible(old(host.State()))
            && IsNode(cfg, old(host.State()), u) && !e.Perished? ==>
              && e.Returned? && (Quiet(old(host.script)) ==> Quiet(host.script))
              && UpUnlessFault(cfg, old(host.State()), host.State(), host.script, nodes, u, v)
  {
    hide Inv, Evolves, WellRead, InScope, KeepsDoom, OnlyAt, Startable, Single, Calm, Compatible, Onward, Powered, Quiet, StartableIn,
      StartableNow;
    ghost var h0 := host.State();
    if u in h0.domains && h0.domains[u].record.Incompatible? {
      IncompatibleHere(h0, u);
    }
    OneCall(host.script, 0);
    OneCall(host.script, 1);
    SameView(cfg, h0, h0, nodes, u);
    var ok;
    e, ok := StartIfCurrent(cfg, host, u, nodes[u].generation, nodes[u].state);
    ghost var h1 := host.State();
    OneStarted(cfg, nodes, u, h0, h1);
    v := if ok then Up else Skipped;
    if e.Threw? {
      OnwardInv(cfg, h0, h1);
      if Quiet(host.script) {
        QuietScript(host.script);
      }
      e := Read(host);
      StopsPower(cfg, nodes, h1, host.State());
      PoweredTrans(cfg, nodes, h0, h1, host.State());
      OnwardTrans(cfg, h0, h1, host.State());
      if e.Returned? && u in host.domains && host.domains[u].record.Incompatible? {
        IncompatibleHere(h0, u);
        e := Conflicted;
      }
      if e.Threw? || e.Returned? {
        v := if e.Returned? && IsNode(cfg, host.State(), u) && u in host.active then Up else Lost;
        e := Returned;
      }
      SameNode(cfg, h0, host.State(), u);
    }
  }

  lemma ReachedFair(cfg: Config, h: Host, active: set<string>, active': set<string>, nodes: map<string, NodeMeta>, order: seq<string>, n: nat)
    requires n < |order| && Reached(cfg, h, active, nodes, order, n, 0, 0) && active <= active'
    requires StartableIn(cfg, h, nodes, order[n]) ==> order[n] in active'
    ensures Reached(cfg, h, active', nodes, order, n + 1, 0, 0)
  {
    hide StartableIn;
  }

  lemma OneMoreUp(first: set<string>, active: set<string>, active': set<string>, u: string)
    requires first <= active && active' in {active, active + {u}}
    ensures first <= active'
    ensures active' == active ==> |active' - first| == |active - first|
    ensures u !in active && active' == active + {u} ==> |active' - first| == |active - first| + 1
  {
    if u !in active {
      assert (active + {u}) - first == (active - first) + {u};
    }
  }

  lemma ReachedAll(cfg: Config, h: Host, active: set<string>, nodes: map<string, NodeMeta>, order: seq<string>)
    requires Reached(cfg, h, active, nodes, order, |order|, 0, 0) && nodes == Snapshot(cfg, h) && forall u :: u in nodes ==> u in order
    ensures Runnable(cfg, h) <= active
  {
    hide InScope;
    forall u | u in Runnable(cfg, h) ensures u in active {
      assert u in order;
      var j: nat :| j < |order| && order[j] == u;
      assert StartableIn(cfg, h, nodes, order[j]);
    }
  }

  lemma Standing(cfg: Config, h: Host, nodes: map<string, NodeMeta>, order: seq<string>)
    requires WellRead(h)
    ensures Onward(cfg, h, h) && Powered(cfg, nodes, h, h)
  {
    hide Inv, Evolves, WellRead, KeepsDoom;
    OnwardStops(cfg, h, h);
  }

  lemma OnwardInv(cfg: Config, h: Host, h': Host)
    requires Onward(cfg, h, h')
    ensures WellRead(h') && (Inv(cfg, h) ==> Inv(cfg, h'))
  {
    hide Inv, WellRead, KeepsDoom, Evolves;
  }

  lemma SameView(cfg: Config, h: Host, h': Host, nodes: map<string, NodeMeta>, u: string)
    requires h'.domains == h.domains
    ensures (Compatible(h) <==> Compatible(h')) && (StartableIn(cfg, h', nodes, u) <==> StartableIn(cfg, h, nodes, u))
    ensures u in nodes ==> (StartableIn(cfg, h, nodes, u) <==> StartableNow(cfg, h', u, nodes[u].generation, nodes[u].state))
  {
    hide InScope;
  }

  lemma SameNode(cfg: Config, h: Host, h': Host, u: string)
    requires h'.domains == h.domains
    ensures IsNode(cfg, h', u) <==> IsNode(cfg, h, u)
  {
  }

  lemma ReachedUnchanged(active: set<string>, active': set<string>, u: string)
    requires active' in {active, active + {u}} && u !in active'
    ensures active' == active
  {
  }

  lemma IncompatibleHere(h: Host, u: string)
    requires u in h.domains && h.domains[u].record.Incompatible?
    ensures !Compatible(h)
  {
  }

  lemma OneStarted(cfg: Config, nodes: map<string, NodeMeta>, u: string, h: Host, h': Host)
    requires WellRead(h) && OnlyAt(cfg, u, h, h') && u in nodes
    requires h'.domains == h.domains && h'.volumes == h.volumes && h'.used == h.used && h'.nextCluster == h.nextCluster
    requires u in h'.active && u !in h.active ==> StartableNow(cfg, h, u, nodes[u].generation, nodes[u].state)
    requires Inv(cfg, h) ==> Inv(cfg, h') && Evolves(cfg, h, h')
    ensures Powered(cfg, nodes, h, h') && Onward(cfg, h, h')
  {
    hide InScope, Inv, Evolves, ClaimsOf, WellRead;
    assert forall v :: v in h'.active - {u} ==> v in h.active;
    PoweredWellRead(cfg, nodes, h, h');
  }

  lemma StopsPower(cfg: Config, nodes: map<string, NodeMeta>, h: Host, h': Host)
    requires WellRead(h) && OnlyStops(h, h')
    ensures Powered(cfg, nodes, h, h') && Onward(cfg, h, h')
  {
    hide Inv, Evolves, WellRead;
    OnwardStops(cfg, h, h');
  }

  /** The first half of launch recovery: list the nodes and clean up. */
  method Sweep(cfg: Config, host: Libvirt) returns (e: Ending)
    requires WellRead(host.State())
    requires !host.dead
    modifies host
    ensures host.dead == e.Perished?
    ensures Onward(cfg, old(host.State()), host.State()) && host.started == old(host.started)
    ensures Removed(cfg, Interrupted(Snapshot(cfg, old(host.State()))), old(host.State()), host.State())
    ensures host.active <= old(host.active)
    ensures Quiet(old(host.script)) && Inv(cfg, old(host.State())) ==>
              forall u :: u in Interrupted(Snapshot(cfg, old(host.State()))) && Clear(cfg, old(host.State()), u) ==>
                Gone(cfg, host.State(), u)
    ensures Quiet(old(host.script)) && Recoverable(cfg, old(host.State())) ==>
              e.Returned? && Quiet(host.script) && Compatible(host.State()) && Nodes(cfg, host.State()) == Whole(cfg, old(host.State()))
    // Without a list of nodes nothing else is done.
    ensures !(Head(old(host.script)).fault.Done? && Compatible(old(host.State()))) ==>
              !e.Returned? && host.script == TailOf(old(host.script)) && OnlyStops(old(host.State()), host.State())
    ensures Head(old(host.script)).fault.Done? && Compatible(old(host.State())) ==> !e.Threw?
  {
    hide Inv, Evolves, WellRead, InScope, Cleared, Clear, Gone, Onward, Due, KeepsDoom, Removed, Quiet;
    ghost var h0 := host.State();
    ghost var us := Interrupted(Snapshot(cfg, h0));
    e := CheckCompatible(host);  // list_nodes reads every record
    ghost var h1 := host.State();
    OnwardStops(cfg, h0, h1);
    OnwardInv(cfg, h0, h1);
    NothingCleared(cfg, us, h0, h1);
    ClearedMeans(cfg, us, h0, h1);
    SameNodes(cfg, h0, h1);
    AllDue(cfg, h0);
    DueStill(cfg, h0, h1);
    if !e.Returned? {
      return;
    }
    assert Snapshot(cfg, host.State()) == Snapshot(cfg, h0);
    e := CleanUp(cfg, host, Snapshot(cfg, host.State()));
    ghost var h2 := host.State();
    RemovedStill(cfg, us, h0, h1, h2);
    OnwardTrans(cfg, h0, h1, h2);
    if Quiet(old(host.script)) && Recoverable(cfg, h0) {
      AfterCleanUp(cfg, h0, h2);
    }
  }

  lemma RemovedStill(cfg: Config, us: set<string>, a: Host, b: Host, c: Host)
    requires OnlyStops(a, b) && Cleared(cfg, us, b, c)
    ensures Removed(cfg, us, a, c) && c.active <= a.active
  {
  }

  /**
   * Launch recovery. Only interrupted nodes lose anything; nothing but power changes for the
   * rest; untroubled, every interrupted node is gone and every node that may run is running.
   */
  method RecoverNodes(cfg: Config, host: Libvirt, autostart: bool) returns (e: Ending, failed: nat)
    requires WellRead(host.State())
    requires !host.dead
    modifies host
    ensures host.dead == e.Perished?
    ensures Onward(cfg, old(host.State()), host.State())
    ensures Removed(cfg, Interrupted(Snapshot(cfg, old(host.State()))), old(host.State()), host.State())
    ensures !(Head(old(host.script)).fault.Done? && Compatible(old(host.State()))) ==>
              !e.Returned? && host.script == TailOf(old(host.script)) && OnlyStops(old(host.State()), host.State())
    ensures StartsInOrder(cfg, host.State(), old(host.started), host.started)
    ensures !autostart ==> host.active <= old(host.active)
    ensures forall u :: u in host.active && u !in old(host.active) ==>
              IsNode(cfg, host.State(), u) && Startable(MetaOf(cfg, host.State(), u).state)
    // Untroubled it finishes each deletion that only faults can hold up, whatever becomes of the others.
    ensures Quiet(old(host.script)) && Inv(cfg, old(host.State())) ==>
              forall u :: u in Interrupted(Snapshot(cfg, old(host.State()))) && Clear(cfg, old(host.State()), u) ==>
                Gone(cfg, host.State(), u)
    ensures Quiet(old(host.script)) && Recoverable(cfg, old(host.State())) ==>
              && e.Returned? && failed == 0 && Nodes(cfg, host.State()) == Whole(cfg, old(host.State()))
              && (forall u :: u in Interrupted(Snapshot(cfg, old(host.State()))) ==> Gone(cfg, host.State(), u))
              && (autostart ==> Runnable(cfg, host.State()) <= host.active)
  {
    hide Inv, Evolves, WellRead, InScope, Clear, Gone, StartsInOrder, Single, Calm, KeepsDoom, Precedes, Onward, Quiet, Compatible,
      Recoverable, Removed;
    ghost var h0 := host.State();
    failed := 0;
    e := Sweep(cfg, host);
    ghost var h1 := host.State();
    OnwardInv(cfg, h0, h1);
    NoStartsYet(cfg, h1, host.started);
    RecoverableMeans(cfg, h0);
    if !e.Returned? || !autostart {
      return;
    }
    e, failed := StartNodes(cfg, host);
    OnwardTrans(cfg, h0, h1, host.State());
    SameGone(cfg, h1, host.State());
    SameRunnable(cfg, h1, host.State());
    RemovedByPower(cfg, Interrupted(Snapshot(cfg, h0)), h0, h1, host.State());
    StartsSame(cfg, h1, host.State(), old(host.started), host.started);
  }

  lemma RecoverableMeans(cfg: Config, h: Host)
    ensures Recoverable(cfg, h) ==> Inv(cfg, h) && forall u :: u in Interrupted(Snapshot(cfg, h)) ==> Clear(cfg, h, u)
  {
    hide Inv, Clear, Compatible;
  }

  lemma SameRunnable(cfg: Config, h: Host, h': Host)
    requires h'.domains == h.domains
    ensures Runnable(cfg, h') == Runnable(cfg, h) && Nodes(cfg, h') == Nodes(cfg, h)
  {
  }

  lemma RemovedByPower(cfg: Config, us: set<string>, a: Host, b: Host, c: Host)
    requires Removed(cfg, us, a, b)
    requires c.domains == b.domains && c.volumes == b.volumes && c.used == b.used && c.nextCluster == b.nextCluster
    ensures Removed(cfg, us, a, c)
  {
  }

  /** A fresh snapshot is up to date, and a host with another version's record holds up everything. */
  lemma AllDue(cfg: Config, h: Host)
    ensures forall u :: u in Interrupted(Snapshot(cfg, h)) && Clear(cfg, h, u) ==> Due(cfg, h, Snapshot(cfg, h), u) && Compatible(h)
  {
    hide Harmless, InScope, Compatible;
    forall u | u in Interrupted(Snapshot(cfg, h)) && Clear(cfg, h, u) ensures Compatible(h) {
      ClearIsCompatible(cfg, h, u);
    }
  }

  lemma DueStill(cfg: Config, h: Host, h': Host)
    requires OnlyStops(h, h')
    ensures forall nodes, u :: Due(cfg, h, nodes, u) ==> Due(cfg, h', nodes, u)
  {
    hide InScope, Harmless;
    forall nodes, u | Due(cfg, h, nodes, u) ensures Due(cfg, h', nodes, u) {
      StillClear(cfg, h, h', u);
    }
  }

  lemma SameGone(cfg: Config, h: Host, h': Host)
    requires h'.domains == h.domains && h'.volumes == h.volumes
    ensures forall u :: Gone(cfg, h, u) ==> Gone(cfg, h', u)
  {
  }

  lemma ClearedMeans(cfg: Config, us: set<string>, h: Host, h': Host)
    requires Cleared(cfg, us, h, h')
    ensures Removed(cfg, us, h, h') && h'.active <= h.active
  {
  }

  /** Nothing but faults can hold up launch recovery. */
  ghost predicate Recoverable(cfg: Config, h: Host) {
    Inv(cfg, h) && Compatible(h) && AllClear(cfg, h, Interrupted(Snapshot(cfg, h)))
  }

  /** The nodes with no operation pending. */
  function Whole(cfg: Config, h: Host): set<string> {
    Nodes(cfg, h) - Interrupted(Snapshot(cfg, h))
  }

  function Runnable(cfg: Config, h: Host): set<string> {
    set u | u in Nodes(cfg, h) && Startable(h.domains[u].record.meta.state)
  }

  lemma AfterCleanUp(cfg: Config, h0: Host, h: Host)
    requires Compatible(h0) && Removed(cfg, Interrupted(Snapshot(cfg, h0)), h0, h)
    requires forall u :: u in Interrupted(Snapshot(cfg, h0)) ==> Gone(cfg, h, u)
    ensures Compatible(h) && Nodes(cfg, h) == Whole(cfg, h0)
  {
    hide ClaimsOf;
    forall v | v in h.domains ensures v in h0.domains && h.domains[v] == h0.domains[v] {
      assert v !in Interrupted(Snapshot(cfg, h0));
    }
  }

  /** The guests told to start since are nodes, and no agent comes before a server, no server before the bootstrap one. */
  ghost predicate StartsInOrder(cfg: Config, h: Host, before: seq<string>, after: seq<string>) {
    && before <= after
    && (forall i :: |before| <= i < |after| ==> IsNode(cfg, h, after[i]))
    && forall i, j :: |before| <= i < j < |after| ==> Precedes(MetaOf(cfg, h, after[i]), MetaOf(cfg, h, after[j]))
  }

  lemma NoStartsYet(cfg: Config, h: Host, started: seq<string>)
    ensures StartsInOrder(cfg, h, started, started)
  {
  }

  lemma StartedInOrder(cfg: Config, h: Host, nodes: map<string, NodeMeta>, order: seq<string>, before: seq<string>, after: seq<string>)
    requires nodes == Snapshot(cfg, h) && (forall u :: u in order ==> u in nodes)
    requires forall k, l :: 0 <= k < l < |order| ==> Precedes(nodes[order[k]], nodes[order[l]])
    requires StartedFrom(before, after, order, |order|)
    ensures StartsInOrder(cfg, h, before, after)
  {
    hide InScope, Precedes, InOrder;
    var some := after[|before|..];
    forall i | |before| <= i < |after| ensures after[i] in nodes {
      assert some[i - |before|] == after[i];
      var k := InOrderAt(some, order, |order|, i - |before|);
    }
    forall i, j | |before| <= i < j < |after| ensures Precedes(MetaOf(cfg, h, after[i]), MetaOf(cfg, h, after[j])) {
      assert some[i - |before|] == after[i] && some[j - |before|] == after[j];
      InOrderPrecedes(some, order, |order|, nodes, i - |before|, j - |before|);
    }
  }

  lemma StartsSame(cfg: Config, h: Host, h': Host, before: seq<string>, after: seq<string>)
    requires h'.domains == h.domains && StartsInOrder(cfg, h, before, after)
    ensures StartsInOrder(cfg, h', before, after)
  {
    hide InScope, Precedes;
    forall i | |before| <= i < |after| ensures IsNode(cfg, h', after[i]) {
      SameNode(cfg, h, h', after[i]);
    }
  }

  lemma PoweredMeans(cfg: Config, nodes: map<string, NodeMeta>, h: Host, h': Host)
    requires Powered(cfg, nodes, h, h')
    ensures h'.domains == h.domains && h'.volumes == h.volumes && h'.used == h.used && h'.nextCluster == h.nextCluster
    ensures h'.active <= h.active + Runnable(cfg, h)
  {
    hide InScope;
  }

  lemma MissedOne(cfg: Config, h0: Host, h: Host, active: set<string>, nodes: map<string, NodeMeta>, order: seq<string>,
                  failed: nat, miss: nat)
    requires h.domains == h0.domains && nodes == Snapshot(cfg, h) && (forall u :: u in order <==> u in nodes)
    requires Reached(cfg, h, active, nodes, order, |order|, failed, miss)
    ensures failed <= 1 && |Runnable(cfg, h0) - active| <= failed && (failed == 1 ==> Nodes(cfg, h0) - active != {})
  {
    hide InScope;
    var missed := Runnable(cfg, h0) - active;
    assert Nodes(cfg, h0) == Nodes(cfg, h);
    forall u | u in missed ensures failed == 1 && u == order[miss] {
      assert u in order;
      var j: nat :| j < |order| && order[j] == u;
      assert StartableIn(cfg, h, nodes, order[j]);
    }
    if failed == 1 {
      assert order[miss] in order;
      assert order[miss] in Nodes(cfg, h0) - active;
      assert missed <= {order[miss]};
      SubsetSize(missed, {order[miss]});
    } else {
      assert missed == {};
    }
  }

  /** The second half of launch recovery: read the nodes again, then start them in order. */
  method StartNodes(cfg: Config, host: Libvirt) returns (e: Ending, failed: nat)
    requires WellRead(host.State())
    requires !host.dead
    modifies host
    ensures host.dead == e.Perished?
    ensures !(Head(old(host.script)).fault.Done? && Compatible(old(host.State()))) ==>
              !e.Returned? && host.script == TailOf(old(host.script)) && OnlyStops(old(host.State()), host.State())
    ensures Onward(cfg, old(host.State()), host.State())
    ensures host.domains == old(host.domains) && host.volumes == old(host.volumes)
    ensures host.used == old(host.used) && host.nextCluster == old(host.nextCluster)
    ensures host.active <= old(host.active) + Runnable(cfg, old(host.State()))
    ensures StartsInOrder(cfg, old(host.State()), old(host.started), host.started)
    // One fault costs one node at most, and a start whose reply was lost is no failure.
    ensures Single(old(host.script)) && Calm(old(host.script)) && Inv(cfg, old(host.State())) && Compatible(old(host.State()))
            && e.Returned? ==>
              failed <= 1 && |Runnable(cfg, old(host.State())) - host.active| <= failed && (failed == 1 ==> Nodes(cfg, old(host.State())) - host.active != {})
    ensures Quiet(old(host.script)) && Inv(cfg, old(host.State())) && Compatible(old(host.State())) ==>
              e.Returned? && failed == 0 && Runnable(cfg, old(host.State())) <= host.active
  {
    hide Inv, Evolves, WellRead, InScope, Onward, Single, Calm, Quiet, Reached, StartedFrom, Precedes, Powered, StartsInOrder, Compatible,
      StartableIn, KeepsDoom;
    ghost var h0 := host.State();
    failed := 0;
    e := CheckCompatible(host);
    ghost var h1 := host.State();
    OnwardStops(cfg, h0, h1);
    OnwardInv(cfg, h0, h1);
    SingleScript(host.script);
    NoStartsYet(cfg, h0, host.started);
    SameNodes(cfg, h0, h1);
    SameView(cfg, h0, h1, map[], "");
    if !e.Returned? {
      return;
    }
    var nodes := Snapshot(cfg, host.State());
    var order := LaunchOrder(nodes);
    var started, skipped;
    e, started, skipped, failed := StartAll(cfg, host, nodes, order);
    OnwardTrans(cfg, h0, h1, host.State());
    if Quiet(old(host.script)) && Inv(cfg, h0) && Compatible(h0) {
      ReachedAll(cfg, h1, host.active, nodes, order);
    }
    PoweredMeans(cfg, nodes, h1, host.State());
    StartedInOrder(cfg, h0, nodes, order, old(host.started), host.started);
    if miss: nat :| Reached(cfg, h1, host.active, nodes, order, |order|, failed, miss) {
      MissedOne(cfg, h0, h1, host.active, nodes, order, failed, miss);
    }
  }
}

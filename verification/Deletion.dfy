/** NodeManager._delete and its guards: teardown that a failure or death at any call leaves resumable. */
module Deletion {
  import opened Wrappers
  import opened Names
  import opened Paths
  import opened Xml
  import opened Meta
  import opened Disks
  import opened Built
  import opened Lifecycle
  import opened Hypervisor

  /**
   * How a critical section ended: it returned, it raised (`Conflicted` for a CompatibilityError,
   * which callers never swallow), or the process died in it.
   */
  datatype Ending = Returned | Threw | Conflicted | Perished

  function EndingOf(r: Reply): Ending {
    if r.Fine? then Returned else if r.Died? then Perished else Threw
  }

  // ----- the footprint of a deletion --------------------------------------------------

  predicate IntentWritten(cfg: Config, h: Host, u: string) {
    IsNode(cfg, h, u) && MetaOf(cfg, h, u).state.Deleting?
  }

  /** u's domain is untouched, or carries the deleting intent instead of its former record. */
  predicate SameOrIntended(cfg: Config, h: Host, h': Host, u: string)
    requires u in h.domains && u in h'.domains
  {
    || h'.domains[u] == h.domains[u]
    || (&& IsNode(cfg, h, u) && !MetaOf(cfg, h, u).state.Deleting?
        && h'.domains[u] == h.domains[u].(record := Managed(Intent(MetaOf(cfg, h, u)))))
  }

  /**
   * Everything a deletion of u may have done by the time it stops, however it stops: stopping u
   * and removing its two volumes, both only under a written intent, and undefining it once both
   * volumes are gone. No other domain, volume or identity changes.
   */
  ghost predicate Footprint(cfg: Config, u: string, h: Host, h': Host) {
    && OnlyAt(cfg, u, h, h')
    && h'.used == h.used && h'.nextCluster == h.nextCluster && h.halted <= h'.halted
    && h'.volumes <= h.volumes && h'.active <= h.active
    && (u in h'.domains ==> u in h.domains && SameOrIntended(cfg, h, h', u))
    && (u in h.domains && u !in h'.domains ==> IsNode(cfg, h, u) && ClaimsOf(cfg, u) !! h'.volumes && u !in h'.active)
    && (h'.volumes != h.volumes ==> u !in h'.active)
    && (h'.volumes != h.volumes || (u in h.active && u !in h'.active && u !in h'.halted) ==>
          IsNode(cfg, h, u) && (u !in h'.domains || IntentWritten(cfg, h', u)))
  }

  lemma IntentOfNode(m: NodeMeta)
    requires Valid(m)
    ensures Valid(Intent(m)) && Stored(Intent(m)) == Managed(Intent(m))
  {
    StoredValid(Intent(m));
  }

  lemma StopsAreFootprint(cfg: Config, u: string, h: Host, h': Host)
    requires OnlyStops(h, h')
    ensures Footprint(cfg, u, h, h')
  {
  }

  lemma FootprintTrans(cfg: Config, u: string, a: Host, b: Host, c: Host)
    requires Footprint(cfg, u, a, b) && Footprint(cfg, u, b, c)
    ensures Footprint(cfg, u, a, c)
  {
    if u in c.domains {
      assert SameOrIntended(cfg, b, c, u) && SameOrIntended(cfg, a, b, u);
      assert SameOrIntended(cfg, a, c, u);
    }
    assert forall v :: v in c.volumes - ClaimsOf(cfg, u) <==> v in a.volumes - ClaimsOf(cfg, u);
  }

  lemma StaysSound(cfg: Config, u: string, h: Host, h': Host)
    requires IsNode(cfg, h, u) && Sound(cfg, h, u) && Footprint(cfg, u, h, h')
    ensures u in h'.domains ==> IsNode(cfg, h', u) && Sound(cfg, h', u) && RecordStep(MetaOf(cfg, h, u), MetaOf(cfg, h', u))
  {
    hide AsBuilt, Valid, Stored;
    var m := MetaOf(cfg, h, u);
    BuiltIsValid(cfg, u, h.domains[u]);
    if u in h'.domains && h'.domains[u] != h.domains[u] {
      IntentOfNode(m);
      RewrittenAsBuilt(cfg, u, h.domains[u], Intent(m));
    }
  }

  /** However a deletion ends, the invariant holds and the history moved forward. */
  lemma FootprintKeeps(cfg: Config, u: string, h: Host, h': Host)
    requires Inv(cfg, h) && Footprint(cfg, u, h, h')
    ensures Inv(cfg, h') && Evolves(cfg, h, h')
  {
    hide AsBuilt, Intent, InScope, Agrees;
    if IsNode(cfg, h, u) {
      StaysSound(cfg, u, h, h');
      forall v | IsNode(cfg, h, v) ensures Together(cfg, h, u, v) {
      }
      LocalChange(cfg, u, h, h');
      LocalHistory(cfg, u, h, h');
    } else {
      forall v
        ensures v in h'.domains <==> v in h.domains
        ensures v in h.domains ==> h'.domains[v] == h.domains[v]
      {
        if v != u {
          OtherNodes(cfg, u, h, h', v);
        }
      }
      assert OnlyStops(h, h');
      OnlyStopsKeeps(cfg, h, h');
    }
  }

  // ----- when nothing stands in the way -----------------------------------------------

  /** A domain that is not a node can be read and refers to neither of u's volumes. */
  ghost predicate Harmless(cfg: Config, h: Host, u: string, v: string)
    requires v in h.domains
  {
    var g := GuestOf(h.domains[v], v in h.active);
    && !h.domains[v].record.Incompatible?
    && AllFit(cfg.pools, Examined(g), false)
    && forall p :: p in ClaimPaths(cfg.target, cfg.prefix, u) ==> !Refer(cfg.pools, Examined(g), p)
  }

  ghost predicate Clear(cfg: Config, h: Host, u: string) {
    && IsNode(cfg, h, u)
    && forall v :: v in h.domains && !IsNode(cfg, h, v) ==> Harmless(cfg, h, u, v)
  }

  ghost predicate SameElsewhere(u: string, h: Host, h': Host) {
    h'.domains - {u} == h.domains - {u} && h'.active - {u} == h.active - {u}
  }

  /** Whatever happens to u, and whichever other guests stop, nothing new gets in the way. */
  lemma StillClear(cfg: Config, h: Host, h': Host, u: string)
    requires Clear(cfg, h, u) && h'.domains - {u} == h.domains - {u} && h'.active - {u} <= h.active - {u}
    requires IsNode(cfg, h', u)
    ensures Clear(cfg, h', u)
  {
    hide AllFit, Refer, InScope;
    forall v | v in h'.domains && !IsNode(cfg, h', v) ensures Harmless(cfg, h', u, v) {
      OtherNodes(cfg, u, h, h', v);
      assert Harmless(cfg, h, u, v);
      assert v in h'.active ==> v in h'.active - {u};
      var d := h.domains[v];
      ExaminedWhenStopped(cfg.pools, GuestOf(d, true), GuestOf(d, false));
    }
  }

  lemma ExaminedWhenStopped(pools: Pools, on: Guest, off: Guest)
    requires off == on.(active := false)
    ensures AllFit(pools, Examined(on), false) ==> AllFit(pools, Examined(off), false)
    ensures forall p :: Refer(pools, Examined(off), p) ==> Refer(pools, Examined(on), p)
  {
    hide DiskFits, DiskRefs;
    assert forall d :: d in Examined(off) ==> d in Examined(on);
  }

  /** Then the scan succeeds and finds none of u's volumes: peers are built, and others are harmless. */
  lemma ClearScan(cfg: Config, h: Host, u: string)
    requires Inv(cfg, h) && Clear(cfg, h, u)
    ensures HostFits(cfg.pools, Guests(h), Some(u), false, Nodes(cfg, h))
    ensures forall p :: p in ClaimPaths(cfg.target, cfg.prefix, u) ==> !HostRefers(cfg.pools, Guests(h), Some(u), p)
  {
    hide AllFit, Refer, ClaimPaths, InScope, GoodNode;
    assert Sound(cfg, h, u);
    forall v | v in h.domains && v != u
      ensures AllFit(cfg.pools, Examined(Guests(h)[v]), Strict(v, false, Nodes(cfg, h)))
      ensures forall p :: p in ClaimPaths(cfg.target, cfg.prefix, u) ==> !Refer(cfg.pools, Examined(Guests(h)[v]), p)
    {
      if IsNode(cfg, h, v) {
        assert Sound(cfg, h, v);
        NodeIsHarmless(cfg, h, u, v);
      } else {
        assert Harmless(cfg, h, u, v);
      }
    }
  }

  lemma NodeIsHarmless(cfg: Config, h: Host, u: string, v: string)
    requires ConfigOk(cfg) && Hex32(u) && u != v && IsNode(cfg, h, v) && Sound(cfg, h, v)
    ensures PeerIsHarmless(cfg.pools, cfg.target, cfg.prefix, Guests(h)[v], u)
    ensures AllFit(cfg.pools, Examined(Guests(h)[v]), true)
  {
    hide AllFit, Refer, Renders, Outside;
    assert IsBuilt(Guests(h)[v], cfg.target, cfg.prefix, v, h.domains[v].image);
    PeerPasses(cfg.pools, cfg.target, cfg.prefix, Guests(h)[v], u, v, h.domains[v].image);
  }

  /** A sound node's definitions are exactly its two claimed disks. */
  lemma NodeMatches(cfg: Config, h: Host, u: string)
    requires ConfigOk(cfg) && IsNode(cfg, h, u) && Sound(cfg, h, u)
    ensures TwoDiskMatch(cfg.pools, h.domains[u].config, ClaimPathsOf(cfg, MetaOf(cfg, h, u)))
    ensures TwoDiskMatch(cfg.pools, h.domains[u].live, ClaimPathsOf(cfg, MetaOf(cfg, h, u)))
    ensures ClaimPathsOf(cfg, MetaOf(cfg, h, u)) == ClaimPaths(cfg.target, cfg.prefix, u)
    ensures Normalize(cfg.baseImage) !in ClaimPathsOf(cfg, MetaOf(cfg, h, u))
  {
    hide TwoDiskMatch, Renders, Outside, Normalize, AllFit, Refer;
    BuiltPaths(cfg.target, cfg.prefix, u);
    BuiltDisksPass(cfg.pools, h.domains[u].config, cfg.target, cfg.prefix, u, h.domains[u].image);
    BuiltDisksPass(cfg.pools, h.domains[u].live, cfg.target, cfg.prefix, u, h.domains[u].image);
    ClaimPathsAreExclusive(cfg.target, cfg.prefix, u, u, cfg.baseImage);
  }

  /** The paths _delete computes from the claims in the record. */
  function ClaimPathsOf(cfg: Config, m: NodeMeta): set<Path> {
    {Normalize(JoinPath(cfg.target, m.volume)), Normalize(JoinPath(cfg.target, m.seedVolume))}
  }

  lemma QuietScript(script: seq<Event>)
    requires Quiet(script)
    ensures Head(script) == QUIET && Quiet(TailOf(script))
  {
    if script != [] {
      assert script[0] in script;
      assert forall e :: e in script[1..] ==> e in script;
    }
  }

  /** At most one event is not quiet. */
  ghost predicate Single(script: seq<Event>) {
    forall i, j :: 0 <= i < j < |script| ==> script[i] == QUIET || script[j] == QUIET
  }

  /** A call uses up the one event, or leaves the script as it was but for a quiet one. */
  lemma SingleScript(script: seq<Event>)
    ensures Quiet(script) ==> Single(script)
    ensures Single(script) ==> Single(TailOf(script)) && (Head(script) == QUIET || Quiet(TailOf(script)))
  {
    assert forall i :: 0 <= i < |script| ==> script[i] in script;
    if Single(script) && Head(script) != QUIET {
      forall e | e in TailOf(script) ensures e == QUIET {
        var i :| 0 <= i < |TailOf(script)| && TailOf(script)[i] == e;
        assert script[i + 1] == e;
      }
    }
  }

  // ----- the steps of _delete ---------------------------------------------------------

  /** A run of read-only calls, which may raise or be cut short. */
  method Read(host: Libvirt) returns (e: Ending)
    requires !host.dead
    modifies host
    ensures host.dead == e.Perished?
    ensures host.script == TailOf(old(host.script)) && host.started == old(host.started) && host.dropped == old(host.dropped)
    ensures e.Returned? <==> Head(old(host.script)).fault.Done?
    ensures Ran(old(host.replies), host.replies, e.Returned?)
    ensures Head(old(host.script)) == QUIET || Calm(old(host.script)) ==> host.State() == old(host.State())
    ensures Calm(old(host.script)) ==> Calm(host.script)
    ensures !e.Conflicted?
    ensures OnlyStops(old(host.State()), host.State())
    ensures Quiet(old(host.script)) ==> Quiet(host.script) && host.State() == old(host.State()) && e.Returned?
    ensures Single(old(host.script)) ==> Single(host.script) && ((host.State() == old(host.State()) && e.Returned?) || Quiet(host.script))
  {
    SingleScript(host.script);
    if Quiet(host.script) {
      QuietScript(host.script);
    }
    if Calm(host.script) {
      CalmCall(host.script);
    }
    var reply := host.Call(Look);
    e := EndingOf(reply);
  }

  ghost predicate Compatible(h: Host) {
    forall v :: v in h.domains ==> !h.domains[v].record.Incompatible?
  }

  lemma ClearIsCompatible(cfg: Config, h: Host, u: string)
    requires Clear(cfg, h, u)
    ensures Compatible(h) && IsNode(cfg, h, u)
  {
    forall v | v in h.domains ensures !h.domains[v].record.Incompatible? {
      assert IsNode(cfg, h, v) || Harmless(cfg, h, u, v);
    }
  }

  method CheckCompatible(host: Libvirt) returns (e: Ending)
    requires !host.dead
    modifies host
    ensures host.dead == e.Perished?
    ensures host.script == TailOf(old(host.script)) && host.started == old(host.started) && host.dropped == old(host.dropped)
    ensures e.Returned? <==> Head(old(host.script)).fault.Done? && Compatible(old(host.State()))
    ensures Ran(old(host.replies), host.replies, e.Returned?)
    ensures Head(old(host.script)) == QUIET || Calm(old(host.script)) ==> host.State() == old(host.State())
    ensures Calm(old(host.script)) ==> Calm(host.script)
    ensures OnlyStops(old(host.State()), host.State())
    ensures e.Returned? ==> Compatible(host.State())
    ensures e.Conflicted? <==> Head(old(host.script)).fault.Done? && !Compatible(old(host.State()))
    ensures e.Conflicted? ==> !Compatible(host.State())
    ensures Quiet(old(host.script)) ==> !e.Perished?
    ensures Quiet(old(host.script)) ==> Quiet(host.script) && host.State() == old(host.State())
    ensures Quiet(old(host.script)) && Compatible(old(host.State())) ==> e.Returned?
    ensures Single(old(host.script)) && Compatible(old(host.State())) ==>
              Single(host.script) && ((host.State() == old(host.State()) && e.Returned?) || Quiet(host.script))
  {
    e := Read(host);
    if e.Returned? && exists v :: v in host.domains && host.domains[v].record.Incompatible? {
      e := Conflicted;
    }
  }

  /** The definition of a domain that outlives its power. */
  function Settled(d: Domain): seq<Element> {
    if d.persistent then d.config else d.live
  }

  /** The scan of the other domains finds them readable and finds none of these paths. */
  ghost predicate Unreferenced(cfg: Config, h: Host, u: string, paths: set<Path>) {
    && HostFits(cfg.pools, Guests(h), Some(u), false, Nodes(cfg, h))
    && forall p :: p in paths ==> !HostRefers(cfg.pools, Guests(h), Some(u), p)
  }

  /** Another domain can be read and, as it is defined, refers to none of these paths. */
  ghost predicate Apart(cfg: Config, h: Host, v: string, paths: set<Path>)
    requires v in h.domains
  {
    && AllFit(cfg.pools, Settled(h.domains[v]), Strict(v, false, Nodes(cfg, h)))
    && forall p :: p in paths ==> !Refer(cfg.pools, Settled(h.domains[v]), p)
  }

  /** The least that must hold of a host before a deletion of u does anything to it. */
  ghost predicate MayDestroy(cfg: Config, h: Host, u: string) {
    && Compatible(h) && IsNode(cfg, h, u) && NamesMatch(cfg, u, h.domains[u])
    && var paths := ClaimPathsOf(cfg, MetaOf(cfg, h, u));
       && Normalize(cfg.baseImage) !in paths && TwoDiskMatch(cfg.pools, h.domains[u].config, paths)
       && forall v :: v in h.domains && v != u ==> Apart(cfg, h, v, paths)
  }

  /** Another domain, as it is defined and as it runs, can be read and refers to none of these paths. */
  ghost predicate ApartNow(cfg: Config, h: Host, v: string, paths: set<Path>)
    requires v in h.domains
  {
    && Apart(cfg, h, v, paths)
    && (v in h.active ==>
          && AllFit(cfg.pools, h.domains[v].live, Strict(v, false, Nodes(cfg, h)))
          && forall p :: p in paths ==> !Refer(cfg.pools, h.domains[v].live, p))
  }

  /** The same of definitions and running guests alike. */
  ghost predicate MayDestroyNow(cfg: Config, h: Host, u: string) {
    && MayDestroy(cfg, h, u)
    && var paths := ClaimPathsOf(cfg, MetaOf(cfg, h, u));
       && (u in h.active ==> TwoDiskMatch(cfg.pools, h.domains[u].live, paths))
       && forall v :: v in h.domains && v != u ==> ApartNow(cfg, h, v, paths)
  }

  lemma UnreferencedMeansApartNow(cfg: Config, h: Host, u: string, paths: set<Path>)
    requires Unreferenced(cfg, h, u, paths)
    ensures forall v :: v in h.domains && v != u ==> ApartNow(cfg, h, v, paths)
  {
    hide DiskFits, DiskRefs, InScope;
    UnreferencedMeansApart(cfg, h, h, u, paths);
    forall v | v in h.domains && v != u ensures ApartNow(cfg, h, v, paths) {
      var g := Guests(h)[v];
      assert AllFit(cfg.pools, Examined(g), Strict(v, false, Nodes(cfg, h)));
      assert v in h.active ==> forall d :: d in h.domains[v].live ==> d in Examined(g);
      forall p | p in paths ensures v in h.active ==> !Refer(cfg.pools, h.domains[v].live, p) {
        assert !Refer(cfg.pools, Examined(g), p);
      }
    }
  }

  lemma UnreferencedMeansApart(cfg: Config, h: Host, h': Host, u: string, paths: set<Path>)
    requires OnlyStops(h, h') && Unreferenced(cfg, h', u, paths)
    ensures forall v :: v in h.domains && v != u ==> Apart(cfg, h, v, paths)
  {
    hide DiskFits, DiskRefs, InScope;
    assert Nodes(cfg, h') == Nodes(cfg, h);
    forall v | v in h.domains && v != u ensures Apart(cfg, h, v, paths) {
      var g := Guests(h')[v];
      assert AllFit(cfg.pools, Examined(g), Strict(v, false, Nodes(cfg, h')));
      assert forall d :: d in Settled(h.domains[v]) ==> d in Examined(g);
      forall p | p in paths ensures !Refer(cfg.pools, Settled(h.domains[v]), p) {
        assert !Refer(cfg.pools, Examined(g), p);
      }
    }
  }

  /** A node that nothing stands in the way of passes every check but the scan. */
  lemma ClearPasses(cfg: Config, h: Host, u: string)
    requires Inv(cfg, h) && Clear(cfg, h, u)
    ensures Compatible(h) && IsNode(cfg, h, u) && NamesMatch(cfg, u, h.domains[u])
    ensures var paths := ClaimPathsOf(cfg, MetaOf(cfg, h, u));
            && paths == ClaimPaths(cfg.target, cfg.prefix, u) && Normalize(cfg.baseImage) !in paths
            && TwoDiskMatch(cfg.pools, h.domains[u].config, paths) && TwoDiskMatch(cfg.pools, h.domains[u].live, paths)
  {
    hide AsBuilt, TwoDiskMatch, Normalize, ClaimPaths, ClaimPathsOf, Harmless;
    assert Sound(cfg, h, u);
    ClearIsCompatible(cfg, h, u);
    NodeMatches(cfg, h, u);
    BuiltIsValid(cfg, u, h.domains[u]);
  }

  /** Everything _delete checks before it writes: None means the domain is already gone. */
  method Examine(cfg: Config, host: Libvirt, u: string) returns (e: Ending, found: Option<NodeMeta>)
    requires !host.dead
    modifies host
    ensures host.dead == e.Perished?
    ensures host.started == old(host.started) && host.dropped == old(host.dropped) && Ran(old(host.replies), host.replies, e.Returned?)
    ensures OnlyStops(old(host.State()), host.State())
    ensures e.Returned? ==> Compatible(old(host.State()))
    ensures e.Conflicted? ==> !Compatible(old(host.State()))
    ensures Quiet(old(host.script)) ==> !e.Perished?
    ensures e.Returned? && found.Some? ==>
              IsNode(cfg, host.State(), u) && found.value == MetaOf(cfg, host.State(), u)
              && NamesMatch(cfg, u, host.domains[u]) && MayDestroy(cfg, old(host.State()), u)
    ensures e.Returned? && found.Some? && u in host.active ==>
              TwoDiskMatch(cfg.pools, host.domains[u].live, ClaimPathsOf(cfg, found.value))
    // If no guest stops meanwhile, this includes the running definitions of all guests.
    ensures Calm(old(host.script)) ==> host.State() == old(host.State()) && Calm(host.script)
    ensures Calm(old(host.script)) && e.Returned? && found.Some? ==> MayDestroyNow(cfg, old(host.State()), u)
    ensures e.Returned? && found.None? ==> u !in host.domains
    ensures Quiet(old(host.script)) ==> Quiet(host.script) && host.State() == old(host.State())
    ensures Quiet(old(host.script)) && Inv(cfg, old(host.State())) && Clear(cfg, old(host.State()), u) ==>
              e.Returned? && found.Some?
    ensures Quiet(old(host.script)) && Compatible(old(host.State())) && u !in old(host.domains) ==> e.Returned?
  {
    hide Inv, TwoDiskMatch, Normalize, ClaimPaths, ClaimPathsOf, NamesMatch, Apart, ApartNow, Unreferenced, Clear, Ran;
    ghost var h := host.State();
    if Inv(cfg, h) && Clear(cfg, h, u) {
      ClearPasses(cfg, h, u);
    }
    found := None;
    e := CheckCompatible(host);
    RanLess(old(host.replies), host.replies);
    if !e.Returned? || u !in host.domains {
      return;
    }
    var d := host.domains[u];
    if !InScope(cfg, d) || !NamesMatch(cfg, u, d) {
      return Threw, None;
    }
    var m := d.record.meta;
    var paths := ClaimPathsOf(cfg, m);
    if Normalize(cfg.baseImage) in paths {
      return Threw, None;
    }
    if !TwoDiskMatch(cfg.pools, d.config, paths) || (u in host.active && !TwoDiskMatch(cfg.pools, d.live, paths)) {
      return Threw, None;
    }
    ghost var middle := host.replies;
    e := CheckReferences(cfg, host, u, paths);
    RanOn(old(host.replies), middle, host.replies, e.Returned?);
    found := Some(m);
    if e.Returned? {
      UnreferencedMeansApart(cfg, h, host.State(), u, paths);
      UnreferencedMeansApartNow(cfg, host.State(), u, paths);
    }
  }

  /** No other domain may refer to a claimed volume. */
  method CheckReferences(cfg: Config, host: Libvirt, u: string, paths: set<Path>) returns (e: Ending)
    requires !host.dead
    modifies host
    ensures host.dead == e.Perished?
    ensures host.started == old(host.started) && host.dropped == old(host.dropped) && Ran(old(host.replies), host.replies, e.Returned?)
    ensures OnlyStops(old(host.State()), host.State())
    ensures e.Returned? ==> Unreferenced(cfg, host.State(), u, paths)
    ensures Calm(old(host.script)) ==> host.State() == old(host.State()) && Calm(host.script)
    ensures !e.Conflicted? && (Quiet(old(host.script)) ==> !e.Perished?)
    ensures Quiet(old(host.script)) ==> Quiet(host.script) && host.State() == old(host.State())
    ensures
      (&& Quiet(old(host.script)) && Inv(cfg, old(host.State())) && Clear(cfg, old(host.State()), u)
       && paths == ClaimPaths(cfg.target, cfg.prefix, u)) ==> e.Returned?
  {
    hide HostFits, HostRefers, Inv, Clear, AllFit, Refer, ClaimPaths;
    ghost var h := host.State();
    e := Read(host);
    if e.Returned? {
      var scan := ReferencedDiskPaths(cfg.pools, Guests(host.State()), Some(u), false, Nodes(cfg, host.State()));
      if scan.Err? || paths * scan.value != {} {
        e := Threw;
      } else {
        assert forall p :: p in paths ==> p !in scan.value || p in paths * scan.value;
      }
      if host.State() == h && Inv(cfg, h) && Clear(cfg, h, u) && paths == ClaimPaths(cfg.target, cfg.prefix, u) {
        ClearScan(cfg, h, u);
      }
    }
  }

  /** Write the intent unless it is there, then read it back: nothing destructive follows a doubt. */
  method ConfirmIntent(cfg: Config, host: Libvirt, u: string, m: NodeMeta) returns (e: Ending)
    requires IsNode(cfg, host.State(), u) && m == MetaOf(cfg, host.State(), u) && Valid(m)
    requires !host.dead
    modifies host
    ensures host.dead == e.Perished?
    ensures host.started == old(host.started) && host.dropped == old(host.dropped) && Ran(old(host.replies), host.replies, e.Returned?)
    ensures !e.Conflicted?
    ensures Footprint(cfg, u, old(host.State()), host.State())
    ensures e.Returned? ==> IntentWritten(cfg, host.State(), u)
    ensures host.volumes == old(host.volumes) && u in host.domains
    ensures Quiet(old(host.script)) ==> Quiet(host.script) && e.Returned? && SameElsewhere(u, old(host.State()), host.State())
                                        && host.active == old(host.active)
  {
    hide AsBuilt, Valid, Stored, Outcome, Footprint;
    StopsAreFootprint(cfg, u, host.State(), host.State());
    if Quiet(host.script) {
      QuietScript(host.script);
    }
    if !m.state.Deleting? {
      ghost var h0, event := host.State(), Head(host.script);
      var written := host.Call(WriteIntent(u, Intent(m)));
      IntentOutcome(cfg, h0, event, u);
      if !written.Fine? {
        return EndingOf(written);
      }
    }
    ghost var h := host.State();
    e := Read(host);
    StopsAreFootprint(cfg, u, h, host.State());
    FootprintTrans(cfg, u, old(host.State()), h, host.State());
    if e.Returned? {
      var confirmed := host.domains[u].record;
      if confirmed != Managed(if m.state.Deleting? then m else Intent(m)) {
        e := Threw;
      }
    }
  }

  lemma DestroyOutcome(cfg: Config, h: Host, e: Event, u: string)
    requires IntentWritten(cfg, h, u) && u in h.active
    ensures var (h', reply) := Outcome(h, e, Destroy(u));
            && Footprint(cfg, u, h, h') && h'.domains == h.domains && h'.volumes == h.volumes
            && (e == QUIET ==> reply.Fine? && h'.active == h.active - {u})
  {
    hide InScope;
  }

  lemma UndefineOutcome(cfg: Config, h: Host, e: Event, u: string)
    requires IntentWritten(cfg, h, u) && u !in h.active && ClaimsOf(cfg, u) !! h.volumes
    ensures var (h', reply) := Outcome(h, e, Undefine(u));
            && Footprint(cfg, u, h, h') && h'.volumes == h.volumes
            && (reply.Fine? ==> u !in h'.domains)
            && (reply.Unsupported? ==> h'.domains == h.domains && u !in h'.active)
            && (reply.Fine? <==> e.fault.Done?) && (reply.Unsupported? <==> e.fault.Rejected?)
  {
    hide InScope;
  }

  lemma DeleteOutcome(cfg: Config, h: Host, e: Event, u: string, v: string)
    requires IntentWritten(cfg, h, u) && u !in h.active && v in ClaimsOf(cfg, u)
    ensures var (h', reply) := Outcome(h, e, DeleteVolume(v));
            && Footprint(cfg, u, h, h') && h'.domains == h.domains && u !in h'.active
            && (e == QUIET ==> (reply.Fine? || reply.Missing?) && h'.active == h.active)
            && ((reply.Fine? && !e.fault.Ignored?) || reply.Missing? ==> h'.volumes == h.volumes - {v}) && h.volumes - {v} <= h'.volumes <= h.volumes
  {
    hide InScope;
    var h' := Outcome(h, e, DeleteVolume(v)).0;
    DroppedFootprint(cfg, u, h, h', v);
  }

  lemma IntentOutcome(cfg: Config, h: Host, e: Event, u: string)
    requires IsNode(cfg, h, u) && !MetaOf(cfg, h, u).state.Deleting? && Valid(MetaOf(cfg, h, u))
    ensures var (h', reply) := Outcome(h, e, WriteIntent(u, Intent(MetaOf(cfg, h, u))));
            && Footprint(cfg, u, h, h') && h'.volumes == h.volumes && u in h'.domains
            && (h'.domains[u].record == Managed(Intent(MetaOf(cfg, h, u))) ==> IntentWritten(cfg, h', u))
            && (e == QUIET ==> reply.Fine? && h'.active == h.active && SameElsewhere(u, h, h')
                               && h'.domains[u].record == Managed(Intent(MetaOf(cfg, h, u))))
  {
    hide Stored, Valid;
    IntentOfNode(MetaOf(cfg, h, u));
    assert h.domains[u := h.domains[u].(record := Managed(Intent(MetaOf(cfg, h, u))))] - {u} == h.domains - {u};
  }

  /** Stop the guest if it runs, and make sure that it stopped. */
  method StopGuest(cfg: Config, host: Libvirt, u: string) returns (e: Ending)
    requires IntentWritten(cfg, host.State(), u)
    requires !host.dead
    modifies host
    ensures host.dead == e.Perished?
    ensures host.started == old(host.started) && host.dropped == old(host.dropped) && Ran(old(host.replies), host.replies, e.Returned?)
    ensures !e.Conflicted?
    ensures Footprint(cfg, u, old(host.State()), host.State())
    ensures host.domains == old(host.domains) && host.volumes == old(host.volumes)
    ensures e.Returned? ==> u !in host.active
    ensures Quiet(old(host.script)) ==> Quiet(host.script) && e.Returned? && SameElsewhere(u, old(host.State()), host.State())
  {
    hide AsBuilt, InScope, Outcome, Footprint, Ran, IntentWritten;
    ghost var h0 := host.State();
    e := Read(host);
    SameIntent(cfg, h0, host.State(), u);
    ghost var h1 := host.State();
    StopsAreFootprint(cfg, u, h0, h1);
    if e.Returned? && u in host.active {
      if Quiet(host.script) {
        QuietScript(host.script);
      }
      ghost var event, before := Head(host.script), host.replies;
      var destroyed := host.Call(Destroy(u));
      DestroyOutcome(cfg, h1, event, u);
      RanOne(before, destroyed, destroyed.Fine?);
      RanOn(old(host.replies), before, host.replies, destroyed.Fine?);
      e := EndingOf(destroyed);
    }
    ghost var h2 := host.State();
    StopsAreFootprint(cfg, u, h1, h1);
    FootprintTrans(cfg, u, h0, h1, h2);
    if !e.Returned? {
      return;
    }
    ghost var middle := host.replies;
    e := Read(host);
    RanOn(old(host.replies), middle, host.replies, e.Returned?);
    StopsAreFootprint(cfg, u, h2, host.State());
    FootprintTrans(cfg, u, h0, h2, host.State());
    if e.Returned? && u in host.active {
      e := Threw;
    }
  }

  /** Some of these were asked for, beginning with the first. */
  predicate InTurn(before: seq<string>, after: seq<string>, volumes: seq<string>) {
    exists n :: 0 <= n <= |volumes| && after == before + volumes[..n]
  }

  lemma NoneYet(before: seq<string>, volumes: seq<string>)
    ensures InTurn(before, before, volumes)
  {
    assert before == before + volumes[..0];
  }

  /** Delete both volumes; one that is already gone is no error. */
  method DropVolumes(cfg: Config, host: Libvirt, u: string, m: NodeMeta) returns (e: Ending)
    requires IntentWritten(cfg, host.State(), u) && m == MetaOf(cfg, host.State(), u) && u !in host.active
    requires NamesMatch(cfg, u, host.domains[u])
    requires !host.dead
    modifies host
    ensures host.dead == e.Perished?
    ensures host.started == old(host.started) && Ran(old(host.replies), host.replies, e.Returned?)
    ensures !e.Conflicted?
    ensures Footprint(cfg, u, old(host.State()), host.State())
    ensures host.domains == old(host.domains)
    ensures InTurn(old(host.dropped), host.dropped, [m.volume, m.seedVolume])
    ensures Quiet(old(host.script)) ==>
              && Quiet(host.script) && e.Returned? && host.active == old(host.active)
              && host.volumes == old(host.volumes) - ClaimsOf(cfg, u)
  {
    hide AsBuilt, InScope, NodeName, VolumeName, SeedName, Outcome, Footprint, Ran;
    RanOne(host.replies, Fine, true);
    var claims := [m.volume, m.seedVolume];
    assert ClaimsOf(cfg, u) == {m.volume, m.seedVolume};
    StopsAreFootprint(cfg, u, host.State(), host.State());
    for i := 0 to 2
      invariant Footprint(cfg, u, old(host.State()), host.State())
      invariant host.domains == old(host.domains) && u !in host.active && !host.dead
      invariant host.started == old(host.started) && Ran(old(host.replies), host.replies, true)
      invariant host.dropped == old(host.dropped) + claims[..i]
      invariant Quiet(old(host.script)) ==>
                  && Quiet(host.script) && host.active == old(host.active)
                  && host.volumes == old(host.volumes) - (set j | 0 <= j < i :: claims[j])
    {
      if Quiet(host.script) {
        QuietScript(host.script);
      }
      ghost var h, event, before := host.State(), Head(host.script), host.replies;
      var deleted := host.Call(DeleteVolume(claims[i]));
      DeleteOutcome(cfg, h, event, u, claims[i]);
      assert claims[..i + 1] == claims[..i] + [claims[i]];
      RanOne(before, deleted, deleted.Fine? || deleted.Missing?);
      RanOn(old(host.replies), before, host.replies, deleted.Fine? || deleted.Missing?);
      FootprintTrans(cfg, u, old(host.State()), h, host.State());
      if !deleted.Fine? && !deleted.Missing? {
        return EndingOf(deleted);
      }
      assert (set j | 0 <= j < i + 1 :: claims[j]) == (set j | 0 <= j < i :: claims[j]) + {claims[i]};
    }
    assert (set j | 0 <= j < 2 :: claims[j]) == {claims[0], claims[1]};
    e := Returned;
  }

  lemma DroppedFootprint(cfg: Config, u: string, h: Host, h': Host, v: string)
    requires IntentWritten(cfg, h, u) && u !in h.active && v in ClaimsOf(cfg, u)
    requires OnlyStops(h, h') || (h' == h'.(volumes := h.volumes - {v}) && OnlyStops(h, h'.(volumes := h.volumes)))
    ensures Footprint(cfg, u, h, h')
  {
    hide InScope;
    assert (h.volumes - {v}) - ClaimsOf(cfg, u) == h.volumes - ClaimsOf(cfg, u);
  }

  /** Look for both volumes: finding one means the deletion did not happen. */
  method ConfirmGone(cfg: Config, host: Libvirt, u: string, m: NodeMeta) returns (e: Ending)
    requires !host.dead
    modifies host
    ensures host.dead == e.Perished?
    ensures host.started == old(host.started) && host.dropped == old(host.dropped) && Ran(old(host.replies), host.replies, e.Returned?)
    ensures !e.Conflicted?
    ensures OnlyStops(old(host.State()), host.State())
    ensures e.Returned? ==> m.volume !in host.volumes && m.seedVolume !in host.volumes
    ensures Quiet(old(host.script)) ==> Quiet(host.script) && host.State() == old(host.State())
    ensures Quiet(old(host.script)) && m.volume !in old(host.volumes) && m.seedVolume !in old(host.volumes) ==> e.Returned?
  {
    var claims := [m.volume, m.seedVolume];
    for i := 0 to 2
      invariant OnlyStops(old(host.State()), host.State()) && !host.dead
      invariant host.started == old(host.started) && host.dropped == old(host.dropped) && Ran(old(host.replies), host.replies, true)
      invariant forall j :: 0 <= j < i ==> claims[j] !in host.volumes
      invariant Quiet(old(host.script)) ==> Quiet(host.script) && host.State() == old(host.State())
    {
      e := Read(host);
      if e.Returned? && claims[i] in host.volumes {
        e := Threw;
      }
      if !e.Returned? {
        return;
      }
    }
    assert claims[0] !in host.volumes && claims[1] !in host.volumes;
    e := Returned;
  }

  /** undefineFlags, or plain undefine for a driver that does not know the flags. */
  method UndefineDomain(cfg: Config, host: Libvirt, u: string) returns (e: Ending)
    requires IntentWritten(cfg, host.State(), u) && u !in host.active && ClaimsOf(cfg, u) !! host.volumes
    requires !host.dead
    modifies host
    ensures host.dead == e.Perished?
    ensures host.started == old(host.started) && host.dropped == old(host.dropped) && Ran(old(host.replies), host.replies, e.Returned?)
    ensures !e.Conflicted?
    ensures Footprint(cfg, u, old(host.State()), host.State())
    ensures host.volumes == old(host.volumes)
    ensures e.Returned? ==> u !in host.domains
    // Plain undefine exactly when the driver rejects the flags.
    ensures e.Returned? <==> Head(old(host.script)).fault.Done?
                             || (Head(old(host.script)).fault.Rejected? && EventAt(old(host.script), 1).fault.Done?)
    ensures host.script == Rest(old(host.script), if Head(old(host.script)).fault.Rejected? then 2 else 1)
    ensures Quiet(old(host.script)) ==> Quiet(host.script) && e.Returned?
  {
    hide InScope, Outcome, Footprint, ClaimsOf, IntentWritten;
    OneCall(host.script, 0);
    OneCall(host.script, 1);
    if Quiet(host.script) {
      QuietScript(host.script);
    }
    ghost var h, event := host.State(), Head(host.script);
    var reply := host.Call(Undefine(u));
    UndefineOutcome(cfg, h, event, u);
    if reply.Unsupported? {
      ghost var h1, event1 := host.State(), Head(host.script);
      SameIntent(cfg, h, h1, u);
      reply := host.Call(Undefine(u));
      UndefineOutcome(cfg, h1, event1, u);
      FootprintTrans(cfg, u, h, h1, host.State());
    }
    e := EndingOf(reply);
  }

  lemma SameIntent(cfg: Config, h: Host, h': Host, u: string)
    requires h'.domains == h.domains
    ensures IntentWritten(cfg, h', u) <==> IntentWritten(cfg, h, u)
  {
  }

  // ----- _delete and its guard --------------------------------------------------------

  /** u is gone, and nothing of it is left in the pool. */
  predicate Gone(cfg: Config, h: Host, u: string) {
    u !in h.domains && ClaimsOf(cfg, u) !! h.volumes
  }

  /** Untroubled, a deletion reaches its second look at the other domains with nothing in the way. */
  lemma StillClearAfterStop(cfg: Config, h0: Host, h3: Host, u: string)
    requires Inv(cfg, h0) && Clear(cfg, h0, u) && Footprint(cfg, u, h0, h3)
    requires SameElsewhere(u, h0, h3) && IsNode(cfg, h3, u)
    ensures Inv(cfg, h3) && Clear(cfg, h3, u)
    ensures ClaimPathsOf(cfg, MetaOf(cfg, h0, u)) == ClaimPaths(cfg.target, cfg.prefix, u)
  {
    hide AsBuilt, InScope, ClaimPaths, ClaimPathsOf, TwoDiskMatch, Footprint, Normalize, AllFit, Refer;
    FootprintKeeps(cfg, u, h0, h3);
    StillClear(cfg, h0, h3, u);
    assert Sound(cfg, h0, u);
    NodeMatches(cfg, h0, u);
  }

  lemma NamesMean(cfg: Config, u: string, d: Domain)
    requires d.record.Managed? && NamesMatch(cfg, u, d)
    ensures d.record.meta.volume == VolumeName(NodeName(cfg.prefix, u))
    ensures d.record.meta.seedVolume == SeedName(NodeName(cfg.prefix, u))
  {
  }

  lemma NodeIsValid(cfg: Config, h: Host, u: string)
    requires WellRead(h) && IsNode(cfg, h, u)
    ensures Valid(MetaOf(cfg, h, u))
  {
  }

  /** The record keeps its claims while the intent is written. */
  lemma ClaimsStay(cfg: Config, u: string, h: Host, h': Host)
    requires IsNode(cfg, h, u) && NamesMatch(cfg, u, h.domains[u]) && IsNode(cfg, h', u) && Footprint(cfg, u, h, h')
    ensures NamesMatch(cfg, u, h'.domains[u])
    ensures MetaOf(cfg, h', u).volume == MetaOf(cfg, h, u).volume
    ensures MetaOf(cfg, h', u).seedVolume == MetaOf(cfg, h, u).seedVolume
    ensures ClaimPathsOf(cfg, MetaOf(cfg, h', u)) == ClaimPathsOf(cfg, MetaOf(cfg, h, u))
    ensures ClaimsOf(cfg, u) == {MetaOf(cfg, h, u).volume, MetaOf(cfg, h, u).seedVolume}
  {
    hide AsBuilt;
  }

  /** How far u is from gone: intent to write, guest to stop, volumes to delete, domain to undefine. */
  function Remaining(cfg: Config, h: Host, u: string): (nat, nat, nat, nat) {
    (if IsNode(cfg, h, u) && !IntentWritten(cfg, h, u) then 1 else 0,
     if u in h.active then 1 else 0,
     |ClaimsOf(cfg, u) * h.volumes|,
     if u in h.domains then 1 else 0)
  }

  predicate NoMore(a: (nat, nat, nat, nat), b: (nat, nat, nat, nat)) {
    a.0 <= b.0 && a.1 <= b.1 && a.2 <= b.2 && a.3 <= b.3
  }

  lemma SubsetSize(a: set<string>, b: set<string>)
    requires a <= b
    ensures |a| <= |b|
  {
    assert b == a + (b - a);
  }

  // ----- interrupted work converges ---------------------------------------------------

  /** A node of this deployment that is gone, or was interrupted and only faults can hold up its deletion. */
  ghost predicate Doomed(cfg: Config, h: Host, u: string) {
    && Inv(cfg, h) && Hex32(u) && u in h.used
    && (Gone(cfg, h, u) || (Clear(cfg, h, u) && Incomplete(MetaOf(cfg, h, u).state)))
  }

  predicate SameRecordOrIntended(cfg: Config, h: Host, h': Host, u: string)
    requires u in h.domains && u in h'.domains
  {
    || h'.domains[u].record == h.domains[u].record
    || (&& IsNode(cfg, h, u) && !MetaOf(cfg, h, u).state.Deleting?
        && h'.domains[u].record == Managed(Intent(MetaOf(cfg, h, u))))
  }

  /** Nothing happened to u but what its deletion does, and nothing new stands in the way of that. */
  ghost predicate Toward(cfg: Config, u: string, h: Host, h': Host) {
    && (Inv(cfg, h) ==> Inv(cfg, h')) && h.used <= h'.used
    && (u in h'.domains ==> u in h.domains && SameRecordOrIntended(cfg, h, h', u))
    && (u in h.domains && u !in h'.domains ==> ClaimsOf(cfg, u) !! h'.volumes)
    && ClaimsOf(cfg, u) * h'.volumes <= ClaimsOf(cfg, u) * h.volumes
    && (u in h'.active ==> u in h.active)
    && (Clear(cfg, h, u) && u in h'.domains ==> Clear(cfg, h', u))
  }

  lemma TowardTrans(cfg: Config, u: string, a: Host, b: Host, c: Host)
    requires Toward(cfg, u, a, b) && Toward(cfg, u, b, c)
    ensures Toward(cfg, u, a, c)
  {
    hide Inv, Clear, ClaimsOf;
    assert forall x :: x in ClaimsOf(cfg, u) && x in c.volumes ==> x in ClaimsOf(cfg, u) * c.volumes;
    assert forall x :: x in ClaimsOf(cfg, u) * b.volumes ==> x in b.volumes;
  }

  lemma TowardKeeps(cfg: Config, u: string, h: Host, h': Host)
    requires Doomed(cfg, h, u) && Toward(cfg, u, h, h')
    ensures Doomed(cfg, h', u) && (Gone(cfg, h, u) ==> Gone(cfg, h', u))
    ensures NoMore(Remaining(cfg, h', u), Remaining(cfg, h, u))
  {
    hide Inv, ClaimsOf, Harmless;
    SubsetSize(ClaimsOf(cfg, u) * h'.volumes, ClaimsOf(cfg, u) * h.volumes);
    assert forall x :: x in ClaimsOf(cfg, u) && x in h'.volumes ==> x in ClaimsOf(cfg, u) * h'.volumes;
    assert forall x :: x in ClaimsOf(cfg, u) * h.volumes ==> x in h.volumes;
  }

  /** An attempt on u, whatever becomes of it, leads nowhere else. */
  lemma FootprintToward(cfg: Config, u: string, h: Host, h': Host)
    requires Inv(cfg, h) && Footprint(cfg, u, h, h')
    ensures Toward(cfg, u, h, h')
  {
    hide AsBuilt, InScope, ClaimsOf, Harmless, Sound, Together;
    FootprintKeeps(cfg, u, h, h');
    if Clear(cfg, h, u) && u in h'.domains {
      assert Sound(cfg, h, u);
      StaysSound(cfg, u, h, h');
      StillClear(cfg, h, h', u);
    }
  }

  /** v is, at the end, a node or no more in the way than it was. */
  predicate NoNewOutsider(cfg: Config, v: string, h: Host, h': Host) {
    v in h'.domains && !IsNode(cfg, h', v) ==>
      && v in h.domains && !IsNode(cfg, h, v) && h'.domains[v] == h.domains[v]
      && (v in h'.active ==> v in h.active)
  }

  /** Whatever is done to another node v alone leads u nowhere else. */
  lemma ElsewhereToward(cfg: Config, u: string, v: string, h: Host, h': Host)
    requires Inv(cfg, h) && Inv(cfg, h') && OnlyAt(cfg, v, h, h') && u != v && Hex32(u) && Hex32(v)
    requires NoNewOutsider(cfg, v, h, h')
    ensures Toward(cfg, u, h, h')
  {
    hide Inv, InScope, Harmless, NodeName;
    OtherNodes(cfg, v, h, h', u);
    ClaimsDisjoint(cfg.prefix, u, cfg.prefix, v);
    assert forall x :: x in ClaimsOf(cfg, u) && x in h'.volumes ==> x in h'.volumes - ClaimsOf(cfg, v);
    assert u in h'.active ==> u in h'.active - {v};
    if Clear(cfg, h, u) {
      forall w | w in h'.domains && !IsNode(cfg, h', w) ensures Harmless(cfg, h', u, w) {
        if w != v {
          OtherNodes(cfg, v, h, h', w);
          assert w in h'.active ==> w in h'.active - {v};
        }
        assert Harmless(cfg, h, u, w);
        HarmlessLater(cfg, h, h', u, w);
      }
    }
  }

  lemma HarmlessLater(cfg: Config, h0: Host, h: Host, u: string, v: string)
    requires v in h0.domains && v in h.domains && h.domains[v] == h0.domains[v] && (v in h.active ==> v in h0.active)
    requires Harmless(cfg, h0, u, v)
    ensures Harmless(cfg, h, u, v)
  {
    hide AllFit, Refer;
    ExaminedWhenStopped(cfg.pools, GuestOf(h.domains[v], true), GuestOf(h.domains[v], false));
  }

  /** Starting other nodes, and guests that stop, lead u nowhere else. */
  lemma PowerToward(cfg: Config, u: string, h: Host, h': Host)
    requires Inv(cfg, h) ==> Inv(cfg, h')
    requires h'.domains == h.domains && h'.volumes == h.volumes && h'.used == h.used
    requires forall v :: v in h'.active && v !in h.active ==> v != u && IsNode(cfg, h, v)
    ensures Toward(cfg, u, h, h')
  {
    hide Inv, InScope, Harmless, ClaimsOf;
    if Clear(cfg, h, u) {
      forall w | w in h'.domains && !IsNode(cfg, h', w) ensures Harmless(cfg, h', u, w) {
        assert Harmless(cfg, h, u, w);
        HarmlessLater(cfg, h, h', u, w);
      }
    }
  }

  lemma StopsToward(cfg: Config, u: string, h: Host, h': Host)
    requires OnlyStops(h, h')
    ensures Toward(cfg, u, h, h')
  {
    hide Inv;
    OnlyStopsKeeps(cfg, h, h');
    PowerToward(cfg, u, h, h');
  }

  /** Every interrupted node is led towards its end, or left as it is. */
  ghost predicate KeepsDoom(cfg: Config, h: Host, h': Host) {
    forall u :: Doomed(cfg, h, u) ==> Toward(cfg, u, h, h')
  }

  lemma KeepsDoomTrans(cfg: Config, a: Host, b: Host, c: Host)
    requires KeepsDoom(cfg, a, b) && KeepsDoom(cfg, b, c)
    ensures KeepsDoom(cfg, a, c)
  {
    hide Doomed, Toward;
    forall u | Doomed(cfg, a, u) ensures Toward(cfg, u, a, c) {
      TowardKeeps(cfg, u, a, b);
      TowardTrans(cfg, u, a, b, c);
    }
  }

  lemma StopsKeepDoom(cfg: Config, h: Host, h': Host)
    requires OnlyStops(h, h')
    ensures KeepsDoom(cfg, h, h')
  {
    hide Doomed, Toward, OnlyStops;
    forall u | Doomed(cfg, h, u) ensures Toward(cfg, u, h, h') {
      StopsToward(cfg, u, h, h');
    }
  }

  /** A deletion of any node, whatever becomes of it, leads every interrupted node nowhere else. */
  lemma FootprintKeepsDoom(cfg: Config, v: string, h: Host, h': Host)
    requires Footprint(cfg, v, h, h')
    ensures KeepsDoom(cfg, h, h')
  {
    hide Clear, Inv, Toward;
    forall u | Doomed(cfg, h, u) ensures Toward(cfg, u, h, h') {
      if u == v {
        FootprintToward(cfg, u, h, h');
      } else {
        FootprintElsewhere(cfg, u, v, h, h');
      }
    }
  }

  lemma FootprintElsewhere(cfg: Config, u: string, v: string, h: Host, h': Host)
    requires Inv(cfg, h) && Footprint(cfg, v, h, h') && u != v && Hex32(u)
    ensures Toward(cfg, u, h, h')
  {
    hide Clear, InScope, AsBuilt, ClaimsOf, Agrees, Toward;
    FootprintKeeps(cfg, v, h, h');
    if IsNode(cfg, h, v) {
      assert Sound(cfg, h, v);
      StaysSound(cfg, v, h, h');
      ElsewhereToward(cfg, u, v, h, h');
    } else {
      forall w
        ensures w in h'.domains <==> w in h.domains
        ensures w in h.domains ==> h'.domains[w] == h.domains[w]
      {
        if w != v {
          OtherNodes(cfg, v, h, h', w);
        }
      }
      StopsToward(cfg, u, h, h');
    }
  }

  /** What happens between two states, of which `finished` says that it was an untroubled deletion of u. */
  ghost predicate TurnOf(cfg: Config, u: string, h: Host, h': Host, finished: bool) {
    Doomed(cfg, h, u) ==> Toward(cfg, u, h, h') && (finished ==> Gone(cfg, h', u))
  }

  /**
   * Interrupted work converges. Over any series of turns, failing or dying at any call, what
   * remains to be done of u never grows; and once a single deletion of it was untroubled the domain
   * and both volumes are gone, and stay gone.
   */
  lemma {:induction false} DeletionConverges(cfg: Config, u: string, hosts: seq<Host>, finished: seq<bool>, k: nat, j: nat)
    requires |hosts| == |finished| + 1 && k < j < |hosts|
    requires Doomed(cfg, hosts[0], u)
    requires forall i :: 0 <= i < |finished| ==> TurnOf(cfg, u, hosts[i], hosts[i + 1], finished[i])
    ensures NoMore(Remaining(cfg, hosts[j], u), Remaining(cfg, hosts[k], u))
    ensures Doomed(cfg, hosts[j], u)
    ensures (exists i :: k <= i < j && finished[i]) ==> Gone(cfg, hosts[j], u)
    decreases j
  {
    hide Toward, Doomed, Remaining, Gone;
    DoomedSoFar(cfg, u, hosts, finished, j - 1);
    TowardKeeps(cfg, u, hosts[j - 1], hosts[j]);
    if j - 1 > k {
      DeletionConverges(cfg, u, hosts, finished, k, j - 1);
    }
  }

  lemma {:induction false} DoomedSoFar(cfg: Config, u: string, hosts: seq<Host>, finished: seq<bool>, j: nat)
    requires |hosts| == |finished| + 1 && j < |hosts|
    requires Doomed(cfg, hosts[0], u)
    requires forall i :: 0 <= i < |finished| ==> TurnOf(cfg, u, hosts[i], hosts[i + 1], finished[i])
    ensures Doomed(cfg, hosts[j], u)
  {
    hide Toward, Doomed;
    if j > 0 {
      DoomedSoFar(cfg, u, hosts, finished, j - 1);
      TowardKeeps(cfg, u, hosts[j - 1], hosts[j]);
    }
  }

  /**
   * _delete. However it ends, its footprint is exact; if it returns, the domain is gone; and from
   * any state the invariant allows, if no call fails and no outsider refers to u's volumes, it
   * returns with the domain and both volumes gone.
   */
  method Delete(cfg: Config, host: Libvirt, u: string) returns (e: Ending)
    requires WellRead(host.State())
    requires !host.dead
    modifies host
    ensures host.dead == e.Perished?
    ensures host.started == old(host.started) && Ran(old(host.replies), host.replies, e.Returned?)
    ensures Footprint(cfg, u, old(host.State()), host.State())
    ensures e.Returned? ==> u !in host.domains
    ensures e.Conflicted? ==> !Compatible(old(host.State()))
    ensures Quiet(old(host.script)) ==> Quiet(host.script) && !e.Perished?
    ensures !IsNode(cfg, old(host.State()), u) ==> OnlyStops(old(host.State()), host.State())
    // A record of another version, a definition that is not this node's, a disk that cannot be
    // read or another domain's use of a claimed volume: each stops the deletion before it begins.
    ensures !MayDestroy(cfg, old(host.State()), u) ==> OnlyStops(old(host.State()), host.State())
    // The same of what runs, if no guest stops meanwhile: then the host is exactly as it was.
    ensures Calm(old(host.script)) && !MayDestroyNow(cfg, old(host.State()), u) ==> host.State() == old(host.State())
    // The overlay is to go first, the seed second, and nothing else.
    ensures InTurn(old(host.dropped), host.dropped, [VolumeName(NodeName(cfg.prefix, u)), SeedName(NodeName(cfg.prefix, u))])
    ensures u !in old(host.domains) && Compatible(old(host.State())) && Quiet(old(host.script)) ==> e.Returned?
    ensures Quiet(old(host.script)) && Inv(cfg, old(host.State())) && Clear(cfg, old(host.State()), u) ==>
              e.Returned? && Gone(cfg, host.State(), u) && Quiet(host.script)
  {
    hide AsBuilt, Valid, InScope, Clear, NamesMatch, Harmless, ClaimPaths, ClaimPathsOf, Ran, MayDestroyNow, SeedName, VolumeName, NodeName;
    ghost var h0 := host.State();
    NoneYet(host.dropped, [VolumeName(NodeName(cfg.prefix, u)), SeedName(NodeName(cfg.prefix, u))]);
    var found;
    e, found := Examine(cfg, host, u);
    ghost var h1 := host.State();
    StopsAreFootprint(cfg, u, h0, h1);
    if !e.Returned? || found.None? {
      assert Quiet(old(host.script)) && Inv(cfg, h0) && Clear(cfg, h0, u) ==> false;
      return;
    }
    var m := found.value;
    NodeIsValid(cfg, h0, u);
    NamesMean(cfg, u, h0.domains[u]);
    ghost var middle := host.replies;
    e := DestroyNode(cfg, host, u, m);
    RanOn(old(host.replies), middle, host.replies, e.Returned?);
    FootprintTrans(cfg, u, h0, h1, host.State());
  }

  /** The part of _delete after its checks. */
  method DestroyNode(cfg: Config, host: Libvirt, u: string, m: NodeMeta) returns (e: Ending)
    requires IsNode(cfg, host.State(), u) && m == MetaOf(cfg, host.State(), u) && Valid(m)
    requires NamesMatch(cfg, u, host.domains[u])
    requires !host.dead
    modifies host
    ensures host.dead == e.Perished?
    ensures host.started == old(host.started) && Ran(old(host.replies), host.replies, e.Returned?)
    ensures Footprint(cfg, u, old(host.State()), host.State())
    ensures e.Returned? ==> u !in host.domains
    ensures !e.Conflicted?
    ensures InTurn(old(host.dropped), host.dropped, [m.volume, m.seedVolume])
    ensures Quiet(old(host.script)) ==> Quiet(host.script) && !e.Perished?
    ensures Quiet(old(host.script)) && Inv(cfg, old(host.State())) && Clear(cfg, old(host.State()), u) ==>
              e.Returned? && Gone(cfg, host.State(), u) && Quiet(host.script)
  {
    hide AsBuilt, Valid, InScope, Clear, NamesMatch, ClaimsOf, ClaimPaths, ClaimPathsOf, Footprint, OnlyAt, Unreferenced, MayDestroy, Inv;
    ghost var h0 := host.State();
    NoneYet(host.dropped, [m.volume, m.seedVolume]);
    e := ConfirmIntent(cfg, host, u, m);
    ghost var h1 := host.State();
    if !e.Returned? {
      return;
    }
    ClaimsStay(cfg, u, h0, h1);
    e := StopGuest(cfg, host, u);
    ghost var h2 := host.State();
    FootprintTrans(cfg, u, h0, h1, h2);
    if !e.Returned? {
      return;
    }
    if Inv(cfg, h0) && Clear(cfg, h0, u) && SameElsewhere(u, h0, h2) {
      StillClearAfterStop(cfg, h0, h2, u);
    }
    e := CheckReferences(cfg, host, u, ClaimPathsOf(cfg, m));
    ghost var h3 := host.State();
    StopsAreFootprint(cfg, u, h2, h3);
    FootprintTrans(cfg, u, h0, h2, h3);
    if !e.Returned? {
      return;
    }
    ClaimsStay(cfg, u, h0, h3);
    e := RemoveNode(cfg, host, u, MetaOf(cfg, host.State(), u));
    FootprintTrans(cfg, u, h0, h3, host.State());
  }

  /** The part of _delete after the guest has stopped. */
  method RemoveNode(cfg: Config, host: Libvirt, u: string, m: NodeMeta) returns (e: Ending)
    requires IntentWritten(cfg, host.State(), u) && m == MetaOf(cfg, host.State(), u) && u !in host.active
    requires NamesMatch(cfg, u, host.domains[u]) && Unreferenced(cfg, host.State(), u, ClaimPathsOf(cfg, m))
    requires !host.dead
    modifies host
    ensures host.dead == e.Perished?
    ensures host.started == old(host.started) && Ran(old(host.replies), host.replies, e.Returned?)
    ensures !e.Conflicted?
    ensures InTurn(old(host.dropped), host.dropped, [m.volume, m.seedVolume])
    ensures Footprint(cfg, u, old(host.State()), host.State())
    ensures e.Returned? ==> u !in host.domains
    ensures Quiet(old(host.script)) ==> e.Returned? && Gone(cfg, host.State(), u) && Quiet(host.script)
  {
    hide AsBuilt, InScope, Footprint, OnlyAt, NodeName, VolumeName, SeedName;
    assert ClaimsOf(cfg, u) == {m.volume, m.seedVolume};
    ghost var h0 := host.State();
    e := DropVolumes(cfg, host, u, m);
    ghost var h1 := host.State();
    if !e.Returned? {
      return;
    }
    assert u !in host.active by {
      FootprintShrinks(cfg, u, h0, h1);
    }
    e := ConfirmGone(cfg, host, u, m);
    ghost var h2 := host.State();
    StopsAreFootprint(cfg, u, h1, h2);
    FootprintTrans(cfg, u, h0, h1, h2);
    if !e.Returned? {
      return;
    }
    e := UndefineDomain(cfg, host, u);
    FootprintTrans(cfg, u, h0, h2, host.State());
  }

  lemma FootprintShrinks(cfg: Config, u: string, h: Host, h': Host)
    requires Footprint(cfg, u, h, h')
    ensures h'.active <= h.active
  {
  }

  /** _delete_if_current: whether a deletion was attempted, for a caller whose snapshot may be stale. */
  method DeleteIfCurrent(cfg: Config, host: Libvirt, u: string, generation: nat, expected: State)
    returns (e: Ending, attempted: bool)
    requires WellRead(host.State())
    requires !host.dead
    modifies host
    ensures host.dead == e.Perished?
    ensures host.started == old(host.started) && Ran(old(host.replies), host.replies, e.Returned?)
    ensures Footprint(cfg, u, old(host.State()), host.State())
    // A snapshot of another generation or state changes nothing.
    ensures !(IsNode(cfg, old(host.State()), u) && MetaOf(cfg, old(host.State()), u).generation == generation
              && MetaOf(cfg, old(host.State()), u).state == expected) ==>
              !attempted && OnlyStops(old(host.State()), host.State())
    ensures !Compatible(old(host.State())) ==> !attempted && OnlyStops(old(host.State()), host.State())
    // A deletion is attempted exactly if all records could be read and the snapshot is current.
    ensures attempted <==>
              && Head(old(host.script)).fault.Done? && Compatible(old(host.State())) && IsNode(cfg, old(host.State()), u)
              && MetaOf(cfg, old(host.State()), u).generation == generation && MetaOf(cfg, old(host.State()), u).state == expected
    ensures !attempted ==> host.script == TailOf(old(host.script))
                           && (e.Returned? <==> Head(old(host.script)).fault.Done? && Compatible(old(host.State())))
    ensures e.Conflicted? <==> Head(old(host.script)).fault.Done? && !Compatible(old(host.State()))
    ensures Quiet(old(host.script)) ==> Quiet(host.script) && !e.Perished?
    ensures e.Returned? && attempted ==> u !in host.domains
    ensures Quiet(old(host.script)) && Inv(cfg, old(host.State())) && Clear(cfg, old(host.State()), u)
            && MetaOf(cfg, old(host.State()), u).generation == generation
            && MetaOf(cfg, old(host.State()), u).state == expected ==>
              e.Returned? && attempted && Gone(cfg, host.State(), u) && Quiet(host.script)
  {
    hide AsBuilt, Valid, InScope, Harmless, Footprint, Ran, TailOf, Inv, Gone, Compatible, Clear, Single, Calm;
    attempted := false;
    ghost var h0 := host.State();
    if Clear(cfg, h0, u) {
      ClearIsCompatible(cfg, h0, u);
    }
    e := CheckCompatible(host);
    ghost var h1 := host.State();
    StopsAreFootprint(cfg, u, h0, h1);
    RanLess(old(host.replies), host.replies);
    if !e.Returned? || !IsNode(cfg, host.State(), u) {
      return;
    }
    var current := MetaOf(cfg, host.State(), u);
    if current.generation != generation || current.state != expected {
      return;
    }
    attempted := true;
    ghost var middle := host.replies;
    e := Delete(cfg, host, u);
    RanOn(old(host.replies), middle, host.replies, e.Returned?);
    FootprintTrans(cfg, u, h0, h1, host.State());
  }
}

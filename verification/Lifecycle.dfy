/**
 * The state the node lifecycle lives in: what libvirt knows of domains, volumes and power, and
 * what the application must keep true of it at every instant, even one at which it dies.
 */
module Lifecycle {
  import opened Wrappers
  import opened Names
  import opened Paths
  import opened Xml
  import opened Meta
  import opened Disks
  import opened Built

  datatype Config = Config(poolUuid: string, target: string, prefix: string, baseImage: string, maxNodes: nat,
                           pools: Pools)

  /** What meta.try_read makes of a domain: None, a CompatibilityError, or a record. */
  datatype Record = Unmanaged | Incompatible | Managed(meta: NodeMeta)

  datatype Origin = Origin(cluster: nat, server: Option<string>)

  /**
   * `image` is the base image the overlay was built on. `origin` is what the node was told: the
   * identity of the k3s cluster to start or join, and the server to join it at; no code reads it.
   */
  datatype Domain = Domain(name: string, record: Record, persistent: bool, config: seq<Element>, live: seq<Element>,
                           image: string, origin: Origin)

  /**
   * Domains are keyed by the hex digits of their UUID; volumes are the names in the pool. The
   * last three fields are the model's memory: UUIDs this deployment ever defined, guests that
   * stopped on their own since they were last started, and the next unused cluster identity.
   */
  datatype Host = Host(domains: map<string, Domain>, active: set<string>, volumes: set<string>,
                       used: set<string>, halted: set<string>, nextCluster: nat)

  predicate ConfigOk(cfg: Config) {
    Scope(cfg.target, cfg.prefix) && Canonical(cfg.poolUuid) && Absolute(cfg.baseImage) && Outside(cfg.target, cfg.baseImage)
  }

  predicate InScope(cfg: Config, d: Domain) {
    d.record.Managed? && d.record.meta.poolUuid == cfg.poolUuid && d.record.meta.prefix == cfg.prefix
  }

  predicate IsNode(cfg: Config, h: Host, u: string) {
    u in h.domains && h.domains[u].record.Managed? && InScope(cfg, h.domains[u])
  }

  function Nodes(cfg: Config, h: Host): set<string> {
    set u | u in h.domains && IsNode(cfg, h, u)
  }

  function MetaOf(cfg: Config, h: Host, u: string): NodeMeta
    requires IsNode(cfg, h, u)
  {
    h.domains[u].record.meta
  }

  function ClaimsOf(cfg: Config, u: string): set<string> {
    Claims(cfg.prefix, u)
  }

  predicate HasBoth(cfg: Config, h: Host, u: string) {
    ClaimsOf(cfg, u) <= h.volumes
  }

  /** The claims in a record are the two volumes named after the domain. */
  predicate NamesMatch(cfg: Config, u: string, d: Domain)
    requires d.record.Managed?
  {
    && d.name == NodeName(cfg.prefix, u)
    && d.record.meta.volume == VolumeName(d.name) && d.record.meta.seedVolume == SeedName(d.name)
  }

  // ----- the invariant ----------------------------------------------------------------

  /** The domain is what build_domain_xml made, as libvirt renders it, on a base image outside the pool. */
  predicate AsBuilt(cfg: Config, u: string, d: Domain)
    requires d.record.Managed?
  {
    && NamesMatch(cfg, u, d) && Valid(d.record.meta)
    && GoodNode(GuestOf(d, false), cfg.target, cfg.prefix, u, d.image)
  }

  /** Volumes, durable state and power of one node agree. */
  predicate Agrees(cfg: Config, h: Host, u: string)
    requires IsNode(cfg, h, u)
  {
    var m := MetaOf(cfg, h, u);
    && m.generation == (if m.state.Deleting? then 2 else 1)
    && (!Incomplete(m.state) ==> HasBoth(cfg, h, u))
    && (u in h.active ==> HasBoth(cfg, h, u) && !m.state.Creating?)
    && u in h.used
    && h.domains[u].origin.cluster < h.nextCluster
  }

  predicate Sound(cfg: Config, h: Host, u: string)
    requires IsNode(cfg, h, u)
  {
    Hex32(u) && AsBuilt(cfg, u, h.domains[u]) && Agrees(cfg, h, u)
  }

  predicate Together(cfg: Config, h: Host, u: string, v: string)
    requires IsNode(cfg, h, u) && IsNode(cfg, h, v)
  {
    && h.domains[u].origin.cluster == h.domains[v].origin.cluster
    && (MetaOf(cfg, h, u).bootstrap && MetaOf(cfg, h, v).bootstrap ==> u == v)
  }

  /** Every node is sound, and the nodes that coexist form one cluster with at most one bootstrap. */
  ghost predicate Inv(cfg: Config, h: Host) {
    && ConfigOk(cfg)
    && (forall u :: IsNode(cfg, h, u) ==> Sound(cfg, h, u))
    && (forall u, v :: IsNode(cfg, h, u) && IsNode(cfg, h, v) ==> Together(cfg, h, u, v))
    && h.halted !! h.active && h.active <= h.domains.Keys
  }

  /** Every record on the host is one parse accepts, and what runs is a domain: libvirt's own coherence. */
  ghost predicate WellRead(h: Host) {
    && h.active <= h.domains.Keys
    && forall u :: u in h.domains && h.domains[u].record.Managed? ==> Valid(h.domains[u].record.meta)
  }

  // ----- what may change, and what never does -----------------------------------------

  function GuestOf(d: Domain, active: bool): Guest {
    Guest(d.persistent, active, d.config, d.live)
  }

  function Guests(h: Host): map<string, Guest> {
    map u | u in h.domains :: GuestOf(h.domains[u], u in h.active)
  }

  /** Nothing happened but guests powering themselves off. */
  ghost predicate OnlyStops(h: Host, h': Host) {
    && h' == h.(active := h'.active, halted := h'.halted)
    && h'.active <= h.active && h.halted <= h'.halted
    && h.active - h'.active <= h'.halted
    && (h.halted !! h.active ==> h'.halted !! h'.active)
  }

  /** Only node u, its two volumes and its power may differ; other guests at most stop on their own. */
  ghost predicate OnlyAt(cfg: Config, u: string, h: Host, h': Host) {
    && h'.domains - {u} == h.domains - {u}
    && h'.volumes - ClaimsOf(cfg, u) == h.volumes - ClaimsOf(cfg, u)
    && h'.active - {u} <= h.active - {u}
    && h.halted <= h'.halted + {u} && h.active - {u} - h'.active <= h'.halted
    && h.used <= h'.used <= h.used + {u}
    && h.nextCluster <= h'.nextCluster
    && (h.halted !! h.active ==> h'.halted !! h'.active)
  }

  /** Volumes with a node's name that no node claims; operators inspect these, no code deletes them. */
  function Unclaimed(cfg: Config, h: Host): set<string> {
    set v | v in h.volumes && forall u :: u in Nodes(cfg, h) ==> v !in ClaimsOf(cfg, u)
  }

  /** How a durable record may change over any number of operations. */
  predicate RecordStep(m: NodeMeta, m': NodeMeta) {
    && m'.role == m.role && m'.bootstrap == m.bootstrap && m'.volume == m.volume && m'.seedVolume == m.seedVolume
    && m'.poolUuid == m.poolUuid && m'.prefix == m.prefix && m'.created == m.created
    && m'.guestProtocol == m.guestProtocol
    && (m.state.Deleting? ==> m' == m)
    && m'.generation == m.generation + (if m'.state.Deleting? && !m.state.Deleting? then 1 else 0)
    && (m.state.Configured? ==> m'.state.Configured? || m'.state.Deleting?)
    && (!m.state.Creating? ==> !m'.state.Creating?)
  }

  /** The same domain, but for its record and for what libvirt makes of its definitions. */
  predicate SameDomain(d: Domain, d': Domain) {
    d' == d.(record := d'.record, config := d'.config, live := d'.live)
  }

  /** The history of the host from h to some later h'. */
  ghost predicate Evolves(cfg: Config, h: Host, h': Host) {
    && h.used <= h'.used && h.nextCluster <= h'.nextCluster
    && Unclaimed(cfg, h') == Unclaimed(cfg, h)
    && (forall u :: IsNode(cfg, h, u) && IsNode(cfg, h', u) ==>
          && RecordStep(MetaOf(cfg, h, u), MetaOf(cfg, h', u))
          && SameDomain(h.domains[u], h'.domains[u]))
    // A UUID that is no longer a node never becomes one again.
    && (forall u :: u in h.used && !IsNode(cfg, h, u) ==> !IsNode(cfg, h', u))
  }

  lemma EvolvesTrans(cfg: Config, a: Host, b: Host, c: Host)
    requires Evolves(cfg, a, b) && Evolves(cfg, b, c) && Inv(cfg, a)
    ensures Evolves(cfg, a, c)
  {
    forall u | IsNode(cfg, a, u) && IsNode(cfg, c, u)
      ensures RecordStep(MetaOf(cfg, a, u), MetaOf(cfg, c, u))
      ensures SameDomain(a.domains[u], c.domains[u])
    {
      assert Sound(cfg, a, u);
      assert IsNode(cfg, b, u);
    }
  }

  lemma OnlyStopsKeeps(cfg: Config, h: Host, h': Host)
    requires OnlyStops(h, h')
    ensures Evolves(cfg, h, h') && (Inv(cfg, h) ==> Inv(cfg, h'))
    ensures forall u :: OnlyAt(cfg, u, h, h')
  {
    hide AsBuilt;
    assert Nodes(cfg, h) == Nodes(cfg, h');
    if Inv(cfg, h) {
      forall u | IsNode(cfg, h', u) ensures Sound(cfg, h', u) {
        assert Sound(cfg, h, u);
      }
      forall u, v | IsNode(cfg, h', u) && IsNode(cfg, h', v) ensures Together(cfg, h', u, v) {
        assert Together(cfg, h, u, v);
      }
    }
  }

  lemma OtherNodes(cfg: Config, u: string, h: Host, h': Host, v: string)
    requires h'.domains - {u} == h.domains - {u} && v != u
    ensures v in h'.domains <==> v in h.domains
    ensures v in h.domains ==> h'.domains[v] == h.domains[v]
    ensures IsNode(cfg, h', v) <==> IsNode(cfg, h, v)
  {
    assert v in h'.domains <==> v in h'.domains - {u};
    assert v in h.domains <==> v in h.domains - {u};
    if v in h.domains {
      assert (h'.domains - {u})[v] == (h.domains - {u})[v];
    }
  }

  /** A change confined to node u keeps the invariant if u itself stays sound and in its cluster. */
  lemma LocalChange(cfg: Config, u: string, h: Host, h': Host)
    requires Inv(cfg, h) && OnlyAt(cfg, u, h, h') && Hex32(u)
    requires u in h'.active ==> u in h'.domains
    requires IsNode(cfg, h', u) ==> Sound(cfg, h', u)
    requires IsNode(cfg, h', u) ==> forall v :: IsNode(cfg, h, v) && v != u ==>
               h'.domains[u].origin.cluster == h.domains[v].origin.cluster
               && !(h'.domains[u].record.meta.bootstrap && MetaOf(cfg, h, v).bootstrap)
    ensures Inv(cfg, h')
  {
    hide AsBuilt;
    forall v | v in h'.active ensures v in h'.domains {
      if v != u {
        OtherNodes(cfg, u, h, h', v);
        assert v in h'.active - {u};
      }
    }
    forall v | IsNode(cfg, h', v) ensures Sound(cfg, h', v) {
      if v != u {
        OtherNodes(cfg, u, h, h', v);
        assert Sound(cfg, h, v);
        ClaimsDisjoint(cfg.prefix, u, cfg.prefix, v);
        assert ClaimsOf(cfg, v) <= h.volumes ==> ClaimsOf(cfg, v) <= h'.volumes by {
          assert forall x :: x in ClaimsOf(cfg, v) && x in h.volumes ==> x in h'.volumes - ClaimsOf(cfg, u);
        }
        assert v in h'.active ==> v in h'.active - {u};
        assert Agrees(cfg, h', v);
      }
    }
    forall v, w | IsNode(cfg, h', v) && IsNode(cfg, h', w) ensures Together(cfg, h', v, w) {
      if v != u {
        OtherNodes(cfg, u, h, h', v);
      }
      if w != u {
        OtherNodes(cfg, u, h, h', w);
      }
      if v != u && w != u {
        assert Together(cfg, h, v, w);
      }
    }
  }

  /** Such a change neither makes nor removes an unclaimed volume if u's volumes come and go with its claim. */
  lemma UnclaimedUnchanged(cfg: Config, u: string, h: Host, h': Host)
    requires OnlyAt(cfg, u, h, h')
    requires IsNode(cfg, h, u) || ClaimsOf(cfg, u) !! h.volumes
    requires IsNode(cfg, h', u) || ClaimsOf(cfg, u) !! h'.volumes
    ensures Unclaimed(cfg, h') == Unclaimed(cfg, h)
  {
    forall v | v != u ensures v in Nodes(cfg, h') <==> v in Nodes(cfg, h) {
      OtherNodes(cfg, u, h, h', v);
    }
    forall x | x !in ClaimsOf(cfg, u) ensures x in h'.volumes <==> x in h.volumes {
      assert x in h'.volumes <==> x in h'.volumes - ClaimsOf(cfg, u);
    }
    forall x ensures x in Unclaimed(cfg, h') <==> x in Unclaimed(cfg, h) {
      if x in ClaimsOf(cfg, u) {
        assert IsNode(cfg, h, u) <==> u in Nodes(cfg, h);
        assert IsNode(cfg, h', u) <==> u in Nodes(cfg, h');
      }
    }
  }

  /** A change confined to u is history if u's own record moved as records may. */
  lemma LocalHistory(cfg: Config, u: string, h: Host, h': Host)
    requires OnlyAt(cfg, u, h, h')
    requires IsNode(cfg, h, u) || ClaimsOf(cfg, u) !! h.volumes
    requires IsNode(cfg, h', u) || ClaimsOf(cfg, u) !! h'.volumes
    requires IsNode(cfg, h, u) && IsNode(cfg, h', u) ==>
               && RecordStep(MetaOf(cfg, h, u), MetaOf(cfg, h', u))
               && SameDomain(h.domains[u], h'.domains[u])
    requires u in h.used && !IsNode(cfg, h, u) ==> !IsNode(cfg, h', u)
    ensures Evolves(cfg, h, h')
  {
    hide AsBuilt, InScope;
    UnclaimedUnchanged(cfg, u, h, h');
    forall v | v != u
      ensures IsNode(cfg, h', v) <==> IsNode(cfg, h, v)
      ensures v in h.domains ==> v in h'.domains && h'.domains[v] == h.domains[v]
    {
      OtherNodes(cfg, u, h, h', v);
    }
  }

  lemma BuiltIsValid(cfg: Config, u: string, d: Domain)
    requires d.record.Managed? && AsBuilt(cfg, u, d)
    ensures Valid(d.record.meta) && NamesMatch(cfg, u, d)
  {
  }

  /** Rewriting the record of a built domain leaves it built. */
  lemma RewrittenAsBuilt(cfg: Config, u: string, d: Domain, m: NodeMeta)
    requires d.record.Managed? && AsBuilt(cfg, u, d) && Valid(m)
    requires m.volume == d.record.meta.volume && m.seedVolume == d.record.meta.seedVolume
    ensures AsBuilt(cfg, u, d.(record := Managed(m)))
  {
    hide GoodNode, Valid;
    assert GuestOf(d.(record := Managed(m)), false) == GuestOf(d, false);
  }
}

/** pool.py: what the pool holds, whether it is the deployment's own, and the orphan report. */
module Pool {
  import opened Wrappers
  import opened Names
  import opened Paths
  import Xml
  import opened Disks
  import opened Built
  import opened Lifecycle
  import opened Saga

  datatype PoolStatus = PoolStatus(marker: bool, overlays: set<string>, unknown: set<string>)

  /** inspect: every volume is the marker, has a name of this scope, or is unknown. */
  method Inspect(prefix: string, volumes: seq<string>) returns (s: PoolStatus)
    ensures s.marker <==> MARKER in volumes
    ensures forall v :: v in s.overlays <==> v in volumes && v != MARKER && VolumePattern(prefix, v)
    ensures forall v :: v in s.unknown <==> v in volumes && v != MARKER && !VolumePattern(prefix, v)
  {
    hide VolumePattern;
    s := PoolStatus(false, {}, {});
    for i := 0 to |volumes|
      invariant s.marker <==> MARKER in volumes[..i]
      invariant forall v :: v in s.overlays <==> v in volumes[..i] && v != MARKER && VolumePattern(prefix, v)
      invariant forall v :: v in s.unknown <==> v in volumes[..i] && v != MARKER && !VolumePattern(prefix, v)
    {
      var name := volumes[i];
      assert volumes[..i + 1] == volumes[..i] + [name];
      if name == MARKER {
        s := s.(marker := true);
      } else if VolumePattern(prefix, name) {
        s := s.(overlays := s.overlays + {name});
      } else {
        s := s.(unknown := s.unknown + {name});
      }
    }
    assert volumes[..|volumes|] == volumes;
  }

  /** require_owned: the pool is usable exactly if it has the marker and nothing unknown. */
  method RequireOwned(cfg: Config, h: Host, volumes: seq<string>) returns (r: Result<PoolStatus>)
    requires forall v :: v in volumes <==> v in h.volumes
    ensures r.Ok? <==> OwnedPool(cfg, h)
    ensures r.Ok? ==> r.value.overlays == h.volumes - {MARKER}
  {
    hide VolumePattern;
    var s := Inspect(cfg.prefix, volumes);
    r := if s.marker && s.unknown == {} then Ok(s) else Err;
    if !r.Ok? && s.marker {
      var v :| v in s.unknown;
      assert v in h.volumes;
    }
    if r.Ok? {
      forall v | v in h.volumes && v != MARKER ensures VolumePattern(cfg.prefix, v) {
        assert v !in s.unknown;
      }
    }
  }

  /** The marker has no name a node could claim. */
  lemma MarkerIsNoClaim(prefix: string, u: string)
    requires Hex32(u)
    ensures MARKER !in Claims(prefix, u)
  {
    forall suffix | suffix in {".qcow2", ".iso"} ensures NodeName(prefix, u) + suffix != MARKER {
      var s := NodeName(prefix, u) + suffix;
      assert s[|s| - 1] == suffix[|suffix| - 1];
      assert MARKER[|MARKER| - 1] == 'r';
    }
    var name := NodeName(prefix, u);
    assert VolumeName(name) == name + ".qcow2" && SeedName(name) == name + ".iso";
  }

  /**
   * Whatever happens to one node, an owned pool stays owned, and a pool that is not owned does not
   * become so: the marker and every unknown volume are as they were.
   */
  lemma PoolStaysOwned(cfg: Config, u: string, h: Host, h': Host)
    requires Hex32(u) && OnlyAt(cfg, u, h, h')
    ensures OwnedPool(cfg, h') <==> OwnedPool(cfg, h)
    ensures MARKER in h'.volumes <==> MARKER in h.volumes
    ensures forall v :: !VolumePattern(cfg.prefix, v) ==> (v in h'.volumes <==> v in h.volumes)
  {
    hide VolumePattern, ClaimsOf, NodeName;
    MarkerIsNoClaim(cfg.prefix, u);
    ClaimsMatchPattern(cfg.prefix, u);
    ClaimsArePatterned(cfg, u);
    forall v | v !in ClaimsOf(cfg, u) ensures v in h'.volumes <==> v in h.volumes {
      assert v in h'.volumes <==> v in h'.volumes - ClaimsOf(cfg, u);
      assert v in h.volumes <==> v in h.volumes - ClaimsOf(cfg, u);
    }
  }

  lemma ClaimsArePatterned(cfg: Config, u: string)
    requires Hex32(u)
    ensures MARKER !in ClaimsOf(cfg, u) && forall v :: v in ClaimsOf(cfg, u) ==> VolumePattern(cfg.prefix, v)
  {
    hide VolumePattern, NodeName, EndsWith;
    MarkerIsNoClaim(cfg.prefix, u);
    ClaimsMatchPattern(cfg.prefix, u);
  }

  /** unclaimed_volumes: exactly the overlays no node claims and no readable definition refers to. */
  method UnclaimedVolumes(cfg: Config, h: Host, status: PoolStatus, claimed: set<string>) returns (r: Result<set<string>>)
    ensures r.Ok? <==> HostFits(cfg.pools, Guests(h), None, false, {})
    ensures r.Ok? ==> forall v :: v in r.value <==>
              v in status.overlays && v !in claimed
              && !HostRefers(cfg.pools, Guests(h), None, Normalize(JoinPath(cfg.target, v)))
  {
    hide HostFits, HostRefers, Normalize;
    var referenced := ReferencedDiskPaths(cfg.pools, Guests(h), None, false, {});
    if referenced.Err? {
      return Err;
    }
    r := Ok(set name | name in status.overlays && name !in claimed
                       && Normalize(JoinPath(cfg.target, name)) !in referenced.value);
  }

  /** On a host that keeps the invariant a node's volumes are referred to, so the report never names them. */
  lemma NoNodeIsReported(cfg: Config, h: Host, u: string, v: string)
    requires Inv(cfg, h) && IsNode(cfg, h, u) && v in ClaimsOf(cfg, u)
    ensures HostRefers(cfg.pools, Guests(h), None, Normalize(JoinPath(cfg.target, v)))
  {
    hide AsBuilt, InScope, Refer, GoodNode, Normalize, NodeName, Absolute, Outside;
    assert Sound(cfg, h, u);
    BuiltIsReferred(cfg, u, h.domains[u], v);
    var g := Guests(h)[u];
    assert forall d :: d in h.domains[u].config ==> d in Examined(g);
    ReferredMore(cfg.pools, h.domains[u].config, Examined(g), Normalize(JoinPath(cfg.target, v)));
  }

  lemma ReferredMore(pools: Pools, some: seq<Xml.Element>, all: seq<Xml.Element>, p: Path)
    requires Refer(pools, some, p) && forall d :: d in some ==> d in all
    ensures Refer(pools, all, p)
  {
    hide DiskRefs, Values;
  }

  lemma BuiltIsReferred(cfg: Config, u: string, d: Domain, v: string)
    requires ConfigOk(cfg) && Hex32(u) && d.record.Managed? && AsBuilt(cfg, u, d) && v in ClaimsOf(cfg, u)
    ensures Refer(cfg.pools, d.config, Normalize(JoinPath(cfg.target, v))) && d.persistent
  {
    hide Refer, AllFit, Renders, Normalize, TwoDiskMatch, DirectSources, SourcePaths, Readable, Values;
    BuiltDisksPass(cfg.pools, d.config, cfg.target, cfg.prefix, u, d.image);
    BuiltPaths(cfg.target, cfg.prefix, u);
  }
}

/** pool.py and domxml.py: which paths a domain's disks refer to, and the disks a node is built with. */
module Disks {
  import opened Wrappers
  import opened Text
  import opened Paths
  import opened Xml

  /** The directory pools of the host: name to target directory. */
  type Pools = map<string, string>

  // ----- one source -------------------------------------------------------------------

  function FilePath(path: string): Result<Path> {
    if Absolute(path) then Ok(Normalize(path)) else Err
  }

  /** source_path: the path a <source> element names, or Err for PoolError. */
  function SourcePath(pools: Pools, source: Element): Result<Path> {
    var keys := source.attrs.Keys - {"startupPolicy", "index"};
    if source.children != [] then Err
    else if keys == {"file"} then FilePath(source.attrs["file"])
    else if keys == {"dev"} then FilePath(source.attrs["dev"])
    else if keys == {"pool", "volume"} && source.attrs["pool"] in pools && PlainName(source.attrs["volume"])
    then FilePath(JoinPath(pools[source.attrs["pool"]], source.attrs["volume"]))
    else Err
  }

  function SourcePaths(pools: Pools, sources: seq<Element>): (r: seq<Result<Path>>)
    ensures |r| == |sources| && forall i :: 0 <= i < |r| ==> r[i] == SourcePath(pools, sources[i])
  {
    if sources == [] then [] else [SourcePath(pools, sources[0])] + SourcePaths(pools, sources[1..])
  }

  /** Every <path> directly below one of the backing stores. */
  function BackingPaths(stores: seq<Element>): seq<Element> {
    if stores == [] then [] else Tagged(stores[0].children, "path") + BackingPaths(stores[1..])
  }

  function TextPaths(paths: seq<Element>): (r: seq<Result<Path>>)
    ensures |r| == |paths| && forall i :: 0 <= i < |r| ==> r[i] == FilePath(paths[i].text)
  {
    if paths == [] then [] else [FilePath(paths[0].text)] + TextPaths(paths[1..])
  }

  /** Everything a disk refers to, at every depth. */
  function DiskRefs(pools: Pools, disk: Element): seq<Result<Path>> {
    var below := Flatten(disk.children);
    SourcePaths(pools, Tagged(below, "source")) + TextPaths(BackingPaths(Tagged(below, "backingStore")))
  }

  predicate Readable(refs: seq<Result<Path>>) {
    forall r :: r in refs ==> r.Ok?
  }

  function Values(refs: seq<Result<Path>>): set<Path> {
    set r | r in refs && r.Ok? :: r.value
  }

  /**
   * A source names p: by an absolute file or device path that is p up to normalisation, or as the
   * volume with p's last component in the pool whose directory is the rest of p. Nothing but an
   * index and a startup policy may stand beside the name, and nothing below it.
   */
  predicate NamesPath(pools: Pools, source: Element, p: Path) {
    && source.children == []
    && ((AndNoMore(source, {"file"}) && Absolute(source.attrs["file"]) && Normalize(source.attrs["file"]) == p)
        || (AndNoMore(source, {"dev"}) && Absolute(source.attrs["dev"]) && Normalize(source.attrs["dev"]) == p)
        || (AndNoMore(source, {"pool", "volume"}) && PlainName(source.attrs["volume"]) && source.attrs["pool"] in pools
            && Absolute(pools[source.attrs["pool"]]) && Below(pools[source.attrs["pool"]], source.attrs["volume"]) == p))
  }

  predicate AndNoMore(source: Element, keys: set<string>) {
    keys <= source.attrs.Keys && source.attrs.Keys <= keys + {"startupPolicy", "index"}
  }

  lemma SourceNames(pools: Pools, source: Element, p: Path)
    ensures SourcePath(pools, source) == Ok(p) <==> NamesPath(pools, source, p)
  {
    var keys := source.attrs.Keys - {"startupPolicy", "index"};
    assert AndNoMore(source, {"file"}) <==> keys == {"file"};
    assert AndNoMore(source, {"dev"}) <==> keys == {"dev"};
    assert AndNoMore(source, {"pool", "volume"}) <==> keys == {"pool", "volume"};
    assert keys == {"file"} ==> "dev" !in keys && "pool" !in keys;
    assert keys == {"dev"} ==> "file" !in keys && "pool" !in keys;
    if keys == {"pool", "volume"} {
      assert "pool" in keys && "volume" in keys;
      var volume := source.attrs["volume"];
      if source.attrs["pool"] in pools && PlainName(volume) {
        var dir := pools[source.attrs["pool"]];
        if Absolute(dir) {
          NormalizeJoin(dir, volume);
        } else {
          JoinIsRelative(dir, volume);
        }
      }
    }
  }

  /** x, below a disk, is a source that names p or a backing store with a <path> that does. */
  predicate Mentions(pools: Pools, x: Element, p: Path) {
    || (x.tag == "source" && NamesPath(pools, x, p))
    || (x.tag == "backingStore" && exists c :: c in x.children && c.tag == "path" && Absolute(c.text) && Normalize(c.text) == p)
  }

  lemma {:induction false} BackingPathsOf(stores: seq<Element>, c: Element)
    ensures c in BackingPaths(stores) <==> c.tag == "path" && exists x :: x in stores && c in x.children
  {
    if stores != [] {
      BackingPathsOf(stores[1..], c);
      forall x | x in stores && c in x.children ensures x == stores[0] || x in stores[1..] {
      }
    }
  }

  /** A disk refers to exactly what is mentioned below it, at any depth and in any of the admitted forms. */
  lemma RefersExactly(pools: Pools, disk: Element, p: Path)
    ensures p in Values(DiskRefs(pools, disk)) <==> exists x :: x in Flatten(disk.children) && Mentions(pools, x, p)
  {
    hide SourcePath, NamesPath, Flatten, Normalize, Tagged, BackingPaths;
    var below := Flatten(disk.children);
    var sources, paths := Tagged(below, "source"), BackingPaths(Tagged(below, "backingStore"));
    forall x | x in below && Mentions(pools, x, p) ensures p in Values(DiskRefs(pools, disk)) {
      MentionIsReferred(pools, disk, x, p);
    }
    if p in Values(DiskRefs(pools, disk)) {
      if Ok(p) in SourcePaths(pools, sources) {
        var i :| 0 <= i < |sources| && SourcePath(pools, sources[i]) == Ok(p);
        assert sources[i] in sources;
        SourceNames(pools, sources[i], p);
        assert Mentions(pools, sources[i], p);
      } else {
        assert Ok(p) in TextPaths(paths);
        var i :| 0 <= i < |paths| && FilePath(paths[i].text) == Ok(p);
        assert paths[i] in paths;
        BackingPathsOf(Tagged(below, "backingStore"), paths[i]);
        var x :| x in Tagged(below, "backingStore") && paths[i] in x.children;
        assert Mentions(pools, x, p);
      }
    }
  }

  lemma MentionIsReferred(pools: Pools, disk: Element, x: Element, p: Path)
    requires x in Flatten(disk.children) && Mentions(pools, x, p)
    ensures Ok(p) in DiskRefs(pools, disk) && p in Values(DiskRefs(pools, disk))
  {
    hide SourcePath, NamesPath, Flatten, Normalize, Tagged, BackingPaths;
    var below := Flatten(disk.children);
    var sources, paths := Tagged(below, "source"), BackingPaths(Tagged(below, "backingStore"));
    if x.tag == "source" {
      SourceNames(pools, x, p);
      var i :| 0 <= i < |sources| && sources[i] == x;
      assert SourcePaths(pools, sources)[i] == Ok(p);
    } else {
      var c :| c in x.children && c.tag == "path" && Absolute(c.text) && Normalize(c.text) == p;
      assert x in Tagged(below, "backingStore");
      BackingPathsOf(Tagged(below, "backingStore"), c);
      var i :| 0 <= i < |paths| && paths[i] == c;
      assert TextPaths(paths)[i] == Ok(p);
    }
  }

  /** No source at any depth of a disk is missed. */
  lemma EveryDepthIsReferred(pools: Pools, disk: Element, ix: seq<nat>, source: Element)
    requires ix != [] && Reaches(disk, ix, source) && source.tag == "source" && Readable(DiskRefs(pools, disk))
    ensures SourcePath(pools, source).Ok? && SourcePath(pools, source).value in Values(DiskRefs(pools, disk))
  {
    FlattenFindsEveryDepth(disk, ix, source);
    var found := Tagged(Flatten(disk.children), "source");
    var i :| 0 <= i < |found| && found[i] == source;
    assert SourcePaths(pools, found)[i] in DiskRefs(pools, disk);
  }

  // ----- the backing chain ------------------------------------------------------------

  predicate Terminator(layer: Element) {
    layer.attrs == map[] && layer.children == [] && Strip(layer.text) == ""
  }

  function Kind(format: Option<Element>): Option<string> {
    if format.Some? && "type" in format.value.attrs then Some(format.value.attrs["type"]) else None
  }

  /**
   * A complete explicit chain: each layer has one source and a known format; a raw layer may end
   * the chain, and otherwise the only backing store is the terminator or again such a chain.
   */
  predicate CompleteChain(layer: Element, format: Option<Element>)
    decreases layer, 0
  {
    var kind, backing := Kind(format), Tagged(layer.children, "backingStore");
    && |Tagged(layer.children, "source")| == 1
    && |backing| <= 1
    && (if backing == [] then kind == Some("raw")
        else
          assert backing[0] in layer.children;
          (kind == Some("raw") || kind == Some("qcow2")) && ChainBelow(backing[0]))
  }

  predicate ChainBelow(store: Element)
    decreases store, 1
  {
    Terminator(store) || CompleteChain(store, First(store, "format"))
  }

  function FormatAt(layers: seq<Element>, format: Option<Element>, i: nat): Option<Element>
    requires i < |layers|
  {
    if i == 0 then format else First(layers[i], "format")
  }

  predicate KnownLayer(layer: Element, kind: Option<string>) {
    |Tagged(layer.children, "source")| == 1 && (kind == Some("raw") || kind == Some("qcow2"))
  }

  predicate Follows(layer: Element, next: Element) {
    Tagged(layer.children, "backingStore") == [next] && !Terminator(next)
  }

  predicate Ends(layer: Element, kind: Option<string>) {
    var rest := Tagged(layer.children, "backingStore");
    if rest == [] then kind == Some("raw") else |rest| == 1 && Terminator(rest[0])
  }

  /** The same demand without recursion: the whole chain laid out, disk first. */
  ghost predicate ExplicitChain(layers: seq<Element>, format: Option<Element>) {
    && layers != []
    && (forall i :: 0 <= i < |layers| ==> KnownLayer(layers[i], Kind(FormatAt(layers, format, i))))
    && (forall i :: 0 < i < |layers| ==> Follows(layers[i - 1], layers[i]))
    && Ends(layers[|layers| - 1], Kind(FormatAt(layers, format, |layers| - 1)))
  }

  lemma LayOnTop(layer: Element, format: Option<Element>, rest: seq<Element>)
    requires rest != [] && ExplicitChain(rest, First(rest[0], "format"))
    requires KnownLayer(layer, Kind(format)) && Follows(layer, rest[0])
    ensures ExplicitChain([layer] + rest, format)
  {
    hide KnownLayer, Follows, Ends, Kind, First;
    var layers := [layer] + rest;
    var next := First(rest[0], "format");
    forall i | 0 <= i < |layers| ensures KnownLayer(layers[i], Kind(FormatAt(layers, format, i))) {
      if i > 0 {
        assert layers[i] == rest[i - 1];
        assert KnownLayer(rest[i - 1], Kind(FormatAt(rest, next, i - 1)));
      }
    }
    forall i | 0 < i < |layers| ensures Follows(layers[i - 1], layers[i]) {
      assert layers[i] == rest[i - 1];
    }
    assert Ends(rest[|rest| - 1], Kind(FormatAt(rest, next, |rest| - 1)));
  }

  lemma {:induction false} ChainLaidOut(layer: Element, format: Option<Element>) returns (layers: seq<Element>)
    requires CompleteChain(layer, format)
    ensures ExplicitChain(layers, format) && layers[0] == layer
    decreases layer
  {
    var backing := Tagged(layer.children, "backingStore");
    if backing == [] || Terminator(backing[0]) {
      layers := [layer];
    } else {
      assert backing[0] in layer.children;
      var rest := ChainLaidOut(backing[0], First(backing[0], "format"));
      assert backing == [rest[0]];
      LayOnTop(layer, format, rest);
      layers := [layer] + rest;
    }
  }

  lemma {:induction false} LaidOutIsComplete(layers: seq<Element>, format: Option<Element>)
    requires ExplicitChain(layers, format)
    ensures CompleteChain(layers[0], format)
    decreases |layers|
  {
    assert KnownLayer(layers[0], Kind(FormatAt(layers, format, 0)));
    if |layers| > 1 {
      var rest := layers[1..];
      var next := First(rest[0], "format");
      forall i | 0 <= i < |rest| ensures FormatAt(rest, next, i) == FormatAt(layers, format, i + 1) && rest[i] == layers[i + 1] {
      }
      assert Follows(layers[0], layers[1]);
      forall i | 0 < i < |rest| ensures Follows(rest[i - 1], rest[i]) {
        assert Follows(layers[i], layers[i + 1]);
      }
      LaidOutIsComplete(rest, next);
    }
  }

  /** A disk passes the walk exactly when its whole chain can be laid out explicitly. */
  lemma CompleteMeansLaidOut(disk: Element)
    ensures CompleteChain(disk, First(disk, "driver")) <==>
            exists layers :: ExplicitChain(layers, First(disk, "driver")) && layers[0] == disk
  {
    if CompleteChain(disk, First(disk, "driver")) {
      var layers := ChainLaidOut(disk, First(disk, "driver"));
    }
    forall layers | ExplicitChain(layers, First(disk, "driver")) && layers[0] == disk
      ensures CompleteChain(disk, First(disk, "driver"))
    {
      LaidOutIsComplete(layers, First(disk, "driver"));
    }
  }

  /** The loop with a moving `layer`. */
  method WalkChain(disk: Element) returns (complete: bool)
    ensures complete == CompleteChain(disk, First(disk, "driver"))
  {
    var layer, format := disk, First(disk, "driver");
    while true
      invariant CompleteChain(disk, First(disk, "driver")) == CompleteChain(layer, format)
      decreases layer
    {
      var sources := Tagged(layer.children, "source");
      if |sources| != 1 {
        return false;
      }
      var kind, backing := Kind(format), Tagged(layer.children, "backingStore");
      if |backing| > 1 {
        return false;
      }
      if kind == Some("raw") && backing == [] {
        return true;
      }
      if !(kind == Some("raw") || kind == Some("qcow2")) || backing == [] {
        return false;
      }
      assert backing[0] in layer.children;
      layer := backing[0];
      if Terminator(layer) {
        return true;
      }
      format := First(layer, "format");
    }
  }

  // ----- the host scan ----------------------------------------------------------------

  /** A domain as libvirt describes it: the disks of its persistent and its live definition. */
  datatype Guest = Guest(persistent: bool, active: bool, config: seq<Element>, live: seq<Element>)

  /** The disks of the definitions the scan reads. */
  function Examined(g: Guest): seq<Element> {
    (if g.persistent then g.config else g.live) + (if g.active && g.persistent then g.live else [])
  }

  /** Every definition is read that a guest runs by or will start by. */
  lemma ExaminedExactly(g: Guest, disk: Element)
    ensures disk in Examined(g) <==> (g.persistent && disk in g.config) || ((g.active || !g.persistent) && disk in g.live)
  {
  }

  predicate ReadOnlyCdrom(disk: Element) {
    "device" in disk.attrs && disk.attrs["device"] == "cdrom" && First(disk, "readonly").Some?
  }

  predicate DiskFits(pools: Pools, disk: Element, strict: bool) {
    && Readable(DiskRefs(pools, disk))
    && (strict && !ReadOnlyCdrom(disk) ==> CompleteChain(disk, First(disk, "driver")))
  }

  predicate AllFit(pools: Pools, disks: seq<Element>, strict: bool) {
    forall d :: d in disks ==> DiskFits(pools, d, strict)
  }

  /** p is referred to by one of the disks. */
  predicate Refer(pools: Pools, disks: seq<Element>, p: Path) {
    exists d :: d in disks && p in Values(DiskRefs(pools, d))
  }

  predicate Strict(u: string, all: bool, strict: set<string>) {
    all || u in strict
  }

  predicate HostFits(pools: Pools, guests: map<string, Guest>, exclude: Option<string>, all: bool, strict: set<string>) {
    forall u :: u in guests && exclude != Some(u) ==> AllFit(pools, Examined(guests[u]), Strict(u, all, strict))
  }

  predicate HostRefers(pools: Pools, guests: map<string, Guest>, exclude: Option<string>, p: Path) {
    exists u :: u in guests && exclude != Some(u) && Refer(pools, Examined(guests[u]), p)
  }

  method ScanList(refs: seq<Result<Path>>, paths: set<Path>) returns (r: Result<set<Path>>)
    ensures r.Ok? == Readable(refs)
    ensures r.Ok? ==> r.value == paths + Values(refs)
  {
    var found := paths;
    for i := 0 to |refs|
      invariant Readable(refs[..i]) && found == paths + Values(refs[..i])
    {
      assert refs[..i + 1] == refs[..i] + [refs[i]];
      if refs[i].Err? {
        assert refs[i] in refs;
        return Err;
      }
      found := found + {refs[i].value};
    }
    assert refs[..|refs|] == refs;
    r := Ok(found);
  }

  method ScanDisk(pools: Pools, disk: Element, strict: bool, paths: set<Path>) returns (r: Result<set<Path>>)
    ensures r.Ok? == DiskFits(pools, disk, strict)
    ensures r.Ok? ==> r.value == paths + Values(DiskRefs(pools, disk))
  {
    r := ScanList(DiskRefs(pools, disk), paths);
    if r.Ok? && strict && !ReadOnlyCdrom(disk) {
      var complete := WalkChain(disk);
      if !complete {
        r := Err;
      }
    }
  }

  lemma ReferSnoc(pools: Pools, disks: seq<Element>, disk: Element)
    ensures forall p :: Refer(pools, disks + [disk], p) <==> Refer(pools, disks, p) || p in Values(DiskRefs(pools, disk))
  {
    assert disk in disks + [disk];
    forall p | Refer(pools, disks, p) ensures Refer(pools, disks + [disk], p) {
      var d :| d in disks && p in Values(DiskRefs(pools, d));
      assert d in disks + [disk];
    }
  }

  method ScanDisks(pools: Pools, disks: seq<Element>, strict: bool, paths: set<Path>) returns (r: Result<set<Path>>)
    ensures r.Ok? == AllFit(pools, disks, strict)
    ensures r.Ok? ==> forall p :: p in r.value <==> p in paths || Refer(pools, disks, p)
  {
    var found := paths;
    for i := 0 to |disks|
      invariant AllFit(pools, disks[..i], strict)
      invariant forall p :: p in found <==> p in paths || Refer(pools, disks[..i], p)
    {
      assert disks[i] in disks;
      assert disks[..i + 1] == disks[..i] + [disks[i]];
      var scanned := ScanDisk(pools, disks[i], strict, found);
      if scanned.Err? {
        return Err;
      }
      found := scanned.value;
      ReferSnoc(pools, disks[..i], disks[i]);
    }
    assert disks[..|disks|] == disks;
    r := Ok(found);
  }

  /**
   * referenced_disk_paths: it returns exactly when every domain but the excluded one has only
   * readable references and every strictly checked one only complete chains, and then it
   * returns exactly the paths those domains refer to.
   */
  method ReferencedDiskPaths(pools: Pools, guests: map<string, Guest>, exclude: Option<string>, all: bool,
                             strict: set<string>)
    returns (r: Result<set<Path>>)
    ensures r.Ok? == HostFits(pools, guests, exclude, all, strict)
    ensures r.Ok? ==> forall p :: p in r.value <==> HostRefers(pools, guests, exclude, p)
  {
    var paths: set<Path> := {};
    var todo := guests.Keys;
    while todo != {}
      invariant todo <= guests.Keys
      invariant forall u :: u in guests.Keys - todo && exclude != Some(u) ==>
                  AllFit(pools, Examined(guests[u]), Strict(u, all, strict))
      invariant forall p :: p in paths <==>
                  exists u :: u in guests.Keys - todo && exclude != Some(u) && Refer(pools, Examined(guests[u]), p)
      decreases todo
    {
      var u :| u in todo;
      ghost var done := guests.Keys - todo;
      todo := todo - {u};
      assert guests.Keys - todo == done + {u};
      if exclude == Some(u) {
        continue;
      }
      var scanned := ScanDisks(pools, Examined(guests[u]), Strict(u, all, strict), paths);
      if scanned.Err? {
        return Err;
      }
      paths := scanned.value;
    }
    assert guests.Keys - todo == guests.Keys;
    r := Ok(paths);
  }
}

/**
 * The disk part of domxml.build_domain_xml, held against what the delete path demands: what
 * the code builds it always agrees to delete.
 */
module Built {
  import opened Wrappers
  import opened Names
  import opened Paths
  import opened Xml
  import opened Disks

  function Source(path: string): Element {
    Node("source", map["file" := path], [])
  }

  function Backing(image: string): Element {
    Node("backingStore", map["type" := "file", "index" := "1"],
         [Node("format", map["type" := "qcow2"], []), Source(image), Node("backingStore", map[], [])])
  }

  function OverlayDisk(path: string, image: string): Element {
    Node("disk", map["type" := "file", "device" := "disk"],
         [Node("driver", map["name" := "qemu", "type" := "qcow2"], []), Source(path),
          Node("target", map["dev" := "vda", "bus" := "virtio"], []), Backing(image)])
  }

  function SeedDisk(path: string): Element {
    Node("disk", map["type" := "file", "device" := "disk"],
         [Node("driver", map["name" := "qemu", "type" := "raw"], []), Source(path),
          Node("target", map["dev" := "vdb", "bus" := "virtio"], []), Node("readonly", map[], [])])
  }

  /** The two disks of node `name`, whose volumes live in the pool directory `target`. */
  function BuiltDisks(target: string, name: string, image: string): seq<Element> {
    [OverlayDisk(JoinPath(target, VolumeName(name)), image), SeedDisk(JoinPath(target, SeedName(name)))]
  }

  /** The normal paths of the two volumes node h claims. */
  function ClaimPaths(target: string, prefix: string, h: string): set<Path> {
    var name := NodeName(prefix, h);
    {Below(target, VolumeName(name)), Below(target, SeedName(name))}
  }

  /** Config validation: the base image does not live in the pool's directory. */
  predicate Outside(target: string, image: string) {
    var t, i := Normalize(target), Normalize(image);
    !(t.slashes == i.slashes && |t.parts| < |i.parts| && i.parts[..|t.parts|] == t.parts)
  }

  function DirectSources(disks: seq<Element>): seq<Element> {
    if disks == [] then [] else Tagged(disks[0].children, "source") + DirectSources(disks[1..])
  }

  /** _delete's check that a definition holds exactly the two claimed disks. */
  predicate TwoDiskMatch(pools: Pools, disks: seq<Element>, paths: set<Path>) {
    var refs := SourcePaths(pools, DirectSources(disks));
    |disks| == 2 && |refs| == 2 && Readable(refs) && Values(refs) == paths
  }

  // ----- renditions -------------------------------------------------------------------

  /** libvirt may pin a source's index and policy, and nothing else. */
  predicate RendersSource(s: Element, path: string) {
    && s.tag == "source" && s.children == []
    && s.attrs.Keys - {"startupPolicy", "index"} == {"file"} && s.attrs["file"] == path
  }

  /** An element that neither is nor holds anything the scan looks for. */
  predicate Mute(e: Element) {
    e.tag !in {"source", "backingStore", "path"} && forall x :: x in Flatten(e.children) ==> x.tag !in {"source", "backingStore", "path"}
  }

  /** One source, a format, and otherwise children that say nothing of images: alias, address, target, ... */
  predicate RendersLayer(layer: Element, path: string, formatTag: string, kind: string) {
    && |Tagged(layer.children, "source")| == 1 && RendersSource(Tagged(layer.children, "source")[0], path)
    && Kind(First(layer, formatTag)) == Some(kind)
    && forall c :: c in layer.children ==> c.tag in {"source", "backingStore"} || Mute(c)
  }

  predicate RendersBacking(store: Element, image: string) {
    && RendersLayer(store, image, "format", "qcow2")
    && |Tagged(store.children, "backingStore")| == 1 && Terminator(Tagged(store.children, "backingStore")[0])
  }

  predicate RendersOverlay(disk: Element, path: string, image: string) {
    && !ReadOnlyCdrom(disk) && RendersLayer(disk, path, "driver", "qcow2")
    && |Tagged(disk.children, "backingStore")| == 1 && RendersBacking(Tagged(disk.children, "backingStore")[0], image)
  }

  /** libvirt spells out the end of a running raw disk's chain. */
  predicate RendersSeed(disk: Element, path: string) {
    && !ReadOnlyCdrom(disk) && RendersLayer(disk, path, "driver", "raw")
    && var stores := Tagged(disk.children, "backingStore");
       stores == [] || (|stores| == 1 && Terminator(stores[0]))
  }

  /** What libvirt may make, in either of its definitions, of the two disks a domain was defined with. */
  predicate Renders(disks: seq<Element>, target: string, name: string, image: string) {
    && |disks| == 2
    && RendersOverlay(disks[0], JoinPath(target, VolumeName(name)), image)
    && RendersSeed(disks[1], JoinPath(target, SeedName(name)))
  }

  lemma TaggedCons(e: Element, rest: seq<Element>, tag: string)
    ensures Tagged([e] + rest, tag) == if e.tag == tag then [e] + Tagged(rest, tag) else Tagged(rest, tag)
  {
    assert ([e] + rest)[1..] == rest;
  }

  function Only(e: Element, tag: string): seq<Element> {
    if e.tag == tag then [e] else []
  }

  lemma TaggedOne(e: Element, rest: seq<Element>, tag: string)
    ensures Tagged([e] + rest, tag) == Only(e, tag) + Tagged(rest, tag)
  {
    TaggedCons(e, rest, tag);
  }

  lemma TaggedTwo(a: Element, b: Element, rest: seq<Element>, tag: string)
    ensures Tagged([a, b] + rest, tag) == Only(a, tag) + Only(b, tag) + Tagged(rest, tag)
  {
    TaggedOne(b, rest, tag);
    TaggedOne(a, [b] + rest, tag);
    assert [a, b] + rest == [a] + ([b] + rest);
  }

  lemma TaggedFour(a: Element, b: Element, c: Element, d: Element, rest: seq<Element>, tag: string)
    ensures Tagged([a, b, c, d] + rest, tag) == Only(a, tag) + Only(b, tag) + Only(c, tag) + Only(d, tag) + Tagged(rest, tag)
  {
    hide Tagged, Only;
    TaggedTwo(c, d, rest, tag);
    TaggedTwo(a, b, [c, d] + rest, tag);
    assert [a, b, c, d] + rest == [a, b] + ([c, d] + rest);
  }

  lemma TaggedThree(a: Element, b: Element, c: Element, tag: string)
    ensures Tagged([a, b, c], tag) == Only(a, tag) + Only(b, tag) + Only(c, tag)
  {
    assert [a, b, c] == [a] + ([b] + ([c] + []));
    TaggedOne(c, [], tag);
    TaggedOne(b, [c] + [], tag);
    TaggedOne(a, [b] + ([c] + []), tag);
  }

  lemma TaggedPlain(d: seq<Element>, tag: string)
    requires |d| == 4
    ensures Tagged(d, tag) == Only(d[0], tag) + Only(d[1], tag) + Only(d[2], tag) + Only(d[3], tag)
  {
    assert Tagged([], tag) == [];
    hide Tagged, Only;
    assert d == [d[0], d[1], d[2], d[3]] + [];
    TaggedFour(d[0], d[1], d[2], d[3], [], tag);
  }

  lemma PlainBacking(image: string)
    ensures RendersBacking(Backing(image), image)
  {
    var b := Backing(image).children;
    assert b == [b[0], b[1], b[2]];
    TaggedThree(b[0], b[1], b[2], "source");
    TaggedThree(b[0], b[1], b[2], "backingStore");
    TaggedThree(b[0], b[1], b[2], "format");
    PlainSource(image);
  }

  lemma PlainSource(path: string)
    ensures RendersSource(Source(path), path)
  {
    assert Source(path).attrs.Keys - {"startupPolicy", "index"} == {"file"} by {
      assert "file" != "index" && "file" != "startupPolicy";
    }
  }

  lemma LeafIsMute(e: Element)
    requires e.children == [] && e.tag !in {"source", "backingStore", "path"}
    ensures Mute(e)
  {
  }

  lemma OverlayParts(path: string, image: string)
    ensures var d := OverlayDisk(path, image).children;
            && Tagged(d, "source") == [Source(path)] && Tagged(d, "backingStore") == [Backing(image)]
            && Tagged(d, "driver") == [d[0]]
  {
    hide Tagged, Backing, Source;
    var d := OverlayDisk(path, image).children;
    assert Backing(image).tag == "backingStore" && Source(path).tag == "source" by {
      BackingTags(path, image);
    }
    OneOfFour(d, "source", 1);
    OneOfFour(d, "backingStore", 3);
    OneOfFour(d, "driver", 0);
  }

  lemma BackingTags(path: string, image: string)
    ensures Backing(image).tag == "backingStore" && Source(path).tag == "source"
  {
  }

  lemma PlainOverlay(path: string, image: string)
    ensures RendersOverlay(OverlayDisk(path, image), path, image)
  {
    hide RendersSource, RendersBacking, Tagged, Flatten, Mute;
    var disk := OverlayDisk(path, image);
    OverlayParts(path, image);
    BackingTags(path, image);
    PlainSource(path);
    PlainBacking(image);
    LeafIsMute(disk.children[0]);
    LeafIsMute(disk.children[2]);
  }

  lemma SeedParts(path: string)
    ensures var d := SeedDisk(path).children;
            Tagged(d, "source") == [Source(path)] && Tagged(d, "backingStore") == [] && Tagged(d, "driver") == [d[0]]
  {
    hide Tagged, Source;
    var d := SeedDisk(path).children;
    BackingTags(path, path);
    OneOfFour(d, "source", 1);
    OneOfFour(d, "driver", 0);
    NothingTagged(d, "backingStore");
  }

  lemma OneOfFour(d: seq<Element>, tag: string, k: nat)
    requires |d| == 4 && k < 4 && forall i :: 0 <= i < 4 ==> (d[i].tag == tag <==> i == k)
    ensures Tagged(d, tag) == [d[k]]
  {
    hide Tagged;
    TaggedPlain(d, tag);
  }

  lemma {:induction false} NothingTagged(es: seq<Element>, tag: string)
    requires forall e :: e in es ==> e.tag != tag
    ensures Tagged(es, tag) == []
  {
    if es != [] {
      assert es[0] in es;
      NothingTagged(es[1..], tag);
    }
  }

  lemma PlainSeed(path: string)
    ensures RendersSeed(SeedDisk(path), path)
  {
    hide RendersSource, Tagged, Flatten, Mute;
    var disk := SeedDisk(path);
    SeedParts(path);
    BackingTags(path, path);
    PlainSource(path);
    LeafIsMute(disk.children[0]);
    LeafIsMute(disk.children[2]);
    LeafIsMute(disk.children[3]);
  }

  /** The definition as it was written renders itself. */
  lemma BuiltRenders(target: string, name: string, image: string)
    ensures Renders(BuiltDisks(target, name, image), target, name, image)
  {
    hide RendersOverlay, RendersSeed, OverlayDisk, SeedDisk;
    PlainOverlay(JoinPath(target, VolumeName(name)), image);
    PlainSeed(JoinPath(target, SeedName(name)));
  }

  // ----- what a rendition refers to ---------------------------------------------------

  lemma SourceRef(pools: Pools, s: Element, path: string)
    requires RendersSource(s, path) && Absolute(path)
    ensures SourcePath(pools, s) == Ok(Normalize(path))
  {
  }

  /** Below a mute element nothing is found; below a layer only its source, its store and what is below that. */
  lemma FoundBelow(layer: Element, path: string, formatTag: string, kind: string, x: Element)
    requires RendersLayer(layer, path, formatTag, kind) && x in Flatten(layer.children)
    requires x.tag in {"source", "backingStore"}
    ensures x in Tagged(layer.children, x.tag)
            || exists store :: store in Tagged(layer.children, "backingStore") && x in Flatten(store.children)
  {
    var k := FlattenSplits(layer.children, x);
    var c := layer.children[k];
    assert c in layer.children && (c.tag in {"source", "backingStore"} || Mute(c));
    SourcesAreLeaves(layer, path, formatTag, kind);
    hide RendersSource, Kind, First, Tagged, Flatten;
    assert c.tag == "backingStore" ==> c in Tagged(layer.children, "backingStore");
  }

  lemma SourcesAreLeaves(layer: Element, path: string, formatTag: string, kind: string)
    requires RendersLayer(layer, path, formatTag, kind)
    ensures forall c :: c in layer.children && c.tag == "source" ==> Flatten(c.children) == []
  {
    hide Kind, First, Mute;
    var sources := Tagged(layer.children, "source");
    forall c | c in layer.children && c.tag == "source" ensures Flatten(c.children) == [] {
      assert c in sources;
    }
  }

  lemma {:induction false} FlattenSplits(es: seq<Element>, x: Element) returns (k: nat)
    requires x in Flatten(es)
    ensures k < |es| && (x == es[k] || x in Flatten(es[k].children))
  {
    if x == es[0] || x in Flatten(es[0].children) {
      k := 0;
    } else {
      var j := FlattenSplits(es[1..], x);
      k := j + 1;
    }
  }

  lemma ChildIsFound(layer: Element, tag: string, x: Element)
    requires x in Tagged(layer.children, tag)
    ensures x in Flatten(layer.children) && forall y :: y in Flatten(x.children) ==> y in Flatten(layer.children)
  {
    var k :| 0 <= k < |layer.children| && layer.children[k] == x;
    FlattenContains(layer.children, k);
  }

  /** No <path> is written below a store. */
  lemma NoPaths(layer: Element, path: string, formatTag: string, kind: string)
    requires RendersLayer(layer, path, formatTag, kind)
    ensures Tagged(layer.children, "path") == []
  {
    hide RendersSource, Kind, First, Flatten;
    NothingTagged(layer.children, "path");
  }

  lemma {:induction false} NoBackingPaths(stores: seq<Element>)
    requires forall store :: store in stores ==> Tagged(store.children, "path") == []
    ensures BackingPaths(stores) == []
  {
    if stores != [] {
      assert stores[0] in stores;
      NoBackingPaths(stores[1..]);
    }
  }

  /** What a disk refers to, once every source below it is known to be one of two and no store has a <path>. */
  lemma RefsOfSources(pools: Pools, disk: Element, p: string, q: string)
    requires Absolute(p) && Absolute(q)
    requires forall x :: x in Flatten(disk.children) && x.tag == "source" ==> RendersSource(x, p) || RendersSource(x, q)
    requires exists x :: x in Flatten(disk.children) && RendersSource(x, p)
    requires exists x :: x in Flatten(disk.children) && RendersSource(x, q)
    requires forall x :: x in Flatten(disk.children) && x.tag == "backingStore" ==> Tagged(x.children, "path") == []
    ensures Readable(DiskRefs(pools, disk)) && Values(DiskRefs(pools, disk)) == {Normalize(p), Normalize(q)}
  {
    hide SourcePath, Normalize, Absolute, Flatten, RendersSource, Tagged;
    var found := Tagged(Flatten(disk.children), "source");
    NoBackingPaths(Tagged(Flatten(disk.children), "backingStore"));
    assert TextPaths([]) == [] && DiskRefs(pools, disk) == SourcePaths(pools, found);
    forall x | x in found ensures SourcePath(pools, x) in {Ok(Normalize(p)), Ok(Normalize(q))} {
      KnownRef(pools, x, p, q);
    }
    var x :| x in Flatten(disk.children) && RendersSource(x, p);
    var y :| y in Flatten(disk.children) && RendersSource(y, q);
    KnownRef(pools, x, p, p);
    KnownRef(pools, y, q, q);
    PathsOfSources(pools, found, x, y, Normalize(p), Normalize(q));
  }

  lemma PathsOfSources(pools: Pools, found: seq<Element>, x: Element, y: Element, p: Path, q: Path)
    requires forall e :: e in found ==> SourcePath(pools, e) in {Ok(p), Ok(q)}
    requires x in found && SourcePath(pools, x) == Ok(p) && y in found && SourcePath(pools, y) == Ok(q)
    ensures Readable(SourcePaths(pools, found)) && Values(SourcePaths(pools, found)) == {p, q}
  {
    hide SourcePath, SourcePaths;
    var refs := SourcePaths(pools, found);
    forall r | r in refs ensures r in {Ok(p), Ok(q)} {
      var i :| 0 <= i < |refs| && refs[i] == r;
      assert found[i] in found;
    }
    var i :| 0 <= i < |found| && found[i] == x;
    var j :| 0 <= j < |found| && found[j] == y;
    assert refs[i] in refs && refs[j] in refs;
    assert p in Values(refs) && q in Values(refs);
  }

  lemma KnownRef(pools: Pools, x: Element, p: string, q: string)
    requires Absolute(p) && Absolute(q) && (RendersSource(x, p) || RendersSource(x, q))
    ensures x.tag == "source" && SourcePath(pools, x) in {Ok(Normalize(p)), Ok(Normalize(q))}
  {
    if RendersSource(x, p) {
      SourceRef(pools, x, p);
    } else {
      SourceRef(pools, x, q);
    }
  }

  lemma TerminatorIsLeaf(e: Element)
    requires Terminator(e)
    ensures e.children == [] && Flatten(e.children) == [] && Tagged(e.children, "path") == []
  {
  }

  lemma BackingFound(store: Element, image: string, x: Element)
    requires RendersBacking(store, image) && x in Flatten(store.children) && x.tag in {"source", "backingStore"}
    ensures x.tag == "source" ==> RendersSource(x, image)
    ensures x.tag == "backingStore" ==> Tagged(x.children, "path") == []
  {
    hide RendersSource, Terminator, Flatten, Kind, First, Tagged, Mute;
    FoundBelow(store, image, "format", "qcow2", x);
    TerminatorIsLeaf(Tagged(store.children, "backingStore")[0]);
  }

  lemma OverlayFound(disk: Element, path: string, image: string, x: Element)
    requires RendersOverlay(disk, path, image) && x in Flatten(disk.children) && x.tag in {"source", "backingStore"}
    ensures x.tag == "source" ==> RendersSource(x, path) || RendersSource(x, image)
    ensures x.tag == "backingStore" ==> Tagged(x.children, "path") == []
  {
    hide RendersSource, Terminator, Flatten, Kind, First, Tagged, Mute, ReadOnlyCdrom;
    var store := Tagged(disk.children, "backingStore")[0];
    FoundBelow(disk, path, "driver", "qcow2", x);
    if x in Flatten(store.children) {
      BackingFound(store, image, x);
    } else if x.tag == "backingStore" {
      NoPaths(store, image, "format", "qcow2");
    }
  }

  lemma OverlayHolds(disk: Element, path: string, image: string)
    requires RendersOverlay(disk, path, image)
    ensures exists x :: x in Flatten(disk.children) && RendersSource(x, path)
    ensures exists x :: x in Flatten(disk.children) && RendersSource(x, image)
  {
    hide RendersSource, Terminator, Flatten, Kind, First, Tagged, Mute, ReadOnlyCdrom;
    var store := Tagged(disk.children, "backingStore")[0];
    ChildIsFound(disk, "source", Tagged(disk.children, "source")[0]);
    ChildIsFound(disk, "backingStore", store);
    ChildIsFound(store, "source", Tagged(store.children, "source")[0]);
  }

  lemma OverlayRefs(pools: Pools, disk: Element, path: string, image: string)
    requires RendersOverlay(disk, path, image) && Absolute(path) && Absolute(image)
    ensures Readable(DiskRefs(pools, disk)) && Values(DiskRefs(pools, disk)) == {Normalize(path), Normalize(image)}
  {
    hide RendersOverlay, RendersSource, DiskRefs, Normalize, Absolute, Flatten, Tagged, Readable, Values;
    forall x | x in Flatten(disk.children) && x.tag in {"source", "backingStore"}
      ensures x.tag == "source" ==> RendersSource(x, path) || RendersSource(x, image)
      ensures x.tag == "backingStore" ==> Tagged(x.children, "path") == []
    {
      OverlayFound(disk, path, image, x);
    }
    OverlayHolds(disk, path, image);
    RefsOfSources(pools, disk, path, image);
  }

  lemma SeedFound(disk: Element, path: string, x: Element)
    requires RendersSeed(disk, path) && x in Flatten(disk.children) && x.tag in {"source", "backingStore"}
    ensures x.tag == "source" ==> RendersSource(x, path)
    ensures x.tag == "backingStore" ==> Tagged(x.children, "path") == []
  {
    hide RendersSource, Terminator, Flatten, Kind, First, Tagged, Mute, ReadOnlyCdrom;
    var stores := Tagged(disk.children, "backingStore");
    if stores != [] {
      TerminatorIsLeaf(stores[0]);
    }
    FoundBelow(disk, path, "driver", "raw", x);
  }

  lemma SeedRefs(pools: Pools, disk: Element, path: string)
    requires RendersSeed(disk, path) && Absolute(path)
    ensures Readable(DiskRefs(pools, disk)) && Values(DiskRefs(pools, disk)) == {Normalize(path)}
  {
    hide RendersSource, DiskRefs, Normalize, Absolute, Terminator, Kind, First, ReadOnlyCdrom, Mute, Tagged, Flatten, Readable, Values;
    forall x | x in Flatten(disk.children) && x.tag in {"source", "backingStore"}
      ensures x.tag == "source" ==> RendersSource(x, path)
      ensures x.tag == "backingStore" ==> Tagged(x.children, "path") == []
    {
      SeedFound(disk, path, x);
    }
    ChildIsFound(disk, "source", Tagged(disk.children, "source")[0]);
    RefsOfSources(pools, disk, path, path);
  }

  /** The chain of an overlay: the base image and the terminator. */
  lemma OverlayIsComplete(disk: Element, path: string, image: string)
    requires RendersOverlay(disk, path, image)
    ensures CompleteChain(disk, First(disk, "driver"))
  {
    hide RendersSource, Terminator, Kind, First, ReadOnlyCdrom, Mute;
    var store := Tagged(disk.children, "backingStore")[0];
    assert ChainBelow(Tagged(store.children, "backingStore")[0]);
    assert CompleteChain(store, First(store, "format"));
    assert ChainBelow(store);
  }

  lemma SeedIsComplete(disk: Element, path: string)
    requires RendersSeed(disk, path)
    ensures CompleteChain(disk, First(disk, "driver"))
  {
    hide RendersSource, Terminator, Kind, First, ReadOnlyCdrom, Mute;
    var stores := Tagged(disk.children, "backingStore");
    if stores != [] {
      assert ChainBelow(stores[0]);
    }
  }

  // ----- a node's disks ---------------------------------------------------------------

  /** A scope of this deployment: an absolute pool directory and an acceptable prefix. */
  predicate Scope(target: string, prefix: string) {
    Absolute(target) && ValidPrefix(prefix)
  }

  lemma ClaimNamesArePlain(prefix: string, h: string)
    requires ValidPrefix(prefix) && Hex32(h)
    ensures PlainName(VolumeName(NodeName(prefix, h))) && PlainName(SeedName(NodeName(prefix, h)))
  {
    var name := NodeName(prefix, h);
    NodeNameIsLabel(prefix, h);
    forall suffix | suffix in {".qcow2", ".iso"} ensures PlainName(name + suffix) {
      forall i | 0 <= i < |name + suffix| ensures (name + suffix)[i] != '/' {
        if i < |name| {
          assert Alphanumeric(name[i]) || name[i] == '-';
        }
      }
    }
  }

  lemma BuiltPaths(target: string, prefix: string, h: string)
    requires Scope(target, prefix) && Hex32(h)
    ensures var name := NodeName(prefix, h);
            forall v :: v in {VolumeName(name), SeedName(name)} ==>
              Absolute(JoinPath(target, v)) && Normalize(JoinPath(target, v)) == Below(target, v)
  {
    ClaimNamesArePlain(prefix, h);
    NormalizeJoin(target, VolumeName(NodeName(prefix, h)));
    NormalizeJoin(target, SeedName(NodeName(prefix, h)));
  }

  lemma ReferTwo(pools: Pools, a: Element, b: Element, p: Path)
    ensures Refer(pools, [a, b], p) <==> p in Values(DiskRefs(pools, a)) || p in Values(DiskRefs(pools, b))
  {
    assert [a, b][0] == a && [a, b][1] == b;
  }

  lemma DirectTwo(a: Element, b: Element)
    ensures DirectSources([a, b]) == Tagged(a.children, "source") + Tagged(b.children, "source")
  {
    assert [a, b][1..] == [b] && [b][1..] == [];
    assert DirectSources([b]) == Tagged(b.children, "source") + DirectSources([]);
  }

  lemma TwoSources(pools: Pools, a: Element, b: Element, p: string, q: string)
    requires Absolute(p) && Absolute(q)
    requires |Tagged(a.children, "source")| == 1 && RendersSource(Tagged(a.children, "source")[0], p)
    requires |Tagged(b.children, "source")| == 1 && RendersSource(Tagged(b.children, "source")[0], q)
    ensures TwoDiskMatch(pools, [a, b], {Normalize(p), Normalize(q)})
  {
    hide RendersSource, SourcePath, Normalize, Absolute, DirectSources;
    var s, t := Tagged(a.children, "source")[0], Tagged(b.children, "source")[0];
    DirectTwo(a, b);
    assert DirectSources([a, b]) == [s, t];
    SourceRef(pools, s, p);
    SourceRef(pools, t, q);
    var refs := SourcePaths(pools, [s, t]);
    assert refs == [Ok(Normalize(p)), Ok(Normalize(q))];
    assert refs[0] in refs && refs[1] in refs;
  }

  /** disks are exactly the claimed ones, pass the strict scan, and refer only to the claims and the image. */
  ghost predicate Passes(pools: Pools, disks: seq<Element>, claims: set<Path>, image: Path) {
    && TwoDiskMatch(pools, disks, claims)
    && AllFit(pools, disks, true)
    && forall p :: Refer(pools, disks, p) <==> p in claims + {image}
  }

  lemma OneSource(a: Element, b: Element, overlay: string, image: string, seed: string)
    requires RendersOverlay(a, overlay, image) && RendersSeed(b, seed)
    ensures !ReadOnlyCdrom(a) && !ReadOnlyCdrom(b)
    ensures |Tagged(a.children, "source")| == 1 && RendersSource(Tagged(a.children, "source")[0], overlay)
    ensures |Tagged(b.children, "source")| == 1 && RendersSource(Tagged(b.children, "source")[0], seed)
  {
  }

  lemma RenditionPasses(pools: Pools, a: Element, b: Element, overlay: string, image: string, seed: string)
    requires RendersOverlay(a, overlay, image) && RendersSeed(b, seed)
    requires Absolute(overlay) && Absolute(seed) && Absolute(image)
    ensures Passes(pools, [a, b], {Normalize(overlay), Normalize(seed)}, Normalize(image))
  {
    hide RendersOverlay, RendersSeed, RendersSource, DiskRefs, Normalize, Absolute, First, CompleteChain, TwoDiskMatch,
      ReadOnlyCdrom, Refer, Readable, Values;
    OverlayRefs(pools, a, overlay, image);
    SeedRefs(pools, b, seed);
    OverlayIsComplete(a, overlay, image);
    SeedIsComplete(b, seed);
    OneSource(a, b, overlay, image, seed);
    TwoSources(pools, a, b, overlay, seed);
    forall p ensures Refer(pools, [a, b], p) <==> p in {Normalize(overlay), Normalize(seed)} + {Normalize(image)} {
      ReferTwo(pools, a, b, p);
    }
  }

  /** Whatever libvirt made of a built definition is the two claimed disks, and passes the strict scan. */
  lemma BuiltDisksPass(pools: Pools, disks: seq<Element>, target: string, prefix: string, h: string, image: string)
    requires Scope(target, prefix) && Hex32(h) && Absolute(image) && Renders(disks, target, NodeName(prefix, h), image)
    ensures Passes(pools, disks, ClaimPaths(target, prefix, h), Normalize(image))
  {
    hide RendersOverlay, RendersSeed, Passes, NodeName, Absolute;
    var name := NodeName(prefix, h);
    BuiltPaths(target, prefix, h);
    RenditionPasses(pools, disks[0], disks[1], JoinPath(target, VolumeName(name)), image, JoinPath(target, SeedName(name)));
    assert disks == [disks[0], disks[1]];
  }

  /** A claim is never another node's claim, nor a base image outside the pool. */
  lemma ClaimPathsAreExclusive(target: string, prefix: string, u: string, v: string, image: string)
    requires Scope(target, prefix) && Hex32(u) && Hex32(v) && Outside(target, image)
    ensures Normalize(image) !in ClaimPaths(target, prefix, u)
    ensures u != v ==> ClaimPaths(target, prefix, u) !! ClaimPaths(target, prefix, v)
  {
    ClaimsDisjoint(prefix, u, prefix, v);
    var t := Normalize(target);
    forall a | a in Claims(prefix, u) ensures Normalize(image) != Below(target, a) {
      assert (t.parts + [a])[..|t.parts|] == t.parts;
    }
    forall a, b | a in Claims(prefix, u) && b in Claims(prefix, v) && Below(target, a) == Below(target, b) ensures a == b {
      assert (t.parts + [a])[|t.parts|] == (t.parts + [b])[|t.parts|];
    }
    var nu, nv := NodeName(prefix, u), NodeName(prefix, v);
    assert VolumeName(nu) in Claims(prefix, u) && SeedName(nu) in Claims(prefix, u);
    assert VolumeName(nv) in Claims(prefix, v) && SeedName(nv) in Claims(prefix, v);
  }

  /** The guest a node's domain is, given the base image its overlay was built on. */
  predicate IsBuilt(g: Guest, target: string, prefix: string, h: string, image: string) {
    && g.persistent
    && Renders(g.config, target, NodeName(prefix, h), image) && Renders(g.live, target, NodeName(prefix, h), image)
  }

  // ----- deleting next to peers -------------------------------------------------------

  /**
   * For any set of nodes, whatever base images outside the pool they were built on and whichever
   * of them run: each passes the two-disk match, the strict scan of its peers succeeds, and no peer
   * refers to its claims. So nodes never block each other's deletion.
   */
  lemma PeersNeverBlock(pools: Pools, target: string, prefix: string, guests: map<string, Guest>,
                        images: map<string, string>, u: string)
    requires Scope(target, prefix) && u in guests && guests.Keys == images.Keys
    requires forall v :: v in guests ==> GoodNode(guests[v], target, prefix, v, images[v])
    ensures TwoDiskMatch(pools, guests[u].config, ClaimPaths(target, prefix, u))
    ensures TwoDiskMatch(pools, guests[u].live, ClaimPaths(target, prefix, u))
    ensures HostFits(pools, guests, Some(u), false, guests.Keys)
    ensures forall p :: p in ClaimPaths(target, prefix, u) ==> !HostRefers(pools, guests, Some(u), p)
  {
    hide Renders, AllFit, Refer, TwoDiskMatch, PeerIsHarmless, Scope, Absolute, Outside, ClaimPaths;
    assert GoodNode(guests[u], target, prefix, u, images[u]);
    BuiltDisksPass(pools, guests[u].config, target, prefix, u, images[u]);
    BuiltDisksPass(pools, guests[u].live, target, prefix, u, images[u]);
    forall v | v in guests && v != u
      ensures PeerIsHarmless(pools, target, prefix, guests[v], u)
    {
      PeerPasses(pools, target, prefix, guests[v], u, v, images[v]);
    }
    HarmlessHost(pools, target, prefix, guests, u);
  }

  lemma HarmlessHost(pools: Pools, target: string, prefix: string, guests: map<string, Guest>, u: string)
    requires forall v :: v in guests && v != u ==> PeerIsHarmless(pools, target, prefix, guests[v], u)
    ensures HostFits(pools, guests, Some(u), false, guests.Keys)
    ensures forall p :: p in ClaimPaths(target, prefix, u) ==> !HostRefers(pools, guests, Some(u), p)
  {
  }

  predicate GoodNode(g: Guest, target: string, prefix: string, h: string, image: string) {
    Hex32(h) && Absolute(image) && Outside(target, image) && IsBuilt(g, target, prefix, h, image)
  }

  /** g passes the strict scan and refers to none of u's claims. */
  predicate PeerIsHarmless(pools: Pools, target: string, prefix: string, g: Guest, u: string) {
    && AllFit(pools, Examined(g), true)
    && forall p :: p in ClaimPaths(target, prefix, u) ==> !Refer(pools, Examined(g), p)
  }

  lemma PeerPasses(pools: Pools, target: string, prefix: string, g: Guest, u: string, v: string, image: string)
    requires Scope(target, prefix) && Hex32(u) && u != v && GoodNode(g, target, prefix, v, image)
    ensures PeerIsHarmless(pools, target, prefix, g, u)
  {
    hide Renders, AllFit, Refer, TwoDiskMatch;
    BuiltDisksPass(pools, g.config, target, prefix, v, image);
    BuiltDisksPass(pools, g.live, target, prefix, v, image);
    ClaimPathsAreExclusive(target, prefix, u, v, image);
    ExaminedBoth(pools, g);
  }

  /** What holds of both definitions holds of what the scan reads. */
  lemma ExaminedBoth(pools: Pools, g: Guest)
    requires g.persistent && AllFit(pools, g.config, true) && AllFit(pools, g.live, true)
    ensures AllFit(pools, Examined(g), true)
    ensures forall p :: Refer(pools, Examined(g), p) ==> Refer(pools, g.config, p) || Refer(pools, g.live, p)
  {
  }
}

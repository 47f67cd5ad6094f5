/** names.py: node, overlay and seed names, and the UUID text they are built from. */
module Names {
  import opened Wrappers

  predicate HexDigit(c: char) {
    '0' <= c <= '9' || 'a' <= c <= 'f'
  }

  predicate AllHex(s: string) {
    forall i :: 0 <= i < |s| ==> HexDigit(s[i])
  }

  /** UUID(...).hex: the 32 digits that identify a node. */
  predicate Hex32(h: string) {
    |h| == 32 && AllHex(h)
  }

  /** str(UUID): the 8-4-4-4-12 form of section 4 of RFC 9562. */
  function UuidText(h: string): string
    requires |h| == 32
  {
    h[..8] + "-" + h[8..12] + "-" + h[12..16] + "-" + h[16..20] + "-" + h[20..]
  }

  function Lower(c: char): char {
    if 'A' <= c <= 'F' then c - 'A' + 'a' else c
  }

  /** The digits of s in lower case, hyphens dropped. */
  function Digits(s: string): string {
    if s == "" then ""
    else if s[0] == '-' then Digits(s[1..])
    else [Lower(s[0])] + Digits(s[1..])
  }

  /** UUID(s).hex, or a ValueError. */
  function ParseUuid(s: string): (r: Result<string>)
    ensures r.Ok? ==> Hex32(r.value)
  {
    if Hex32(Digits(s)) then Ok(Digits(s)) else Err
  }

  /** str(UUID(s)) == s. */
  predicate Canonical(s: string) {
    ParseUuid(s).Ok? && UuidText(ParseUuid(s).value) == s
  }

  lemma {:induction false} DigitsAppend(a: string, b: string)
    ensures Digits(a + b) == Digits(a) + Digits(b)
  {
    if a == "" {
      assert a + b == b;
    } else {
      assert (a + b)[1..] == a[1..] + b;
      DigitsAppend(a[1..], b);
    }
  }

  lemma {:induction false} DigitsOfHex(s: string)
    requires AllHex(s)
    ensures Digits(s) == s
  {
    if s != "" {
      DigitsOfHex(s[1..]);
    }
  }

  lemma DigitsOfGroups(a: string, b: string)
    requires AllHex(a)
    ensures Digits(a + "-" + b) == a + Digits(b)
  {
    var tail := "-" + b;
    assert tail[0] == '-' && tail[1..] == b;
    assert a + "-" + b == a + tail;
    DigitsAppend(a, tail);
    DigitsOfHex(a);
  }

  /** Reading a UUID's text gives the UUID back, so its text is canonical. */
  lemma UuidRoundTrip(h: string)
    requires Hex32(h)
    ensures ParseUuid(UuidText(h)) == Ok(h) && Canonical(UuidText(h))
  {
    var e := h[20..];
    var d := h[16..20] + "-" + e;
    var c := h[12..16] + "-" + d;
    var b := h[8..12] + "-" + c;
    assert UuidText(h) == h[..8] + "-" + b;
    DigitsOfGroups(h[..8], b);
    DigitsOfGroups(h[8..12], c);
    DigitsOfGroups(h[12..16], d);
    DigitsOfGroups(h[16..20], e);
    DigitsOfHex(e);
    assert h[..8] + (h[8..12] + (h[12..16] + (h[16..20] + e))) == h;
  }

  // ----- labels -----------------------------------------------------------------------

  const MAX_LABEL_LEN := 63
  const SUFFIX_LEN := 33
  const MAX_PREFIX_LEN := MAX_LABEL_LEN - SUFFIX_LEN

  predicate Alphanumeric(c: char) {
    'a' <= c <= 'z' || '0' <= c <= '9'
  }

  /** A host name label (section 2.1 of RFC 1123) in lower case. */
  predicate Label(s: string) {
    && s != "" && Alphanumeric(s[0]) && Alphanumeric(s[|s| - 1])
    && forall i :: 0 <= i < |s| ==> Alphanumeric(s[i]) || s[i] == '-'
  }

  predicate ValidPrefix(prefix: string) {
    Label(prefix) && |prefix| <= MAX_PREFIX_LEN
  }

  function NodeName(prefix: string, h: string): string {
    prefix + "-" + h
  }

  function VolumeName(name: string): string {
    name + ".qcow2"
  }

  function SeedName(name: string): string {
    name + ".iso"
  }

  /** The two volumes node h of this scope claims. */
  function Claims(prefix: string, h: string): set<string> {
    {VolumeName(NodeName(prefix, h)), SeedName(NodeName(prefix, h))}
  }

  /** volume_pattern(prefix).fullmatch(s). */
  predicate VolumePattern(prefix: string, s: string) {
    && |prefix| + SUFFIX_LEN <= |s|
    && s[..|prefix|] == prefix && s[|prefix|] == '-'
    && Hex32(s[|prefix| + 1..|prefix| + SUFFIX_LEN])
    && s[|prefix| + SUFFIX_LEN..] in {".qcow2", ".iso"}
  }

  predicate EndsWith(s: string, suffix: string) {
    |suffix| <= |s| && s[|s| - |suffix|..] == suffix
  }

  /** A prefix the deployment accepts always yields a label of at most 63 octets, and no longer one does. */
  lemma NodeNameIsLabel(prefix: string, h: string)
    requires Hex32(h) && Label(prefix)
    ensures Label(NodeName(prefix, h))
    ensures |NodeName(prefix, h)| <= MAX_LABEL_LEN <==> ValidPrefix(prefix)
  {
    var name := NodeName(prefix, h);
    forall i | 0 <= i < |name|
      ensures name[i] == if i < |prefix| then prefix[i] else if i == |prefix| then '-' else h[i - |prefix| - 1] {
    }
  }

  lemma ClaimsMatchPattern(prefix: string, h: string)
    requires Hex32(h)
    ensures VolumePattern(prefix, VolumeName(NodeName(prefix, h))) && EndsWith(VolumeName(NodeName(prefix, h)), ".qcow2")
    ensures VolumePattern(prefix, SeedName(NodeName(prefix, h))) && EndsWith(SeedName(NodeName(prefix, h)), ".iso")
  {
    forall suffix | suffix in {".qcow2", ".iso"}
      ensures VolumePattern(prefix, NodeName(prefix, h) + suffix) && EndsWith(NodeName(prefix, h) + suffix, suffix)
    {
      var s := NodeName(prefix, h) + suffix;
      assert s[..|prefix|] == prefix;
      assert s[|prefix| + 1..|prefix| + SUFFIX_LEN] == h;
      assert s[|prefix| + SUFFIX_LEN..] == suffix;
      assert s[|s| - |suffix|..] == suffix;
    }
  }

  /** The pattern matches nothing but volume names of nodes of this scope. */
  lemma PatternIsExact(prefix: string, s: string)
    ensures VolumePattern(prefix, s) <==> exists h :: Hex32(h) && s in Claims(prefix, h)
  {
    forall h | Hex32(h) && s in Claims(prefix, h) ensures VolumePattern(prefix, s) {
      ClaimsMatchPattern(prefix, h);
    }
    if VolumePattern(prefix, s) {
      var h := s[|prefix| + 1..|prefix| + SUFFIX_LEN];
      var suffix := s[|prefix| + SUFFIX_LEN..];
      assert s == s[..|prefix|] + [s[|prefix|]] + h + suffix;
      assert s == NodeName(prefix, h) + suffix;
      assert s in Claims(prefix, h);
    }
  }

  /** Two claims are equal only if the scope, the node and the kind of volume all are. */
  lemma ClaimDeterminesNode(p1: string, h1: string, x1: string, p2: string, h2: string, x2: string)
    requires |h1| == |h2| == 32
    requires x1 in {".qcow2", ".iso"} && x2 in {".qcow2", ".iso"}
    requires NodeName(p1, h1) + x1 == NodeName(p2, h2) + x2
    ensures p1 == p2 && h1 == h2 && x1 == x2
  {
    var s := NodeName(p1, h1) + x1;
    assert s[|s| - 1] == x1[|x1| - 1] == x2[|x2| - 1];
    assert x1 == x2;
    assert |p1| == |p2|;
    assert p1 == s[..|p1|] == s[..|p2|] == p2;
    assert h1 == s[|p1| + 1..|p1| + 33] == h2;
  }

  /** Nodes never share a claim, whatever scopes they belong to; a node's own two are distinct. */
  lemma ClaimsDisjoint(p1: string, h1: string, p2: string, h2: string)
    requires |h1| == |h2| == 32
    ensures (p1, h1) != (p2, h2) ==> Claims(p1, h1) !! Claims(p2, h2)
    ensures VolumeName(NodeName(p1, h1)) != SeedName(NodeName(p1, h1))
  {
    forall x1, x2 | x1 in {".qcow2", ".iso"} && x2 in {".qcow2", ".iso"}
      ensures NodeName(p1, h1) + x1 == NodeName(p2, h2) + x2 ==> p1 == p2 && h1 == h2 && x1 == x2
    {
      if NodeName(p1, h1) + x1 == NodeName(p2, h2) + x2 {
        ClaimDeterminesNode(p1, h1, x1, p2, h2, x2);
      }
    }
    var n1, n2 := NodeName(p1, h1), NodeName(p2, h2);
    assert VolumeName(n1) == n1 + ".qcow2" && SeedName(n1) == n1 + ".iso";
    assert VolumeName(n2) == n2 + ".qcow2" && SeedName(n2) == n2 + ".iso";
    if VolumeName(n1) == SeedName(n1) {
      ClaimDeterminesNode(p1, h1, ".qcow2", p1, h1, ".iso");
    }
  }
}

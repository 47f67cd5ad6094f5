/** seed.build_seed_payload, and what the guest's metadata and valid_config make of its five files. */
module Seed {
  import opened Wrappers
  import opened Text
  import opened Names

  datatype Item = Schema | Uuid | Hostname | Role | ConfigYaml

  type Payload = map<Item, string>

  const FIELDS := [Schema, Uuid, Hostname, Role]

  const MAX_CONFIG := 131072

  function Spelled(uuid: string, hostname: string, role: string, config: string): Payload {
    map[Schema := "1\n", Uuid := uuid + "\n", Hostname := hostname + "\n", Role := role + "\n", ConfigYaml := config]
  }

  /** build_seed_payload; its regular expression for the host name is Label with the length bound. */
  function BuildSeedPayload(uuid: string, hostname: string, role: string, config: string): Result<Payload> {
    if !Canonical(uuid) then Err
    else if !(Label(hostname) && |hostname| <= MAX_LABEL_LEN) then Err
    else if role !in {"server", "agent"} then Err
    else if !(0 < |config| <= MAX_CONFIG) then Err
    else if '\0' in config then Err
    else Ok(Spelled(uuid, hostname, role, config))
  }

  // ----- the guest's checks -----------------------------------------------------------

  /** $(cat file): every newline at the end is dropped. */
  function Cat(s: string): string {
    if s != "" && s[|s| - 1] == '\n' then Cat(s[..|s| - 1]) else s
  }

  /** wc -l. */
  function Newlines(s: string): nat {
    if s == "" then 0 else (if s[0] == '\n' then 1 else 0) + Newlines(s[1..])
  }

  /** grep -Eq with the UUID expression on one line. */
  predicate UuidShape(s: string) {
    && |s| == 36 && s[8] == s[13] == s[18] == s[23] == '-'
    && forall i :: 0 <= i < 36 && i !in {8, 13, 18, 23} ==> HexDigit(s[i])
  }

  /** grep succeeds if any line of its input matches. */
  predicate ValidUuid(s: string) {
    exists line :: line in Split(s, '\n') && UuidShape(line)
  }

  predicate ValidHostname(s: string) {
    |s| <= 63 && exists line :: line in Split(s, '\n') && Label(line)
  }

  predicate OneLiner(s: string) {
    |s| <= 64 && Newlines(s) == 1
  }

  predicate Metadata(p: Payload) {
    && (forall k :: k in FIELDS ==> k in p && OneLiner(p[k]))
    && Cat(p[FIELDS[0]]) == "1" && ValidUuid(Cat(p[FIELDS[1]])) && ValidHostname(Cat(p[FIELDS[2]]))
    && Cat(p[FIELDS[3]]) in {"server", "agent"}
  }

  predicate ValidConfig(s: string) {
    0 < |s| <= MAX_CONFIG
  }

  predicate Acceptable(p: Payload) {
    Metadata(p) && ConfigYaml in p && ValidConfig(p[ConfigYaml])
  }

  // ----- the host and the guest agree -------------------------------------------------

  lemma {:induction false} NewlinesOfLine(s: string)
    ensures Newlines(s + "\n") == 1 + Newlines(s)
    ensures Newlines(s) == 0 <==> '\n' !in s
  {
    if s == "" {
      assert s + "\n" == "\n" && "\n"[1..] == "";
    } else {
      assert (s + "\n")[1..] == s[1..] + "\n";
      NewlinesOfLine(s[1..]);
      assert s == [s[0]] + s[1..];
    }
  }

  lemma CatOfLine(s: string)
    requires '\n' !in s
    ensures Cat(s + "\n") == s
  {
    assert (s + "\n")[..|s|] == s;
    if s != "" {
      assert s[|s| - 1] in s;
    }
  }

  lemma UuidShapeIsText(s: string)
    ensures UuidShape(s) <==> exists h :: Hex32(h) && s == UuidText(h)
  {
    if UuidShape(s) {
      var h := s[..8] + s[9..13] + s[14..18] + s[19..23] + s[24..];
      assert s[..8] == h[..8] && s[9..13] == h[8..12] && s[14..18] == h[12..16] && s[19..23] == h[16..20] && s[24..] == h[20..];
      assert s == s[..8] + [s[8]] + s[9..13] + [s[13]] + s[14..18] + [s[18]] + s[19..23] + [s[23]] + s[24..];
      assert s == UuidText(h) && Hex32(h);
    }
  }

  /** str(UUID(s)) == s on the host is the guest's regular expression. */
  lemma CanonicalIsShape(s: string)
    ensures Canonical(s) <==> UuidShape(s)
  {
    hide UuidShape, UuidText, AllHex;
    UuidShapeIsText(s);
    if Canonical(s) {
      assert Hex32(ParseUuid(s).value) && s == UuidText(ParseUuid(s).value);
    }
    if UuidShape(s) {
      var h :| Hex32(h) && s == UuidText(h);
      UuidRoundTrip(h);
    }
  }

  lemma ShapeHasNoBreak(s: string)
    requires UuidShape(s)
    ensures '\n' !in s
  {
  }

  lemma OneLineChecks(s: string)
    requires '\n' !in s
    ensures ValidUuid(s) <==> UuidShape(s)
    ensures ValidHostname(s) <==> |s| <= 63 && Label(s)
  {
    hide UuidShape, Label;
    SplitWithout(s, '\n');
  }

  /**
   * The host builds a payload exactly from what the guest will accept as these five files (and
   * never a configuration with a NUL byte), and the guest reads the same values back.
   */
  lemma HostAndGuestAgree(uuid: string, hostname: string, role: string, config: string)
    ensures BuildSeedPayload(uuid, hostname, role, config).Ok? <==>
              Acceptable(Spelled(uuid, hostname, role, config)) && '\0' !in config
    ensures BuildSeedPayload(uuid, hostname, role, config).Ok? ==>
              var p := Spelled(uuid, hostname, role, config);
              Cat(p[Uuid]) == uuid && Cat(p[Hostname]) == hostname && Cat(p[Role]) == role
  {
    hide UuidShape, Canonical, Label, ValidUuid, ValidHostname, Cat, OneLiner;
    CanonicalIsShape(uuid);
    LineField(uuid);
    LineField(hostname);
    LineField(role);
    assert "1" + "\n" == "1\n";
    LineField("1");
    if UuidShape(uuid) {
      ShapeIsShort(uuid);
      ShapeHasNoBreak(uuid);
    }
    if Label(hostname) {
      LabelHasNoBreak(hostname);
    }
    assert FIELDS[0] == Schema && FIELDS[1] == Uuid && FIELDS[2] == Hostname && FIELDS[3] == Role;
    assert FIELDS[0] in FIELDS && FIELDS[1] in FIELDS && FIELDS[2] in FIELDS && FIELDS[3] in FIELDS;
    if '\n' !in uuid {
      OneLineChecks(uuid);
    }
    if '\n' !in hostname {
      OneLineChecks(hostname);
    }
  }

  /** A value written on a line of its own is read back, and is one line exactly if it holds no break. */
  lemma LineField(value: string)
    ensures OneLiner(value + "\n") <==> '\n' !in value && |value| <= 63
    ensures '\n' !in value ==> Cat(value + "\n") == value
  {
    NewlinesOfLine(value);
    if '\n' !in value {
      CatOfLine(value);
    }
  }

  lemma ShapeIsShort(s: string)
    requires UuidShape(s)
    ensures |s| == 36
  {
  }

  lemma LabelHasNoBreak(s: string)
    requires Label(s)
    ensures '\n' !in s
  {
  }
}

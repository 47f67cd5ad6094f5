/** The guest's status command, and the host's reading of what it prints. */
module Report {
  import opened Wrappers
  import opened Names
  import opened Seed
  import opened Guest
  import Status

  /** The identity status prints: the installed one if it is short and one of its lines is a UUID. */
  function Candidate(files: Files): string {
    if Final(Field(Uuid)) in files && |files[Final(Field(Uuid))].content| <= 37
       && ValidUuid(Cat(files[Final(Field(Uuid))].content))
    then Cat(files[Final(Field(Uuid))].content) else ""
  }

  /** active_state: whatever systemctl says that is not a known state, or its failure, is `unknown`. */
  function ActiveState(output: Option<string>): Status.Unit {
    if output.Some? && Status.ParseUnit(output.value).Some? then Status.ParseUnit(output.value).value else Status.Unknown
  }

  /**
   * status reads the disk four times, and preparation may go on in between: the identity, then
   * `prepared`, then `started`, then once more whether a marker exists at all.
   */
  function Reported(atIdentity: Files, atPrepared: Files, atStarted: Files, atError: Files,
                    prepareUnit: Option<string>, k3sUnit: Option<string>): Status.GuestStatus
  {
    var prepared, started := PreparedOk(atPrepared), HasMarker(atStarted, StartedMark);
    var prepareState, k3sState := ActiveState(prepareUnit), ActiveState(k3sUnit);
    var error :=
      if prepareState.Failed? || (Final(PreparedMark) in atError && !prepared) || (started && !prepared)
      then Status.PrepareFailed else if k3sState.Failed? then Status.K3sFailed else Status.NoError;
    Status.GuestStatus(Candidate(atIdentity), prepared, started, prepareState, k3sState, error)
  }

  lemma UnitIsItsName(output: Option<string>, u: Status.Unit)
    requires u != Status.Unknown
    ensures ActiveState(output) == u <==> output == Some(Status.UnitName(u))
  {
  }

  /** What is printed on whatever disk, damaged ones included, and whatever changes between the reads. */
  lemma ReportedExactly(d1: Files, d2: Files, d3: Files, d4: Files, prepareUnit: Option<string>, k3sUnit: Option<string>)
    ensures
      var st := Reported(d1, d2, d3, d4, prepareUnit, k3sUnit);
      var broken := prepareUnit == Some("failed") || (!PreparedOk(d2) && (Final(PreparedMark) in d4 || HasMarker(d3, StartedMark)));
      && (st.errorCode.PrepareFailed? <==> broken)
      && (st.errorCode.K3sFailed? <==> !broken && k3sUnit == Some("failed"))
      && (st.nodeUuid != "" ==> Final(Field(Uuid)) in d1 && ValidUuid(st.nodeUuid) && st.nodeUuid == Cat(d1[Final(Field(Uuid))].content))
  {
    hide PreparedOk, HasMarker, ActiveState, ValidUuid, Cat;
    UnitIsItsName(prepareUnit, Status.Failed);
    UnitIsItsName(k3sUnit, Status.Failed);
  }

  /** The installed identity, if any, is the seed's: no power was lost, or the guest is committed. */
  predicate Genuine(d: Disk) {
    !d.cut || Committed(d)
  }

  lemma HostSeed(uuid: string, hostname: string, role: string, config: string)
    requires BuildSeedPayload(uuid, hostname, role, config).Ok?
    ensures var seed := BuildSeedPayload(uuid, hostname, role, config).value;
            Uuid in seed && seed[Uuid] == uuid + "\n" && Cat(seed[Uuid]) == uuid && |seed[Uuid]| == 37
    ensures ValidUuid(uuid) && Status.Identity(uuid) && uuid != ""
  {
    hide UuidShape, Canonical, Label, ValidUuid, Acceptable, UuidText;
    HostAndGuestAgree(uuid, hostname, role, config);
    CanonicalIsShape(uuid);
    ShapeIsShort(uuid);
    ShapeHasNoBreak(uuid);
    OneLineChecks(uuid);
    UuidShapeIsText(uuid);
  }

  lemma CandidateIsSeed(seed: Payload, d: Disk, uuid: string)
    requires Inv(seed, d) && Genuine(d) && Uuid in seed
    requires Cat(seed[Uuid]) == uuid && |seed[Uuid]| == 37 && ValidUuid(uuid)
    ensures Candidate(d.files) == if Final(Field(Uuid)) in d.files then uuid else ""
  {
    hide ValidUuid, Acceptable, Cat;
  }

  /**
   * A guest prepared from a seed the host built, in any state its commands and kills can reach:
   * the host accepts the status and reads back the printed fields exactly if the identity was
   * installed when status looked for it, or neither flag was up when status came to them.
   */
  lemma StatusIsUnderstood(uuid: string, hostname: string, role: string, config: string,
                           d1: Disk, d2: Disk, d3: Disk, d4: Disk, prepareUnit: Option<string>, k3sUnit: Option<string>)
    requires BuildSeedPayload(uuid, hostname, role, config).Ok?
    requires Inv(BuildSeedPayload(uuid, hostname, role, config).value, d1) && Genuine(d1)
    ensures var st := Reported(d1.files, d2.files, d3.files, d4.files, prepareUnit, k3sUnit);
            && st.nodeUuid in {"", uuid}
            && Status.Parsed(Status.Printed(st)) ==
               if Final(Field(Uuid)) in d1.files || (!PreparedOk(d2.files) && !HasMarker(d3.files, StartedMark))
               then Some(st) else None
  {
    hide Status.Parsed, Status.Printed, PreparedOk, HasMarker, ValidUuid, Inv, Cat, Canonical;
    HostSeed(uuid, hostname, role, config);
    CandidateIsSeed(BuildSeedPayload(uuid, hostname, role, config).value, d1, uuid);
    Status.PrintedIsParsed(Reported(d1.files, d2.files, d3.files, d4.files, prepareUnit, k3sUnit));
  }

  /** So with nothing running meanwhile every printed status is understood. */
  lemma QuietStatusIsUnderstood(uuid: string, hostname: string, role: string, config: string, d: Disk,
                                prepareUnit: Option<string>, k3sUnit: Option<string>)
    requires BuildSeedPayload(uuid, hostname, role, config).Ok?
    requires Inv(BuildSeedPayload(uuid, hostname, role, config).value, d) && Genuine(d)
    ensures var st := Reported(d.files, d.files, d.files, d.files, prepareUnit, k3sUnit);
            && Status.Parsed(Status.Printed(st)) == Some(st)
            && (st.prepared || st.started ==> st.nodeUuid == uuid)
            && (!d.cut && st.started ==> st.prepared)
  {
    hide Status.Parsed, Status.Printed, PreparedOk, ValidUuid, Cat, Acceptable;
    var seed := BuildSeedPayload(uuid, hostname, role, config).value;
    StatusIsUnderstood(uuid, hostname, role, config, d, d, d, d, prepareUnit, k3sUnit);
    HostSeed(uuid, hostname, role, config);
    CandidateIsSeed(seed, d, uuid);
    if !d.cut {
      StartedMeansPrepared(seed, d);
    }
    PreparedIsMarked(d);
    if Committed(d) {
      CommittedMeans(seed, d);
      assert Uuid in ITEMS;
    }
  }

  lemma PreparedIsMarked(d: Disk)
    ensures PreparedOk(d.files) || HasMarker(d.files, StartedMark) ==> Committed(d)
  {
  }

  /**
   * status, while other commands of the guest, reruns and kills included, come in between its
   * reads. The host understands what it prints exactly if the identity was there at the first read,
   * or neither flag was up when status came to it; so it never misreads a guest already committed.
   */
  method StatusAmid(g: Machine, uuid: string, hostname: string, role: string, config: string, first: seq<Act>,
                    second: seq<Act>, third: seq<Act>, prepareUnit: Option<string>, k3sUnit: Option<string>)
    returns (text: string, ghost d2: Disk, ghost d3: Disk)
    requires BuildSeedPayload(uuid, hostname, role, config) == Ok(g.seed)
    requires Inv(g.seed, g.State()) && Genuine(g.State())
    modifies g
    ensures Inv(g.seed, d2) && Inv(g.seed, d3) && Inv(g.seed, g.State())
    ensures
      var st := Reported(old(g.files), d2.files, d3.files, g.files, prepareUnit, k3sUnit);
      && text == Status.Printed(st)
      && Status.Parsed(text) ==
         if Final(Field(Uuid)) in old(g.files) || (!PreparedOk(d2.files) && !HasMarker(d3.files, StartedMark))
         then Some(st) else None
    ensures Committed(old(g.State())) ==> Status.Parsed(text).Some?
  {
    hide Status.Parsed, Status.Printed, PreparedOk, HasMarker, ValidUuid, Inv, Cat, Canonical, Reported;
    ghost var d1 := g.State();
    if Committed(d1) {
      CommittedHasUuid(g.seed, d1);
    }
    var identity := g.files;
    Live(g, first);
    d2 := g.State();
    var prepared := g.files;
    Live(g, second);
    d3 := g.State();
    var started := g.files;
    Live(g, third);
    text := Status.Printed(Reported(identity, prepared, started, g.files, prepareUnit, k3sUnit));
    StatusIsUnderstood(uuid, hostname, role, config, d1, d2, d3, g.State(), prepareUnit, k3sUnit);
  }

  lemma CommittedHasUuid(seed: Payload, d: Disk)
    requires Inv(seed, d) && Committed(d)
    ensures Final(Field(Uuid)) in d.files
  {
    hide Acceptable, Cat;
    assert Uuid in ITEMS;
  }

  /**
   * The race is real: a status that looked for the identity on a fresh guest, and for `prepared`
   * once its preparation had succeeded, prints success without an identity, which the host refuses.
   */
  method StatusRacesTheCommit(uuid: string, hostname: string, role: string, config: string,
                              prepareUnit: Option<string>, k3sUnit: Option<string>)
    returns (text: string, g: Machine)
    requires BuildSeedPayload(uuid, hostname, role, config).Ok?
    ensures Status.Parsed(text) == None && PreparedOk(g.files) && g.seed == BuildSeedPayload(uuid, hostname, role, config).value
  {
    hide Status.Parsed, Status.Printed, HasMarker, ValidUuid, Inv, Cat, Canonical, Reported, Acceptable, Installed, Label;
    var seed := BuildSeedPayload(uuid, hostname, role, config).value;
    HostAndGuestAgree(uuid, hostname, role, config);
    g := new Machine(seed, map[], []);
    ghost var d1 := g.State();
    var identity := g.files;
    assert Open(d1, true, seed);
    var x := g.Prepare(true);
    assert x == Exited(0);
    text := Status.Printed(Reported(identity, g.files, g.files, g.files, prepareUnit, k3sUnit));
    StatusIsUnderstood(uuid, hostname, role, config, d1, g.State(), g.State(), g.State(), prepareUnit, k3sUnit);
  }
}

/** From the guest's disk to the host's record: what observer.py makes of a status that a guest prints. */
module Recognized {
  import opened Wrappers
  import opened Names
  import opened Seed
  import opened Guest
  import opened Report
  import opened GuestExec
  import opened Evidence
  import Meta
  import Observer
  import Status

  /** The status a guest prints while nothing else runs on it. */
  function Quiet(d: Disk, prepareUnit: Option<string>, k3sUnit: Option<string>): Status.GuestStatus {
    Reported(d.files, d.files, d.files, d.files, prepareUnit, k3sUnit)
  }

  /** The result of a status command that printed it. */
  function ResultOf(d: Disk, prepareUnit: Option<string>, k3sUnit: Option<string>): ExecResult {
    ExecResult(Some(0), None, Status.Printed(Quiet(d, prepareUnit, k3sUnit)))
  }

  /** The guest of node h, prepared from the seed that the host built for it, on any disk it can reach. */
  predicate GuestOf(h: string, hostname: string, role: string, config: string, d: Disk) {
    && Hex32(h) && BuildSeedPayload(UuidText(h), hostname, role, config).Ok?
    && Inv(BuildSeedPayload(UuidText(h), hostname, role, config).value, d) && Genuine(d)
  }

  /** The host takes the status for what the guest printed, and for this node's. */
  lemma StatusIsTaken(h: string, hostname: string, role: string, config: string, d: Disk, prepareUnit: Option<string>,
                      k3sUnit: Option<string>)
    requires GuestOf(h, hostname, role, config, d)
    ensures Meaning(h, ResultOf(d, prepareUnit, k3sUnit)) == Some(Quiet(d, prepareUnit, k3sUnit))
    ensures PreparedOk(d.files) || HasMarker(d.files, StartedMark) ==> Quiet(d, prepareUnit, k3sUnit).nodeUuid == UuidText(h)
  {
    hide Status.Parsed, Status.Printed, Inv, UuidText, PreparedOk, HasMarker;
    StatusIsUnderstood(UuidText(h), hostname, role, config, d, d, d, d, prepareUnit, k3sUnit);
    QuietStatusIsUnderstood(UuidText(h), hostname, role, config, d, prepareUnit, k3sUnit);
  }

  /**
   * A node is ready to be joined exactly if its guest is prepared from a seed that is still whole,
   * has been started, and both of its units are active.
   */
  lemma ReadyExactly(h: string, hostname: string, role: string, config: string, d: Disk, prepareUnit: Option<string>,
                     k3sUnit: Option<string>)
    requires GuestOf(h, hostname, role, config, d)
    ensures (Meaning(h, ResultOf(d, prepareUnit, k3sUnit)).Some?
             && Observer.Ready(Meaning(h, ResultOf(d, prepareUnit, k3sUnit)).value, h))
            <==> PreparedOk(d.files) && HasMarker(d.files, StartedMark) && prepareUnit == k3sUnit == Some("active")
  {
    hide Meaning, Inv, UuidText, PreparedOk, HasMarker, ActiveState, GuestOf;
    StatusIsTaken(h, hostname, role, config, d, prepareUnit, k3sUnit);
    UnitIsItsName(prepareUnit, Status.Active);
    UnitIsItsName(k3sUnit, Status.Active);
  }

  lemma MarksAreValid(seed: Payload, d: Disk)
    requires Inv(seed, d) && !d.cut
    ensures PreparedOk(d.files) <==> Final(PreparedMark) in d.files
    ensures HasMarker(d.files, StartedMark) <==> Final(StartedMark) in d.files
    ensures Final(StartedMark) in d.files ==> Final(PreparedMark) in d.files
  {
    hide Cat, Acceptable, Installed, Contents;
    WrittenMarker();
    if Final(PreparedMark) in d.files {
      FromSeed(seed, d.files);
    }
  }

  /**
   * What becomes of the record of a node whose guest lost no power, by its marks and units alone:
   * once configured it stays so, it fails only with its preparation, and an error is reported
   * exactly while a unit has failed.
   */
  lemma RecordFollowsGuest(h: string, hostname: string, role: string, config: string, d: Disk, prepareUnit: Option<string>,
                           k3sUnit: Option<string>, state: Meta.State)
    requires GuestOf(h, hostname, role, config, d) && !d.cut
    ensures
      var status := Quiet(d, prepareUnit, k3sUnit);
      var prepared, started := Final(PreparedMark) in d.files, Final(StartedMark) in d.files;
      var open := !started && !state.Configured?;
      && Meaning(h, ResultOf(d, prepareUnit, k3sUnit)) == Some(status)
      && (StateAfter(state, status) == Meta.Configured <==> !open)
      && (StateAfter(state, status) == Meta.Failed
          <==> open && (prepareUnit == Some("failed") || (state.Failed? && !prepared)))
      && (StateAfter(state, status) == Meta.Configuring
          <==> open && prepareUnit != Some("failed") && (prepared || state.Configuring?))
      && (StateAfter(state, status) !in {Meta.Configured, Meta.Failed, Meta.Configuring} ==> StateAfter(state, status) == state)
      && (ErrorOf(status) == Some("prepare-failed") <==> prepareUnit == Some("failed"))
      && (ErrorOf(status) == Some("k3s-failed") <==> prepareUnit != Some("failed") && k3sUnit == Some("failed"))
      && (ErrorOf(status) == None <==> prepareUnit != Some("failed") && k3sUnit != Some("failed"))
      && (ProgressOf(status) == None <==> started && ErrorOf(status) == None)
  {
    hide Meaning, Inv, UuidText, PreparedOk, HasMarker, ActiveState, Candidate;
    StatusIsTaken(h, hostname, role, config, d, prepareUnit, k3sUnit);
    UnitIsItsName(prepareUnit, Status.Failed);
    UnitIsItsName(k3sUnit, Status.Failed);
    MarksAreValid(BuildSeedPayload(UuidText(h), hostname, role, config).value, d);
  }

  /** A guest whose marker no longer stands for a whole installation is reported as failed, unless it had been configured. */
  lemma DamageIsReported(h: string, hostname: string, role: string, config: string, d: Disk, prepareUnit: Option<string>,
                         k3sUnit: Option<string>, state: Meta.State)
    requires GuestOf(h, hostname, role, config, d)
    requires (Final(PreparedMark) in d.files || HasMarker(d.files, StartedMark)) && !PreparedOk(d.files)
    ensures Meaning(h, ResultOf(d, prepareUnit, k3sUnit)) == Some(Quiet(d, prepareUnit, k3sUnit))
    ensures ErrorOf(Quiet(d, prepareUnit, k3sUnit)) == Some("prepare-failed")
    ensures StateAfter(state, Quiet(d, prepareUnit, k3sUnit))
            == if HasMarker(d.files, StartedMark) || state.Configured? then Meta.Configured else Meta.Failed
    ensures !Observer.Ready(Quiet(d, prepareUnit, k3sUnit), h)
  {
    hide Meaning, Inv, UuidText, PreparedOk, HasMarker, ActiveState, GuestOf, Candidate;
    StatusIsTaken(h, hostname, role, config, d, prepareUnit, k3sUnit);
  }
}

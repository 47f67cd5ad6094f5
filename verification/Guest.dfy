/**
 * image/k3s-demo-guest: a preparation that commits once, under kills at any step and power loss
 * that may drop or tear whatever was not synced.
 */
module Guest {
  import opened Wrappers
  import opened Seed

  /** The files the script writes; `Field` covers the four metadata files and the configuration. */
  datatype File = Field(item: Item) | EtcHostname | PreparedMark | StartedMark

  /** A file, or the `.tmp` it is renamed from. */
  datatype Name = Final(file: File) | Temp(file: File)

  /** `private` is mode 0600, owned by root. */
  datatype Entry = Entry(content: string, private: bool)

  type Files = map<Name, Entry>

  /**
   * `dirty` are the names changed since the last sync. `data` says k3s left state behind; `cut`
   * is the model's memory of a power loss.
   */
  datatype Disk = Disk(files: Files, dirty: set<Name>, data: bool, cut: bool)

  /**
   * How one command of the script fares. A failing or killed one may be done already (`late`) or
   * leave torn content in its temporary file; a power loss leaves anything in the dirty names.
   */
  datatype Event =
    | Fine
    | Fails(late: bool, torn: string)
    | Killed(late: bool, torn: string)
    | PowerLoss(left: Files, data: bool)

  datatype Reply = Worked | Failed | Dead

  datatype Command =
    | Check
    | Put(file: File, content: string)
    | Chmod(file: File)
    | Rename(file: File)
    | SetHostname(content: string)
    | Sync
    | MakeData

  function Effect(d: Disk, c: Command): Disk {
    match c
    case Check => d
    case Put(f, x) => d.(files := d.files[Temp(f) := Entry(x, false)], dirty := d.dirty + {Temp(f)})
    case Chmod(f) =>
      if Temp(f) in d.files
      then d.(files := d.files[Temp(f) := d.files[Temp(f)].(private := true)], dirty := d.dirty + {Temp(f)}) else d
    case Rename(f) =>
      if Temp(f) in d.files
      then d.(files := d.files[Final(f) := d.files[Temp(f)]] - {Temp(f)}, dirty := d.dirty + {Temp(f), Final(f)}) else d
    case SetHostname(x) =>
      d.(files := d.files[Final(EtcHostname) := Entry(x, false)], dirty := d.dirty + {Final(EtcHostname)})
    case Sync => d.(dirty := {})
    case MakeData => d.(data := true)
  }

  function Unfinished(d: Disk, c: Command, late: bool, torn: string): Disk {
    if late then Effect(d, c) else if c.Put? then Effect(d, Put(c.file, torn)) else d
  }

  function AfterLoss(d: Disk, left: Files, data: bool): Disk {
    Disk((map n | n in d.files && n !in d.dirty :: d.files[n]) + (map n | n in left && n in d.dirty :: left[n]),
         {}, d.data && data, true)
  }

  function Outcome(d: Disk, e: Event, c: Command): (Disk, Reply) {
    match e
    case Fine => (Effect(d, c), if (c.Rename? || c.Chmod?) && Temp(c.file) !in d.files then Failed else Worked)
    case Fails(late, torn) => (Unfinished(d, c, late, torn), Failed)
    case Killed(late, torn) => (Unfinished(d, c, late, torn), Dead)
    // Losing power inside sync, none of it may have reached the disk.
    case PowerLoss(left, data) => (AfterLoss(if c.Sync? then d else Effect(d, c), left, data), Dead)
  }

  // ----- the script's tests -----------------------------------------------------------

  const ITEMS := {Schema, Uuid, Hostname, Role, ConfigYaml}

  function Contents(files: Files): Payload {
    map k | k in ITEMS && Final(Field(k)) in files :: files[Final(Field(k))].content
  }

  predicate Installed(files: Files) {
    && Acceptable(Contents(files))
    && (forall k :: k in ITEMS ==> Final(Field(k)) in files && files[Final(Field(k))].private)
    && Final(EtcHostname) in files && Cat(files[Final(EtcHostname)].content) == Cat(files[Final(Field(Hostname))].content)
  }

  predicate HasMarker(files: Files, f: File) {
    Final(f) in files && |files[Final(f)].content| == 2 && Cat(files[Final(f)].content) == "1"
  }

  predicate PreparedOk(files: Files) {
    HasMarker(files, PreparedMark) && Installed(files)
  }

  lemma WrittenMarker()
    ensures |"1\n"| == 2 && Cat("1\n") == "1"
  {
    CatOfLine("1");
    assert "1" + "\n" == "1\n";
  }

  // ----- the invariant ----------------------------------------------------------------

  const INSTALL := {Field(Schema), Field(Uuid), Field(Hostname), Field(Role), Field(ConfigYaml), EtcHostname}

  predicate InstalledFrom(seed: Payload, files: Files) {
    && Acceptable(seed)
    && (forall k :: k in ITEMS ==> k in seed && Final(Field(k)) in files && files[Final(Field(k))] == Entry(seed[k], true))
    && Final(EtcHostname) in files && Cat(files[Final(EtcHostname)].content) == Cat(seed[Hostname])
  }

  predicate Committed(d: Disk) {
    Final(PreparedMark) in d.files || Final(StartedMark) in d.files
  }

  /** A marker that a power loss may bring to light is there already. */
  predicate Traced(d: Disk) {
    forall f :: f in {PreparedMark, StartedMark} && Final(f) in d.dirty ==> Final(f) in d.files
  }

  /** From the first trace of a commit on, the whole installation is there, and on the disk. */
  predicate Guarded(seed: Payload, d: Disk) {
    && Traced(d)
    && (Committed(d) ==> InstalledFrom(seed, d.files) && forall f :: f in INSTALL ==> Final(f) !in d.dirty)
  }

  /** While only kills happened, every file is whole, `started` follows `prepared`, and so does k3s. */
  predicate Orderly(seed: Payload, d: Disk) {
    !d.cut ==>
      && (forall k :: k in ITEMS && Final(Field(k)) in d.files ==> k in seed && d.files[Final(Field(k))].content == seed[k])
      && (forall f :: f in {PreparedMark, StartedMark} && Final(f) in d.files ==> d.files[Final(f)].content == "1\n")
      && (Final(StartedMark) in d.files || d.data ==> Final(PreparedMark) in d.files)
  }

  predicate Inv(seed: Payload, d: Disk) {
    Guarded(seed, d) && Orderly(seed, d)
  }

  lemma FromSeed(seed: Payload, files: Files)
    requires InstalledFrom(seed, files)
    ensures Installed(files) && forall k :: k in ITEMS ==> Contents(files)[k] == seed[k]
  {
    hide ValidUuid, ValidHostname, OneLiner, Cat;
    assert FIELDS[0] in ITEMS && FIELDS[1] in ITEMS && FIELDS[2] in ITEMS && FIELDS[3] in ITEMS;
    assert forall k :: k in FIELDS ==> k in ITEMS;
  }

  /** When a step may be taken: what the script's own order and tests make sure of. */
  predicate Allowed(seed: Payload, d: Disk, c: Command) {
    match c
    case Rename(f) =>
      if f.PreparedMark? then
        && InstalledFrom(seed, d.files) && (forall g :: g in INSTALL ==> Final(g) !in d.dirty)
        && (Temp(f) in d.files ==> d.files[Temp(f)].content == "1\n")
      else if f.StartedMark? then
        PreparedOk(d.files) && (Temp(f) in d.files ==> d.files[Temp(f)].content == "1\n")
      else
        && !Committed(d) && !d.data
        && (f.Field? && Temp(f) in d.files ==> f.item in seed && d.files[Temp(f)].content == seed[f.item])
    case SetHostname(_) => !Committed(d)
    case MakeData => PreparedOk(d.files)
    case _ => true
  }

  /** What touches temporary files alone changes nothing the invariant is about. */
  lemma SameInv(seed: Payload, d: Disk, d': Disk)
    requires Inv(seed, d) && d'.data == d.data && d'.cut == d.cut
    requires forall f :: Final(f) in d'.files <==> Final(f) in d.files
    requires forall f :: Final(f) in d.files ==> d'.files[Final(f)] == d.files[Final(f)]
    requires forall f :: Final(f) in d'.dirty ==> Final(f) in d.dirty
    ensures Inv(seed, d')
  {
    hide Acceptable, Cat, Installed;
  }

  /** A field, or the host name, is renamed into place before anything is committed. */
  lemma FieldRenamed(seed: Payload, d: Disk, f: File)
    requires Inv(seed, d) && Allowed(seed, d, Rename(f)) && !f.PreparedMark? && !f.StartedMark?
    ensures Inv(seed, Effect(d, Rename(f)))
  {
    hide Acceptable, Cat, Installed, InstalledFrom;
  }

  lemma MarkRenamed(seed: Payload, d: Disk, f: File)
    requires Inv(seed, d) && Allowed(seed, d, Rename(f)) && (f.PreparedMark? || f.StartedMark?)
    ensures Inv(seed, Effect(d, Rename(f)))
  {
    hide Acceptable, Cat, Installed;
  }

  lemma EffectKeeps(seed: Payload, d: Disk, c: Command)
    requires Inv(seed, d) && Allowed(seed, d, c)
    ensures Inv(seed, Effect(d, c))
  {
    hide Inv, Allowed;
    match c
    case Check =>
    case Put(f, x) => SameInv(seed, d, Effect(d, c));
    case Chmod(f) => SameInv(seed, d, Effect(d, c));
    case Sync => SameInv(seed, d, Effect(d, c));
    case Rename(f) =>
      if f.PreparedMark? || f.StartedMark? {
        MarkRenamed(seed, d, f);
      } else {
        FieldRenamed(seed, d, f);
      }
    case SetHostname(x) => OtherEffect(seed, d, c);
    case MakeData => OtherEffect(seed, d, c);
  }

  lemma OtherEffect(seed: Payload, d: Disk, c: Command)
    requires Inv(seed, d) && Allowed(seed, d, c) && (c.SetHostname? || c.MakeData?)
    ensures Inv(seed, Effect(d, c))
  {
    hide Acceptable, Cat, Installed;
  }

  /** Whatever becomes of an allowed step, kill and power loss included, the invariant holds. */
  lemma StepKeeps(seed: Payload, d: Disk, e: Event, c: Command)
    requires Inv(seed, d) && Allowed(seed, d, c)
    ensures Inv(seed, Outcome(d, e, c).0)
  {
    hide Inv, Allowed, Effect;
    EffectKeeps(seed, d, c);
    if (e.Fails? || e.Killed?) && c.Put? {
      PutAllowed(seed, d, c.file, e.torn);
      EffectKeeps(seed, d, Put(c.file, e.torn));
    }
    if e.PowerLoss? {
      LossKeeps(seed, if c.Sync? then d else Effect(d, c), e.left, e.data);
    }
  }

  lemma PutAllowed(seed: Payload, d: Disk, f: File, x: string)
    ensures Allowed(seed, d, Put(f, x))
  {
  }

  lemma LossKeeps(seed: Payload, d: Disk, left: Files, data: bool)
    requires Inv(seed, d)
    ensures Inv(seed, AfterLoss(d, left, data))
  {
    hide Acceptable, Cat;
    var d' := AfterLoss(d, left, data);
    if Committed(d') {
      assert Committed(d);
      forall f | f in INSTALL ensures Final(f) in d'.files && d'.files[Final(f)] == d.files[Final(f)] {
        assert Final(f) in d.files;
      }
    }
  }

  // ----- the script -------------------------------------------------------------------

  datatype Exit = Exited(code: nat) | Perished

  /** The next n commands are done. */
  predicate FineFor(script: seq<Event>, n: nat) {
    forall i :: 0 <= i < n && i < |script| ==> script[i] == Event.Fine
  }

  function Drop(script: seq<Event>, n: nat): seq<Event> {
    if n <= |script| then script[n..] else []
  }

  lemma Ahead(script: seq<Event>, n: nat, k: nat)
    ensures k <= n ==> (FineFor(script, n) ==> FineFor(script, k) && FineFor(Drop(script, k), n - k))
    ensures k <= n ==> Drop(Drop(script, k), n - k) == Drop(script, n)
    ensures k <= n < |script| ==> n - k < |Drop(script, k)| && Drop(script, k)[n - k] == script[n]
  {
  }

  const MOUNT_ATTEMPTS := 30

  /** Final files outside fs are as before, nothing new is dirty there, and the power stayed on. */
  ghost predicate Frame(fs: set<File>, d: Disk, d': Disk) {
    && d'.data == d.data && d'.cut == d.cut
    && (forall f :: Final(f) in d'.files && f !in fs ==> Final(f) in d.files && d'.files[Final(f)] == d.files[Final(f)])
    && (forall f :: Final(f) in d.files && f !in fs ==> Final(f) in d'.files)
    && (forall f :: Final(f) in d'.dirty && f !in fs ==> Final(f) in d.dirty)
  }

  class Machine {
    const seed: Payload
    var files: Files
    var dirty: set<Name>
    var data: bool
    var cut: bool
    var script: seq<Event>

    function State(): Disk reads this {
      Disk(files, dirty, data, cut)
    }

    /** A fresh image: no marker, nothing unsynced, k3s never ran. */
    constructor (seed: Payload, files: Files, script: seq<Event>)
      requires forall n :: n in files ==> n == Final(EtcHostname)
      ensures State() == Disk(files, {}, false, false) && this.seed == seed && this.script == script
      ensures Inv(seed, State())
    {
      this.seed, this.files, this.script := seed, files, script;
      dirty, data, cut := {}, false, false;
    }

    method Step(c: Command) returns (r: Reply)
      modifies this
      ensures (State(), r) == Outcome(old(State()), if old(script) == [] then Event.Fine else old(script)[0], c)
      ensures Inv(seed, old(State())) && Allowed(seed, old(State()), c) ==> Inv(seed, State())
      ensures FineFor(old(script), 1) ==> State() == Effect(old(State()), c)
                                          && (r.Worked? || ((c.Rename? || c.Chmod?) && Temp(c.file) !in old(files)))
      ensures r.Worked? ==> State() == Effect(old(State()), c)
      ensures script == Drop(old(script), 1)
      ensures r.Failed? && c.Check? ==> old(script) != []
    {
      hide Inv, Allowed;
      var e := if script == [] then Event.Fine else script[0];
      ghost var d := State();
      if script != [] {
        script := script[1..];
      }
      if Inv(seed, d) && Allowed(seed, d, c) {
        StepKeeps(seed, d, e, c);
      }
      var after;
      after, r := Outcome(State(), e, c).0, Outcome(State(), e, c).1;
      files, dirty, data, cut := after.files, after.dirty, after.data, after.cut;
    }

    /** Write content to f by way of f.tmp: atomic_copy, or marker. */
    method Replace(f: File, content: string) returns (r: Reply)
      requires Inv(seed, State())
      requires f.Field? || f.EtcHostname? ==> !Committed(State()) && !data
      requires f.Field? ==> f.item in seed && content == seed[f.item]
      requires f.PreparedMark? ==> InstalledFrom(seed, files) && (forall g :: g in INSTALL ==> Final(g) !in dirty)
      requires f.StartedMark? ==> PreparedOk(files)
      requires f.PreparedMark? || f.StartedMark? ==> content == "1\n"
      modifies this
      ensures Inv(seed, State())
      ensures r.Worked? ==> Frame({f}, old(State()), State()) && Final(f) in files && files[Final(f)] == Entry(content, true)
      ensures r.Worked? ==> Final(f) in dirty && forall g :: Final(g) in old(dirty) ==> Final(g) in dirty
      ensures FineFor(old(script), 3) ==> r.Worked? && script == Drop(old(script), 3)
    {
      hide Inv, InstalledFrom, PreparedOk, Effect, Frame, Committed, FineFor, Drop;
      Ahead(script, 3, 1);
      Ahead(Drop(script, 1), 2, 1);
      ghost var d0 := State();
      ThreeSteps(d0, f, content);
      PutAllowed(seed, d0, f, content);
      r := Step(Put(f, content));
      if !r.Worked? {
        return;
      }
      ghost var d1 := State();
      r := Step(Chmod(f));
      if !r.Worked? {
        return;
      }
      ghost var d2 := State();
      RenameAllowed(seed, d0, d2, f, content);
      r := Step(Rename(f));
    }

    /** The six files of an installation, each replaced in turn. */
    method Install() returns (r: Reply)
      requires Inv(seed, State()) && Acceptable(seed) && !Committed(State()) && !data
      requires forall k :: k in ITEMS ==> k in seed
      modifies this
      ensures Inv(seed, State())
      ensures r.Worked? ==> InstalledFrom(seed, files) && !Committed(State()) && !data && cut == old(cut)
      ensures FineFor(old(script), 18) ==> r.Worked? && script == Drop(old(script), 18)
    {
      hide Inv, Acceptable, Cat, Frame, Copied, Committed, FineFor, Drop;
      Ahead(script, 18, 3);
      ghost var d0 := State();
      r := Replace(Field(ConfigYaml), seed[ConfigYaml]);
      if !r.Worked? {
        return;
      }
      StepInstalls(seed, {}, ConfigYaml, d0, State());
      for i := 0 to 4
        invariant r.Worked? && Inv(seed, State()) && !Committed(State()) && !data && cut == old(cut)
        invariant forall k :: k in {ConfigYaml} + (set j | 0 <= j < i :: FIELDS[j]) ==> Copied(seed, files, k)
        invariant FineFor(old(script), 18) ==> FineFor(script, 15 - 3 * i) && script == Drop(old(script), 3 + 3 * i)
      {
        Ahead(script, 15 - 3 * i, 3);
        Ahead(old(script), 6 + 3 * i, 3 + 3 * i);
        ghost var d := State();
        ghost var before := {ConfigYaml} + (set j | 0 <= j < i :: FIELDS[j]);
        r := Replace(Field(FIELDS[i]), seed[FIELDS[i]]);
        if !r.Worked? {
          return;
        }
        StepInstalls(seed, before, FIELDS[i], d, State());
        assert {ConfigYaml} + (set j | 0 <= j < i + 1 :: FIELDS[j]) == before + {FIELDS[i]};
      }
      ghost var d := State();
      ghost var copied := {ConfigYaml} + (set j | 0 <= j < 4 :: FIELDS[j]);
      assert ITEMS <= copied by {
        assert FIELDS[0] in copied && FIELDS[1] in copied && FIELDS[2] in copied && FIELDS[3] in copied;
      }
      Ahead(old(script), 18, 15);
      r := Replace(EtcHostname, seed[Hostname]);
      if r.Worked? {
        AllInstalled(seed, d, State());
      }
    }

    /** Mount the seed, trying again while it fails. */
    method Mount() returns (r: Reply)
      requires Inv(seed, State())
      modifies this
      ensures Inv(seed, State()) && (r.Dead? || State() == old(State()))
      ensures FineFor(old(script), 1) ==> r.Worked? && State() == old(State()) && script == Drop(old(script), 1)
      // It gives up exactly after thirty failures.
      ensures |old(script)| - |script| <= MOUNT_ATTEMPTS
      ensures r.Failed? ==> |old(script)| - |script| == MOUNT_ATTEMPTS
    {
      hide Inv;
      var attempt := 0;
      r := Step(Check);
      while r.Failed? && attempt + 1 < MOUNT_ATTEMPTS
        invariant Inv(seed, State()) && (r.Dead? || State() == old(State()))
        invariant FineFor(old(script), 1) ==> r.Worked? && script == Drop(old(script), 1)
        invariant attempt < MOUNT_ATTEMPTS && |old(script)| - |script| <= attempt + 1
        invariant r.Failed? ==> |old(script)| - |script| == attempt + 1
        decreases MOUNT_ATTEMPTS - attempt
      {
        attempt := attempt + 1;
        r := Step(Check);
      }
    }

    /** Make the installation durable, mark it, and make the mark durable. */
    method Commit() returns (r: Reply)
      requires Inv(seed, State()) && InstalledFrom(seed, files)
      modifies this
      ensures Inv(seed, State())
      ensures r.Worked? ==> PreparedOk(files) && InstalledFrom(seed, files) && dirty == {}
      ensures FineFor(old(script), 5) ==> r.Worked? && script == Drop(old(script), 5)
      // Killed between the marker and the last sync, the run leaves a valid marker that is not yet durable.
      ensures FineFor(old(script), 4) && |old(script)| > 4 && old(script)[4] == Killed(false, "") ==>
                && r.Dead? && PreparedOk(files) && Final(PreparedMark) in dirty && script == Drop(old(script), 5)
                && data == old(data) && cut == old(cut) && (Final(StartedMark) in files <==> Final(StartedMark) in old(files))
    {
      hide Inv, Acceptable, Cat, Contents, Installed, FineFor, Drop, Frame;
      Ahead(script, 5, 1);
      Ahead(script, 4, 1);
      Ahead(Drop(script, 1), 4, 3);
      Ahead(Drop(script, 1), 3, 3);
      Ahead(script, 4, 4);
      Ahead(script, 5, 4);
      r := Step(Sync);
      if !r.Worked? {
        return;
      }
      ghost var d := State();
      r := Replace(PreparedMark, "1\n");
      if !r.Worked? {
        return;
      }
      FrameKeepsInstall(seed, PreparedMark, d, State());
      FrameKeepsRest(PreparedMark, d, State());
      FromSeed(seed, files);
      WrittenMarker();
      LastSync(script, State());
      r := Step(Sync);
    }

    /**
     * prepare. `ready` says that k3s is there and none of its units is enabled or active. A guest
     * with a marker is never rewritten; without one and with nothing of k3s, a run that nothing
     * interrupts commits, whatever earlier runs left behind.
     */
    method Prepare(ready: bool) returns (x: Exit)
      requires Inv(seed, State())
      modifies this
      ensures Inv(seed, State())
      ensures x == Exited(0) ==> PreparedOk(files) && InstalledFrom(seed, files)
      ensures Committed(old(State())) || old(data) || !ready || !Acceptable(seed) ==> x.Perished? || State() == old(State())
      ensures x == Exited(0) && !Committed(old(State())) ==> dirty == {}
      ensures FineFor(old(script), 26) && Open(old(State()), ready, seed) ==> x == Exited(0) && script == Drop(old(script), 26)
      ensures FineFor(old(script), 1) && Final(PreparedMark) in old(files) ==>
                script == Drop(old(script), 1) && (x == Exited(0) <==> PreparedOk(old(files)))
      ensures FineFor(old(script), 25) && |old(script)| > 25 && old(script)[25] == Killed(false, "") && Open(old(State()), ready, seed) ==>
                && x.Perished? && PreparedOk(files) && Final(PreparedMark) in dirty && script == Drop(old(script), 26)
                && !data && cut == old(cut) && Final(StartedMark) !in files
    {
      hide Inv, InstalledFrom, Acceptable, Installed, HasMarker, FineFor, Drop;
      ScriptOfPrepare(script);
      var r := Step(Check);  // the directory and the lock
      if !r.Worked? {
        return Stopped(r);
      }
      if Final(PreparedMark) in files {
        CommittedMeans(seed, State());
        return Exited(if Installed(files) && HasMarker(files, PreparedMark) then 0 else 1);
      }
      if data || Final(StartedMark) in files || !ready {
        return Exited(1);
      }
      r := Mount();
      if !r.Worked? {
        return Stopped(r);
      }
      if !Acceptable(seed) {
        return Exited(1);
      }
      AcceptableHasAll(seed);
      r := Install();
      if !r.Worked? {
        return Stopped(r);
      }
      ghost var d := State();
      r := Step(SetHostname(Cat(seed[Hostname]) + "\n"));
      if !r.Worked? {
        return Stopped(r);
      }
      HostnameKeepsInstall(seed, d, State());
      FromSeed(seed, files);
      r := if Installed(files) then Worked else Failed;
      if !r.Worked? {
        return Stopped(r);
      }
      r := Commit();
      x := if r.Worked? then Exited(0) else Stopped(r);
    }

    /** run: k3s gets the role and configuration it was prepared with, and only then. */
    method Run() returns (x: Exit, launched: Option<(string, string)>)
      requires Inv(seed, State())
      modifies this
      ensures Inv(seed, State())
      ensures launched.Some? ==>
                && PreparedOk(old(files)) && launched.value.0 in {"server", "agent"}
                && launched.value.0 == Cat(old(files)[Final(Field(Role))].content)
                && launched.value.1 == old(files)[Final(Field(ConfigYaml))].content
                && Role in seed && launched.value.0 == Cat(seed[Role])
                && ConfigYaml in seed && launched.value.1 == seed[ConfigYaml]
      ensures FineFor(old(script), 2) && PreparedOk(old(files)) ==> launched.Some? && x == Exited(0)
      ensures x == Exited(0) ==> launched.Some? && data
      ensures !PreparedOk(old(files)) ==> launched.None? && x != Exited(0) && (x.Perished? || State() == old(State()))
    {
      hide Inv, Cat, Acceptable, FineFor, Drop;
      Ahead(script, 2, 1);
      launched := None;
      var r := Step(Check);
      if !r.Worked? {
        return Stopped(r), None;
      }
      if !PreparedOk(files) {
        return Exited(1), None;
      }
      CommittedMeans(seed, State());
      PreparedRole(files);
      launched := Some((Cat(files[Final(Field(Role))].content), files[Final(Field(ConfigYaml))].content));
      r := Step(MakeData);
      x := if r.Worked? then Exited(0) else Stopped(r);
    }

    /** mark-started. */
    method MarkStarted() returns (x: Exit)
      requires Inv(seed, State())
      modifies this
      ensures Inv(seed, State())
      ensures x == Exited(0) ==> PreparedOk(files) && HasMarker(files, StartedMark)
      ensures x == Exited(0) ==> if HasMarker(old(files), StartedMark) then State() == old(State()) else dirty == {}
      ensures !PreparedOk(old(files)) ==> x != Exited(0) && (x.Perished? || State() == old(State()))
      ensures FineFor(old(script), 5) && PreparedOk(old(files)) ==> x == Exited(0)
      // Killed before its sync, it leaves a marker that may outlive an unsynced one of the preparation.
      ensures FineFor(old(script), 4) && |old(script)| > 4 && old(script)[4] == Killed(false, "")
              && PreparedOk(old(files)) && !HasMarker(old(files), StartedMark) ==>
                && x.Perished? && HasMarker(files, StartedMark) && Final(StartedMark) in dirty && cut == old(cut)
                && (Final(PreparedMark) in old(dirty) ==> Final(PreparedMark) in dirty) && script == Drop(old(script), 5)
    {
      hide Inv, Installed, HasMarker, Cat, FineFor, Drop;
      Ahead(script, 5, 1);
      Ahead(script, 4, 1);
      Ahead(Drop(script, 1), 4, 3);
      Ahead(Drop(script, 1), 3, 3);
      Ahead(script, 4, 4);
      Ahead(script, 5, 4);
      var r := Step(Check);
      if !r.Worked? {
        return Stopped(r);
      }
      if !PreparedOk(files) {
        return Exited(1);
      }
      if !HasMarker(files, StartedMark) {
        ghost var d := State();
        r := Replace(StartedMark, "1\n");
        if !r.Worked? {
          return Stopped(r);
        }
        StartedIsMarked(d, State());
        LastSync(script, State());
        r := Step(Sync);
        if !r.Worked? {
          return Stopped(r);
        }
      }
      x := Exited(0);
    }
  }

  /** Nothing keeps a preparation from committing. */
  predicate Open(d: Disk, ready: bool, seed: Payload) {
    !Committed(d) && !d.data && ready && Acceptable(seed)
  }

  /** Of the 26 commands of a preparation, 2 come before the installation and 6 after it. */
  lemma ScriptOfPrepare(script: seq<Event>)
    ensures FineFor(script, 25) ==>
              && FineFor(script, 1) && FineFor(Drop(script, 1), 1) && FineFor(Drop(script, 2), 18)
              && FineFor(Drop(script, 20), 1) && FineFor(Drop(script, 21), 4)
    ensures FineFor(script, 26) ==> FineFor(script, 25) && FineFor(Drop(script, 21), 5)
    ensures Drop(Drop(script, 1), 1) == Drop(script, 2) && Drop(Drop(script, 2), 18) == Drop(script, 20)
    ensures Drop(Drop(script, 20), 1) == Drop(script, 21) && Drop(Drop(script, 21), 5) == Drop(script, 26)
    ensures |script| > 25 ==> |Drop(script, 21)| > 4 && Drop(script, 21)[4] == script[25]
  {
    hide FineFor, Drop;
    Ahead(script, 2, 1);
    Ahead(script, 20, 2);
    Ahead(script, 21, 20);
    Ahead(script, 26, 21);
    Ahead(script, 25, 21);
    Ahead(script, 25, 20);
    Ahead(script, 25, 2);
    Ahead(script, 25, 1);
    Ahead(script, 26, 25);
    Ahead(Drop(script, 1), 24, 1);
    Ahead(Drop(script, 2), 23, 18);
    Ahead(Drop(script, 20), 5, 1);
    Ahead(Drop(script, 21), 5, 4);
  }

  predicate Copied(seed: Payload, files: Files, k: Item) {
    k in seed && Final(Field(k)) in files && files[Final(Field(k))] == Entry(seed[k], true)
  }

  /** Write, mode and rename together. */
  lemma ThreeSteps(d: Disk, f: File, content: string)
    ensures var d1 := Effect(d, Put(f, content));
            var d2 := Effect(d1, Chmod(f));
            var d3 := Effect(d2, Rename(f));
            && Temp(f) in d1.files && Temp(f) in d2.files
            && Frame({f}, d, d3) && Final(f) in d3.files && d3.files[Final(f)] == Entry(content, true)
            && Final(f) in d3.dirty && forall g :: Final(g) in d.dirty ==> Final(g) in d3.dirty
  {
  }

  lemma StepInstalls(seed: Payload, before: set<Item>, k: Item, d: Disk, d': Disk)
    requires Frame({Field(k)}, d, d') && k in seed
    requires Final(Field(k)) in d'.files && d'.files[Final(Field(k))] == Entry(seed[k], true)
    requires forall i :: i in before ==> Copied(seed, d.files, i)
    ensures forall i :: i in before + {k} ==> Copied(seed, d'.files, i)
    ensures (Committed(d') <==> Committed(d)) && d'.data == d.data && d'.cut == d.cut
  {
  }

  lemma AllInstalled(seed: Payload, d: Disk, d': Disk)
    requires Frame({EtcHostname}, d, d') && Acceptable(seed) && Hostname in seed
    requires Final(EtcHostname) in d'.files && d'.files[Final(EtcHostname)] == Entry(seed[Hostname], true)
    requires forall i :: i in ITEMS ==> Copied(seed, d.files, i)
    ensures InstalledFrom(seed, d'.files) && (Committed(d') <==> Committed(d)) && d'.data == d.data && d'.cut == d.cut
  {
    hide Acceptable, Cat;
    forall i | i in ITEMS ensures i in seed && Final(Field(i)) in d'.files && d'.files[Final(Field(i))] == Entry(seed[i], true) {
      assert Copied(seed, d.files, i);
    }
  }

  lemma RenameAllowed(seed: Payload, d: Disk, d': Disk, f: File, content: string)
    requires d' == Effect(Effect(d, Put(f, content)), Chmod(f))
    requires f.Field? || f.EtcHostname? ==> !Committed(d) && !d.data
    requires f.Field? ==> f.item in seed && content == seed[f.item]
    requires f.PreparedMark? ==> InstalledFrom(seed, d.files) && (forall g :: g in INSTALL ==> Final(g) !in d.dirty)
    requires f.StartedMark? ==> PreparedOk(d.files)
    requires f.PreparedMark? || f.StartedMark? ==> content == "1\n"
    ensures Allowed(seed, d', Rename(f))
  {
    hide Acceptable, Cat, InstalledFrom, PreparedOk, Committed;
    SameFinals(seed, d, d');
  }

  /** The script's tests look at final files only. */
  lemma SameFinals(seed: Payload, d: Disk, d': Disk)
    requires forall f :: Final(f) in d'.files <==> Final(f) in d.files
    requires forall f :: Final(f) in d.files ==> d'.files[Final(f)] == d.files[Final(f)]
    requires forall f :: Final(f) in d'.dirty <==> Final(f) in d.dirty
    ensures Committed(d') <==> Committed(d)
    ensures InstalledFrom(seed, d'.files) <==> InstalledFrom(seed, d.files)
    ensures PreparedOk(d'.files) <==> PreparedOk(d.files)
  {
    hide Acceptable, Cat;
    assert Contents(d'.files) == Contents(d.files);
  }

  function Stopped(r: Reply): Exit {
    if r.Dead? then Perished else Exited(1)
  }

  lemma CommittedMeans(seed: Payload, d: Disk)
    requires Inv(seed, d) && Committed(d)
    ensures InstalledFrom(seed, d.files)
  {
  }

  lemma AcceptableHasAll(seed: Payload)
    requires Acceptable(seed)
    ensures forall k :: k in ITEMS ==> k in seed
  {
    hide OneLiner, ValidUuid, ValidHostname, Cat;
    assert FIELDS[0] in FIELDS && FIELDS[1] in FIELDS && FIELDS[2] in FIELDS && FIELDS[3] in FIELDS;
  }

  lemma FrameKeepsRest(f: File, d: Disk, d': Disk)
    requires Frame({f}, d, d') && f != StartedMark
    ensures d'.data == d.data && d'.cut == d.cut && (Final(StartedMark) in d'.files <==> Final(StartedMark) in d.files)
  {
  }

  lemma LastSync(script: seq<Event>, d: Disk)
    ensures FineFor(script, 1) && script != [] ==> script[0] == Event.Fine
    ensures Outcome(d, Killed(false, ""), Sync) == (d, Dead)
  {
  }

  lemma FrameKeepsInstall(seed: Payload, f: File, d: Disk, d': Disk)
    requires InstalledFrom(seed, d.files) && f !in INSTALL && Frame({f}, d, d')
    ensures InstalledFrom(seed, d'.files)
  {
    hide Acceptable, Cat;
    forall g | g in INSTALL ensures Final(g) in d'.files && d'.files[Final(g)] == d.files[Final(g)] {
    }
    assert forall k :: k in ITEMS ==> Field(k) in INSTALL;
  }

  lemma CatAgain(s: string)
    ensures Cat(Cat(s) + "\n") == Cat(s)
  {
    var line := Cat(s);
    assert (line + "\n")[..|line|] == line;
    CatEnds(s);
  }

  lemma {:induction false} CatEnds(s: string)
    ensures Cat(Cat(s)) == Cat(s)
  {
    if s != "" && s[|s| - 1] == '\n' {
      CatEnds(s[..|s| - 1]);
    }
  }

  lemma HostnameKeepsInstall(seed: Payload, d: Disk, d': Disk)
    requires InstalledFrom(seed, d.files) && d' == Effect(d, SetHostname(Cat(seed[Hostname]) + "\n"))
    ensures InstalledFrom(seed, d'.files)
  {
    hide Acceptable, Cat;
    CatAgain(seed[Hostname]);
  }

  lemma PreparedRole(files: Files)
    requires PreparedOk(files)
    ensures Final(Field(Role)) in files && Final(Field(ConfigYaml)) in files
    ensures Cat(files[Final(Field(Role))].content) in {"server", "agent"}
  {
    hide OneLiner, ValidUuid, ValidHostname, Cat;
    assert FIELDS[3] == Role;
  }

  lemma StartedIsMarked(d: Disk, d': Disk)
    requires PreparedOk(d.files) && Frame({StartedMark}, d, d')
    requires Final(StartedMark) in d'.files && d'.files[Final(StartedMark)].content == "1\n"
    ensures PreparedOk(d'.files) && HasMarker(d'.files, StartedMark)
  {
    hide Acceptable, Cat;
    WrittenMarker();
    assert Contents(d'.files) == Contents(d.files);
  }

  // ----- whole lives ------------------------------------------------------------------

  /** What systemd, an operator or a power supply may do next. */
  datatype Act = Preparing(ready: bool) | Running | Marking | Idling

  /** Any series of commands, reruns, kills and power losses. */
  method Live(g: Machine, acts: seq<Act>)
    requires Inv(g.seed, g.State())
    modifies g
    ensures Inv(g.seed, g.State())
  {
    hide Inv;
    for i := 0 to |acts|
      invariant Inv(g.seed, g.State())
    {
      match acts[i]
      case Preparing(ready) =>
        var x := g.Prepare(ready);
      case Running =>
        var x, launched := g.Run();
      case Marking =>
        var x := g.MarkStarted();
      case Idling =>
        var r := g.Step(Check);
    }
  }

  /** A valid marker means valid files, now and after any power loss. */
  lemma CommitIsDurable(seed: Payload, d: Disk, left: Files, data: bool)
    requires Inv(seed, d)
    ensures HasMarker(d.files, PreparedMark) ==> Installed(d.files)
    ensures var d' := AfterLoss(d, left, data);
            HasMarker(d'.files, PreparedMark) ==> Installed(d'.files) && InstalledFrom(seed, d'.files)
  {
    hide Acceptable, Cat, Installed;
    LossKeeps(seed, d, left, data);
    if HasMarker(d.files, PreparedMark) {
      FromSeed(seed, d.files);
    }
    if HasMarker(AfterLoss(d, left, data).files, PreparedMark) {
      FromSeed(seed, AfterLoss(d, left, data).files);
    }
  }

  /** Kills alone never leave `started`, or anything of k3s, without a valid `prepared`. */
  lemma StartedMeansPrepared(seed: Payload, d: Disk)
    requires Inv(seed, d) && !d.cut
    ensures HasMarker(d.files, StartedMark) || d.data ==> PreparedOk(d.files)
  {
    hide Acceptable, Installed, Cat;
    WrittenMarker();
    if Final(PreparedMark) in d.files {
      FromSeed(seed, d.files);
    }
  }

  /**
   * A power loss keeps that order exactly if the marker was synced or the node never started: a
   * run killed between marker and sync exits well when repeated, without syncing.
   */
  lemma LossKeepsOrderExactly(seed: Payload, d: Disk)
    requires Inv(seed, d) && !d.cut
    ensures (forall left, data :: HasMarker(AfterLoss(d, left, data).files, StartedMark) ==>
                                    PreparedOk(AfterLoss(d, left, data).files))
            <==> Final(PreparedMark) !in d.dirty || Final(StartedMark) !in d.files
  {
    hide Acceptable, Installed, Cat, PreparedOk;
    WrittenMarker();
    if Final(PreparedMark) !in d.dirty || Final(StartedMark) !in d.files {
      forall left, data | HasMarker(AfterLoss(d, left, data).files, StartedMark)
        ensures PreparedOk(AfterLoss(d, left, data).files)
      {
        OrderKept(seed, d, left, data);
      }
    } else {
      var left: Files := map[Final(StartedMark) := Entry("1\n", true)];
      var d' := AfterLoss(d, left, false);
      assert HasMarker(d'.files, StartedMark);
      assert Final(PreparedMark) !in d'.files;
      NoMarker(d'.files);
    }
  }

  lemma NoMarker(files: Files)
    ensures Final(PreparedMark) !in files ==> !PreparedOk(files)
  {
  }

  lemma OrderKept(seed: Payload, d: Disk, left: Files, data: bool)
    requires Inv(seed, d) && !d.cut && HasMarker(AfterLoss(d, left, data).files, StartedMark)
    requires Final(PreparedMark) !in d.dirty || Final(StartedMark) !in d.files
    ensures PreparedOk(AfterLoss(d, left, data).files)
  {
    hide Acceptable, Installed, Cat;
    WrittenMarker();
    var d' := AfterLoss(d, left, data);
    LossKeeps(seed, d, left, data);
    assert Final(StartedMark) in d.files;
    FromSeed(seed, d'.files);
  }

  /** This many commands done, and then a kill before the next takes effect. */
  function DoneThenKilled(n: nat): seq<Event> {
    seq(n, _ => Event.Fine) + [Killed(false, "")]
  }

  /**
   * The order is lost by a run of the script's own commands: a preparation killed between its
   * marker and the last sync, the rerun that finds it done, a mark-started killed before its own
   * sync, and a power loss that drops the first marker and keeps the second.
   */
  method LoseTheOrder(seed: Payload) returns (g: Machine)
    requires Acceptable(seed)
    ensures HasMarker(g.files, StartedMark) && !PreparedOk(g.files) && Inv(g.seed, g.State())
  {
    hide Inv, Acceptable, Installed, Cat, HasMarker;
    var left: Files := map[Final(StartedMark) := Entry("1\n", true)];
    g := new Machine(seed, map[], DoneThenKilled(25));
    assert Open(g.State(), true, seed);
    var x := g.Prepare(true);
    NoMarker(g.files);
    assert x == Perished && Final(PreparedMark) in g.files;
    g.script := [];
    x := g.Prepare(true);
    assert x == Exited(0) && Final(PreparedMark) in g.dirty;
    assert !HasMarker(g.files, StartedMark) by {
      NoStart(g.files);
    }
    g.script := DoneThenKilled(4);
    x := g.MarkStarted();
    g.script := [PowerLoss(left, false)];
    ghost var d := g.State();
    var r := g.Step(Check);
    StartedAlone(d, left);
  }

  lemma NoStart(files: Files)
    ensures Final(StartedMark) !in files ==> !HasMarker(files, StartedMark)
  {
  }

  lemma StartedAlone(d: Disk, left: Files)
    requires left == map[Final(StartedMark) := Entry("1\n", true)]
    requires Final(PreparedMark) in d.dirty && Final(StartedMark) in d.dirty
    ensures var d' := AfterLoss(d, left, false); HasMarker(d'.files, StartedMark) && !PreparedOk(d'.files)
  {
    hide Installed, Cat;
    WrittenMarker();
    NoMarker(AfterLoss(d, left, false).files);
  }
}

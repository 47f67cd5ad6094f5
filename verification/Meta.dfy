/** meta.py: the durable per-node record and its element form. */
module Meta {
  import opened Wrappers
  import opened Text
  import opened Names
  import opened Xml

  datatype Role = Server | Agent
  datatype State = Creating | Booting | Configuring | Configured | Failed | Deleting

  const NS := "https://github.com/SUSE-Rancher-Community/k3s-kvm-demo/2.0"
  const ROOT := "node"
  const MAX_ERROR_LEN := 512

  datatype NodeMeta = NodeMeta(role: Role, bootstrap: bool, volume: string, seedVolume: string, poolUuid: string,
                               prefix: string, created: string, generation: nat, state: State,
                               guestProtocol: nat, error: Option<string>)

  /** States that mean an operation was interrupted half-way. */
  predicate Incomplete(s: State) {
    s.Creating? || s.Deleting?
  }

  function RoleText(r: Role): string {
    match r case Server => "server" case Agent => "agent"
  }

  function ParseRole(s: string): Result<Role> {
    if s == "server" then Ok(Server) else if s == "agent" then Ok(Agent) else Err
  }

  function BoolText(b: bool): string {
    if b then "true" else "false"
  }

  function StateText(s: State): string {
    match s
    case Creating => "creating"
    case Booting => "booting"
    case Configuring => "configuring"
    case Configured => "configured"
    case Failed => "failed"
    case Deleting => "deleting"
  }

  function ParseState(s: string): Result<State> {
    if s == "creating" then Ok(Creating)
    else if s == "booting" then Ok(Booting)
    else if s == "configuring" then Ok(Configuring)
    else if s == "configured" then Ok(Configured)
    else if s == "failed" then Ok(Failed)
    else if s == "deleting" then Ok(Deleting)
    else Err
  }

  // ----- error text -------------------------------------------------------------------

  /** _clip: the normalisation every NodeMeta applies to its error. */
  function Clip(error: Option<string>): Option<string> {
    match error
    case None => None
    case Some(e) =>
      var text := Collapse(e);
      var cut := if |text| > MAX_ERROR_LEN then text[..MAX_ERROR_LEN - 1] + "…" else text;
      if cut == "" then None else Some(cut)
  }

  lemma CutIsNormal(text: string, n: nat)
    requires Normal(text) && 0 < n < |text|
    ensures Normal(text[..n] + "…")
  {
    var cut := text[..n] + "…";
    forall i | 0 <= i < |cut| ensures cut[i] == if i < n then text[i] else '…' {
    }
  }

  /**
   * Up to 512 characters clipping keeps all but white space, and a normal text as it is; beyond
   * that, the first 511 characters of the collapsed text.
   */
  lemma ClipIsExact(error: string)
    ensures Clip(Some(error)).None? <==> Ink(error) == ""
    ensures Normal(error) && |error| <= MAX_ERROR_LEN ==> Clip(Some(error)) == Some(error)
    ensures |Collapse(error)| <= MAX_ERROR_LEN && Clip(Some(error)).Some? ==> Ink(Clip(Some(error)).value) == Ink(error)
    ensures |Collapse(error)| > MAX_ERROR_LEN ==> Clip(Some(error)) == Some(Collapse(error)[..511] + "…")
    ensures Ink(Collapse(error)) == Ink(error)
  {
    CollapseKeepsInk(error);
    CollapsedIsNormal(error);
    if Collapse(error) != "" {
      assert Ink(Collapse(error)) != "";
    }
    if Normal(error) {
      CollapseKeepsNormal(error);
    }
  }

  /** A clipped error is normal, at most 512 characters, and clipping again changes nothing. */
  lemma ClipIsIdempotent(error: Option<string>)
    ensures Clip(error).Some? ==> Normal(Clip(error).value) && |Clip(error).value| <= MAX_ERROR_LEN
    ensures Clip(Clip(error)) == Clip(error)
  {
    if Clip(error).Some? {
      var text := Collapse(error.value);
      CollapsedIsNormal(error.value);
      if |text| > MAX_ERROR_LEN {
        CutIsNormal(text, MAX_ERROR_LEN - 1);
      }
      CollapseKeepsNormal(Clip(error).value);
    }
  }

  function Advanced(m: NodeMeta, state: State, error: Option<string>): NodeMeta {
    m.(state := state, error := Clip(error))
  }

  function Bumped(m: NodeMeta): NodeMeta {
    m.(generation := m.generation + 1)
  }

  /** The record _delete writes before it destroys anything. */
  function Intent(m: NodeMeta): NodeMeta {
    Advanced(Bumped(m), Deleting, None)
  }

  // ----- building and parsing ---------------------------------------------------------

  /** The names parse knows; all but `KError` must be present and not empty. */
  datatype Key = KRole | KBootstrap | KVolume | KSeed | KPool | KPrefix | KProtocol | KCreated | KGeneration | KState | KError

  function KeyText(k: Key): string {
    match k
    case KRole => "role"
    case KBootstrap => "bootstrap"
    case KVolume => "volume"
    case KSeed => "seed_volume"
    case KPool => "pool_uuid"
    case KPrefix => "scope_prefix"
    case KProtocol => "guest_protocol"
    case KCreated => "created"
    case KGeneration => "generation"
    case KState => "state"
    case KError => "error"
  }

  function ParseKey(s: string): Option<Key> {
    if s == "role" then Some(KRole)
    else if s == "bootstrap" then Some(KBootstrap)
    else if s == "volume" then Some(KVolume)
    else if s == "seed_volume" then Some(KSeed)
    else if s == "pool_uuid" then Some(KPool)
    else if s == "scope_prefix" then Some(KPrefix)
    else if s == "guest_protocol" then Some(KProtocol)
    else if s == "created" then Some(KCreated)
    else if s == "generation" then Some(KGeneration)
    else if s == "state" then Some(KState)
    else if s == "error" then Some(KError)
    else None
  }

  datatype Field = Field(key: Key, value: string)

  function FieldsOf(m: NodeMeta): seq<Field> {
    [ Field(KRole, RoleText(m.role)),
      Field(KBootstrap, BoolText(m.bootstrap)),
      Field(KVolume, m.volume),
      Field(KSeed, m.seedVolume),
      Field(KPool, m.poolUuid),
      Field(KPrefix, m.prefix),
      Field(KProtocol, Decimal(m.guestProtocol)),
      Field(KCreated, m.created),
      Field(KGeneration, Decimal(m.generation)),
      Field(KState, StateText(m.state)) ]
    + if m.error.Some? && m.error.value != "" then [Field(KError, m.error.value)] else []
  }

  function Leaves(ns: string, fields: seq<Field>): (es: seq<Element>)
    ensures |es| == |fields|
    ensures forall i :: 0 <= i < |es| ==> es[i] == Leaf(ns, KeyText(fields[i].key), fields[i].value)
  {
    if fields == [] then [] else [Leaf(ns, KeyText(fields[0].key), fields[0].value)] + Leaves(ns, fields[1..])
  }

  /** build_element: qualified for an inline definition, bare for setMetadata. */
  function Build(m: NodeMeta, qualified: bool): Element {
    var ns := if qualified then NS else "";
    Element(ns, ROOT, map[], "", "", Leaves(ns, FieldsOf(m)))
  }

  predicate FieldOk(ns: string, child: Element, fields: map<Key, string>) {
    && child.ns == ns
    && ParseKey(child.tag).Some? && ParseKey(child.tag).value !in fields
    && child.attrs == map[] && child.children == [] && Strip(child.tail) == ""
  }

  /** The dict after one more child, or None for an unexpected or duplicate field. */
  function Added(ns: string, child: Element, fields: Option<map<Key, string>>): Option<map<Key, string>> {
    if fields.Some? && FieldOk(ns, child, fields.value)
    then Some(fields.value[ParseKey(child.tag).value := Strip(child.text)])
    else None
  }

  predicate Complete(f: map<Key, string>) {
    forall k: Key :: k != KError ==> k in f && f[k] != ""
  }

  /** The dict parse fills from the children. */
  function Collected(ns: string, children: seq<Element>): Option<map<Key, string>> {
    if children == [] then Some(map[])
    else Added(ns, children[|children| - 1], Collected(ns, children[..|children| - 1]))
  }

  lemma {:induction false} CollectedSnoc(ns: string, children: seq<Element>, child: Element)
    ensures Collected(ns, children + [child]) == Added(ns, child, Collected(ns, children))
  {
    assert (children + [child])[..|children|] == children;
  }

  predicate Leap(y: nat) {
    y % 4 == 0 && (y % 100 != 0 || y % 400 == 0)
  }

  function DaysIn(y: nat, month: nat): nat {
    if month == 2 then (if Leap(y) then 29 else 28)
    else if month in {4, 6, 9, 11} then 30
    else 31
  }

  function Number(s: string): nat {
    var r := ParseDecimal(s);
    if r.Ok? then r.value else 0
  }

  predicate Numeric(s: string) {
    ParseDecimal(s).Ok?
  }

  /** A time stamp of the form now() writes: YYYY-MM-DDTHH:MM:SS+00:00. */
  predicate ValidCreated(s: string) {
    && |s| == 25
    && Numeric(s[..4]) && s[4] == '-' && Numeric(s[5..7]) && s[7] == '-' && Numeric(s[8..10]) && s[10] == 'T'
    && Numeric(s[11..13]) && s[13] == ':' && Numeric(s[14..16]) && s[16] == ':' && Numeric(s[17..19])
    && s[19..] == "+00:00"
    && 1 <= Number(s[..4])
    && 1 <= Number(s[5..7]) <= 12
    && 1 <= Number(s[8..10]) <= DaysIn(Number(s[..4]), Number(s[5..7]))
    && Number(s[11..13]) < 24 && Number(s[14..16]) < 60 && Number(s[17..19]) < 60
  }

  function Decoded(f: map<Key, string>): Result<NodeMeta>
    requires Complete(f)
  {
    var generation, protocol := ParseDecimal(f[KGeneration]), ParseDecimal(f[KProtocol]);
    var role, state := ParseRole(f[KRole]), ParseState(f[KState]);
    if generation.Err? || protocol.Err? || generation.value < 1 || protocol.value != 1 then Err
    else if !Canonical(f[KPool]) || !ValidPrefix(f[KPrefix]) || !ValidCreated(f[KCreated]) then Err
    else if role.Err? || state.Err? || f[KBootstrap] !in {"true", "false"} then Err
    else if f[KBootstrap] == "true" && role.value != Server then Err
    else if !VolumePattern(f[KPrefix], f[KVolume]) || !EndsWith(f[KVolume], ".qcow2") then Err
    else if !VolumePattern(f[KPrefix], f[KSeed]) || !EndsWith(f[KSeed], ".iso") then Err
    else
      Ok(NodeMeta(role.value, f[KBootstrap] == "true", f[KVolume], f[KSeed], f[KPool],
                  f[KPrefix], f[KCreated], generation.value, state.value, protocol.value,
                  Clip(if KError in f && f[KError] != "" then Some(f[KError]) else None)))
  }

  /** parse: Err stands for CompatibilityError. */
  function Parsed(root: Element): Result<NodeMeta> {
    if root.tag != ROOT || root.ns !in {"", NS} || root.attrs != map[] || Strip(root.text) != "" then Err
    else match Collected(root.ns, root.children)
      case None => Err
      case Some(f) =>
        if Complete(f) then Decoded(f) else Err
  }

  /** parse as it runs: one pass over the children, filling a dict. */
  method Parse(root: Element) returns (r: Result<NodeMeta>)
    ensures r == Parsed(root)
  {
    if root.tag != ROOT || root.ns !in {"", NS} || root.attrs != map[] || Strip(root.text) != "" {
      return Err;
    }
    var collected := Collect(root.ns, root.children);
    if collected.None? {
      return Err;
    }
    var fields := collected.value;
    if Complete(fields) {
      r := Decoded(fields);
    } else {
      r := Err;
    }
  }

  method Collect(ns: string, children: seq<Element>) returns (r: Option<map<Key, string>>)
    ensures r == Collected(ns, children)
  {
    var fields: map<Key, string> := map[];
    for i := 0 to |children|
      invariant Collected(ns, children[..i]) == Some(fields)
    {
      assert children[..i + 1] == children[..i] + [children[i]];
      CollectedSnoc(ns, children[..i], children[i]);
      if !FieldOk(ns, children[i], fields) {
        CollectedFails(ns, children, i + 1);
        return None;
      }
      fields := fields[ParseKey(children[i].tag).value := Strip(children[i].text)];
    }
    assert children[..|children|] == children;
    r := Some(fields);
  }

  lemma {:induction false} CollectedFails(ns: string, children: seq<Element>, k: nat)
    requires k <= |children| && Collected(ns, children[..k]).None?
    ensures Collected(ns, children).None?
  {
    if k == |children| {
      assert children[..k] == children;
    } else {
      assert children[..|children| - 1][..k] == children[..k];
      CollectedFails(ns, children[..|children| - 1], k);
    }
  }

  // ----- the round trip ---------------------------------------------------------------

  /** The records the application can mean: what parse accepts and every NodeMeta keeps. */
  predicate Valid(m: NodeMeta) {
    && (m.bootstrap ==> m.role.Server?)
    && ValidPrefix(m.prefix)
    && VolumePattern(m.prefix, m.volume) && EndsWith(m.volume, ".qcow2")
    && VolumePattern(m.prefix, m.seedVolume) && EndsWith(m.seedVolume, ".iso")
    && Canonical(m.poolUuid)
    && ValidCreated(m.created)
    && m.generation >= 1 && m.guestProtocol == 1
    && m.error == Clip(m.error)
  }

  predicate Trimmed(s: string) {
    s != "" && !IsSpace(s[0]) && !IsSpace(s[|s| - 1])
  }

  function DictOf(fields: seq<Field>): map<Key, string> {
    if fields == [] then map[]
    else DictOf(fields[..|fields| - 1])[fields[|fields| - 1].key := fields[|fields| - 1].value]
  }

  predicate WellFormed(fields: seq<Field>) {
    && (forall i :: 0 <= i < |fields| ==> Trimmed(fields[i].value))
    && (forall i, j :: 0 <= i < j < |fields| ==> fields[i].key != fields[j].key)
  }

  lemma {:induction false} DictHolds(fields: seq<Field>)
    requires WellFormed(fields)
    ensures forall i :: 0 <= i < |fields| ==> fields[i].key in DictOf(fields) && DictOf(fields)[fields[i].key] == fields[i].value
    ensures forall k :: k in DictOf(fields) ==> exists i :: 0 <= i < |fields| && fields[i].key == k
  {
    if fields != [] {
      DictHolds(fields[..|fields| - 1]);
    }
  }

  lemma {:induction false} CollectedFromLeaves(ns: string, fields: seq<Field>)
    requires WellFormed(fields)
    ensures Collected(ns, Leaves(ns, fields)) == Some(DictOf(fields))
  {
    if fields != [] {
      hide Collected, Added, KeyText, ParseKey, Trimmed, Leaves, Leaf, WellFormed;
      var front, last := fields[..|fields| - 1], fields[|fields| - 1];
      var leaf := Leaf(ns, KeyText(last.key), last.value);
      LeavesSnoc(ns, fields);
      WellFormedFront(fields);
      CollectedSnoc(ns, Leaves(ns, front), leaf);
      CollectedFromLeaves(ns, front);
      LeafIsAdded(ns, front, last);
    }
  }

  lemma WellFormedFront(fields: seq<Field>)
    requires WellFormed(fields) && fields != []
    ensures var front, last := fields[..|fields| - 1], fields[|fields| - 1];
            WellFormed(front) && Trimmed(last.value) && forall i :: 0 <= i < |front| ==> front[i].key != last.key
  {
    hide Trimmed;
  }

  lemma LeavesSnoc(ns: string, fields: seq<Field>)
    requires fields != []
    ensures var last := fields[|fields| - 1];
            Leaves(ns, fields) == Leaves(ns, fields[..|fields| - 1]) + [Leaf(ns, KeyText(last.key), last.value)]
  {
    hide Leaves, KeyText, Leaf;
  }

  lemma KeyRoundTrip(k: Key)
    ensures ParseKey(KeyText(k)) == Some(k)
  {
    match k
    case _ =>
  }

  lemma LeafIsAdded(ns: string, front: seq<Field>, last: Field)
    requires WellFormed(front) && Trimmed(last.value)
    requires forall i :: 0 <= i < |front| ==> front[i].key != last.key
    ensures Added(ns, Leaf(ns, KeyText(last.key), last.value), Some(DictOf(front))) == Some(DictOf(front)[last.key := last.value])
  {
    DictHolds(front);
    KeyRoundTrip(last.key);
    StripKeeps(last.value);
  }

  predicate TextsTrimmed(m: NodeMeta) {
    && Trimmed(m.volume) && Trimmed(m.seedVolume) && Trimmed(m.poolUuid) && Trimmed(m.prefix) && Trimmed(m.created)
    && (m.error.Some? ==> Trimmed(m.error.value))
  }

  lemma ValidIsTrimmed(m: NodeMeta)
    requires Valid(m)
    ensures TextsTrimmed(m)
  {
    assert m.volume[0] == m.volume[..|m.prefix|][0] == m.prefix[0];
    assert m.seedVolume[0] == m.seedVolume[..|m.prefix|][0] == m.prefix[0];
    assert m.volume[|m.volume| - 1] == m.volume[|m.volume| - 6..][5] == '2';
    assert m.seedVolume[|m.seedVolume| - 1] == m.seedVolume[|m.seedVolume| - 4..][3] == 'o';
    var h := ParseUuid(m.poolUuid).value;
    assert m.poolUuid[0] == h[0] && m.poolUuid[|m.poolUuid| - 1] == h[31];
    assert IsDigit(m.created[..4][0]) && m.created[..4][0] == m.created[0];
    assert m.created[|m.created| - 1] == m.created[19..][5];
    ClipIsIdempotent(m.error);
  }

  lemma WordsAreTrimmed(m: NodeMeta)
    ensures Trimmed(RoleText(m.role)) && Trimmed(StateText(m.state)) && Trimmed(BoolText(m.bootstrap))
    ensures Trimmed(Decimal(m.generation)) && Trimmed(Decimal(m.guestProtocol))
  {
    forall n: nat | n in {m.generation, m.guestProtocol} ensures Trimmed(Decimal(n)) {
      assert IsDigit(Decimal(n)[0]) && IsDigit(Decimal(n)[|Decimal(n)| - 1]);
    }
  }

  function Index(k: Key): nat {
    match k
    case KRole => 0 case KBootstrap => 1 case KVolume => 2 case KSeed => 3 case KPool => 4 case KPrefix => 5
    case KProtocol => 6 case KCreated => 7 case KGeneration => 8 case KState => 9 case KError => 10
  }

  lemma FieldsAreWellFormed(m: NodeMeta)
    requires TextsTrimmed(m)
    ensures WellFormed(FieldsOf(m))
    ensures |FieldsOf(m)| == if m.error.Some? then 11 else 10
    ensures forall i :: 0 <= i < |FieldsOf(m)| ==> Index(FieldsOf(m)[i].key) == i
  {
    WordsAreTrimmed(m);
    var fields := FieldsOf(m);
    forall i | 0 <= i < |fields| ensures Index(fields[i].key) == i && Trimmed(fields[i].value) {
    }
  }

  lemma ParsedIsValid(root: Element)
    ensures Parsed(root).Ok? ==> Valid(Parsed(root).value)
  {
    if Parsed(root).Ok? {
      var f := Collected(root.ns, root.children).value;
      ClipIsIdempotent(if KError in f && f[KError] != "" then Some(f[KError]) else None);
    }
  }

  function ValueText(m: NodeMeta, k: Key): string {
    match k
    case KRole => RoleText(m.role)
    case KBootstrap => BoolText(m.bootstrap)
    case KVolume => m.volume
    case KSeed => m.seedVolume
    case KPool => m.poolUuid
    case KPrefix => m.prefix
    case KProtocol => Decimal(m.guestProtocol)
    case KCreated => m.created
    case KGeneration => Decimal(m.generation)
    case KState => StateText(m.state)
    case KError => if m.error.Some? then m.error.value else ""
  }

  /** f is the dict that m's fields make. */
  ghost predicate Reads(m: NodeMeta, f: map<Key, string>) {
    && (forall k: Key {:trigger ValueText(m, k)} {:trigger k in f} ::
          (k in f <==> k != KError || m.error.Some?) && (k in f ==> f[k] == ValueText(m, k) && f[k] != ""))
  }

  lemma Lookup(fields: seq<Field>, k: Key)
    requires WellFormed(fields) && forall i :: 0 <= i < |fields| ==> Index(fields[i].key) == i
    ensures k in DictOf(fields) <==> Index(k) < |fields|
    ensures k in DictOf(fields) ==> DictOf(fields)[k] == fields[Index(k)].value && DictOf(fields)[k] != ""
  {
    hide DictOf;
    DictHolds(fields);
    if Index(k) < |fields| {
      assert fields[Index(k)].key == k;
    }
  }

  lemma FieldAt(m: NodeMeta, k: Key)
    requires TextsTrimmed(m)
    ensures Index(k) < |FieldsOf(m)| <==> k != KError || m.error.Some?
    ensures Index(k) < |FieldsOf(m)| ==> FieldsOf(m)[Index(k)].value == ValueText(m, k)
  {
  }

  lemma FieldsRead(m: NodeMeta)
    requires TextsTrimmed(m)
    ensures Reads(m, DictOf(FieldsOf(m)))
  {
    FieldsAreWellFormed(m);
    forall k: Key ensures
      var f := DictOf(FieldsOf(m));
      (k in f <==> k != KError || m.error.Some?) && (k in f ==> f[k] == ValueText(m, k) && f[k] != "")
    {
      Lookup(FieldsOf(m), k);
      FieldAt(m, k);
    }
  }

  lemma EnumsReadBack(m: NodeMeta)
    ensures ParseRole(RoleText(m.role)) == Ok(m.role) && ParseState(StateText(m.state)) == Ok(m.state)
    ensures BoolText(m.bootstrap) in {"true", "false"} && (BoolText(m.bootstrap) == "true") == m.bootstrap
  {
  }

  lemma DecodedBack(m: NodeMeta, f: map<Key, string>)
    requires Valid(m) && Reads(m, f)
    ensures Complete(f) && Decoded(f) == Ok(m)
  {
    ParseOfDecimal(m.generation);
    ParseOfDecimal(m.guestProtocol);
    EnumsReadBack(m);
    assert f[KRole] == ValueText(m, KRole) && f[KState] == ValueText(m, KState);
    assert f[KBootstrap] == ValueText(m, KBootstrap);
    assert f[KVolume] == ValueText(m, KVolume) && f[KSeed] == ValueText(m, KSeed);
    assert f[KPool] == ValueText(m, KPool) && f[KPrefix] == ValueText(m, KPrefix);
    assert f[KProtocol] == ValueText(m, KProtocol) && f[KGeneration] == ValueText(m, KGeneration);
    assert f[KCreated] == ValueText(m, KCreated);
    assert Clip(if KError in f && f[KError] != "" then Some(f[KError]) else None) == m.error by {
      if m.error.Some? {
        assert f[KError] == ValueText(m, KError);
      }
    }
  }

  lemma ParsedDecodes(root: Element, f: map<Key, string>)
    requires root.tag == ROOT && root.ns in {"", NS} && root.attrs == map[] && root.text == ""
    requires Collected(root.ns, root.children) == Some(f) && Complete(f)
    ensures Parsed(root) == Decoded(f)
  {
  }

  lemma WrittenReadsBack(m: NodeMeta, qualified: bool)
    requires Valid(m)
    ensures Parsed(Build(m, qualified)) == Ok(m)
  {
    hide Valid, Collected, DictOf, FieldsOf, Decoded, Complete, WellFormed, Reads, TextsTrimmed, Parsed;
    var fields := FieldsOf(m);
    ValidIsTrimmed(m);
    FieldsAreWellFormed(m);
    CollectedFromLeaves(if qualified then NS else "", fields);
    FieldsRead(m);
    DecodedBack(m, DictOf(fields));
    ParsedDecodes(Build(m, qualified), DictOf(fields));
  }

  /** A record survives being written and read back, bare or qualified, exactly when it is valid. */
  lemma RoundTrip(m: NodeMeta, qualified: bool)
    ensures Parsed(Build(m, qualified)) == Ok(m) <==> Valid(m)
  {
    ParsedIsValid(Build(m, qualified));
    if Valid(m) {
      WrittenReadsBack(m, qualified);
    }
  }

  // ----- what parse accepts -----------------------------------------------------------

  /** An element of this namespace that says one thing, by its text. */
  predicate PlainField(ns: string, child: Element, k: Key) {
    child.ns == ns && child.tag == KeyText(k) && child.attrs == map[] && child.children == [] && Strip(child.tail) == ""
  }

  /** The children are these fields, in this order, and none comes twice. */
  predicate Ordered(ns: string, children: seq<Element>, order: seq<Key>) {
    && |order| == |children|
    && (forall i, j :: 0 <= i < j < |order| ==> order[i] != order[j])
    && forall i :: 0 <= i < |order| ==> PlainField(ns, children[i], order[i])
  }

  /** f holds these fields with the texts of the children. */
  ghost predicate Holds(f: map<Key, string>, children: seq<Element>, order: seq<Key>) {
    && |order| == |children|
    && (forall k :: k in f <==> k in order)
    && forall i :: 0 <= i < |order| ==> order[i] in f && f[order[i]] == Strip(children[i].text)
  }

  lemma ParsedKey(s: string)
    ensures ParseKey(s).Some? ==> KeyText(ParseKey(s).value) == s
  {
  }

  lemma OrderedFront(ns: string, children: seq<Element>, order: seq<Key>)
    requires Ordered(ns, children, order) && children != []
    ensures var n := |children| - 1;
            Ordered(ns, children[..n], order[..n]) && PlainField(ns, children[n], order[n]) && order[n] !in order[..n]
  {
    hide PlainField;
  }

  lemma HoldsMore(f: map<Key, string>, children: seq<Element>, order: seq<Key>, child: Element, k: Key)
    requires Holds(f, children, order) && k !in f
    ensures Holds(f[k := Strip(child.text)], children + [child], order + [k])
  {
    hide Strip;
    var more, es := order + [k], children + [child];
    forall i | 0 <= i < |more| ensures more[i] in f[k := Strip(child.text)] && f[k := Strip(child.text)][more[i]] == Strip(es[i].text) {
      if i < |order| {
        assert more[i] == order[i] && es[i] == children[i];
      }
    }
  }

  lemma {:induction false} OrderedIsCollected(ns: string, children: seq<Element>, order: seq<Key>)
    requires Ordered(ns, children, order)
    ensures Collected(ns, children).Some? && Holds(Collected(ns, children).value, children, order)
  {
    hide PlainField, Strip, KeyText, ParseKey, Holds;
    if children == [] {
      Empty();
    } else {
      var n := |children| - 1;
      OrderedFront(ns, children, order);
      OrderedIsCollected(ns, children[..n], order[..n]);
      assert children == children[..n] + [children[n]] && order == order[..n] + [order[n]];
      NextIsAdded(ns, Collected(ns, children[..n]).value, children[..n], order[..n], children[n], order[n]);
    }
  }

  lemma Empty()
    ensures Holds(map[], [], [])
  {
  }

  lemma NextIsAdded(ns: string, f: map<Key, string>, children: seq<Element>, order: seq<Key>, child: Element, k: Key)
    requires Holds(f, children, order) && PlainField(ns, child, k) && k !in order
    ensures Added(ns, child, Some(f)) == Some(f[k := Strip(child.text)])
    ensures Holds(f[k := Strip(child.text)], children + [child], order + [k])
  {
    hide Strip, KeyText, ParseKey;
    KeyRoundTrip(k);
    HoldsMore(f, children, order, child, k);
  }

  lemma {:induction false} CollectedIsOrdered(ns: string, children: seq<Element>) returns (order: seq<Key>)
    requires Collected(ns, children).Some?
    ensures Ordered(ns, children, order) && Holds(Collected(ns, children).value, children, order)
  {
    hide Strip, KeyText, ParseKey, Holds;
    if children == [] {
      order := [];
      Empty();
    } else {
      var n := |children| - 1;
      var front := CollectedIsOrdered(ns, children[..n]);
      ParsedKey(children[n].tag);
      var k := ParseKey(children[n].tag).value;
      order := front + [k];
      assert children == children[..n] + [children[n]];
      HoldsMore(Collected(ns, children[..n]).value, children[..n], front, children[n], k);
      KeyIsNew(Collected(ns, children[..n]).value, children[..n], front, k);
    }
  }

  lemma KeyIsNew(f: map<Key, string>, children: seq<Element>, order: seq<Key>, k: Key)
    requires Holds(f, children, order) && k !in f
    ensures k !in order
  {
    hide Strip;
  }

  /** The text of field k says what m has there. */
  predicate Says(m: NodeMeta, k: Key, text: string) {
    match k
    case KProtocol => ParseDecimal(text) == Ok(m.guestProtocol)
    case KGeneration => ParseDecimal(text) == Ok(m.generation)
    case KError => m.error == Clip(Some(text))
    case _ => text == ValueText(m, k)
  }

  lemma DecodedExactly(f: map<Key, string>, m: NodeMeta)
    ensures Complete(f) && Decoded(f) == Ok(m)
            <==> Valid(m) && (forall k: Key :: k != KError ==> k in f) && (forall k :: k in f ==> Says(m, k, f[k]))
                 && (KError !in f ==> m.error.None?)
  {
    if Complete(f) && Decoded(f) == Ok(m) {
      DecodedSays(f, m);
    }
    if Valid(m) && (forall k: Key :: k != KError ==> k in f) && (forall k :: k in f ==> Says(m, k, f[k]))
       && (KError !in f ==> m.error.None?)
    {
      SaidIsDecoded(f, m);
    }
  }

  lemma DecodedSays(f: map<Key, string>, m: NodeMeta)
    requires Complete(f) && Decoded(f) == Ok(m)
    ensures Valid(m) && (forall k :: k in f ==> Says(m, k, f[k])) && (KError !in f ==> m.error.None?)
  {
    hide Clip, ValidPrefix, VolumePattern, EndsWith, Canonical, ValidCreated, ParseDecimal;
    ClipIsIdempotent(if KError in f && f[KError] != "" then Some(f[KError]) else None);
    ClipOfNothing();
    forall k | k in f ensures Says(m, k, f[k]) {
    }
  }

  lemma ClipOfNothing()
    ensures Clip(None) == None && Clip(Some("")) == None
  {
  }

  /** The texts m's fields may have. */
  predicate Texts(f: map<Key, string>, m: NodeMeta) {
    && (forall k: Key :: k != KError ==> k in f)
    && f[KRole] == RoleText(m.role) && f[KBootstrap] == BoolText(m.bootstrap) && f[KState] == StateText(m.state)
    && f[KVolume] == m.volume && f[KSeed] == m.seedVolume && f[KPool] == m.poolUuid && f[KPrefix] == m.prefix
    && f[KCreated] == m.created
    && ParseDecimal(f[KProtocol]) == Ok(m.guestProtocol) && ParseDecimal(f[KGeneration]) == Ok(m.generation)
    && (if KError in f then m.error == Clip(Some(f[KError])) else m.error.None?)
  }

  lemma SaidIsDecoded(f: map<Key, string>, m: NodeMeta)
    requires Valid(m) && (forall k: Key :: k != KError ==> k in f) && (forall k :: k in f ==> Says(m, k, f[k]))
    requires KError !in f ==> m.error.None?
    ensures Complete(f) && Decoded(f) == Ok(m)
  {
    hide Valid, Clip, Complete, Decoded, ParseDecimal;
    assert Says(m, KRole, f[KRole]) && Says(m, KBootstrap, f[KBootstrap]) && Says(m, KState, f[KState]);
    assert Says(m, KVolume, f[KVolume]) && Says(m, KSeed, f[KSeed]) && Says(m, KPool, f[KPool]) && Says(m, KPrefix, f[KPrefix]);
    assert Says(m, KCreated, f[KCreated]) && Says(m, KProtocol, f[KProtocol]) && Says(m, KGeneration, f[KGeneration]);
    assert Texts(f, m);
    TextsAreComplete(f, m);
    TextsAreDecoded(f, m);
  }

  lemma TextsAreComplete(f: map<Key, string>, m: NodeMeta)
    requires Valid(m) && Texts(f, m)
    ensures Complete(f)
  {
    hide Valid, Clip, Decoded;
    ValidIsTrimmed(m);
    WordsAreTrimmed(m);
    forall k: Key | k != KError ensures k in f && f[k] != "" {
      match k {
        case _ =>
      }
    }
  }

  lemma TextsAreDecoded(f: map<Key, string>, m: NodeMeta)
    requires Valid(m) && Texts(f, m) && Complete(f)
    ensures Decoded(f) == Ok(m)
  {
    hide Complete, Clip, ValidPrefix, VolumePattern, EndsWith, Canonical, ValidCreated, ParseDecimal, RoleText, StateText, BoolText,
      ParseRole, ParseState;
    EnumsReadBack(m);
    ClipOfNothing();
  }

  /**
   * parse accepts exactly this: an element named node, bare or in the namespace, without attributes
   * or text; below it the ten fields, and perhaps an error, each once, in any order, in the same
   * namespace and with nothing but a text; and the texts are those of a valid record, which it
   * returns with the error clipped.
   */
  lemma AcceptsExactly(root: Element, m: NodeMeta)
    ensures Parsed(root) == Ok(m) <==>
              && root.tag == "node" && root.ns in {"", NS} && root.attrs == map[] && Strip(root.text) == "" && Valid(m)
              && exists order ::
                   && Ordered(root.ns, root.children, order) && |order| == |root.children|
                   && (forall k: Key :: k != KError ==> k in order) && (KError !in order ==> m.error.None?)
                   && (forall i :: 0 <= i < |order| ==> Says(m, order[i], Strip(root.children[i].text)))
  {
    hide Collected, Decoded, Complete, Valid, Strip, Says, Ordered;
    if Parsed(root) == Ok(m) {
      var order := CollectedIsOrdered(root.ns, root.children);
      DecodedExactly(Collected(root.ns, root.children).value, m);
    }
    forall order |
      && root.tag == "node" && root.ns in {"", NS} && root.attrs == map[] && Strip(root.text) == "" && Valid(m)
      && Ordered(root.ns, root.children, order) && |order| == |root.children|
      && (forall k: Key :: k != KError ==> k in order) && (KError !in order ==> m.error.None?)
      && (forall i :: 0 <= i < |order| ==> Says(m, order[i], Strip(root.children[i].text)))
      ensures Parsed(root) == Ok(m)
    {
      OrderedIsParsed(root, m, order);
    }
  }

  lemma OrderedIsParsed(root: Element, m: NodeMeta, order: seq<Key>)
    requires root.tag == "node" && root.ns in {"", NS} && root.attrs == map[] && Strip(root.text) == "" && Valid(m)
    requires Ordered(root.ns, root.children, order) && |order| == |root.children|
    requires (forall k: Key :: k != KError ==> k in order) && (KError !in order ==> m.error.None?)
    requires forall i :: 0 <= i < |order| ==> Says(m, order[i], Strip(root.children[i].text))
    ensures Parsed(root) == Ok(m)
  {
    hide Collected, Decoded, Complete, Valid, Strip, Says, Ordered;
    OrderedIsCollected(root.ns, root.children, order);
    var f := Collected(root.ns, root.children).value;
    forall k | k in f ensures Says(m, k, f[k]) {
      var i :| 0 <= i < |order| && order[i] == k;
    }
    DecodedExactly(f, m);
  }
}

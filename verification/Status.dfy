/** The seven-line status protocol: what the guest prints and what observer.py makes of it. */
module Status {
  import opened Wrappers
  import opened Text
  import opened Names

  /** The states systemd may report, with `unknown` for anything else. */
  datatype Unit = Active | Reloading | Inactive | Failed | Activating | Deactivating | Maintenance | Refreshing | Unknown

  datatype ErrorCode = NoError | PrepareFailed | K3sFailed

  datatype GuestStatus = GuestStatus(nodeUuid: string, prepared: bool, started: bool, prepareState: Unit,
                                     k3sState: Unit, errorCode: ErrorCode)

  datatype Key = Protocol | NodeUuid | Prepared | Started | PrepareState | K3sState | ErrorField

  const KEYS := [Protocol, NodeUuid, Prepared, Started, PrepareState, K3sState, ErrorField]

  function KeyName(k: Key): string {
    match k
    case Protocol => "protocol"
    case NodeUuid => "node_uuid"
    case Prepared => "prepared"
    case Started => "started"
    case PrepareState => "prepare_state"
    case K3sState => "k3s_state"
    case ErrorField => "error_code"
  }

  function ParseKey(s: string): Option<Key> {
    if s == KeyName(Protocol) then Some(Protocol)
    else if s == KeyName(NodeUuid) then Some(NodeUuid)
    else if s == KeyName(Prepared) then Some(Prepared)
    else if s == KeyName(Started) then Some(Started)
    else if s == KeyName(PrepareState) then Some(PrepareState)
    else if s == KeyName(K3sState) then Some(K3sState)
    else if s == KeyName(ErrorField) then Some(ErrorField)
    else None
  }

  lemma KeyNames(k: Key)
    ensures ParseKey(KeyName(k)) == Some(k)
    ensures '=' !in KeyName(k) && '\n' !in KeyName(k)
    ensures |KeyName(k)| <= 13 && Ascii(KeyName(k))
  {
  }

  lemma ParsedKey(s: string)
    ensures ParseKey(s).Some? ==> KeyName(ParseKey(s).value) == s
  {
  }

  predicate Ascii(s: string) {
    forall i :: 0 <= i < |s| ==> s[i] < '\U{80}'
  }

  function UnitName(u: Unit): string {
    match u
    case Active => "active"
    case Reloading => "reloading"
    case Inactive => "inactive"
    case Failed => "failed"
    case Activating => "activating"
    case Deactivating => "deactivating"
    case Maintenance => "maintenance"
    case Refreshing => "refreshing"
    case Unknown => "unknown"
  }

  /** A member of SYSTEMD_STATES. */
  function ParseUnit(s: string): Option<Unit> {
    if s == UnitName(Active) then Some(Active)
    else if s == UnitName(Reloading) then Some(Reloading)
    else if s == UnitName(Inactive) then Some(Inactive)
    else if s == UnitName(Failed) then Some(Failed)
    else if s == UnitName(Activating) then Some(Activating)
    else if s == UnitName(Deactivating) then Some(Deactivating)
    else if s == UnitName(Maintenance) then Some(Maintenance)
    else if s == UnitName(Refreshing) then Some(Refreshing)
    else if s == UnitName(Unknown) then Some(Unknown)
    else None
  }

  function ErrorName(e: ErrorCode): string {
    match e
    case NoError => "none"
    case PrepareFailed => "prepare-failed"
    case K3sFailed => "k3s-failed"
  }

  function ParseError(s: string): Option<ErrorCode> {
    if s == ErrorName(NoError) then Some(NoError)
    else if s == ErrorName(PrepareFailed) then Some(PrepareFailed)
    else if s == ErrorName(K3sFailed) then Some(K3sFailed)
    else None
  }

  function Flag(b: bool): string {
    if b then "1" else "0"
  }

  function ParseFlag(s: string): Option<bool> {
    if s == "1" then Some(true) else if s == "0" then Some(false) else None
  }

  lemma UnitNames(u: Unit)
    ensures ParseUnit(UnitName(u)) == Some(u)
    ensures '\n' !in UnitName(u) && |UnitName(u)| <= 12 && Ascii(UnitName(u))
  {
  }

  lemma ErrorNames(e: ErrorCode)
    ensures ParseError(ErrorName(e)) == Some(e)
    ensures '\n' !in ErrorName(e) && |ErrorName(e)| <= 14 && Ascii(ErrorName(e))
  {
  }

  // ----- lines ------------------------------------------------------------------------

  function Line(k: Key, value: string): string {
    KeyName(k) + ['='] + value
  }

  /** line.partition("="), with a key of the protocol. */
  function ParseLine(line: string): Option<(Key, string)> {
    var i := Find(line, '=');
    if i < |line| && ParseKey(line[..i]).Some? then Some((ParseKey(line[..i]).value, line[i + 1..])) else None
  }

  lemma LineParses(k: Key, value: string)
    ensures ParseLine(Line(k, value)) == Some((k, value))
  {
    hide KeyName, ParseKey;
    KeyNames(k);
    FindFirst(KeyName(k), '=', value);
    var line := Line(k, value);
    assert line[..|KeyName(k)|] == KeyName(k) && line[|KeyName(k)| + 1..] == value;
  }

  lemma ParsedLine(line: string)
    ensures ParseLine(line).Some? ==> line == Line(ParseLine(line).value.0, ParseLine(line).value.1)
  {
    hide KeyName, ParseKey;
    var i := Find(line, '=');
    if ParseLine(line).Some? {
      ParsedKey(line[..i]);
      assert line == line[..i] + [line[i]] + line[i + 1..];
    }
  }

  // ----- the parser -------------------------------------------------------------------

  /** text.removesuffix("\n"). */
  function Body(text: string): string {
    if text != "" && text[|text| - 1] == '\n' then text[..|text| - 1] else text
  }

  predicate Readable(text: string) {
    |text| <= 1024 && Ascii(text)
  }

  /** The fields of the lines, or None if one is no field or comes twice. */
  function Collected(lines: seq<string>): Option<map<Key, string>> {
    if lines == [] then Some(map[])
    else
      var n := |lines| - 1;
      var before := Collected(lines[..n]);
      var field := ParseLine(lines[n]);
      if before.None? || field.None? || field.value.0 in before.value then None
      else Some(before.value[field.value.0 := field.value.1])
  }

  /** What the checked fields mean, or None for a ValueError. */
  function Decoded(f: map<Key, string>): Option<GuestStatus> {
    if exists k :: k in KEYS && k !in f then None
    else if f[Protocol] != "1" || ParseFlag(f[Prepared]).None? || ParseFlag(f[Started]).None? then None
    else if ParseUnit(f[PrepareState]).None? || ParseUnit(f[K3sState]).None? || ParseError(f[ErrorField]).None? then None
    else
      var prepared, started := ParseFlag(f[Prepared]).value, ParseFlag(f[Started]).value;
      var identity := ParseUuid(f[NodeUuid]);
      if f[NodeUuid] != "" && identity.Err? then None
      else if f[NodeUuid] == "" && (prepared || started) then None
      else Some(GuestStatus(if f[NodeUuid] == "" then "" else UuidText(identity.value), prepared, started,
                            ParseUnit(f[PrepareState]).value, ParseUnit(f[K3sState]).value, ParseError(f[ErrorField]).value))
  }

  function Parsed(text: string): Option<GuestStatus> {
    if !Readable(text) then None
    else
      var fields := Collected(Split(Body(text), '\n'));
      if fields.None? then None else Decoded(fields.value)
  }

  lemma {:induction false} CollectedFails(lines: seq<string>, k: nat)
    requires k <= |lines| && Collected(lines[..k]).None?
    ensures Collected(lines).None?
  {
    if k == |lines| {
      assert lines[..k] == lines;
    } else {
      assert lines[..|lines| - 1][..k] == lines[..k];
      CollectedFails(lines[..|lines| - 1], k);
    }
  }

  /** parse_guest_status. */
  method ParseGuestStatus(text: string) returns (r: Option<GuestStatus>)
    ensures r == Parsed(text)
  {
    hide Decoded, ParseLine;
    if !Readable(text) {
      return None;
    }
    var lines := Split(Body(text), '\n');
    var fields: map<Key, string> := map[];
    for i := 0 to |lines|
      invariant Collected(lines[..i]) == Some(fields)
    {
      assert lines[..i + 1][..i] == lines[..i];
      var field := ParseLine(lines[i]);
      if field.None? || field.value.0 in fields {
        CollectedFails(lines, i + 1);
        return None;
      }
      fields := fields[field.value.0 := field.value.1];
    }
    assert lines[..|lines|] == lines;
    r := Decoded(fields);
  }

  // ----- what the parser accepts ------------------------------------------------------

  function Lines(order: seq<Key>, f: map<Key, string>): (lines: seq<string>)
    requires forall k :: k in order ==> k in f
    ensures |lines| == |order| && forall i :: 0 <= i < |lines| ==> lines[i] == Line(order[i], f[order[i]])
  {
    seq(|order|, i requires 0 <= i < |order| => Line(order[i], f[order[i]]))
  }

  predicate Distinct(order: seq<Key>) {
    forall i, j :: 0 <= i < j < |order| ==> order[i] != order[j]
  }

  ghost predicate AllKeys(f: map<Key, string>) {
    forall k: Key :: k in f
  }

  lemma {:induction false} CollectsLines(lines: seq<string>, order: seq<Key>, f: map<Key, string>, n: nat)
    requires AllKeys(f) && Distinct(order) && lines == Lines(order, f) && n <= |lines|
    ensures Collected(lines[..n]).Some?
    ensures forall k :: k in Collected(lines[..n]).value <==> k in order[..n]
    ensures forall k :: k in order[..n] ==> k in Collected(lines[..n]).value && Collected(lines[..n]).value[k] == f[k]
  {
    hide ParseLine, Line, Lines;
    if n > 0 {
      CollectsLines(lines, order, f, n - 1);
      assert lines[..n][..n - 1] == lines[..n - 1];
      assert order[..n] == order[..n - 1] + [order[n - 1]];
      LineParses(order[n - 1], f[order[n - 1]]);
      assert order[n - 1] !in order[..n - 1];
    }
  }

  /** The order in which collected lines hold their fields. */
  function OrderOf(lines: seq<string>): (order: seq<Key>)
    requires Collected(lines).Some?
    ensures |order| == |lines|
    ensures forall k :: k in order <==> k in Collected(lines).value
  {
    if lines == [] then []
    else
      var n := |lines| - 1;
      OrderOf(lines[..n]) + [ParseLine(lines[n]).value.0]
  }

  lemma {:induction false} CollectedAt(lines: seq<string>, i: nat)
    requires Collected(lines).Some? && i < |lines|
    ensures OrderOf(lines)[i] in Collected(lines).value
    ensures lines[i] == Line(OrderOf(lines)[i], Collected(lines).value[OrderOf(lines)[i]])
  {
    hide ParseLine, Line;
    var n := |lines| - 1;
    if i < n {
      CollectedAt(lines[..n], i);
      assert lines[i] == lines[..n][i];
    } else {
      ParsedLine(lines[n]);
    }
  }

  lemma {:induction false} CollectedOnce(lines: seq<string>)
    requires Collected(lines).Some?
    ensures Distinct(OrderOf(lines))
  {
    hide ParseLine, Line;
    if lines != [] {
      var n := |lines| - 1;
      CollectedOnce(lines[..n]);
      assert ParseLine(lines[n]).value.0 !in OrderOf(lines[..n]);
    }
  }

  predicate OneLine(f: map<Key, string>) {
    forall k :: k in f ==> '\n' !in f[k]
  }

  /** A text whose lines are these fields in this order, with or without a last newline. */
  ghost predicate Spells(text: string, order: seq<Key>, f: map<Key, string>) {
    && AllKeys(f) && OneLine(f) && Distinct(order) && (forall k: Key :: k in order)
    && text in {Join(Lines(order, f), '\n'), Join(Lines(order, f), '\n') + "\n"}
  }

  /**
   * The parser accepts a text exactly when it is short, plain ASCII and spells the seven fields,
   * each once and in any order, with values that mean a status; and then it returns that status.
   */
  lemma AcceptsExactly(text: string, st: GuestStatus)
    ensures Parsed(text) == Some(st) <==>
              Readable(text) && exists order, f :: Spells(text, order, f) && Denotes(f, st)
  {
    hide Decoded, Collected, ParseLine, Line, Denotes;
    if Parsed(text) == Some(st) {
      AcceptedSpells(text, st);
    }
    if Readable(text) {
      forall order, f | Spells(text, order, f) && Denotes(f, st) ensures Parsed(text) == Some(st) {
        SpellingIsParsed(text, order, f);
        DecodedMeans(f, st);
      }
    }
  }

  /** The values are the names of what st says, and no success comes without an identity. */
  ghost predicate Denotes(f: map<Key, string>, st: GuestStatus)
    requires AllKeys(f)
  {
    && f[Protocol] == "1" && f[Prepared] == Flag(st.prepared) && f[Started] == Flag(st.started)
    && f[PrepareState] == UnitName(st.prepareState) && f[K3sState] == UnitName(st.k3sState)
    && f[ErrorField] == ErrorName(st.errorCode) && Coherent(st)
    && (if f[NodeUuid] == "" then st.nodeUuid == ""
        else exists h :: ParseUuid(f[NodeUuid]) == Ok(h) && st.nodeUuid == UuidText(h))
  }

  lemma DecodedMeans(f: map<Key, string>, st: GuestStatus)
    requires AllKeys(f)
    ensures Decoded(f) == Some(st) <==> Denotes(f, st)
  {
    hide ParseUuid, UuidText, UnitName, ParseUnit, ErrorName, ParseError, Flag, ParseFlag;
    UnitNames(st.prepareState);
    UnitNames(st.k3sState);
    ErrorNames(st.errorCode);
    FlagNames(st.prepared);
    FlagNames(st.started);
    NamedUnit(f[PrepareState]);
    NamedUnit(f[K3sState]);
    NamedError(f[ErrorField]);
    NamedFlag(f[Prepared]);
    NamedFlag(f[Started]);
    ParsedUuidText(f[NodeUuid]);
    assert forall k :: k in KEYS ==> k in f;
  }

  lemma NamedUnit(s: string)
    ensures ParseUnit(s).Some? ==> UnitName(ParseUnit(s).value) == s
  {
  }

  lemma NamedError(s: string)
    ensures ParseError(s).Some? ==> ErrorName(ParseError(s).value) == s
  {
  }

  lemma FlagNames(b: bool)
    ensures ParseFlag(Flag(b)) == Some(b)
  {
  }

  lemma NamedFlag(s: string)
    ensures ParseFlag(s).Some? ==> Flag(ParseFlag(s).value) == s
  {
  }

  lemma ParsedUuidText(s: string)
    ensures ParseUuid(s).Ok? ==> UuidText(ParseUuid(s).value) != ""
  {
  }

  lemma AcceptedSpells(text: string, st: GuestStatus)
    requires Parsed(text) == Some(st)
    ensures exists order, f :: Spells(text, order, f) && Denotes(f, st)
  {
    hide ParseLine, Line, Decoded, Collected, Split, Join, Denotes;
    var lines := Split(Body(text), '\n');
    var f, order := Collected(lines).value, OrderOf(lines);
    CollectedOnce(lines);
    DecodedHasAll(f);
    SplitParts(Body(text), '\n');
    assert lines == Lines(order, f) by {
      forall i | 0 <= i < |lines| ensures lines[i] == Line(order[i], f[order[i]]) {
        CollectedAt(lines, i);
      }
    }
    ValuesAreOneLine(lines, order, f);
    BodyAgain(text);
    assert Spells(text, order, f);
    DecodedMeans(f, st);
  }

  lemma BodyAgain(text: string)
    ensures text in {Body(text), Body(text) + "\n"}
  {
    if text != "" {
      assert text == text[..|text| - 1] + [text[|text| - 1]];
    }
  }

  lemma EveryKey(k: Key)
    ensures k in KEYS
  {
    match k {
      case Protocol => assert KEYS[0] == k;
      case NodeUuid => assert KEYS[1] == k;
      case Prepared => assert KEYS[2] == k;
      case Started => assert KEYS[3] == k;
      case PrepareState => assert KEYS[4] == k;
      case K3sState => assert KEYS[5] == k;
      case ErrorField => assert KEYS[6] == k;
    }
  }

  lemma DecodedHasAll(f: map<Key, string>)
    requires Decoded(f).Some?
    ensures AllKeys(f)
  {
    hide ParseUnit, ParseError, ParseFlag, ParseUuid;
    forall k: Key ensures k in f {
      EveryKey(k);
    }
  }

  lemma ValuesAreOneLine(lines: seq<string>, order: seq<Key>, f: map<Key, string>)
    requires AllKeys(f) && lines == Lines(order, f) && (forall k :: k in f ==> k in order)
    requires forall l :: l in lines ==> '\n' !in l
    ensures OneLine(f)
  {
    hide KeyName;
    forall k | k in f ensures '\n' !in f[k] {
      var i :| 0 <= i < |order| && order[i] == k;
      assert lines[i] in lines;
      assert forall j :: 0 <= j < |f[k]| ==> f[k][j] == lines[i][|KeyName(k)| + 1 + j];
    }
  }

  lemma SpellingIsParsed(text: string, order: seq<Key>, f: map<Key, string>)
    requires Readable(text) && Spells(text, order, f)
    ensures Parsed(text) == Decoded(f)
  {
    hide Decoded, ParseLine, Line;
    var lines := Lines(order, f);
    forall l | l in lines ensures '\n' !in l && l != "" {
      var i :| 0 <= i < |lines| && lines[i] == l;
      LineHasNoBreak(order[i], f[order[i]]);
    }
    assert Protocol in order;
    LastIsNoBreak(lines);
    SplitJoin(lines, '\n');
    assert Body(text) == Join(lines, '\n');
    CollectsLines(lines, order, f, |lines|);
    assert lines[..|lines|] == lines && order[..|order|] == order;
    assert Collected(lines).value == f;
  }

  lemma LineHasNoBreak(k: Key, value: string)
    requires '\n' !in value
    ensures '\n' !in Line(k, value) && Line(k, value) != ""
  {
    hide KeyName;
    KeyNames(k);
  }

  /** Joined lines do not end in a newline of their own. */
  lemma {:induction false} LastIsNoBreak(lines: seq<string>)
    requires lines != [] && forall l :: l in lines ==> '\n' !in l && l != ""
    ensures var s := Join(lines, '\n'); s != "" && s[|s| - 1] != '\n'
  {
    assert lines[0] in lines;
    if |lines| > 1 {
      assert forall l :: l in lines[1..] ==> l in lines;
      LastIsNoBreak(lines[1..]);
    } else {
      assert lines[0][|lines[0]| - 1] in lines[0];
    }
  }

  // ----- the printer ------------------------------------------------------------------

  /** The values the guest's status command prints. */
  function Values(st: GuestStatus): map<Key, string> {
    map[Protocol := "1", NodeUuid := st.nodeUuid, Prepared := Flag(st.prepared), Started := Flag(st.started),
        PrepareState := UnitName(st.prepareState), K3sState := UnitName(st.k3sState), ErrorField := ErrorName(st.errorCode)]
  }

  function Printed(st: GuestStatus): string {
    Join(Lines(KEYS, Values(st)), '\n') + "\n"
  }

  /** The identities a guest prints: none, or one in canonical form. */
  ghost predicate Identity(s: string) {
    s == "" || exists h :: Hex32(h) && s == UuidText(h)
  }

  predicate Coherent(st: GuestStatus) {
    st.nodeUuid == "" ==> !st.prepared && !st.started
  }

  lemma ShortLine(k: Key, value: string)
    requires |value| <= 36 && Ascii(value)
    ensures |Line(k, value)| <= 50 && Ascii(Line(k, value))
  {
    hide KeyName;
    KeyNames(k);
  }

  lemma {:induction false} JoinedIsShort(lines: seq<string>)
    requires forall l :: l in lines ==> |l| <= 50 && Ascii(l)
    ensures |Join(lines, '\n')| <= 51 * |lines| && Ascii(Join(lines, '\n'))
  {
    if lines != [] {
      assert lines[0] in lines;
      if |lines| > 1 {
        assert forall l :: l in lines[1..] ==> l in lines;
        JoinedIsShort(lines[1..]);
      }
    }
  }

  lemma UuidIsPlain(h: string)
    requires Hex32(h)
    ensures |UuidText(h)| == 36 && Ascii(UuidText(h)) && '\n' !in UuidText(h) && UuidText(h) != ""
  {
    var s := UuidText(h);
    forall i | 0 <= i < |s| ensures s[i] == '-' || HexDigit(s[i]) {
    }
  }

  lemma ValuesAreShort(st: GuestStatus, k: Key)
    requires Identity(st.nodeUuid)
    ensures k in Values(st) && |Values(st)[k]| <= 36 && Ascii(Values(st)[k]) && '\n' !in Values(st)[k]
  {
    hide UnitName, ErrorName, UuidText;
    UnitNames(st.prepareState);
    UnitNames(st.k3sState);
    ErrorNames(st.errorCode);
    if st.nodeUuid != "" {
      var h :| Hex32(h) && st.nodeUuid == UuidText(h);
      UuidIsPlain(h);
    }
  }

  lemma DecodesValues(st: GuestStatus)
    requires Identity(st.nodeUuid)
    ensures Decoded(Values(st)) == if Coherent(st) then Some(st) else None
  {
    hide UnitName, ParseUnit, ErrorName, ParseError, UuidText, ParseUuid;
    UnitNames(st.prepareState);
    UnitNames(st.k3sState);
    ErrorNames(st.errorCode);
    var f := Values(st);
    assert forall k :: k in KEYS ==> k in f;
    if st.nodeUuid != "" {
      var h :| Hex32(h) && st.nodeUuid == UuidText(h);
      UuidRoundTrip(h);
      UuidIsPlain(h);
    }
  }

  lemma PrintedIsReadable(st: GuestStatus)
    requires Identity(st.nodeUuid)
    ensures Readable(Printed(st))
  {
    hide Line, Values, Join;
    forall k: Key ensures k in Values(st) && |Values(st)[k]| <= 36 && Ascii(Values(st)[k]) {
      ValuesAreShort(st, k);
    }
    var lines := Lines(KEYS, Values(st));
    forall l | l in lines ensures |l| <= 50 && Ascii(l) {
      var i :| 0 <= i < |lines| && lines[i] == l;
      ShortLine(KEYS[i], Values(st)[KEYS[i]]);
    }
    JoinedIsShort(lines);
    assert |KEYS| == 7;
  }

  /**
   * Printer and parser undo each other: a printed status is accepted exactly when it claims no
   * success without an identity, and it decodes to the very fields that were printed.
   */
  lemma PrintedIsParsed(st: GuestStatus)
    requires Identity(st.nodeUuid)
    ensures Parsed(Printed(st)) == if Coherent(st) then Some(st) else None
  {
    hide Decoded, Line, Values, Join, Lines, Parsed, Readable;
    var f := Values(st);
    forall k: Key ensures k in f && '\n' !in f[k] && k in KEYS {
      ValuesAreShort(st, k);
      EveryKey(k);
    }
    PrintedIsReadable(st);
    assert Spells(Printed(st), KEYS, f);
    SpellingIsParsed(Printed(st), KEYS, f);
    DecodesValues(st);
  }
}

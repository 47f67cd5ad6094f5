/**
 * libvirt as the application sees it: every call may succeed, raise before or after its effect,
 * or be the last thing the process does, and guests power themselves off at any moment.
 */
module Hypervisor {
  import opened Wrappers
  import opened Xml
  import opened Meta
  import opened Lifecycle

  /** `Rejected` is the error by which a driver says it does not know a flag; after `Ignored` the call only seems done. */
  datatype Fault = Done | Before | After | DieBefore | DieAfter | Rejected | Ignored

  /** What happens around one call: these guests stop first, then the call fares so. */
  datatype Event = Event(stopped: set<string>, fault: Fault)

  datatype Reply = Fine | Raised | Missing | Unsupported | Died

  datatype Command =
    | Look
    | Define(u: string, domain: Domain)
    | CreateVolume(volume: string)
    | WriteRecord(u: string, meta: NodeMeta)
    | WriteIntent(u: string, meta: NodeMeta)
    | Start(u: string)
    | Destroy(u: string)
    | DeleteVolume(volume: string)
    | Undefine(u: string)

  const QUIET := Event({}, Done)

  function Head(script: seq<Event>): Event {
    if script == [] then QUIET else script[0]
  }

  function TailOf(script: seq<Event>): seq<Event> {
    if script == [] then [] else script[1..]
  }

  /** What is left of a script after n calls, and what its n-th call meets. */
  function Rest(script: seq<Event>, n: nat): seq<Event> {
    if n <= |script| then script[n..] else []
  }

  function EventAt(script: seq<Event>, n: nat): Event {
    if n < |script| then script[n] else QUIET
  }

  lemma OneCall(script: seq<Event>, n: nat)
    ensures Rest(script, 0) == script && EventAt(script, 0) == Head(script) && Rest(script, 1) == TailOf(script)
    ensures Head(Rest(script, n)) == EventAt(script, n) && TailOf(Rest(script, n)) == Rest(script, n + 1)
  {
  }

  /** The next n calls are done, whatever guests stop around them. */
  predicate DoneFor(script: seq<Event>, n: nat) {
    forall i :: 0 <= i < n ==> EventAt(script, i).fault.Done?
  }

  lemma DoneOneMore(script: seq<Event>, n: nat)
    ensures DoneFor(script, 0) && (DoneFor(script, n + 1) <==> DoneFor(script, n) && EventAt(script, n).fault.Done?)
    ensures Head(Rest(script, n)) == EventAt(script, n) && TailOf(Rest(script, n)) == Rest(script, n + 1)
    ensures Rest(script, 0) == script
  {
  }

  /** The next n calls are done and no guest stops. */
  predicate QuietFor(script: seq<Event>, n: nat) {
    forall i :: 0 <= i < n ==> EventAt(script, i) == QUIET
  }

  /** A call that is not refused has its effect, whatever becomes of its reply. */
  predicate Landed(e: Event) {
    e.fault in {Done, After, DieAfter}
  }

  /** Calls may fail, but no guest stops on its own. */
  predicate Calm(script: seq<Event>) {
    forall e :: e in script ==> e.stopped == {}
  }

  lemma CalmCall(script: seq<Event>)
    requires Calm(script)
    ensures Head(script).stopped == {} && Calm(TailOf(script))
  {
    if script != [] {
      assert script[0] in script;
      assert forall e :: e in script[1..] ==> e in script;
    }
  }

  /** From here on every call succeeds and no guest stops on its own. */
  predicate Quiet(script: seq<Event>) {
    forall e :: e in script ==> e == QUIET
  }

  /** What is stored is an element; a record is what reading it makes of it. */
  function AsRead(root: Element): Record {
    var r := Parsed(root);
    if r.Ok? then Managed(r.value) else Incompatible
  }

  function Stored(m: NodeMeta): Record {
    AsRead(Build(m, false))
  }

  /** A valid record is read back as it was written, bare by meta.write or inline in a definition. */
  lemma StoredValid(m: NodeMeta)
    ensures Valid(m) ==> Stored(m) == Managed(m) && AsRead(Build(m, true)) == Managed(m)
    ensures Stored(m).Managed? ==> Valid(Stored(m).meta)
  {
    RoundTrip(m, false);
    RoundTrip(m, true);
    ParsedIsValid(Build(m, false));
  }

  function Stopped(h: Host, guests: set<string>): Host {
    h.(active := h.active - guests, halted := h.halted + h.active * guests)
  }

  /** The state after a command libvirt accepts, or None if it refuses. */
  function Effect(h: Host, c: Command): Option<Host> {
    match c
    case Look => Some(h)
    case Define(u, d) =>
      Some(h.(domains := h.domains[u := d], used := h.used + {u},
              nextCluster := if h.nextCluster <= d.origin.cluster then d.origin.cluster + 1 else h.nextCluster))
    case CreateVolume(v) => if v in h.volumes then None else Some(h.(volumes := h.volumes + {v}))
    case WriteRecord(u, m) =>
      if u in h.domains then Some(h.(domains := h.domains[u := h.domains[u].(record := Stored(m))])) else None
    case WriteIntent(u, m) =>
      if u in h.domains then Some(h.(domains := h.domains[u := h.domains[u].(record := Stored(m))])) else None
    case Start(u) =>
      if u in h.domains && u !in h.active then Some(h.(active := h.active + {u}, halted := h.halted - {u})) else None
    case Destroy(u) => if u in h.active then Some(h.(active := h.active - {u})) else None
    case DeleteVolume(v) => if v in h.volumes then Some(h.(volumes := h.volumes - {v})) else None
    case Undefine(u) =>
      if u !in h.domains then None
      // A running domain only loses its persistent definition.
      else if u in h.active then Some(h.(domains := h.domains[u := h.domains[u].(persistent := false)]))
      else Some(h.(domains := h.domains - {u}))
  }

  /** A deletion takes nobody's word for these: it looks for itself whether they were done. */
  predicate Doubted(c: Command) {
    c.WriteIntent? || c.Destroy? || c.DeleteVolume?
  }

  /** The reply to a call that was not carried out. */
  function Refusal(fault: Fault, c: Command): Reply {
    if fault.DieBefore? then Died
    else if fault.Rejected? && c.Undefine? then Unsupported
    else if fault.Ignored? && Doubted(c) then Fine
    else Raised
  }

  function Outcome(h: Host, e: Event, c: Command): (Host, Reply) {
    var h1 := Stopped(h, e.stopped);
    if !Landed(e) then (h1, Refusal(e.fault, c))
    else
      var reply := if e.fault.Done? then Fine else if e.fault.After? then Raised else Died;
      match Effect(h1, c)
      case Some(h2) => (h2, reply)
      case None => (h1, if reply == Died then Died else if c.DeleteVolume? then Missing else Raised)
  }

  /** An answer after which the caller goes on: a volume already gone or a flag not known is no failure. */
  predicate GoesOn(r: Reply) {
    r.Fine? || r.Missing? || r.Unsupported?
  }

  /** Some calls were made, and none after one that failed; if `ok`, none failed. */
  predicate Ran(before: seq<Reply>, after: seq<Reply>, ok: bool) {
    && before <= after
    && forall i :: |before| <= i < (if ok then |after| else |after| - 1) ==> GoesOn(after[i])
  }

  lemma RanOne(before: seq<Reply>, r: Reply, ok: bool)
    requires ok ==> GoesOn(r)
    ensures Ran(before, before + [r], ok) && Ran(before, before, true)
  {
  }

  lemma RanLess(a: seq<Reply>, b: seq<Reply>)
    ensures Ran(a, b, true) ==> Ran(a, b, false)
  {
  }

  lemma RanOn(a: seq<Reply>, b: seq<Reply>, c: seq<Reply>, ok: bool)
    requires Ran(a, b, true) && Ran(b, c, ok)
    ensures Ran(a, c, ok) && (ok ==> Ran(a, c, false))
  {
  }

  class Libvirt {
    var domains: map<string, Domain>
    var active: set<string>
    var volumes: set<string>
    var used: set<string>
    var halted: set<string>
    var nextCluster: nat
    /** The guests that were told to start, and what became of every call, in order. */
    var started: seq<string>
    var replies: seq<Reply>
    /** The volumes that were to be deleted, in order. */
    var dropped: seq<string>
    /** The process ended, and makes no more calls. */
    var dead: bool
    var script: seq<Event>

    function State(): Host reads this {
      Host(domains, active, volumes, used, halted, nextCluster)
    }

    constructor (h: Host, script: seq<Event>)
      ensures State() == h && this.script == script && started == [] && replies == [] && dropped == [] && !dead
    {
      domains, active, volumes := h.domains, h.active, h.volumes;
      used, halted, nextCluster := h.used, h.halted, h.nextCluster;
      this.script, started, replies, dropped, dead := script, [], [], [], false;
    }

    method Call(c: Command) returns (reply: Reply)
      requires !dead
      modifies this
      ensures dead == reply.Died?
      ensures script == TailOf(old(script))
      ensures started == if c.Start? then old(started) + [c.u] else old(started)
      ensures dropped == if c.DeleteVolume? then old(dropped) + [c.volume] else old(dropped)
      ensures replies == old(replies) + [reply]
      ensures (State(), reply) == Outcome(old(State()), Head(old(script)), c)
    {
      hide Effect, Refusal, Head, TailOf;
      var e := Head(script);
      script := TailOf(script);
      if c.Start? {
        started := started + [c.u];
      }
      if c.DeleteVolume? {
        dropped := dropped + [c.volume];
      }
      halted := halted + active * e.stopped;
      active := active - e.stopped;
      if Landed(e) {
        var accepted := Apply(c);
        if accepted {
          reply := if e.fault.Done? then Fine else if e.fault.After? then Raised else Died;
        } else {
          reply := if e.fault.DieAfter? then Died else if c.DeleteVolume? then Missing else Raised;
        }
      } else {
        reply := Refusal(e.fault, c);
      }
      replies, dead := replies + [reply], reply.Died?;
    }

    method Apply(c: Command) returns (accepted: bool)
      modifies this`domains, this`active, this`volumes, this`used, this`halted, this`nextCluster
      ensures accepted == Effect(old(State()), c).Some?
      ensures State() == if accepted then Effect(old(State()), c).value else old(State())
    {
      accepted := true;
      match c
      case Look =>
      case Define(u, d) =>
        domains, used := domains[u := d], used + {u};
        if nextCluster <= d.origin.cluster {
          nextCluster := d.origin.cluster + 1;
        }
      case CreateVolume(v) =>
        accepted := v !in volumes;
        volumes := volumes + {v};
      case WriteRecord(u, m) =>
        accepted := u in domains;
        if accepted {
          domains := domains[u := domains[u].(record := Stored(m))];
        }
      case WriteIntent(u, m) =>
        accepted := u in domains;
        if accepted {
          domains := domains[u := domains[u].(record := Stored(m))];
        }
      case Start(u) =>
        accepted := u in domains && u !in active;
        if accepted {
          active, halted := active + {u}, halted - {u};
        }
      case Destroy(u) =>
        accepted := u in active;
        active := active - {u};
      case DeleteVolume(v) =>
        accepted := v in volumes;
        volumes := volumes - {v};
      case Undefine(u) =>
        accepted := u in domains;
        if u in active && accepted {
          domains := domains[u := domains[u].(persistent := false)];
        } else {
          domains := domains - {u};
        }
    }
  }
}

/**
 * conn.py: a refcounted lease on one libvirt connection, replaced by reconnect().
 *
 * Everything between two points where the condition variable's lock is free is one
 * stretch. `ConnectionManager` runs the stretches on its five fields; `World` lets any
 * number of threads interleave them, and the last part proves what every run keeps.
 */
module Lease {
  import opened Wrappers

  /** The fields guarded by `_cond`. A connection is the number of the open() that made it. */
  datatype Shared = Shared(conn: Option<nat>, epoch: nat, refs: int, reconnecting: bool, closed: bool)

  datatype LeaseReply = Refused | Waiting | OpenError | Leased(conn: nat, epoch: nat)
  datatype ReconnectReply = Skipped | Draining | ReopenError | Replaced(previous: Option<nat>, abandoned: bool)
  datatype CloseReply = StillInUse | Detached(conn: Option<nat>)

  /** `opening` is what the opener would do if this stretch calls it: fail, or yield that connection. */
  function Grant(s: Shared, opening: Option<nat>): (Shared, LeaseReply) {
    match (s.conn, opening)
    case (Some(c), _) => (s.(refs := s.refs + 1), Leased(c, s.epoch))
    case (None, Some(c)) => (s.(conn := opening, refs := s.refs + 1), Leased(c, s.epoch))
    case (None, None) => (s, OpenError)
  }

  function LeaseResumed(s: Shared, opening: Option<nat>): (Shared, LeaseReply) {
    if s.reconnecting then (s, Waiting) else Grant(s, opening)
  }

  function LeaseEntered(s: Shared, opening: Option<nat>): (Shared, LeaseReply) {
    if s.closed then (s, Refused) else LeaseResumed(s, opening)
  }

  function DrainResumed(s: Shared, timedOut: bool, opening: Option<nat>): (Shared, ReconnectReply) {
    if s.refs > 0 && !timedOut then (s, Draining)
    else match opening
      case None => (s.(reconnecting := false), ReopenError)
      case Some(_) =>
        (s.(conn := opening, epoch := s.epoch + 1, reconnecting := false), Replaced(s.conn, s.refs > 0))
  }

  function ReconnectEntered(s: Shared, stale: nat, timedOut: bool, opening: Option<nat>): (Shared, ReconnectReply) {
    if s.closed || s.epoch != stale then (s, Skipped)
    else DrainResumed(s.(reconnecting := true), timedOut, opening)
  }

  function CloseEntered(s: Shared): (Shared, CloseReply) {
    if s.refs > 0 then (s.(closed := true), StillInUse)
    else (s.(closed := true, conn := None), Detached(s.conn))
  }

  class ConnectionManager {
    var conn: Option<nat>
    var epoch: nat
    var refs: int
    var reconnecting: bool
    var closed: bool

    function State(): Shared reads this {
      Shared(conn, epoch, refs, reconnecting, closed)
    }

    constructor ()
      ensures State() == Shared(None, 0, 0, false, false)
    {
      conn, epoch, refs, reconnecting, closed := None, 0, 0, false, false;
    }

    method Open(opening: Option<nat>) returns (ok: bool)
      modifies this
      ensures State() == if old(conn).None? then old(State()).(conn := opening) else old(State())
      ensures ok == conn.Some? && (old(conn).Some? ==> ok && conn == old(conn))
    {
      if conn.None? {
        conn := opening;
      }
      ok := conn.Some?;
    }

    /** lease() from its first line (`entering`) or from the return of wait(). */
    method TakeLease(entering: bool, opening: Option<nat>) returns (reply: LeaseReply)
      modifies this
      ensures (State(), reply) ==
              if entering then LeaseEntered(old(State()), opening) else LeaseResumed(old(State()), opening)
      // Refused exactly on entering a closed manager, waiting exactly while somebody reconnects.
      ensures reply.Refused? <==> entering && old(closed)
      ensures reply.Waiting? <==> !reply.Refused? && old(reconnecting)
      ensures reply.OpenError? <==> !reply.Refused? && !reply.Waiting? && old(conn).None? && opening.None?
      ensures reply.Leased? && old(conn).None? ==> conn == opening
      // The holder gets the connection everyone uses, with the epoch by which to ask for its replacement.
      ensures reply.Leased? ==> conn == Some(reply.conn) && epoch == reply.epoch && refs == old(refs) + 1
      ensures reply.Leased? ==> (old(conn).Some? ==> conn == old(conn)) && !old(reconnecting) && (entering ==> !old(closed))
      ensures !reply.Leased? ==> State() == old(State())
    {
      if entering && closed {
        return Refused;
      }
      if reconnecting {
        return Waiting;
      }
      if conn.None? {
        if opening.None? {
          return OpenError;
        }
        conn := opening;
      }
      reply := Leased(conn.value, epoch);
      refs := refs + 1;
    }

    method Release()
      modifies this
      ensures State() == old(State()).(refs := old(refs) - 1)
    {
      refs := refs - 1;
    }

    /** reconnect() from its locked part (`entering`) or from the return of wait(). */
    method Reconnect(entering: bool, stale: nat, timedOut: bool, opening: Option<nat>)
      returns (reply: ReconnectReply)
      modifies this
      ensures (State(), reply) ==
              if entering then ReconnectEntered(old(State()), stale, timedOut, opening)
              else DrainResumed(old(State()), timedOut, opening)
      // Nothing at all is done to a manager that is closed, or whose epoch is no longer the stale one.
      ensures entering && (old(closed) || old(epoch) != stale) ==> State() == old(State())
      ensures reply.Skipped? <==> entering && (old(closed) || old(epoch) != stale)
      ensures reply.Draining? <==> !reply.Skipped? && old(refs) > 0 && !timedOut
      ensures reply.ReopenError? <==> !reply.Skipped? && !reply.Draining? && opening.None?
      ensures reply.Replaced? ==> conn == opening
      // One replacement is one epoch; the old connection may be closed only if no lease is out.
      ensures reply.Replaced? ==> epoch == old(epoch) + 1 && conn.Some? && reply.previous == old(conn)
      ensures reply.Replaced? ==> (reply.abandoned <==> old(refs) > 0)
      ensures !reply.Replaced? ==> epoch == old(epoch) && conn == old(conn)
      ensures refs == old(refs) && closed == old(closed)
      ensures reply.Replaced? || reply.ReopenError? ==> !reconnecting
      ensures reply.Draining? && entering ==> reconnecting
    {
      if entering {
        if closed || epoch != stale {
          return Skipped;
        }
        reconnecting := true;
      }
      if refs > 0 && !timedOut {
        return Draining;
      }
      var abandoned := refs > 0;
      var previous := conn;
      if opening.Some? {
        conn := opening;
        epoch := epoch + 1;
        reply := Replaced(previous, abandoned);
      } else {
        reply := ReopenError;
      }
      reconnecting := false;
    }

    method Close() returns (reply: CloseReply)
      modifies this
      ensures (State(), reply) == CloseEntered(old(State()))
      // Only a caller that finds no lease out is handed the connection, and then nobody else can find it.
      ensures closed && refs == old(refs) && epoch == old(epoch)
      ensures reply.Detached? <==> old(refs) <= 0
      ensures reply.Detached? ==> reply.conn == old(conn) && conn.None?
      ensures reply.StillInUse? ==> conn == old(conn)
    {
      closed := true;
      if refs > 0 {
        return StillInUse;
      }
      reply := Detached(conn);
      conn := None;
    }
  }

  // ----- threads ----------------------------------------------------------------------

  /** A lease as the thread that took it saw it. */
  datatype Held = Held(conn: nat, epoch: nat)

  /**
   * Where a thread is; `Drain(stale)` waits to replace that epoch, and `Closing(c)` is past the lock
   * and about to call c.close().
   */
  datatype Pc = Idle | LeaseWait | Drain(stale: nat) | Closing(conn: nat)

  /** read(): nothing lost, lost a connection and must reconnect, or repaired and will retry. */
  datatype Read = Plain | Lost(lease: Held) | Repaired(lease: Held)

  datatype Thread = Thread(held: seq<Held>, pc: Pc, read: Read)

  /**
   * `bornAt[c]` is the epoch at which connection c became current, `doomed[c]` the thread that
   * took c out of service in order to close it, and `closes` counts the close() calls.
   */
  datatype World = World(shared: Shared, bornAt: seq<nat>, doomed: map<nat, nat>, closes: multiset<nat>,
                         abandoned: set<nat>, threads: seq<Thread>)

  datatype Step =
    | Open(opens: bool)
    | EnterLease(t: nat, opens: bool)
    | ResumeLease(t: nat, opens: bool)
    | Release(t: nat)
    | LoseConnection(t: nat)
    | EnterReconnect(t: nat, stale: nat, timedOut: bool, opens: bool)
    | ResumeReconnect(t: nat, timedOut: bool, opens: bool)
    | CloseManager(t: nat)
    | FinishClose(t: nat)

  ghost predicate Enabled(w: World, step: Step) {
    step.Open? ||
    (step.t < |w.threads| &&
      var th := w.threads[step.t];
      match step
      case EnterLease(_, _) => th.pc.Idle? && !th.read.Lost?
      case ResumeLease(_, _) => th.pc.LeaseWait?
      case Release(_) => th.pc.Idle? && th.held != []
      // read() gives its lease back before it calls reconnect with that lease's epoch.
      case LoseConnection(_) => th.pc.Idle? && th.held != [] && th.read.Plain?
      case EnterReconnect(_, stale, _, _) =>
        th.pc.Idle? && !th.read.Repaired? && (th.read.Lost? ==> stale == th.read.lease.epoch)
      case ResumeReconnect(_, _, _) => th.pc.Drain?
      case CloseManager(_) => th.pc.Idle?
      case FinishClose(_) => th.pc.Closing?
      case Open(_) => true)
  }

  function Opening(w: World, opens: bool): Option<nat> {
    if opens then Some(|w.bornAt|) else None
  }

  /** The world after a stretch left `s`; if the opener was called, one more connection exists. */
  function Shift(w: World, s: Shared, t: nat, th: Thread): World
    requires t < |w.threads|
  {
    w.(shared := s, bornAt := Grown(w, s), threads := w.threads[t := th])
  }

  function Grown(w: World, s: Shared): seq<nat> {
    if s.conn == Some(|w.bornAt|) then w.bornAt + [s.epoch] else w.bornAt
  }

  function AfterLease(w: World, t: nat, r: (Shared, LeaseReply)): World
    requires t < |w.threads|
  {
    var th := w.threads[t];
    Shift(w, r.0, t,
          match r.1
          case Waiting => th.(pc := LeaseWait)
          case Leased(c, e) => th.(pc := Idle, held := th.held + [Held(c, e)], read := Plain)
          case _ => th.(pc := Idle, read := Plain))
  }

  function AfterReconnect(w: World, t: nat, stale: nat, r: (Shared, ReconnectReply)): World
    requires t < |w.threads|
  {
    var th := w.threads[t];
    var repaired := if th.read.Lost? then Repaired(th.read.lease) else th.read;
    match r.1
    case Draining => Shift(w, r.0, t, th.(pc := Drain(stale)))
    case ReopenError => Shift(w, r.0, t, th.(pc := Idle, read := Plain))
    case Replaced(Some(c), true) =>
      Shift(w, r.0, t, th.(pc := Idle, read := repaired)).(abandoned := w.abandoned + {c})
    case Replaced(Some(c), false) => Doom(Shift(w, r.0, t, th.(read := repaired)), t, c)
    case _ => Shift(w, r.0, t, th.(pc := Idle, read := repaired))
  }

  function Next(w: World, step: Step): World
    requires Enabled(w, step)
  {
    match step
    case Open(opens) =>
      var s := if w.shared.conn.None? then w.shared.(conn := Opening(w, opens)) else w.shared;
      w.(shared := s, bornAt := Grown(w, s))
    case EnterLease(t, opens) => AfterLease(w, t, LeaseEntered(w.shared, Opening(w, opens)))
    case ResumeLease(t, opens) => AfterLease(w, t, LeaseResumed(w.shared, Opening(w, opens)))
    case Release(t) => Released(w, t, w.threads[t].read)
    case LoseConnection(t) =>
      var held := w.threads[t].held;
      Released(w, t, Lost(held[|held| - 1]))
    case EnterReconnect(t, stale, timedOut, opens) =>
      // A thread that still holds a lease is refused before it takes the lock.
      if w.threads[t].held != [] then w.(threads := w.threads[t := w.threads[t].(read := Plain)])
      else AfterReconnect(w, t, stale, ReconnectEntered(w.shared, stale, timedOut, Opening(w, opens)))
    case ResumeReconnect(t, timedOut, opens) =>
      AfterReconnect(w, t, w.threads[t].pc.stale, DrainResumed(w.shared, timedOut, Opening(w, opens)))
    case CloseManager(t) =>
      var r := CloseEntered(w.shared);
      var left := w.(shared := r.0);
      (match r.1
       case Detached(Some(c)) => Doom(left, t, c)
       case _ => left)
    case FinishClose(t) =>
      w.(closes := w.closes + multiset{w.threads[t].pc.conn},
         threads := w.threads[t := w.threads[t].(pc := Idle)])
  }

  /** Thread t leaves the lock with connection c in hand and will close it. */
  function Doom(w: World, t: nat, c: nat): World
    requires t < |w.threads|
  {
    w.(doomed := w.doomed[c := t], threads := w.threads[t := w.threads[t].(pc := Closing(c))])
  }

  function Released(w: World, t: nat, read: Read): World
    requires t < |w.threads| && w.threads[t].held != []
  {
    var held := w.threads[t].held;
    w.(shared := w.shared.(refs := w.shared.refs - 1),
       threads := w.threads[t := w.threads[t].(held := held[..|held| - 1], read := read)])
  }

  // ----- what every step keeps --------------------------------------------------------

  function Outstanding(threads: seq<Thread>): nat {
    if threads == [] then 0 else |threads[0].held| + Outstanding(threads[1..])
  }

  lemma {:induction false} OutstandingUpdate(threads: seq<Thread>, t: nat, th: Thread)
    requires t < |threads|
    ensures Outstanding(threads[t := th]) == Outstanding(threads) - |threads[t].held| + |th.held|
  {
    if t == 0 {
      assert threads[t := th][1..] == threads[1..];
    } else {
      assert threads[t := th][1..] == threads[1..][t - 1 := th];
      OutstandingUpdate(threads[1..], t - 1, th);
    }
  }

  /** The current connection is neither doomed nor abandoned, and every close was announced once. */
  ghost predicate SharedOk(w: World) {
    && (w.shared.conn.Some? ==>
          var c := w.shared.conn.value;
          c < |w.bornAt| && w.bornAt[c] == w.shared.epoch && c !in w.doomed && c !in w.abandoned)
    && (forall c :: 0 <= c < |w.bornAt| ==> w.bornAt[c] <= w.shared.epoch)
    && (forall c :: c in w.closes ==> w.closes[c] == 1 && c in w.doomed)
    && (forall c :: c in w.doomed ==> c < |w.bornAt| && c !in w.abandoned)
    && (forall c :: c in w.abandoned ==> c < |w.bornAt|)
  }

  ghost predicate Dated(w: World, l: Held) {
    l.conn < |w.bornAt| && w.bornAt[l.conn] == l.epoch
  }

  ghost predicate ThreadOk(w: World, t: nat, th: Thread) {
    && (forall l :: l in th.held ==> Dated(w, l) && l.conn !in w.doomed)
    && (th.pc.Drain? ==> th.held == [] && !th.read.Repaired? && th.pc.stale <= w.shared.epoch)
    && (th.pc.LeaseWait? ==> !th.read.Lost?)
    && (th.pc.Closing? ==>
          th.pc.conn in w.doomed && w.doomed[th.pc.conn] == t && th.pc.conn !in w.closes)
    && (!th.read.Plain? ==> Dated(w, th.read.lease))
    // A repaired read leases again only under a later epoch.
    && (th.read.Repaired? ==> w.shared.closed || th.read.lease.epoch < w.shared.epoch)
    && (th.read.Repaired? && th.pc.LeaseWait? ==> th.read.lease.epoch < w.shared.epoch)
  }

  ghost predicate ThreadsOk(w: World) {
    forall t :: 0 <= t < |w.threads| ==> ThreadOk(w, t, w.threads[t])
  }

  ghost predicate SomeoneDrains(threads: seq<Thread>) {
    exists t :: 0 <= t < |threads| && threads[t].pc.Drain?
  }

  ghost predicate Inv(w: World) {
    && w.shared.refs == Outstanding(w.threads)
    && SharedOk(w)
    && ThreadsOk(w)
    && (w.shared.reconnecting ==> SomeoneDrains(w.threads))
  }

  ghost predicate Initial(w: World) {
    && w.shared == Shared(None, 0, 0, false, false)
    && w.bornAt == [] && w.doomed == map[] && w.closes == multiset{} && w.abandoned == {}
    && forall t :: 0 <= t < |w.threads| ==> w.threads[t] == Thread([], Idle, Plain)
  }

  lemma {:induction false} NothingHeld(threads: seq<Thread>)
    requires Outstanding(threads) == 0
    ensures forall t :: 0 <= t < |threads| ==> threads[t].held == []
  {
    if threads != [] {
      NothingHeld(threads[1..]);
      assert forall t :: 0 < t < |threads| ==> threads[t] == threads[1..][t - 1];
    }
  }

  lemma StillDrains(threads: seq<Thread>, t: nat, th: Thread)
    requires t < |threads| && SomeoneDrains(threads) && (threads[t].pc.Drain? ==> th.pc.Drain?)
    ensures SomeoneDrains(threads[t := th])
  {
    var d :| 0 <= d < |threads| && threads[d].pc.Drain?;
    assert threads[t := th][d].pc.Drain?;
  }

  /** What thread t's step does to the facts other threads rely on. */
  ghost predicate Undisturbed(w: World, w': World, t: nat) {
    && w.bornAt <= w'.bornAt
    && w.shared.epoch <= w'.shared.epoch
    && (w.shared.closed ==> w'.shared.closed)
    && (forall c :: c in w.doomed ==> c in w'.doomed && w'.doomed[c] == w.doomed[c])
    && (w'.doomed.Keys == w.doomed.Keys || w.shared.refs == 0)
    && (forall c :: c in w'.closes && c !in w.closes ==> c in w.doomed && w.doomed[c] == t)
  }

  /** A step of thread t keeps the invariant once its own part is shown. */
  lemma Rebuild(w: World, w': World, t: nat)
    requires Inv(w) && t < |w.threads| == |w'.threads|
    requires w'.threads == w.threads[t := w'.threads[t]]
    requires w'.shared.refs == w.shared.refs - |w.threads[t].held| + |w'.threads[t].held|
    requires SharedOk(w') && ThreadOk(w', t, w'.threads[t]) && Undisturbed(w, w', t)
    requires w'.shared.reconnecting ==>
               w'.threads[t].pc.Drain? || (w.shared.reconnecting && !w.threads[t].pc.Drain?)
    ensures Inv(w')
  {
    OutstandingUpdate(w.threads, t, w'.threads[t]);
    if w.shared.refs == 0 {
      NothingHeld(w.threads);
    }
    forall i | 0 <= i < |w'.threads| && i != t ensures ThreadOk(w', i, w'.threads[i]) {
      assert ThreadOk(w, i, w.threads[i]);
    }
    if w'.shared.reconnecting {
      if w'.threads[t].pc.Drain? {
        assert SomeoneDrains(w'.threads);
      } else {
        StillDrains(w.threads, t, w'.threads[t]);
      }
    }
  }

  lemma StepOpen(w: World, opens: bool)
    requires Inv(w)
    ensures Inv(Next(w, Open(opens)))
  {
  }

  lemma StepLease(w: World, t: nat, r: (Shared, LeaseReply), opens: bool)
    requires Inv(w) && t < |w.threads| && !w.threads[t].pc.Drain? && !w.threads[t].pc.Closing?
    requires !w.threads[t].read.Lost?
    requires
      || (r == LeaseResumed(w.shared, Opening(w, opens)) && w.threads[t].pc.LeaseWait?)
      || r == LeaseEntered(w.shared, Opening(w, opens))
    ensures Inv(AfterLease(w, t, r))
  {
    assert ThreadOk(w, t, w.threads[t]);
    Rebuild(w, AfterLease(w, t, r), t);
  }

  lemma StepRelease(w: World, t: nat, read: Read)
    requires Inv(w) && t < |w.threads| && w.threads[t].pc.Idle? && w.threads[t].held != []
    requires read == w.threads[t].read || read == Lost(w.threads[t].held[|w.threads[t].held| - 1])
    ensures Inv(Released(w, t, read))
  {
    assert ThreadOk(w, t, w.threads[t]);
    Rebuild(w, Released(w, t, read), t);
  }

  ghost predicate MayReconnect(w: World, t: nat, stale: nat, s: Shared) {
    && Inv(w) && t < |w.threads| && w.threads[t].held == [] && !w.threads[t].read.Repaired?
    && (w.threads[t].pc.Drain? || w.threads[t].pc.Idle?) && stale <= w.shared.epoch
    && (s == w.shared || s == w.shared.(reconnecting := true))
  }

  lemma StepWithoutReplacing(w: World, t: nat, stale: nat, s: Shared, timedOut: bool, opens: bool)
    requires MayReconnect(w, t, stale, s) && (!opens || (s.refs > 0 && !timedOut))
    ensures Inv(AfterReconnect(w, t, stale, DrainResumed(s, timedOut, Opening(w, opens))))
  {
    assert ThreadOk(w, t, w.threads[t]);
    Rebuild(w, AfterReconnect(w, t, stale, DrainResumed(s, timedOut, Opening(w, opens))), t);
  }

  /** Replacing with calls in flight: the old connection is abandoned. */
  lemma StepAbandon(w: World, t: nat, stale: nat, s: Shared)
    requires MayReconnect(w, t, stale, s) && (w.shared.refs > 0 || w.shared.conn.None?)
    ensures Inv(AfterReconnect(w, t, stale, DrainResumed(s, true, Opening(w, true))))
  {
    assert ThreadOk(w, t, w.threads[t]);
    Rebuild(w, AfterReconnect(w, t, stale, DrainResumed(s, true, Opening(w, true))), t);
  }

  /** Replacing after the leases drained: thread t will close the old connection. */
  lemma StepReplace(w: World, t: nat, stale: nat, s: Shared, timedOut: bool)
    requires MayReconnect(w, t, stale, s) && w.shared.refs == 0 && w.shared.conn.Some?
    ensures Inv(AfterReconnect(w, t, stale, DrainResumed(s, timedOut, Opening(w, true))))
  {
    assert ThreadOk(w, t, w.threads[t]);
    var w' := AfterReconnect(w, t, stale, DrainResumed(s, timedOut, Opening(w, true)));
    assert w'.threads == w.threads[t := w'.threads[t]];
    NothingHeld(w.threads);
    Rebuild(w, w', t);
  }

  lemma StepReconnect(w: World, t: nat, stale: nat, s: Shared, timedOut: bool, opens: bool)
    requires MayReconnect(w, t, stale, s)
    ensures Inv(AfterReconnect(w, t, stale, DrainResumed(s, timedOut, Opening(w, opens))))
  {
    if !opens || (s.refs > 0 && !timedOut) {
      StepWithoutReplacing(w, t, stale, s, timedOut, opens);
    } else if w.shared.refs == 0 && w.shared.conn.Some? {
      StepReplace(w, t, stale, s, timedOut);
    } else {
      assert DrainResumed(s, timedOut, Opening(w, opens)) == DrainResumed(s, true, Opening(w, true)) by {
        OutstandingIsRefs(w);
      }
      StepAbandon(w, t, stale, s);
    }
  }

  lemma OutstandingIsRefs(w: World)
    requires Inv(w)
    ensures w.shared.refs >= 0
  {
  }

  lemma StepClose(w: World, t: nat)
    requires Inv(w) && Enabled(w, CloseManager(t))
    ensures Inv(Next(w, CloseManager(t)))
  {
    assert ThreadOk(w, t, w.threads[t]);
    if w.shared.refs == 0 {
      NothingHeld(w.threads);
    }
    Rebuild(w, Next(w, CloseManager(t)), t);
  }

  lemma StepFinishClose(w: World, t: nat)
    requires Inv(w) && Enabled(w, FinishClose(t))
    ensures Inv(Next(w, FinishClose(t)))
  {
    assert ThreadOk(w, t, w.threads[t]);
    Rebuild(w, Next(w, FinishClose(t)), t);
  }

  lemma StepKeeps(w: World, step: Step)
    requires Inv(w) && Enabled(w, step)
    ensures Inv(Next(w, step))
  {
    match step
    case Open(opens) => StepOpen(w, opens);
    case EnterLease(t, opens) => StepLease(w, t, LeaseEntered(w.shared, Opening(w, opens)), opens);
    case ResumeLease(t, opens) =>
      assert ThreadOk(w, t, w.threads[t]);
      StepLease(w, t, LeaseResumed(w.shared, Opening(w, opens)), opens);
    case Release(t) => StepRelease(w, t, w.threads[t].read);
    case LoseConnection(t) => StepRelease(w, t, Lost(w.threads[t].held[|w.threads[t].held| - 1]));
    case EnterReconnect(t, stale, timedOut, opens) => StepEnterReconnect(w, t, stale, timedOut, opens);
    case ResumeReconnect(t, timedOut, opens) =>
      assert ThreadOk(w, t, w.threads[t]);
      StepReconnect(w, t, w.threads[t].pc.stale, w.shared, timedOut, opens);
    case CloseManager(t) => StepClose(w, t);
    case FinishClose(t) => StepFinishClose(w, t);
  }

  lemma StepEnterReconnect(w: World, t: nat, stale: nat, timedOut: bool, opens: bool)
    requires Inv(w) && Enabled(w, EnterReconnect(t, stale, timedOut, opens))
    ensures Inv(Next(w, EnterReconnect(t, stale, timedOut, opens)))
  {
    if w.threads[t].held == [] && !w.shared.closed && w.shared.epoch == stale {
      assert ThreadOk(w, t, w.threads[t]);
      hide ThreadOk, SharedOk;
      StepReconnect(w, t, stale, w.shared.(reconnecting := true), timedOut, opens);
    } else {
      StepSkips(w, t, stale, timedOut, opens);
    }
  }

  lemma StepSkips(w: World, t: nat, stale: nat, timedOut: bool, opens: bool)
    requires Inv(w) && Enabled(w, EnterReconnect(t, stale, timedOut, opens))
    requires w.threads[t].held != [] || w.shared.closed || w.shared.epoch != stale
    ensures Inv(Next(w, EnterReconnect(t, stale, timedOut, opens)))
  {
    assert ThreadOk(w, t, w.threads[t]);
    Rebuild(w, Next(w, EnterReconnect(t, stale, timedOut, opens)), t);
  }

  // ----- runs -------------------------------------------------------------------------

  /** Any interleaving: worlds[i + 1] is worlds[i] after steps[i]. */
  ghost predicate Run(worlds: seq<World>, steps: seq<Step>) {
    && |worlds| == |steps| + 1
    && Initial(worlds[0])
    && forall i :: 0 <= i < |steps| ==> Enabled(worlds[i], steps[i]) && worlds[i + 1] == Next(worlds[i], steps[i])
  }

  lemma {:induction false} NothingOutstandingAtFirst(threads: seq<Thread>)
    requires forall t :: 0 <= t < |threads| ==> threads[t].held == []
    ensures Outstanding(threads) == 0
  {
    if threads != [] {
      NothingOutstandingAtFirst(threads[1..]);
    }
  }

  lemma {:induction false} RunKeeps(worlds: seq<World>, steps: seq<Step>, i: nat)
    requires Run(worlds, steps) && i < |worlds|
    ensures Inv(worlds[i])
  {
    if i == 0 {
      NothingOutstandingAtFirst(worlds[0].threads);
    } else {
      RunKeeps(worlds, steps, i - 1);
      StepKeeps(worlds[i - 1], steps[i - 1]);
    }
  }

  ghost predicate Leases(w: World, t: nat, l: Held)
    requires t < |w.threads|
  {
    l in w.threads[t].held
  }

  /** What a caller of the manager relies on, in terms of close() calls alone. */
  ghost predicate Safe(w: World) {
    && w.shared.refs == Outstanding(w.threads)
    && (forall t, l :: 0 <= t < |w.threads| && Leases(w, t, l) ==> w.closes[l.conn] == 0)
    && (forall c :: w.closes[c] <= 1)
    && (forall c :: c in w.abandoned ==> w.closes[c] == 0)
    && (forall t :: 0 <= t < |w.threads| && w.threads[t].pc.Closing? ==>
          forall u, l :: 0 <= u < |w.threads| && Leases(w, u, l) ==> l.conn != w.threads[t].pc.conn)
  }

  /**
   * In every interleaving of lease, release, reconnect, close and open, with openers failing
   * and drains timing out: no connection is closed, or about to be closed, while leased; none is
   * closed twice; an abandoned one never; and the reference count is the number of leases.
   */
  lemma NeverClosedUnderALease(worlds: seq<World>, steps: seq<Step>, i: nat)
    requires Run(worlds, steps) && i < |worlds|
    ensures Safe(worlds[i])
  {
    RunKeeps(worlds, steps, i);
    var w := worlds[i];
    forall t, l | 0 <= t < |w.threads| && Leases(w, t, l) ensures l.conn !in w.doomed {
      assert ThreadOk(w, t, w.threads[t]);
    }
    forall t | 0 <= t < |w.threads| && w.threads[t].pc.Closing? ensures w.threads[t].pc.conn in w.doomed {
      assert ThreadOk(w, t, w.threads[t]);
    }
  }

  /** Every connection is in service, abandoned to those who lease it, or taken out to be closed, and then it is, once. */
  ghost predicate Accounted(w: World) {
    && (forall c :: 0 <= c < |w.bornAt| ==> w.shared.conn == Some(c) || c in w.abandoned || c in w.doomed)
    && (forall c :: c in w.doomed ==>
          w.doomed[c] < |w.threads| && (w.threads[w.doomed[c]].pc == Closing(c) || c in w.closes))
  }

  lemma LeaseAccounts(w: World, t: nat, r: (Shared, LeaseReply), opens: bool)
    requires Accounted(w) && t < |w.threads| && !w.threads[t].pc.Closing?
    requires r == LeaseEntered(w.shared, Opening(w, opens)) || r == LeaseResumed(w.shared, Opening(w, opens))
    ensures Accounted(AfterLease(w, t, r))
  {
    var w' := AfterLease(w, t, r);
    assert forall i :: 0 <= i < |w.threads| && i != t ==> w'.threads[i] == w.threads[i];
  }

  lemma ReconnectFinds(s: Shared, stale: nat, timedOut: bool, opening: Option<nat>, r: (Shared, ReconnectReply))
    requires r == ReconnectEntered(s, stale, timedOut, opening) || r == DrainResumed(s, timedOut, opening)
    ensures if r.1.Replaced? then opening.Some? && r.0.conn == opening && r.1.previous == s.conn else r.0.conn == s.conn
  {
  }

  lemma ReconnectAccounts(w: World, t: nat, stale: nat, r: (Shared, ReconnectReply), timedOut: bool, opens: bool)
    requires Accounted(w) && t < |w.threads| && !w.threads[t].pc.Closing?
    requires r == ReconnectEntered(w.shared, stale, timedOut, Opening(w, opens)) || r == DrainResumed(w.shared, timedOut, Opening(w, opens))
    ensures Accounted(AfterReconnect(w, t, stale, r))
  {
    hide ReconnectEntered, DrainResumed;
    ReconnectFinds(w.shared, stale, timedOut, Opening(w, opens), r);
    var th := AfterReconnect(w, t, stale, r).threads[t];
    if !r.1.Replaced? || r.1.previous.None? || r.1.abandoned {
      Stays(w, r.0, t, th, if r.1.Replaced? && r.1.previous.Some? then {r.1.previous.value} else {});
    } else {
      TakenOut(w, r.0, t, th, r.1.previous.value);
    }
  }

  lemma Stays(w: World, s: Shared, t: nat, th: Thread, left: set<nat>)
    requires Accounted(w) && t < |w.threads| && !w.threads[t].pc.Closing?
    requires s.conn == w.shared.conn || (s.conn == Some(|w.bornAt|) && (w.shared.conn.Some? ==> w.shared.conn.value in left))
    ensures Accounted(Shift(w, s, t, th).(abandoned := w.abandoned + left))
  {
    var w' := Shift(w, s, t, th);
    assert forall i :: 0 <= i < |w.threads| && i != t ==> w'.threads[i] == w.threads[i];
  }

  lemma TakenOut(w: World, s: Shared, t: nat, th: Thread, c: nat)
    requires Accounted(w) && t < |w.threads| && !w.threads[t].pc.Closing? && w.shared.conn == Some(c) && s.conn == Some(|w.bornAt|)
    requires th.pc == Closing(c)
    ensures Accounted(Shift(w, s, t, th).(doomed := w.doomed[c := t]))
  {
    var w' := Shift(w, s, t, th);
    assert forall i :: 0 <= i < |w.threads| && i != t ==> w'.threads[i] == w.threads[i];
  }

  lemma StepAccounts(w: World, step: Step)
    requires Accounted(w) && Enabled(w, step)
    ensures Accounted(Next(w, step))
  {
    hide LeaseEntered, LeaseResumed, ReconnectEntered, DrainResumed, AfterLease, AfterReconnect;
    match step
    case EnterLease(t, opens) => LeaseAccounts(w, t, LeaseEntered(w.shared, Opening(w, opens)), opens);
    case ResumeLease(t, opens) => LeaseAccounts(w, t, LeaseResumed(w.shared, Opening(w, opens)), opens);
    case EnterReconnect(t, stale, timedOut, opens) =>
      ReconnectAccounts(w, t, stale, ReconnectEntered(w.shared, stale, timedOut, Opening(w, opens)), timedOut, opens);
    case ResumeReconnect(t, timedOut, opens) =>
      ReconnectAccounts(w, t, w.threads[t].pc.stale, DrainResumed(w.shared, timedOut, Opening(w, opens)), timedOut, opens);
    case _ =>
  }

  /**
   * And none is forgotten: in every interleaving, each connection that was ever opened is in
   * service, or was abandoned while leased, or was closed, or is about to be by the one thread
   * that took it out.
   */
  lemma {:induction false} NoConnectionIsForgotten(worlds: seq<World>, steps: seq<Step>, i: nat)
    requires Run(worlds, steps) && i < |worlds|
    ensures Accounted(worlds[i])
  {
    hide Enabled, Next;
    if i > 0 {
      NoConnectionIsForgotten(worlds, steps, i - 1);
      StepAccounts(worlds[i - 1], steps[i - 1]);
    }
  }

  /** read(): the retry after a lost connection never runs on the connection that was lost. */
  lemma RetryUsesAnotherConnection(worlds: seq<World>, steps: seq<Step>, i: nat, t: nat)
    requires Run(worlds, steps) && i < |steps| && t < |worlds[i].threads|
    requires steps[i] in {EnterLease(t, true), EnterLease(t, false), ResumeLease(t, true), ResumeLease(t, false)}
    requires worlds[i].threads[t].read.Repaired?
    requires |worlds[i + 1].threads[t].held| > |worlds[i].threads[t].held|
    ensures var held := worlds[i + 1].threads[t].held;
            held[|held| - 1].conn != worlds[i].threads[t].read.lease.conn
  {
    RunKeeps(worlds, steps, i);
    RunKeeps(worlds, steps, i + 1);
    assert ThreadOk(worlds[i], t, worlds[i].threads[t]);
    var th := worlds[i + 1].threads[t];
    assert ThreadOk(worlds[i + 1], t, th);
    assert th.held[|th.held| - 1] in th.held;
    assert worlds[i].bornAt <= worlds[i + 1].bornAt;
  }

  /** A thread waiting for a reconnect always has a drainer whose timeout sets it free. */
  lemma WaitersAreSetFree(worlds: seq<World>, steps: seq<Step>, i: nat, opens: bool)
    requires Run(worlds, steps) && i < |worlds| && worlds[i].shared.reconnecting
    ensures exists t ::
              && Enabled(worlds[i], ResumeReconnect(t, true, opens))
              && !Next(worlds[i], ResumeReconnect(t, true, opens)).shared.reconnecting
  {
    RunKeeps(worlds, steps, i);
    var t :| 0 <= t < |worlds[i].threads| && worlds[i].threads[t].pc.Drain?;
    assert Enabled(worlds[i], ResumeReconnect(t, true, opens));
  }

  // ----- what the protocol does not promise -------------------------------------------

  /** The epoch rose at step j: a connection was replaced. */
  predicate ReplacedAt(worlds: seq<World>, j: nat)
    requires j + 1 < |worlds|
  {
    worlds[j].shared.epoch < worlds[j + 1].shared.epoch
  }

  /** Thread t has waited, since it entered reconnect at step k, to replace the epoch it came for. */
  ghost predicate DrainsSince(worlds: seq<World>, steps: seq<Step>, k: nat, i: nat, t: nat)
    requires i < |worlds| == |steps| + 1
  {
    && k < i && steps[k].EnterReconnect? && steps[k].t == t && worlds[k].shared.epoch == steps[k].stale
    && forall j :: k < j <= i ==> t < |worlds[j].threads| && worlds[j].threads[t].pc == Drain(steps[k].stale)
  }

  /** What a step does to the epoch and to the closed flag. */
  ghost predicate Forward(w: World, w': World) {
    && w.shared.epoch <= w'.shared.epoch && |w'.threads| == |w.threads|
    && (w.shared.closed ==> w'.shared.closed)
  }

  lemma ReconnectEpoch(w: World, step: Step)
    requires Enabled(w, step) && (step.EnterReconnect? || step.ResumeReconnect?)
    ensures var w' := Next(w, step);
            Forward(w, w') && (w.shared.epoch < w'.shared.epoch ==> !w'.threads[step.t].pc.Drain?)
  {
  }

  lemma OtherEpoch(w: World, step: Step)
    requires Enabled(w, step) && !step.EnterReconnect? && !step.ResumeReconnect?
    ensures Forward(w, Next(w, step)) && w.shared.epoch == Next(w, step).shared.epoch
  {
  }

  lemma StepEpoch(w: World, step: Step)
    requires Enabled(w, step)
    ensures var w' := Next(w, step);
            && Forward(w, w')
            && (w.shared.epoch < w'.shared.epoch ==>
                  (step.EnterReconnect? || step.ResumeReconnect?) && !w'.threads[step.t].pc.Drain?)
  {
    hide Next;
    if step.EnterReconnect? || step.ResumeReconnect? {
      ReconnectEpoch(w, step);
    } else {
      OtherEpoch(w, step);
    }
  }

  /** A thread drains on for the epoch it came for, or begins to with the current one. */
  ghost predicate DrainsOn(w: World, step: Step, w': World, t: nat)
    requires t < |w.threads| == |w'.threads|
  {
    w'.threads[t].pc.Drain? ==>
      if w.threads[t].pc.Drain? then w'.threads[t].pc == w.threads[t].pc
      else step.EnterReconnect? && step.t == t && step.stale == w'.threads[t].pc.stale == w.shared.epoch
           && w'.shared.epoch == w.shared.epoch
  }

  lemma ReconnectDrains(w: World, step: Step, t: nat)
    requires Enabled(w, step) && t < |w.threads| && (step.EnterReconnect? || step.ResumeReconnect?)
    ensures |Next(w, step).threads| == |w.threads| && DrainsOn(w, step, Next(w, step), t)
  {
  }

  lemma OtherDrains(w: World, step: Step, t: nat)
    requires Enabled(w, step) && t < |w.threads| && !step.EnterReconnect? && !step.ResumeReconnect?
    ensures |Next(w, step).threads| == |w.threads| && DrainsOn(w, step, Next(w, step), t)
  {
  }

  lemma DrainStep(w: World, step: Step, t: nat)
    requires Enabled(w, step) && t < |w.threads|
    ensures |Next(w, step).threads| == |w.threads| && DrainsOn(w, step, Next(w, step), t)
  {
    hide Next, DrainsOn;
    if step.EnterReconnect? || step.ResumeReconnect? {
      ReconnectDrains(w, step, t);
    } else {
      OtherDrains(w, step, t);
    }
  }

  lemma {:induction false} SameThreads(worlds: seq<World>, steps: seq<Step>, i: nat)
    requires Run(worlds, steps) && i < |worlds|
    ensures |worlds[i].threads| == |worlds[0].threads|
  {
    if i > 0 {
      SameThreads(worlds, steps, i - 1);
      StepEpoch(worlds[i - 1], steps[i - 1]);
    }
  }

  lemma {:induction false} DrainBegan(worlds: seq<World>, steps: seq<Step>, i: nat, t: nat) returns (k: nat)
    requires Run(worlds, steps) && i < |worlds| && t < |worlds[i].threads| && worlds[i].threads[t].pc.Drain?
    ensures DrainsSince(worlds, steps, k, i, t) && worlds[k + 1].shared.epoch == steps[k].stale
  {
    hide Next, Enabled;
    SameThreads(worlds, steps, i);
    if i > 0 {
      SameThreads(worlds, steps, i - 1);
      DrainStep(worlds[i - 1], steps[i - 1], t);
      if worlds[i - 1].threads[t].pc.Drain? {
        k := DrainBegan(worlds, steps, i - 1, t);
      } else {
        k := i - 1;
      }
    }
  }

  /** The epoch differs between two states exactly if a connection was replaced in between. */
  lemma {:induction false} EpochTells(worlds: seq<World>, steps: seq<Step>, a: nat, b: nat)
    requires Run(worlds, steps) && a <= b < |worlds|
    ensures worlds[a].shared.epoch <= worlds[b].shared.epoch
    ensures worlds[a].shared.epoch != worlds[b].shared.epoch <==> exists j :: a <= j < b && ReplacedAt(worlds, j)
  {
    hide Next, Enabled;
    if a < b {
      EpochTells(worlds, steps, a, b - 1);
      StepEpoch(worlds[b - 1], steps[b - 1]);
      if worlds[a].shared.epoch == worlds[b - 1].shared.epoch != worlds[b].shared.epoch {
        assert ReplacedAt(worlds, b - 1);
      }
    }
  }

  /** Step j replaced a connection on behalf of a thread other than t. */
  ghost predicate ReplacedByAnother(worlds: seq<World>, steps: seq<Step>, j: nat, t: nat)
    requires j < |steps| && |worlds| == |steps| + 1
  {
    ReplacedAt(worlds, j) && (steps[j].EnterReconnect? || steps[j].ResumeReconnect?) && steps[j].t != t
  }

  /**
   * The epoch is not compared again after the wait. A thread that resumes from it replaces an
   * epoch other than the one it came for exactly if another thread replaced since it entered.
   */
  lemma StaleReplacementExactly(worlds: seq<World>, steps: seq<Step>, i: nat, t: nat) returns (k: nat)
    requires Run(worlds, steps) && i < |steps| && t < |worlds[i].threads|
    requires steps[i].ResumeReconnect? && steps[i].t == t && ReplacedAt(worlds, i)
    ensures DrainsSince(worlds, steps, k, i, t)
    ensures worlds[i].shared.epoch != worlds[i].threads[t].pc.stale <==>
              exists j :: k < j < i && ReplacedByAnother(worlds, steps, j, t)
  {
    hide Next;
    assert worlds[i].threads[t].pc.Drain?;
    k := DrainBegan(worlds, steps, i, t);
    EpochTells(worlds, steps, k + 1, i);
    forall j | k < j < i && ReplacedAt(worlds, j) ensures ReplacedByAnother(worlds, steps, j, t) {
      StepEpoch(worlds[j], steps[j]);
    }
  }

  lemma EntryReplaces(w: World, step: Step)
    requires Enabled(w, step) && step.EnterReconnect? && w.shared.epoch < Next(w, step).shared.epoch
    ensures !w.shared.closed && step.stale == w.shared.epoch && w.threads[step.t].held == []
  {
  }

  /**
   * Without the wait there is no such risk: a thread that enters reconnect and replaces at once
   * finds the manager open and the very epoch it came for, and holds no lease itself.
   */
  lemma EntryReplacesItsEpoch(worlds: seq<World>, steps: seq<Step>, i: nat)
    requires Run(worlds, steps) && i < |steps| && steps[i].EnterReconnect? && ReplacedAt(worlds, i)
    ensures !worlds[i].shared.closed && steps[i].stale == worlds[i].shared.epoch
    ensures steps[i].t < |worlds[i].threads| && worlds[i].threads[steps[i].t].held == []
  {
    hide Next;
    EntryReplaces(worlds[i], steps[i]);
  }

  /** At step i thread t was granted a lease. */
  predicate GrantedAt(worlds: seq<World>, i: nat, t: nat)
    requires i + 1 < |worlds|
  {
    && t < |worlds[i].threads| && t < |worlds[i + 1].threads|
    && |worlds[i + 1].threads[t].held| > |worlds[i].threads[t].held|
  }

  /** Thread t was in the wait of lease() when step c closed the manager, and stayed there. */
  ghost predicate WaitsSinceClose(worlds: seq<World>, steps: seq<Step>, c: nat, i: nat, t: nat)
    requires i < |worlds| == |steps| + 1
  {
    && c < i && steps[c].CloseManager?
    && forall j :: c <= j <= i ==> t < |worlds[j].threads| && worlds[j].threads[t].pc.LeaseWait?
  }

  /** Only a thread that already waits can be waiting, or be granted, once the manager is closed. */
  ghost predicate WaitsOn(w: World, w': World, t: nat, closing: bool)
    requires t < |w.threads| == |w'.threads|
  {
    && (w'.threads[t].pc.LeaseWait? && (w.shared.closed || closing) ==> w.threads[t].pc.LeaseWait?)
    && (|w'.threads[t].held| > |w.threads[t].held| && w.shared.closed ==> w.threads[t].pc.LeaseWait?)
    && (w'.shared.closed && !w.shared.closed ==> closing)
  }

  lemma LeaseWaits(w: World, step: Step, t: nat)
    requires Enabled(w, step) && t < |w.threads| && (step.EnterLease? || step.ResumeLease?)
    ensures |Next(w, step).threads| == |w.threads| && WaitsOn(w, Next(w, step), t, false)
  {
  }

  lemma ReconnectWaits(w: World, step: Step, t: nat)
    requires Enabled(w, step) && t < |w.threads| && (step.EnterReconnect? || step.ResumeReconnect?)
    ensures |Next(w, step).threads| == |w.threads| && WaitsOn(w, Next(w, step), t, false)
  {
  }

  lemma OtherWaits(w: World, step: Step, t: nat)
    requires Enabled(w, step) && t < |w.threads|
    requires !step.EnterLease? && !step.ResumeLease? && !step.EnterReconnect? && !step.ResumeReconnect?
    ensures |Next(w, step).threads| == |w.threads| && WaitsOn(w, Next(w, step), t, step.CloseManager?)
  {
  }

  lemma WaitStep(w: World, step: Step, t: nat)
    requires Enabled(w, step) && t < |w.threads|
    ensures |Next(w, step).threads| == |w.threads| && WaitsOn(w, Next(w, step), t, step.CloseManager?)
  {
    hide Next, WaitsOn;
    if step.EnterLease? || step.ResumeLease? {
      LeaseWaits(w, step, t);
    } else if step.EnterReconnect? || step.ResumeReconnect? {
      ReconnectWaits(w, step, t);
    } else {
      OtherWaits(w, step, t);
    }
  }

  lemma CloseStep(w: World, step: Step)
    requires Enabled(w, step) && step.CloseManager?
    ensures Next(w, step).shared.closed
  {
  }

  lemma {:induction false} WaitedSinceClose(worlds: seq<World>, steps: seq<Step>, i: nat, t: nat) returns (c: nat)
    requires Run(worlds, steps) && i < |worlds| && t < |worlds[i].threads|
    requires worlds[i].shared.closed && worlds[i].threads[t].pc.LeaseWait?
    ensures WaitsSinceClose(worlds, steps, c, i, t)
  {
    hide Next, Enabled;
    SameThreads(worlds, steps, i);
    if i > 0 {
      SameThreads(worlds, steps, i - 1);
      WaitStep(worlds[i - 1], steps[i - 1], t);
      if worlds[i - 1].shared.closed {
        c := WaitedSinceClose(worlds, steps, i - 1, t);
      } else {
        c := i - 1;
      }
    }
  }

  lemma {:induction false} StaysClosed(worlds: seq<World>, steps: seq<Step>, c: nat, i: nat)
    requires Run(worlds, steps) && c < i < |worlds| && steps[c].CloseManager?
    ensures worlds[i].shared.closed
  {
    hide Next, Enabled;
    if c < i - 1 {
      StaysClosed(worlds, steps, c, i - 1);
      StepEpoch(worlds[i - 1], steps[i - 1]);
    } else {
      CloseStep(worlds[c], steps[c]);
    }
  }

  /**
   * Nor is it asked again whether the manager was closed: a lease is granted after close exactly
   * to a thread that already waited for one when close took the lock.
   */
  lemma LeaseAfterCloseExactly(worlds: seq<World>, steps: seq<Step>, i: nat, t: nat)
    requires Run(worlds, steps) && i < |steps| && GrantedAt(worlds, i, t)
    ensures worlds[i].shared.closed <==> exists c: nat :: c < i && WaitsSinceClose(worlds, steps, c, i, t)
  {
    hide Next, Enabled;
    WaitStep(worlds[i], steps[i], t);
    if worlds[i].shared.closed {
      var c := WaitedSinceClose(worlds, steps, i, t);
    }
    forall c: nat | c < i && WaitsSinceClose(worlds, steps, c, i, t) ensures worlds[i].shared.closed {
      StaysClosed(worlds, steps, c, i);
    }
  }

  const IDLE := Thread([], Idle, Plain)
  const HOLDER := Thread([Held(0, 0)], Idle, Plain)
  const DRAINER := Thread([], Drain(0), Plain)

  /** The first state of a run of four threads. */
  const FRESH := World(Shared(None, 0, 0, false, false), [], map[], multiset{}, {}, [IDLE, IDLE, IDLE, IDLE])

  /** Thread 0 holds the first connection, and thread 1 waits to replace it. */
  const DRAINING := World(Shared(Some(0), 0, 1, true, false), [0], map[], multiset{}, {}, [HOLDER, DRAINER, IDLE, IDLE])

  lemma HolderAndDrainer()
    ensures Initial(FRESH)
    ensures Enabled(FRESH, EnterLease(0, true)) && var w := Next(FRESH, EnterLease(0, true));
            Enabled(w, EnterReconnect(1, 0, false, true)) && Next(w, EnterReconnect(1, 0, false, true)) == DRAINING
  {
    var w := Next(FRESH, EnterLease(0, true));
    assert [] + [Held(0, 0)] == HOLDER.held && [] + [0] == [0];
    assert w.threads == [HOLDER, IDLE, IDLE, IDLE];
    assert w == World(Shared(Some(0), 0, 1, false, false), [0], map[], multiset{}, {}, [HOLDER, IDLE, IDLE, IDLE]);
  }

  lemma BothReplace()
    ensures Enabled(DRAINING, EnterReconnect(2, 0, false, true)) && var w1 := Next(DRAINING, EnterReconnect(2, 0, false, true));
            Enabled(w1, ResumeReconnect(1, true, true)) && var w2 := Next(w1, ResumeReconnect(1, true, true));
            Enabled(w2, ResumeReconnect(2, true, true)) && var w3 := Next(w2, ResumeReconnect(2, true, true));
            && w1.shared.epoch == 0 && w2.shared.epoch == 1 && w3.shared.epoch == 2 && |w2.threads| == 4
            && w2.threads[2].pc == Drain(0)
  {
    var w1 := Next(DRAINING, EnterReconnect(2, 0, false, true));
    assert w1 == DRAINING.(threads := [HOLDER, DRAINER, DRAINER, IDLE]);
    var w2 := Next(w1, ResumeReconnect(1, true, true));
    assert w2 == World(Shared(Some(1), 1, 1, false, false), [0, 1], map[], multiset{}, {0}, [HOLDER, IDLE, DRAINER, IDLE]);
  }

  /** Two threads drain for epoch 0 while a third holds a lease, and each replaces the connection. */
  lemma EpochReplacedTwice() returns (worlds: seq<World>, steps: seq<Step>)
    ensures Run(worlds, steps) && |steps| == 5
    ensures steps[3] == ResumeReconnect(1, true, true) && ReplacedAt(worlds, 3)
    ensures steps[4] == ResumeReconnect(2, true, true) && ReplacedAt(worlds, 4)
    ensures |worlds[4].threads| == 4 && worlds[4].threads[2].pc == Drain(0) && worlds[4].shared.epoch == 1
  {
    hide Enabled, Next, FRESH, DRAINING, Initial;
    steps := [EnterLease(0, true), EnterReconnect(1, 0, false, true), EnterReconnect(2, 0, false, true),
              ResumeReconnect(1, true, true), ResumeReconnect(2, true, true)];
    HolderAndDrainer();
    BothReplace();
    var w1 := Next(FRESH, steps[0]);
    var w3 := Next(DRAINING, steps[2]);
    var w4 := Next(w3, steps[3]);
    worlds := [FRESH, w1, DRAINING, w3, w4, Next(w4, steps[4])];
  }

  lemma WaiterOutlivesClose()
    ensures Enabled(DRAINING, EnterLease(2, true)) && var w1 := Next(DRAINING, EnterLease(2, true));
            Enabled(w1, CloseManager(3)) && var w2 := Next(w1, CloseManager(3));
            Enabled(w2, ResumeReconnect(1, true, true)) && var w3 := Next(w2, ResumeReconnect(1, true, true));
            Enabled(w3, ResumeLease(2, true)) && var w4 := Next(w3, ResumeLease(2, true));
            && w2.shared.closed && w3.shared.closed && |w3.threads| == |w4.threads| == 4
            && w3.threads[2].held == [] && |w4.threads[2].held| == 1
  {
    var w1 := Next(DRAINING, EnterLease(2, true));
    assert w1 == DRAINING.(threads := [HOLDER, DRAINER, IDLE.(pc := LeaseWait), IDLE]);
    var w2 := Next(w1, CloseManager(3));
    assert w2 == w1.(shared := w1.shared.(closed := true));
    var w3 := Next(w2, ResumeReconnect(1, true, true));
    assert w3 == World(Shared(Some(1), 1, 1, false, true), [0, 1], map[], multiset{}, {0},
                       [HOLDER, IDLE, IDLE.(pc := LeaseWait), IDLE]);
  }

  /** A thread that waits for a reconnect when the manager is closed is granted a lease afterwards. */
  lemma LeasedAfterClose() returns (worlds: seq<World>, steps: seq<Step>)
    ensures Run(worlds, steps) && |steps| == 6
    ensures steps[3] == CloseManager(3) && worlds[4].shared.closed && worlds[5].shared.closed
    ensures GrantedAt(worlds, 5, 2)
  {
    hide Enabled, Next, FRESH, DRAINING, Initial;
    steps := [EnterLease(0, true), EnterReconnect(1, 0, false, true), EnterLease(2, true), CloseManager(3),
              ResumeReconnect(1, true, true), ResumeLease(2, true)];
    HolderAndDrainer();
    WaiterOutlivesClose();
    var w1 := Next(FRESH, steps[0]);
    var w3 := Next(DRAINING, steps[2]);
    var w4 := Next(w3, steps[3]);
    var w5 := Next(w4, steps[4]);
    worlds := [FRESH, w1, DRAINING, w3, w4, w5, Next(w5, steps[5])];
  }
}

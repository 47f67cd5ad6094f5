/**
 * kubeconfig_export.py: one lock, one file, and refreshes that may be under way when the exporter
 * shuts down. All effects on the file happen inside sections that hold the lock.
 */
module Export {
  import opened Wrappers

  /** `exports` are the texts export_kubeconfig returned so far: complete kubeconfigs. */
  datatype State = State(stop: bool, started: bool, file: Option<string>, lastError: Option<string>, exports: set<string>)

  /** _write replaces the file in one rename, and may raise before it or after it. */
  datatype WriteFault = Written | RaisedBefore | RaisedAfter

  /** What one thread does while it holds the lock; `unlinked` is false if the unlink raises. */
  datatype Section =
    | Start(unlinked: bool)
    | Publish(text: string, fault: WriteFault)
    | Withdraw(reason: string, unlinked: bool)
    | Shutdown(unlinked: bool)

  function Unlink(file: Option<string>, unlinked: bool): Option<string> {
    if unlinked then None else file
  }

  function After(s: State, c: Section): State {
    match c
    case Start(unlinked) =>
      if s.started || s.stop || !unlinked then s else s.(file := None, started := true)
    case Publish(text, fault) =>
      if s.stop || fault.RaisedBefore? then s
      else if fault.RaisedAfter? then s.(file := Some(text))
      else s.(file := Some(text), lastError := None)
    case Withdraw(reason, unlinked) =>
      if s.stop then s else s.(file := Unlink(s.file, unlinked), lastError := Some(reason))
    case Shutdown(unlinked) =>
      if s.started then s.(stop := true, file := Unlink(s.file, unlinked)) else s.(stop := true)
  }

  function Run(s: State, sections: seq<Section>): State
    decreases |sections|
  {
    if sections == [] then s else After(Run(s, sections[..|sections| - 1]), sections[|sections| - 1])
  }

  /** A refresh only publishes what export_kubeconfig returned. */
  predicate Honest(s: State, sections: seq<Section>) {
    forall i :: 0 <= i < |sections| && sections[i].Publish? ==> sections[i].text in s.exports
  }

  class KubeconfigExporter {
    var stop: bool
    var started: bool
    var file: Option<string>
    var lastError: Option<string>
    var exports: set<string>

    function Now(): State reads this {
      State(stop, started, file, lastError, exports)
    }

    /** `file` may be left over from an earlier process. */
    constructor (file: Option<string>)
      ensures Now() == State(false, false, file, None, {})
    {
      stop, started, this.file, lastError, exports := false, false, file, None, {};
    }

    method Start(unlinked: bool) returns (ok: bool)
      modifies this
      ensures Now() == After(old(Now()), Section.Start(unlinked))
      // A worker that starts finds no file of an earlier process, and none starts twice or after a stop.
      ensures started && !old(started) ==> file.None? && !stop
      ensures old(started) || old(stop) ==> ok && Now() == old(Now())
      ensures !ok ==> Now() == old(Now())
      ensures !old(started) && !old(stop) ==> ok == started == unlinked
    {
      if started || stop {
        return true;
      }
      if !unlinked {
        return false;
      }
      file := None;
      started := true;
      ok := true;
    }

    method Shutdown(unlinked: bool)
      modifies this
      ensures Now() == After(old(Now()), Section.Shutdown(unlinked))
      // Afterwards a file is left only if it was not this exporter's or would not go.
      ensures stop && started == old(started)
      ensures file.Some? ==> file == old(file) && (old(started) ==> !unlinked)
      ensures !old(started) ==> file == old(file)
    {
      stop := true;
      if started {
        Remove(unlinked);
      }
    }

    /** _remove, which swallows the error of an unlink. */
    method Remove(unlinked: bool)
      modifies this`file
      ensures file == Unlink(old(file), unlinked)
    {
      if unlinked {
        file := None;
      }
    }

    /** _write: a file that already has the content is left alone. */
    method Write(text: string, fault: WriteFault) returns (ok: bool)
      modifies this`file
      ensures file == if fault.RaisedBefore? then old(file) else Some(text)
      ensures ok == fault.Written?
    {
      if fault.RaisedBefore? {
        return false;
      }
      if file != Some(text) {
        file := Some(text);
      }
      ok := fault.Written?;
    }

    /** The locked part of a refresh that has its text: whether it raised. */
    method Publish(text: string, fault: WriteFault) returns (ok: bool)
      modifies this
      ensures Now() == After(old(Now()), Section.Publish(text, fault))
      ensures old(stop) ==> Now() == old(Now())
      ensures file != old(file) ==> !old(stop) && file == Some(text)
      ensures ok && !old(stop) ==> file == Some(text) && lastError.None?
      ensures ok == (old(stop) || fault.Written?)
    {
      if stop {
        return true;
      }
      ok := Write(text, fault);
      if ok {
        lastError := None;
      }
    }

    /** The locked part of a refresh that failed. */
    method Withdraw(reason: string, unlinked: bool)
      modifies this
      ensures Now() == After(old(Now()), Section.Withdraw(reason, unlinked))
      ensures old(stop) ==> Now() == old(Now())
      ensures !old(stop) ==> lastError == Some(reason) && (unlinked ==> file.None?)
      ensures file.Some? ==> file == old(file)
    {
      if stop {
        return;
      }
      if lastError != Some(reason) {
        lastError := Some(reason);
      }
      Remove(unlinked);
    }

    /** What other threads do while this one holds no lock. */
    method Others(sections: seq<Section>)
      modifies this
      ensures Now() == Run(old(Now()), sections)
    {
      assert sections[..0] == [];
      for i := 0 to |sections|
        invariant Now() == Run(old(Now()), sections[..i])
      {
        assert sections[..i + 1][..i] == sections[..i];
        match sections[i]
        case Start(unlinked) => var ok := Start(unlinked);
        case Publish(text, fault) => var ok := Publish(text, fault);
        case Withdraw(reason, unlinked) => Withdraw(reason, unlinked);
        case Shutdown(unlinked) => Shutdown(unlinked);
      }
      assert sections[..|sections|] == sections;
    }

    /**
     * refresh: others run while it collects the text, and again before it withdraws. The file is
     * absent after a failed refresh whose unlink worked, and whatever comes of it after a stop is
     * not this refresh's doing.
     */
    method Refresh(text: Option<string>, before: seq<Section>, fault: WriteFault, between: seq<Section>, reason: string,
                   unlinked: bool)
      returns (ghost sections: seq<Section>)
      modifies this
      ensures old(stop) ==> sections == []
      ensures !old(stop) && text.Some? ==>
                Now() == Run(old(Now()).(exports := old(exports) + {text.value}), sections)
      ensures !old(stop) && text.None? ==> Now() == Run(old(Now()), sections)
      ensures old(stop) ==> Now() == old(Now())
      ensures !old(stop) && text.None? ==> sections == before + between + [Section.Withdraw(reason, unlinked)]
      ensures !old(stop) && text.Some? ==>
                || sections == before + [Section.Publish(text.value, fault)]
                || sections == before + [Section.Publish(text.value, fault)] + between + [Section.Withdraw(reason, unlinked)]
      ensures !old(stop) && text.Some? && fault.Written? ==> sections == before + [Section.Publish(text.value, fault)]
      ensures !old(stop) && (text.None? || !fault.Written?) && unlinked && !stop ==> file == None
    {
      sections := [];
      if stop {
        return;
      }
      if text.Some? {
        exports := exports + {text.value};
      }
      ghost var s := Now();
      Others(before);
      sections := before;
      if text.Some? {
        RunMore(s, sections, [Section.Publish(text.value, fault)]);
        var ok := Publish(text.value, fault);
        sections := sections + [Section.Publish(text.value, fault)];
        if ok {
          return;
        }
      }
      RunMore(s, sections, between);
      Others(between);
      sections := sections + between;
      RunMore(s, sections, [Section.Withdraw(reason, unlinked)]);
      Withdraw(reason, unlinked);
      sections := sections + [Section.Withdraw(reason, unlinked)];
    }
  }

  lemma {:induction false} RunMore(s: State, a: seq<Section>, b: seq<Section>)
    ensures Run(s, a + b) == Run(Run(s, a), b)
    decreases |b|
  {
    if b == [] {
      assert a + b == a;
    } else {
      var n := |b| - 1;
      assert (a + b)[..|a| + n] == a + b[..n];
      RunMore(s, a, b[..n]);
    }
  }

  /** After the start, the file is absent or exactly one complete export. */
  lemma {:induction false} AbsentOrComplete(s: State, sections: seq<Section>)
    requires Honest(s, sections)
    requires s.started ==> s.file.None? || s.file.value in s.exports
    ensures var s' := Run(s, sections);
            s'.exports == s.exports && (s.started ==> s'.started)
            && (s'.started ==> s'.file.None? || s'.file.value in s'.exports)
    decreases |sections|
  {
    if sections != [] {
      var n := |sections| - 1;
      assert forall i :: 0 <= i < n ==> sections[..n][i] == sections[i];
      AbsentOrComplete(s, sections[..n]);
    }
  }

  /**
   * No late publication: once the shutdown of a started exporter has left its locked section with
   * the file unlinked, the file is absent in every later state, whatever refreshes were under way.
   */
  lemma NoLatePublication(s: State, sections: seq<Section>, k: nat)
    requires k < |sections| && sections[k] == Section.Shutdown(true) && Run(s, sections[..k]).started
    ensures forall j :: k < j <= |sections| ==> Run(s, sections[..j]).file == None && Run(s, sections[..j]).stop
  {
    forall j | k < j <= |sections| ensures Run(s, sections[..j]).file == None && Run(s, sections[..j]).stop {
      StaysAbsent(s, sections, k, j);
    }
  }

  lemma {:induction false} StaysAbsent(s: State, sections: seq<Section>, k: nat, j: nat)
    requires k < j <= |sections| && sections[k] == Section.Shutdown(true) && Run(s, sections[..k]).started
    ensures var s' := Run(s, sections[..j]); s'.file == None && s'.stop && s'.started
  {
    assert sections[..j][..j - 1] == sections[..j - 1];
    if j - 1 > k {
      StaysAbsent(s, sections, k, j - 1);
    }
  }
}

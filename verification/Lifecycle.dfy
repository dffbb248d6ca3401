/** The managed devnet lifecycle (cli/internal/lifecycle/manager.go): what becomes of the user's kubectl
    context over any sequence of Ups, Downs and context switches, whichever calls fail. */
module Lifecycle {
  import opened Fingerprints

  const MANAGED_CONTEXT := "k3d-yacd"

  datatype Record = Record(clusterName: string, context: string, priorContext: string, k3dVersion: string,
                           kubeconfigPath: string)

  datatype Stored = NoRecord | Saved(record: Record)

  datatype Info = Info(name: string, context: string, kubeconfigPath: string)

  /** The state file and, per kubeconfig file, its current-context; "" is no current-context. */
  datatype Machine = Machine(stored: Stored, contexts: map<string, string>)

  function ContextIn(contexts: map<string, string>, path: string): string {
    if path in contexts then contexts[path] else ""
  }

  /** What the world does to one call of Up. The provisioner leaves arbitrary current-contexts behind,
      also when it fails. */
  datatype UpWorld = UpWorld(locked: bool, loaded: bool, ambient: string, captured: bool, ensured: Option<Info>,
                             contexts: map<string, string>, saved: bool, finished: bool, k3dVersion: string)

  /** What the world does to one call of Down; an empty kubeconfig path means the ambient file. */
  datatype DownWorld = DownWorld(locked: bool, loaded: bool, ambient: string, deleted: bool, contexts: map<string, string>,
                                 restored: bool, cleared: bool)

  /** `buildRecord`. */
  function BuildRecord(info: Info, prior: string, existing: Option<Record>, k3dVersion: string): (r: Record)
    ensures (existing.Some? ==> existing.value.priorContext != MANAGED_CONTEXT) ==> r.priorContext != MANAGED_CONTEXT
  {
    var own := if prior == MANAGED_CONTEXT then "" else prior;
    var kept := existing.Some? && existing.value.priorContext != "" && existing.value.priorContext != MANAGED_CONTEXT;
    Record(info.name, info.context, if kept then existing.value.priorContext else own, k3dVersion, info.kubeconfigPath)
  }

  function Captured(m: Machine, w: UpWorld): string {
    if w.captured then ContextIn(m.contexts, w.ambient) else ""
  }

  /** The effect of Up: nothing before the provisioner runs, its contexts after that, and the new record
      once it is saved; nothing later touches either. */
  function AfterUp(m: Machine, w: UpWorld): Machine {
    if !w.locked || !w.loaded then m
    else if w.ensured.None? || !w.saved then m.(contexts := w.contexts)
    else
      var existing := if m.stored.Saved? then Some(m.stored.record) else None;
      Machine(Saved(BuildRecord(w.ensured.value, Captured(m, w), existing, w.k3dVersion)), w.contexts)
  }

  function RestorePath(r: Record, ambient: string): string {
    if r.kubeconfigPath != "" then r.kubeconfigPath else ambient
  }

  /** The effect of Down: a record that cannot be read is skipped and still cleared. */
  function AfterDown(m: Machine, w: DownWorld): Machine {
    if !w.locked then m
    else if !w.deleted then m.(contexts := w.contexts)
    else
      var contexts :=
        if w.loaded && m.stored.Saved? && m.stored.record.priorContext != MANAGED_CONTEXT && w.restored
        then w.contexts[RestorePath(m.stored.record, w.ambient) := m.stored.record.priorContext]
        else w.contexts;
      Machine(if w.cleared then NoRecord else m.stored, contexts)
  }

  // -------------------------------------------------------------------------------------------
  // The manager

  class Manager {
    var stored: Stored
    var contexts: map<string, string>
    var lockHeld: bool

    function View(): Machine
      reads this
    {
      Machine(stored, contexts)
    }

    method CaptureContext(w: UpWorld) returns (prior: string)
      ensures prior == Captured(View(), w)
    {
      prior := "";
      if w.captured && w.ambient in contexts {
        prior := contexts[w.ambient];
      }
    }

    method NewRecord(info: Info, prior: string, existing: Option<Record>, k3dVersion: string) returns (r: Record)
      ensures r == BuildRecord(info, prior, existing, k3dVersion)
      ensures r.clusterName == info.name && r.context == info.context && r.kubeconfigPath == info.kubeconfigPath
      ensures r.k3dVersion == k3dVersion
      ensures existing.Some? && existing.value.priorContext !in {"", "k3d-yacd"} ==>
                r.priorContext == existing.value.priorContext
      ensures existing.None? || existing.value.priorContext in {"", "k3d-yacd"} ==>
                r.priorContext == if prior == "k3d-yacd" then "" else prior
    {
      var priorContext := prior;
      if priorContext == MANAGED_CONTEXT {
        priorContext := "";
      }
      if existing.Some? && existing.value.priorContext != "" && existing.value.priorContext != MANAGED_CONTEXT {
        priorContext := existing.value.priorContext;
      }
      r := Record(info.name, info.context, priorContext, k3dVersion, info.kubeconfigPath);
    }

    /** `Up` under the lock, up to the saved record. */
    method UpLocked(w: UpWorld) returns (ok: bool)
      requires w.locked
      modifies `stored, `contexts
      ensures View() == AfterUp(old(View()), w)
      ensures ok <==> w.loaded && w.ensured.Some? && w.saved && w.finished
    {
      var prior := CaptureContext(w);
      if !w.loaded {
        return false;
      }
      var existing := if stored.Saved? then Some(stored.record) else None;
      contexts := w.contexts;
      if w.ensured.None? {
        return false;
      }
      var record := NewRecord(w.ensured.value, prior, existing, w.k3dVersion);
      if !w.saved {
        return false;
      }
      stored := Saved(record);
      return w.finished;
    }

    /** `Up`; the lock is released on every path. */
    method Up(w: UpWorld) returns (ok: bool)
      requires !lockHeld
      modifies this
      ensures !lockHeld && View() == AfterUp(old(View()), w)
      ensures ok <==> w.locked && w.loaded && w.ensured.Some? && w.saved && w.finished
      ensures stored == old(stored) || (w.locked && w.loaded && w.ensured.Some? && w.saved)
      ensures contexts == if w.locked && w.loaded then w.contexts else old(contexts)
    {
      if !w.locked {
        return false;
      }
      lockHeld := true;
      ok := UpLocked(w);
      lockHeld := false;
    }

    /** `Down` under the lock. */
    method DownLocked(w: DownWorld) returns (ok: bool)
      requires w.locked
      modifies `stored, `contexts
      ensures View() == AfterDown(old(View()), w)
      ensures ok <==> w.deleted && w.cleared
    {
      var found := w.loaded && stored.Saved?;
      contexts := w.contexts;
      if !w.deleted {
        return false;
      }
      if found && stored.record.priorContext != MANAGED_CONTEXT && w.restored {
        contexts := contexts[RestorePath(stored.record, w.ambient) := stored.record.priorContext];
      }
      if !w.cleared {
        return false;
      }
      stored := NoRecord;
      return true;
    }

    /** `Down`; the lock is released on every path. */
    method Down(w: DownWorld) returns (ok: bool)
      requires !lockHeld
      modifies this
      ensures !lockHeld && View() == AfterDown(old(View()), w)
      ensures ok <==> w.locked && w.deleted && w.cleared
      ensures stored == if ok then NoRecord else old(stored)
      ensures contexts ==
                if !w.locked then old(contexts)
                else if w.deleted && w.loaded && w.restored && old(stored).Saved? && old(stored).record.priorContext != "k3d-yacd"
                then w.contexts[(if old(stored).record.kubeconfigPath != "" then old(stored).record.kubeconfigPath else w.ambient)
                                := old(stored).record.priorContext]
                else w.contexts
    {
      if !w.locked {
        return false;
      }
      lockHeld := true;
      ok := DownLocked(w);
      lockHeld := false;
    }
  }

  // -------------------------------------------------------------------------------------------
  // Any sequence of calls and context switches

  datatype Event = Up(up: UpWorld) | Down(down: DownWorld) | Switch(path: string, context: string)

  function After(m: Machine, e: Event): Machine {
    match e
    case Up(w) => AfterUp(m, w)
    case Down(w) => AfterDown(m, w)
    case Switch(path, context) => m.(contexts := m.contexts[path := context])
  }

  function Run(m: Machine, events: seq<Event>): Machine
    decreases events
  {
    if events == [] then m else Run(After(m, events[0]), events[1..])
  }

  predicate Recorded(m: Machine, prior: string) {
    m.stored.Saved? && m.stored.record.priorContext == prior
  }

  predicate NeverManaged(m: Machine) {
    m.stored.Saved? ==> m.stored.record.priorContext != MANAGED_CONTEXT
  }

  /** A saved record never names the managed context as the one to go back to. */
  lemma {:induction false} RecordNeverNamesManagedContext(m: Machine, events: seq<Event>)
    requires NeverManaged(m)
    ensures NeverManaged(Run(m, events))
    decreases events
  {
    if events != [] {
      RecordNeverNamesManagedContext(After(m, events[0]), events[1..]);
    }
  }

  /** No Down of the run clears the record: it fails before, or is not called. */
  predicate NoClear(events: seq<Event>) {
    forall i :: 0 <= i < |events| && events[i].Down? ==>
      !events[i].down.locked || !events[i].down.deleted || !events[i].down.cleared
  }

  /** A real prior context, once saved, outlives every Up, every context switch and every Down that does
      not clear the record. */
  lemma {:induction false} PriorContextIsSticky(m: Machine, events: seq<Event>, prior: string)
    requires Recorded(m, prior) && prior != "" && prior != MANAGED_CONTEXT && NoClear(events)
    ensures Recorded(Run(m, events), prior)
    decreases events
  {
    if events != [] {
      assert forall i :: 0 <= i < |events[1..]| ==> events[1..][i] == events[i + 1];
      assert events[0].Down? ==> !events[0].down.locked || !events[0].down.deleted || !events[0].down.cleared;
      PriorContextIsSticky(After(m, events[0]), events[1..], prior);
    }
  }

  predicate UpSaves(w: UpWorld) {
    w.locked && w.loaded && w.ensured.Some? && w.saved
  }

  predicate DownSucceeds(w: DownWorld) {
    w.locked && w.loaded && w.deleted && w.restored && w.cleared
  }

  /** A context one can go back to. */
  predicate Real(context: string) {
    context != "" && context != MANAGED_CONTEXT
  }

  /** The first real context that an Up of the run captured and saved, or "". */
  function FirstReal(m: Machine, events: seq<Event>): string
    decreases events
  {
    if events == [] then ""
    else if events[0].Up? && UpSaves(events[0].up) && Real(Captured(m, events[0].up)) then Captured(m, events[0].up)
    else FirstReal(After(m, events[0]), events[1..])
  }

  /** The record of a run that never clears it names exactly the first real context saved. */
  lemma {:induction false} RecordNamesTheFirstReal(m: Machine, events: seq<Event>)
    requires (m.stored.NoRecord? || Recorded(m, "")) && NoClear(events)
    ensures var t := Run(m, events);
            if t.stored.Saved? then Recorded(t, FirstReal(m, events)) else FirstReal(m, events) == ""
    ensures m.stored.Saved? ==> Run(m, events).stored.Saved?
    decreases events
  {
    if events != [] {
      var e, t := events[0], After(m, events[0]);
      assert forall i :: 0 <= i < |events[1..]| ==> events[1..][i] == events[i + 1];
      assert e.Down? ==> !e.down.locked || !e.down.deleted || !e.down.cleared;
      if e.Up? && UpSaves(e.up) && Real(Captured(m, e.up)) {
        PriorContextIsSticky(t, events[1..], Captured(m, e.up));
      } else {
        RecordNamesTheFirstReal(t, events[1..]);
      }
    }
  }

  /** What Down puts back where it goes through. */
  function Restored(before: Machine, last: DownWorld): string
    requires before.stored.Saved?
  {
    ContextIn(After(before, Down(last)).contexts, RestorePath(before.stored.record, last.ambient))
  }

  /** A Down that goes through puts back the first real context saved since there was no record, whatever
      else happened, and clears the record. */
  lemma DownRestoresTheFirstReal(m: Machine, events: seq<Event>, last: DownWorld)
    requires m.stored.NoRecord? && NoClear(events) && DownSucceeds(last) && Run(m, events).stored.Saved?
    ensures Restored(Run(m, events), last) == FirstReal(m, events) != MANAGED_CONTEXT
    ensures After(Run(m, events), Down(last)).stored.NoRecord?
  {
    RecordNamesTheFirstReal(m, events);
    RecordNeverNamesManagedContext(m, events);
  }

  /** The last Up of the run that saved its record. */
  function LastSaving(events: seq<Event>): Option<UpWorld> {
    if events == [] then None
    else
      var last := events[|events| - 1];
      if last.Up? && UpSaves(last.up) then Some(last.up) else LastSaving(events[..|events| - 1])
  }

  lemma {:induction false} RunLast(m: Machine, events: seq<Event>, last: Event)
    ensures Run(m, events + [last]) == After(Run(m, events), last)
    decreases events
  {
    if events == [] {
      assert events + [last] == [last] && [last][1..] == [];
      assert Run(m, [last]) == Run(After(m, last), []);
    } else {
      assert (events + [last])[1..] == events[1..] + [last];
      RunLast(After(m, events[0]), events[1..], last);
    }
  }

  /** Everything but the prior context is the last saving Up's: the record names the cluster, the context and the
      kubeconfig it came up with. */
  lemma {:induction false} RecordIsOfTheLastUp(m: Machine, events: seq<Event>)
    requires m.stored.NoRecord? && NoClear(events)
    ensures var t := Run(m, events);
            && (t.stored.Saved? <==> LastSaving(events).Some?)
            && (t.stored.Saved? ==>
                  var w := LastSaving(events).value; var r := t.stored.record;
                  w.ensured.Some? && r.clusterName == w.ensured.value.name && r.context == w.ensured.value.context
                  && r.kubeconfigPath == w.ensured.value.kubeconfigPath && r.k3dVersion == w.k3dVersion)
    decreases |events|
  {
    if events != [] {
      var n := |events| - 1;
      var last := events[n];
      assert events == events[..n] + [last];
      assert forall i :: 0 <= i < n ==> events[..n][i] == events[i];
      assert last.Down? ==> !last.down.locked || !last.down.deleted || !last.down.cleared;
      RecordIsOfTheLastUp(m, events[..n]);
      RunLast(m, events[..n], last);
    }
  }

  /** So the context goes back into the kubeconfig file the last saving Up reported, or else into the ambient one. */
  lemma DownRestoresIntoTheKubeconfig(m: Machine, events: seq<Event>, last: DownWorld)
    requires m.stored.NoRecord? && NoClear(events) && DownSucceeds(last) && Run(m, events).stored.Saved?
    ensures LastSaving(events).Some? && LastSaving(events).value.ensured.Some?
    ensures var path := LastSaving(events).value.ensured.value.kubeconfigPath;
            ContextIn(After(Run(m, events), Down(last)).contexts, if path != "" then path else last.ambient)
            == FirstReal(m, events)
  {
    RecordIsOfTheLastUp(m, events);
    DownRestoresTheFirstReal(m, events, last);
  }

  /** The user's view: what the first saving Up found current is what Down brings back, exactly if that was
      not the managed context and, where nothing was current, no later saving Up found a real one. */
  lemma DownRestoresTheContextIff(m: Machine, first: UpWorld, between: seq<Event>, last: DownWorld)
    requires m.stored.NoRecord? && UpSaves(first) && NoClear(between) && DownSucceeds(last)
    ensures var t := After(m, Up(first)); var before := Run(t, between);
            && before.stored.Saved?
            && (Restored(before, last) == Captured(m, first) <==>
                  && Captured(m, first) != MANAGED_CONTEXT
                  && (Captured(m, first) == "" ==> FirstReal(t, between) == ""))
  {
    var events := [Up(first)] + between;
    assert events[1..] == between;
    var t := After(m, Up(first));
    if Real(Captured(m, first)) {
      PriorContextIsSticky(t, between, Captured(m, first));
    } else {
      RecordNamesTheFirstReal(t, between);
    }
    assert forall i :: 0 < i < |events| ==> events[i] == between[i - 1];
    DownRestoresTheFirstReal(m, events, last);
  }

  /** An Up that stops between creating the cluster and saving the record leaves the next Up with whatever
      is current by then: Down brings the user's context back exactly if it is still the current one, and
      the provisioner's switch to the managed context loses it. */
  lemma UnsavedUpKeepsTheContextIff(m: Machine, failing: UpWorld, second: UpWorld, last: DownWorld)
    requires m.stored.NoRecord? && failing.locked && failing.loaded && (failing.ensured.None? || !failing.saved)
    requires Real(Captured(m, failing)) && second.captured && UpSaves(second) && DownSucceeds(last)
    ensures var before := Run(m, [Up(failing), Up(second)]);
            && before.stored.Saved?
            && (Restored(before, last) == Captured(m, failing) <==>
                  ContextIn(failing.contexts, second.ambient) == Captured(m, failing))
            && (ContextIn(failing.contexts, second.ambient) == MANAGED_CONTEXT ==> Restored(before, last) == "")
  {
    var t := AfterUp(m, failing);
    assert t == m.(contexts := failing.contexts);
    assert Captured(t, second) == ContextIn(failing.contexts, second.ambient);
    TwoUps(m, failing, second);
    var events := [Up(failing), Up(second)];
    assert events[1..] == [Up(second)] && [Up(second)][1..] == [];
    DownRestoresTheFirstReal(m, events, last);
    assert FirstReal(m, events) == FirstReal(t, [Up(second)]);
    assert FirstReal(AfterUp(t, second), []) == "";
  }

  lemma TwoUps(m: Machine, first: UpWorld, second: UpWorld)
    ensures Run(m, [Up(first), Up(second)]) == AfterUp(AfterUp(m, first), second)
  {
    var events := [Up(first), Up(second)];
    assert events[1..] == [Up(second)] && [Up(second)][1..] == [];
    assert Run(m, events) == Run(AfterUp(m, first), [Up(second)]);
    assert Run(AfterUp(m, first), [Up(second)]) == Run(AfterUp(AfterUp(m, first), second), []);
  }
}

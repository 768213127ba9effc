/** What app/llm_installation/runtime_lifecycle.py does to containers in one apply, as
    functions of what was there and of how docker served each call. */
module RuntimeSwitch {
  import opened Wrappers
  import opened Docker

  datatype Spec = Spec(name: string, runtime: string, generation: string, argsExist: bool)

  function PreviousName(name: string): (p: string)
    ensures p != name
  {
    name + "-previous"
  }

  // ---------------------------------------------------------- the log of calls

  predicate SawHealthy(e: Entry) {
    e.op.Inspect? && e.op.seen.Saw? && e.op.seen.state.running && e.op.seen.state.health == Healthy
  }

  predicate Promotes(e: Entry) {
    e.op == Update(UnlessStopped) && e.ok
  }

  /** In this order: seen healthy, the health endpoint answered, the restart
      policy was set. */
  ghost predicate Validated(entries: seq<Entry>) {
    exists i, j, k :: 0 <= i < j < k < |entries| && SawHealthy(entries[i])
      && entries[j].op == Exec && entries[j].ok && Promotes(entries[k])
  }

  predicate OnOwned(e: Entry) {
    e.op.Inspect? || e.target.None? || e.target.value.owned
  }

  /** Every call that does something was on a container with the Dotori labels. */
  ghost predicate OnlyOwned(entries: seq<Entry>) {
    forall k :: 0 <= k < |entries| ==> OnOwned(entries[k])
  }

  predicate Deletes(e: Entry, id: int) {
    e.op == Remove && e.ok && e.target.Some? && e.target.value.id == id
  }

  /** The container was deleted while no candidate had been validated. */
  ghost predicate DeletedUnverified(entries: seq<Entry>, id: int) {
    exists k :: 0 <= k < |entries| && Deletes(entries[k], id) && !Validated(entries[..k])
  }

  /** Waiting, probing and promoting, on one of our containers. */
  ghost predicate OnlyChecks(entries: seq<Entry>) {
    forall k :: 0 <= k < |entries| ==>
      (entries[k].op.Inspect? || entries[k].op.Exec? || entries[k].op.Update?) && OnOwned(entries[k])
  }

  /** Containers without the labels are where and as they were. */
  ghost predicate ForeignKept(a: Containers, b: Containers) {
    forall k :: k in a && !a[k].owned ==> k in b && b[k] == a[k]
  }

  // --------------------------------------------------------------- one switch

  /** How docker serves the calls of one apply: whether the image is there, the first
      inspect and its labels, stop and rename of the previous container, clearing the
      name, the run; after a success dropping the previous container; after a failure
      another look, removing the candidate, moving the previous container back and
      starting it. */
  datatype Fates = Fates(
    image: bool, look: bool, labels: bool, stop: bool, rename: bool, clear: bool, run: RunFate,
    drop: bool, lookAgain: bool, remove: bool, back: bool, start: bool)

  datatype Switching = Switching(spec: Spec, id: int, was: Containers, fates: Fates) {
    function Name(): string {
      spec.name
    }

    function Previous(): string {
      PreviousName(spec.name)
    }

    function Candidate(): Container {
      Fresh(id, spec.runtime, spec.generation)
    }

    /** The first inspect reports a container. */
    predicate Sees() {
      fates.look && Name() in was
    }

    /** Nothing is in the way: arguments and image are there, and a container that was
        seen is ours. */
    predicate Goes() {
      spec.argsExist && fates.image && (Sees() ==> fates.labels && was[Name()].owned)
    }

    /** Somebody else's container has the name and hid from the first inspect. */
    predicate Overlooks() {
      Goes() && Name() in was && !was[Name()].owned
    }

    /** The previous container is moved aside. */
    predicate Moves() {
      Sees() && fates.rename && Previous() !in was
    }

    function Aside(): Containers {
      if Moves() then (was - {Name()})[Previous() := was[Name()]] else was
    }

    function Cleared(): Containers {
      if fates.clear then Aside() - {Name()} else Aside()
    }

    predicate StartsUp() {
      fates.run == Runs && Name() !in Cleared()
    }

    /** After the run of the candidate. */
    function Tried(): Containers {
      if fates.run != RunsNot && Name() !in Cleared() then Cleared()[Name() := Candidate()] else Cleared()
    }

    function Promoted(): Containers {
      Tried()[Name() := Candidate().(restart := UnlessStopped)]
    }

    /** After a failure, without the candidate if it could be removed. */
    function Undone(): Containers {
      if fates.remove then Tried() - {Name()} else Tried()
    }

    predicate MovesBack() {
      Moves() && fates.back && Name() !in Undone()
    }

    function RolledBack(): Containers {
      if MovesBack() then (Undone() - {Previous()})[Name() := was[Name()]] else Undone()
    }

    /** A rollback is reported: whatever has the name by then was started. */
    predicate Restores() {
      Moves() && fates.start && Name() in RolledBack()
    }

    /** What is left in the end. */
    function After(ok: bool): Containers {
      if !ok then RolledBack()
      else if Moves() && fates.drop then Promoted() - {Previous()}
      else Promoted()
    }

    function ReplaceLog(): seq<Entry> {
      (if Sees() then [Entry(Stop, At(was, Name()), fates.stop), Entry(Rename, At(was, Name()), Moves())] else [])
      + [Entry(Remove, At(Aside(), Name()), fates.clear), Entry(Run, None, StartsUp())]
    }

    function DropLog(): seq<Entry> {
      if Moves() then [Entry(Remove, At(Promoted(), Previous()), fates.drop)] else []
    }

    function UndoLog(seen: Seen): seq<Entry> {
      [Entry(Inspect(seen), At(Tried(), Name()), seen.Saw?), Entry(Remove, At(Tried(), Name()), fates.remove)]
      + if Moves() then
          [Entry(Rename, At(Undone(), Previous()), MovesBack()), Entry(Start, At(RolledBack(), Name()), Restores())]
        else []
    }
  }

  /** The calls of a switch: the first inspect, the replacement, the checks on a
      candidate that started, and what success or failure asks for. */
  ghost predicate SwitchLog(sw: Switching, entries: seq<Entry>, seen: Seen, checks: seq<Entry>, again: Seen, ok: bool) {
    && OnlyChecks(checks) && (ok ==> Validated(checks)) && (!sw.StartsUp() ==> checks == [])
    && entries == [Entry(Inspect(seen), At(sw.was, sw.Name()), seen.Saw?)] + sw.ReplaceLog() + checks
                  + (if ok then sw.DropLog() else sw.UndoLog(again))
  }

  // ------------------------------------------------------ which containers are left

  /** MAIN RESULT. The previous container survives a failed switch, under one of the
      two names, if and only if it was moved aside, or neither clearing the name nor
      removing the candidate succeeded. */
  lemma KeptExactly(sw: Switching)
    requires Gone(sw.was, sw.id) && IdsUnique(sw.was) && sw.Goes() && sw.Name() in sw.was
    ensures !Gone(sw.After(false), sw.was[sw.Name()].id) <==> sw.Moves() || (!sw.fates.clear && !sw.fates.remove)
    ensures sw.Moves() || (!sw.fates.clear && !sw.fates.remove) ==>
      At(sw.After(false), sw.Name()) == Some(sw.was[sw.Name()])
      || At(sw.After(false), sw.Previous()) == Some(sw.was[sw.Name()])
  {
    var held, now := sw.was[sw.Name()], sw.After(false);
    if sw.Moves() {
      assert At(now, sw.Name()) == Some(held) || At(now, sw.Previous()) == Some(held);
    } else if !sw.fates.clear && !sw.fates.remove {
      assert At(now, sw.Name()) == Some(held);
    } else {
      forall k | k in now ensures now[k].id != held.id {
        assert (k in sw.was && k != sw.Name() && now[k] == sw.was[k]) || now[k] == sw.Candidate();
      }
    }
  }

  /** Containers of others stay where and as they were if and only if
      none was overlooked, or neither removal of it succeeded. */
  lemma ForeignExactly(sw: Switching, ok: bool)
    requires Gone(sw.was, sw.id) && sw.Goes() && (ok ==> sw.StartsUp())
    ensures ForeignKept(sw.was, sw.After(ok)) <==> !sw.Overlooks() || (!sw.fates.clear && !sw.fates.remove)
  {
    if sw.Overlooks() && (sw.fates.clear || sw.fates.remove) {
      assert sw.Name() in sw.After(ok) ==> sw.After(ok)[sw.Name()] != sw.was[sw.Name()];
    }
  }

  /** A reported rollback has the previous container under the name if and only if it
      was moved back, and the candidate otherwise. */
  lemma RestoredExactly(sw: Switching)
    requires Gone(sw.was, sw.id) && sw.Restores()
    ensures sw.Name() in sw.was && sw.Name() in sw.After(false)
    ensures sw.After(false)[sw.Name()] == sw.was[sw.Name()] <==> sw.MovesBack()
    ensures !sw.MovesBack() ==> sw.After(false)[sw.Name()] == sw.Candidate()
  {
  }

  // ----------------------------------------------------------- which calls are made

  lemma ReplaceOwned(sw: Switching)
    requires sw.Goes()
    ensures OnlyOwned(sw.ReplaceLog()) <==> !sw.Overlooks()
  {
    var log := sw.ReplaceLog();
    if sw.Overlooks() {
      assert log[0].op == Remove && !OnOwned(log[0]);
    }
  }

  lemma TailOwned(sw: Switching, again: Seen, ok: bool)
    requires sw.Goes() && !sw.Overlooks()
    ensures OnlyOwned(if ok then sw.DropLog() else sw.UndoLog(again))
  {
  }

  lemma OwnedJoin(a: seq<Entry>, b: seq<Entry>)
    ensures OnlyOwned(a + b) <==> OnlyOwned(a) && OnlyOwned(b)
  {
    if OnlyOwned(a + b) {
      forall k | 0 <= k < |a| ensures OnOwned(a[k]) {
        assert (a + b)[k] == a[k];
      }
      forall k | 0 <= k < |b| ensures OnOwned(b[k]) {
        assert (a + b)[|a| + k] == b[k];
      }
    }
  }

  /** MAIN RESULT. A switch calls docker on containers with the labels only, if and
      only if it overlooked none without them. */
  lemma OwnedExactly(sw: Switching, entries: seq<Entry>, seen: Seen, checks: seq<Entry>, again: Seen, ok: bool)
    requires sw.Goes() && SwitchLog(sw, entries, seen, checks, again, ok)
    ensures OnlyOwned(entries) <==> !sw.Overlooks()
  {
    var first := [Entry(Inspect(seen), At(sw.was, sw.Name()), seen.Saw?)];
    var tail := if ok then sw.DropLog() else sw.UndoLog(again);
    ReplaceOwned(sw);
    if !sw.Overlooks() {
      TailOwned(sw, again, ok);
    }
    OwnedJoin(first, sw.ReplaceLog());
    OwnedJoin(first + sw.ReplaceLog(), checks);
    OwnedJoin(first + sw.ReplaceLog() + checks, tail);
  }

  lemma NotPromoted(entries: seq<Entry>)
    requires forall k :: 0 <= k < |entries| ==> !Promotes(entries[k])
    ensures !Validated(entries)
  {
  }

  lemma ValidatedStays(a: seq<Entry>, part: seq<Entry>, b: seq<Entry>)
    requires Validated(part)
    ensures Validated(a + part + b)
  {
    var i, j, k :| 0 <= i < j < k < |part| && SawHealthy(part[i])
      && part[j].op == Exec && part[j].ok && Promotes(part[k]);
    var all := a + part + b;
    assert all[|a| + i] == part[i] && all[|a| + j] == part[j] && all[|a| + k] == part[k];
  }

  /** A deletion in the second half of a log. */
  lemma DeletedJoin(a: seq<Entry>, b: seq<Entry>, id: int)
    ensures DeletedUnverified(a + b, id) <==>
      DeletedUnverified(a, id) || exists k :: 0 <= k < |b| && Deletes(b[k], id) && !Validated(a + b[..k])
  {
    var all := a + b;
    if k :| 0 <= k < |a| && Deletes(a[k], id) && !Validated(a[..k]) {
      assert all[k] == a[k] && all[..k] == a[..k];
    }
    if k :| 0 <= k < |b| && Deletes(b[k], id) && !Validated(a + b[..k]) {
      assert all[|a| + k] == b[k] && all[..|a| + k] == a + b[..k];
    }
    if k :| 0 <= k < |all| && Deletes(all[k], id) && !Validated(all[..k]) {
      if k < |a| {
        assert all[k] == a[k] && all[..k] == a[..k];
      } else {
        assert all[k] == b[k - |a|] && all[..k] == a + b[..k - |a|];
      }
    }
  }

  /** The part up to the run: the old container is deleted if clearing the name was. */
  lemma HeadDeletes(sw: Switching, seen: Seen)
    requires IdsUnique(sw.was) && sw.Name() in sw.was
    ensures
      var head := [Entry(Inspect(seen), At(sw.was, sw.Name()), seen.Saw?)] + sw.ReplaceLog();
      && (forall k :: 0 <= k < |head| ==> !Promotes(head[k]))
      && (DeletedUnverified(head, sw.was[sw.Name()].id) <==> !sw.Moves() && sw.fates.clear)
  {
    var head := [Entry(Inspect(seen), At(sw.was, sw.Name()), seen.Saw?)] + sw.ReplaceLog();
    var at := if sw.Sees() then 3 else 1;
    assert head[at] == Entry(Remove, At(sw.Aside(), sw.Name()), sw.fates.clear);
    NotPromoted(head[..at]);
    if !sw.Moves() && sw.fates.clear {
      assert Deletes(head[at], sw.was[sw.Name()].id);
    }
  }

  lemma ChecksDeleteNothing(head: seq<Entry>, checks: seq<Entry>, id: int)
    requires OnlyChecks(checks)
    ensures DeletedUnverified(head + checks, id) <==> DeletedUnverified(head, id)
  {
    DeletedJoin(head, checks, id);
  }

  /** What failure removes under the name is the old container only if nothing else
      could get there. */
  lemma UndoDeletes(sw: Switching, front: seq<Entry>, again: Seen)
    requires Gone(sw.was, sw.id) && IdsUnique(sw.was) && sw.Name() in sw.was
    requires !sw.Moves() && !sw.fates.clear ==> !Validated(front)
    ensures DeletedUnverified(front + sw.UndoLog(again), sw.was[sw.Name()].id) <==>
      DeletedUnverified(front, sw.was[sw.Name()].id) || (!sw.Moves() && !sw.fates.clear && sw.fates.remove)
  {
    var id, undo := sw.was[sw.Name()].id, sw.UndoLog(again);
    DeletedJoin(front, undo, id);
    assert Deletes(undo[1], id) <==> !sw.Moves() && !sw.fates.clear && sw.fates.remove;
    if Deletes(undo[1], id) {
      assert undo[..1] == [undo[0]];
      OneMoreLook(front, undo[0]);
    }
  }

  lemma OneMoreLook(front: seq<Entry>, e: Entry)
    requires !Validated(front) && !Promotes(e)
    ensures !Validated(front + [e])
  {
  }

  /** MAIN RESULT. The previous container is deleted without a validated candidate, if
      and only if it was not moved aside and clearing the name or, after the failure,
      removing the candidate succeeded. */
  lemma DeletedExactly(sw: Switching, entries: seq<Entry>, seen: Seen, checks: seq<Entry>, again: Seen, ok: bool)
    requires Gone(sw.was, sw.id) && IdsUnique(sw.was) && sw.Name() in sw.was
    requires SwitchLog(sw, entries, seen, checks, again, ok) && (ok ==> sw.StartsUp())
    ensures DeletedUnverified(entries, sw.was[sw.Name()].id) <==>
      !sw.Moves() && (sw.fates.clear || sw.fates.remove)
  {
    var id, head := sw.was[sw.Name()].id, [Entry(Inspect(seen), At(sw.was, sw.Name()), seen.Saw?)] + sw.ReplaceLog();
    HeadDeletes(sw, seen);
    ChecksDeleteNothing(head, checks, id);
    if ok {
      DeletedJoin(head + checks, sw.DropLog(), id);
      ValidatedStays(head, checks, []);
      assert head + checks + [] == head + checks && (head + checks) + [][..0] == head + checks;
      assert forall k :: 0 <= k < |sw.DropLog()| ==> sw.DropLog()[..k] == [];
    } else {
      NotPromoted(head);
      assert !sw.Moves() && !sw.fates.clear ==> head + checks == head;
      UndoDeletes(sw, head + checks, again);
    }
  }
}

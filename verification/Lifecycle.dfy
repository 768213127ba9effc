/** app/llm_installation/runtime_lifecycle.py: switching the one runtime container
    of a scope to another generation, with rollback. */
module Lifecycle {
  import opened Wrappers
  import opened Docker
  import opened RuntimeSwitch

  datatype StatusKind = StartingUp | Serving | Unavailable
  datatype StatusFile = StatusFile(kind: StatusKind, generation: string, retryable: bool)

  datatype ApplyResult = ApplyResult(ok: bool, rolledBack: bool, failed: bool)

  datatype Verdict = NotHealthy | NoEndpoint | NotPromoted | Verified

  /** How docker serves the calls of one resume: the network, the first inspect and
      its labels, holding and waking the container, or the image, clearing the name
      and the run; after a failure another look and the removal. */
  datatype ResumeFates = ResumeFates(
    network: bool, look: bool, labels: bool, hold: bool, wake: bool, image: bool, clear: bool, run: RunFate,
    lookAgain: bool, labelsAgain: bool, remove: bool)

  /** A container of somebody else has the name, hides from the inspect, and there is
      an image to run in its place. */
  predicate ResumeOverlooks(spec: Spec, was: Containers, f: ResumeFates) {
    && spec.argsExist && f.network && !f.look && f.image
    && spec.name in was && !was[spec.name].owned
  }

  /** What resume finds under the name is ours, or nothing. */
  predicate Ours(cs: Containers, name: string) {
    name in cs ==> cs[name].owned
  }

  class RuntimeManager {
    const docker: Engine
    var active: Option<string>
    var status: Option<StatusFile>

    constructor (docker: Engine, active: Option<string>, status: Option<StatusFile>)
      ensures this.docker == docker && this.active == active && this.status == status
    {
      this.docker, this.active, this.status := docker, active, status;
    }

    /** _run_candidate */
    method RunCandidate(spec: Spec, id: int, clear: bool, run: RunFate) returns (started: bool)
      modifies docker, this`status
      ensures
        var free := if clear then old(docker.Shape()) - {spec.name} else old(docker.Shape());
        && docker.Shape() ==
             (if run != RunsNot && spec.name !in free then free[spec.name := Fresh(id, spec.runtime, spec.generation)]
              else free)
        && (started <==> run == Runs && spec.name !in free)
      ensures docker.log == old(docker.log)
        + [Entry(Remove, At(old(docker.Shape()), spec.name), clear), Entry(Run, None, started)]
      ensures status == if started then Some(StatusFile(StartingUp, spec.generation, false)) else old(status)
    {
      docker.RemoveContainer(spec.name, clear);
      started := docker.RunContainer(spec.name, spec.runtime, spec.generation, id, run);
      if started {
        status := Some(StatusFile(StartingUp, spec.generation, false));
      }
    }

    /** _wait_healthy, polling until the deadline */
    method WaitHealthy(spec: Spec, polls: nat) returns (healthy: bool)
      requires Ours(docker.Shape(), spec.name)
      modifies docker
      ensures docker.Shape() == old(docker.Shape()) && old(docker.log) <= docker.log
      ensures healthy ==> |docker.log| > |old(docker.log)| && SawHealthy(docker.log[|docker.log| - 1])
      ensures OnlyChecks(docker.log[|old(docker.log)|..])
    {
      var left := polls;
      while left > 0
        invariant docker.Shape() == old(docker.Shape()) && old(docker.log) <= docker.log
        invariant OnlyChecks(docker.log[|old(docker.log)|..])
      {
        var served: bool, labels: bool := *, *;
        var seen := docker.InspectContainer(spec.name, served, labels);
        if seen.Nothing? || !seen.state.running {
          return false;
        }
        if seen.state.health == Healthy {
          return true;
        }
        if seen.state.health == Unhealthy {
          return false;
        }
        left := left - 1;
      }
      healthy := false;
    }

    /** _verify_endpoints: health must answer, the model list may not. */
    method VerifyEndpoints(spec: Spec) returns (verified: bool)
      requires Ours(docker.Shape(), spec.name)
      modifies docker
      ensures docker.Shape() == old(docker.Shape()) && |docker.log| > |old(docker.log)| && old(docker.log) <= docker.log
      ensures verified ==>
        docker.log[|old(docker.log)|].op == Exec && docker.log[|old(docker.log)|].ok && spec.name in docker.Shape()
      ensures OnlyChecks(docker.log[|old(docker.log)|..])
    {
      var served: bool, probed: bool := *, *;
      var health := docker.ExecIn(spec.name, served);
      if !health {
        return false;
      }
      var probe := docker.ExecIn(spec.name, probed);
      verified := true;
    }

    /** Waiting, probing and promoting a started candidate. */
    method Validate(spec: Spec, polls: nat) returns (verdict: Verdict)
      requires Ours(docker.Shape(), spec.name)
      modifies docker
      ensures old(docker.log) <= docker.log && OnlyChecks(docker.log[|old(docker.log)|..])
      ensures verdict == Verified ==>
        spec.name in old(docker.Shape()) && Validated(docker.log[|old(docker.log)|..])
      ensures docker.Shape() ==
        if verdict == Verified
        then old(docker.Shape())[spec.name := old(docker.Shape())[spec.name].(restart := UnlessStopped)]
        else old(docker.Shape())
    {
      ghost var n := |docker.log|;
      var healthy := WaitHealthy(spec, polls);
      if !healthy {
        return NotHealthy;
      }
      ghost var i := |docker.log|;
      var answered := VerifyEndpoints(spec);
      assert OnlyChecks(docker.log[n..]);
      if !answered {
        return NoEndpoint;
      }
      var served: bool := *;
      var promoted := docker.UpdateRestart(spec.name, UnlessStopped, served);
      ghost var entries := docker.log[n..];
      assert SawHealthy(entries[i - 1 - n]) && entries[i - n].op == Exec && entries[i - n].ok;
      assert entries[|entries| - 1].op == Update(UnlessStopped);
      verdict := if promoted then Verified else NotPromoted;
    }

    /** The name given to a candidate: the old container moved away if there is
        one of ours, the name cleared, the candidate run. */
    method Replace(spec: Spec, id: int, seen: Seen, f: Fates) returns (started: bool, hasPrevious: bool)
      requires Switching(spec, id, docker.Shape(), f).Goes()
      requires seen.Saw? <==> Switching(spec, id, docker.Shape(), f).Sees()
      modifies docker, this`status
      ensures
        var sw := Switching(spec, id, old(docker.Shape()), f);
        && docker.Shape() == sw.Tried() && docker.log == old(docker.log) + sw.ReplaceLog()
        && (started <==> sw.StartsUp()) && (hasPrevious <==> sw.Moves())
      ensures status == if started then Some(StatusFile(StartingUp, spec.generation, false)) else old(status)
    {
      hasPrevious := false;
      if seen.Saw? {
        docker.StopContainer(spec.name, f.stop);
        hasPrevious := docker.RenameContainer(spec.name, PreviousName(spec.name), f.rename);
      }
      started := RunCandidate(spec, id, f.clear, f.run);
    }

    /** The previous container moved back, and whatever then has the name started. */
    method PutBack(ghost sw: Switching, spec: Spec, f: Fates) returns (started: bool)
      requires sw.spec == spec && sw.fates == f && docker.Shape() == sw.Undone() && sw.Moves()
      modifies docker
      ensures docker.Shape() == sw.RolledBack() && (started <==> sw.Restores())
      ensures docker.log == old(docker.log) + [
        Entry(Rename, At(sw.Undone(), sw.Previous()), sw.MovesBack()),
        Entry(Start, At(sw.RolledBack(), sw.Name()), sw.Restores())]
      ensures started ==> spec.name in docker.containers && docker.containers[spec.name].running
    {
      PreviousAside(sw);
      hide Switching.Tried, Switching.Moves, Switching.Undone, PreviousName;
      var renamed := docker.RenameContainer(PreviousName(spec.name), spec.name, f.back);
      started := docker.StartContainer(spec.name, f.start);
    }

    /** The rollback branch: the candidate removed, the previous container moved
        back and started. */
    method RollBack(ghost sw: Switching, spec: Spec, hasPrevious: bool, f: Fates, before: Option<StatusFile>)
      returns (rolledBack: bool, ghost again: Seen)
      requires sw.spec == spec && sw.fates == f && docker.Shape() == sw.Tried() && (hasPrevious <==> sw.Moves())
      modifies docker, this`status
      ensures docker.Shape() == sw.RolledBack() && docker.log == old(docker.log) + sw.UndoLog(again)
      ensures rolledBack <==> sw.Restores()
      ensures rolledBack ==> spec.name in docker.containers && docker.containers[spec.name].running
      ensures status == if rolledBack then before else Some(StatusFile(Unavailable, spec.generation, true))
    {
      PreviousAside(sw);
      hide Switching.Tried, Switching.Moves, Switching.MovesBack, Switching.RolledBack, PreviousName;
      var failed := docker.InspectContainer(spec.name, f.lookAgain, true);
      again := failed;
      docker.RemoveContainer(spec.name, f.remove);
      rolledBack := false;
      if hasPrevious {
        rolledBack := PutBack(sw, spec, f);
      }
      status := if rolledBack then before else Some(StatusFile(Unavailable, spec.generation, true));
    }

    /** apply from the inspected state on. */
    method Switch(spec: Spec, id: int, seen: Seen, f: Fates, polls: nat)
      returns (result: ApplyResult, ghost checks: seq<Entry>, ghost again: Seen)
      requires Switching(spec, id, docker.Shape(), f).Goes()
      requires seen.Saw? <==> Switching(spec, id, docker.Shape(), f).Sees()
      modifies this, docker
      ensures
        var sw := Switching(spec, id, old(docker.Shape()), f);
        && docker.Shape() == sw.After(result.ok)
        && OnlyChecks(checks) && (result.ok ==> Validated(checks)) && (!sw.StartsUp() ==> checks == [])
        && docker.log == old(docker.log) + sw.ReplaceLog() + checks
             + (if result.ok then sw.DropLog() else sw.UndoLog(again))
        && (result.ok ==> sw.StartsUp() && !result.rolledBack && !result.failed)
        && (!result.ok ==> (result.rolledBack <==> sw.Restores()) && result.failed == !result.rolledBack)
      ensures active == if result.ok then Some(spec.generation) else old(active)
      ensures status ==
        if result.ok then Some(StatusFile(Serving, spec.generation, false))
        else if result.rolledBack then old(status)
        else Some(StatusFile(Unavailable, spec.generation, true))
      ensures result.rolledBack ==> spec.name in docker.containers && docker.containers[spec.name].running
    {
      hide OnlyChecks, Validated;
      ghost var sw, start := Switching(spec, id, docker.Shape(), f), docker.log;
      again := Nothing;
      var before := status;
      var started, hasPrevious := Replace(spec, id, seen, f);
      ghost var log1 := docker.log;
      NoChecks();
      assert log1 == start + sw.ReplaceLog() + [];
      checks := [];
      var verified := false;
      if started {
        var verdict := Validate(spec, polls);
        verified := verdict == Verified;
        checks := docker.log[|log1|..];
      }
      assert docker.log == log1 + checks;
      if verified {
        active := Some(spec.generation);
        if hasPrevious {
          docker.RemoveContainer(PreviousName(spec.name), f.drop);
        }
        status := Some(StatusFile(Serving, spec.generation, false));
        result := ApplyResult(true, false, false);
        return;
      }
      var rolledBack;
      rolledBack, again := RollBack(sw, spec, hasPrevious, f, before);
      result := ApplyResult(false, rolledBack, !rolledBack);
    }

    /** apply; whether the image is built or only looked up, it is there or not. What
        is left, and what was called, is a function of the fates of the calls and of
        whether the candidate was validated. */
    method Apply(spec: Spec, id: int, f: Fates, polls: nat) returns (result: ApplyResult)
      requires Gone(docker.Shape(), id) && IdsUnique(docker.Shape())
      modifies this, docker
      ensures old(docker.log) <= docker.log
      // With something in the way nothing is done.
      ensures !Switching(spec, id, old(docker.Shape()), f).Goes() ==>
        && result == ApplyResult(false, false, false) && docker.Shape() == old(docker.Shape())
        && status == old(status) && OnlyOwned(docker.log[|old(docker.log)|..])
      ensures Switching(spec, id, old(docker.Shape()), f).Goes() ==>
        && docker.Shape() == Switching(spec, id, old(docker.Shape()), f).After(result.ok)
        && (result.ok ==> Switching(spec, id, old(docker.Shape()), f).StartsUp())
      // The pointer moves exactly on success, and success was validated.
      ensures active == if result.ok then Some(spec.generation) else old(active)
      ensures result.ok ==>
        && !result.rolledBack && Validated(docker.log[|old(docker.log)|..])
        && spec.name in docker.Shape()
        && docker.Shape()[spec.name] == Fresh(id, spec.runtime, spec.generation).(restart := UnlessStopped)
        && status == Some(StatusFile(Serving, spec.generation, false))
      // A reported rollback: the old status, and a running container that is the
      // previous one exactly when moving it back succeeded.
      ensures result.rolledBack ==>
        && !result.ok && status == old(status)
        && spec.name in docker.containers && docker.containers[spec.name].running
        && spec.name in old(docker.Shape()) && spec.name in docker.Shape()
        && (docker.Shape()[spec.name] == old(docker.Shape())[spec.name] <==>
              Switching(spec, id, old(docker.Shape()), f).MovesBack())
      ensures Switching(spec, id, old(docker.Shape()), f).Goes() && !result.ok ==>
        && (result.rolledBack <==> Switching(spec, id, old(docker.Shape()), f).Restores())
        && result.failed == !result.rolledBack
      // The previous container survives a failure exactly if it was moved aside or
      // could not be removed at all.
      ensures
        var sw := Switching(spec, id, old(docker.Shape()), f);
        sw.Goes() && !result.ok && spec.name in sw.was ==>
          (!Gone(docker.Shape(), sw.was[spec.name].id) <==> sw.Moves() || (!f.clear && !f.remove))
      // It is deleted without a validated candidate, whether apply then succeeds or
      // fails, exactly if it was not moved aside and one of the removals succeeded.
      ensures
        var sw := Switching(spec, id, old(docker.Shape()), f);
        sw.Goes() && spec.name in sw.was ==>
          (DeletedUnverified(docker.log[|old(docker.log)|..], sw.was[spec.name].id) <==>
             !sw.Moves() && (f.clear || f.remove))
      // Foreign containers are left alone exactly if none was overlooked, and stay
      // exactly if none was or it could not be removed.
      ensures
        var sw := Switching(spec, id, old(docker.Shape()), f);
        && (OnlyOwned(docker.log[|old(docker.log)|..]) <==> !sw.Overlooks())
        && (ForeignKept(sw.was, docker.Shape()) <==> !sw.Overlooks() || (!f.clear && !f.remove))
    {
      hide Gone, IdsUnique, Validated, OnlyChecks, OnlyOwned, DeletedUnverified, ForeignKept;
      result := ApplyResult(false, false, false);
      ghost var sw, start := Switching(spec, id, docker.Shape(), f), docker.log;
      NothingCalled(docker.log, sw.was);
      if !spec.argsExist || !f.image {
        return;
      }
      var seen := docker.InspectContainer(spec.name, f.look, f.labels);
      OnlyInspected(start, docker.log, seen);
      if seen.Saw? && !seen.state.owned {
        return;
      }
      ghost var checks, again;
      result, checks, again := Switch(spec, id, seen, f, polls);
      SwitchFacts(sw, start, docker.log, seen, checks, again, result.ok);
    }

    /** The container resume is to bring up: ours, of this generation, with
        automatic restart off and started; or created anew. False is a refusal
        or a failure. */
    method BringUp(spec: Spec, id: int, seen: Seen, f: ResumeFates) returns (up: bool)
      requires seen.Saw? <==> f.look && spec.name in docker.Shape()
      requires seen.Saw? ==>
        && Core(seen.state) == docker.Shape()[spec.name].(owned := seen.state.owned)
        && (seen.state.owned <==> f.labels && docker.Shape()[spec.name].owned)
      modifies docker, this`status
      ensures old(docker.log) <= docker.log
      ensures OnlyOwned(docker.log[|old(docker.log)|..]) <==>
        !(seen.Nothing? && f.image && !Ours(old(docker.Shape()), spec.name))
      ensures forall k :: k != spec.name ==> At(docker.Shape(), k) == At(old(docker.Shape()), k)
      ensures !Ours(old(docker.Shape()), spec.name) ==>
        (At(docker.Shape(), spec.name) == At(old(docker.Shape()), spec.name) <==>
          !(seen.Nothing? && f.image && f.clear))
      ensures up ==>
        spec.name in docker.Shape() && docker.Shape()[spec.name].owned
        && docker.Shape()[spec.name].runtime == spec.runtime && docker.Shape()[spec.name].generation == spec.generation
      ensures !Ours(old(docker.Shape()), spec.name) && !(seen.Nothing? && f.image && f.clear) ==> !up
      ensures !up ==> status == old(status) || status == Some(StatusFile(Unavailable, spec.generation, true))
    {
      hide OnlyOwned;
      ghost var n, log := |docker.log|, docker.log;
      NoEntries(log);
      up := false;
      var unavailable := Some(StatusFile(Unavailable, spec.generation, true));
      if seen.Saw? {
        if !seen.state.owned || seen.state.runtime != spec.runtime || seen.state.generation != spec.generation {
          return;
        }
        var held := docker.UpdateRestart(spec.name, Never, f.hold);
        OwnedAppend(log, n, docker.log[|log|]);
        if !held {
          status := unavailable;
          return;
        }
        if !seen.state.running {
          log := docker.log;
          var woken := docker.StartContainer(spec.name, f.wake);
          OwnedAppend(log, n, docker.log[|log|]);
          if !woken {
            status := unavailable;
            return;
          }
        }
        up := true;
        return;
      }
      if !f.image {
        status := unavailable;
        return;
      }
      up := RunCandidate(spec, id, f.clear, f.run);
      OwnedAppend(log, n, docker.log[|log|]);
      assert docker.log == (log + [docker.log[|log|]]) + [docker.log[|log| + 1]];
      OwnedAppend(log + [docker.log[|log|]], n, docker.log[|log| + 1]);
      if !up {
        status := unavailable;
      }
    }

    /** resume: start the active generation again, without building anything. */
    method Resume(spec: Spec, id: int, f: ResumeFates, polls: nat) returns (result: ApplyResult)
      requires Gone(docker.Shape(), id) && IdsUnique(docker.Shape())
      modifies this`status, docker
      ensures old(docker.log) <= docker.log && !result.rolledBack
      ensures result.ok ==>
        && Validated(docker.log[|old(docker.log)|..])
        && spec.name in docker.Shape() && docker.Shape()[spec.name].owned
        && docker.Shape()[spec.name].restart == UnlessStopped
        && docker.Shape()[spec.name].generation == spec.generation && docker.Shape()[spec.name].runtime == spec.runtime
        && status == Some(StatusFile(Serving, spec.generation, false))
      ensures !result.ok ==> status == old(status) || status == Some(StatusFile(Unavailable, spec.generation, true))
      ensures forall k :: k != spec.name ==> At(docker.Shape(), k) == At(old(docker.Shape()), k)
      // Foreign containers are left alone exactly if none was overlooked, and one
      // that has the name stays exactly if it was not or could not be removed.
      ensures OnlyOwned(docker.log[|old(docker.log)|..]) <==> !ResumeOverlooks(spec, old(docker.Shape()), f)
      ensures !Ours(old(docker.Shape()), spec.name) ==>
        (At(docker.Shape(), spec.name) == At(old(docker.Shape()), spec.name) <==>
           !ResumeOverlooks(spec, old(docker.Shape()), f) || !f.clear)
    {
      hide OnlyOwned, Validated, Gone, IdsUnique, OnlyChecks;
      result := ApplyResult(false, false, false);
      ghost var start, log := docker.log, docker.log;
      NoEntries(start);
      if !spec.argsExist || !f.network {
        return;
      }
      var current := docker.InspectContainer(spec.name, f.look, f.labels);
      OwnedAppend(log, |start|, docker.log[|log|]);
      log := docker.log;
      var up := BringUp(spec, id, current, f);
      Suffixes(start, log, docker.log);
      if !up {
        return;
      }
      ghost var log1 := docker.log;
      var verdict := Validate(spec, polls);
      ChecksOwned(docker.log[|log1|..]);
      Suffixes(start, log1, docker.log);
      if verdict == Verified {
        ValidatedSuffix(start, log1, docker.log);
        status := Some(StatusFile(Serving, spec.generation, false));
        result := ApplyResult(true, false, false);
        return;
      }
      status := Some(StatusFile(Unavailable, spec.generation, true));
      result := ApplyResult(false, false, true);
      log := docker.log;
      CleanUp(spec, verdict, f);
      Suffixes(start, log, docker.log);
    }

    /** What resume removes when validation fails: a container that answers no
        health check only after another look, otherwise at once. */
    method CleanUp(spec: Spec, verdict: Verdict, f: ResumeFates)
      requires Ours(docker.Shape(), spec.name)
      modifies docker
      ensures old(docker.log) <= docker.log && OnlyOwned(docker.log[|old(docker.log)|..])
      ensures docker.Shape() == old(docker.Shape()) || docker.Shape() == old(docker.Shape()) - {spec.name}
    {
      hide OnlyOwned;
      ghost var n, log := |docker.log|, docker.log;
      NoEntries(log);
      if verdict == NotHealthy {
        var failed := docker.InspectContainer(spec.name, f.lookAgain, f.labelsAgain);
        OwnedAppend(log, n, docker.log[|log|]);
        if failed.Nothing? || !failed.state.owned {
          return;
        }
      }
      log := docker.log;
      docker.RemoveContainer(spec.name, f.remove);
      OwnedAppend(log, n, docker.log[|log|]);
    }

    /** stop: nothing without the labels is stopped or removed. */
    method Stop(name: string, removeContainer: bool, look: bool, labels: bool, stop: bool, remove: bool)
      returns (ok: bool)
      modifies docker
      ensures old(docker.log) <= docker.log && OnlyOwned(docker.log[|old(docker.log)|..])
      ensures ok <==> !(look && name in old(docker.Shape())) || (labels && old(docker.Shape())[name].owned)
      ensures docker.Shape() ==
        if ok && look && name in old(docker.Shape()) && removeContainer && remove then old(docker.Shape()) - {name}
        else old(docker.Shape())
    {
      hide OnlyOwned;
      ghost var n, log := |docker.log|, docker.log;
      NoEntries(log);
      var seen := docker.InspectContainer(name, look, labels);
      OwnedAppend(log, n, docker.log[|log|]);
      if seen.Nothing? {
        return true;
      }
      if !seen.state.owned {
        return false;
      }
      log := docker.log;
      docker.StopContainer(name, stop);
      OwnedAppend(log, n, docker.log[|log|]);
      if removeContainer {
        log := docker.log;
        docker.RemoveContainer(name, remove);
        OwnedAppend(log, n, docker.log[|log|]);
      }
      ok := true;
    }
  }

  /** While the candidate is tried the previous container, if moved, is aside. */
  lemma PreviousAside(sw: Switching)
    ensures sw.Moves() ==>
      && sw.Previous() in sw.Tried() && sw.Previous() in sw.Undone()
      && sw.Undone()[sw.Previous()] == sw.was[sw.Name()]
    ensures !sw.Moves() ==> sw.RolledBack() == sw.Undone() && !sw.Restores()
  {
  }

  // ------------------------------------------------------------ calls in a row

  lemma NoChecks()
    ensures OnlyChecks([])
  {
  }

  lemma ChecksOwned(checks: seq<Entry>)
    requires OnlyChecks(checks)
    ensures OnlyOwned(checks)
  {
  }

  lemma NoEntries(log: seq<Entry>)
    ensures OnlyOwned(log[|log|..])
  {
  }

  lemma OwnedAppend(log: seq<Entry>, n: nat, e: Entry)
    requires n <= |log|
    ensures OnlyOwned((log + [e])[n..]) <==> OnlyOwned(log[n..]) && OnOwned(e)
  {
    OwnedJoin(log[n..], [e]);
    assert (log + [e])[n..] == log[n..] + [e];
    assert OnlyOwned([e]) <==> OnOwned([e][0]);
  }

  lemma Suffixes(a: seq<Entry>, b: seq<Entry>, c: seq<Entry>)
    requires a <= b <= c
    ensures OnlyOwned(c[|a|..]) <==> OnlyOwned(b[|a|..]) && OnlyOwned(c[|b|..])
  {
    OwnedJoin(b[|a|..], c[|b|..]);
    assert c[|a|..] == b[|a|..] + c[|b|..];
  }

  lemma ValidatedSuffix(a: seq<Entry>, b: seq<Entry>, c: seq<Entry>)
    requires a <= b <= c && Validated(c[|b|..])
    ensures Validated(c[|a|..])
  {
    ValidatedStays(b[|a|..], c[|b|..], []);
    assert c[|a|..] == b[|a|..] + c[|b|..] + [];
  }

  lemma NothingCalled(log: seq<Entry>, was: Containers)
    ensures OnlyOwned(log[|log|..]) && ForeignKept(was, was)
  {
  }

  lemma OnlyInspected(start: seq<Entry>, log: seq<Entry>, seen: Seen)
    requires |log| == |start| + 1 && start <= log && log[|start|].op == Inspect(seen)
    ensures OnlyOwned(log[|start|..])
  {
  }

  /** What apply promises of a switch, from its log and what is left. */
  lemma SwitchFacts(
    sw: Switching, start: seq<Entry>, log: seq<Entry>, seen: Seen, checks: seq<Entry>, again: Seen, ok: bool)
    requires Gone(sw.was, sw.id) && IdsUnique(sw.was) && sw.Goes() && (ok ==> sw.StartsUp())
    requires OnlyChecks(checks) && (ok ==> Validated(checks)) && (!sw.StartsUp() ==> checks == [])
    requires
      var tail := if ok then sw.DropLog() else sw.UndoLog(again);
      log == start + [Entry(Inspect(seen), At(sw.was, sw.Name()), seen.Saw?)] + sw.ReplaceLog() + checks + tail
    ensures start <= log && (ok ==> Validated(log[|start|..]))
    ensures OnlyOwned(log[|start|..]) <==> !sw.Overlooks()
    ensures ForeignKept(sw.was, sw.After(ok)) <==> !sw.Overlooks() || (!sw.fates.clear && !sw.fates.remove)
    ensures sw.Name() in sw.was ==>
      (DeletedUnverified(log[|start|..], sw.was[sw.Name()].id) <==> !sw.Moves() && (sw.fates.clear || sw.fates.remove))
    ensures sw.Name() in sw.was && !ok ==>
      (!Gone(sw.After(ok), sw.was[sw.Name()].id) <==> sw.Moves() || (!sw.fates.clear && !sw.fates.remove))
    ensures !ok && sw.Restores() ==>
      sw.Name() in sw.was && sw.Name() in sw.After(ok)
        && (sw.After(ok)[sw.Name()] == sw.was[sw.Name()] <==> sw.MovesBack())
    ensures ok ==> At(sw.After(ok), sw.Name()) == Some(sw.Candidate().(restart := UnlessStopped))
  {
    var first := [Entry(Inspect(seen), At(sw.was, sw.Name()), seen.Saw?)];
    var tail := if ok then sw.DropLog() else sw.UndoLog(again);
    var entries := first + sw.ReplaceLog() + checks + tail;
    assert log == start + entries && log[|start|..] == entries;
    assert SwitchLog(sw, entries, seen, checks, again, ok);
    if ok {
      ValidatedStays(first + sw.ReplaceLog(), checks, tail);
    }
    OwnedExactly(sw, entries, seen, checks, again, ok);
    ForeignExactly(sw, ok);
    if sw.Name() in sw.was {
      DeletedExactly(sw, entries, seen, checks, again, ok);
      if !ok {
        KeptExactly(sw);
      }
    }
    if !ok && sw.Restores() {
      RestoredExactly(sw);
    }
    hide Gone, IdsUnique, Validated, OnlyChecks, OnlyOwned, DeletedUnverified, ForeignKept;
  }

  // --------------------------------------------------- inputs on which apply fails

  /** The container that serves until the switch. */
  function Serves(): Container {
    Container(1, true, "llama.cpp", "old", UnlessStopped, false, NoHealth)
  }

  /** One apply over a single container under the runtime's name. */
  method ApplyOver(spec: Spec, c: Container, f: Fates) returns (result: ApplyResult, ghost left: Containers)
    requires spec.argsExist && f.image && f.run != Runs && c.id == 1 && c == Core(c)
    requires f.look ==> f.labels && c.owned
    ensures !result.ok && result.failed == !result.rolledBack
    ensures result.rolledBack <==> Switching(spec, 2, map[spec.name := c], f).Restores()
    ensures left == Switching(spec, 2, map[spec.name := c], f).After(false)
  {
    var docker := new Engine(map[spec.name := c]);
    assert docker.Shape() == map[spec.name := c];
    var manager := new RuntimeManager(docker, Some("old"), Some(StatusFile(Serving, "old", false)));
    result := manager.Apply(spec, 2, f, 0);
    left := docker.Shape();
  }

  const AllFail := Fates(true, true, true, false, false, false, RunsNot, false, false, false, false, false)

  /** The rename fails and clearing the name does not: when the run fails no container
      is left, and nothing is rolled back. */
  method RenameFailureLoses(spec: Spec) returns (result: ApplyResult, ghost left: Containers)
    requires spec.argsExist
    ensures result == ApplyResult(false, false, true)
    ensures left == map[]
  {
    result, left := ApplyOver(spec, Serves(), AllFail.(clear := true));
    assert map[spec.name := Serves()] - {spec.name} == map[];
  }

  /** Neither the rename nor clearing the name succeeds, so that the run finds the name
      taken; then removing the candidate removes the previous container instead. */
  method LateRemovalLoses(spec: Spec) returns (result: ApplyResult, ghost left: Containers)
    requires spec.argsExist
    ensures result == ApplyResult(false, false, true)
    ensures left == map[]
  {
    result, left := ApplyOver(spec, Serves(), AllFail.(remove := true));
    assert map[spec.name := Serves()] - {spec.name} == map[];
  }

  /** A rollback is reported with the candidate under the name: neither removing it
      nor moving the previous container back succeeded, but starting it did. */
  method RollbackKeepsCandidate(spec: Spec) returns (result: ApplyResult, ghost left: Containers)
    requires spec.argsExist
    ensures result == ApplyResult(false, true, false)
    ensures left == map[PreviousName(spec.name) := Serves(), spec.name := Fresh(2, spec.runtime, spec.generation)]
  {
    result, left := ApplyOver(spec, Serves(), AllFail.(rename := true, clear := true, run := RunsBadly, start := true));
  }

  /** A container of somebody else that the first inspect fails to see is removed. */
  method OverlookedIsRemoved(spec: Spec) returns (result: ApplyResult, ghost left: Containers)
    requires spec.argsExist
    ensures result == ApplyResult(false, false, true)
    ensures left == map[]
  {
    var foreign := Serves().(owned := false);
    result, left := ApplyOver(spec, foreign, AllFail.(look := false, clear := true));
    assert map[spec.name := foreign] - {spec.name} == map[];
  }
}

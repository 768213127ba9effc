/** The Docker engine as app/llm_installation/runtime_lifecycle.py sees it:
    containers by name, and calls that may fail. Whether the daemon serves a call
    is a parameter. A call it fails changes nothing, except that a failed run may
    leave a created container behind. */
module Docker {
  import opened Wrappers

  datatype Health = NoHealth | Starting | Healthy | Unhealthy
  datatype Restart = Never | UnlessStopped

  /** `owned` stands for the three Dotori labels; `id` is the engine's own. */
  datatype Container = Container(
    id: int, owned: bool, runtime: string, generation: string, restart: Restart,
    running: bool, health: Health)

  type Containers = map<string, Container>

  datatype Op = Inspect(seen: Seen) | Stop | Rename | Remove | Run | Start | Update(policy: Restart) | Exec

  /** One call: what it was, on which container, and whether it succeeded. */
  datatype Entry = Entry(op: Op, target: Option<Container>, ok: bool)

  /** What inspect reports: nothing if the container is missing or the call fails,
      and no labels if reading them fails. */
  datatype Seen = Nothing | Saw(state: Container)

  /** How a run fares: nothing created, created but not started, or running. */
  datatype RunFate = RunsNot | RunsBadly | Runs

  /** A container apart from what may change by itself at any time. */
  function Core(c: Container): Container {
    c.(running := false, health := NoHealth)
  }

  function Cores(cs: Containers): Containers {
    map k | k in cs :: Core(cs[k])
  }

  ghost predicate IdsUnique(cs: Containers) {
    forall j, k :: j in cs && k in cs && cs[j].id == cs[k].id ==> j == k
  }

  /** No container under any name is this one. */
  ghost predicate Gone(cs: Containers, id: int) {
    forall k :: k in cs ==> cs[k].id != id
  }

  function At(cs: Containers, name: string): Option<Container> {
    if name in cs then Some(cs[name]) else None
  }

  /** The container run creates: labelled, and without automatic restart. */
  function Fresh(id: int, runtime: string, generation: string): Container {
    Container(id, true, runtime, generation, Never, false, NoHealth)
  }

  class Engine {
    var containers: Containers
    var log: seq<Entry>

    constructor (containers: Containers)
      ensures this.containers == containers && log == []
    {
      this.containers, log := containers, [];
    }

    ghost function Shape(): Containers
      reads this
    {
      Cores(containers)
    }

    /** Between calls containers exit, are restarted and change their health. */
    method Weather()
      modifies this`containers
      ensures Shape() == old(Shape())
    {
      var rest := containers.Keys;
      while rest != {}
        invariant rest <= containers.Keys && Shape() == old(Shape())
        decreases |rest|
      {
        var k :| k in rest;
        rest := rest - {k};
        var running: bool := *;
        var health: Health := *;
        containers := containers[k := containers[k].(running := running, health := health)];
      }
    }

    method StopContainer(name: string, served: bool)
      modifies this
      ensures Shape() == old(Shape())
      ensures log == old(log) + [Entry(Stop, At(Shape(), name), served)]
    {
      Weather();
      log := log + [Entry(Stop, At(Cores(containers), name), served)];
      if served && name in containers {
        containers := containers[name := containers[name].(running := false)];
      }
    }

    method RenameContainer(from: string, to: string, served: bool) returns (ok: bool)
      requires from != to
      modifies this
      ensures ok <==> served && from in old(Shape()) && to !in old(Shape())
      ensures Shape() == if ok then (old(Shape()) - {from})[to := old(Shape())[from]] else old(Shape())
      ensures log == old(log) + [Entry(Rename, At(old(Shape()), from), ok)]
    {
      Weather();
      ok := served && from in containers && to !in containers;
      log := log + [Entry(Rename, At(Cores(containers), from), ok)];
      if ok {
        containers := (containers - {from})[to := containers[from]];
      }
    }

    /** rm -f */
    method RemoveContainer(name: string, served: bool)
      modifies this
      ensures Shape() == if served then old(Shape()) - {name} else old(Shape())
      ensures log == old(log) + [Entry(Remove, At(old(Shape()), name), served)]
    {
      Weather();
      log := log + [Entry(Remove, At(Cores(containers), name), served)];
      if served {
        containers := containers - {name};
      }
    }

    /** run -d: the name must be free. */
    method RunContainer(name: string, runtime: string, generation: string, id: int, fate: RunFate) returns (ok: bool)
      modifies this
      ensures ok <==> fate == Runs && name !in old(Shape())
      ensures Shape() ==
        if fate != RunsNot && name !in old(Shape()) then old(Shape())[name := Fresh(id, runtime, generation)]
        else old(Shape())
      ensures log == old(log) + [Entry(Run, None, ok)]
    {
      Weather();
      ok := fate == Runs && name !in containers;
      log := log + [Entry(Run, None, ok)];
      if fate != RunsNot && name !in containers {
        containers := containers[name := Fresh(id, runtime, generation).(running := ok, health := Starting)];
      }
    }

    method StartContainer(name: string, served: bool) returns (ok: bool)
      modifies this
      ensures ok <==> served && name in old(Shape())
      ensures ok ==> name in containers && containers[name].running
      ensures Shape() == old(Shape())
      ensures log == old(log) + [Entry(Start, At(Shape(), name), ok)]
    {
      Weather();
      ok := served && name in containers;
      log := log + [Entry(Start, At(Cores(containers), name), ok)];
      if ok {
        containers := containers[name := containers[name].(running := true)];
      }
    }

    /** update --restart */
    method UpdateRestart(name: string, policy: Restart, served: bool) returns (ok: bool)
      modifies this
      ensures ok <==> served && name in old(Shape())
      ensures Shape() ==
        if ok then old(Shape())[name := old(Shape())[name].(restart := policy)] else old(Shape())
      ensures log == old(log) + [Entry(Update(policy), At(old(Shape()), name), ok)]
    {
      Weather();
      ok := served && name in containers;
      log := log + [Entry(Update(policy), At(Cores(containers), name), ok)];
      if ok {
        containers := containers[name := containers[name].(restart := policy)];
      }
    }

    /** exec, for the endpoint probes */
    method ExecIn(name: string, served: bool) returns (ok: bool)
      modifies this
      ensures ok ==> served && name in containers && containers[name].running
      ensures Shape() == old(Shape())
      ensures log == old(log) + [Entry(Exec, At(Shape(), name), ok)]
    {
      Weather();
      ok := served && name in containers && containers[name].running;
      log := log + [Entry(Exec, At(Cores(containers), name), ok)];
    }

    /** inspect; labels are read by a second call. */
    method InspectContainer(name: string, served: bool, labels: bool) returns (seen: Seen)
      modifies this
      ensures Shape() == old(Shape())
      ensures seen.Saw? <==> served && name in Shape()
      ensures seen.Saw? ==>
        Core(seen.state) == Shape()[name].(owned := seen.state.owned)
        && (seen.state.owned <==> labels && Shape()[name].owned)
      ensures log == old(log) + [Entry(Inspect(seen), At(Shape(), name), seen.Saw?)]
    {
      Weather();
      var ok := served && name in containers;
      seen := if ok then Saw(containers[name].(owned := containers[name].owned && labels)) else Nothing;
      log := log + [Entry(Inspect(seen), At(Cores(containers), name), ok)];
    }
  }
}

/**
 The mutable pod object of pkg/models/pod.go. Every method is specified by a function on the
 persisted state (`PodModel.PodState`).
 */
module PodObject {
  import opened Decimal
  import opened Keys
  import opened Kubernetes
  import opened PodModel

  class Pod {
    const name: string
    const ns: string
    const nodeName: string
    const owners: seq<OwnerReference>
    const containers: seq<Container>
    const initContainers: seq<Container>
    var labels: Option<map<Key, string>>
    var annotations: map<Key, string>
    var gates: seq<Key>
    var nodeSelector: map<Key, string>
    var required: Option<seq<Term>>
    var preferred: seq<PreferredTerm>

    /** The value the API server would store. */
    function State(): PodState
      reads this
    {
      PodState(name, ns, nodeName, owners, containers, initContainers, labels, annotations, gates,
               Directives(nodeSelector, required, preferred))
    }

    constructor (p: PodState)
      ensures State() == p
    {
      name := p.name;
      ns := p.namespace;
      nodeName := p.nodeName;
      owners := p.owners;
      containers := p.containers;
      initContainers := p.initContainers;
      labels := p.labels;
      annotations := p.annotations;
      gates := p.gates;
      nodeSelector := p.directives.nodeSelector;
      required := p.directives.required;
      preferred := p.directives.preferred;
    }

    method HasGate(gate: Key) returns (found: bool)
      ensures found <==> gate in gates
    {
      for i := 0 to |gates|
        invariant gate !in gates[..i]
      {
        if gates[i] == gate {
          return true;
        }
      }
      return false;
    }

    method AddGate(gate: Key)
      modifies this`gates
      ensures State() == PodModel.AddGate(old(State()), gate)
    {
      var present := HasGate(gate);
      if !present {
        gates := gates + [gate];
      }
    }

    method RemoveGate(gate: Key)
      modifies this`gates
      ensures State() == PodModel.RemoveGate(old(State()), gate)
    {
      var present := HasGate(gate);
      if !present {
        return;
      }
      var filtered: seq<Key> := [];
      for i := 0 to |gates|
        invariant gates == old(gates)
        invariant filtered == Without(gates[..i], gate)
      {
        assert gates[..i + 1] == gates[..i] + [gates[i]];
        WithoutConcat(gates[..i], [gates[i]], gate);
        if gates[i] != gate {
          filtered := filtered + [gates[i]];
        }
      }
      assert gates[..|gates|] == gates;
      gates := filtered;
    }

    method EnsureLabel(key: Key, value: string)
      modifies this`labels
      ensures State() == old(State()).WithLabel(key, value)
    {
      if labels.None? {
        labels := Some(map[]);
      }
      labels := Some(labels.value[key := value]);
    }

    method EnsureNoLabel(key: Key)
      modifies this`labels
      ensures State() == old(State()).WithoutLabel(key)
    {
      if labels.None? {
        return;
      }
      labels := Some(labels.value - {key});
    }

    method EnsureAnnotation(key: Key, value: string)
      modifies this`annotations
      ensures State() == old(State()).WithAnnotation(key, value)
    {
      annotations := annotations[key := value];
    }

    method EnsureAndIncrementLabel(key: Key)
      modifies this`labels
      ensures State() == old(State()).WithLabel(key, Incremented(old(State()).Label(key)))
    {
      if labels.None? {
        labels := Some(map[]);
      }
      if key !in labels.value {
        labels := Some(labels.value[key := "1"]);
        return;
      }
      var current := ParseInt(labels.value[key], 32);
      if current.None? {
        labels := Some(labels.value[key := "1"]);
      } else {
        labels := Some(labels.value[key := Print(current.value + 1)]);
      }
    }

    method RemoveSchedulingGate()
      modifies this`gates, this`labels
      ensures State() == Ungate(old(State()))
    {
      RemoveGate(SchedulingGate);
      EnsureLabel(SchedulingGate, ValueRemoved);
    }

    method HandleError(message: string)
      modifies this`labels, this`annotations
      ensures State() == PodModel.HandleError(old(State()), message)
    {
      var text := message;
      if |message| > 256 {
        text := message[..256];
      }
      EnsureLabel(InspectionError, "");
      EnsureAnnotation(InspectionError, text);
      EnsureAndIncrementLabel(InspectionErrorCount);
    }
  }
}

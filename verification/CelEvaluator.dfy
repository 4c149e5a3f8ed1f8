/**
 internal/controller/podplacement/cel_evaluator.go: compiled CEL programs are kept in a bounded
 LRU cache shared by concurrent workers, and rules are evaluated in order with soft failures.
 */
module CelEvaluator {
  import opened Decimal
  import opened Configs

  // ---------- The LRU list: most recently used first ----------

  type Entries<V> = seq<(string, V)>

  function IndexOf<V>(entries: Entries<V>, key: string): (r: Option<nat>)
    ensures r.Some? ==> r.value < |entries| && entries[r.value].0 == key
    ensures r.None? ==> forall i | 0 <= i < |entries| :: entries[i].0 != key
  {
    if entries == [] then None
    else if entries[0].0 == key then Some(0)
    else
      var rest := IndexOf(entries[1..], key);
      if rest.None? then None else Some(rest.value + 1)
  }

  /** `simplelru.Get` moves a found entry to the front. */
  function Touched<V>(entries: Entries<V>, key: string): Entries<V> {
    var i := IndexOf(entries, key);
    if i.None? then entries
    else [entries[i.value]] + entries[..i.value] + entries[i.value + 1..]
  }

  /** `simplelru.Add` replaces or pushes to the front and evicts the oldest entry when full. */
  function Added<V>(entries: Entries<V>, key: string, value: V, capacity: nat): Entries<V> {
    var i := IndexOf(entries, key);
    if i.Some? then [(key, value)] + entries[..i.value] + entries[i.value + 1..]
    else if |entries| < capacity then [(key, value)] + entries
    else ([(key, value)] + entries)[..capacity]
  }

  predicate DistinctKeys<V>(entries: Entries<V>) {
    forall i, j | 0 <= i < j < |entries| :: entries[i].0 != entries[j].0
  }

  // ---------- What other workers can do to the cache between two critical sections ----------

  /** One critical section of another worker; a store holds the program that worker compiled. */
  datatype CacheStep = Lookup(key: string) | Store(key: string)

  const CelExpressionCacheSize := 1024

  function AfterStep<V>(entries: Entries<V>, step: CacheStep, compiled: string -> Option<V>): Entries<V> {
    match step
    case Lookup(key) => Touched(entries, key)
    case Store(key) =>
      if compiled(key).None? then entries else Added(entries, key, compiled(key).value, CelExpressionCacheSize)
  }

  function AfterSteps<V>(steps: seq<CacheStep>, compiled: string -> Option<V>): Entries<V> {
    if steps == [] then [] else AfterStep(AfterSteps(steps[..|steps| - 1], compiled), steps[|steps| - 1], compiled)
  }

  predicate Sound<V(==)>(entries: Entries<V>, compiled: string -> Option<V>, capacity: nat) {
    && |entries| <= capacity
    && DistinctKeys(entries)
    && forall i | 0 <= i < |entries| :: compiled(entries[i].0) == Some(entries[i].1)
  }

  /** Moving the entry of a key to the front keeps the keys distinct. */
  lemma PromotedIsSound<V>(entries: Entries<V>, i: nat, e: (string, V), compiled: string -> Option<V>, capacity: nat)
    requires Sound(entries, compiled, capacity)
    requires i < |entries| && entries[i].0 == e.0 && compiled(e.0) == Some(e.1)
    ensures Sound([e] + entries[..i] + entries[i + 1..], compiled, capacity)
  {
    var after := [e] + entries[..i] + entries[i + 1..];
    forall k | 0 <= k < |after|
      ensures after[k] == if k == 0 then e else if k <= i then entries[k - 1] else entries[k]
    {
    }
  }

  lemma TouchedIsSound<V>(entries: Entries<V>, key: string, compiled: string -> Option<V>, capacity: nat)
    requires Sound(entries, compiled, capacity)
    ensures Sound(Touched(entries, key), compiled, capacity)
  {
    var i := IndexOf(entries, key);
    if i.Some? {
      PromotedIsSound(entries, i.value, entries[i.value], compiled, capacity);
    }
  }

  lemma AddedIsSound<V>(entries: Entries<V>, key: string, value: V, compiled: string -> Option<V>, capacity: nat)
    requires Sound(entries, compiled, capacity) && capacity > 0 && compiled(key) == Some(value)
    ensures Sound(Added(entries, key, value, capacity), compiled, capacity)
    ensures Added(entries, key, value, capacity)[0] == (key, value)
  {
    var i := IndexOf(entries, key);
    if i.Some? {
      PromotedIsSound(entries, i.value, (key, value), compiled, capacity);
    }
  }

  /** Any interleaving of workers' critical sections leaves a cache within its capacity, with one
      entry per expression and only programs that a fresh compilation would give. */
  lemma {:induction false} EveryHistoryIsSound<V>(steps: seq<CacheStep>, compiled: string -> Option<V>)
    ensures Sound(AfterSteps(steps, compiled), compiled, CelExpressionCacheSize)
  {
    if steps != [] {
      var front, last := steps[..|steps| - 1], steps[|steps| - 1];
      EveryHistoryIsSound(front, compiled);
      var entries := AfterSteps(front, compiled);
      TouchedIsSound(entries, last.key, compiled, CelExpressionCacheSize);
      if compiled(last.key).Some? {
        AddedIsSound(entries, last.key, compiled(last.key).value, compiled, CelExpressionCacheSize);
      }
    }
  }

  /** Inserting evicts exactly when the cache is full and the key new, and then the least recently
      used entry. */
  lemma EvictionIsLru<V>(entries: Entries<V>, key: string, value: V, capacity: nat, i: nat)
    requires capacity > 0 && |entries| <= capacity && DistinctKeys(entries)
    requires i < |entries| && entries[i].0 != key
    ensures entries[i] in Added(entries, key, value, capacity) <==>
            !(|entries| == capacity && i == capacity - 1 && IndexOf(entries, key).None?)
  {
    var after, at := Added(entries, key, value, capacity), IndexOf(entries, key);
    if at.Some? && i > at.value {
      assert after[i] == entries[i];
    } else if at.Some? || i + 1 < capacity {
      assert after[i + 1] == entries[i];
    } else {
      forall j | 0 <= j < |after| ensures after[j].0 != entries[i].0 {
        assert j > 0 ==> after[j] == entries[j - 1];
      }
    }
  }

  /** The last time an expression was looked up or stored. */
  function LastUse(steps: seq<CacheStep>, key: string): (r: int)
    ensures r < |steps|
  {
    if steps == [] then -1
    else if steps[|steps| - 1].key == key then |steps| - 1
    else LastUse(steps[..|steps| - 1], key)
  }

  ghost predicate InOrderOfUse<V>(entries: Entries<V>, steps: seq<CacheStep>) {
    forall i, j | 0 <= i < j < |entries| :: LastUse(steps, entries[i].0) > LastUse(steps, entries[j].0)
  }

  /** A use brings its entry, at `at` or new, to the front and leaves the order of the others. */
  ghost predicate MovedUp<V>(before: Entries<V>, after: Entries<V>, at: nat, key: string) {
    && at <= |before| && 0 < |after| <= |before| + 1 && (at < |before| ==> |after| == |before|)
    && after[0].0 == key
    && (forall i | 0 < i <= at && i < |after| :: after[i] == before[i - 1])
    && (forall i | at < i < |after| :: after[i] == before[i])
  }

  lemma TouchedMovesUp<V>(entries: Entries<V>, key: string)
    requires IndexOf(entries, key).Some?
    ensures MovedUp(entries, Touched(entries, key), IndexOf(entries, key).value, key)
  {
  }

  lemma AddedMovesUp<V>(entries: Entries<V>, key: string, value: V, capacity: nat)
    requires capacity > 0 && |entries| <= capacity
    ensures var at := IndexOf(entries, key);
            MovedUp(entries, Added(entries, key, value, capacity), if at.Some? then at.value else |entries|, key)
  {
  }

  lemma UseKeepsOrder<V>(before: Entries<V>, after: Entries<V>, at: nat, steps: seq<CacheStep>)
    requires steps != [] && InOrderOfUse(before, steps[..|steps| - 1])
    requires MovedUp(before, after, at, steps[|steps| - 1].key)
    requires forall i | 0 <= i < |before| && i != at :: before[i].0 != steps[|steps| - 1].key
    ensures InOrderOfUse(after, steps)
  {
    forall i, j | 0 <= i < j < |after| ensures LastUse(steps, after[i].0) > LastUse(steps, after[j].0) {
      var y := if j <= at then j - 1 else j;
      assert after[j] == before[y] && y != at;
      if i > 0 {
        var x := if i <= at then i - 1 else i;
        assert after[i] == before[x] && x < y && x != at;
      }
    }
  }

  /** After every history the entries are in the order of their last use, so that the entry evicted is the
      one that was not used for longest. */
  lemma {:induction false} HistoryIsLru<V>(steps: seq<CacheStep>, compiled: string -> Option<V>)
    ensures InOrderOfUse(AfterSteps(steps, compiled), steps)
  {
    if steps != [] {
      HistoryIsLru(steps[..|steps| - 1], compiled);
      EveryHistoryIsSound(steps[..|steps| - 1], compiled);
      StepIsLru(AfterSteps(steps[..|steps| - 1], compiled), steps, compiled);
    }
  }

  lemma StepIsLru<V>(before: Entries<V>, steps: seq<CacheStep>, compiled: string -> Option<V>)
    requires steps != [] && InOrderOfUse(before, steps[..|steps| - 1]) && Sound(before, compiled, CelExpressionCacheSize)
    ensures InOrderOfUse(AfterStep(before, steps[|steps| - 1], compiled), steps)
  {
    var last := steps[|steps| - 1];
    var at, after := IndexOf(before, last.key), AfterStep(before, last, compiled);
    if last.Lookup? && at.Some? {
      TouchedMovesUp(before, last.key);
      UseKeepsOrder(before, after, at.value, steps);
    } else if last.Store? && compiled(last.key).Some? {
      AddedMovesUp(before, last.key, compiled(last.key).value, CelExpressionCacheSize);
      UseKeepsOrder(before, after, if at.Some? then at.value else |before|, steps);
    } else {
      assert forall i | 0 <= i < |before| :: before[i].0 != last.key;
    }
  }

  // ---------- Evaluation of one expression ----------

  datatype RunResult = NoSuchKey | RunError | NotBoolean | Boolean(value: bool)

  /** What `evaluateWithMap` returns for one expression. */
  datatype Verdict = Errored | Evaluated(value: bool)

  function VerdictOf(run: RunResult): Verdict {
    match run
    case NoSuchKey => Evaluated(false)
    case RunError => Errored
    case NotBoolean => Errored
    case Boolean(b) => Evaluated(b)
  }

  // ---------- Evaluation of a rule list, without any cache ----------

  /** The index of the first rule that evaluates without error to true. */
  function FirstTrue(rules: seq<Rule>, verdict: string -> Verdict): (r: Option<nat>)
    ensures r.Some? ==>
              && r.value < |rules|
              && verdict(rules[r.value].expression) == Evaluated(true)
              && forall j | 0 <= j < r.value :: verdict(rules[j].expression) != Evaluated(true)
    ensures r.None? ==> forall j | 0 <= j < |rules| :: verdict(rules[j].expression) != Evaluated(true)
  {
    if rules == [] then None
    else if verdict(rules[0].expression) == Evaluated(true) then Some(0)
    else
      var rest := FirstTrue(rules[1..], verdict);
      if rest.None? then None else Some(rest.value + 1)
  }

  predicate AllErrored(rules: seq<Rule>, verdict: string -> Verdict) {
    rules != [] && forall j | 0 <= j < |rules| :: verdict(rules[j].expression) == Errored
  }

  datatype RulesResult = Matched(rule: Rule) | NoMatch | EveryRuleErrored

  function RulesOutcome(rules: seq<Rule>, verdict: string -> Verdict): RulesResult {
    var i := FirstTrue(rules, verdict);
    if i.Some? then Matched(rules[i.value])
    else if AllErrored(rules, verdict) then EveryRuleErrored
    else NoMatch
  }

  /** The decision one configuration takes for a pod: `evaluateCELArchitecturePlacement` followed
      by the checks its two callers share. `None` means the configuration does not claim the pod. */
  function Decision(ppc: Ppc, verdict: string -> Verdict): (r: Option<seq<string>>)
    ensures r.Some? ==> r.value != []
  {
    if ppc.cel.None? then None
    else
      var architectures := match RulesOutcome(ppc.cel.value.rules, verdict)
        case Matched(rule) => rule.architectures
        case NoMatch => ppc.cel.value.fallback
        case EveryRuleErrored => [];
      if architectures == [] then None else Some(architectures)
  }

  // ---------- The evaluator object ----------

  class Evaluator<Program(==), PodMap> {
    const compiled: string -> Option<Program>
    const run: (Program, PodMap) -> RunResult
    const capacity: nat
    var entries: Entries<Program>

    /** The cache is within capacity, has one entry per expression, and every program in it is
        what a fresh compilation gives. */
    ghost predicate Valid()
      reads this
    {
      capacity > 0 && Sound(entries, compiled, capacity)
    }

    /** The meaning of an expression when nothing is cached. */
    function Meaning(podMap: PodMap): string -> Verdict
    {
      expression => if compiled(expression).None? then Errored else VerdictOf(run(compiled(expression).value, podMap))
    }

    constructor (compiled: string -> Option<Program>, run: (Program, PodMap) -> RunResult, capacity: nat)
      requires capacity > 0
      ensures Valid() && entries == []
      ensures this.compiled == compiled && this.run == run && this.capacity == capacity
    {
      this.compiled := compiled;
      this.run := run;
      this.capacity := capacity;
      entries := [];
    }

    method Get(key: string) returns (hit: Option<Program>)
      requires Valid()
      modifies this
      ensures Valid()
      ensures entries == Touched(old(entries), key)
      ensures hit.Some? <==> exists i | 0 <= i < |old(entries)| :: old(entries)[i].0 == key
      ensures hit.Some? ==> compiled(key) == hit
    {
      var i := IndexOf(entries, key);
      if i.None? {
        return None;
      }
      TouchedIsSound(entries, key, compiled, capacity);
      hit := Some(entries[i.value].1);
      entries := [entries[i.value]] + entries[..i.value] + entries[i.value + 1..];
    }

    method Add(key: string, program: Program)
      requires Valid()
      requires compiled(key) == Some(program)
      modifies this
      ensures Valid()
      ensures entries == Added(old(entries), key, program, capacity)
      ensures entries[0] == (key, program)
    {
      AddedIsSound(entries, key, program, compiled, capacity);
      entries := Added(entries, key, program, capacity);
    }

    /** Other workers' critical sections, in any number and order. */
    method Interfere(steps: seq<CacheStep>)
      requires Valid()
      modifies this
      ensures Valid()
    {
      for k := 0 to |steps|
        invariant Valid()
      {
        match steps[k]
        case Lookup(key) =>
          var _ := Get(key);
        case Store(key) =>
          if compiled(key).Some? {
            Add(key, compiled(key).value);
          }
      }
    }

    /** The lock is released between the lookup and the insertion, so other workers get in. */
    method Compile(expression: string, others: seq<CacheStep>) returns (program: Option<Program>)
      requires Valid()
      modifies this
      ensures Valid()
      ensures program == compiled(expression)
      ensures program.Some? ==> entries != [] && entries[0] == (expression, program.value)
    {
      program := Get(expression);
      if program.Some? {
        return;
      }
      program := compiled(expression);
      if program.Some? {
        Interfere(others);
        Add(expression, program.value);
      }
    }

    method EvaluateWithMap(expression: string, podMap: PodMap, others: seq<CacheStep>) returns (verdict: Verdict)
      requires Valid()
      modifies this
      ensures Valid()
      ensures verdict == Meaning(podMap)(expression)
      ensures compiled(expression).None? ==> verdict == Errored
      ensures compiled(expression).Some? ==>
                match run(compiled(expression).value, podMap)
                case Boolean(b) => verdict == Evaluated(b)
                case NoSuchKey => verdict == Evaluated(false)
                case RunError => verdict == Errored
                case NotBoolean => verdict == Errored
    {
      var program := Compile(expression, others);
      if program.None? {
        return Errored;
      }
      verdict := VerdictOf(run(program.value, podMap));
    }

    /** Whatever is cached, evicted or inserted by others meanwhile, the rules mean what they mean
        without a cache. */
    method EvaluateRules(rules: seq<Rule>, podMap: PodMap, others: seq<seq<CacheStep>>) returns (result: RulesResult)
      requires Valid()
      requires |others| == |rules|
      modifies this
      ensures Valid()
      ensures result == RulesOutcome(rules, Meaning(podMap))
    {
      var atLeastOneEvaluated := false;
      for i := 0 to |rules|
        invariant Valid()
        invariant forall j | 0 <= j < i :: Meaning(podMap)(rules[j].expression) != Evaluated(true)
        invariant atLeastOneEvaluated <==> exists j | 0 <= j < i :: Meaning(podMap)(rules[j].expression) != Errored
      {
        var verdict := EvaluateWithMap(rules[i].expression, podMap, others[i]);
        if verdict.Errored? {
          continue;
        }
        atLeastOneEvaluated := true;
        if verdict.value {
          return Matched(rules[i]);
        }
      }
      if |rules| > 0 && !atLeastOneEvaluated {
        return EveryRuleErrored;
      }
      return NoMatch;
    }
  }
}

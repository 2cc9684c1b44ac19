// The memory stress service built on a binary search tree
// (apps/http_arvore_binaria/stress_test.py): the recursive tree, the manager's run, stop
// and clear guards, the log view and the validation of a start request. Clock readings,
// memory readings and random values are parameters.
module HttpTree {
  import opened Wrappers
  import opened SearchTree

  /** `TreeNode`: a value, two children and a payload of `payload_size_kb` KiB. `Model` is
      the tree this node is the root of. */
  class TreeNode {
    var value: int
    var left: TreeNode?
    var right: TreeNode?
    var dataLength: nat
    ghost var Model: Tree
    ghost var Repr: set<object>

    /** The children own disjoint parts of the footprint, which does not reach back to this
        node, and the model is this node over the children's models. */
    ghost predicate Valid()
      reads this, Repr
      decreases Repr
    {
      this in Repr &&
      (left != null ==> left in Repr && left.Repr <= Repr && this !in left.Repr && left.Valid()) &&
      (right != null ==> right in Repr && right.Repr <= Repr && this !in right.Repr && right.Valid()) &&
      (left != null && right != null ==> left.Repr !! right.Repr) &&
      Model == Node(if left == null then Leaf else left.Model, value,
                    if right == null then Leaf else right.Model)
    }

    /** `TreeNode(value, payload_size_kb)`: a single node with a zero payload of the given
        size. */
    constructor (v: int, payloadSizeKb: nat)
      ensures Valid() && fresh(Repr)
      ensures value == v && left == null && right == null && dataLength == payloadSizeKb * 1024
      ensures Model == Node(Leaf, v, Leaf)
    {
      value := v;
      left := null;
      right := null;
      dataLength := payloadSizeKb * 1024;
      Model := Node(Leaf, v, Leaf);
      Repr := {this};
    }

    /** `insert`: a smaller value goes left, an equal or greater one right, as a new leaf. */
    method Insert(v: int, payloadSizeKb: nat)
      requires Valid()
      modifies Repr
      ensures Valid() && fresh(Repr - old(Repr))
      ensures Model == Inserted(old(Model), v)
      decreases Repr
    {
      if v < value {
        if left == null {
          left := new TreeNode(v, payloadSizeKb);
        } else {
          left.Insert(v, payloadSizeKb);
        }
        Repr := Repr + left.Repr;
      } else {
        if right == null {
          right := new TreeNode(v, payloadSizeKb);
        } else {
          right.Insert(v, payloadSizeKb);
        }
        Repr := Repr + right.Repr;
      }
      Model := Node(if left == null then Leaf else left.Model, value,
                    if right == null then Leaf else right.Model);
    }

    /** `search`: the walk by comparison; in an ordered tree it finds exactly the stored
        values. */
    function Search(v: int): (r: bool)
      reads this, Repr
      requires Valid()
      ensures r == Found(Model, v)
      ensures Ordered(Model) ==> (r <==> v in Elements(Model))
      decreases Repr
    {
      FoundIffStored(Model, v);
      if v == value then true
      else if v < value && left != null then left.Search(v)
      else if v > value && right != null then right.Search(v)
      else false
    }

    /** `count_nodes`: one for this node plus the counts of its children, which is the
        number of values stored, repeats included. */
    function CountNodes(): (r: nat)
      reads this, Repr
      requires Valid()
      ensures r == Size(Model) && r == |Elements(Model)|
      decreases Repr
    {
      SizeCountsElements(Model);
      1 + (if left != null then left.CountNodes() else 0) + (if right != null then right.CountNodes() else 0)
    }
  }

  /** An insert into an ordered tree keeps it ordered, adds one node, and makes the value
      found. */
  method InsertThenSearch(t: TreeNode, v: int, payloadSizeKb: nat) returns (found: bool, count: nat)
    requires t.Valid() && Ordered(t.Model)
    modifies t.Repr
    ensures t.Valid() && Ordered(t.Model)
    ensures Elements(t.Model) == old(Elements(t.Model)) + multiset{v}
    ensures found && count == old(t.CountNodes()) + 1
  {
    t.Insert(v, payloadSizeKb);
    InsertedOrdered(old(t.Model), v);
    InsertedElements(old(t.Model), v);
    InsertedSize(old(t.Model), v);
    InsertedFound(old(t.Model), v);
    found := t.Search(v);
    count := t.CountNodes();
  }

  // ------------------------------------------------------------ manager

  /** One log entry; the clock and memory readings are passed in. */
  datatype LogEntry = LogEntry(timestamp: string, operation: string, memoryUseMb: real, message: string)

  datatype Config = Config(memoryMb: real, durationSeconds: real, logIntervalSec: real)

  const DefaultConfig: Config := Config(100.0, 60.0, 5.0)

  /** `StressTestManager` */
  class StressTestManager {
    var root: TreeNode?
    var logs: seq<LogEntry>
    var isRunning: bool
    var stopFlag: bool
    var config: Config

    constructor ()
      ensures root == null && logs == [] && !isRunning && !stopFlag && config == DefaultConfig
    {
      root := null;
      logs := [];
      isRunning := false;
      stopFlag := false;
      config := DefaultConfig;
    }

    /** `add_log` */
    method AddLog(operation: string, message: string, now: string, memoryUseMb: real)
      modifies this
      ensures logs == old(logs) + [LogEntry(now, operation, memoryUseMb, message)]
      ensures root == old(root) && isRunning == old(isRunning) && stopFlag == old(stopFlag) && config == old(config)
    {
      logs := logs + [LogEntry(now, operation, memoryUseMb, message)];
    }

    /** The guard and reset at the start of `run_stress_test`, up to the first log entry: a
        second run is refused with its message and changes nothing; otherwise the state starts
        afresh with the new configuration and there is no refusal (`refusal` is empty; the
        answer of a run that started is the one `FinishStressTest` gives). `startMessage` is
        the rendered configuration text. */
    method BeginStressTest(memoryMb: real, durationSeconds: real, logIntervalSec: real,
                           startMessage: string, now: string, memoryUseMb: real)
      returns (started: bool, refusal: string)
      modifies this
      ensures old(isRunning) ==> (!started && refusal == "Teste já está em execução" &&
        root == old(root) && logs == old(logs) && isRunning && stopFlag == old(stopFlag) && config == old(config))
      ensures !old(isRunning) ==> (started && refusal == "" &&
        isRunning && !stopFlag && root == null && config == Config(memoryMb, durationSeconds, logIntervalSec) &&
        logs == [LogEntry(now, "STRESS_TEST_START", memoryUseMb, startMessage)])
    {
      if isRunning {
        return false, "Teste já está em execução";
      }
      isRunning := true;
      stopFlag := false;
      logs := [];
      root := null;
      config := Config(memoryMb, durationSeconds, logIntervalSec);
      AddLog("STRESS_TEST_START", startMessage, now, memoryUseMb);
      return true, "";
    }

    /** The `finally` of `run_stress_test` and its answer: the run is over, the tree is kept,
        and a run that started reports success. */
    method FinishStressTest() returns (completed: bool, message: string)
      modifies this
      ensures !isRunning && completed && message == "Teste concluído"
      ensures root == old(root) && logs == old(logs) && stopFlag == old(stopFlag) && config == old(config)
    {
      isRunning := false;
      return true, "Teste concluído";
    }

    /** `/stop`: refused with 400 when no test runs; otherwise raises the stop flag and logs. */
    method Stop(now: string, memoryUseMb: real) returns (status: int)
      modifies this
      ensures !old(isRunning) ==> status == 400 && logs == old(logs) && stopFlag == old(stopFlag)
      ensures old(isRunning) ==> (status == 200 && stopFlag &&
        logs == old(logs) + [LogEntry(now, "STRESS_TEST_STOPPED", memoryUseMb, "Teste interrompido pelo usuário")])
      ensures root == old(root) && isRunning == old(isRunning) && config == old(config)
    {
      if !isRunning {
        return 400;
      }
      stopFlag := true;
      AddLog("STRESS_TEST_STOPPED", "Teste interrompido pelo usuário", now, memoryUseMb);
      return 200;
    }

    /** `/clear`: refused with 400 while a test runs; otherwise drops the tree and logs. */
    method Clear(now: string, memoryUseMb: real) returns (status: int)
      modifies this
      ensures old(isRunning) ==> status == 400 && root == old(root) && logs == old(logs)
      ensures !old(isRunning) ==> (status == 200 && root == null &&
        logs == old(logs) + [LogEntry(now, "MEMORY_CLEARED", memoryUseMb, "Árvore removida, memória liberada")])
      ensures isRunning == old(isRunning) && stopFlag == old(stopFlag) && config == old(config)
    {
      if isRunning {
        return 400;
      }
      root := null;
      AddLog("MEMORY_CLEARED", "Árvore removida, memória liberada", now, memoryUseMb);
      return 200;
    }

    /** `/logs?limit=k`: the total and the entries `logs[-k:]`, or all entries when `k` is
        absent or zero. */
    function LogsView(limit: Option<int>): (r: (nat, seq<LogEntry>))
      reads this
      ensures r.0 == |logs|
      ensures |r.1| <= |logs| && r.1 == logs[|logs| - |r.1|..]
      ensures (limit.None? || limit == Some(0)) ==> r.1 == logs
      ensures limit.Some? && limit.value > 0 ==> |r.1| == Min(limit.value, |logs|)
      ensures limit.Some? && limit.value < 0 ==> |r.1| == |logs| - Min(-limit.value, |logs|)
    {
      if limit.None? || limit.value == 0 then (|logs|, logs)
      else (|logs|, SliceFrom(logs, -limit.value))
    }
  }

  function Min(a: int, b: int): int
  {
    if a <= b then a else b
  }

  /** Python's `s[k:]`, where a negative `k` counts from the end. */
  function SliceFrom<T>(s: seq<T>, k: int): (r: seq<T>)
    ensures k < 0 ==> r == s[|s| - Min(-k, |s|)..]
    ensures k >= 0 ==> r == s[Min(k, |s|)..]
  {
    var start := if k < 0 then (if -k >= |s| then 0 else |s| + k) else (if k >= |s| then |s| else k);
    s[start..]
  }

  // ------------------------------------------------------- validation

  /** `start_stress`: the configuration a request starts, or the 400 message. The request's
      numbers are passed in (`None` when absent or null), with the system's total memory. */
  function StartStress(memoryMb: Option<real>, memoryPercent: Option<real>, durationSeconds: real,
                       logIntervalSec: real, totalMemoryMb: real): Result<Config, string>
    requires totalMemoryMb >= 0.0
  {
    if memoryPercent.Some? && (memoryPercent.value < 1.0 || memoryPercent.value > 95.0) then
      Err("memory_percent deve estar entre 1 e 95")
    else if memoryPercent.None? && memoryMb.None? then Err("Forneça memory_mb ou memory_percent")
    else
      var mb := if memoryPercent.Some? then (totalMemoryMb * memoryPercent.value / 100.0).Floor as real else memoryMb.value;
      if mb < 10.0 || mb > 10000.0 then Err("memory_mb deve estar entre 10 e 10000")
      else if durationSeconds < 5.0 || durationSeconds > 3600.0 then Err("duration_seconds deve estar entre 5 e 3600")
      else if logIntervalSec < 1.0 || logIntervalSec > 60.0 then Err("log_interval_sec deve estar entre 1 e 60")
      else Ok(Config(mb, durationSeconds, logIntervalSec))
  }

  /** A request is accepted exactly when some memory target is given, a given percentage is
      in [1, 95] and the target, duration and interval fall in their ranges; a percentage
      wins over `memory_mb` and gives a whole number of MiB of the total. */
  lemma StartStressAccepts(memoryMb: Option<real>, memoryPercent: Option<real>, durationSeconds: real,
                           logIntervalSec: real, totalMemoryMb: real)
    requires totalMemoryMb >= 0.0
    ensures var r := StartStress(memoryMb, memoryPercent, durationSeconds, logIntervalSec, totalMemoryMb);
      (r.Ok? <==>
         (memoryMb.Some? || memoryPercent.Some?) &&
         (memoryPercent.Some? ==> 1.0 <= memoryPercent.value <= 95.0) &&
         10.0 <= (if memoryPercent.Some? then (totalMemoryMb * memoryPercent.value / 100.0).Floor as real else memoryMb.value) <= 10000.0 &&
         5.0 <= durationSeconds <= 3600.0 && 1.0 <= logIntervalSec <= 60.0) &&
      (r.Ok? ==> 10.0 <= r.value.memoryMb <= 10000.0 && r.value.durationSeconds == durationSeconds &&
                 r.value.logIntervalSec == logIntervalSec &&
                 (memoryPercent.Some? ==> r.value.memoryMb <= totalMemoryMb * memoryPercent.value / 100.0 < r.value.memoryMb + 1.0) &&
                 (memoryPercent.None? ==> r.value.memoryMb == memoryMb.value))
  {
  }
}

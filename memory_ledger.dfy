// The memory stress generator's ledger (apps/kube-stress/stress/memory_stress_generator.py):
// a list of allocated byte blocks and a running counter of the megabytes they hold, with
// last-in-first-out release, and the allocation loops of two stress scenarios. A block is
// modelled by its length; the random bytes written into it are not. Whether the system
// can satisfy an allocation is a parameter, in place of `MemoryError`.
module MemoryLedger {
  import opened IntArith

  const MiB: nat := 1024 * 1024

  /** The megabytes a list of blocks holds, each block counted as `len(block) // MiB`. */
  function TotalMb(blocks: seq<nat>): nat
  {
    if blocks == [] then 0 else TotalMb(blocks[..|blocks| - 1]) + blocks[|blocks| - 1] / MiB
  }

  /** How many blocks `release_memory(sizeMb)` pops from the end of `blocks`: blocks go
      until the megabytes released reach `sizeMb` or none are left. */
  function PopCount(blocks: seq<nat>, sizeMb: int): (k: nat)
    ensures k <= |blocks|
    decreases |blocks|
  {
    if blocks == [] || sizeMb <= 0 then 0
    else 1 + PopCount(blocks[..|blocks| - 1], sizeMb - blocks[|blocks| - 1] / MiB)
  }

  /** The megabytes held by the blocks after the first `keep`. */
  function TailMb(blocks: seq<nat>, keep: nat): nat
    requires keep <= |blocks|
  {
    TotalMbPrefix(blocks, keep);
    TotalMb(blocks) - TotalMb(blocks[..keep])
  }

  lemma TotalMbPrefix(blocks: seq<nat>, keep: nat)
    requires keep <= |blocks|
    ensures TotalMb(blocks[..keep]) <= TotalMb(blocks)
    decreases |blocks| - keep
  {
    if keep < |blocks| {
      TotalMbPrefix(blocks[..|blocks| - 1], keep);
      assert blocks[..|blocks| - 1][..keep] == blocks[..keep];
    } else {
      assert blocks[..keep] == blocks;
    }
  }

  lemma TotalMbAppend(blocks: seq<nat>, b: nat)
    ensures TotalMb(blocks + [b]) == TotalMb(blocks) + b / MiB
  {
    assert (blocks + [b])[..|blocks|] == blocks;
  }

  /** A release pops until the request is met, and stops as soon as it is: the megabytes
      released reach `sizeMb` unless every block went, and before the last pop they were
      still short of it. */
  lemma {:induction false} PopCountStops(blocks: seq<nat>, sizeMb: int)
    ensures var k := PopCount(blocks, sizeMb); var keep := |blocks| - k;
      (TailMb(blocks, keep) >= sizeMb || keep == 0) &&
      (k > 0 ==> TailMb(blocks, keep + 1) < sizeMb)
    decreases |blocks|
  {
    TotalMbPrefix(blocks, |blocks| - PopCount(blocks, sizeMb));
    assert blocks[..|blocks|] == blocks;
    if blocks != [] && sizeMb > 0 {
      var init := blocks[..|blocks| - 1];
      var last := blocks[|blocks| - 1] / MiB;
      PopCountStops(init, sizeMb - last);
      var k := PopCount(init, sizeMb - last);
      var keep := |init| - k;
      assert init[..keep] == blocks[..keep];
      TotalMbPrefix(init, keep);
      if k > 0 {
        assert init[..keep + 1] == blocks[..keep + 1];
        TotalMbPrefix(init, keep + 1);
      } else {
        assert init[..keep] == init;
      }
    }
  }

  /** A release can free more than asked: one 100 MiB block goes whole for a 10 MB request. */
  lemma ReleaseMayOvershoot()
    ensures PopCount([100 * MiB], 10) == 1 && TailMb([100 * MiB], 0) == 100
  {
    assert [100 * MiB][..0] == [];
    assert [100 * MiB][..1][..0] == [];
    DivModUnique(100 * MiB, MiB, 100, 0);
  }

  /** `MemoryStressGenerator`: the cap, the blocks, the running flag and the counter. */
  class MemoryStressGenerator {
    var maxMemoryMb: int
    var memoryBlocks: seq<nat>
    var isRunning: bool
    var currentMemoryMb: int

    /** The counter is the megabytes the blocks hold. */
    ghost predicate Valid()
      reads this
    {
      currentMemoryMb == TotalMb(memoryBlocks)
    }

    /** `MemoryStressGenerator(max_memory_mb)`: nothing allocated. */
    constructor (maxMemoryMb: int)
      ensures Valid()
      ensures this.maxMemoryMb == maxMemoryMb && memoryBlocks == [] && !isRunning && currentMemoryMb == 0
    {
      this.maxMemoryMb := maxMemoryMb;
      memoryBlocks := [];
      isRunning := false;
      currentMemoryMb := 0;
    }

    /** `allocate_memory(size_mb)`: when the system has the memory (`available`), append a
        block of `size_mb` MiB and count it; otherwise report failure and change nothing. */
    method AllocateMemory(sizeMb: nat, available: bool) returns (ok: bool)
      requires Valid()
      modifies this
      ensures Valid()
      ensures ok == available
      ensures ok ==> memoryBlocks == old(memoryBlocks) + [sizeMb * MiB] &&
                     currentMemoryMb == old(currentMemoryMb) + sizeMb
      ensures !ok ==> memoryBlocks == old(memoryBlocks) && currentMemoryMb == old(currentMemoryMb)
      ensures maxMemoryMb == old(maxMemoryMb) && isRunning == old(isRunning)
    {
      if !available {
        return false;
      }
      var block := sizeMb * MiB;
      TotalMbAppend(memoryBlocks, block);
      DivModUnique(block, MiB, sizeMb, 0);
      memoryBlocks := memoryBlocks + [block];
      currentMemoryMb := currentMemoryMb + sizeMb;
      return true;
    }

    /** `release_memory(size_mb)`: pop blocks from the end while some remain and fewer than
        `size_mb` megabytes were released, then lower the counter by what was released,
        not below zero. The last block popped may take the release past `size_mb`. */
    method ReleaseMemory(sizeMb: int) returns (released: nat)
      requires Valid()
      modifies this
      ensures Valid()
      ensures memoryBlocks == old(memoryBlocks)[..|old(memoryBlocks)| - PopCount(old(memoryBlocks), sizeMb)]
      ensures released == TailMb(old(memoryBlocks), |memoryBlocks|)
      ensures released >= sizeMb || memoryBlocks == []
      ensures currentMemoryMb == if old(currentMemoryMb) - released > 0 then old(currentMemoryMb) - released else 0
      ensures maxMemoryMb == old(maxMemoryMb) && isRunning == old(isRunning)
    {
      ghost var start := memoryBlocks;
      released := 0;
      while memoryBlocks != [] && released < sizeMb
        invariant memoryBlocks == start[..|memoryBlocks|]
        invariant maxMemoryMb == old(maxMemoryMb) && isRunning == old(isRunning) && currentMemoryMb == old(currentMemoryMb)
        invariant released == TailMb(start, |memoryBlocks|)
        invariant PopCount(start, sizeMb) == |start| - |memoryBlocks| + PopCount(memoryBlocks, sizeMb - released)
        decreases |memoryBlocks|
      {
        var block := memoryBlocks[|memoryBlocks| - 1];
        assert memoryBlocks[..|memoryBlocks| - 1] == start[..|memoryBlocks| - 1];
        memoryBlocks := memoryBlocks[..|memoryBlocks| - 1];
        released := released + block / MiB;
      }
      TotalMbPrefix(start, |memoryBlocks|);
      PopCountStops(start, sizeMb);
      currentMemoryMb := if currentMemoryMb - released > 0 then currentMemoryMb - released else 0;
    }

    /** `release_all_memory`: no blocks and a zero counter. */
    method ReleaseAllMemory()
      modifies this
      ensures Valid()
      ensures memoryBlocks == [] && currentMemoryMb == 0
      ensures maxMemoryMb == old(maxMemoryMb) && isRunning == old(isRunning)
    {
      memoryBlocks := [];
      currentMemoryMb := 0;
    }
  }

  /** The blocks that `count` allocations of `stepMb` add, where allocation `k` succeeds
      when `available(k)` holds. */
  function Allocated(count: nat, stepMb: nat, available: nat -> bool): seq<nat>
  {
    if count == 0 then []
    else Allocated(count - 1, stepMb, available) + (if available(count - 1) then [stepMb * MiB] else [])
  }

  /** When every allocation succeeds, `count` allocations add `count` blocks holding
      `count * stepMb` megabytes. */
  lemma {:induction false} AllocatedAll(blocks: seq<nat>, count: nat, stepMb: nat, available: nat -> bool)
    requires forall k :: 0 <= k < count ==> available(k)
    ensures |Allocated(count, stepMb, available)| == count
    ensures TotalMb(blocks + Allocated(count, stepMb, available)) == TotalMb(blocks) + count * stepMb
  {
    if count > 0 {
      AllocatedAll(blocks, count - 1, stepMb, available);
      var prev := blocks + Allocated(count - 1, stepMb, available);
      assert available(count - 1);
      assert Allocated(count, stepMb, available) == Allocated(count - 1, stepMb, available) + [stepMb * MiB];
      assert blocks + Allocated(count, stepMb, available) == prev + [stepMb * MiB];
      TotalMbAppend(prev, stepMb * MiB);
      DivModUnique(stepMb * MiB, MiB, stepMb, 0);
      assert (count - 1) * stepMb + stepMb == count * stepMb;
    } else {
      assert blocks + Allocated(count, stepMb, available) == blocks;
    }
  }

  /** `StressScenarioExecutor`, as far as its memory scenarios go. */
  class StressScenarioExecutor {
    const memory: MemoryStressGenerator

    constructor (memory: MemoryStressGenerator)
      ensures this.memory == memory
    {
      this.memory := memory;
    }

    /** The common loop of `scenario_gradual_increase` and `scenario_memory_leak_simulation`,
        without the waits: allocate `stepMb` and add it to `current` until `current` reaches
        `maxMemoryMb`. The count of allocations is the ceiling of `maxMemoryMb / stepMb`. */
    method AllocateUntil(maxMemoryMb: int, stepMb: nat, available: nat -> bool) returns (allocations: nat)
      requires memory.Valid() && stepMb > 0
      modifies memory
      ensures memory.Valid()
      ensures allocations == CeilDiv(maxMemoryMb, stepMb)
      ensures memory.memoryBlocks == old(memory.memoryBlocks) + Allocated(allocations, stepMb, available)
    {
      var current := 0;
      allocations := 0;
      while current < maxMemoryMb
        invariant memory.Valid()
        invariant current == allocations * stepMb
        invariant allocations == 0 || (allocations - 1) * stepMb < maxMemoryMb
        invariant memory.memoryBlocks == old(memory.memoryBlocks) + Allocated(allocations, stepMb, available)
        decreases maxMemoryMb - current
      {
        var ok := memory.AllocateMemory(stepMb, available(allocations));
        current := current + stepMb;
        allocations := allocations + 1;
      }
      if allocations > 0 {
        CeilDivLeast(maxMemoryMb, stepMb, allocations);
      }
    }

    /** `scenario_gradual_increase(max_memory_mb, step_mb)`. */
    method ScenarioGradualIncrease(maxMemoryMb: int, stepMb: nat, available: nat -> bool) returns (allocations: nat)
      requires memory.Valid() && stepMb > 0
      modifies memory
      ensures memory.Valid()
      ensures allocations == CeilDiv(maxMemoryMb, stepMb)
      ensures memory.memoryBlocks == old(memory.memoryBlocks) + Allocated(allocations, stepMb, available)
    {
      allocations := AllocateUntil(maxMemoryMb, stepMb, available);
    }

    /** `scenario_memory_leak_simulation(leak_rate_mb, max_memory_mb)`. */
    method ScenarioMemoryLeakSimulation(leakRateMb: nat, maxMemoryMb: int, available: nat -> bool)
      returns (iteration: nat)
      requires memory.Valid() && leakRateMb > 0
      modifies memory
      ensures memory.Valid()
      ensures iteration == CeilDiv(maxMemoryMb, leakRateMb)
      ensures memory.memoryBlocks == old(memory.memoryBlocks) + Allocated(iteration, leakRateMb, available)
    {
      iteration := AllocateUntil(maxMemoryMb, leakRateMb, available);
    }
  }
}

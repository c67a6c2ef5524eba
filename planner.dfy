/**
 * The hardware-aware flag planner, `GLMLauncher.optimize_for_hardware` in
 * launch-glm.py: four fixed blocks of command-line tokens, each appended
 * when its guard holds, in a fixed order.
 */
module Planner {
  import opened Wrappers
  import opened Decimal
  import opened Registry

  /** The GPU part of a hardware snapshot. */
  datatype Gpu = Gpu(available: bool, count: nat, memoryGb: nat)

  /** A hardware snapshot; the planner only reads its GPU part. */
  datatype Hardware = Hardware(gpu: Gpu, systemMemoryGb: nat, cpuCount: nat)

  const MemoryFlags: seq<string> := [
    "--enable-quantization",
    "--quantization-level", "q4",
    "--enable-cpu-offloading",
    "--cpu-offload-threshold", "0.3"
  ]

  const MoeFlags: seq<string> := [
    "--moe-mode", "distributed",
    "--max-experts-cached", "3",
    "--enable-expert-swapping",
    "--expert-cache-size", "2GB"
  ]

  function MultiGpuFlags(count: nat): seq<string>
  {
    ["--multi-gpu", "--gpu-count", NatToString(count)]
  }

  function GpuTuningFlags(memoryGb: nat): seq<string>
  {
    ["--gpu-memory-pool", NatToString(memoryGb), "--enable-mixed-precision"]
  }

  /** Every token the planner can emit other than a rendered number. */
  const Vocabulary: set<string> := {
    "--enable-quantization", "--quantization-level", "q4",
    "--enable-cpu-offloading", "--cpu-offload-threshold", "0.3",
    "--moe-mode", "distributed", "--max-experts-cached", "3",
    "--enable-expert-swapping", "--expert-cache-size", "2GB",
    "--multi-gpu", "--gpu-count", "--gpu-memory-pool", "--enable-mixed-precision"
  }

  /** The GPU has less memory than the model needs (also when there is no GPU and it reports 0). */
  predicate MemoryPressure(config: ModelConfig, hw: Hardware)
  {
    hw.gpu.memoryGb < config.memoryGb
  }

  predicate IsMoe(config: ModelConfig)
  {
    config.architecture == Intellect3
  }

  predicate MultiGpu(hw: Hardware)
  {
    hw.gpu.available && hw.gpu.count > 1
  }

  function MemoryBlock(config: ModelConfig, hw: Hardware): seq<string>
  {
    if MemoryPressure(config, hw) then MemoryFlags else []
  }

  function MoeBlock(config: ModelConfig): seq<string>
  {
    if IsMoe(config) then MoeFlags else []
  }

  function MultiGpuBlock(hw: Hardware): seq<string>
  {
    if MultiGpu(hw) then MultiGpuFlags(hw.gpu.count) else []
  }

  function GpuTuningBlock(hw: Hardware): seq<string>
  {
    if hw.gpu.available then GpuTuningFlags(hw.gpu.memoryGb) else []
  }

  /**
   * The flags for a registry entry on the given hardware. Each block only
   * appends to what the earlier ones produced.
   */
  function Plan(config: ModelConfig, hw: Hardware): (flags: seq<string>)
    ensures |flags| == (if MemoryPressure(config, hw) then 6 else 0)
                     + (if IsMoe(config) then 7 else 0)
                     + (if MultiGpu(hw) then 3 else 0)
                     + (if hw.gpu.available then 3 else 0)
  {
    MemoryBlock(config, hw) + MoeBlock(config) + MultiGpuBlock(hw) + GpuTuningBlock(hw)
  }

  /** `optimize_for_hardware(model_name, hardware)`: indexing the registry raises on an unknown name. */
  function OptimizeForHardware(modelName: string, hw: Hardware): (r: Result<seq<string>, LauncherError>)
    ensures r.Failure? <==> Lookup(modelName).None?
    ensures r.Failure? ==> r.error == MissingModelKey(modelName)
    ensures r.Success? ==> r.value == Plan(Lookup(modelName).value, hw)
  {
    match Lookup(modelName)
    case None => Failure(MissingModelKey(modelName))
    case Some(config) => Success(Plan(config, hw))
  }

  /** No token of the fixed vocabulary is a number, except the expert cap "3". */
  lemma VocabularyNotNumeric()
    ensures forall t :: t in Vocabulary && t != "3" ==> !IsNumeric(t)
  {
    forall t | t in Vocabulary && t != "3"
      ensures !IsNumeric(t)
    {
      var k := if '0' <= t[0] <= '9' then 1 else 0;
      assert !('0' <= t[k] <= '9');
    }
  }

  /** The planner only ever emits vocabulary tokens and rendered numbers. */
  lemma PlanTokens(config: ModelConfig, hw: Hardware)
    ensures forall t :: t in Plan(config, hw) ==> t in Vocabulary || IsNumeric(t)
  {
  }

  /** A vocabulary token other than "3" in the plan comes from the block of that token. */
  lemma TokenOrigin(config: ModelConfig, hw: Hardware, t: string)
    requires t in Vocabulary && t != "3"
    ensures t in MemoryBlock(config, hw) + MoeBlock(config) + MultiGpuBlock(hw) + GpuTuningBlock(hw) ==>
      (t in MemoryFlags && MemoryPressure(config, hw))
      || (t in MoeFlags && IsMoe(config))
      || (t in ["--multi-gpu", "--gpu-count"] && MultiGpu(hw))
      || (t in ["--gpu-memory-pool", "--enable-mixed-precision"] && hw.gpu.available)
  {
    VocabularyNotNumeric();
  }

  /**
   * Memory pressure holds exactly when the plan opens with the six
   * quantization/offloading tokens; without it none of them appears.
   */
  lemma MemoryPressureBlock(config: ModelConfig, hw: Hardware)
    ensures MemoryPressure(config, hw) <==> |Plan(config, hw)| >= 6 && Plan(config, hw)[..6] == MemoryFlags
    ensures !MemoryPressure(config, hw) ==> forall t :: t in MemoryFlags ==> t !in Plan(config, hw)
  {
    var flags := Plan(config, hw);
    if MemoryPressure(config, hw) {
      assert flags == MemoryFlags + (MoeBlock(config) + MultiGpuBlock(hw) + GpuTuningBlock(hw));
    } else {
      forall t | t in MemoryFlags
        ensures t !in flags
      {
        TokenOrigin(config, hw, t);
      }
      assert MemoryFlags[0] !in flags;
    }
  }

  /**
   * The expert-caching tokens follow the memory block immediately for the
   * INTELLECT-3 architecture, whatever the hardware; for GLM-4 none of its
   * non-numeric tokens appears (a "3" may still appear as a GPU count or size).
   */
  lemma MoeBlockPlacement(config: ModelConfig, hw: Hardware)
    ensures IsMoe(config) ==>
      var m := if MemoryPressure(config, hw) then 6 else 0;
      |Plan(config, hw)| >= m + 7 && Plan(config, hw)[m..m + 7] == MoeFlags
    ensures IsMoe(config) <==> "--moe-mode" in Plan(config, hw)
    ensures !IsMoe(config) ==> forall t :: t in MoeFlags && t != "3" ==> t !in Plan(config, hw)
  {
    var flags := Plan(config, hw);
    var mem := MemoryBlock(config, hw);
    if IsMoe(config) {
      assert flags == mem + MoeFlags + (MultiGpuBlock(hw) + GpuTuningBlock(hw));
      assert flags[|mem|..|mem| + 7] == MoeFlags;
      assert flags[|mem|] == "--moe-mode";
    } else {
      forall t | t in MoeFlags && t != "3"
        ensures t !in flags
      {
        TokenOrigin(config, hw, t);
      }
      assert MoeFlags[0] !in flags;
    }
  }

  /** `--multi-gpu --gpu-count <count>` is emitted exactly for an available GPU with more than one device. */
  lemma MultiGpuBlockIff(config: ModelConfig, hw: Hardware)
    ensures MultiGpu(hw) <==> "--multi-gpu" in Plan(config, hw)
    ensures MultiGpu(hw) <==> "--gpu-count" in Plan(config, hw)
    ensures MultiGpu(hw) ==>
      var n := |Plan(config, hw)|;
      n >= 6 && Plan(config, hw)[n - 6..n - 3] == ["--multi-gpu", "--gpu-count", NatToString(hw.gpu.count)]
  {
    var flags := Plan(config, hw);
    TokenOrigin(config, hw, "--multi-gpu");
    TokenOrigin(config, hw, "--gpu-count");
    if MultiGpu(hw) {
      var head := MemoryBlock(config, hw) + MoeBlock(config);
      assert flags == head + MultiGpuFlags(hw.gpu.count) + GpuTuningFlags(hw.gpu.memoryGb);
      assert flags[|head|] == "--multi-gpu" && flags[|head| + 1] == "--gpu-count";
    }
  }

  /**
   * Without a GPU no GPU token appears; with one the plan ends with the
   * memory-pool size and mixed precision.
   */
  lemma GpuTuningAtEnd(config: ModelConfig, hw: Hardware)
    ensures !hw.gpu.available ==>
      && "--multi-gpu" !in Plan(config, hw)
      && "--gpu-count" !in Plan(config, hw)
      && "--gpu-memory-pool" !in Plan(config, hw)
      && "--enable-mixed-precision" !in Plan(config, hw)
    ensures hw.gpu.available ==>
      var n := |Plan(config, hw)|;
      n >= 3 && Plan(config, hw)[n - 3..] == ["--gpu-memory-pool", NatToString(hw.gpu.memoryGb), "--enable-mixed-precision"]
  {
    var flags := Plan(config, hw);
    TokenOrigin(config, hw, "--multi-gpu");
    TokenOrigin(config, hw, "--gpu-count");
    TokenOrigin(config, hw, "--gpu-memory-pool");
    TokenOrigin(config, hw, "--enable-mixed-precision");
    if hw.gpu.available {
      var head := MemoryBlock(config, hw) + MoeBlock(config) + MultiGpuBlock(hw);
      assert flags == head + GpuTuningFlags(hw.gpu.memoryGb);
    }
  }

  /** The 106B mixture-of-experts model on one 8 GB GPU: memory, expert and single-GPU tuning blocks. */
  lemma Intellect3OnOneSmallGpu(systemMemoryGb: nat, cpuCount: nat)
    ensures Plan(Models()[Intellect3Moe], Hardware(Gpu(true, 1, 8), systemMemoryGb, cpuCount))
      == MemoryFlags + MoeFlags + ["--gpu-memory-pool", "8", "--enable-mixed-precision"]
  {
  }

  /** The 4B GLM-4 model without a GPU: only the memory block. */
  lemma Glm4SmallWithoutGpu(systemMemoryGb: nat, cpuCount: nat)
    ensures Plan(Models()[Glm4Chat4B], Hardware(Gpu(false, 0, 0), systemMemoryGb, cpuCount)) == MemoryFlags
  {
  }
}

/**
 * The command line `GLMLauncher.run_worker` assembles for a worker of the
 * external inference executable (launch-glm.py). Running it is not modelled.
 */
module WorkerCommand {
  import opened Wrappers
  import opened Decimal
  import opened Registry
  import opened Planner

  /** Added only for more than one node; the node id is always the literal "0". */
  function DistributedBlock(nodes: int): seq<string>
  {
    if nodes > 1 then ["--distributed", "--nodes", NatToString(nodes), "--node-id", "0"] else []
  }

  function WorkerCommandLine(modelPath: string, config: ModelConfig, nodes: int, hw: Hardware): seq<string>
  {
    ["./dllama", "worker", "--model", modelPath, "--architecture", ArchitectureName(config.architecture)]
      + DistributedBlock(nodes) + Plan(config, hw)
  }

  /**
   * `run_worker(model_name, nodes)`: resolving the artifact path rejects an
   * unknown model before any command is built.
   */
  function RunWorker(modelsDir: string, modelName: string, nodes: int, hw: Hardware): (r: Result<seq<string>, LauncherError>)
    ensures r.Failure? <==> Lookup(modelName).None?
    ensures r.Failure? ==> r.error == UnknownModel(modelName)
    ensures r.Success? ==>
      && |r.value| >= 6 + |Plan(Lookup(modelName).value, hw)|
      && r.value[..4] == ["./dllama", "worker", "--model", ArtifactPath(modelsDir, modelName)]
      && r.value[4..6] == ["--architecture", ArchitectureName(Lookup(modelName).value.architecture)]
      && r.value[|r.value| - |Plan(Lookup(modelName).value, hw)|..] == Plan(Lookup(modelName).value, hw)
  {
    match ModelPath(modelsDir, modelName)
    case Failure(e) => Failure(e)
    case Success(path) =>
      var config := Lookup(modelName).value;
      var cmd := WorkerCommandLine(path, config, nodes, hw);
      assert cmd == ["./dllama", "worker", "--model", path, "--architecture", ArchitectureName(config.architecture)]
        + (DistributedBlock(nodes) + Plan(config, hw));
      Success(cmd)
  }

  /** The distributed block's flags are not planner tokens. */
  lemma PlanAvoidsDistributedFlags(config: ModelConfig, hw: Hardware, t: string)
    requires t in {"--distributed", "--nodes", "--node-id"}
    ensures t !in Plan(config, hw)
  {
    assert t !in Vocabulary;
    DashTokenNotNumeric(t);
    PlanTokens(config, hw);
  }

  lemma DashTokenNotNumeric(t: string)
    requires |t| > 0 && t[0] == '-'
    ensures !IsNumeric(t)
  {
  }

  /** The distributed block's flags are not header tokens: the artifact path ends in `.gguf`. */
  lemma HeaderAvoidsDistributedFlags(modelsDir: string, config: ModelConfig, name: string, t: string)
    requires t in {"--distributed", "--nodes", "--node-id"}
    ensures t !in ["./dllama", "worker", "--model", ArtifactPath(modelsDir, name), "--architecture", ArchitectureName(config.architecture)]
  {
    ArtifactPathSuffix(modelsDir, name);
    var p := ArtifactPath(modelsDir, name);
    assert p[|p| - 1] == 'f';
    assert t[|t| - 1] != 'f';
  }

  /** A resolved worker command is the header, the distributed block and the plan, in that order. */
  lemma WorkerCommandShape(modelsDir: string, modelName: string, nodes: int, hw: Hardware)
    requires Lookup(modelName).Some?
    ensures RunWorker(modelsDir, modelName, nodes, hw).Success?
    ensures RunWorker(modelsDir, modelName, nodes, hw).value
      == ["./dllama", "worker", "--model", ArtifactPath(modelsDir, modelName),
          "--architecture", ArchitectureName(Lookup(modelName).value.architecture)]
         + DistributedBlock(nodes) + Plan(Lookup(modelName).value, hw)
  {
  }

  /**
   * The distributed block is present exactly when `nodes > 1` and sits
   * between the header and the optimization flags.
   */
  lemma DistributedIffSeveralNodes(modelsDir: string, modelName: string, nodes: int, hw: Hardware)
    requires Lookup(modelName).Some?
    ensures var cmd := RunWorker(modelsDir, modelName, nodes, hw).value;
      && ("--distributed" in cmd <==> nodes > 1)
      && ("--node-id" in cmd <==> nodes > 1)
      && (nodes > 1 ==> |cmd| >= 11 && cmd[6..11] == ["--distributed", "--nodes", NatToString(nodes), "--node-id", "0"])
  {
    var config := Lookup(modelName).value;
    WorkerCommandShape(modelsDir, modelName, nodes, hw);
    HeaderAvoidsDistributedFlags(modelsDir, config, modelName, "--distributed");
    HeaderAvoidsDistributedFlags(modelsDir, config, modelName, "--node-id");
    PlanAvoidsDistributedFlags(config, hw, "--distributed");
    PlanAvoidsDistributedFlags(config, hw, "--node-id");
  }

  /** Whatever the node count, every `--node-id` in a worker command is followed by the literal "0". */
  lemma NodeIdAlwaysZero(modelsDir: string, modelName: string, nodes: int, hw: Hardware)
    requires Lookup(modelName).Some?
    ensures var cmd := RunWorker(modelsDir, modelName, nodes, hw).value;
      forall i :: 0 <= i < |cmd| - 1 && cmd[i] == "--node-id" ==> cmd[i + 1] == "0"
  {
    var config := Lookup(modelName).value;
    var header := ["./dllama", "worker", "--model", ArtifactPath(modelsDir, modelName),
                   "--architecture", ArchitectureName(config.architecture)];
    var plan := Plan(config, hw);
    var d := |DistributedBlock(nodes)|;
    WorkerCommandShape(modelsDir, modelName, nodes, hw);
    var cmd := RunWorker(modelsDir, modelName, nodes, hw).value;
    HeaderAvoidsDistributedFlags(modelsDir, config, modelName, "--node-id");
    PlanAvoidsDistributedFlags(config, hw, "--node-id");
    assert forall j :: 0 <= j < 6 ==> cmd[j] == header[j];
    assert forall j :: 6 + d <= j < |cmd| ==> cmd[j] == plan[j - 6 - d];
  }
}

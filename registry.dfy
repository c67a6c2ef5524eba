/**
 * The static model registry `GLM_MODELS` and the local artifact naming of
 * `GLMLauncher.get_model_path` in launch-glm.py.
 */
module Registry {
  import opened Wrappers

  /** The closed set of architecture tags the registry uses. */
  datatype Architecture = Glm4 | Intellect3

  /** Mixture-of-experts attributes, present only on the INTELLECT-3 entry. */
  datatype MoeInfo = MoeInfo(experts: nat, activeExperts: nat)

  datatype ModelConfig = ModelConfig(
    size: string,
    memoryGb: nat,
    quantization: string,
    architecture: Architecture,
    moe: Option<MoeInfo>,
    downloadUrl: string)

  /** Why a command that names a model can fail before doing anything. */
  datatype LauncherError =
    | UnknownModel(name: string)    // `ValueError` raised by get_model_path
    | MissingModelKey(name: string) // `KeyError` from indexing GLM_MODELS directly

  /** The tag as the registry spells it. */
  function ArchitectureName(a: Architecture): (s: string)
    ensures s == "glm_4" <==> a == Glm4
    ensures s == "intellect_3" <==> a == Intellect3
  {
    match a
    case Glm4 => "glm_4"
    case Intellect3 => "intellect_3"
  }

  const Glm4Chat9B := "glm_4_9b_instruct_q40"
  const Glm4Chat4B := "glm_4_4b_instruct_q40"
  const Intellect3Moe := "intellect3_106b_moe_q40"

  /** The registry, entry for entry. */
  function Models(): map<string, ModelConfig>
  {
    map[
      Glm4Chat9B := ModelConfig("9B", 7, "q40", Glm4, None,
        "https://huggingface.co/THUDM/glm-4-9b-chat/resolve/main/glm-4-9b-chat-q4_0.gguf"),
      Glm4Chat4B := ModelConfig("4B", 3, "q40", Glm4, None,
        "https://huggingface.co/THUDM/glm-4-4b/resolve/main/glm-4-4b-q4_0.gguf"),
      Intellect3Moe := ModelConfig("106B", 13, "q40", Intellect3, Some(MoeInfo(16, 2)),
        "https://huggingface.co/intellect-ai/intellect-3-106b/resolve/main/intellect3-106b-moeq40.gguf")
    ]
  }

  /** `GLM_MODELS.get(name)`. */
  function Lookup(name: string): (r: Option<ModelConfig>)
    ensures r.Some? <==> name in {Glm4Chat9B, Glm4Chat4B, Intellect3Moe}
    ensures r.Some? ==> (r.value.architecture == Intellect3 <==> r.value.moe.Some?)
    ensures r.Some? ==> (r.value.architecture == Intellect3 <==> name == Intellect3Moe)
  {
    if name in Models() then Some(Models()[name]) else None
  }

  /** Local file of a model: `<models_dir>/<name>.gguf` (path joining with `/`). */
  function ArtifactPath(modelsDir: string, name: string): string
  {
    modelsDir + "/" + name + ".gguf"
  }

  /**
   * `get_model_path`: unknown names raise; known ones map to their cached
   * artifact. Downloading a missing artifact is not part of this model.
   */
  function ModelPath(modelsDir: string, name: string): (r: Result<string, LauncherError>)
    ensures r.Failure? <==> Lookup(name).None?
    ensures r.Failure? ==> r.error == UnknownModel(name)
    ensures r.Success? ==> ModelNameOfPath(modelsDir, r.value) == Some(name)
  {
    if Lookup(name).None? then Failure(UnknownModel(name))
    else
      var p := ArtifactPath(modelsDir, name);
      assert p[..|modelsDir| + 1] == modelsDir + "/";
      assert p[|p| - 5..] == ".gguf";
      assert p[|modelsDir| + 1..|p| - 5] == name;
      Success(p)
  }

  /** Reads the model name back from a path under `modelsDir` ending in `.gguf`. */
  function ModelNameOfPath(modelsDir: string, path: string): Option<string>
  {
    if |path| >= |modelsDir| + 6
       && path[..|modelsDir| + 1] == modelsDir + "/"
       && path[|path| - 5..] == ".gguf"
    then Some(path[|modelsDir| + 1..|path| - 5])
    else None
  }

  /** Every artifact path ends in `.gguf`, so it is never a bare flag token. */
  lemma ArtifactPathSuffix(modelsDir: string, name: string)
    ensures var p := ArtifactPath(modelsDir, name); |p| >= 5 && p[|p| - 5..] == ".gguf"
  {
    var p := ArtifactPath(modelsDir, name);
    assert p == (modelsDir + "/" + name) + ".gguf";
  }
}

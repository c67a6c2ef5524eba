/**
 * The cluster bootstrap generator, `GLMLauncher.setup_distributed_cluster`
 * in launch-glm.py, and the `setup-cluster` guard of `main`. The launcher's
 * side of the file system is a map from path to file (content and mode).
 */
module Cluster {
  import opened Wrappers
  import opened Decimal
  import opened TextLines
  import opened Registry

  /** The record written as the cluster configuration (its JSON text is not modelled). */
  datatype ClusterConfig = ClusterConfig(model: string, nodes: seq<string>, architecture: string)

  datatype Content = ClusterRecord(config: ClusterConfig) | Text(text: string)

  datatype FileEntry = FileEntry(content: Content, mode: nat)

  type FileSystem = map<string, FileEntry>

  /** How a `setup-cluster` run ends. */
  datatype SetupOutcome =
    | Done
    | ModelMissing(error: LauncherError) // `GLM_MODELS[model_name]` raised, nothing written
    | NodesRequired                      // no `--nodes` given: exits with status 1

  /** 0o755 */
  const ExecutableMode: nat := 0x1ED

  function ConfigPath(modelsDir: string): string
  {
    modelsDir + "/cluster_config.json"
  }

  function ScriptPath(modelsDir: string, i: nat): string
  {
    modelsDir + "/start_node_" + NatToString(i) + ".sh"
  }

  /** The lines of node `i`'s startup script, one per line of the generating f-string. */
  function ScriptLines(i: nat, ip: string, configPath: string, selfPath: string, modelName: string, n: nat): seq<string>
  {
    [ "#!/bin/bash",
      "# Startup script for node " + NatToString(i) + " (" + ip + ")",
      "",
      "export NODE_ID=" + NatToString(i),
      "export CLUSTER_CONFIG=" + configPath,
      "",
      "python " + selfPath + " worker --model " + modelName + " --nodes " + NatToString(n) + " --node-id " + NatToString(i)
    ]
  }

  function StartupScript(i: nat, ip: string, configPath: string, selfPath: string, modelName: string, n: nat): string
  {
    JoinLines(ScriptLines(i, ip, configPath, selfPath, modelName, n))
  }

  /** `open(path, 'w')` and a write: the content is replaced; a new file gets `createMode`, an existing one keeps its mode. */
  function Written(fs: FileSystem, path: string, content: Content, createMode: nat): FileSystem
  {
    fs[path := FileEntry(content, if path in fs then fs[path].mode else createMode)]
  }

  /** The startup scripts of nodes `0 .. k-1`, each already set executable. */
  function ScriptFiles(modelsDir: string, selfPath: string, modelName: string, ips: seq<string>, k: nat): FileSystem
    requires k <= |ips|
  {
    if k == 0 then map[]
    else
      ScriptFiles(modelsDir, selfPath, modelName, ips, k - 1)[
        ScriptPath(modelsDir, k - 1) :=
          FileEntry(Text(StartupScript(k - 1, ips[k - 1], ConfigPath(modelsDir), selfPath, modelName, |ips|)), ExecutableMode)]
  }

  function ScriptPaths(modelsDir: string, k: nat): set<string>
  {
    set i | 0 <= i < k :: ScriptPath(modelsDir, i)
  }

  /** The file system after a successful `setup_distributed_cluster`. */
  function ClusterFiles(fs: FileSystem, modelsDir: string, selfPath: string, createMode: nat,
                        modelName: string, architecture: Architecture, ips: seq<string>): FileSystem
  {
    Written(fs, ConfigPath(modelsDir), ClusterRecord(ClusterConfig(modelName, ips, ArchitectureName(architecture))), createMode)
      + ScriptFiles(modelsDir, selfPath, modelName, ips, |ips|)
  }

  /** The configuration file is never one of the scripts. */
  lemma ConfigPathNotScript(modelsDir: string, i: nat)
    ensures ConfigPath(modelsDir) != ScriptPath(modelsDir, i)
  {
    assert ConfigPath(modelsDir)[|modelsDir| + 1] == 'c';
    assert ScriptPath(modelsDir, i)[|modelsDir| + 1] == 's';
  }

  /** Distinct nodes get distinct script paths. */
  lemma ScriptPathInjective(modelsDir: string, i: nat, j: nat)
    requires ScriptPath(modelsDir, i) == ScriptPath(modelsDir, j)
    ensures i == j
  {
    var prefix := modelsDir + "/start_node_";
    var si, sj := ScriptPath(modelsDir, i), ScriptPath(modelsDir, j);
    assert si == prefix + NatToString(i) + ".sh";
    assert sj == prefix + NatToString(j) + ".sh";
    assert si[|prefix|..|si| - 3] == NatToString(i);
    assert sj[|prefix|..|sj| - 3] == NatToString(j);
    NatToStringInjective(i, j);
  }

  /** Script `i < k` is at its own path with its own text and mode 0o755, and nothing else is there. */
  lemma {:induction false} ScriptFilesAt(modelsDir: string, selfPath: string, modelName: string, ips: seq<string>, k: nat)
    requires k <= |ips|
    ensures ScriptFiles(modelsDir, selfPath, modelName, ips, k).Keys == ScriptPaths(modelsDir, k)
    ensures forall i :: 0 <= i < k ==>
      ScriptFiles(modelsDir, selfPath, modelName, ips, k)[ScriptPath(modelsDir, i)]
        == FileEntry(Text(StartupScript(i, ips[i], ConfigPath(modelsDir), selfPath, modelName, |ips|)), ExecutableMode)
  {
    if k > 0 {
      ScriptFilesAt(modelsDir, selfPath, modelName, ips, k - 1);
      assert ScriptPaths(modelsDir, k) == ScriptPaths(modelsDir, k - 1) + {ScriptPath(modelsDir, k - 1)};
      forall i | 0 <= i < k - 1
        ensures ScriptPath(modelsDir, i) != ScriptPath(modelsDir, k - 1)
      {
        if ScriptPath(modelsDir, i) == ScriptPath(modelsDir, k - 1) {
          ScriptPathInjective(modelsDir, i, k - 1);
        }
      }
    }
  }

  /** Exactly one script per node: `k` nodes give `k` distinct script paths. */
  lemma {:induction false} ScriptCount(modelsDir: string, k: nat)
    ensures |ScriptPaths(modelsDir, k)| == k
  {
    if k > 0 {
      ScriptCount(modelsDir, k - 1);
      assert ScriptPaths(modelsDir, k) == ScriptPaths(modelsDir, k - 1) + {ScriptPath(modelsDir, k - 1)};
      if ScriptPath(modelsDir, k - 1) in ScriptPaths(modelsDir, k - 1) {
        var i :| 0 <= i < k - 1 && ScriptPath(modelsDir, i) == ScriptPath(modelsDir, k - 1);
        ScriptPathInjective(modelsDir, i, k - 1);
      }
    }
  }

  /**
   * After a setup: the configuration record names the model, the nodes in
   * the given order and the registry's architecture; every node has its
   * executable script; every other file is as it was.
   */
  lemma ClusterFilesContents(fs: FileSystem, modelsDir: string, selfPath: string, createMode: nat,
                             modelName: string, architecture: Architecture, ips: seq<string>)
    ensures var result := ClusterFiles(fs, modelsDir, selfPath, createMode, modelName, architecture, ips);
      && result.Keys == fs.Keys + {ConfigPath(modelsDir)} + ScriptPaths(modelsDir, |ips|)
      && result[ConfigPath(modelsDir)]
           == FileEntry(ClusterRecord(ClusterConfig(modelName, ips, ArchitectureName(architecture))),
                        if ConfigPath(modelsDir) in fs then fs[ConfigPath(modelsDir)].mode else createMode)
      && (forall i :: 0 <= i < |ips| ==>
            result[ScriptPath(modelsDir, i)]
              == FileEntry(Text(StartupScript(i, ips[i], ConfigPath(modelsDir), selfPath, modelName, |ips|)), ExecutableMode))
      && (forall p :: p in fs && p != ConfigPath(modelsDir) && p !in ScriptPaths(modelsDir, |ips|) ==> result[p] == fs[p])
  {
    ScriptFilesAt(modelsDir, selfPath, modelName, ips, |ips|);
    forall i | 0 <= i < |ips| {
      ConfigPathNotScript(modelsDir, i);
    }
  }

  /** Running the setup twice with the same inputs leaves exactly what one run leaves. */
  lemma ClusterFilesIdempotent(fs: FileSystem, modelsDir: string, selfPath: string, createMode: nat,
                               modelName: string, architecture: Architecture, ips: seq<string>)
    ensures var once := ClusterFiles(fs, modelsDir, selfPath, createMode, modelName, architecture, ips);
      ClusterFiles(once, modelsDir, selfPath, createMode, modelName, architecture, ips) == once
  {
    var once := ClusterFiles(fs, modelsDir, selfPath, createMode, modelName, architecture, ips);
    var twice := ClusterFiles(once, modelsDir, selfPath, createMode, modelName, architecture, ips);
    ClusterFilesContents(fs, modelsDir, selfPath, createMode, modelName, architecture, ips);
    ClusterFilesContents(once, modelsDir, selfPath, createMode, modelName, architecture, ips);
    assert twice.Keys == once.Keys;
    forall p | p in once
      ensures twice[p] == once[p]
    {
      if p in ScriptPaths(modelsDir, |ips|) {
        var i :| 0 <= i < |ips| && p == ScriptPath(modelsDir, i);
      }
    }
  }

  /** The node index a reader of a startup script finds on its `export NODE_ID=` line (the fourth). */
  function ScriptNodeId(script: string): Option<nat>
  {
    var lines := SplitLines(script);
    var prefix := "export NODE_ID=";
    if |lines| > 3 && |lines[3]| > |prefix| && lines[3][..|prefix|] == prefix && IsNumeric(lines[3][|prefix|..])
    then Some(ParseNat(lines[3][|prefix|..]))
    else None
  }

  lemma NumeralNoNewline(n: nat)
    ensures NoNewline(NatToString(n))
  {
  }

  lemma ScriptLinesNoNewline(i: nat, ip: string, configPath: string, selfPath: string, modelName: string, n: nat)
    requires NoNewline(ip) && NoNewline(configPath) && NoNewline(selfPath) && NoNewline(modelName)
    ensures forall k :: 0 <= k < 7 ==> NoNewline(ScriptLines(i, ip, configPath, selfPath, modelName, n)[k])
  {
    var di, dn := NatToString(i), NatToString(n);
    NumeralNoNewline(i);
    NumeralNoNewline(n);
    NoNewlineConcat("# Startup script for node " + di, " (");
    NoNewlineConcat("# Startup script for node " + di + " (", ip);
    NoNewlineConcat("# Startup script for node " + di + " (" + ip, ")");
    NoNewlineConcat("export NODE_ID=", di);
    NoNewlineConcat("export CLUSTER_CONFIG=", configPath);
    var w := "python " + selfPath;
    NoNewlineConcat("python ", selfPath);
    NoNewlineConcat(w, " worker --model ");
    NoNewlineConcat(w + " worker --model ", modelName);
    NoNewlineConcat(w + " worker --model " + modelName, " --nodes ");
    NoNewlineConcat(w + " worker --model " + modelName + " --nodes ", dn);
    NoNewlineConcat(w + " worker --model " + modelName + " --nodes " + dn, " --node-id ");
    NoNewlineConcat(w + " worker --model " + modelName + " --nodes " + dn + " --node-id ", di);
  }

  /**
   * Read back line by line, node `i`'s script is its seven lines in order:
   * the node id export, then the configuration export, then the worker
   * invocation with `--nodes n --node-id i`. The inputs embedded in it must
   * not themselves contain line breaks.
   */
  lemma {:induction false} ScriptReadsBack(i: nat, ip: string, configPath: string, selfPath: string, modelName: string, n: nat)
    requires NoNewline(ip) && NoNewline(configPath) && NoNewline(selfPath) && NoNewline(modelName)
    ensures SplitLines(StartupScript(i, ip, configPath, selfPath, modelName, n)) == ScriptLines(i, ip, configPath, selfPath, modelName, n)
    ensures ScriptNodeId(StartupScript(i, ip, configPath, selfPath, modelName, n)) == Some(i)
  {
    var lines := ScriptLines(i, ip, configPath, selfPath, modelName, n);
    ScriptLinesNoNewline(i, ip, configPath, selfPath, modelName, n);
    SplitJoin(lines);
    var prefix := "export NODE_ID=";
    assert lines[3][..|prefix|] == prefix;
    assert lines[3][|prefix|..] == NatToString(i);
    ParseNatToString(i);
  }

  /**
   * The launcher's view of its cache directory: `files` is everything the
   * launcher has written there, `createMode` the mode a newly created file
   * receives (it depends on the process umask), `selfPath` the launcher
   * script's own path as the generated scripts call it.
   */
  class Launcher {
    const modelsDir: string
    const selfPath: string
    const createMode: nat
    var files: FileSystem

    constructor (modelsDir: string, selfPath: string, createMode: nat, files: FileSystem)
      ensures this.modelsDir == modelsDir && this.selfPath == selfPath && this.createMode == createMode
      ensures this.files == files
    {
      this.modelsDir := modelsDir;
      this.selfPath := selfPath;
      this.createMode := createMode;
      this.files := files;
    }

    /** Opens `path` for writing (`'w'`) and writes `content`. */
    method Write(path: string, content: Content)
      modifies this
      ensures files == Written(old(files), path, content, createMode)
    {
      var mode := if path in files then files[path].mode else createMode;
      files := files[path := FileEntry(content, mode)];
    }

    /** `Path.chmod(mode)` on an existing file. */
    method Chmod(path: string, mode: nat)
      requires path in files
      modifies this
      ensures path in files && files == old(files)[path := FileEntry(old(files)[path].content, mode)]
    {
      files := files[path := FileEntry(files[path].content, mode)];
    }

    /**
     * `setup_distributed_cluster(model_name, node_ips)`: looks the model up
     * (an unknown one raises before any file is opened), writes the cluster
     * record, then node by node writes a startup script and sets it 0o755.
     */
    method SetupDistributedCluster(modelName: string, nodeIps: seq<string>) returns (outcome: SetupOutcome)
      modifies this
      ensures Lookup(modelName).None? ==> outcome == ModelMissing(MissingModelKey(modelName)) && files == old(files)
      ensures Lookup(modelName).Some? ==>
        && outcome == Done
        && files == ClusterFiles(old(files), modelsDir, selfPath, createMode, modelName,
                                 Lookup(modelName).value.architecture, nodeIps)
    {
      var entry := Lookup(modelName);
      if entry.None? {
        return ModelMissing(MissingModelKey(modelName));
      }
      var config := ClusterConfig(modelName, nodeIps, ArchitectureName(entry.value.architecture));
      var configPath := ConfigPath(modelsDir);
      Write(configPath, ClusterRecord(config));
      ghost var withConfig := files;
      var i := 0;
      while i < |nodeIps|
        invariant 0 <= i <= |nodeIps|
        invariant files == withConfig + ScriptFiles(modelsDir, selfPath, modelName, nodeIps, i)
      {
        var scriptPath := ScriptPath(modelsDir, i);
        Write(scriptPath, Text(StartupScript(i, nodeIps[i], configPath, selfPath, modelName, |nodeIps|)));
        Chmod(scriptPath, ExecutableMode);
        i := i + 1;
      }
      outcome := Done;
    }

    /**
     * The `setup-cluster` command: without node addresses it stops with
     * status 1 before anything is written; otherwise it runs the setup.
     */
    method SetupClusterCommand(modelName: string, nodes: Option<seq<string>>) returns (outcome: SetupOutcome)
      modifies this
      ensures (nodes.None? || |nodes.value| == 0) ==> outcome == NodesRequired && files == old(files)
      ensures nodes.Some? && |nodes.value| > 0 && Lookup(modelName).None? ==>
        outcome == ModelMissing(MissingModelKey(modelName)) && files == old(files)
      ensures nodes.Some? && |nodes.value| > 0 && Lookup(modelName).Some? ==>
        && outcome == Done
        && files == ClusterFiles(old(files), modelsDir, selfPath, createMode, modelName,
                                 Lookup(modelName).value.architecture, nodes.value)
    {
      if nodes.None? || |nodes.value| == 0 {
        return NodesRequired;
      }
      outcome := SetupDistributedCluster(modelName, nodes.value);
    }
  }

  /** The process exit status of a `setup-cluster` run. */
  function ExitStatus(outcome: SetupOutcome): (code: int)
    ensures code == 0 <==> outcome == Done
    ensures outcome != Done ==> code == 1
  {
    if outcome == Done then 0 else 1
  }
}

# GLM distributed launcher: a verified model

This project models the decision logic of the GLM / INTELLECT-3 launcher for
distributed-llama (`launch-glm.py`) and the argument scan of its worker
executable (`src/glm/intellect-worker.cpp`).

- **Registry** (`registry.dfy`): the three-entry model table, lookup, and
  `get_model_path`. An unknown name raises. A known one maps to
  `<models_dir>/<name>.gguf`.
- **Planner** (`planner.dfy`): `optimize_for_hardware`. It is a pure function
  from a registry entry and a hardware snapshot to a token list. The list is
  four blocks concatenated in a fixed order: memory pressure, mixture of
  experts, multi-GPU and GPU tuning. Each block has its own guard.
- **Worker command** (`worker_command.dfy`): the command list `run_worker`
  assembles. It adds the distributed block only for more than one node, and
  that block always carries `--node-id 0`.
- **Cluster bootstrap** (`cluster.dfy`): `setup_distributed_cluster` and the
  `setup-cluster` guard of `main`. The class `Launcher` holds the cache
  directory's files as a map from path to (content, mode). Its methods write
  files and change their modes the way the source does. The setup method is
  proved against the function `ClusterFiles`, and the lemmas prove what that
  function promises.
- **Worker arguments** (`worker_args.dfy`): the `for` loop over `argv` in the
  worker's `main`. It is a method with loop invariants, proved against a
  definition that works position by position (`Expected`). `std::stoi` is a
  parameter that may fail.
- Helpers: `decimal.dfy` renders and parses decimal numbers (Python's `str`
  on a non-negative `int`). `text_lines.dfy` joins and splits text into
  newline-terminated lines. `wrappers.dfy` holds `Option` and `Result`.

Behaviour of the source worth noting:

- `setup_distributed_cluster` does not itself reject an empty node list. Only
  `main` does (launch-glm.py:336-338). Called directly with no nodes, it
  writes a record with an empty `nodes` list and no scripts.
  `Launcher.SetupClusterCommand` models the guard.
- The multi-GPU block needs an available GPU as well as `count > 1`
  (launch-glm.py:133-134). The count alone is not enough.
- The planner indexes the registry directly (launch-glm.py:107). An unknown
  name raises `KeyError` there, so the planner is not total over names.
- For a GLM-4 model, no token of the expert block appears except possibly
  `"3"`. That token can come from a GPU count or a memory-pool size of 3.

## Model

| member | source | states |
|---|---|---|
| `Registry.Lookup` | launch-glm.py:28-52 | exactly the three registry names are known; the entry has expert data iff its architecture is `intellect_3`, and only `intellect3_106b_moe_q40` has it |
| `Registry.ArchitectureName` | launch-glm.py:33-47 | the registry tag strings `glm_4` and `intellect_3` correspond one-to-one to the two architectures |
| `Registry.ModelPath` | launch-glm.py:84-90 | fails with `UnknownModel(name)` iff the name is not in the registry; otherwise the path lies under `models_dir` and the model name is read back from it |
| `Decimal.NatToString` | launch-glm.py:137 | `str(n)` of a natural is a non-empty digit string without a leading zero, of length 1 iff `n < 10` |
| `Decimal.ParseNatToString` | launch-glm.py:137 | parsing the rendered text of `n` gives `n` back |
| `Decimal.NatToStringParse` | launch-glm.py:137 | rendering the value of a canonical numeral gives the numeral back, so rendering is a bijection onto canonical numerals |
| `Decimal.NatToStringInjective` | launch-glm.py:235 | distinct numbers render as distinct texts, so node indices give distinct file names |
| `TextLines.SplitJoin` | launch-glm.py:237-244 | splitting text written line by line, where no line holds a newline, gives back exactly those lines |
| `Planner.Plan` | launch-glm.py:105-145 | the list length is 6·[memory pressure] + 7·[intellect_3] + 3·[available and count > 1] + 3·[available] |
| `Planner.OptimizeForHardware` | launch-glm.py:105-107 | fails with `MissingModelKey` iff the name is not in the registry; otherwise gives the plan of its entry |
| `Planner.PlanTokens` | launch-glm.py:116-143 | every emitted token is one of the fixed flag and value tokens or a rendered number |
| `Planner.TokenOrigin` | launch-glm.py:110-143 | any fixed token other than "3" that appears comes from its own block, and that block's guard holds |
| `Planner.MemoryPressureBlock` | launch-glm.py:110-121 | GPU memory below the model's requirement iff the list starts with the six quantization/offload tokens; otherwise none of them appears |
| `Planner.MoeBlockPlacement` | launch-glm.py:123-130 | for `intellect_3` the seven expert tokens follow the memory block directly, whatever the hardware; `--moe-mode` appears iff the architecture is `intellect_3`; for `glm_4` no non-numeric expert token appears |
| `Planner.MultiGpuBlockIff` | launch-glm.py:132-138 | `--multi-gpu` and `--gpu-count` appear iff the GPU is available and count > 1, and then `--multi-gpu --gpu-count <count>` sits just before the GPU-tuning block |
| `Planner.GpuTuningAtEnd` | launch-glm.py:132-143 | with no GPU, no GPU token appears; with one, the list ends with `--gpu-memory-pool <memory_gb> --enable-mixed-precision` |
| `Planner.Intellect3OnOneSmallGpu` | launch-glm.py:105-145 | the 106B model on one available 8 GB GPU gets the memory block, the expert block and `--gpu-memory-pool 8 --enable-mixed-precision`, and no multi-GPU flags |
| `Planner.Glm4SmallWithoutGpu` | launch-glm.py:105-145 | the 4B GLM-4 model with no GPU gets only the memory block |
| `WorkerCommand.RunWorker` | launch-glm.py:190-210 | an unknown model fails at the path lookup; otherwise the command starts `./dllama worker --model <path> --architecture <tag>` and ends with the plan |
| `WorkerCommand.WorkerCommandShape` | launch-glm.py:196-210 | the unfolding `DistributedIffSeveralNodes` and `NodeIdAlwaysZero` rely on: for a known model the command is the header, then the distributed block, then the optimization flags, in the order of the three `extend` calls |
| `WorkerCommand.DistributedIffSeveralNodes` | launch-glm.py:200-206 | `--distributed` and `--node-id` appear iff `nodes > 1`, and then `--distributed --nodes N --node-id 0` sits right after the header, before the optimization flags |
| `WorkerCommand.NodeIdAlwaysZero` | launch-glm.py:205 | every `--node-id` in a worker command is followed by the literal `0` |
| `Cluster.ConfigPathNotScript` | launch-glm.py:227-235 | the record's path is never a script path |
| `Cluster.ScriptPathInjective` | launch-glm.py:235 | distinct node indices give distinct script paths |
| `Cluster.ScriptFilesAt` | launch-glm.py:234-245 | the scripts of nodes `0..k-1` are exactly the paths `start_node_0.sh … start_node_{k-1}.sh`; each holds its node's script text with mode 0o755 |
| `Cluster.ScriptCount` | launch-glm.py:234-235 | `k` nodes give exactly `k` distinct script paths |
| `Cluster.ClusterFilesContents` | launch-glm.py:221-245 | afterwards the files are the old ones plus the record and the scripts; the record holds the input name, the input nodes in order and the registry architecture; the record keeps an existing mode or gets the creation mode; every other file is unchanged |
| `Cluster.ClusterFilesIdempotent` | launch-glm.py:227-245 | a second run with the same inputs leaves exactly what the first left, because files are overwritten and nothing accumulates |
| `Cluster.ScriptReadsBack` | launch-glm.py:237-244 | node `i`'s script reads back as its seven lines: `export NODE_ID=i`, then `export CLUSTER_CONFIG=<path>`, then the worker line with `--nodes n --node-id i`; the node id read from it is `i` |
| `Cluster.Launcher.constructor` | launch-glm.py:55-57 | the launcher starts with the given cache directory, script path, creation mode and files |
| `Cluster.Launcher.Write` | launch-glm.py:228-229 | opening for writing replaces the content; an existing file keeps its mode and a new one gets the creation mode |
| `Cluster.Launcher.Chmod` | launch-glm.py:245 | only the mode of that one file changes |
| `Cluster.Launcher.SetupDistributedCluster` | launch-glm.py:215-246 | an unknown model fails before any file is written; otherwise the files become `ClusterFiles` of the old ones (loop invariant: the record plus the scripts written so far) |
| `Cluster.Launcher.SetupClusterCommand` | launch-glm.py:335-339 | with no `--nodes` (absent or empty) it ends with `NodesRequired` and writes nothing; otherwise it is the cluster setup |
| `Cluster.ExitStatus` | launch-glm.py:335-339 | the process exits with 0 iff the setup completed, and with 1 otherwise: the guard's `sys.exit(1)` and the uncaught `KeyError` both give 1 |
| `WorkerArgs.LastFlagBelow` | src/glm/intellect-worker.cpp:18-25 | gives the last position below `k` that holds the flag with a value after it, or none if there is no such position |
| `WorkerArgs.FirstFailureBelow` | src/glm/intellect-worker.cpp:20-23 | gives the first position below `k` whose value `std::stoi` rejects, or none if there is no such position |
| `WorkerArgs.ScanArguments` | src/glm/intellect-worker.cpp:14-25 | the loop's result equals `Expected`: abort at the first rejected value, otherwise the last occurrence of each flag or the defaults 0 and 1 |
| `WorkerArgs.DefaultsWithoutFlags` | src/glm/intellect-worker.cpp:14-15 | with no recognised flag that has a value after it, the result is `node_id = 0`, `total_nodes = 1`; a flag in the last position is ignored |
| `WorkerArgs.ScanDependsOnlyOnFlagsAndValues` | src/glm/intellect-worker.cpp:18-25 | the result depends only on where the flags stand and on what `std::stoi` makes of the values; `argv[0]` and unrecognised arguments are never acted on, and the last token is read only as a value |
| `WorkerArgs.LastOccurrenceWins` | src/glm/intellect-worker.cpp:20-23 | a flag and value appended at the end set that variable (the last occurrence wins); a rejected value aborts |
| `WorkerArgs.ValueReexaminedAsFlag` | src/glm/intellect-worker.cpp:18 | the loop steps by one, so in `w --node-id --nodes 7` the token `--nodes` is both the value of `--node-id` and a flag with value `7` |

## Left out

- `detect_hardware` (psutil, GPUtil, the `ImportError` fallback) is not modelled. The snapshot is an input with natural-number GPU memory. GPUtil reports memory as a float, so the source would print a pool size like `8.0` where the model prints `8`.
- `get_model_path`'s download of a missing artifact (`wget`), every `subprocess.run` and all printed output are I/O and are not modelled.
- `run_inference`, `run_chat`, `benchmark_model` and `list_models` are not modelled. They add a prompt, float-valued sampling options or printing around the same header and plan.
- The argparse setup of `main` is not modelled, apart from the `setup-cluster` guard. As in the source, no node id reaches `RunWorker`, because `main` never forwards `--node-id`.
- The JSON text of the cluster record (`json.dump(..., indent=2)`) is not modelled. The record is a datatype.
- File-system errors are not modelled. `open(path, 'w')` and `chmod` can raise (permissions, a full disk); in the source such an error ends the process with status 1 and leaves the record and the scripts written so far in place. The model's writes cannot fail, so it does not capture that partial state.
- Creating the cache directory (`mkdir(parents=True)`) is not modelled. Paths are joined with `/` and not normalised.
- The generated worker line passes `--model X`, but the worker subcommand takes the model as a positional argument. The text is reproduced as written. What argparse would make of it is not modelled.
- The registry's `size`, `quantization` and `download_url` fields are carried but not used by the modelled operations.
- `std::stoi`'s parsing rules (whitespace, sign, trailing characters, range) are not modelled. It is a parameter from strings to optional 32-bit integers. The worker's printed output is not modelled.
- The other C++ sources only print or return constants and are not part of this model.
- Cluster.ScriptReadsBack: stated only for inputs without line breaks. The source does not check for them, and a newline in an address or path would add lines to the script.
- Planner.MoeBlockPlacement: for `glm_4` it excludes only the six non-numeric expert tokens. The numeric `"3"` can legitimately appear as a GPU count or memory-pool size.

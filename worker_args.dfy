/**
 * The argument loop of the INTELLECT-3 worker's `main`
 * (src/glm/intellect-worker.cpp): it scans `argv` from index 1, and a
 * recognised flag followed by a value sets `node_id` or `total_nodes`
 * through `std::stoi`.
 */
module WorkerArgs {
  import opened Wrappers

  /** C++ `int` on the platforms the worker targets. */
  type Int32 = x: int | -0x8000_0000 <= x < 0x8000_0000

  /**
   * `std::stoi` is a parameter of the model: `None` stands for the
   * `std::invalid_argument` or `std::out_of_range` it throws, which nothing
   * catches, so the worker terminates.
   */
  type Stoi = string -> Option<Int32>

  datatype ScanResult =
    | Parsed(nodeId: Int32, totalNodes: Int32)
    | Aborted(position: nat) // std::stoi threw on the value after `argv[position]`

  const NodeIdFlag: string := "--node-id"
  const NodesFlag: string := "--nodes"

  predicate IsFlag(t: string)
  {
    t == NodeIdFlag || t == NodesFlag
  }

  /** Position `p` holds `flag` and has a value after it, so the loop acts on it. */
  predicate FlagAt(argv: seq<string>, flag: string, p: nat)
  {
    1 <= p && p + 1 < |argv| && argv[p] == flag
  }

  /** The loop acts on position `p` and `std::stoi` rejects its value. */
  predicate FailsAt(argv: seq<string>, stoi: Stoi, p: nat)
  {
    (FlagAt(argv, NodeIdFlag, p) || FlagAt(argv, NodesFlag, p)) && stoi(argv[p + 1]).None?
  }

  /** The last position below `k` at which `flag` is acted on. */
  function LastFlagBelow(argv: seq<string>, flag: string, k: nat): (r: Option<nat>)
    ensures r.Some? ==> r.value < k && FlagAt(argv, flag, r.value)
    ensures r.Some? ==> forall q :: r.value < q < k ==> !FlagAt(argv, flag, q)
    ensures r.None? ==> forall q :: 0 <= q < k ==> !FlagAt(argv, flag, q)
  {
    if k == 0 then None
    else if FlagAt(argv, flag, k - 1) then Some(k - 1)
    else LastFlagBelow(argv, flag, k - 1)
  }

  /** The first position below `k` whose value `std::stoi` rejects. */
  function FirstFailureBelow(argv: seq<string>, stoi: Stoi, k: nat): (r: Option<nat>)
    ensures r.Some? ==> r.value < k && FailsAt(argv, stoi, r.value)
    ensures r.Some? ==> forall q :: 0 <= q < r.value ==> !FailsAt(argv, stoi, q)
    ensures r.None? ==> forall q :: 0 <= q < k ==> !FailsAt(argv, stoi, q)
  {
    if k == 0 then None
    else
      match FirstFailureBelow(argv, stoi, k - 1)
      case Some(p) => Some(p)
      case None => if FailsAt(argv, stoi, k - 1) then Some(k - 1) else None
  }

  /** The value `flag` sets from positions below `k`: the last occurrence wins, else the default. */
  function Setting(argv: seq<string>, stoi: Stoi, flag: string, default: Int32, k: nat): Int32
  {
    match LastFlagBelow(argv, flag, k)
    case None => default
    case Some(p) => if stoi(argv[p + 1]).Some? then stoi(argv[p + 1]).value else default
  }

  /** A failure with none before it is the first failure of the whole argument list. */
  lemma FirstFailureIs(argv: seq<string>, stoi: Stoi, p: nat)
    requires FirstFailureBelow(argv, stoi, p).None? && FailsAt(argv, stoi, p)
    ensures FirstFailureBelow(argv, stoi, |argv|) == Some(p)
  {
  }

  /** What the loop ends with, stated position by position rather than step by step. */
  function Expected(argv: seq<string>, stoi: Stoi): ScanResult
  {
    match FirstFailureBelow(argv, stoi, |argv|)
    case Some(p) => Aborted(p)
    case None => Parsed(Setting(argv, stoi, NodeIdFlag, 0, |argv|), Setting(argv, stoi, NodesFlag, 1, |argv|))
  }

  /** The loop itself: `for (int i = 1; i < argc; i++)` with the two guarded branches. */
  method ScanArguments(argv: seq<string>, stoi: Stoi) returns (r: ScanResult)
    ensures r == Expected(argv, stoi)
  {
    var nodeId: Int32 := 0;
    var totalNodes: Int32 := 1;
    var i := 1;
    while i < |argv|
      invariant 1 <= i && (i <= |argv| || i == 1)
      invariant FirstFailureBelow(argv, stoi, i).None?
      invariant nodeId == Setting(argv, stoi, NodeIdFlag, 0, i)
      invariant totalNodes == Setting(argv, stoi, NodesFlag, 1, i)
    {
      var arg := argv[i];
      if arg == NodeIdFlag && i + 1 < |argv| {
        var v := stoi(argv[i + 1]);
        if v.None? {
          FirstFailureIs(argv, stoi, i);
          return Aborted(i);
        }
        nodeId := v.value;
      } else if arg == NodesFlag && i + 1 < |argv| {
        var v := stoi(argv[i + 1]);
        if v.None? {
          FirstFailureIs(argv, stoi, i);
          return Aborted(i);
        }
        totalNodes := v.value;
      }
      i := i + 1;
    }
    assert FirstFailureBelow(argv, stoi, |argv|).None?;
    assert LastFlagBelow(argv, NodeIdFlag, |argv|) == LastFlagBelow(argv, NodeIdFlag, i);
    assert LastFlagBelow(argv, NodesFlag, |argv|) == LastFlagBelow(argv, NodesFlag, i);
    r := Parsed(nodeId, totalNodes);
  }

  /**
   * Without a recognised flag followed by a value the defaults stand:
   * `node_id = 0`, `total_nodes = 1`. A flag in the last position has no
   * value after it and is ignored.
   */
  lemma DefaultsWithoutFlags(argv: seq<string>, stoi: Stoi)
    requires forall p :: 1 <= p < |argv| - 1 ==> !IsFlag(argv[p])
    ensures Expected(argv, stoi) == Parsed(0, 1)
  {
    assert forall p :: !FailsAt(argv, stoi, p);
    assert forall f, p :: IsFlag(f) ==> !FlagAt(argv, f, p);
  }

  /** Two tokens play the same role when, if either is a recognised flag, they are the same token. */
  predicate SameRole(s: string, t: string)
  {
    (IsFlag(s) || IsFlag(t)) ==> s == t
  }

  /**
   * The scan sees only which positions hold which flag and what
   * `std::stoi` makes of each value: `argv[0]` is never acted on, an
   * unrecognised argument can be swapped for any other, and the last
   * token is read only as a value.
   */
  lemma ScanDependsOnlyOnFlagsAndValues(a: seq<string>, b: seq<string>, stoi: Stoi)
    requires |a| == |b|
    requires forall p :: 1 <= p < |a| - 1 ==> SameRole(a[p], b[p])
    requires forall p :: 2 <= p < |a| ==> stoi(a[p]) == stoi(b[p])
    ensures Expected(a, stoi) == Expected(b, stoi)
  {
    assert forall f, p :: IsFlag(f) ==> (FlagAt(a, f, p) <==> FlagAt(b, f, p));
    assert forall p :: FailsAt(a, stoi, p) <==> FailsAt(b, stoi, p);
    assert LastFlagBelow(a, NodeIdFlag, |a|) == LastFlagBelow(b, NodeIdFlag, |b|);
    assert LastFlagBelow(a, NodesFlag, |a|) == LastFlagBelow(b, NodesFlag, |b|);
    assert FirstFailureBelow(a, stoi, |a|) == FirstFailureBelow(b, stoi, |b|);
  }

  /**
   * A flag and value appended after at least the program name decide their
   * setting: the last occurrence wins, and a value `std::stoi` rejects
   * terminates the worker.
   */
  lemma LastOccurrenceWins(argv: seq<string>, stoi: Stoi, flag: string, v: string)
    requires |argv| >= 1 && IsFlag(flag)
    ensures stoi(v).None? ==> Expected(argv + [flag, v], stoi).Aborted?
    ensures Expected(argv + [flag, v], stoi).Parsed? ==>
      && stoi(v).Some?
      && (flag == NodeIdFlag ==> Expected(argv + [flag, v], stoi).nodeId == stoi(v).value)
      && (flag == NodesFlag ==> Expected(argv + [flag, v], stoi).totalNodes == stoi(v).value)
  {
    var a := argv + [flag, v];
    var n := |argv|;
    assert FlagAt(a, flag, n) && a[n + 1] == v;
    assert LastFlagBelow(a, flag, |a|) == Some(n);
    if stoi(v).None? {
      assert FailsAt(a, stoi, n);
    }
  }

  /**
   * The loop steps by one, so a value is examined again as a flag:
   * in `w --node-id --nodes 7` the token `--nodes` is both the value of
   * `--node-id` and a flag whose value is `7`.
   */
  lemma ValueReexaminedAsFlag(stoi: Stoi)
    ensures Expected(["w", "--node-id", "--nodes", "7"], stoi)
      == if stoi("--nodes").None? then Aborted(1)
         else if stoi("7").None? then Aborted(2)
         else Parsed(stoi("--nodes").value, stoi("7").value)
  {
    var a := ["w", "--node-id", "--nodes", "7"];
    assert FlagAt(a, NodeIdFlag, 1) && FlagAt(a, NodesFlag, 2);
    assert !FlagAt(a, NodesFlag, 3) && !FlagAt(a, NodeIdFlag, 3);
    assert !FlagAt(a, NodesFlag, 1) && !FlagAt(a, NodeIdFlag, 2);
    assert LastFlagBelow(a, NodeIdFlag, 4) == Some(1);
    assert LastFlagBelow(a, NodesFlag, 4) == Some(2);
    assert !FailsAt(a, stoi, 0) && !FailsAt(a, stoi, 3);
    assert FailsAt(a, stoi, 1) <==> stoi("--nodes").None?;
    assert FailsAt(a, stoi, 2) <==> stoi("7").None?;
  }
}

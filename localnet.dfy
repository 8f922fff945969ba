/**
 * The localnet bootstrap (`run`) and its already-running guard (`entry`).
 *
 * The filesystem is abstracted to whether `home` exists, the config and key
 * file of each `home/node{i}`, and the PID file as a sequence of lines; the
 * invocations of the node binary are kept as two logs. The external binary
 * and the process table are the oracle functions in `External`.
 */
module Localnet {
  import opened Wrappers
  import opened Decimal
  import opened Config
  import opened PidRegistry

  /** A `testnet` invocation of the node binary (`--validators`, `--shards`). */
  datatype InitCall = InitCall(validators: int, shards: int)

  /** A `run` invocation against `home/node{node}`, with its optional boot node. */
  datatype RunCall = RunCall(node: nat, bootNodes: Option<string>, verbose: bool)

  /** Reading `node0/node_key.json` fails when it is not there. */
  datatype RunError = MissingNodeKey

  /** What `entry` does: exit early with a status, or run the bootstrap. */
  datatype EntryOutcome = Exited(status: int) | Ran(result: Result<nat, RunError>)

  /** The parameters of `run` once prompting is settled. */
  datatype Params = Params(numNodes: int, numShards: int, override: bool, verbose: bool)

  /**
   * What the code outside the model decides: the config and the public key
   * that `testnet` generates for node `i`, the pid of the `i`-th spawned
   * process, and the process name the process table reports for a pid.
   */
  datatype External = External(
    genConfig: nat -> NodeConfig,
    genKey: nat -> string,
    spawnPid: nat -> nat,
    procName: nat -> string)

  /** The abstract filesystem and effect logs at one moment. */
  datatype Snapshot = Snapshot(
    homeExists: bool,
    configs: Configs,
    keys: map<nat, string>,
    inits: seq<InitCall>,
    runs: seq<RunCall>,
    pidFile: seq<string>)

  /** There are no node files without a `home`. */
  predicate WellFormed(s: Snapshot) {
    !s.homeExists ==> s.configs == map[] && s.keys == map[]
  }

  const BOOT_NODE_SUFFIX: string := "@127.0.0.1:24567"

  /** `f'{public_key}@127.0.0.1:24567'` */
  function BootNodes(publicKey: string): string {
    publicKey + BOOT_NODE_SUFFIX
  }

  /** Node 0 is the seed and gets no boot node; every later node boots from it. */
  function BootNodesFor(i: nat, publicKey: string): Option<string> {
    if i > 0 then Some(BootNodes(publicKey)) else None
  }

  /** The files `testnet --validators v` creates: one per index `0 .. v-1`. */
  function Generated<V>(v: int, gen: nat -> V): map<nat, V> {
    map i: nat | i < v :: gen(i)
  }

  /** The first `n` run invocations of the spawn loop. */
  function SpawnCalls(n: nat, publicKey: string, verbose: bool): seq<RunCall> {
    seq(n, (i: int) requires 0 <= i => RunCall(i, BootNodesFor(i, publicKey), verbose))
  }

  /** The first `n` lines the spawn loop writes to the PID file. */
  function PidLines(n: nat, ext: External): seq<string> {
    seq(n, (i: int) requires 0 <= i => PidLine(ext.spawnPid(i), ext.procName(ext.spawnPid(i))))
  }

  /** One more turn of the spawn loop appends one run invocation... */
  lemma SpawnCallsStep(n: nat, publicKey: string, verbose: bool)
    ensures SpawnCalls(n + 1, publicKey, verbose) == SpawnCalls(n, publicKey, verbose) + [RunCall(n, BootNodesFor(n, publicKey), verbose)]
  {
  }

  /** ... and one PID-file line. */
  lemma PidLinesStep(n: nat, ext: External)
    ensures PidLines(n + 1, ext) == PidLines(n, ext) + [PidLine(ext.spawnPid(n), ext.procName(ext.spawnPid(n)))]
  {
  }

  /**
   * Workspace reconciliation: an existing `home` is removed when `override`
   * is set; `testnet` init runs whenever `home` is then absent.
   */
  function Reconciled(s: Snapshot, p: Params, ext: External): Snapshot {
    var s1 := if s.homeExists && p.override then s.(homeExists := false, configs := map[], keys := map[]) else s;
    if s1.homeExists then s1
    else s1.(homeExists := true,
             configs := Generated(p.numNodes, ext.genConfig),
             keys := Generated(p.numNodes, ext.genKey),
             inits := s1.inits + [InitCall(p.numNodes, p.numShards)])
  }

  /** The scan: rewrite `node0 ..` up to the first gap, whose index it returns. */
  function Rewritten(s: Snapshot): (Snapshot, nat) {
    var n := CountNodes(s.configs);
    (s.(configs := RewriteAll(s.configs, n)), n)
  }

  /** The spawn loop over a freshly truncated PID file. */
  function Spawned(s: Snapshot, publicKey: string, n: nat, verbose: bool, ext: External): Snapshot {
    s.(runs := s.runs + SpawnCalls(n, publicKey, verbose), pidFile := PidLines(n, ext))
  }

  /** The whole of `run`: the final state and the node count it spawned, or the error. */
  function RunSpec(s: Snapshot, p: Params, ext: External): (Snapshot, Result<nat, RunError>) {
    var (s2, n) := Rewritten(Reconciled(s, p, ext));
    if 0 !in s2.keys then (s2, Failure(MissingNodeKey))
    else (Spawned(s2, s2.keys[0], n, p.verbose, ext), Success(n))
  }

  /** `entry` after binary acquisition: exit with status 1 if a node is running. */
  function EntrySpec(s: Snapshot, running: bool, p: Params, ext: External): (Snapshot, EntryOutcome) {
    if running then (s, Exited(1))
    else
      var (t, r) := RunSpec(s, p, ext);
      (t, Ran(r))
  }

  // ---------------------------------------------------------------------
  // Properties of `run` and `entry`
  // ---------------------------------------------------------------------

  /** `testnet --validators v` leaves exactly `max(v, 0)` nodes for the scan to find. */
  lemma GeneratedCount(v: int, gen: nat -> NodeConfig)
    ensures CountNodes(Generated(v, gen)) == if v < 0 then 0 else v
  {
    var m := Generated(v, gen);
    var n: nat := if v < 0 then 0 else v;
    assert IsFirstGap(m, n);
    FirstGapUnique(m, n, CountNodes(m));
  }

  /** An existing `home` without `override` is reused: no init, the old configs rewritten. */
  lemma ReconcileReuse(s: Snapshot, p: Params, ext: External)
    requires s.homeExists && !p.override
    ensures Reconciled(s, p, ext) == s
    ensures RunSpec(s, p, ext).0.inits == s.inits
    ensures RunSpec(s, p, ext).0.configs == RewriteAll(s.configs, CountNodes(s.configs))
  {
  }

  /**
   * With `override`, or without a `home`, init runs exactly once with the
   * requested counts, the old workspace is gone and the scan finds exactly
   * the requested number of nodes.
   */
  lemma ReconcileInit(s: Snapshot, p: Params, ext: External)
    requires !s.homeExists || p.override
    ensures Reconciled(s, p, ext).inits == s.inits + [InitCall(p.numNodes, p.numShards)]
    ensures Reconciled(s, p, ext).configs == Generated(p.numNodes, ext.genConfig)
    ensures Reconciled(s, p, ext).keys == Generated(p.numNodes, ext.genKey)
    ensures Rewritten(Reconciled(s, p, ext)).1 == if p.numNodes < 0 then 0 else p.numNodes
  {
    GeneratedCount(p.numNodes, ext.genConfig);
  }

  /**
   * After a freshly initialised workspace, `run` succeeds iff at least one
   * node was requested; with none, reading `node0`'s key fails.
   */
  lemma RunFreshOutcome(s: Snapshot, p: Params, ext: External)
    requires !s.homeExists || p.override
    ensures RunSpec(s, p, ext).1 == if p.numNodes > 0 then Success(p.numNodes) else Failure(MissingNodeKey)
  {
    GeneratedCount(p.numNodes, ext.genConfig);
  }

  /** The spawn loop's invocations: `n` of them, in index order, with the boot-node rule. */
  lemma SpawnedInOrder(s: Snapshot, publicKey: string, n: nat, verbose: bool, ext: External)
    ensures var t := Spawned(s, publicKey, n, verbose, ext);
      var spawned := t.runs[|s.runs|..];
      && |s.runs| <= |t.runs|
      && t.runs == s.runs + spawned
      && |spawned| == n
      && (forall i :: 0 <= i < n ==> spawned[i].node == i && spawned[i].verbose == verbose)
      && (n > 0 ==> spawned[0].bootNodes == None)
      && (forall i :: 0 < i < n ==> spawned[i].bootNodes == Some(publicKey + "@127.0.0.1:24567"))
      && |t.pidFile| == n
  {
    var t := Spawned(s, publicKey, n, verbose, ext);
    assert t.runs[|s.runs|..] == SpawnCalls(n, publicKey, verbose);
  }

  /**
   * A successful run spawned exactly the `n` nodes the scan found, in index
   * order, each later node booting from node 0's public key, and wrote one
   * PID-file line per node.
   */
  lemma RunSpawnsInOrder(s: Snapshot, p: Params, ext: External)
    requires RunSpec(s, p, ext).1.Success?
    ensures var s2 := Rewritten(Reconciled(s, p, ext)).0;
      var n := RunSpec(s, p, ext).1.value;
      && n == CountNodes(Reconciled(s, p, ext).configs)
      && 0 in s2.keys
      && RunSpec(s, p, ext).0 == Spawned(s2, s2.keys[0], n, p.verbose, ext)
    ensures var (t, r) := RunSpec(s, p, ext);
      var n := r.value;
      && 0 in t.keys
      && |s.runs| <= |t.runs|
      && var spawned := t.runs[|s.runs|..];
      && t.runs == s.runs + spawned
      && |spawned| == n
      && (forall i :: 0 <= i < n ==>
            spawned[i] == RunCall(i, if i > 0 then Some(t.keys[0] + "@127.0.0.1:24567") else None, p.verbose))
      && |t.pidFile| == n
  {
    var s2 := Rewritten(Reconciled(s, p, ext)).0;
    var n := RunSpec(s, p, ext).1.value;
    assert s2.runs == s.runs;
    SpawnedInOrder(s2, s2.keys[0], n, p.verbose, ext);
  }

  /** Each PID-file line reads back as the pid spawned for that node and its name. */
  lemma PidLinesParse(n: nat, ext: External, i: nat)
    requires i < n
    ensures ParsePidLine(PidLines(n, ext)[i]) == Some(PidRecord(ext.spawnPid(i), ext.procName(ext.spawnPid(i))))
  {
    PidLineRoundTrip(ext.spawnPid(i), ext.procName(ext.spawnPid(i)));
  }

  /** When the process table hands out distinct pids, the PID-file lines are distinct. */
  lemma PidLinesDistinct(n: nat, ext: External, i: nat, j: nat)
    requires i < n && j < n && i != j
    requires ext.spawnPid(i) != ext.spawnPid(j)
    ensures PidLines(n, ext)[i] != PidLines(n, ext)[j]
  {
    PidLinesParse(n, ext, i);
    PidLinesParse(n, ext, j);
  }

  /** A failed key read happens before the log reset and the spawn loop: no run, PID file untouched. */
  lemma RunMissingKey(s: Snapshot, p: Params, ext: External)
    requires RunSpec(s, p, ext).1.Failure?
    ensures 0 !in Reconciled(s, p, ext).keys
    ensures RunSpec(s, p, ext).0.runs == s.runs
    ensures RunSpec(s, p, ext).0.pidFile == s.pidFile
  {
  }

  /** `run` leaves a well-formed workspace with `home` present. */
  lemma RunWellFormed(s: Snapshot, p: Params, ext: External)
    requires WellFormed(s)
    ensures WellFormed(RunSpec(s, p, ext).0) && RunSpec(s, p, ext).0.homeExists
  {
  }

  /** With a node already running, `entry` exits 1 and nothing changes. */
  lemma EntryAlreadyRunning(s: Snapshot, p: Params, ext: External)
    ensures EntrySpec(s, true, p, ext) == (s, Exited(1))
  {
  }

  /**
   * The boot-node address names port 24567, the network port before the
   * rewrite, while node 0 (the node whose key it carries) was rewritten to
   * listen on 24568.
   */
  lemma BootNodeMissesNode0(c: NodeConfig, publicKey: string)
    ensures BootNodes(publicKey) == publicKey + "@127.0.0.1:" + NatToString(NETWORK_BASE_PORT)
    ensures RewriteConfig(c, 1).networkAddr == LISTEN_HOST + NatToString(NETWORK_BASE_PORT + 1)
    ensures NatToString(NETWORK_BASE_PORT) != NatToString(NETWORK_BASE_PORT + 1)
  {
    assert NatToString(24567) == "24567";
    NatToStringInjective(NETWORK_BASE_PORT, NETWORK_BASE_PORT + 1);
  }

  /**
   * No rewritten node listens for peers on the boot-node port 24567: every
   * node the scan rewrote has moved to `24568 + i`.
   */
  lemma BootNodeReachesNoRewrittenNode(m: Configs, n: nat, i: nat)
    requires i in m && i < n
    ensures ParseListenAddr(RewriteAll(m, n)[i].networkAddr) != Some(NETWORK_BASE_PORT)
  {
    RewriteAllAt(m, n, i);
    RewriteConfigPorts(m[i], i + 1);
  }

  /** Node `i` has a config listening for RPC on `3031 + i` and for peers on `24568 + i`. */
  predicate ListensAtIndexPorts(m: Configs, i: nat) {
    && i in m
    && ParseListenAddr(m[i].rpcAddr) == Some(3031 + i)
    && ParseListenAddr(m[i].networkAddr) == Some(24568 + i)
  }

  /**
   * Four nodes and one shard on a fresh machine: one init with
   * `validators=4 shards=1`, RPC ports 3031..3034 and network ports
   * 24568..24571, four run invocations and four PID-file lines.
   */
  lemma FourNodeScenario(s: Snapshot, ext: External)
    requires !s.homeExists && s.inits == [] && s.runs == []
    ensures var (t, r) := RunSpec(s, Params(4, 1, false, true), ext);
      && r == Success(4)
      && t.inits == [InitCall(4, 1)]
      && (forall i: nat :: i < 4 ==> ListensAtIndexPorts(t.configs, i))
      && |t.runs| == 4
      && (forall i :: 0 <= i < 4 ==> t.runs[i].node == i)
      && t.runs[0].bootNodes == None
      && 0 in t.keys
      && (forall i :: 0 < i < 4 ==> t.runs[i].bootNodes == Some(t.keys[0] + "@127.0.0.1:24567"))
      && |t.pidFile| == 4
  {
    var p := Params(4, 1, false, true);
    var s1 := Reconciled(s, p, ext);
    ReconcileInit(s, p, ext);
    RunFreshOutcome(s, p, ext);
    var (t, r) := RunSpec(s, p, ext);
    assert 0 in s1.keys;
    var s2 := Rewritten(s1).0;
    assert t == Spawned(s2, s2.keys[0], 4, p.verbose, ext);
    SpawnedInOrder(s2, s2.keys[0], 4, p.verbose, ext);
    var rewritten := RewriteAll(s1.configs, 4);
    assert t.configs == rewritten;
    forall i: nat | i < 4
      ensures ListensAtIndexPorts(rewritten, i)
    {
      RewriteAllAt(s1.configs, 4, i);
      RewriteConfigPorts(s1.configs[i], i + 1);
    }
  }

  // ---------------------------------------------------------------------
  // The imperative model
  // ---------------------------------------------------------------------

  /** The machine `run` acts on: the workspace under `home`, the binary's invocations, the PID file. */
  class Host {
    var homeExists: bool
    var configs: Configs
    var keys: map<nat, string>
    var inits: seq<InitCall>
    var runs: seq<RunCall>
    var pidFile: seq<string>

    function State(): Snapshot
      reads this
    {
      Snapshot(homeExists, configs, keys, inits, runs, pidFile)
    }

    ghost predicate Valid()
      reads this
    {
      WellFormed(State())
    }

    constructor (s: Snapshot)
      requires WellFormed(s)
      ensures Valid() && State() == s
    {
      homeExists, configs, keys := s.homeExists, s.configs, s.keys;
      inits, runs, pidFile := s.inits, s.runs, s.pidFile;
    }

    /** `shutil.rmtree(home)` */
    method RemoveHome()
      modifies this
      ensures Valid()
      ensures State() == old(State()).(homeExists := false, configs := map[], keys := map[])
    {
      homeExists, configs, keys := false, map[], map[];
    }

    /** `run_binary(..., 'testnet', shards=..., validators=...).wait()` */
    method InitTestnet(validators: int, shards: int, ext: External)
      modifies this
      ensures Valid()
      ensures State() == old(State()).(homeExists := true,
                                       configs := Generated(validators, ext.genConfig),
                                       keys := Generated(validators, ext.genKey),
                                       inits := old(inits) + [InitCall(validators, shards)])
    {
      homeExists := true;
      configs := Generated(validators, ext.genConfig);
      keys := Generated(validators, ext.genKey);
      inits := inits + [InitCall(validators, shards)];
    }

    /** Workspace reconciliation and init. */
    method Reconcile(p: Params, ext: External)
      requires Valid()
      modifies this
      ensures Valid()
      ensures State() == Reconciled(old(State()), p, ext)
    {
      if homeExists {
        if p.override {
          RemoveHome();
        }
      }
      if !homeExists {
        InitTestnet(p.numNodes, p.numShards, ext);
      }
    }

    /** The scan-and-rewrite loop; returns the new node count. */
    method RewriteConfigs() returns (numNodes: nat)
      requires Valid()
      modifies this
      ensures Valid()
      ensures IsFirstGap(old(configs), numNodes)
      ensures (State(), numNodes) == Rewritten(old(State()))
    {
      numNodes := 0;
      assert forall k :: k in configs ==> k < KeyBound(old(configs));
      while numNodes in configs
        invariant configs.Keys == old(configs).Keys
        invariant forall j: nat :: j < numNodes ==> j in old(configs)
        invariant configs == RewriteAll(old(configs), numNodes)
        invariant homeExists == old(homeExists) && keys == old(keys)
        invariant inits == old(inits) && runs == old(runs) && pidFile == old(pidFile)
        invariant numNodes <= KeyBound(old(configs))
        decreases KeyBound(old(configs)) - numNodes
      {
        RewriteAllBeyond(old(configs), numNodes, numNodes);
        RewriteAllStep(old(configs), numNodes);
        var node := numNodes;
        numNodes := numNodes + 1;
        configs := configs[node := RewriteConfig(configs[node], numNodes)];
      }
      FirstGapUnique(old(configs), numNodes, CountNodes(old(configs)));
    }

    /** Read `public_key` from `node0/node_key.json`. */
    method ReadPublicKey() returns (r: Result<string, RunError>)
      ensures r.Success? <==> 0 in keys
      ensures r.Success? ==> r.value == keys[0]
      ensures r.Failure? ==> r.error == MissingNodeKey
    {
      if 0 in keys {
        r := Success(keys[0]);
      } else {
        r := Failure(MissingNodeKey);
      }
    }

    /** Truncate the PID file, then spawn node 0 .. numNodes-1 and record each. */
    method SpawnAll(publicKey: string, numNodes: nat, verbose: bool, ext: External)
      requires Valid()
      modifies this
      ensures Valid()
      ensures State() == Spawned(old(State()), publicKey, numNodes, verbose, ext)
    {
      pidFile := [];
      for i := 0 to numNodes
        invariant runs == old(runs) + SpawnCalls(i, publicKey, verbose)
        invariant pidFile == PidLines(i, ext)
        invariant homeExists == old(homeExists) && configs == old(configs) && keys == old(keys)
        invariant inits == old(inits)
      {
        SpawnCallsStep(i, publicKey, verbose);
        PidLinesStep(i, ext);
        var pid := ext.spawnPid(i);
        runs := runs + [RunCall(i, if i > 0 then Some(BootNodes(publicKey)) else None, verbose)];
        pidFile := pidFile + [PidLine(pid, ext.procName(pid))];
      }
    }

    /** `run`: reconcile, rewrite, read the key, spawn. */
    method Run(p: Params, ext: External) returns (r: Result<nat, RunError>)
      requires Valid()
      modifies this
      ensures Valid()
      ensures (State(), r) == RunSpec(old(State()), p, ext)
    {
      Reconcile(p, ext);
      var numNodes := RewriteConfigs();
      var key := ReadPublicKey();
      if key.Failure? {
        return Failure(key.error);
      }
      SpawnAll(key.value, numNodes, p.verbose, ext);
      r := Success(numNodes);
    }

    /** `entry`, from the running check on; `running` is `is_neard_running()`. */
    method Entry(running: bool, p: Params, ext: External) returns (outcome: EntryOutcome)
      requires Valid()
      modifies this
      ensures Valid()
      ensures (State(), outcome) == EntrySpec(old(State()), running, p, ext)
    {
      if running {
        return Exited(1);
      }
      var r := Run(p, ext);
      outcome := Ran(r);
    }
  }
}

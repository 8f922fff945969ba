# nearup localnet bootstrap, modelled in Dafny

This project models `nearup localnet`. The command starts a multi-node NEAR
test network on one machine, in five steps:

1. It reconciles the workspace `home`: an existing one is removed on `--override`.
   The node binary's `testnet` subcommand then initialises it whenever it is absent.
2. It scans `home/node0`, `home/node1`, … up to the first missing `config.json`.
   Node `i` is rewritten to listen for RPC on `0.0.0.0:3031+i` and for peers on `0.0.0.0:24568+i`.
3. It reads node 0's `public_key`.
4. It starts one `neard run` process per node. Every node after node 0 gets `{node 0's public_key}@127.0.0.1:24567` as its boot node.
5. It writes one `pid|proc_name|localnet` line per process to a freshly truncated PID file.

Before any of this, `entry` refuses to start, with exit status 1, when a node is already running.

The state lives in the class `Localnet.Host`:

- the filesystem, abstracted to whether `home` exists, a map from node index to its config record and a map from node index to its public key;
- the log of `testnet` invocations;
- the log of `run` invocations;
- the PID file, as a sequence of lines.

Each step of `run` is a method of `Host`. Each method's `ensures` ties the new
state to a pure function of the old state (`Reconciled`, `Rewritten`,
`Spawned`, and their composition `RunSpec` / `EntrySpec`). The properties
of the bootstrap are lemmas about those functions.

Files:

- `wrappers.dfy`: `Option` and `Result`.
- `decimal.dfy`: decimal rendering of ports and pids (Python's `str(int)`) and its inverse.
- `config.dfy`: the config record, the rewrite of one config, and the scan that finds the node count and rewrites the configs.
- `pid_registry.dfy`: the PID-file line and how it is read back.
- `localnet.dfy`: the effect logs, the pure functions that define `run` and `entry`, their properties, and the `Host` class.

Some properties of the addressing the code sets up:

- The boot-node argument for nodes `i > 0` is `{public_key}@127.0.0.1:24567` (line 89).
  Node 0's rewritten network port is 24568 (line 70), so the boot node names a port node 0 does not listen on (`BootNodeMissesNode0`).
  No rewritten node listens for peers on 24567 at all (`BootNodeReachesNoRewrittenNode`).
- Node 0's RPC port after the rewrite is 3031, but the status hint on line 97 names 3030.
- RPC ports start at 3031 and network ports at 24568, 21537 apart, and neither range is bounded (lines 69-70).
  With at most 21537 nodes no node's RPC address is any node's network address (`RewriteRpcNetworkDisjoint`).
  From 21538 nodes on, node `j + 21537` listens for RPC on node `j`'s network address (`RewriteRpcNetworkCollide`).

## Model

| member | source | states |
|---|---|---|
| `Decimal.NatToString` | nearuplib/localnet.py:69-70 | the port rendered into an address is a non-empty string of decimal digits with no leading zero |
| `Decimal.ParseNatToString` | nearuplib/localnet.py:69-70 | reading a rendered port back as decimal gives the port: no information is lost in `f'{...}'` |
| `Decimal.NatToStringInjective` | nearuplib/localnet.py:69-70 | distinct port numbers render to distinct strings |
| `Config.ListenAddrRoundTrip` | nearuplib/localnet.py:69-70 | a `0.0.0.0:{port}` address reads back as exactly that port |
| `Config.ListenAddrInjective` | nearuplib/localnet.py:69-70 | two listen addresses are equal only when their ports are |
| `Config.ListenAddr` | nearuplib/localnet.py:69-70 | computes the address `0.0.0.0:{port}` the rewrite stores (no ensures; its properties are `ListenAddrRoundTrip` and `ListenAddrInjective`) |
| `Config.RewriteConfig` | nearuplib/localnet.py:68-71 | computes one config with `rpc.addr` set for port `3030+ordinal` and `network.addr` for `24567+ordinal` (no ensures; its properties are `RewriteConfigPorts`, `RewriteConfigIdempotent` and `RewriteConfigDistinct`) |
| `Config.RewriteConfigPorts` | nearuplib/localnet.py:68-71 | rewriting a config for ordinal `k` sets the RPC port to `3030+k` and the network port to `24567+k`; every other field passes through |
| `Config.RewriteConfigIdempotent` | nearuplib/localnet.py:68-71 | rewriting an already rewritten config for the same ordinal changes nothing |
| `Config.RewriteConfigDistinct` | nearuplib/localnet.py:69-70 | configs rewritten for different ordinals never share an RPC or a network address |
| `Config.FirstGapUnique` | nearuplib/localnet.py:61-66 | the scan's stopping index is determined by the workspace: there is only one first gap |
| `Config.KeyBound` | nearuplib/localnet.py:62-65 | every existing node index lies below a bound, so the scan terminates |
| `Config.CountFrom` | nearuplib/localnet.py:62-66 | scanning on from index `k` (with `0..k-1` present) stops at the first index with no config, never before `k` |
| `Config.CountNodes` | nearuplib/localnet.py:61-66 | the node count is the first index `k` with no `node{k}/config.json`, every smaller index having one, whatever count was passed in |
| `Config.CountNodesKeys` | nearuplib/localnet.py:61-66 | the count depends only on which config files exist, not on their contents |
| `Config.RewriteAll` | nearuplib/localnet.py:61-71 | the scan creates and deletes no config file |
| `Config.RewriteAllAt` | nearuplib/localnet.py:66-71 | a node below the count holds its old config rewritten with ordinal index+1 |
| `Config.RewriteAllBeyond` | nearuplib/localnet.py:61-71 | a config at or beyond the count is left unchanged |
| `Config.RewriteAllStepAt` | nearuplib/localnet.py:66-71 | one turn of the loop, at any given node, agrees with the rewrite of a prefix one longer |
| `Config.RewriteAllStep` | nearuplib/localnet.py:66-71 | rewriting node `n` after nodes `0..n-1` gives the rewrite of nodes `0..n` |
| `Config.RewrittenAddresses` | nearuplib/localnet.py:63-71 | after the scan, node `i` has `rpc.addr = "0.0.0.0:" + (3031+i)` and `network.addr = "0.0.0.0:" + (24568+i)` and its other fields unchanged |
| `Config.RewriteLeavesTail` | nearuplib/localnet.py:62-65 | a node beyond the first gap is not touched by the scan |
| `Config.RewriteDistinctPorts` | nearuplib/localnet.py:63-71 | no two rewritten nodes share an RPC address or a network address |
| `Config.RewriteConfigRpcMeetsNetwork` | nearuplib/localnet.py:69-70 | the RPC address rewritten for ordinal `o` equals the network address rewritten for ordinal `o'` exactly when `o = o' + 21537` |
| `Config.RewriteRpcMeetsNetwork` | nearuplib/localnet.py:63-71 | after the scan, node `i`'s RPC address is node `j`'s network address exactly when `i = j + 21537` |
| `Config.RewriteRpcNetworkDisjoint` | nearuplib/localnet.py:63-71 | with at most 21537 nodes, no node's RPC address is any node's network address |
| `Config.RewriteRpcNetworkCollide` | nearuplib/localnet.py:63-71 | with more than 21537 nodes, node 21537's RPC address is node 0's network address |
| `Config.RewriteIdempotent` | nearuplib/localnet.py:61-71 | scanning an already rewritten workspace finds the same count and leaves every config as it is |
| `PidRegistry.PidLine` | nearuplib/localnet.py:93 | computes the line `{pid}|{proc_name}|localnet` (no ensures; its properties are `PidLineRoundTrip` and `PidLineInjective`) |
| `PidRegistry.IndexOf` | nearuplib/localnet.py:93 | the position found is the first separator of the line, or its end when there is none |
| `PidRegistry.PidLineRoundTrip` | nearuplib/localnet.py:92-93 | a `pid|proc_name|localnet` line reads back as that pid and that process name |
| `PidRegistry.PidLineInjective` | nearuplib/localnet.py:92-93 | different (pid, name) records give different lines |
| `Localnet.BootNodes` | nearuplib/localnet.py:89 | computes the boot-node argument `{public_key}@127.0.0.1:24567` (no ensures; see `BootNodeMissesNode0`) |
| `Localnet.BootNodesFor` | nearuplib/localnet.py:83-89 | computes node `i`'s boot-node argument: none for node 0, `BootNodes` of node 0's key for every later node (no ensures; see `SpawnedInOrder`) |
| `Localnet.Generated` | nearuplib/localnet.py:53-58 | computes the files `testnet --validators v` creates: one per index `0..v-1` (no ensures; see `GeneratedCount`) |
| `Localnet.SpawnCalls` | nearuplib/localnet.py:82-91 | computes the first `n` `run` invocations of the spawn loop (no ensures; see `SpawnCallsStep`) |
| `Localnet.PidLines` | nearuplib/localnet.py:82-93 | computes the first `n` PID-file lines of the spawn loop (no ensures; see `PidLinesStep`, `PidLinesParse`) |
| `Localnet.Reconciled` | nearuplib/localnet.py:17-58 | computes the state after reconciliation: `home` removed on override, then initialised by `testnet` when absent (no ensures; see `ReconcileReuse`, `ReconcileInit`) |
| `Localnet.Rewritten` | nearuplib/localnet.py:61-71 | computes the state after the scan and the count it found (no ensures; see `RewriteAll`, `CountNodes`) |
| `Localnet.Spawned` | nearuplib/localnet.py:82-93 | computes the state after the spawn loop over a truncated PID file (no ensures; see `SpawnedInOrder`) |
| `Localnet.RunSpec` | nearuplib/localnet.py:14-97 | computes the state and result of `run`: reconcile, scan, read node 0's key, spawn (no ensures; see `RunFreshOutcome`, `RunSpawnsInOrder`, `RunMissingKey`, `RunWellFormed`) |
| `Localnet.EntrySpec` | nearuplib/localnet.py:110-113 | computes the state and outcome of `entry`: exit 1 when a node runs, otherwise `run` (no ensures; see `EntryAlreadyRunning`) |
| `Localnet.SpawnCallsStep` | nearuplib/localnet.py:83-91 | one more turn of the spawn loop appends exactly one `run` invocation, for the next node, with the boot-node rule |
| `Localnet.PidLinesStep` | nearuplib/localnet.py:92-93 | one more turn of the spawn loop appends exactly one PID-file line, for the process just spawned |
| `Localnet.GeneratedCount` | nearuplib/localnet.py:53-66 | after `testnet --validators v` the scan finds exactly `max(v, 0)` nodes |
| `Localnet.ReconcileReuse` | nearuplib/localnet.py:17-25 | with `home` present and no override, reconciliation changes nothing, `testnet` is never invoked, and the old configs are the ones rewritten |
| `Localnet.ReconcileInit` | nearuplib/localnet.py:17-58 | with override or no `home`, the old workspace is discarded, `testnet` is invoked exactly once with `validators=num_nodes, shards=num_shards`, and the scan then finds exactly `max(num_nodes, 0)` nodes, the count `testnet` was given on line 57 |
| `Localnet.RunFreshOutcome` | nearuplib/localnet.py:35-75 | after a fresh init, `run` succeeds with `num_nodes` nodes exactly when it is positive; with none, reading `node0`'s key fails |
| `Localnet.SpawnedInOrder` | nearuplib/localnet.py:82-93 | the spawn loop appends exactly `n` `run` invocations for `node0..node{n-1}` in increasing order: node 0 without a boot node, each later node with `public_key@127.0.0.1:24567`; the PID file holds exactly `n` lines |
| `Localnet.RunSpawnsInOrder` | nearuplib/localnet.py:61-93 | a successful run spawns the count `n` the scan found, with node 0's public key: the run log keeps its old entries and gains exactly `n` invocations, entry `i` being `run` for node `i` with no boot node for node 0 and `{node 0's key}@127.0.0.1:24567` for every later node, and the PID file holds `n` lines |
| `Localnet.PidLinesParse` | nearuplib/localnet.py:92-93 | line `i` of the PID file reads back as the pid of the `i`-th spawned process and its process name |
| `Localnet.PidLinesDistinct` | nearuplib/localnet.py:92-93 | when the spawned processes have distinct pids, the PID file has no repeated line |
| `Localnet.RunMissingKey` | nearuplib/localnet.py:74-82 | `run` fails only when `node0`'s key is absent, and then no process is spawned and the PID file is not truncated |
| `Localnet.RunWellFormed` | nearuplib/localnet.py:17-58 | after `run`, `home` exists and no node file exists outside it |
| `Localnet.EntryAlreadyRunning` | nearuplib/localnet.py:110-113 | with a node already running, `entry` exits with status 1 and nothing in the workspace or the logs changes |
| `Localnet.BootNodeReachesNoRewrittenNode` | nearuplib/localnet.py:70-89 | no node the scan rewrote listens for peers on the boot-node port 24567 |
| `Localnet.BootNodeMissesNode0` | nearuplib/localnet.py:70-89 | the boot-node port is 24567, the un-rewritten network port, while node 0 listens on 24568, a different port |
| `Localnet.FourNodeScenario` | nearuplib/localnet.py:14-93 | four nodes and one shard on a fresh machine: one init with `validators=4 shards=1`, RPC ports 3031..3034 and network ports 24568..24571, four run invocations for nodes 0..3 in order, node 0 without a boot node and nodes 1-3 with `{node 0's key}@127.0.0.1:24567`, and four PID-file lines |
| `Localnet.Host.constructor` | nearuplib/localnet.py:14-15 | a host starts in any well-formed filesystem state |
| `Localnet.Host.RemoveHome` | nearuplib/localnet.py:23-25 | `shutil.rmtree(home)` removes `home` and every node file, and touches no log |
| `Localnet.Host.InitTestnet` | nearuplib/localnet.py:53-58 | `testnet` creates `home` with configs and keys for nodes `0..validators-1` and is recorded once in the init log |
| `Localnet.Host.Reconcile` | nearuplib/localnet.py:17-58 | the new state is `Reconciled` of the old one |
| `Localnet.Host.RewriteConfigs` | nearuplib/localnet.py:61-71 | the loop returns the first gap and leaves the workspace as `RewriteAll` of the old one, nothing else changed |
| `Localnet.Host.ReadPublicKey` | nearuplib/localnet.py:74-75 | the key read succeeds exactly when `node0`'s key file exists, and returns its `public_key` |
| `Localnet.Host.SpawnAll` | nearuplib/localnet.py:82-93 | the PID file is truncated, then one `run` invocation and one PID line per node are appended in index order |
| `Localnet.Host.Run` | nearuplib/localnet.py:14-97 | the new state and result are `RunSpec` of the old state |
| `Localnet.Host.Entry` | nearuplib/localnet.py:110-113 | the new state and outcome are `EntrySpec`: exit 1 without a change when a node is running, otherwise `run` |

## Left out

- Interactive prompting and banner text (lines 18-22, 26-52): `override`, `num_nodes` and `num_shards` are taken as already settled. The defaults `prompt_flag` would supply (4 nodes, 1 shard) are not modelled, because `prompt_flag` is not part of this model.
- Binary acquisition and path construction in `entry` (lines 101-108): network and filesystem I/O outside the bootstrap.
- `is_neard_running` is a boolean input to `Host.Entry`.
- `run_binary` and `proc_name_from_pid` are not part of this model. Their results are the oracle functions in `External`:
  - the config and public key that `testnet` generates for each node index;
  - the pid of the `i`-th spawned process;
  - the name the process table reports for a pid.
- Localnet.Host.InitTestnet: the model assumes that `testnet --validators v` creates exactly the node directories `0..v-1` and that it succeeds. A failed or partial init, and validation of `validators`/`shards` by the binary, are not modelled.
- Localnet.Host.SpawnAll: a `run_binary` call that raises (a spawn failure leaving some nodes running) is not modelled. Every spawn returns a process.
- JSON parsing and serialisation (lines 68, 71, 74): configs and keys are records, not text.
  - A config missing its `rpc` or `network` object, which would raise, is not modelled.
  - The Python runtime errors on lines 68 (`json.load` of a string) and 74 (`read_text` on a file object) are not modelled: the parse and the key read succeed when the file exists.
- The log-folder reset (lines 78-79) and the per-node output redirection are not modelled. On success they affect only log files.
- Localnet.RunSpec: the filesystem calls `shutil.rmtree(home)` (line 25), `path.write_text` (line 71), `os.mkdir` of the log folder (line 79) and `open(NODE_PID_FILE, 'w')` (line 82) are assumed to succeed. `MissingNodeKey` is the only failure the model has.
  - In the code, a raise at line 79 or 82 ends `run` with the configs already rewritten, no process spawned and the PID file as it was.
  - Line 79 raises, for example, when the log folder's parent is missing, or when the `rmtree(..., ignore_errors=True)` of line 78 left the folder in place.
  - A raise at line 25 or 71 would end `run` part-way through removing `home` or rewriting the configs.
- Logging (lines 24, 95-97) is not modelled.
- `verbose` is recorded in each `run` invocation. `print_command` is not recorded, because it depends only on the interactive flag.
- Detached process lifetime, and races between concurrent invocations on the same `home` or PID file, are not modelled. They concern the OS, not the sequential bootstrap.
- Paths: node directories are identified by their index, and `home` by a flag. Path strings are not modelled.

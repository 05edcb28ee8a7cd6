# NextPanel: Dafny models of its protocols and algorithms

NextPanel deploys proxy services over SSH, deletes them durably, counts their
traffic, measures CDN addresses and exchanges share links. This project models
the parts of it that are protocols or algorithms and proves what they keep.
SSH, SQL, HTTP and timers are commands that may fail: before their effect, or
after it, with the reply lost. Nothing was executed.

`dafny verify dfyconfig.toml` verifies everything.

| files | subject |
|---|---|
| `common`, `text`, `sorting` | Option, Result; string helpers of JavaScript; a stable sort |
| `host`, `cert`, `deploy`, `update` | transactional deployment and update of a node |
| `cleanup` | durable deletion: tasks, leases, final sweep, beside creation, deployment and removal |
| `locks` | sorted advisory locks, one call and many callers |
| `ports` | port allocation, stats ports, claims |
| `usage`, `usageconfig` | traffic accounting; reconciliation of per-credential users |
| `agent`, `rate` | the agent's rotating choice of nodes; network rates |
| `ranking`, `observations`, `voting`, `variants` | CDN candidates: ranking, probe summaries, regional vote, exported endpoints |
| `sse` | the incremental event-stream reader |
| `identified`, `cforigin` | lists told apart by an id; Cloudflare rules and record of a mapped origin |
| `utf8`, `percent`, `base64`, `shareuri` | share URIs and the codecs below them |

Objects whose methods change fields are classes here: `Host`, `CertUpdate`,
`Deployment`, `Panel`, `Lifecycle`, `Session`, `UsageService`, `Provisioner`,
`NetworkRateTracker`, `OriginApi`, `OriginService`. Most keep their fields in one
datatype value, which the methods reassign; loops of the source are loops here.
Protocols with several participants are step relations; theorems about them
speak of every run. The methods of `Lifecycle` do nothing but steps of its
relation, with arbitrary steps of other participants wherever they wait.

## What does not hold, and when it does

* A deployment that fails without reporting a failed rollback keeps exactly the
  rules whose replies were lost, or whose command failed after the rule and before
  its marker, and the manifest if its reply was lost; a service that no probe saw
  running stays stopped. `RunWithMishap` has a run for each: on a host
  on which nothing else goes wrong, it says exactly when the deployment fails and
  what stays.
* An update reported as restored has restored its hosts unless the deployment
  succeeded, or its rollback failed, and the release of its locks threw, which hides
  that (`MisreportedIff`, `SuccessIsHidden`). Only updates that deploy by themselves
  are reported so.
* The row can keep the id of a DNS record that was deleted exactly when the update
  needs a fresh record (`CanDangleIff`); it does when the record is made, the row
  update is committed although it throws, and the cleanup succeeds (`DanglesIff`).
* `update` takes a core lock while it holds a port lock, against the key order;
  together with the final sweep this is a deadlock that only the lock timeout
  ends (`UpdateCanDeadlock`). Calls that respect the order never deadlock.
* A cleanup task leaves DONE exactly by the report of a worker that takes it for
  unfinished (`LeavesDoneIff`): one that outlived its locks (`StaleWorkerReopens`),
  or, with all locks held, the one that wrote DONE itself and had no answer
  (`UnansweredReopens`). While no lock is lost it can be reopened exactly as long as
  such a worker is in flight (`CanReopenIff`). In between, the sweep can drop the
  server that caused the task (`ReopenedLosesCause`); its host stays.
* Not everything that exists for a removed node has a task. It has one, unfinished,
  exactly unless it was left behind (`TaskOrLeak`); `LeaksIff` lists the steps that
  leave something behind, and nothing answers for it again unless a deletion had
  read the row before its creation was rolled back (`FoundIff`, `LeftForGood`). For
  a deleted row only a record can be missed, exactly if the row as it was read did
  not have it (`RowLeaves`). Two runs leave a record behind: a removal whose cleanup
  of the record fails (`RemovalLeavesRecord`), and a record stored while its node is
  being deleted (`DeletionMissesRecord`).
* After an asynchronous or abandoned edit the stored stats port lags the listen
  port; the next deployment keeps claims apart exactly when no other node claims
  the port it stores (`DeployKeepsIff`, `LaggingStatsCollide`).
* Ranking twice gives the same list within one comparison mode, not across
  (`ModeChangeReorders`).
* The stream reader's result depends on chunk boundaries exactly for texts where
  holding back a carriage return meets the size limit (`CutsDoNotMatterIff`).
* A mapped origin whose rules were removed keeps their ids, so preparing it again
  is refused although `withdraw` announces that a redeployment publishes it again
  (`RemovedIsNotPreparable`). The model follows the code.
* A successful synchronisation is exact exactly if no stranger is left, an own user
  of no unrevoked credential (`VerifiedIsExactIff`). None is left if none was there,
  if the core was restarted or if nothing was swallowed; otherwise a removal that
  removes nothing and still exits with 0 leaves it (`StrangerSurvives`). A
  synchronisation brings in no stranger, unless the reply to the commit is lost after
  a restart and a revoked user is still in the earlier file or process
  (`CommitBringsStranger`).
* A synchronisation that added users but failed to remove others can leave more
  users than it can read again: every half-way state can be taken up exactly if old
  and wanted users together keep within the bound (`RetryConvergesIff`).
* A synchronisation can leave file and manifest apart, and then every later one is
  refused. It does so in exactly four ways (`AttemptPartsIff`): the reply to the move
  is lost; the manifest is written without a reply and the file alone is moved back;
  it is not written and the file cannot be moved back; or the undoing of a restart
  moves the file but not the manifest. Some failures do it exactly if the file
  changes (`CanPartIff`); on a steady node the next attempt converges exactly if the
  last one did not.
* A VLESS UUID comes back exactly if it holds no `#` or `?`; a Shadowsocks method
  exactly if it holds no colon; Trojan reads REALITY as TLS.

## Model

| member | source | states |
|---|---|---|
| RemoteHost.Host.PrepareRollback | apps/server/src/nodes/node-deploy.service.ts:1828-1913 | the rollback point describes the service before, up to probes that misreported; nothing but backups is written |
| RemoteHost.Host.RestoreRollback | apps/server/src/nodes/node-deploy.service.ts:1915-1985 | a believed restore has the earlier files back, enabled and running where they were; one that is not believed keeps a usable point |
| RemoteHost.Host.OpenFirewall | apps/server/src/nodes/node-deploy.service.ts:2406-2477 | an answer tells truly whether the rule is new; a plain throw leaves at most the lost rule |
| RemoteHost.Host.Register | apps/server/src/resources/resource-lifecycle.service.ts:151-169 | the handed-out rollback is the previous manifest; without it nothing changed, or the write was lost |
| CertPush.CertUpdate.Rollback | apps/server/src/common/cert/cert.service.ts:129-165 | true restores exactly the earlier pair; after a failure the same handle can be rolled back again; a committed one changes nothing |
| CertPush.CertUpdate.Push | apps/server/src/common/cert/cert.service.ts:88-272 | at return the installed pair is entirely old or entirely new and matches itself, unless a failed rollback is reported |
| NodeDeploy.Deployment.DeployChainExit | apps/server/src/nodes/node-deploy.service.ts:1301-1471 | the exit service is replaced behind one handle, or the step undoes itself before it throws |
| NodeDeploy.Deployment.RollbackFirewallChanges | apps/server/src/nodes/node-deploy.service.ts:2479-2496 | a full success removes exactly the rules that these changes added, whatever their order |
| NodeDeploy.Deployment.RollbackAll | apps/server/src/nodes/node-deploy.service.ts:621-638 | every handle is used once, certificate before service; without a failed rollback every difference is undone |
| NodeDeploy.Deployment.CommitRemote | apps/server/src/nodes/node-deploy.service.ts:560-598 | after the database commit no step throws; the new pair is committed and no rule still needed is closed |
| NodeDeploy.Deployment.DeployExclusive | apps/server/src/nodes/node-deploy.service.ts:274-660 | for every failure pattern: success is committed and complete on both hosts, and what runs was started from the new files; anything else without rollbackFailed leaves both hosts restored, with no rule left but planned new ones whose opening was not reported; no handle is left |
| NodeDeploy.RunWithMishap | apps/server/src/nodes/node-deploy.service.ts:613-660 | whole runs without a failed rollback on a host with one mishap: exactly when they fail, and which rule, manifest or stopped service stays |
| NodeUpdate.Panel.BeginUpdate | apps/server/src/nodes/nodes.service.ts:276-328 | before deployment: a rejected update changed no row and deleted no record, though a record whose reply was lost may be left; the stored id is a deleted one exactly in the named case |
| NodeUpdate.CanDangleIff | apps/server/src/nodes/nodes.service.ts:297-328 | some failure pattern leaves a deleted record's id in the row exactly if the update needs a fresh record |
| NodeUpdate.DanglesIff | apps/server/src/nodes/nodes.service.ts:297-328 | and the exact pattern that does |
| NodeUpdate.MisreportedIff | apps/server/src/nodes/nodes.service.ts:329-398 | the exact endings under which a deployment that stands, or was not rolled back, is reported as restored |
| NodeUpdate.SuccessIsHidden | apps/server/src/nodes/nodes.service.ts:329-398 | a run that ends so: the new deployment is committed and in place, the row is the earlier one |
| NodeUpdate.Panel.UpdateExclusive | apps/server/src/nodes/nodes.service.ts:196-424 | for every pattern of failures before and after the deployment: the outcome, exactly; the stored record id is a deleted one exactly under the named pattern; an update reported as restored has its row back, and its hosts exactly unless the ending hid how the deployment ended |
| NodeUpdate.Panel.DeployOrCompensate | apps/server/src/nodes/nodes.service.ts:329-398 | success keeps row and records; compensation restores the row and deletes only the fresh record; the outcome is exactly what is made of the deployment's end |
| NodeCleanup.StepKeepsInv | apps/server/src/resources/resource-lifecycle.service.ts:244-297 | every step of creation, deployment, removal, deletion, work, retry and sweep, unanswered writes included, keeps: no node on a server being deleted, every resource answered for, task hosts present, and causes but for reopened tasks |
| NodeCleanup.RunKeepsInv | apps/server/src/nodes/resource-cleanup.scheduler.ts:20-53 | so does every interleaving in which no lock is lost |
| NodeCleanup.RowLeaves | apps/server/src/resources/resource-lifecycle.service.ts:259-295 | what exists for a row that goes has an unfinished task exactly if a deletion had read it, and that misses nothing but a record stored since; a direct removal leaves at most a record |
| NodeCleanup.DoneIsTerminal | apps/server/src/nodes/resource-cleanup.scheduler.ts:32-52 | over every run a finished task that no worker is at stays finished |
| NodeCleanup.CanReopenIff | apps/server/src/nodes/resource-cleanup.scheduler.ts:32-52 | while no lock is lost, a finished task can be reopened exactly as long as the worker whose write was not answered is in flight |
| NodeCleanup.UnansweredReopens | apps/server/src/nodes/resource-cleanup.scheduler.ts:38-52 | from any state with a due task, a run without lost locks in which the worker that finished it reopens it |
| NodeCleanup.ReopenedLosesCause | apps/server/src/nodes/resource-cleanup.scheduler.ts:38-55 | a run in which the sweep drops the causing server in between |
| NodeCleanup.AnsweredReopensNone | apps/server/src/nodes/resource-cleanup.scheduler.ts:38-52 | over every run without an unanswered write nothing is reopened |
| NodeCleanup.DoneStaysClean | apps/server/src/nodes/node-deploy.service.ts:2579-2619 | once a task was finished its resource stays gone, reopened or not |
| NodeCleanup.LeavesDoneIff | apps/server/src/nodes/resource-cleanup.scheduler.ts:41-52 | in any state a step takes a task out of DONE exactly if it is the report of a worker on it that failed or thinks so |
| NodeCleanup.StaleWorkerReopens | apps/server/src/nodes/resource-cleanup.scheduler.ts:32-52 | from any state with a due task, a run with one lost lock that reopens it |
| NodeCleanup.ServerLeaves | apps/server/src/resources/resource-lifecycle.service.ts:335-360 | a server row disappears only by the sweep, with no unfinished task naming it as host, or as cause but for reopened ones, no node and no resource left on it |
| NodeCleanup.TaskOrLeak | apps/server/src/nodes/nodes.service.ts:859-890 | over every run, what exists for a removed node has an unfinished task, or none at all and is a record or of a rolled back creation |
| NodeCleanup.LeaksIff | apps/server/src/nodes/nodes.service.ts:438-464 | the exact steps that leave something behind: made for a row that is gone, still there at a removal or rollback, a record not read by the deletion |
| NodeCleanup.FoundIff | apps/server/src/resources/resource-lifecycle.service.ts:264-290 | it gets a task later exactly by a deletion that read the row before the rollback |
| NodeCleanup.LeftForGood | apps/server/src/nodes/nodes.service.ts:792-802 | otherwise, over every run, neither a row nor a task ever answers for it again |
| NodeCleanup.RemovalLeavesRecord | apps/server/src/nodes/nodes.service.ts:438-464 | from any quiet state, a run of creation and removal that leaves a record behind |
| NodeCleanup.DeletionMissesRecord | apps/server/src/nodes/nodes.service.ts:868-890 | from any quiet state, a run in which a deletion misses a record stored after it read the row |
| NodeCleanup.ComesDue | apps/server/src/nodes/resource-cleanup.scheduler.ts:37-52 | a pending or running task whose locks are free can be taken up by a worker within an hour, its host still registered, and its cause unless it was reopened; a blocked one waits for a retry |
| NodeCleanup.CanFinish | apps/server/src/nodes/resource-cleanup.scheduler.ts:37-52 | so from any such state a run of one attempt finishes it |
| NodeCleanup.BackoffGrows | apps/server/src/nodes/resource-cleanup.scheduler.ts:49 | delays never shrink with attempts and reach the hour at seven |
| NodeCleanup.PushTasks | apps/server/src/resources/resource-lifecycle.service.ts:264-289 | the tasks are exactly what the rows answer for: entry, origin, exit, stand-alone record |
| NodeCleanup.CreateMissing | apps/server/src/resources/resource-lifecycle.service.ts:290 | missing keys are inserted as pending, present ones stay as they are |
| NodeCleanup.Lifecycle.QueueServerDeletion | apps/server/src/resources/resource-lifecycle.service.ts:244-297 | under interference: success leaves the server deleting and without nodes; all it does is a run of the step relation, also when the commit is not answered |
| NodeCleanup.Lifecycle.Attempt | apps/server/src/nodes/resource-cleanup.scheduler.ts:27-53 | finished means done and clean; refused means blocked; failed, or finished without an answer, means pending with its backoff; otherwise nothing happened |
| NodeCleanup.Lifecycle.RetryTask | apps/server/src/resources/resource-lifecycle.service.ts:237-242 | exactly waiting and blocked tasks become due now |
| NodeCleanup.Lifecycle.Tick | apps/server/src/nodes/resource-cleanup.scheduler.ts:18-58 | a second tick does nothing; no finished task that is at rest is touched, whatever else happens |
| LockKeys.OrderedUnique | apps/server/src/common/database/advisory-lock.ts:33 | sorting distinct keys has one result, whatever order they came in |
| AdvisoryLock.Session.WithLocks | apps/server/src/common/database/advisory-lock.ts:28-112 | keys are taken in ascending order and each taken one is given back in reverse on every exit; a value is returned only if the locks were held throughout |
| LockProtocol.RunKeepsInv | apps/server/src/common/database/advisory-lock.ts:65-72 | any number of callers, also nested ones whose inner keys rank above the held ones, keep mutual exclusion |
| LockProtocol.WorkIsExclusive | apps/server/src/common/database/advisory-lock.ts:65-72 | two calls at work under a common key are one call, or one has lost its connection |
| LockProtocol.NoWaitCycle | apps/server/src/common/database/advisory-lock.ts:33-71 | no wait cycle of any length |
| LockProtocol.Progress | apps/server/src/common/database/advisory-lock.ts:56-99 | while any call is in progress some caller can step |
| LockProtocol.UpdateCanDeadlock | apps/server/src/nodes/nodes.service.ts:181-194 | the nested call of an update and the sweep of a deletion do form a wait cycle |
| PortAllocation.StatsFormulas | apps/server/src/nodes/node-deploy.service.ts:2805-2809 | both formulas agree, stay in 1..65535, avoid the listen port and never need the third branch |
| PortAllocation.CollectServerPorts | apps/server/src/nodes/nodes.service.ts:1031-1044 | exactly the ports that some node claims on the server |
| PortAllocation.PickFrom | apps/server/src/nodes/nodes.service.ts:682-746 | the fixed port, or the first usable one of the mapping pool or the preset range; an error exactly if there is none |
| PortAllocation.Panel.AssertPortAvailable | apps/server/src/nodes/nodes.service.ts:748-786 | passes exactly if listen and stats port are claimed by no other node, held by no cleanup and free on the server |
| PortAllocation.Panel.CreateFromPreset | apps/server/src/nodes/nodes.service.ts:102-140 | a created node takes picked, unclaimed ports on entry and exit server; a refusal changes nothing |
| PortAllocation.PortsStayApart | apps/server/src/nodes/nodes.service.ts:661-786 | over every transactional run no port of a server is claimed by two nodes, or by one node twice |
| PortAllocation.NewClaimsNotPending | apps/server/src/resources/resource-lifecycle.service.ts:99-117 | no new claim is a port of an unfinished cleanup task |
| PortAllocation.DeployKeepsIff | apps/server/src/nodes/node-deploy.service.ts:2674-2684 | after any edits a deployment keeps claims apart exactly if no other node claims the stats port it stores |
| PortAllocation.LaggingStatsCollide | apps/server/src/nodes/nodes.service.ts:400-411 | an asynchronous edit, a creation and the late deployment collide |
| UsageAccounting.NeverOvercounts | apps/server/src/usage/usage.service.ts:110-149 | for any world and any delivery of samples, the buckets of a credential never exceed what it carried |
| UsageAccounting.StretchIsExact | apps/server/src/usage/usage.service.ts:113-140 | over an unbroken stretch they grow by exactly what was carried from first to last sample, ignored samples between |
| UsageAccounting.CounterGrowth | apps/server/src/usage/usage.util.ts:25-29 | counters differ by at most what was carried, also across an unnoticed restart, and exactly within one core |
| UsageAccounting.BaselineAddsNothing | apps/server/src/usage/usage.service.ts:119-132 | after a gap, a reset or a pause a sample adds nothing |
| UsageAccounting.UsageService.Ingest | apps/server/src/usage/usage.service.ts:110-149 | a batch is exactly its deliveries in order |
| UsageAccounting.UsageService.SetEnabled | apps/server/src/usage/usage.service.ts:33-53 | a change clears the baselines of the subscription's credentials, a repetition does not |
| UsageProvisioning.SecondRunIsPrepared | apps/server/src/usage/usage-config.ts:14-41 | after one rewriting any further one reports prepared and changes only the listed users |
| UsageProvisioning.UsageConfigIsIdempotent | apps/server/src/usage/usage-config.ts:14-41 | rewriting twice with the same users is rewriting once |
| UsageProvisioning.OthersUntouched | apps/server/src/usage/usage-config.ts:34-40 | the legacy identity, other services, other levels and the rest stay |
| UsageProvisioning.RuntimeUsers | apps/server/src/usage/usage-config.ts:43-56 | accepts exactly lists within the limit with distinct non-empty emails and ids, and returns them |
| UsageProvisioning.Provisioner.Sync | apps/server/src/usage/usage-provisioner.service.ts:36-155 | success: file, manifest and process agree with the credentials, legacy user unchanged; the own users are exact if no stranger was there, the core was restarted or nothing was swallowed; undisturbed, it succeeds exactly on syncable nodes; file and manifest come apart exactly under the named failures, undoing included; on a steady node the next attempt converges exactly otherwise; a file the manifest does not vouch for is refused |
| UsageProvisioning.VerifiedIsExactIff | apps/server/src/usage/usage-provisioner.service.ts:110-118 | what passed verification is exact exactly if it holds no stranger |
| UsageProvisioning.StrangerSurvives | apps/server/src/usage/usage-provisioner.service.ts:102-118 | a success that leaves a stranger |
| UsageProvisioning.RetryConvergesIff | apps/server/src/usage/usage-provisioner.service.ts:82-118 | every half-way state of a reconciliation can be taken up again exactly if old and wanted users keep within the bound |
| UsageProvisioning.CommitBringsStranger | apps/server/src/usage/usage-provisioner.service.ts:119-143 | a run that makes a revoked user a stranger |
| UsageProvisioning.AttemptPartsIff | apps/server/src/usage/usage-provisioner.service.ts:84-143 | the four ways in which an attempt, its undoing included, leaves file and manifest apart |
| UsageProvisioning.CanPartIff | apps/server/src/usage/usage-provisioner.service.ts:84-143 | some failures do so exactly if the attempt would change the file |
| UsageProvisioning.SteadyIsSyncable | apps/server/src/usage/usage-provisioner.service.ts:82-118 | so the next undisturbed retry converges |
| UsageProvisioning.ReconciledIsExact | apps/server/src/usage/usage-provisioner.service.ts:102-118 | an undisturbed reconciliation ends with exactly the unrevoked users, and then passes verification exactly if the legacy user was right |
| UsageProvisioning.RestartedIsExact | apps/server/src/usage/usage-provisioner.service.ts:95-101 | so does a restart from the rewritten file |
| AgentSelection.SelectUsageNodes | apps/agent/usage_stats.go:62-78 | up to twenty eligible nodes are all taken; of more, the window at the cursor, which advances |
| AgentSelection.EveryNodeIsSelected | apps/agent/usage_stats.go:62-78 | from any cursor ceil(N/20) consecutive selections of a stable set visit every node, in whatever order it is listed |
| AgentSelection.NoNodeTwice | apps/agent/usage_stats.go:72-77 | one selection never repeats a node |
| NetworkRate.NetworkRateTracker.Sample | apps/server/src/agent/network-rate.ts:8-25 | in time order the answer is that of a tracker that never forgets |
| NetworkRate.RatesAddUp | apps/server/src/agent/network-rate.ts:17-23 | over rising counters without a long gap, rates times elapsed time add up to the increase |
| NetworkRate.LateAfterPruning | apps/server/src/agent/network-rate.ts:9-16 | out of order, pruning does change the baseline |
| CfRanking.RankCandidates | apps/server/src/subscriptions/cf-optimization.util.ts:116-150 | the loop computes the ranking that the following lemmas speak of |
| CfRanking.RankIsFixedPoint | apps/server/src/subscriptions/cf-optimization.util.ts:116-150 | within one comparison mode ranking its own result gives the same list in the same order |
| CfRanking.LeftOutDoesNotImprove | apps/server/src/subscriptions/cf-optimization.util.ts:132-141 | an eligible address is left out only of a full list whose worst member it does not beat by 20% |
| CfRanking.LeavesOnlyFor | apps/server/src/subscriptions/cf-optimization.util.ts:128-141 | an incumbent leaves only unobserved, failed twice, stale, or for a rival more than 20% better |
| CfRanking.ModeChangeReorders | apps/server/src/subscriptions/cf-optimization.util.ts:118-126 | across modes the ranking is no fixed point |
| CfObservations.UpdateObservations | apps/server/src/subscriptions/cf-optimization.util.ts:97-114 | the loop computes the update that the run lemmas speak of |
| CfObservations.RunKeepsInv | apps/server/src/subscriptions/cf-optimization.service.ts:371-385 | over every run of rounds passed is the capped trailing run of timely successes and failed the failures since the last success |
| CfObservations.NewcomerPassedTwice | apps/server/src/subscriptions/cf-optimization.service.ts:371-381 | a newly published address has two recent successes at most 30 minutes apart |
| CfObservations.LeaverHasCause | apps/server/src/subscriptions/cf-optimization.service.ts:371-381 | a published address leaves by two failures, staleness, eviction or a clearly better rival |
| RegionalVoting.VoteIgnoresOrder | apps/server/src/subscriptions/cf-optimization.util.ts:193-205 | permuting the ballots leaves the ordered addresses unchanged |
| RegionalVoting.ResultIgnoresProfileOrder | apps/server/src/subscriptions/cf-optimization.util.ts:190-207 | permuting the probe rows leaves the whole regional result unchanged |
| RegionalVoting.RegionalCandidates | apps/server/src/subscriptions/cf-optimization.util.ts:190-207 | each region in turn, then the rest; empty results are dropped |
| CfVariants.AutomaticVariants | apps/server/src/subscriptions/cf-optimization.util.ts:152-188 | hosts and names are distinct; every slot's choice and the default address, last and alone marked DNS, are there; a region is named exactly if it alone picked the address |
| CfVariants.ChosenIsFirst | apps/server/src/subscriptions/cf-optimization.util.ts:160-164 | the first usable profile speaks for its slot |
| CfVariants.NamesDiffer | apps/server/src/subscriptions/cf-optimization.util.ts:178-184 | names tell apart any two endpoints of different profiles or positions, whatever titles they carry |
| SseReader.ReadSse | apps/web/src/lib/sse-client.ts:35-69 | clear of the limit a completed stream gives the whole-text parse; no event follows a terminal one |
| SseReader.ChunksDoNotMatter | apps/web/src/lib/sse-client.ts:39-69 | any cutting gives the whole-text result, or the limit result at a hazard |
| SseReader.CutsDoNotMatterIff | apps/web/src/lib/sse-client.ts:44-67 | the exact texts whose result does not depend on the cut |
| SseReader.LimitDependsOnCut | apps/web/src/lib/sse-client.ts:46-67 | a text whose result does |
| CfOrigin.OriginApi.EnsureRule | apps/server/src/cloudflare/cf-origin-api.ts:170-185 | posts only where nothing is owned; undisturbed, it succeeds exactly on a healthy phase; the rules of others are those that others left there, all of them as before if nobody edited meanwhile |
| CfOrigin.OriginApi.VerifyRuleset | apps/server/src/cloudflare/cf-origin-api.ts:187-195 | success means exactly one owned rule, as wanted, with the returned ids |
| CfOrigin.OriginApi.RemoveRule | apps/server/src/cloudflare/cf-origin-api.ts:197-208 | success means no owned rule; undisturbed, it succeeds exactly on a removable phase; a rule with another reference stays |
| CfOrigin.OriginApi.EnsureDns | apps/server/src/cloudflare/cf-origin-api.ts:61-72 | finds or creates the own record, never a second one; undisturbed, it succeeds exactly if the hostname is free or already right; the records of others stay |
| CfOrigin.OriginApi.RemoveDns | apps/server/src/cloudflare/cf-origin-api.ts:81-90 | success means no record of the name; a record with another reference stays |
| CfOrigin.OriginService.Prepare | apps/server/src/cloudflare/cf-origin.service.ts:60-103 | nothing is in the zone before the row says so; success means one rule per phase and one record, all remembered; undisturbed, it succeeds exactly if preparable; rules and records of others stay |
| CfOrigin.OriginService.Remove | apps/server/src/cloudflare/cf-origin.service.ts:126-133 | success means nothing owned is left; owned things never increase; those of others stay; after a failure both phases can still be removed |
| CfOrigin.RetryRemoves | apps/server/src/cloudflare/cf-origin.service.ts:126-133 | whatever a removal did to the owned rules, both phases are removable again |
| CfOrigin.RetryPreparesIff | apps/server/src/cloudflare/cf-origin.service.ts:76-103 | after any failures the next undisturbed attempt depends only on whether others leave the hostname alone |
| CfOrigin.DeleteOwned | apps/server/src/cloudflare/cf-origin-api.ts:245-256 | deleting an owned rule keeps every other rule, in order |
| Utf8.DecodeEncode | apps/server/src/external-nodes/uri-parser.ts:35-43 | every text survives UTF-8 |
| Utf8.EncodeDecode | apps/server/src/nodes/socks-uri.ts:158-181 | accepted bytes are the one encoding of their text |
| Percent.ComponentRoundTrip | apps/server/src/subscriptions/uri-builder.ts:39 | every text survives encodeURIComponent |
| Percent.QueryRoundTrip | apps/server/src/external-nodes/uri-parser.ts:130-132 | every list of names and values survives URLSearchParams |
| Base64.Base64RoundTrip | apps/server/src/external-nodes/uri-parser.ts:35-39 | every byte sequence survives Base64 |
| ShareUri.HostPortRoundTrip | apps/server/src/external-nodes/uri-parser.ts:50-69 | printed hosts and ports are read back, IPv6 addresses without brackets |
| ShareUri.VlessRoundTrip | apps/server/src/external-nodes/uri-parser.ts:123-176 | printed VLESS nodes are read back with transport, security and defaults |
| ShareUri.VlessUuidIff | apps/server/src/subscriptions/uri-builder.ts:77 | the UUID comes back exactly if it holds no mark |
| ShareUri.TrojanRoundTrip | apps/server/src/external-nodes/uri-parser.ts:251-297 | printed Trojan nodes are read back |
| ShareUri.ShadowsocksRoundTrip | apps/server/src/external-nodes/uri-parser.ts:178-231 | printed Shadowsocks nodes are read back, split at the first colon |
| ShareUri.ShadowsocksMethodIff | apps/server/src/external-nodes/uri-parser.ts:195-198 | method and password come back exactly if the method holds no colon |
| ShareUri.Hysteria2RoundTrip | apps/server/src/external-nodes/uri-parser.ts:299-330 | printed Hysteria2 nodes are read back |
| ShareUri.SocksRoundTrip | apps/server/src/nodes/socks-uri.ts:22-156 | printed SOCKS5 nodes are read back exactly within the parser's limits |
| ShareUri.ShareUriRoundTrip | apps/server/src/subscriptions/uri-builder.ts:37-118 | the reader of any share URI gives back what was printed, for every name, password, path and host |

## Left out

- SSH, shell text, systemd, firewall tools, Prisma, HTTP and timers: each is a command with a state effect that may fail.
- Self-signed certificates and the origin's nftables guard: the code does not roll them back on purpose.
- Partial writes inside `finalize`, traffic counters, node status, snapshots and logs.
- Installation of cores, agent metrics, IP and route checks, language models, logins, audit, recommendations, rule caches.
- VMess, HTTP, AnyTLS, TUIC and bare proxy links: VMess is JSON and HTTP goes through the URL library; their reader is a parameter of `ParseUri`. Subscription lists, Clash and sing-box documents.
- Strings are sequences of Unicode scalar values, so lone surrogates do not occur; lengths that the SOCKS reader limits are counted in UTF-16 units.
- `Number()`, address syntax, IDNA names, JSON objects and the repair of malformed UTF-8 are parameters of `ShareUri.Platform`; the only law assumed is that `Number` reads decimal numerals.
- The printers and readers of share URIs, parameter setters included, are functions: no parameter list is shared or updated in place.
- Base64: foreign characters and padding are skipped wherever they stand, which is how canonical and URL-safe text is read; other malformed text may be read differently.
- ShareUri.HostPortRoundTrip: hosts are names or addresses without the characters that delimit a URI authority, possibly in brackets.
- SSE works on characters; UTF-8 decoding, headers and cancellation before the first chunk are left out. The readers of JSON are a parameter.
- Hashes, advisory-lock hashing included, are injective; key order is that of UTF-16 units.
- Locale order of addresses is any strict total order.
- CfRanking.RankCandidates: an observation without a bandwidth counts as zero in the bandwidth mode; the source would compare with an undefined number, which can happen only to an incumbent whose observation was made anew.
- NodeCleanup.RunKeepsInv: assumes that no lock is lost; `StaleWorkerReopens` shows what happens otherwise. Partial cleanup of one resource, host identity and ownership checks are part of a worker's refusal or failure. Servers that share one physical host are distinct.
- NodeCleanup.LeaksIff: the record is the one made at creation; records that an update makes are part of `NodeUpdate`, and a row write that is committed although it throws is left out here.
- NodeCleanup.Lifecycle.Tick: the due tasks and retired servers come as parameters, without the order and limit of the query.
- PortAllocation.PortsStayApart: speaks of claims in the database; sockets of other programs are a parameter of each allocation, and cleanup tasks of other registrations of the same host are not modelled.
- UsageAccounting.NeverOvercounts: assumes that a sample shows the counters of one instant and that the agent's clock does not run backwards against the core's traffic. Rates, activity times and the legacy user's counters are left out.
- UsageProvisioning.Provisioner.Sync: JSON texts are compared as values; the revocation of grants before it and the waiting times of the restart are left out. An exit code of a user command proves nothing, as in the source.
- CfOrigin.OriginService.Prepare: a request that takes effect after it was given up is left out. Others may edit whatever does not carry the reference, at any time.
- CfObservations.RunKeepsInv: the choice of addresses, budgets and the probe protocol come as parameters of a round. Latencies and rates are reals without rounding.
- CfVariants.AutomaticVariants: credentials and the list of all regions on each exported node are copied unchanged and left out.
- NodeUpdate.Panel.UpdateExclusive: credentials, names and validation messages are part of the opaque shape; a legacy edit's background deployment is not part of the call.
- NetworkRate.NetworkRateTracker.Sample: calls come in time order; `LateAfterPruning` shows the difference otherwise.

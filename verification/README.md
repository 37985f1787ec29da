# UniDERP: controller, node and policy protocol

UniDERP distributes device-admission policy from one controller to relay nodes. The controller keeps users,
tailnets, identity snapshots, nodes, grants and bandwidth rules in a database and, for each node, stores a
materialised policy under a revision. A node receives policies over a control stream, stores each one
before acknowledging it, hands it to its relay child, and acknowledges again once the child confirmed it.

This project models that system and proves what it keeps over every run.

How the modules build on each other:

- `Ids`, `Protocol`, `Identity`: identifiers, the published policy with its validation and deadlines, device listings.
- `Tables`, `PolicyView`, `PolicyBuild`: the tables, the policy as one pure function of them, and the loops that build it.
- `AccountTx`, `GrantTx`, `NodeTx`, `Transactions`: each transaction as a function from tables to tables, and one transition relation over all thirty.
- `Store`: the same transactions as code on a working copy of the tables, with rollback; each is proved equal to its function, and to do what that means.
- `Invariants`, `AccountKeeps`, `GrantKeeps`, `NodeKeeps`, `NodeCovers`, `Steps`: every transaction keeps the invariant, including those that rebuild nothing.
- `Meaning`, `Admission`: authority, consent, sessions and admission read off the tables alone, as the reference for everything else.
- `AccountMeans`, `GrantMeans`, `NodeMeans`: what every transaction answers and writes, in those terms.
- `Effects`, `IdentityEffects`, `NodeEffects`: for each table, every way one of its rows can change.
- `Runs`, `AccountRuns`, `GrantRuns`, `IdentityRuns`, `DeadlineRuns`, `NodeRuns`, `Attribution`, `Notices`, `PolicyMeans`: theorems over whole runs from an empty database.
- `Cache`, `CacheRuns`: the node's two cache files under crashes.
- `ControlProtocol`, `NodeAgent`, `Projection`, `Joint`: the protocol across the two machines, the node's code as paths of it, the database's steps as its moves, and both together as one of its runs.
- `Streams`, `WakeUps`, `StreamSteps`, `StreamRuns`: the controller's open streams, the interleaving of commits, notifications and stream handlers, the registry's calls as its moves, and its runs over a run of the database.
- `NodeClient`, `Leaving`, `DerpMap`, `Timing`: the node's registration file, leaving a cluster, the relay map, and clock arithmetic.

What is taken as given:

- A transaction is one atomic step, because the database has a single connection.
- Clock readings are inputs. In the controller they are positive whole Unix seconds and may otherwise go anywhere, also backwards; a transaction reads the clock once. The cache and `Timing` use nanoseconds.
- Random tokens are new; `drawn` in the database records them. Secrets are stored under the secret itself instead of its hash.
- Whether a signature verifies, and whether an encoded policy is under the byte limit, are functions in `Env`.
- The digest of a policy is injective (`Cache.Faithful`), and its JSON encoding loses nothing.
- A device listing reaches a transaction only after `parseIdentity` accepted it, so its keys are distinct.
- The first phase of an enrollment and of a renewal only reads. It therefore has no step of its own, and the second phase may come at any later point with any request.
- A file replacement is atomic. A crash and a reported error differ only in what the program does next.
- The relay child is a process that may be reached or not and answers with a revision.
- The control stream is authentic: a node receives only policies that the controller published for it. In `ControlProtocol` every published policy may reach the node at any time, any number of times, and so may every acknowledgement the controller. One machine holds the node's key; it can hold a registration again only under a later enrollment.

Where a promise turned out to need a condition:

- The owner-group guard in `buildPolicy` cannot fire (`Attribution.OwnerRulesStayHome`), and neither can the region guards of the relay map (`DerpMap.BuildDERPMap`).
- Once the registration is gone from disk and memory, neither a boot nor applied settings start the child over the old snapshot (`Leaving.OldSnapshotGone`). If clearing the registration replaced the file but reported an error, memory still holds the old one. Applied settings may then start the child over the old snapshot (`Leaving.UnseenClearStartsOver`), and a heartbeat or renewal may write the old registration to the file again, so that a later boot does the same (`Leaving.WrittenBackBootsOver`). `Leaving.OldMemoryLoads`, `Leaving.FileIsBound` and `Leaving.BootRunsOver` say exactly when.
- Reloading the configuration and restarting the child do not check the cache. `Leaving.UncheckedStartsOver` shows the child running over the old snapshot after a leave, and `Leaving.RunsOverOldSnapshot` gives the exact condition.
- An enrollment request is on disk before it is sent, except a left-over one that memory holds and the disk does not, after a save that took effect and reported an error (`NodeClient.EnrollmentClient.Enroll`).
- A transaction whose statements succeed can still be rolled back, and `Attribution.RollbackCauses` lists exactly why.
- Ninety seconds are the shortest wait that always prevents a false identity conflict (`Timing.ShorterWaitConflicts`).

## Model

| member | source | states |
|---|---|---|
| Protocol.EffectiveUntil | internal/cluster/protocol.go:58-66 | the result is the greatest time that is at or before the identity deadline and every other deadline that is set |
| Protocol.ValidateQoS | internal/cluster/protocol.go:136-153 | accepts exactly the valid bandwidth policies: budget, weights and ceilings in range, at most 4096 tailnets, no tailnet twice |
| Protocol.CollectKeys | internal/cluster/protocol.go:112-121 | accepts a grant's keys exactly if they are well formed, new, and within the overall limit, and returns the keys seen so far |
| Protocol.ValidateGrants | internal/cluster/protocol.go:100-122 | accepts exactly grants that are valid one by one, with distinct tailnets, grants and keys within the limits |
| Protocol.MatchRules | internal/cluster/protocol.go:123-132 | accepts exactly if the rules name the same tailnets as the grants |
| Protocol.ValidatePolicy | internal/cluster/protocol.go:88-134 | accepts exactly the valid policies: bound to this node, within the limits, distinct tailnets, grants and keys, one rule per tailnet |
| Identity.ReadDevice | internal/control/identity.go:46-72 | one device record is refused exactly if malformed, and kept with its expiry exactly if it is internal, authorised and unexpired |
| Identity.KeptKeysMembers | internal/control/identity.go:46-78 | a key is kept exactly if an internal, authorised device presents it, with the listed expiry still ahead, or with none if expiry is disabled |
| Identity.ParseIdentity | internal/control/identity.go:46-78 | a listing is accepted exactly if no record is malformed and no kept key repeats; the result is the kept keys in order |
| Identity.TallySnapshot | internal/control/identity_store.go:44-51 | one snapshot's keys are tallied so that owners and conflicts describe everything seen so far |
| Identity.ConflictingKeys | internal/control/identity_store.go:41-54 | in every iteration order, returns exactly the keys that two or more tailnets hold |
| PolicyBuild.VisibleKeys | internal/control/policy.go:177-182 | keeps, in order, exactly the keys no other tailnet also holds |
| PolicyBuild.BuildEntry | internal/control/policy.go:166-195 | one grant row gives the entry and rule whose every field the tables give, and is refused exactly for an owner-group rule on a foreign tailnet |
| PolicyBuild.CollectGrants | internal/control/policy.go:151-201 | the row loop yields exactly the entries of the shown tailnets, sorted |
| PolicyBuild.BuildPolicy | internal/control/policy.go:130-237 | building a policy leaves the row unchanged if the content is, otherwise writes the next revision, or fails; the policy in the row says what the tables say: exactly the tailnets to admit, with their deadlines, keys, rules and budget |
| PolicyBuild.RebuildPolicies | internal/control/policy.go:86-111 | building one policy after the other in node order computes the simultaneous rebuild, with the first failure as the error |
| Meaning.Authority | internal/control/auth.go:40-74 | who is known and whom an actor speaks for, from the user table |
| Meaning.Sides | internal/control/grants.go:83-87 | when a node and a tailnet are on, from the tables |
| Meaning.Actions | internal/control/grants.go:177-209 | which side an action belongs to, what a grant counts as now, and which states an action leads from and to |
| Meaning.Sessions | internal/control/nodes.go:541-558 | when a token speaks for a node, from the session, node and user tables |
| Admission.AdmittedIsShown | internal/control/policy.go:144-165 | a tailnet is shown exactly if both sides are on, the grant is active and confirmed, and the tailnet was listed |
| Admission.EntryMeans | internal/control/policy.go:166-182 | an entry has the grant's id and revision, identity deadline last listing plus identity retention, control deadline last heartbeat plus control retention, the grant's deadline, and exactly the keys no other tailnet lists, in order |
| Admission.RuleMeans | internal/control/policy.go:183-195 | a rule entry is the rule set, or group by ownership, weight one and no ceiling |
| Admission.BuiltSays | internal/control/policy.go:130-237 | a built row holds a policy that says what the tables say |
| PolicyMeans.StoredPolicySays | internal/control/policy.go:130-237 | in every state of every run each stored policy lists exactly the tailnets to admit, in order, with every deadline, key, rule and budget the tables give |
| PolicyMeans.AdmissionExactly | internal/cluster/protocol.go:58-66 | in every state of every run a stored policy admits a device at a time exactly if the tailnet is to be admitted, the device is its own, and neither identity retention, control retention, the grant's deadline nor the key's expiry has passed |
| PolicyMeans.PausedIsSilent | internal/control/auth.go:267-300 | in every state of every run nothing of a paused user is relayed: no policy lists their tailnets, their nodes admit nobody and no token speaks for them |
| PolicyMeans.OffTailnetIsUnlisted | internal/control/resources.go:52-76 | a tailnet that is not on is listed by no stored policy |
| PolicyMeans.OffNodeIsEmpty | internal/control/policy.go:150-151 | a node that is not on has a policy that admits nobody |
| PolicyMeans.BodyIsDated | internal/control/policy.go:203-236 | a body that a step writes carries the time of that step |
| Store.Store.constructor | internal/control/store.go:35-72 | an empty database satisfies the invariant |
| Store.Store.Finish | internal/control/policy.go:86-111 | a transaction is rebuilt and committed as a whole, or rolled back, and keeps the invariant |
| Store.Store.CreateUser | internal/control/auth.go:146-179 | by an administrator, or the first user of all as long as there is no administrator; the user has the given role, enabled, and nothing else changes |
| Store.Store.SetUserRole | internal/control/auth.go:100-144 | by an administrator, never to or from administrator, nor to member for a user who owns nodes; only that role changes |
| Store.Store.SetUserEnabled | internal/control/auth.go:267-300 | by an administrator; only that user is switched; once paused, no stored policy lists a tailnet of theirs, their nodes admit nobody and no token speaks for them |
| Store.Store.SetRetentions | internal/control/policy.go:52-84 | by an administrator, in the valid range; both retentions are the ones given and nothing else changes |
| Store.Store.RefreshPolicy | internal/control/policy.go:113-128 | the policy is built again or nothing changes |
| Store.Store.AddTailnet | internal/control/credentials.go:191-237 | for the actor as owner, under an API id not used before; it is enabled with a valid credential and shows the listed keys as of now |
| Store.Store.ReplaceCredential | internal/control/credentials.go:290-337 | by the owner, guarded by the revision read before; the credential is valid under the next revision and the tailnet shows the new keys |
| Store.Store.CommitRefresh | internal/control/identity_store.go:162-197 | only for the version handed out last; a listing replaces the keys, an unreadable source marks the credential and leaves them |
| Store.Store.DeleteCredential | internal/control/credentials.go:374-404 | by the owner; the credential is missing under the next revision and the keys are gone |
| Store.Store.SetTailnetEnabled | internal/control/resources.go:52-76 | by the owner; only that tailnet is switched; once paused no stored policy lists it |
| Store.Store.DeleteTailnet | internal/control/resources.go:78-102 | by the owner; the tailnet and exactly the rows that refer to it go, and no stored policy lists it |
| Store.Store.TransferTailnet | internal/control/credentials.go:339-372 | by an administrator to an enabled user; owner-group rules for it become shared except on nodes of the new owner |
| Store.Store.CreateNode | internal/control/nodes.go:118-159 | by a provider or administrator; pending, with the smallest free region and a code for half an hour |
| Store.Store.IssueEnrollment | internal/control/nodes.go:161-194 | by the owner; a code for half an hour, and a registered node is released first: no session, challenge or consent is left and its policy admits nobody |
| Store.Store.EnrollmentChallenge | internal/control/nodes.go:224-242 | only for an open code and a fitting key; a challenge for two minutes, unless eight are waiting |
| Store.Store.SessionChallenge | internal/control/nodes.go:366-389 | only for a registered node of an enabled owner; a challenge for two minutes, for a new domain if that is pending |
| Store.Store.RecoverInstance | internal/control/nodes.go:485-530 | by the owner of a frozen node; registered under the given instance with a lease of ninety seconds, sessions and challenges dropped |
| Store.Store.Acknowledge | internal/control/control_stream.go:250-341 | under a token in force; a received report moves only that column, an applied one makes the node ready exactly if it is usable and registered otherwise, a failure makes it registered and moves no column |
| Store.Store.ReleaseNode | internal/control/node_self.go:63-81 | under a token in force; nothing of the registration is left but the key, the desired revision and the budget |
| Store.Store.SetNodeEnabled | internal/control/resources.go:104-139 | by the owner, not resumed while a domain is pending; only that node is switched, and a paused node admits nobody |
| Store.Store.DeleteNode | internal/control/resources.go:141-184 | by the owner, paused and if connected up to date; the node and exactly the rows that refer to it go |
| Store.Store.ChangeDomain | internal/control/resources.go:186-245 | by the owner, paused and if connected up to date, to a free domain; the node waits for its proof without session, challenge or code |
| Store.Store.RequestGrant | internal/control/grants.go:89-159 | for the tailnet's owner, both sides on; requested, or active at once with one owner on both sides, as the next revision of an ended grant; a repetition changes nothing |
| Store.Store.ApplyGrantAction | internal/control/grants.go:161-232 | approve, reject and revoke only for the node's owner, confirm, cancel and leave only for the tailnet's; everyone else is forbidden; the grant moves as the action says, one revision on; a repetition changes nothing |
| Store.Store.SetNodeQoS | internal/control/qos.go:50-98 | by the owner; exactly the rules and the budget asked for, each rule for a live grant, rules of other nodes kept |
| Store.Store.EnrollNode | internal/control/nodes.go:294-364 | second phase of an enrollment: the identical request gets its stored session again; otherwise a proven request under an open code binds the node to the key, with one session of an hour and a lease of ninety seconds; its token speaks for the node until then, and the node takes it within thirty seconds of clock skew |
| Store.Store.RenewSession | internal/control/nodes.go:391-483 | a proven renewal gives one session of an hour and a lease of ninety seconds, which the node takes; a proof under another instance's lease freezes the node, ends its session, empties its policy and returns no session |
| Store.Store.NodeHeartbeat | internal/control/policy.go:239-276 | under a token in force the lease is ninety seconds from now and every active grant of the node is confirmed now; the reply carries that lease, the stored desired revision, and the longest interval within half a minute and a third of the control retention |
| Store.Store.BeginRefresh | internal/control/identity_store.go:138-156 | first transaction of a refresh, for an enabled tailnet with a credential: the version returned is the one now stored, one refresh on |
| Store.Store.PublishInto | internal/control/identity_store.go:81-104 | publishing is refused exactly if the clock is behind the last listing; otherwise the tailnet shows these keys as of now under a larger revision, the listing time does not go back, and no other snapshot changes |
| Store.Store.ReleaseInto | internal/control/node_self.go:28-52 | afterwards the node is pending and has no code, session, challenge, stored body or unrevoked grant left, while its key, desired revision and budget and every other node's rows are as before |
| Store.Store.ChallengeInto | internal/control/nodes.go:208-222 | refused exactly if the node has eight challenges that are unexpired and unused; otherwise the new one can be answered and every other challenge that could be is kept |
| Store.Store.LiveKey | internal/control/control_stream.go:305-315 | true exactly if some key of the policy is admitted now |
| Store.Store.FindGrant | internal/control/grants.go:173-176 | finds a grant with the id exactly if there is one |
| Store.Store.ActInto | internal/control/grants.go:177-222 | forbidden exactly unless the actor speaks for the side the action belongs to; takes effect exactly if besides the revision is current, the grant has not lapsed, the action is for its state and consent finds both sides on; it then moves that one grant, one revision on; it changes nothing exactly for a repetition |
| Store.Store.RulesInto | internal/control/qos.go:75-86 | the insert loop is refused exactly if some rule is not allowed, and otherwise writes exactly the new rules |
| Store.ChallengeIsTaken | internal/cluster/node_client.go:282-284 | the node signs a challenge the controller stored for it exactly within the two minutes and less than a minute of clock skew |
| Store.EnrolledSession | internal/cluster/node_client.go:286-289 | the session of an enrollment has the node's lease, its token speaks for the node exactly before the hour is over, and the node takes it exactly from thirty seconds before until then |
| Store.RenewedSession | internal/cluster/node_client.go:286-289 | so has the session of a renewal |
| AccountMeans.CreateUserMeans | internal/control/auth.go:146-179 | who may create whom; the row written; the exact conditions of each error |
| AccountMeans.SetUserRoleMeans | internal/control/auth.go:100-144 | who may change which role; the row written; the exact conditions of each error and of no change |
| AccountMeans.SetUserEnabledMeans | internal/control/auth.go:267-300 | only an administrator; exactly that user is enabled or paused; the exact conditions of each error |
| AccountMeans.SetRetentionsMeans | internal/control/policy.go:52-84 | only an administrator, both retentions positive and small enough for a duration; the exact conditions of each error |
| AccountMeans.AddTailnetMeans | internal/control/credentials.go:191-237 | who may add which; the tailnet, credential and listing written; the exact conditions of each error |
| AccountMeans.ReplaceCredentialMeans | internal/control/credentials.go:290-337 | only the owner at the revision read; the credential and listing written; the exact condition of a conflict |
| AccountMeans.BeginRefreshMeans | internal/control/identity_store.go:138-156 | exactly an enabled tailnet of an enabled owner with a credential gets the next refresh number |
| AccountMeans.CommitRefreshMeans | internal/control/identity_store.go:162-197 | exactly the version handed out last commits, with a clock not before the last listing; what a listing and a failure write |
| AccountMeans.DeleteCredentialMeans | internal/control/credentials.go:374-404 | only the owner; the credential missing and the keys empty under new revisions |
| AccountMeans.SetTailnetEnabledMeans | internal/control/resources.go:52-76 | only the owner; exactly that tailnet is switched to the value given |
| AccountMeans.DeleteTailnetMeans | internal/control/resources.go:78-102 | only the owner; exactly the tailnet and what refers to it goes |
| AccountMeans.TransferTailnetMeans | internal/control/credentials.go:339-372 | only an administrator, to an enabled user; the owner and the demoted rules; the exact conditions of each error |
| GrantMeans.RequestGrantMeans | internal/control/grants.go:89-159 | exactly when a request takes effect, changes nothing, or gets each error; the grant written |
| GrantMeans.ApplyGrantActionMeans | internal/control/grants.go:161-232 | by the grant's id, exactly when an action takes effect, changes nothing, is forbidden or is invalid; the grant written |
| GrantMeans.SetNodeQoSMeans | internal/control/qos.go:50-98 | exactly when a bandwidth edit is taken or gets each error; exactly the rules and budget given are stored |
| NodeMeans.CreateNodeMeans | internal/control/nodes.go:118-159 | exactly when a node is created; the region is the smallest free one; the code lasts half an hour |
| NodeMeans.IssueEnrollmentMeans | internal/control/nodes.go:161-194 | only the owner; the new code, and the release of a registered node table by table |
| NodeMeans.EnrollmentChallengeMeans | internal/control/nodes.go:224-242 | exactly an open code gets a challenge, for two minutes, unless eight are waiting |
| NodeMeans.SessionChallengeMeans | internal/control/nodes.go:366-389 | exactly a registered node of an enabled owner gets one, for the purpose of its state |
| NodeMeans.EnrollNodeMeans | internal/control/nodes.go:294-364 | exactly a proven request under an open code enrolls, exactly a used one with its stored answer is repeated; every row written, with its times |
| NodeMeans.RenewSessionMeans | internal/control/nodes.go:391-483 | exactly a proven challenge in the right state renews; a held lease freezes; every row written, with its times |
| NodeMeans.RecoverInstanceMeans | internal/control/nodes.go:485-530 | only the owner of a frozen node; every row written; the exact conditions of each error |
| NodeMeans.NodeHeartbeatMeans | internal/control/policy.go:239-276 | exactly a token in force; the lease and the confirmed grants written |
| NodeMeans.AcknowledgeMeans | internal/control/control_stream.go:250-341 | exactly which reports are taken; what a received, an applied and a failed report write to the row and the node |
| NodeMeans.ReleaseNodeMeans | internal/control/node_self.go:63-81 | exactly a token in force; nothing of the registration left, the rest kept |
| NodeMeans.SetNodeEnabledMeans | internal/control/resources.go:104-139 | only the owner, not on while a domain is pending; exactly that node is switched to the value given |
| NodeMeans.DeleteNodeMeans | internal/control/resources.go:141-184 | only the owner of a removable node; exactly the node and what refers to it goes |
| NodeMeans.ChangeDomainMeans | internal/control/resources.go:186-245 | exactly when a node may move; every row written; exactly when nothing changes |
| GrantMeans.OneSideIsNotEnough | internal/control/grants.go:177-196 | in every state of every run, the owner of one side alone is forbidden every action of the other side |
| Steps.StepKeepsInv | internal/control/store.go:65 | every committed or aborted transaction keeps references, node and sharing facts, and the materialised view |
| Steps.StatementsKeep | internal/control/resources.go:104-139 | the statements of every transaction leave sound tables and a rebuild set that covers every node whose view may have changed, including those that rebuild nothing |
| Invariants.RebuildEstablishes | internal/control/policy.go:86-111 | rebuilding a covering set makes every stored policy the view of the tables again |
| Invariants.IdleView | internal/control/policy.go:150-151 | a node that does not serve has an empty policy whatever the other tables say |
| Runs.InvAlways | internal/control/migrations.go:60-80 | the invariant holds after every transaction of every run from an empty database |
| Runs.ViewAlways | internal/control/policy.go:130-237 | in every state of every run each registered node has a policy, and each stored policy is the view of the tables at its own revision |
| Runs.RevisionStep | internal/control/policy.go:203-236 | a step raises the desired revision by one exactly if the view changes or the registration is released; otherwise the body is the same |
| Runs.RevisionNamesOneBody | internal/control/policy.go:203-236 | over a run a node's revisions never fall and one revision never names two bodies |
| Runs.GoneStep | internal/control/nodes.go:147 | a deleted node never comes back, and a policy goes only with its node |
| Runs.AckStepOf | internal/control/control_stream.go:250-341 | the acknowledgement columns stay, are cleared by a release, or record an authenticated report |
| Runs.AppliedWasReported | internal/control/control_stream.go:296-322 | behind every positive applied revision is a report of exactly that revision under the present registration |
| Runs.SafeRemoval | internal/control/resources.go:157-172 | a registered node with an open stream is deleted or moved only with an empty policy that it reported applied at exactly the desired revision |
| Effects.GrantsOf | internal/control/grants.go:148-232 | no transaction changes a grant except a request, an action, a heartbeat or a release, each as described |
| Effects.NodesOf | internal/control/nodes.go:391-530 | no transaction changes a node except in one of the ten ways listed, each with its guard |
| Effects.RowsOf | internal/control/control_stream.go:250-341 | no transaction changes a policy row except an acknowledgement, a release or a first enrollment |
| GrantRuns.ActiveIsConsented | internal/control/grants.go:89-232 | in every state of every run an active grant has, since the last release, a request by someone who acts for one owner of both sides, or a request by someone who acts for the tailnet's owner, an approval by someone who acts for the node's owner and a confirmation by someone who acts for the tailnet's owner, as consecutive revisions |
| GrantRuns.ApprovalOf | internal/control/grants.go:161-232 | an approved grant has the request and the authorised approval behind it |
| GrantRuns.RequestOf | internal/control/grants.go:89-159 | a requested grant has the authorised request behind it |
| GrantRuns.GrantRevisionStep | internal/control/grants.go:198-222 | a step leaves state, deadline and id alone or raises the grant's revision by exactly one |
| GrantRuns.GrantRevisionNamesOneState | internal/control/grants.go:133-147 | over a run a grant's revision never falls and names one state and deadline |
| GrantRuns.OneWriterPerRevision | internal/control/grants.go:133-147 | of any requests and actions that expect one revision at most one takes effect |
| GrantRuns.RetryChangesNothing | internal/control/grants.go:198-206 | repeating an action that took effect writes nothing while the grant is otherwise unchanged |
| GrantRuns.TwoMovesSince | internal/control/grants.go:198-222 | two moves of a grant since some state of a run put it at least two revisions on, under the same id |
| GrantRuns.StaleActionNeverLands | internal/control/grants.go:198-209 | over any run, an action prepared at one state of a grant is refused at every later state that two moves separate from it, whoever sends it |
| GrantRuns.StaleRequestNeverLands | internal/control/grants.go:131-141 | over any run, a request prepared at one state of a grant is refused at every later state that two moves separate from it |
| IdentityEffects.IdentityStep | internal/control/identity_store.go:81-104 | no transaction changes a snapshot or credential except as described, and both go only with the tailnet |
| IdentityRuns.VersionStep | internal/control/identity_store.go:146-156 | the pair of credential revision and refresh number never goes back, and each start, replacement and deletion moves it on |
| IdentityRuns.VersionsOrdered | internal/control/identity_store.go:146-156 | the same over a whole run |
| IdentityRuns.RefreshCommitsAlone | internal/control/identity_store.go:167-173 | a refresh in flight commits only if nothing started, replaced or deleted since it began |
| IdentityRuns.StaysRemoved | internal/control/credentials.go:374-404 | after a deletion the credential stays missing and the keys empty until a replacement commits |
| IdentityRuns.ReplacementIsNewer | internal/control/credentials.go:290-337 | a replacement that commits after a deletion read its revision after the deletion |
| DeadlineRuns.DeadlinesKept | internal/control/policy.go:171-182 | between two states with no listing, heartbeat, request, confirmation or retention change, every key in both stored policies has the same deadline |
| DeadlineRuns.IdentityNeverBack | internal/control/identity_store.go:81-96 | the last complete listing of a tailnet never moves back |
| DeadlineRuns.GrantUndisturbed | internal/control/policy.go:249-257 | the control clock and explicit deadline of an active grant move only by a heartbeat, request or confirmation |
| DeadlineRuns.StoredEntry | internal/control/policy.go:166-195 | an entry of a stored policy is the entry of that grant, with the deadlines and keys the tables give |
| Attribution.KeysHaveOneTailnet | internal/control/identity_store.go:41-54 | the policies of all nodes together attribute a key to one tailnet only |
| Attribution.OnlySizeRefuses | internal/cluster/protocol.go:88-134 | a freshly built policy is valid exactly if it is within the count limits |
| Attribution.BuildRefused | internal/control/policy.go:130-237 | a build is refused exactly for the size, the clock, the end of the revision counter or the count limits |
| Attribution.RollbackCauses | internal/control/policy.go:86-111 | a transaction of a run whose statements succeed is rolled back exactly if a policy it rebuilds is refused for one of those reasons, or it edits the bandwidth of, or rebuilds, a node that never enrolled |
| Attribution.OwnerRulesStayHome | internal/control/policy.go:183-193 | no policy is ever built over an owner-group rule on a foreign tailnet |
| NodeRuns.NonceAcceptedOnce | internal/control/nodes.go:244-256 | each nonce is accepted at most once |
| NodeRuns.CodeEnrollsOnce | internal/control/nodes.go:273-364 | one code makes at most one session |
| NodeRuns.ReceiptIsOriginal | internal/control/nodes.go:273-292 | a receipt is only ever the session the identical request was answered with |
| NodeRuns.RetryGetsReceipt | internal/control/nodes.go:273-292 | repeating the request returns that session until the code is re-issued, expires, or the session has ended |
| NodeRuns.FewChallengesAlways | internal/control/nodes.go:208-222 | at most eight challenges per node are ever stored |
| NodeRuns.PublicKeyForever | internal/control/nodes.go:334-337 | a public key once set never changes, across release and re-enrollment |
| NodeRuns.OneLiveInstance | internal/control/nodes.go:258-265 | a node has at most one session, and it is for the recorded instance |
| NodeRuns.InstanceChanges | internal/control/nodes.go:391-483 | the instance changes only by enrollment, release, recovery, or a proven renewal after the lease ended |
| NodeRuns.CloneFreezes | internal/control/nodes.go:439-463 | a second instance that proves the key inside the lease freezes the node |
| NodeRuns.FrozenIsSilent | internal/control/nodes.go:439-463 | a frozen node has no session, authenticates nobody, and publishes an empty policy |
| NodeRuns.ReadyIsUsable | internal/control/control_stream.go:296-322 | a node becomes ready only by reporting, under its live session, that it usably applied the desired revision while that policy admits some key |
| AccountRuns.OneAdminAlways | internal/control/auth.go:90-179 | at most one administrator exists in every state, and no step unmakes one or removes a user |
| NodeRuns.LeavingTheFreeze | internal/control/nodes.go:485-530 | only recovery or a re-issued enrollment by its owner, or deletion, ends the freeze |
| NodeClient.EnrollmentClient.constructor | internal/cluster/node_client.go:86-118 | memory and file agree from the start and nothing was sent |
| NodeClient.EnrollmentClient.Reopen | internal/cluster/node_client.go:106-117 | a new process holds what is on disk |
| NodeClient.EnrollmentClient.SaveRegistration | internal/cluster/node_client.go:200-226 | the file is replaced by what is in memory or stays as it was; a reported error leaves either |
| NodeClient.EnrollmentClient.ClearRegistration | internal/cluster/node_client.go:151-162 | success clears disk and memory and returns the old session; an error keeps memory, while the file may already be cleared |
| NodeClient.EnrollmentClient.AcceptSession | internal/cluster/node_client.go:286-299 | a session is taken exactly if it fits the signed challenge and the save reported success; otherwise memory is as before |
| NodeClient.EnrollmentClient.PreparePending | internal/cluster/node_client.go:322-341 | a request left over for the code is kept unchanged; otherwise exactly a valid challenge is signed, and success means that request is on disk |
| NodeClient.EnrollmentClient.Send | internal/cluster/node_client.go:342-344 | the request is sent, and whether it was the one on disk is recorded |
| NodeClient.EnrollmentClient.Enroll | internal/cluster/node_client.go:312-361 | at most two requests are sent, a left-over one unchanged; a session is bound to the last one sent; the first one sent is on disk exactly if it was not left over or disk and memory agreed on it, and a second one always is |
| NodeClient.EnrollmentClient.RenewSession | internal/cluster/node_client.go:363-394 | a renewal succeeds exactly if the challenge is for this cluster and node and this or a new domain, the session fits it, and the save reported success; the registration then names the same cluster and node, in memory and on disk |
| NodeClient.EnrollmentClient.KeepLease | internal/cluster/client.go:286-298 | a fitting heartbeat answer writes the registration in memory with the new lease to disk, also where disk held something else; an error restores the lease in memory |
| NodeClient.ApartWhileUnseen | internal/cluster/node_client.go:200-226 | over any sequence of writes and new processes, memory and disk differ exactly while the last write that took effect reported an error and was not what memory held |
| Cache.PolicyCache.constructor | internal/cluster/cache.go:39-45 | an empty cache |
| Cache.PolicyCache.SaveAt | internal/cluster/cache.go:98-141 | the save does what the specification says for every end of its two replacements |
| Cache.PolicyCache.LoadAt | internal/cluster/cache.go:143-180 | the load does what the specification says for every end of its replacement |
| Cache.PolicyCache.RemoveAll | internal/cluster/cache.go:18-37 | each file is deleted or not independently, and success means both |
| Cache.PolicyCache.DiscardSnapshot | internal/cluster/client.go:97 | only the snapshot goes |
| CacheRuns.MarkStep | internal/cluster/cache.go:98-180 | a save marks its policy, a load only moves the clock, a removal clears the watermark |
| CacheRuns.LoadReturnsLastSaved | internal/cluster/cache.go:143-180 | a load returns exactly the policy of the last save that took effect, or nothing |
| CacheRuns.LoadExactly | internal/cluster/cache.go:143-180 | in every state of every history a load returns a policy exactly if it is for this cluster and node, was marked last and written last, the clock is at most five seconds behind the latest seen, and a later clock could be recorded |
| CacheRuns.SaveExactly | internal/cluster/cache.go:98-141 | in every state of every history a policy may be saved exactly if it is valid and either the cache is empty, or it is for the same node, newer than or equal to the policy marked last, with a clock at most five seconds behind |
| CacheRuns.SeenClock | internal/cluster/cache.go:124-129 | the clock on the watermark is one that a save or load had |
| CacheRuns.SavesNeverGoBack | internal/cluster/cache.go:121-123 | saves that take effect never go back, through crashes and discards, and one revision is one policy |
| CacheRuns.ClockNeverDrifts | internal/cluster/cache.go:124-129 | every accepted clock is at most five seconds behind every earlier accepted one |
| CacheRuns.ResaveRepairs | internal/cluster/cache.go:136-140 | saving an interrupted policy again repairs the cache |
| CacheRuns.TornLoadsNothing | internal/cluster/cache.go:136-140 | until then nothing loads |
| CacheRuns.DiscardKeepsProtection | internal/daemon/node.go:28-32 | without its snapshot the cache admits exactly the same saves and loads nothing |
| CacheRuns.HalfRemovedFailsClosed | internal/cluster/cache.go:18-37 | a half-finished removal loads nothing, and saves nothing or only what the watermark allows |
| ControlProtocol.MoveKeepsSound | internal/cluster/client.go:195-249 | every step of controller, channel and node keeps the protocol invariant |
| ControlProtocol.OrderAcrossMachines | internal/control/control_stream.go:250-341 | applied, received, the node's watermark and desired are in order while the node holds the current registration |
| ControlProtocol.LoadedWasPublished | internal/cluster/cache.go:143-180 | what the node can load is exactly what was published at that revision |
| ControlProtocol.RecordsAreTrue | internal/cluster/client.go:206-249 | a received record means durable storage, an applied record a matching answer of the relay child |
| ControlProtocol.NoResurrection | internal/cluster/client.go:67-80 | the revisions the relay child is told never decrease until the node leaves |
| ControlProtocol.AppliedIsLastTold | internal/control/resources.go:157-172 | once the desired revision is recorded as applied it is the last revision the relay child was told |
| NodeAgent.Agent.constructor | internal/cluster/client.go:142-150 | the agent starts linked to its cache |
| NodeAgent.Agent.ApplyPolicy | internal/derper/policy.go:90-106 | the policy counts as applied exactly if it could be stored and the child answered with this revision; the child is told only once it is stored; every run is a path of the protocol |
| NodeAgent.Agent.StoreAndAcknowledge | internal/cluster/client.go:195-219 | the policy is stored first, and only then acknowledged as received |
| NodeAgent.Agent.ApplyAndReport | internal/cluster/client.go:220-249 | applied is reported exactly if the child answered with this revision and the first acknowledgement got through |
| NodeAgent.Agent.HandlePolicy | internal/cluster/client.go:180-249 | handling one message is a path of the protocol; exactly which end it comes to, what the child is told, which acknowledgements are sent and which failure is reported |
| NodeAgent.Agent.ApplyCached | internal/cluster/client.go:67-80 | applying the cached policy at start is a path of the protocol and acknowledges nothing |
| NodeAgent.PathKeepsSound | internal/cluster/client.go:142-260 | a path keeps the protocol invariant |
| Projection.StepProjects | internal/control/control_stream.go:250-341 | every database step on a node's row is a move of the protocol |
| Projection.FirstPolicy | internal/control/nodes.go:340-345 | a node's first policy is revision 1 with nothing acknowledged |
| Projection.SessionIsPresent | internal/control/nodes.go:258-265 | a session in force was minted under the present registration |
| Projection.SessionSpeaks | internal/control/nodes.go:258-265 | in every state of every run a stored token speaks for its node exactly before an hour has passed since it was minted, unless the owner is paused |
| Joint.LinkedAlways | internal/control/nodes.go:258-265 | in every interleaving of controller and node, each session in force was minted under the present registration, and every acknowledgement sent carries a token minted for the node |
| Joint.DatabaseRun | internal/control/store.go:65 | the database side of an interleaving is a run of the database |
| Joint.ControllerProjects | internal/control/control_stream.go:250-341 | a transaction, seen from one node, is one step of the policy protocol or none; an acknowledgement that is recorded was sent under the present registration |
| Joint.JointIsProtocolRun | internal/control/control_stream.go:117-341 | from its first policy on, any run of the database interleaved with any run of the node is a run of the policy protocol on the stored row |
| Joint.StoredRowInOrder | internal/control/control_stream.go:250-341 | while the node holds its current registration, the stored applied and received revisions, the mark on the node's disk and the stored desired revision are in order |
| Joint.StoredRecordsAreTrue | internal/cluster/client.go:206-249 | while the node holds its current registration, a received revision in the database is durably on its disk and an applied one was answered by the relay child |
| Joint.ToldNeverFalls | internal/cluster/client.go:67-80 | in every interleaving, the revisions the relay child is told never decrease until the node leaves |
| Joint.LoadedWasStored | internal/cluster/cache.go:143-180 | what the node can load is a body the controller stored for it at that revision |
| Joint.RemovedNodeIsEmpty | internal/control/resources.go:157-172 | when a connected node is deleted or moved while the machine holds its registration, the last policy its relay child was told is the stored one, and it admits nobody |
| Streams.Stream.constructor | internal/control/control_stream.go:143 | a new stream is open and has no signal |
| Streams.Stream.Stop | internal/control/control_stream.go:23-26 | only an open stream is closed |
| Streams.Stream.Take | internal/control/control_stream.go:214 | the signal slot is empty afterwards |
| Streams.Stream.Wake | internal/control/control_stream.go:32-35 | the signal slot is full afterwards |
| Streams.Hub.constructor | internal/control/store.go:66 | no streams |
| Streams.Hub.Register | internal/control/control_stream.go:143-149 | the new stream replaces the node's old one, which is closed; others are untouched |
| Streams.Hub.Unregister | internal/control/control_stream.go:150-156 | a handler takes out only its own stream |
| Streams.Hub.NotifyPolicy | internal/control/control_stream.go:28-37 | exactly that node's signal becomes full |
| Streams.Hub.NotifyPolicies | internal/control/control_stream.go:39-48 | every signal is full |
| Streams.Hub.CloseNodeStream | internal/control/node_self.go:54-61 | the node's stream is closed and removed, others untouched |
| Streams.Hub.Close | internal/control/store.go:74-82 | every stream is closed once and removed |
| WakeUps.StepKeepsGood | internal/control/control_stream.go:117-248 | every interleaved step keeps the stream invariant |
| WakeUps.NoLostWakeUp | internal/control/control_stream.go:208-237 | once owed notifications are delivered, a handler of the registered stream that is at rest sent the committed revision last, and one that is about to send holds it or has a signal waiting |
| WakeUps.SentInOrder | internal/control/control_stream.go:208-237 | revisions on one stream never decrease |
| WakeUps.StoppedOnce | internal/control/control_stream.go:143-149 | a stopped stream is never registered again |
| StreamSteps.Wake | internal/control/control_stream.go:28-37 | waking the node in the registry is the protocol's wake-up of its stream |
| StreamSteps.WakeAll | internal/control/control_stream.go:39-48 | so is waking every node |
| StreamSteps.CloseStream | internal/control/node_self.go:54-61 | closing the node's stream in the registry is the protocol's close |
| StreamSteps.Open | internal/control/control_stream.go:143-149 | registering a stream is the protocol's opening, with the old stream stopped |
| StreamSteps.TakeSignal | internal/control/control_stream.go:214-218 | receiving from the signal slot is the protocol's taking of the signal |
| StreamSteps.Unregister | internal/control/control_stream.go:150-156 | taking a stream out is the protocol's step of an ended handler |
| StreamSteps.OtherNode | internal/control/control_stream.go:28-48 | calls for another node leave this node's streams as they are |
| StreamRuns.TransactionMoves | internal/control/policy.go:239-276 | a transaction of a run, seen from the node's stream, is a commit that owes a wake-up or a close, or nothing; it moves the committed revision as the stored one |
| StreamRuns.StreamsFollowDatabase | internal/control/control_stream.go:117-248 | in every interleaving of transactions and handlers the node's streams make a run of the stream protocol whose committed revision is the one stored |
| StreamRuns.QuietStreamIsCurrent | internal/control/control_stream.go:208-237 | with no notification outstanding, a waiting handler without a signal sent the revision that the database stores for the node last |
| Notices.ChangesAreAnnounced | internal/control/policy.go:239-276 | every committed change of a stored policy wakes or closes that node's stream |
| Notices.EnrollChangesNothing | internal/control/nodes.go:337-345 | enrolling again does not change the view, so it may stay silent |
| Leaving.Daemon.constructor | internal/daemon/node.go:25-40 | a new process has no child and has told nobody where the policy is |
| Leaving.Daemon.PrepareNodePolicy | internal/daemon/node.go:25-40 | what does not load under the registration in memory is discarded, and the policy path is set only if it loads or is gone |
| Leaving.Daemon.SyncDerper | internal/daemon/daemon.go:204-258 | a running child is left alone; a stopped one starts, without a look at the cache, only where the policy path is set |
| Leaving.Daemon.Boot | internal/daemon/daemon.go:152-175 | the registration is read from disk, the child starts only if the check succeeded, and the control loop only with the child |
| Leaving.Daemon.ApplyLocalConfig | internal/daemon/local_config.go:183-235 | control loop and child are stopped first and start again only if the check, under the registration in memory, succeeded |
| Leaving.Daemon.Heartbeat | internal/cluster/client.go:286-298 | a fitting heartbeat answer makes the control loop write the registration it holds to the file |
| Leaving.Daemon.Renew | internal/cluster/node_client.go:363-394 | so does a renewal, which names the same cluster and node |
| Leaving.Daemon.ReloadConfig | internal/daemon/daemon.go:397-460 | reading the configuration again starts a stopped child and leaves cache and registration alone |
| Leaving.Daemon.RestartDerper | internal/daemon/daemon.go:479-500 | the child is stopped and started over the same cache |
| Leaving.Daemon.Leave | internal/daemon/local_cluster.go:50-88 | stop, clear and remove happen in this order, each only after the one before and the removal only where the place of the cache is known, then the configuration is applied; the controller is told of the release only after the registration is gone |
| Leaving.FileIsBound | internal/cluster/client.go:286-298 | after a leave the file names the old registration again exactly if the control loop wrote it back, from a memory that still held it, and nothing has cleared it since |
| Leaving.OldSnapshotGone | internal/daemon/node.go:25-40 | after a leave, whatever crashed, a boot that starts the child finds the old snapshot deleted unless the old registration was written back; so do settings applied once the registration is gone from memory |
| Leaving.BootRunsOver | internal/daemon/daemon.go:152-175 | a boot after a leave runs the child over the old snapshot exactly if the old registration was written back and the snapshot loads under it |
| Leaving.WrittenBackBootsOver | internal/cluster/client.go:286-298 | a concrete input where that happens: the clear replaced the file and reported an error, settings were applied, a heartbeat wrote the lease, and the machine booted |
| Leaving.OldMemoryLoads | internal/daemon/local_config.go:183-235 | applied settings run the child over the old snapshot exactly if it comes up and the snapshot loads under the registration in memory |
| Leaving.UnseenClearStartsOver | internal/cluster/node_client.go:151-162 | a concrete input where that happens: the clear replaced the file and still reported an error |
| Leaving.GoneStaysGone | internal/daemon/node.go:25-40 | once registration and snapshot are gone they stay gone until a new enrollment |
| Leaving.SnapshotLeft | internal/daemon/local_cluster.go:50-70 | with the registration cleared from memory, the old snapshot is on disk exactly if the leave left it and no boot, applied setting or repeated leave deleted it since |
| Leaving.RunsOverOldSnapshot | internal/daemon/daemon.go:397-500 | with the registration cleared, the child runs over the old snapshot exactly if the leaving process is still running and could start a child, nothing deleted the snapshot, and a reload or restart started the child since it was last stopped |
| Leaving.UncheckedStartsOver | internal/daemon/daemon.go:453 | a concrete input where that happens: the deletion failed and the child is started unchecked |
| Leaving.LeaveDeletes | internal/daemon/local_cluster.go:50-70 | the leave itself removes the snapshot exactly if its deletion was reached, the place of the cache was known, and the deletion did not fail |
| DerpMap.Usable | internal/control/derpmap.go:38-49 | true exactly if the policy admits a key of the tailnet now |
| DerpMap.AnyLive | internal/control/derpmap.go:43-48 | true exactly if a key of the grant is admitted now |
| DerpMap.BuildDERPMap | internal/control/derpmap.go:12-60 | on every reachable state the map is built and holds exactly the regions of the nodes that admit the tailnet |
| DerpMap.OfferedIsAdmitted | internal/control/derpmap.go:20-56 | a node whose stored policy admits a key of the tailnet is offered |
| DerpMap.OfferedExactly | internal/control/derpmap.go:12-60 | in every state of every run a node is offered exactly if the tailnet is to be admitted there and has a device of its own whose admission has not run out |
| Timing.LeaseInSeconds | internal/control/nodes.go:467 | truncating after adding the lease equals adding it to whole seconds |
| Timing.WaitPreventsConflict | internal/cluster/client.go:81-86 | if the last lease was granted before the wait began, ninety seconds prevent a false conflict |
| Timing.ShorterWaitConflicts | internal/cluster/client.go:81-86 | no shorter wait does |
| Timing.IntervalFits | internal/control/policy.go:270 | the heartbeat interval is the longest within half a minute and a third of the control retention; the client accepts it, it fits three times into the lease, and nothing overflows |
| Timing.RetentionLimitIsTight | internal/control/policy.go:38-41 | the retention limit is exactly where a duration would overflow |

## Left out

- The relay process itself and its byte scheduler.
- HTTP routing, cookies, login, passwords, TLS, DNS, domain verification and probes; a failed domain verification is an enrollment that never reaches its second phase.
- Cryptography, JSON and YAML encoding, and the schema migrations.
- Audit rows, events, observation reports, traffic figures, node ports, display names and last-error texts: they do not feed the policy.
- Session rows of users: deleting them when a user is paused does not affect policies.
- The rules for account names, passwords, domains and tailnet identifiers: only the outcome of a valid input is modelled.
- The node's reconnect loop, its backoff and its heartbeat timer: `NodeAgent` models what one message or one start does.
- RecoverAdmin and InitializeAdmin beyond the creation of the first administrator.
- The identity worker pool and the generation counter of the relay child: smaller state machines apart from the policy protocol.
- A machine that leaves one node and joins as another: `ControlProtocol` follows one node identity.
- Store.Store.NodeHeartbeat: the observation report that comes with a heartbeat is not modelled, because it feeds no policy.
- Store.Store.EnrollNode: the domain check between the two phases is an outside call and has no step.
- Store.Store.RenewSession: likewise for the domain check of a domain change.
- WakeUps.NoLostWakeUp: says what is outstanding, not that a handler is eventually scheduled; a handler that has ended sends nothing more, and its client opens a new stream, which starts with a read.
- Joint.JointIsProtocolRun: one machine acts for the node, and every acknowledgement the controller accepts for the node is one that machine sent.
- Leaving.Daemon.SyncDerper: whether setup is complete and the node is free of conflict is part of whether the child comes up.

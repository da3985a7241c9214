# Balerix, verified

A Dafny model of the parts of Balerix where a mistake is hard to see: how settings layers become one
agent's settings and what the checks on each layer are worth after the merge; the connections that must survive
cancellation, silence and a stalled peer; the stores and files several callers share; the texts that are written
by one program and read by another; and the limits on bodies and messages.

`dafny verify dfyconfig.toml` checks the whole project.

| file | models |
|---|---|
| `Json.dfy`, `Merge.dfy` | JSON values; the layered merge and what a fold of layers means, path by path |
| `Sandbox.dfy` | the `sandbox` allowlist: the walk that checks a block and collects its grants |
| `Restricted.dfy` | the keys a plugin-applied file may not touch |
| `Names.dfy`, `Fleets.dfy` | names, ids, repositories, branches; the wire spec and the validated fleet |
| `Typing.dfy`, `Resolve.dfy` | the typing of merged settings and whose word each of them is; the resolver: layers, checks before and after the merge, the recheck |
| `Order.dfy`, `KvStore.dfy` | the order of a `BTreeMap`; the key-value store and its range probe |
| `KvUrl.dfy` | a key on its way to the daemon as one URL segment |
| `Backoffs.dfy`, `FleetWatch.dfy` | the fleet watch: reconnecting behind a backoff, cancelled at any await |
| `LinkSession.dfy`, `LinkFrames.dfy` | the sidecar's link: its sessions, and the size of what it sends |
| `AttachInput.dfy` | terminal input queued behind one blocking write |
| `WriteAtomic.dfy` | temp file and rename, by interleaved callers |
| `Shell.dfy`, `Launch.dfy` | quoting, the launch script, and a reader of `sh` and of `env -i` to hold it against |
| `Prompt.dfy` | text typed into an input line, and found again in what comes back |
| `BodyLimit.dfy` | reading and draining over-limit request bodies |

Where the source changes state step by step, the model does too: loops are methods with invariants, objects are
classes, and each is proved against a function or predicate whose own properties are then proved as lemmas. What runs
concurrently (the link, the bridge, the watch, the file writers) is a machine whose runs are arbitrary sequences of events.

Some properties one would expect turned out to hold only under a condition, which is stated exactly:

- two layers may be merged ahead of the rest exactly when a test on them passes (`Merging.MergeFirstIffMayGoFirst`);
- a failed call leaves a temp file behind exactly when a removal of it fails, which happens
  (`AtomicWrites.NothingIsLeftBehind`, `AtomicWrites.AFailedCleanUpLeavesTheFile`);
- the launch script does what the plan says unless the supervisor's own path has a `=`, which `env` takes for a
  setting (`Launching.TheScriptDenotesThePlan`);
- a body that fits is refused when its length hint is loose and over the limit
  (`BodyLimits.WhatTheRouteSees`, `BodyLimits.ALooseBoundRefusesABodyThatFits`);
- a key `.` or `..` escapes its segment, which is why the key is checked first (`KvUrls.TheKeyIsOneSegment`);
- a directory with a colon in its name cannot be put on a PATH (`Launching.MiseCanFindItself`);
- a sent text shaped like a wrapper comes back unwrapped (`Prompts.TheJoinedTextComesBack`).

## Model

| member | source | states |
|---|---|---|
| Merging.MergeByLoops | crates/balerix-config/src/merge.rs:11-35 | the two loops over the base's and the overlay's keys compute the merge |
| Merging.FoldIsTheScan | crates/balerix-config/src/merge.rs:5-42 | what any fold of layers holds at any path (nothing, a stripped leaf, an object) is what the last layer not silent about the path says, a null or a non-object on the way counting as a deletion; and the fold has no null entry |
| Merging.MergeListensToTheOverlay | crates/balerix-config/src/merge.rs:11-35 | one merge holds at a path the overlay's word, else what the stripped base holds |
| Merging.ContentDetermines | crates/balerix-config/src/merge.rs:37-42 | what is held at every path is the whole value, so the scan leaves the fold no freedom |
| Merging.StripIsAProjection | crates/balerix-config/src/merge.rs:44-56 | stripping nulls is idempotent, and the identity on exactly the values without null entries |
| Merging.StrippedIsStripNulls | crates/balerix-config/src/merge.rs:44-56 | what stripping makes of a value, and of no other: the same scalar; lists of the same length, stripped item by item; objects with exactly the non-null entries, each stripped |
| Merging.LeavesAreStrippedValues | crates/balerix-config/src/merge.rs:5-56 | a leaf of a fold is, in that sense, the stripped value of the last layer to say anything of its path |
| Merging.MergeIsClean | crates/balerix-config/src/merge.rs:1-35 | no merge has a null map entry at any depth |
| Merging.MergeTwice | crates/balerix-config/src/merge.rs:10-35 | applying a layer twice is applying it once |
| Merging.MergeWithItself | crates/balerix-config/src/merge.rs:10-35 | a value merged onto itself is the value without nulls |
| Merging.MergeOfStripped | crates/balerix-config/src/merge.rs:10-35 | a base's own nulls never matter |
| Merging.MergeFirstIffMayGoFirst | crates/balerix-config/src/merge.rs:5-35 | the merge is not associative: two layers may be merged ahead of every base if and only if a test on the two alone passes (no delete marker in a key only one has, none in the upper for a shared key, an upper object only over a lower one) |
| Merging.MergeFirstIffNothingForgotten | crates/balerix-config/src/merge.rs:5-6 | the same, path by path: if and only if their merge still says absent wherever the two do |
| Merging.SilenceReachesDown | crates/balerix-config/src/merge.rs:11-35 | a layer silent about a path is silent about everything beneath it |
| Sandboxes.CheckSandboxBlock | crates/balerix-core/src/sandbox.rs:187-205 | accepts exactly the blocks within the policy's allowlist, and returns every grant of every list, `platform_overrides` included, each once, and no other; the grant's path is the names its text spells, and not under `/proc` or `/dev/fd` |
| Sandboxes.CheckBlock | crates/balerix-core/src/sandbox.rs:187-255 | the same walk for any allowlists |
| Sandboxes.Walk.Filesystem | crates/balerix-core/src/sandbox.rs:293-320 | accepts exactly a good section and pushes its grants, in order, behind those it has |
| Sandboxes.Walk.Block | crates/balerix-core/src/sandbox.rs:228-255 | the same for a whole block |
| Sandboxes.CollectedIsWhatIsGranted | crates/balerix-core/src/sandbox.rs:228-320 | the collected grants are those the block's lists hand out, once each |
| Sandboxes.MergedBlockIsOk | crates/balerix-core/src/sandbox.rs:187-320 | two accepted blocks merge to an accepted one |
| Sandboxes.MergedGrantsAreTheirs | crates/balerix-core/src/sandbox.rs:293-320 | every grant of a merge is a grant of one of the two blocks |
| Sandboxes.PluginBlockIsFleetBlock | crates/balerix-core/src/sandbox.rs:39-47 | a block accepted for a plugin is accepted for a fleet, with the same grants, none of them a socket |
| Sandboxes.ComponentsAreSpelled | crates/balerix-core/src/sandbox.rs:334-365 | a path's components are the names it spells, read segment by segment with empty ones and `.` passed over, and it spells no others |
| Sandboxes.PlainPathsAreTheirNames | crates/balerix-core/src/sandbox.rs:334-365 | the components of the plain spelling of any names are those names |
| Sandboxes.SpellingsAreOne | crates/balerix-core/src/sandbox.rs:334-365 | `//` for `/`, `/./` for `/` and a trailing `/` change no path's components |
| Sandboxes.LiteralPathsStayOut | crates/balerix-core/src/sandbox.rs:334-365 | no accepted text names `/proc`, `/dev/fd` or anything beneath them, however it is spelled; it is absolute, without `..`, `$` or glob characters; and every such text is accepted |
| Sandboxes.AcceptedEntriesStayOut | crates/balerix-core/src/sandbox.rs:293-365 | so with every entry of every list of an accepted block, whichever of the two shapes it has |
| Sandboxes.GrantsArePlain | crates/balerix-core/src/sandbox.rs:293-320 | a grant of an accepted block is of an entry that is there, and its path is what the entry spells |
| Sandboxes.TheLists | crates/balerix-core/src/sandbox.rs:39-136 | which lists a `filesystem` section may have under each policy, and what each hands out |
| Sandboxes.TheNetworkSection | crates/balerix-core/src/sandbox.rs:275-292 | which keys a `network` section may have; its domains are a list of texts |
| Sandboxes.TheSecuritySection | crates/balerix-core/src/sandbox.rs:257-274 | a `security` section says nothing but the one mode allowed |
| Restrictions.CheckKeyIffSpoken | crates/balerix-config/src/restricted.rs:35-58 | walking down a key finds it, or an ancestor that is not a mapping, exactly when the layer is not silent about it |
| Restrictions.AcceptedIffSilent | crates/balerix-config/src/restricted.rs:17-58 | a layer passes exactly when it is silent about all seven refused paths |
| Restrictions.WhatAFileMayNotSay | crates/balerix-config/src/restricted.rs:17-58 | and those seven are the binary and the arguments, the environment and the sandbox, and of the program's settings its environment, its key helper and its hook switch |
| Restrictions.RefusedKeysComeFromBelow | crates/balerix-config/src/restricted.rs:1-58 | whatever accepted layers say, the merged value at a refused path is the one the layers beneath give |
| Resolution.CheckedLayersMergeToACheckedBlock | crates/balerix-config/src/validate.rs:98-115 | if every layer's stripped block is accepted, the merged block is, and each of its grants is some layer's |
| Resolution.ResolvedSandboxIsOk | crates/balerix-config/src/resolve.rs:65-125 | every resolved agent's block is within the allowlist and grants only what a layer granted |
| Resolution.TheRecheckIsOfNamesAndRepos | crates/balerix-config/src/resolve.rs:138-144 | the final conversion refuses only for names, repositories, refs and identities: never for a version, branch or sandbox block that resolution let through |
| Resolution.SettingsAreTheFirstWord | crates/balerix-config/src/resolve.rs:94-125 | every setting of a resolved agent (binary, arguments, program settings, resume, sandbox, tools, environment, runner, plugins under either name, branch) holds what the first of its own layer, its crew's defaults, the file's defaults, the operator's layer and the host's settings to speak of it says, else its default |
| Resolution.ResolvedIsAResolution | crates/balerix-config/src/resolve.rs:43-145 | the resolved fleet has the overriding or the file's name, the file's tools and all its crews and agents, with each crew's own repository, ref, git settings and tools, and each agent's settings as just said |
| Resolution.WhatIsOwnedIsNotSet | crates/balerix-config/src/validate.rs:26-96 | an agent resolves only if the first word on its hooks and on each of balerix's own variables is none at all, and it asks for the expected runner |
| Resolution.RestrictedKeysAreNotTheFiles | crates/balerix-config/src/resolve.rs:73-103 | in restricted mode each refused path of an agent's merged settings is as the host's and operator's layers alone give it |
| Resolution.RestrictedSettingsAreNotTheFiles | crates/balerix-config/src/resolve.rs:73-109 | and so are the typed settings: environment, sandbox, binary, arguments and the three refused program settings |
| Resolution.ReadToolsLayer | crates/balerix-config/src/validate.rs:117-156 | the loop over a layer's tools: nulls dropped, exact versions kept, anything else refused |
| Resolution.SandboxLayer | crates/balerix-config/src/validate.rs:98-115 | passes exactly a layer with no block, or one whose stripped block is accepted |
| Resolution.FileLayer | crates/balerix-config/src/resolve.rs:73-82 | a file layer passes exactly if it is a mapping or null, within the restrictions, with a good sandbox block |
| Resolution.ResolveAgent | crates/balerix-config/src/resolve.rs:94-125 | an agent's settings hold the first word of its five sources, or the error names a fault it has |
| Resolution.ResolveCrew | crates/balerix-config/src/resolve.rs:86-135 | a crew resolves exactly if its defaults and all its agents do, to all of them and to its own repository, ref, git settings and tools |
| Resolution.Resolve | crates/balerix-config/src/resolve.rs:43-145 | succeeds exactly when the layers resolve and names and repositories are good, with a resolution of the file: every crew and agent of it and no other, every setting the first word of its five sources; an error names a fault in the layer it names |
| Names.IdRoundTrip | crates/balerix-core/src/name.rs:104-136 | a text parses as an id if and only if it is that valid id's own text |
| Names.CrewRoundTrip | crates/balerix-core/src/agent.rs:18-51 | likewise for a crew reference |
| Names.CloneUrlReadsBack | crates/balerix-core/src/repo.rs:28-99 | the clone URL of a parsed reference parses as the same reference |
| Names.GitHubForms | crates/balerix-core/src/repo.rs:28-59 | `owner/name`, bare or after the HTTPS or the SSH prefix, with `.git` or without, parses as that owner and that name |
| Names.DefaultBranchIsValid | crates/balerix-api/src/branch.rs:18-72 | the default branch of every valid id passes the branch rule |
| Fleets.TryFrom | crates/balerix-core/src/fleet.rs:82-104 | accepts exactly the specs without a fault, carrying over every field, and names a fault of any other |
| Fleets.ConvertCrew | crates/balerix-core/src/fleet.rs:106-160 | the same for one crew |
| Fleets.ConvertAgent | crates/balerix-core/src/fleet.rs:127-151 | refuses exactly a faulty agent, and the error is a fault it has |
| Fleets.FleetNormalises | crates/balerix-core/src/fleet.rs:162-189 | writing a fleet that was read and reading it again gives it back |
| Fleets.ToFleetCarries | crates/balerix-core/src/fleet.rs:82-160 | the fleet has the spec's name and tools and, crew by crew, its repository parsed and its ref, git settings, tools and agents as they are |
| Fleets.FromFleetWrites | crates/balerix-core/src/fleet.rs:162-189 | and the spec written from a fleet has them back, the repository as its clone URL |
| Fleets.AgentsOf | crates/balerix-core/src/agent.rs:88-111 | the agents of a fleet, every one once with its crew's facts, sorted by id |
| Fleets.EveryBranchIsValid | crates/balerix-core/src/agent.rs:113-126 | every resolved agent's branch, given or defaulted, passes the branch rule |
| Order.PrefixIntervalIsConvex | crates/balerix-plugin-sdk/src/testing.rs:924-927 | the keys with a prefix are an interval of the order |
| Order.KeysInOrder | crates/balerix-plugin-sdk/src/testing.rs:919-936 | the keys of a map, once each, in the order a `BTreeMap` iterates |
| KvStores.ProbeIsASearch | crates/balerix-plugin-sdk/src/testing.rs:924-927 | the one probe of the ordered range finds a key under a directory exactly when there is one |
| KvStores.ConflictIffUnstorable | crates/balerix-plugin-sdk/src/testing.rs:917-936 | a key conflicts exactly when storing it would make some key a value and a directory |
| KvStores.EveryRunIsSound | crates/balerix-plugin-sdk/src/testing.rs:958-998 | after any run of puts and deletes the keys are valid and none is a directory of another |
| KvStores.RunHoldsTheLastWord | crates/balerix-plugin-sdk/src/testing.rs:938-998 | the table is, key by key, what the last successful operation on the key left |
| KvStores.StoredKeysStayWritable | crates/balerix-plugin-sdk/src/testing.rs:976-997 | an overwrite is never a conflict, nor a put after a delete |
| KvStores.AcceptedKeysStayInTheirTree | crates/balerix-api/src/protocol.rs:263-291 | a key of the right length and characters is accepted if and only if it leads, from every directory, down one step for each of its segments |
| KvStores.KeysHaveTheirOwnPlace | crates/balerix-api/src/protocol.rs:263-291 | no two accepted keys lead to one place |
| KvStores.Store.PutKey | crates/balerix-plugin-sdk/src/testing.rs:958-982 | stores or answers 400 or 409 without a change, and keeps the store sound |
| KvStores.Store.DeleteKey | crates/balerix-plugin-sdk/src/testing.rs:984-998 | removes the key, present or not, or answers 400 |
| KvStores.Store.GetKey | crates/balerix-plugin-sdk/src/testing.rs:938-956 | finds the key's last word |
| KvUrls.Encode | crates/balerix-plugin-sdk/src/host.rs:47-60 | the loop over the bytes computes the encoding |
| KvUrls.EncodingDecodes | crates/balerix-plugin-sdk/src/host.rs:47-81 | percent-decoding (section 2.1 of RFC 3986) undoes encoding, for any safe set without `%` |
| KvUrls.EncodedIsOneSegment | crates/balerix-plugin-sdk/src/host.rs:71-81 | an encoded key holds nothing a URL parser splits or cuts at |
| KvUrls.OnlyDotsEncodeToDots | crates/balerix-plugin-sdk/src/host.rs:71-81 | an encoded key is a dot segment, `%2E` spellings included, for the keys `.` and `..` alone |
| KvUrls.TheKeyIsOneSegment | crates/balerix-plugin-sdk/src/host.rs:71-81 | a parser that removes dot segments keeps the key as one segment exactly when it is neither `.` nor `..` |
| KvUrls.TheDaemonReadsTheKey | crates/balerix-plugin-sdk/src/host.rs:115-124 | a key gets a URL if and only if its grammar allows it, and from that URL the daemon's route reads the key |
| KvUrls.UrlsAreDistinct | crates/balerix-plugin-sdk/src/host.rs:115-124 | two keys never share a URL |
| KvUrls.QueryValuesReadBack | crates/balerix-plugin-sdk/src/host.rs:62-69 | a query value decodes to itself and holds no separator of the query |
| FleetWatches.StepIsGood | crates/balerix-plugin-sdk/src/host.rs:598-674 | every step, a cancellation at any await among them, keeps the invariant |
| FleetWatches.EveryRunIsThrottled | crates/balerix-plugin-sdk/src/host.rs:592-674 | in every run no connect starts before the last seen loss plus its backoff, the k-th wait since a list is min(2^(k-1), 10) s, and a pending deadline means no open socket |
| FleetWatches.EveryConnectHasWaited | crates/balerix-plugin-sdk/src/host.rs:592-674 | no event starts a connect before the wait for the last loss among the events is over, cancelled or not |
| FleetWatches.NoStorm | crates/balerix-plugin-sdk/src/host.rs:593-597 | n losses among the events of any run take at least n - 1 seconds |
| FleetWatches.TheNextListArrives | crates/balerix-plugin-sdk/src/host.rs:598-674 | from wherever it stands between calls, a call waits out what is owed, connects once if it has no socket, and returns the next list, the backoff anew |
| LinkSessions.StepIsGood | agent/src/link.rs:201-271 | every step of the session, the tasks, the publisher and the clock keeps the invariant |
| LinkSessions.EveryConnectionIsSound | agent/src/link.rs:201-271 | in every run, on every connection, told by the events: the first frame is the status current when it came up, the ids answered are a part of those the daemon sent on it, statuses only get newer and none is newer than the last published, the deadline is when the daemon was last heard plus the idle limit |
| LinkSessions.AtRestAllIsTold | agent/src/link.rs:201-271 | with nothing left to do, the ids answered are exactly those the daemon sent since the link came up, each as often, and the last status sent is the latest published |
| LinkSessions.NoRequestIsForgotten | agent/src/link.rs:201-271 | at every moment each id the daemon sent on the connection is at work, queued, on its way or answered, and no other is |
| LinkSessions.WhatEndsASession | agent/src/link.rs:216-270 | at its select a session ends exactly for a close, a broken stream, the deadline with no message here, or a publisher gone with nothing new; a ping is answered, a new status goes before a queued reply |
| LinkSessions.LossesAreSleptOut | agent/src/link.rs:124-145 | a link that loses its connection, or cannot get one, sleeps min(2^k, cap) seconds after k sleeps since it last came up, and connects only when that is over |
| LinkSessions.EveryRunIsRecorded | agent/src/link.rs:124-271 | the clock, the statuses, the requests, the time last heard and the sleeps that the machine carries are those of the events |
| LinkSessions.NoSendOutlivesTheDeadline | agent/src/link.rs:147-162 | however long a send stays blocked, and whatever happens meanwhile, its deadline does not move and it was not polled at or past it |
| LinkSessions.TheBacklogDrains | agent/src/link.rs:216-270 | with a reading daemon and no new events the session reaches rest in as many turns as it has frames waiting |
| LinkFrames.StringReadsBack | agent/src/link.rs:168-199 | a JSON string (section 7 of RFC 8259) is read back as it was written, to its closing quote |
| LinkFrames.AtMostSixFold | crates/balerix-api/src/link.rs:28-30 | escaping makes at most six bytes of one |
| LinkFrames.CappedRepliesFit | crates/balerix-api/src/link.rs:22-48 | every reply within the workspace caps is within its documented size (a failure: 1 KiB and six times its message), and is sent unchanged |
| LinkFrames.IdReadsBack | crates/balerix-api/src/link.rs:99-105 | a reply's id is read from its text |
| LinkFrames.RepliesReadBack | crates/balerix-api/src/link.rs:99-130 | a reply is read back whole from its text: the id and, byte for byte and entry for entry, the diff, file, tree, version or failure |
| LinkFrames.WhatTheDaemonReads | agent/src/link.rs:164-199 | what goes out for a reply reads as that reply if it fits, else as the failure with its size, under the same id |
| LinkFrames.EveryReplyIsAnswered | agent/src/link.rs:164-199 | every reply becomes a message within the limit with its own id: itself exactly when it fits, else the failure with its size; only a status over the limit is an error |
| AttachInputs.AfterPushQueues | agent/src/attach.rs:246-260 | a message goes behind all that waits, and the write in flight and its deadline are not disturbed |
| AttachInputs.AfterWriteShortens | agent/src/attach.rs:273-299 | a finished write leaves exactly what was behind it, strictly less, with the next piece in flight unless nothing waits |
| AttachInputs.IdleIsDone | agent/src/attach.rs:206-220 | idle exactly when nothing waits |
| AttachInputs.StepIsGood | agent/src/attach.rs:136-178 | every event of a bridge keeps the invariant |
| AttachInputs.EveryScheduleKeepsTheStream | agent/src/attach.rs:136-178 | in every schedule of arrivals, reads, terminal progress, write results and time: written, lost to a failed write, in flight, rest, held and unread are, in order, all that the events say arrived; the terminal has a front of it; less than `HELD_MAX` plus one message is held; a stall comes only after a whole stall bound in one write |
| AttachInputs.EverythingReachesTheTerminal | agent/src/attach.rs:136-178 | with a terminal that reads and no close, everything that arrived is in the terminal after at most as many turns as bytes and messages wait |
| AttachInputs.TheDeadlineEndsTheBridge | agent/src/attach.rs:136-178 | a write in flight at its deadline ends the bridge as stalled, with nothing else changed; one before it changes nothing |
| AttachInputs.AMessageEndsTheBridgeIfItCloses | agent/src/attach.rs:136-178 | reading a message ends the bridge exactly if it closes or is malformed |
| AttachInputs.AnEndIsAnEnd | agent/src/attach.rs:136-178 | an ended bridge stays ended, and writes and reads nothing more |
| AttachInputs.Input.constructor | agent/src/attach.rs:223-233 | an input starts idle with nothing waiting |
| AttachInputs.Input.Start | agent/src/attach.rs:262-271 | the piece in flight and the rest are the message, cut at the piece size; the deadline is now plus the stall bound |
| AttachInputs.Input.Push | agent/src/attach.rs:246-260 | all that waits is what waited and then the message; `heldBytes` stays the sum of the held lengths |
| AttachInputs.Input.Next | agent/src/attach.rs:287-297 | takes up and starts what the machine's finished write does |
| AttachInputs.Input.Progress | agent/src/attach.rs:273-299 | what was pushed is written or waits, in order; a successful turn strictly shortens what waits; a failed or stalled write may have put a part of its piece in the terminal |
| AttachInputs.Input.Drain | agent/src/attach.rs:273-299 | left alone with a working terminal, everything pushed is written |
| AttachInputs.Bridge | agent/src/attach.rs:134-178 | the loop over any schedule ends in the machine's state: the same input, the same messages unread in the socket, the same end |
| AtomicWrites.TempNameInjective | crates/balerix-runtime/src/fsutil.rs:100-107 | different numbers, different temp names |
| AtomicWrites.StepIsGood | crates/balerix-runtime/src/fsutil.rs:72-107 | every step of every call, failing or not, keeps the invariant |
| AtomicWrites.ThePathIsNeverPartial | crates/balerix-runtime/src/fsutil.rs:58-98 | in any interleaving the path always holds its initial contents or the whole contents of a call among the events that got to its rename, and no two calls share a temp name |
| AtomicWrites.NothingIsLeftBehind | crates/balerix-runtime/src/fsutil.rs:66-98 | once all calls have returned, a call's temp file is there if and only if, at some event, a removal of it failed while it was there, and is a dead process's, unchanged, if that was the first removal; no other file was touched, and the path holds the last successful call's contents |
| AtomicWrites.RemovalsThatWorkLeaveNothing | crates/balerix-runtime/src/fsutil.rs:66-71 | if no removal fails no temp file remains, whatever else fails |
| AtomicWrites.AFailedCleanUpLeavesTheFile | crates/balerix-runtime/src/fsutil.rs:95-97 | a run in which a failed call does leave its own file behind |
| AtomicWrites.AFailedRemovalLeavesTheOldFile | crates/balerix-runtime/src/fsutil.rs:82-84 | a run in which a dead process's file stays |
| AtomicWrites.NoCallFailsAnother | crates/balerix-runtime/src/fsutil.rs:66-71 | in any interleaving a call that has returned failed exactly if a step of its own did: no call makes another fail |
| AtomicWrites.Disk.WriteAtomic | crates/balerix-runtime/src/fsutil.rs:72-98 | the sequence of effects does what a call of the machine does when no other comes between, succeeds exactly if every step of it does, and is all or nothing at the path |
| AtomicWrites.AloneIsARun | crates/balerix-runtime/src/fsutil.rs:72-98 | a call's own steps, one after the other, are a run of the machine |
| Shells.ShQuote | crates/balerix-runtime/src/quote.rs:5-17 | the loop over the characters computes the quotation |
| Shells.QuoteReads | crates/balerix-runtime/src/quote.rs:1-17 | the shell reads a quoted text as that text, whatever is in it but NUL |
| Shells.SpacedReads | crates/balerix-runtime/src/launch.rs:77-84 | a list of spaced, quoted words is read as those words |
| Launching.ScriptReads | crates/balerix-runtime/src/launch.rs:75-85 | `sh` reads one command in the script: `exec env -i`, a word for each setting, each argument as it is |
| Launching.EnvRunsThePlan | crates/balerix-runtime/src/launch.rs:75-85 | `env -i` runs the arguments in exactly that environment if and only if the first has no `=` |
| Launching.TheScriptDenotesThePlan | crates/balerix-runtime/src/launch.rs:37-95 | the script denotes the plan exactly when nothing in it has NUL and the supervisor's path has no `=` |
| Launching.RenderLaunch | crates/balerix-runtime/src/launch.rs:37-95 | the plan and the script of any inputs: the plan launches what it should, and the script denotes it under that condition |
| Launching.ThePlanLaunches | crates/balerix-runtime/src/launch.rs:37-95 | read by an option reader: the supervisor runs nono with `-s`, its log under the logs, `run` and the profile given, and behind its `--` the wrapper under `Deny` alone and then the tool manager with the agent's arguments; the environment is `PATH` and `HOME`, the directory the workspace, the script the launch path |
| Launching.TheAgentGetsItsArguments | crates/balerix-runtime/src/launch.rs:49-74 | the supervisor runs the sandbox, which runs the tool manager, under `Deny` from within the wrapper, and the tool manager runs the agent's binary with exactly its arguments, whatever they are |
| Launching.WriteScript | crates/balerix-runtime/src/launch.rs:75-85 | the loops over settings and arguments write the script's text |
| Launching.MiseCanFindItself | crates/balerix-runtime/src/launch.rs:15-27 | the tool's directory is on the PATH exactly if it has no colon, behind the system's own and once; without one the PATH is the system's |
| Prompts.StrippedIsClean | crates/balerix-api/src/text.rs:13-30 | no terminal control is left, and a text without one is unchanged |
| Prompts.StrippingKeepsTheRest | crates/balerix-api/src/text.rs:13-30 | exactly the characters that are no control remain, in their order |
| Prompts.PromptTextIsProse | crates/balerix-api/src/text.rs:95-113 | what is typed opens with a visible character that switches no mode; exactly such texts are typed as they are |
| Prompts.PromptTextSaysTheText | crates/balerix-api/src/text.rs:95-113 | it is the stripped text less leading blanks, perhaps escaped |
| Prompts.PromptTextIsIdempotent | crates/balerix-api/src/text.rs:101-102 | an answer passes through unchanged |
| Prompts.StripFindsTheText | crates/balerix-api/src/text.rs:151-155 | a text with the lead after it is found, trimmed |
| Prompts.UnwrapFindsTheBody | crates/balerix-api/src/text.rs:157-170 | the body of any wrapper is found exactly, whichever closing tag it has |
| Prompts.UnwrapFindsOnlyBodies | crates/balerix-api/src/text.rs:157-170 | what is found is the body of a wrapper around all of the text, and shorter |
| Prompts.CandidatesShrink | crates/balerix-api/src/text.rs:172-186 | candidates get strictly shorter, so dropping repeats drops none |
| Prompts.TheJoinedTextIsFound | crates/balerix-api/src/text.rs:172-186 | the trimmed text is a candidate of text and lead |
| Prompts.TheWrappedTextIsFound | crates/balerix-api/src/text.rs:172-194 | the last candidate of a wrapper, with the lead or without, is its body |
| Prompts.TheWrappedTextComesBack | crates/balerix-api/src/text.rs:188-194 | a sent text comes back, trimmed, from an agent that wraps it with any padding above and below |
| Prompts.UnwrapsIffAWrapper | crates/balerix-api/src/text.rs:157-170 | a trimmed text unwraps if and only if it is one wrapper around some body |
| Prompts.TheJoinedTextComesBack | crates/balerix-api/src/text.rs:188-194 | from one that joins text and lead it comes back if and only if the text is not one wrapper around any body |
| BodyLimits.NeverKeepsMore | crates/balerix-api/src/body_limit.rs:113-136 | in every state the reading of any frames reaches, at most `limit` bytes are kept, and they are the front of what came |
| BodyLimits.ReadingIsTheVerdict | crates/balerix-api/src/body_limit.rs:113-141 | what the frame-by-frame reading comes to is told by the content's length and the ending |
| BodyLimits.ReadBody | crates/balerix-api/src/body_limit.rs:113-141 | the loop holds the reader's state and nothing else, gives that verdict, and reads nothing past the frame that passes the ceiling |
| BodyLimits.FramingIsNotSeen | crates/balerix-api/src/body_limit.rs:113-141 | two bodies of the same content and ending are read to the same answer, however they are cut into frames |
| BodyLimits.DrainOverLimit | crates/balerix-api/src/body_limit.rs:87-111 | the drain's decision; a connection kept open has had its body read to the end, or left to the route |
| BodyLimits.WhatTheRouteSees | crates/balerix-api/src/body_limit.rs:87-111 | for a body that keeps to its hint: the route sees all of it exactly if it fits and its upper bound does, else it refuses a stand-in; the connection closes exactly past four times the limit (or the largest size there is) |
| BodyLimits.WhatTheDrainAnswers | crates/balerix-api/src/body_limit.rs:87-111 | a body that stops short and did not say it fits closes the connection: 408 exactly for one that stalls and 400 exactly for one that fails below the ceiling, past it the stand-in |
| BodyLimits.TheStandInIsOneByteOver | crates/balerix-api/src/body_limit.rs:166-173 | the stand-in is one byte over the limit, says so, is sent whole and not in chunks, and has every other header as it came |
| BodyLimits.ExactOrUnknownLengthsAreTreatedRight | crates/balerix-api/src/body_limit.rs:13-26 | with an exact or no length the route sees the body if and only if it fits |
| BodyLimits.ALooseBoundRefusesABodyThatFits | crates/balerix-api/src/body_limit.rs:98-103 | with a loose bound a body that fits is answered as over the limit |
| BodyLimits.Refuse | crates/balerix-api/src/body_limit.rs:148-164 | a refused caller's connection stays open exactly if its body said it was small and was read whole |

## Left out

- The reconcile pass, the planner and the daemon's side of the link: their steps are the environment's here.
- Network, TLS, certificates, HTTP clients, subprocesses, tmux and git: foreign calls.
- Serde: merged settings are typed by hand in `Typing.ReadSettings` (known keys, absent `sandbox` as the empty object); the inside of a pod runner's resources and storage, and serde's reading of structs from arrays, are not modelled.
- JSON numbers are integers; the merge never looks inside one.
- Error texts, and which of several faults is reported first: maps are walked in any order, and an error is proved to name a fault that is there. For a sandbox block the refusal names the layer, not the place in the block.
- UTF-8: texts are sequences of characters, bytes where sizes count; Unicode's white space, controls and the invisible characters are the concrete ranges.
- The specification hash and the start ref of a resolved agent (`agent.rs`), when a text is pasted with a lead (`needs_paste_lead`), and whether a session is continued (a directory listing): easy, or input and output.
- AtomicWrites.StepIsGood: one path and one process; a leftover of a dead process is an initial file, permissions and symlinks are not modelled, and the 64-bit counter does not wrap.
- AttachInputs.Bridge: the terminal's output, the resize call and the closing handshake are events without effect on the input; an arm that cannot run leaves its event without effect.
- LinkSessions.StepIsGood: a failed serialization of a status over the limit is a failing send.
- FleetWatches.EveryRunIsThrottled: a connect that is dropped before it answers is not an observed loss, so it sets no wait.
- LinkFrames.CappedRepliesFit: the caps themselves are enforced by the workspace reader, which is not part of this model; a runner's answer is taken as at most 1 KiB.
- LinkFrames.EveryReplyIsAnswered: the agent's status is an arbitrary text after its tag, and a text is shorter than 2^64 bytes.
- BodyLimits.DrainOverLimit: lengths are unbounded, so the running total does not overflow; the limit is below the largest `usize`, as the stand-in needs.
- Launching.RenderLaunch: the directory of `mise` is an input; hooks, profiles and the writing of the script are elsewhere.
- Launching.TheAgentGetsItsArguments: the programs in between are taken to run what follows their first `--`.
- Shells.QuoteReads: of the shell language only what the script uses is read; anything else is refused.
- KvUrls.TheDaemonReadsTheKey: the daemon's base URL before the route is left out, and a proxy that decodes `%2F` on the way is not modelled.

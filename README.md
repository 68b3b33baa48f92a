# Push dispatch of the TQ and the typed configuration registry, in Dafny

This project models two sequential cores of the storage node.

**The push path of a vnode's TQ** (`source/dnode/vnode/src/tq/tqPush.c`).

- Every subscribed consumer has a push handle. A handle holds:
  - an input status (NORMAL or BLOCKED) and an execution status (IDLE, EXECUTING or CLOSING);
  - an expiry flag;
  - the consumer's request id, processed version, requested offset, epoch and consumer id;
  - the reply context of the outstanding poll;
  - an input queue of references to shared submit payloads.
- A handle is opened, then given a request, and may see its timer expire.
- A submit is fanned out to every handle: each handle either admits one shared reference to the payload or refuses it.
- After a submit, the push registry is walked. Each handle whose execution produced result blocks gets exactly one POLL_RSP response, and its reply context is cleared.

Module `PushModel` describes a handle as a value (`HandleState`) and each operation as a function on it. It also holds the lemmas that say what these operations mean: reference accounting, who is asked to execute, who is answered, and with what. Module `TqPush` holds the imperative model. `PushHandle` is a class whose fields the methods update in place. The two loops over the registry are methods over a sequence of handles. Each method is proved to leave exactly the state that the `PushModel` function computes.

**The typed configuration registry** (`source/libs/config/src/config.c`).

- A table maps item names to items.
- There is one typed "add" per data type, plus lookup and size.
- `cfgLoad` dispatches on the source type.
- Three display-name tables cover the enumerations.

Module `CfgTypes` holds the pure part: the enumeration codes, the three name tables with independent reverse tables, and the load dispatch. Module `Cfg` holds the rest:

- the item as a value;
- the add as a function on values (`ItemAdded`);
- the registry as a class `Config` whose methods update its table in place;
- an `Allocator` whose `live` multiset records the string copies (`strdup`) not yet released. This makes "a failed add releases what it copied" a statement about state.

Foreign calls whose outcome matters are parameters of the model:

- allocations, reference clones and the table insert are booleans saying whether they succeed;
- the result blocks that the execution engine produces for each handle are a sequence per handle;
- the status each configuration loader would return is a function argument.

Responses handed to the RPC layer are returned as a sequence, one optional response per handle.

## Model

| member | source | states |
|---|---|---|
| CTypes.ToInt32 | source/dnode/vnode/src/tq/tqPush.c:65 | the `(int32_t)` cast of the 64-bit timeout agrees with it modulo 2^32 and equals it whenever it fits |
| PushModel.Opened | source/dnode/vnode/src/tq/tqPush.c:42-56 | opening returns 0 exactly when both the queue and the drain buffer are allocated, and -1 otherwise; on success both are open, on failure neither is (the one that succeeded is released); every other field is zero |
| TqPush.PushHandle.Open | source/dnode/vnode/src/tq/tqPush.c:42-56 | the handle ends in exactly the status and state `Opened` gives for the two allocation outcomes |
| TqPush.PushHandle.Clear | source/dnode/vnode/src/tq/tqPush.c:43 | after the memset every field of the push part is zero |
| TqPush.PushHandle.PreparePush | source/dnode/vnode/src/tq/tqPush.c:58-67 | returns 0; the reply context, request id and processed version equal the arguments; input status is NORMAL and the expiry flag is clear; the timer is re-armed with the timeout cut to 32 bits; no other field changes |
| PushModel.SecondPrepareOverwritesFirst | source/dnode/vnode/src/tq/tqPush.c:58-67 | two requests in a row leave the handle exactly as the second alone would: only the second reply context survives |
| PushModel.PrepareAfterExpiry | source/dnode/vnode/src/tq/tqPush.c:58-67 | a new request erases any trace of an expiry |
| TqPush.PushHandle.TimerFired | source/dnode/vnode/src/tq/tqPush.c:18-21 | timer expiry sets the stopped flag and changes no other field; in particular the reply context stays |
| PushModel.ExpiryDoesNotCancel | source/dnode/vnode/src/tq/tqPush.c:18-21 | a handle whose timer fired is answered exactly as if it had not fired, and expiry keeps the reply context |
| TqPush.PushHandle.Enqueue | source/dnode/vnode/src/tq/tqPush.c:69-80 | returns 0 exactly when the input status is NORMAL and the clone succeeds; then the very payload object is appended once at the tail and its count goes up by one; otherwise returns -1 and neither the queue nor the count changes |
| PushModel.TwoEnqueuesKeepOrder | source/dnode/vnode/src/tq/tqPush.c:71-77 | two payloads admitted in turn sit at the tail of the queue in arrival order |
| PushModel.OpenedHandleRefusesPayloads | source/dnode/vnode/src/tq/tqPush.c:69-80 | a freshly opened handle (input status zero, not NORMAL) refuses every payload |
| PushModel.SubmitPayload.RefDec | source/dnode/vnode/src/tq/tqPush.c:107 | dropping a reference lowers the count by exactly one |
| PushModel.AcceptedIndicesExact | source/dnode/vnode/src/tq/tqPush.c:94-100 | the positions counted as admitting are exactly the handles that are NORMAL with a successful clone, each once, in iteration order: refusals are skipped, not fatal |
| PushModel.ExecRequestsExact | source/dnode/vnode/src/tq/tqPush.c:98-104 | execution is requested exactly for the handles that admitted the payload while IDLE or CLOSING, each once, in iteration order |
| PushModel.ExecRequestsWithinAccepted | source/dnode/vnode/src/tq/tqPush.c:98-104 | every execution request goes to an admitting handle, so requests are at most admissions, and admissions at most handles |
| PushModel.BroadcastAt | source/dnode/vnode/src/tq/tqPush.c:94-100 | after the fan-out, each handle is that handle offered the payload |
| PushModel.BroadcastAtHandle | source/dnode/vnode/src/tq/tqPush.c:94-100 | after the fan-out, an admitting handle has the payload appended at its tail and a refusing one is unchanged; only the queue can change |
| PushModel.BroadcastAddsOneEntryPerAcceptor | source/dnode/vnode/src/tq/tqPush.c:94-107 | the queues gain exactly one entry referring to the payload per admitting handle, and no other such entry |
| PushModel.OccurrencesAbsent | source/dnode/vnode/src/tq/tqPush.c:89 | a payload that no queue holds is counted zero times |
| TqPush.EnqueueAll | source/dnode/vnode/src/tq/tqPush.c:87-110 | a failed payload creation returns -1 and touches no handle; otherwise it returns 0, the handles end as the fan-out `Broadcast` gives, execution is requested exactly at `ExecRequests`, and the payload's final count equals both the number of admitting handles and the number of queue entries referring to it, so the broadcaster's own reference was dropped exactly once |
| TqPush.OfferAll | source/dnode/vnode/src/tq/tqPush.c:94-105 | the loop offers the payload to every handle in turn; the handles end as `Broadcast` gives, and the count is one (the broadcaster's) plus the number of admissions |
| TqPush.Offer | source/dnode/vnode/src/tq/tqPush.c:97-104 | one loop pass changes only the visited handle, to its enqueue outcome, and extends the admissions and execution requests by at most that handle |
| TqPush.DropRef | source/dnode/vnode/src/tq/tqPush.c:107 | the broadcaster's release lowers the count by one and changes no handle |
| PushModel.DispatchAll | source/dnode/vnode/src/tq/tqPush.c:120-181 | the pass over the registry yields one state and one response slot per handle |
| PushModel.DispatchAllRc | source/dnode/vnode/src/tq/tqPush.c:139-154 | the pass returns 0 exactly when no handle had blocks but no buffer, and -1 otherwise |
| PushModel.DispatchAllAt | source/dnode/vnode/src/tq/tqPush.c:120-181 | a handle is processed exactly when no earlier handle failed; a handle past the failure is untouched and sent nothing |
| PushModel.DispatchAfterFailure | source/dnode/vnode/src/tq/tqPush.c:150-153 | once a handle fails, the call returns -1 at once: earlier handles keep their outcome; it and all later handles are untouched and sent nothing |
| PushModel.DispatchAtHandle | source/dnode/vnode/src/tq/tqPush.c:125-172 | only the reply context of a handle can change; a handle gets a response exactly when it is reached, has at least one block and a buffer; the response carries POLL_RSP, the handle's epoch, consumer id and requested offset, the submit's version as returned offset, the blocks, and the stored reply context, which is then cleared; a handle with no blocks keeps its context |
| PushModel.AnsweredContextIsNotReused | source/dnode/vnode/src/tq/tqPush.c:171 | once a handle has been answered, a later pass sends it only the cleared context, so a reply context the handle held is not sent again |
| PushModel.LongPollThenAnswer | source/dnode/vnode/src/tq/tqPush.c:139-142 | a pass with no blocks leaves the request open, and the next pass with blocks answers that very request and closes it |
| PushModel.PushedOutcome | source/dnode/vnode/src/tq/tqPush.c:125-172 | one handle's step (`Pushed`): -1 exactly when there are blocks but no buffer; a response exactly when there are blocks and a buffer, carrying the stored context and the blocks, after which the context is cleared; nothing but the context changes, and nothing at all without a response |
| TqPush.PushHandle.RespondOrSkip | source/dnode/vnode/src/tq/tqPush.c:125-172 | one handle under its latch ends exactly as `Pushed` gives: no blocks means no response; blocks without a buffer mean -1; otherwise one response is sent and the context cleared; the latch is free on every path |
| TqPush.Visit | source/dnode/vnode/src/tq/tqPush.c:120-181 | one loop pass either extends the processed prefix by the visited handle, or ends the call with the result `DispatchAll` gives for the whole registry |
| TqPush.Dispatch | source/dnode/vnode/src/tq/tqPush.c:120-183 | the loop leaves the handles, the return code and the responses exactly as `DispatchAll` gives |
| PushModel.PushMsg | source/dnode/vnode/src/tq/tqPush.c:112-113 | a message other than a submit returns 0, leaves every handle as it was and sends nothing; any outcome has one state and one response slot per handle |
| TqPush.PushMsgNew | source/dnode/vnode/src/tq/tqPush.c:112-184 | a non-submit returns 0 with no effect; a submit behaves as `DispatchAll` |
| PushModel.AsWrittenKeepsLatchOnAllocFailure | source/dnode/vnode/src/tq/tqPush.c:150-153 | as written, a failed buffer allocation returns -1 with the latch still held and both result arrays allocated; the corrected step frees the latch |
| PushModel.PushedReleasing | source/dnode/vnode/src/tq/tqPush.c:125-180 | the corrected step with its result arrays counted: no array is left allocated and the latch is free on every path, and otherwise the status, handle and response are those of `Pushed` |
| PushModel.AsWrittenLeaksArraysOnNoBlocks | source/dnode/vnode/src/tq/tqPush.c:139-141 | as written, a handle with no blocks leaves both result arrays allocated, where the corrected step leaves none, in the same handle state |
| PushModel.AsWrittenAgreesWhenSending | source/dnode/vnode/src/tq/tqPush.c:147-180 | on a path that sends, the code as written and the corrected step agree on state and response, and release both arrays |
| CfgTypes.StypeStr | source/libs/config/src/config.c:204-219 | defined for every code; the result is "invalid" exactly for codes outside the enumeration; a defined code's name maps back to it, so the table is injective on defined codes |
| CfgTypes.DtypeStr | source/libs/config/src/config.c:221-260 | the same for the data types |
| CfgTypes.UtypeStr | source/libs/config/src/config.c:262-281 | the same for the units (the empty suffix for none) |
| CfgTypes.LoadCallFor | source/libs/config/src/config.c:36-48 | a loader is chosen exactly for the four loadable source types; the loader serves that type and receives the source string (the environment-variable loader takes none) |
| CfgTypes.Load | source/libs/config/src/config.c:36-48 | DEFAULT and any code outside the enumeration give -1; each loadable type gives the status of its own loader called with the source string |
| Cfg.Init | source/libs/config/src/config.c:19-34 | either both allocations succeed and a fresh, empty, well-formed registry of size 0 comes back as the one new live registry, or nothing does and the set of live registries is unchanged, the one allocated before a failed table creation having been freed |
| Cfg.Config.Size | source/libs/config/src/config.c:61 | the size is zero exactly when the table is empty |
| Cfg.Config.GetItem | source/libs/config/src/config.c:67 | the lookup yields an item exactly when the name is present, and then the item filed under it |
| Cfg.ItemAdded | source/libs/config/src/config.c:69-97 | returns 0 or -1, and 0 exactly when the name copy and the insert both succeed; on success the name maps to the item stamped with DEFAULT, the given unit and the name, with its data type and value unchanged, and the one new live copy is the name; no other name is affected; on failure the table is unchanged and the item's value string is released |
| Cfg.AddKeepsWellFormed | source/libs/config/src/config.c:70-78 | an add keeps every entry filed under its own name, with source type DEFAULT and a data type matching its value |
| Cfg.AddChangesSizeOnlyForNewNames | source/libs/config/src/config.c:78 | the size grows by one exactly when an add succeeds under a name not yet present; otherwise it is unchanged |
| Cfg.Config.AddItem | source/libs/config/src/config.c:69-97 | the status, table and live copies after the add are those `ItemAdded` gives |
| Cfg.Config.Insert | source/libs/config/src/config.c:78-96 | a successful insert files the item under the name; a failed one leaves the table unchanged and releases the value string, then the name copy |
| Cfg.Config.ReleaseValue | source/libs/config/src/config.c:79-90 | the value string chosen by the data-type field, and only that one, is released |
| Cfg.Config.AddBool | source/libs/config/src/config.c:99-102 | the add is `ItemAdded` on a BOOL item holding the default; on success the lookup yields it stamped DEFAULT with the unit and name, and the registry stays well formed; only the table and the live string copies can change, never the set of live registries |
| Cfg.Config.AddInt8 | source/libs/config/src/config.c:104-107 | the same for INT8 |
| Cfg.Config.AddUInt8 | source/libs/config/src/config.c:109-112 | the same for UINT8 |
| Cfg.Config.AddInt16 | source/libs/config/src/config.c:114-117 | the same for INT16 |
| Cfg.Config.AddUInt16 | source/libs/config/src/config.c:119-122 | the same for UINT16 |
| Cfg.Config.AddInt32 | source/libs/config/src/config.c:124-127 | the same for INT32 |
| Cfg.Config.AddUInt32 | source/libs/config/src/config.c:129-132 | the same for UINT32 |
| Cfg.Config.AddInt64 | source/libs/config/src/config.c:134-137 | the same for INT64 |
| Cfg.Config.AddUInt64 | source/libs/config/src/config.c:139-142 | the same for UINT64 |
| Cfg.Config.AddFloat | source/libs/config/src/config.c:144-147 | the same for FLOAT (the value as its bit pattern) |
| Cfg.Config.AddDouble | source/libs/config/src/config.c:149-152 | the same for DOUBLE (the value as its bit pattern) |
| Cfg.Config.AddCopied | source/libs/config/src/config.c:154-162 | copying the default and then adding the item that holds the copy gives what `StringItemAdded` computes |
| Cfg.StringAddIsAllOrNothing | source/libs/config/src/config.c:154-202 | a string-valued add either stores the item with the default as its value, with exactly the name and the value as new live copies, or fails with -1, leaving the table and the live copies as they were; a failed default copy fails before the table is touched |
| Cfg.Config.AddString | source/libs/config/src/config.c:154-162 | on success the lookup yields a STRING item holding the default; on failure nothing changes, the live copies included; no add allocates or frees a registry |
| Cfg.Config.AddFqdn | source/libs/config/src/config.c:164-172 | the same for FQDN |
| Cfg.Config.AddIpStr | source/libs/config/src/config.c:174-182 | the same for IPSTR |
| Cfg.Config.AddDir | source/libs/config/src/config.c:184-192 | the same for DIR |
| Cfg.Config.AddFile | source/libs/config/src/config.c:194-202 | the same for FILE |
| Cfg.Cleanup | source/libs/config/src/config.c:51-59 | a null registry is left alone; otherwise the registry holds no items and is no longer live |
| Cfg.AsWrittenLeaksDefaultOnNameCopyFailure | source/libs/config/src/config.c:72-76 | as written, a string-valued add whose name copy fails returns -1 but leaves the copy of the default live, owned by nobody |
| Cfg.AsWrittenLookupMissesAddedItem | source/libs/config/src/config.c:67 | as written, a lookup of an item that was just added can come back empty |

## Left out

- Locks, latches and atomic loads and stores are plain sequential updates. The handle latch is a boolean, used to state that it is free again after each handle.
- `tqExecFromInputQ` and `tqSendExecReq` are stubs. An execution request is recorded as the position of the handle in the returned `execReqs`, and no execution-status transition is modelled.
- `tqPushMsg` is not part of this model. Its work is a window update, a copy and a stream trigger, all foreign calls.
- The execution engine `tqDataExec` is replaced by its output: the result blocks per handle are an input. Because the blocks are a sequence, the block count and the sizes of the two arrays are equal by construction, which the two ASSERTs at tqPush.c:144-145 check.
- The encoder `tEncodeSMqDataBlkRsp` is not modelled. A response is the structured header, offsets and blocks, not their bytes or encoded length.
- `tmsgSendRsp` is not modelled as a call. A sent response is the entry for that handle in the returned sequence.
- Timer-service internals are not modelled. The handle's `timer` field records the timeout it was last armed with.
- Hash iteration is a sequence of distinct handles in an order that nothing constrains. Concurrent insertion or removal during a pass is not modelled.
- The `msgLen` and `handleInfo` parameters of `tqPushMsgNew` are unused and left out. The submit message and the worker id reach only `tqDataExec`, whose output is the `blocks` input of the model.
- `terrno` is not modelled.
- PushModel.DispatchAll: its own contract states only the lengths. Its meaning is stated by DispatchAllRc, DispatchAllAt, DispatchAfterFailure and DispatchAtHandle.
- The result arrays of `tqPushMsgNew` are counted only in the per-handle steps `PushedAsWritten` and `PushedReleasing`. `Pushed`, `DispatchAll` and the `PushHandle` methods do not allocate them.
- The model keeps these three behaviours of the code as written:
  - a BLOCKED handle and a failed clone both return -1, and the two are not told apart;
  - a failed response-buffer allocation ends the whole pass with -1 instead of abandoning only that handle;
  - `tqPreparePush` takes no lock.
- `cfgLoadFromCfgFile`, `cfgLoadFromEnvFile`, `cfgLoadFromEnvVar` and `cfgLoadFromApollUrl` are not part of this model. They read files, the environment and a URL. Their status is the `run` argument of `Load`.
- `cfgIterate` and `cfgCancelIterate` are not modelled. They forward to the hash table's iterator.
- The registry object is tracked as a live registry, and its hash table lives and dies with it. The table's own storage is not tracked, and cleanup does not account for the strings its items own.
- The behaviour of `taosHashPut` on a name that is already present is not assumed. A successful insert files the item under the name and leaves every other name alone. Whether an insert under an existing name succeeds is left to the `putOk` outcome.
- Cfg.Config.Valid: the registry invariant fixes every item's source type to DEFAULT, so it holds only for registries no loader has touched. The loaders, which would set another source type, are not part of this model.
- Cfg.Cleanup: at config.c:55 the code compares the table pointer with NULL instead of assigning NULL. The registry object is freed on the next line, so no state of the model can show this. A registry whose table is NULL (config.c:53) cannot arise in the model, because `Init` returns a registry only together with its table.
- The status values of a push handle (input NORMAL 1 and BLOCKED 2; execution IDLE 1, EXECUTING 2 and CLOSING 3) come from the stream task header, which is not part of this model. The model relies on their being distinct and non-zero: `OpenedHandleRefusesPayloads` holds because NORMAL is not 0.
- Enumeration codes are numbered in declaration order from 0, because the configuration header is not part of this model. Only their distinctness is used.
- Float and double values are kept as bit patterns, with no arithmetic.
- Item names and string values are C strings, keyed and copied up to their terminating NUL. They are modelled as strings without an embedded NUL; a Dafny string holding one would be a different key, where C would cut it short.
- PushModel.AnsweredContextIsNotReused: the all-zero reply context the code leaves after answering is `None` in the model. A request prepared with an all-zero context, `Some(RpcInfo(0, 0, 0))`, is the same bytes in C, so the clause that a held context is not sent again is meant for non-zero contexts only.

## Findings

| source | as written | input that shows it | evidently intended | confidence | as-written member | corrected member |
|---|---|---|---|---|---|---|
| source/dnode/vnode/src/tq/tqPush.c:150-153 | a failed response-buffer allocation returns -1 while the handle latch is still held and both result arrays are still allocated | any handle with at least one result block when `rpcMallocCont` fails | release the latch (and the arrays) before returning | not executed | PushModel.AsWrittenKeepsLatchOnAllocFailure | TqPush.PushHandle.RespondOrSkip |
| source/dnode/vnode/src/tq/tqPush.c:139-141 | a handle that produced no blocks is skipped with `continue`, so the two result arrays created for it are never destroyed | any handle whose execution yields no result block | destroy both arrays before moving on to the next handle | not executed | PushModel.AsWrittenLeaksArraysOnNoBlocks | PushModel.PushedReleasing |
| source/libs/config/src/config.c:67 | `cfgGetItem` has no return statement, so its result is undefined | any lookup, e.g. of "debugFlag" right after `cfgAddBool` stored it | return the item found by `taosHashGet` | not executed | Cfg.AsWrittenLookupMissesAddedItem | Cfg.Config.GetItem |
| source/libs/config/src/config.c:72-76 | when copying the name fails, the copy of a string-valued default already made by the caller is not released | `cfgAddString` with a successful default copy and a failed name copy | release the item's value string on this path too, as the insert-failure path does | not executed | Cfg.AsWrittenLeaksDefaultOnNameCopyFailure | Cfg.StringAddIsAllOrNothing |

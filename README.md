# OpenThread platform glue and common regulator layer, modelled in Dafny

This project models two small sequential cores of a Zephyr tree.

**OpenThread platform module** (`modules/openthread/platform/openthread.c`, module `OpenThread`).
The module's globals are the class `OpenThreadContext`. It holds the instance pointer and the
list of state-change callbacks. The list is a `seq` of `StateChangedCallback` objects. An
object's identity stands for the address of the caller-owned record.
- `Register` and `Unregister` change the list in place.
- `StateChanged` is the engine's state-change handler. It returns the calls it makes, in order.
- `Process` is the work item's drain cycle.
- `Init` covers the re-initialisation guard and what a first initialisation does to the globals.
- `Run` and `Stop` model the start-up and stop sequences.

Every call into the OpenThread engine is a parameter or a returned log entry. These are the
answers of `otTaskletsArePending`, the error each `otThreadSet*`/`otLink*`/`otJoinerStart` call
returns, and whether a dataset is commissioned.

**Regulator common layer** (`drivers/regulator/regulator_common.c`, module `Regulator`).
- A `Regulator` object holds the constant configuration and driver table, plus `refcnt`, which
  `DataInit`, `InitEnable`, `Enable` and `Disable` update in place.
- A ghost `driverLog` records the calls that reach the driver's enable and disable.
- The read-only operations are functions over the configuration: `IsSupportedVoltage`,
  `SetVoltage`, `SetCurrentLimit`, `SetMode` and `Enabled`.
- Each request function returns a `Request`: either a rejection with its error code, or
  `Forward`, meaning the request goes to the driver unchanged.
- `EnableStep`/`DisableStep` specify one reference-count step. `Replay` runs a sequence of
  steps. The main lemma shows that balanced use keeps `regulator_is_enabled` in agreement
  with the output the driver was last told to set.

Error numbers are Zephyr's (`Errno`: EIO 5, EINVAL 22, ENOSYS 88, EALREADY 120, ENOTSUP 134).
Zephyr's errno.h is not part of this model.

Two points of the registry's behaviour:
- Unregistering an entry that is not listed returns `-EALREADY`.
- The code does not handle registering an entry that is already listed (it would corrupt the
  intrusive list). The model therefore makes "not already registered" a precondition, as the
  header's uniqueness rule (include/zephyr/net/openthread.h:104-111) requires.

## Model

| member | source | states |
|---|---|---|
| `OpenThread.OpenThreadContext.Register` | modules/openthread/platform/openthread.c:182-193 | NULL entry or NULL callback: -EINVAL, list unchanged; otherwise 0 and the entry appended at the end, earlier entries unchanged and in order; list stays duplicate-free |
| `OpenThread.OpenThreadContext.Unregister` | modules/openthread/platform/openthread.c:207-224 | NULL: -EINVAL, list unchanged; entry not listed: -EALREADY, list unchanged; otherwise 0 and exactly that entry removed, the rest in their relative order |
| `OpenThread.Find` | modules/openthread/platform/openthread.c:216 | the search of the find-and-remove: -1 iff the entry is absent, else the position of its first occurrence |
| `OpenThread.Without` | modules/openthread/platform/openthread.c:216 | reference definition of removal (a filter keeping order); never longer than the list |
| `OpenThread.WithoutMembers` | modules/openthread/platform/openthread.c:215-223 | after removal an entry is listed iff it was listed before and is not the removed one |
| `OpenThread.RemoveAtIsWithout` | modules/openthread/platform/openthread.c:215-223 | in a duplicate-free list, cutting out the found position equals filtering the entry out, and the result stays duplicate-free |
| `OpenThread.UnregisterUndoesRegister` | modules/openthread/platform/openthread.c:182-224 | registering a new entry and then unregistering it restores the list exactly |
| `OpenThread.UnregisterOtherKeepsLast` | modules/openthread/platform/openthread.c:182-224 | unregistering some other entry after a register keeps the new entry last and the rest in order |
| `OpenThread.OpenThreadContext.StateChanged` | modules/openthread/platform/openthread.c:162-180 | the handler makes exactly the calls `Notifications(callbacks, flags, instance)`: list order, NULL callbacks skipped |
| `OpenThread.Notifications` | modules/openthread/platform/openthread.c:174-179 | one event makes no more calls than there are listed entries |
| `OpenThread.NotificationsAppend` | modules/openthread/platform/openthread.c:174-179 | the calls for a list split in two are the calls for the first part followed by those for the second |
| `OpenThread.NotificationsInOrder` | modules/openthread/platform/openthread.c:174-179 | when every entry has a callback, there are exactly as many calls as entries, the k-th to the k-th entry's callback with the event flags, the instance and that entry's own user data |
| `OpenThread.NullEntrySkipped` | modules/openthread/platform/openthread.c:175 | an entry with a NULL callback changes nothing: the calls are those of the list without it |
| `OpenThread.NonNull` | modules/openthread/platform/openthread.c:175 | never longer than the list, and every kept entry has a callback |
| `OpenThread.NonNullMembers` | modules/openthread/platform/openthread.c:175 | an entry is kept iff it is listed and its callback is not NULL |
| `OpenThread.NotificationsSkipNull` | modules/openthread/platform/openthread.c:174-179 | the calls for a list that mixes NULL and non-NULL callbacks equal the calls for its non-NULL entries alone |
| `OpenThread.DispatchCallsEachNonNullInOrder` | modules/openthread/platform/openthread.c:174-179 | one call per entry with a callback, none for NULL entries; the k-th call goes to the k-th such entry, with the event flags, the instance and that entry's own user data |
| `OpenThread.ThreeEntriesScenario` | modules/openthread/platform/openthread.c:174-224 | entries A, B, C with user data 1, 2, 3: flags 1 reach A, B, C in order; after B is removed, flags 2 reach A and C only |
| `OpenThread.FirstIdle` | modules/openthread/platform/openthread.c:134 | the poll at which the engine first reports no pending tasklets: every earlier poll reported work |
| `OpenThread.Process` | modules/openthread/platform/openthread.c:128-141 | one tasklet run per poll that reported work, until the first poll reporting none; drivers serviced exactly once, after the loop |
| `OpenThread.OpenThreadContext.Init` | modules/openthread/platform/openthread.c:232-309 | with an instance present: returns true and nothing changes; otherwise the instance is set, a co-processor build returns true with the list kept, and other builds fail on a bad NAT64 prefix (list kept) or empty the list and succeed iff the handler is installed |
| `OpenThread.Run` | modules/openthread/platform/openthread.c:311-390 | commissioned: only the enable call; joiner autostart: only the joiner start, no enable; otherwise name, channel, PAN ID, extended PAN ID, the key only if non-empty, then enable, stopping after the first failure; returns 0 iff the last call succeeded (iff all did), else -EIO |
| `OpenThread.Stop` | modules/openthread/platform/openthread.c:392-410 | always 0; disables the network unless the build is a co-processor |
| `Regulator.Regulator.DataInit` | drivers/regulator/regulator_common.c:8-15 | the count becomes 0 |
| `Regulator.Regulator.InitEnable` | drivers/regulator/regulator_common.c:17-39 | without INIT_ENABLED: 0, nothing changed, no driver call; with it the driver is called once; a negative result is returned with the count unchanged; otherwise 0 and the count up by exactly one |
| `Regulator.Regulator.Enable` | drivers/regulator/regulator_common.c:41-75 | returns, counts and calls the driver exactly as `EnableStep` says; the driver call is logged iff it happens |
| `Regulator.Regulator.Disable` | drivers/regulator/regulator_common.c:96-130 | returns, counts and calls the driver exactly as `DisableStep` says; the driver call is logged iff it happens |
| `Regulator.EnableStep` | drivers/regulator/regulator_common.c:41-75 | the driver is called iff its enable exists, the regulator is not always-on and the count goes 0 to 1; the result is the driver's when called, else 0; the count rises by one unless the op is missing, always-on, or the driver failed (rolled back) |
| `Regulator.DisableStep` | drivers/regulator/regulator_common.c:96-130 | the driver is called iff its disable exists, not always-on and the count goes 1 to 0; the result is the driver's when called, else 0; the count drops by one unless the op is missing, always-on, or the driver failed (rolled back) |
| `Regulator.StepKeepsDriverInSync` | drivers/regulator/regulator_common.c:61-74 | one balanced enable or disable keeps "count > 0" equal to the output state, and a driver call it makes switches the output |
| `Regulator.ReplayKeepsDriverInSync` | drivers/regulator/regulator_common.c:41-130 | under balanced use the count stays non-negative, `regulator_is_enabled` agrees with the output the driver last set successfully, and successful driver calls alternate on/off |
| `Regulator.AlwaysOnUntouched` | drivers/regulator/regulator_common.c:56-59 | with ALWAYS_ON, no sequence of enables and disables changes the count or reaches the driver |
| `Regulator.EnableDisableRoundTrip` | drivers/regulator/regulator_common.c:61-74 | an enable and then a disable that both succeed restore the count |
| `Regulator.UnbalancedDisable` | drivers/regulator/regulator_common.c:116-123 | a disable at count 0 returns 0, leaves -1 and skips the driver; `regulator_is_enabled` then reports true while the output is off, and the next enable skips the driver too |
| `Regulator.Enabled` | drivers/regulator/regulator_common.c:77-94 | ALWAYS_ON: true; otherwise true iff the count is non-zero |
| `Regulator.Regulator.IsEnabled` | drivers/regulator/regulator_common.c:77-94 | ALWAYS_ON: true; otherwise true iff the object's count is non-zero; reads the object and changes nothing |
| `Regulator.ListsVoltageWithin` | drivers/regulator/regulator_common.c:146-154 | true iff some listed level from the index on lies strictly between min and max |
| `Regulator.IsSupportedVoltage` | drivers/regulator/regulator_common.c:132-157 | outside the configured window the result is true (-EINVAL read as bool); inside it, true iff some listed level v has min < v < max |
| `Regulator.SupportedButRefused` | drivers/regulator/regulator_common.c:140-142 | a request outside the window reads as supported while setting it returns -EINVAL |
| `Regulator.BoundaryLevelNotSupported` | drivers/regulator/regulator_common.c:151 | a level equal to the requested bounds is not a match, although setting that voltage is forwarded |
| `Regulator.RangeRequest` | drivers/regulator/regulator_common.c:167-176 | missing op: -ENOSYS, checked first; otherwise forwarded iff min and max lie inside the window, else -EINVAL |
| `Regulator.SetVoltage` | drivers/regulator/regulator_common.c:159-177 | forwarded unchanged iff the op exists and the request lies in the voltage window; else -ENOSYS (no op) or -EINVAL |
| `Regulator.SetCurrentLimit` | drivers/regulator/regulator_common.c:179-197 | forwarded unchanged iff the op exists and the request lies in the current window; else -ENOSYS (no op) or -EINVAL |
| `Regulator.ModeListed` | drivers/regulator/regulator_common.c:216-220 | true iff the mode occurs among the allowed modes from the index on |
| `Regulator.SetMode` | drivers/regulator/regulator_common.c:199-223 | forwarded iff the op exists and the allow-list is empty or holds the mode; else -ENOSYS (no op) or -ENOTSUP |

## Left out

- Mutexes (`openthread_mutex_lock`/`_try_lock`/`_unlock`, the regulator data lock): each locked section is one atomic method. So the model does not show that the three `return false` paths of `openthread_init` keep the OpenThread mutex held.
- The work queue and wake signalling (`k_work_submit_to_queue`, `k_work_queue_start`, `otTaskletsSignalPending`, `otSysEventSignalPending`, `openthread_thread_id_get`): these are kernel scheduling and concurrency.
- The OpenThread engine itself: every engine call is only an answer given as a parameter. This includes instance creation, the receive callbacks and filter, the UART/NCP set-up, the shell, the device-role and IPv6 queries in the handler, and logging.
- `ncp_hdlc_send` and `ot_joiner_start_handler`: the first is transport I/O. The second is called back by the engine after a join and only logs or calls `otThreadSetEnabled`.
- `openthread_get_default_instance`: it only asserts and returns the global.
- Process: how many tasklets one `otTaskletsProcess` call runs. It is shown as one call per poll that reported work. The requirement that some poll reports no work stands in for the engine eventually going idle; without it the source loops forever.
- Init: NAT64 prefix parsing and installing are one outcome (`nat64Ok`). A failed UART enable is only logged, so it is not a parameter.
- Run: the extended PAN ID and key are logged as their configured strings; their conversion by `net_bytes_from_str` is not modelled. The joiner's fixed package name, platform info and version arguments are not recorded.
- StateChanged: callbacks are outside code. The model assumes they do not register or unregister entries while the handler iterates.
- Regulator driver operations and `regulator_count_voltages`/`regulator_list_voltage`: the driver's answers are parameters, and the listed levels are an abstract sequence. The ignored return of `regulator_list_voltage` means a failed lookup is not modelled.
- Regulator.Regulator.InitEnable: requires a driver enable when REGULATOR_INIT_ENABLED is set, because the source calls it without a NULL check.
- Integer widths: `refcnt` overflow past INT_MAX is not modelled. Voltages and currents (int32_t) are only compared, so unbounded integers match them.
- include/zephyr/net/openthread.h: the packet ring fields and the deprecated context-based APIs have no implementation here. The header supplies only the entry shape and the uniqueness rule.

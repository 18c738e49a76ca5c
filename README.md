# Cloud-Hypervisor domain glue, modelled in Dafny

This project models `src/ch/ch_domain.c` of libvirt's Cloud-Hypervisor
driver: the code that sits between libvirt's hypervisor-agnostic domain
definition and one hypervisor backend. It has three parts.

- **Admission validators.** These are the checks a domain definition must
  pass before it may run:
  - the device-type allow-list, with the console and serial rules
    (`chValidateDomainDeviceDef`);
  - the CPU-mode rule (`chValidateDomainDef`);
  - huge-page admission against the host's page sizes and free pages
    (`virCHDomainDefValidateMemory`, `virCHDomainDefValidate`);
  - the two post-parse callbacks, which fill in the emulator path and check
    capability support.
- **The parser-configuration table.** The driver registers these callbacks
  through designated initializers that name the domain-validate field twice.
- **Domain runtime state.** This covers:
  - allocation of the per-domain private record;
  - reconciliation of per-vCPU thread ids with the monitor's thread list,
    and the two accessors over them;
  - the machine name;
  - removal from, and lookup in, the domain list.

Modules:

- `ChDef` (`ch_def.dfy`): the data model. `DomainDef` is a class because
  the source writes two things into a definition in place: the emulator path
  and each vCPU slot's private tid, kept in an `array<int>`. Everything else
  in the definition is `const`, so the validators are plain functions.
- `ChValidate` (`ch_validate.dfy`): the validators. The huge-page search is a
  method with a loop, proved against the specification function
  `MemoryAdmission`.
- `ChParserConfig` (`ch_parser_config.dfy`): the initializer table.
  Designated initializers are evaluated so that a later initializer of a
  field overrides an earlier one (ISO C11, section 6.7.9, paragraph 19).
  The result is proved to register basic post-parse, post-parse, device
  validation and CPU-mode validation, and not the memory validator.
- `ChDomain` (`ch_domain.dfy`): the domain object, the driver, the domain
  list, private-state allocation, the thread-id refresh and its accessors,
  and the machine name.

The external calls are function-typed parameters:

- `g_find_program_in_path`
- `virCapabilitiesDomainSupported`
- `virNumaGetPageInfo`
- `virSystemdGetMachineNameByPID`
- `virDomainDriverGenerateMachineName`

The model takes these as input values:

- the result of `virCHMonitorGetThreadInfo` (a sequence of thread records);
- the result of `virChrdevAlloc`;
- the capabilities returned by `virCHDriverGetCapabilities` (`None` when
  the fetch fails).

The model follows the code as written, including where it is easy to misread:

- Huge-page admission computes the pages needed as the floor of
  `initial / size` (line 316), not the ceiling. `FloorAdmitsPartialPage` and
  `AdmissionByMemoryBound` show what that admits.
- A CPU mode other than host-passthrough is only logged with `VIR_ERROR`
  (line 264). No error number is reported, so `ReportedError` gives `None`
  for it.
- The memory validator is not a stage of the registered pipeline, because
  the later initializer at line 347 replaces it.
- The thread refresh only compares the vcpu-record count with `maxvcpus`
  (line 251) to decide on a warning. It computes no difference. It counts
  records, not slots, so a cpu id reported twice can raise the warning
  although every slot was written (`DuplicateReportWarns`).

The numeric codes of `virDomainDeviceType` (NONE = 0 up to CRYPTO = 26,
LAST = 27) follow the enum's declaration order in libvirt's
`domain_conf.h`. That file is not part of this model. `CH_CMD` is taken to be
`"cloud-hypervisor"`; `ch_conf.h`, where it is defined, is not part of this
model either.

## Model

| member | source | states |
|---|---|---|
| `ChValidate.ValidateDeviceDef` | src/ch/ch_domain.c:144-220 | Passes iff the device type code names one of disk, net, memory, vsock, controller or chr, the definition has at most one console and at most one serial, and each of them is PTY or UNIX. An out-of-range code fails with a range error, NONE with an internal error, and every other named type with that type as an unsupported device. For admitted types, several consoles fail first, then several serials. |
| `ChValidate.DeviceFailureErrorNumbers` | src/ch/ch_domain.c:179-218 | A device-validation failure reports CONFIG_UNSUPPORTED exactly when a named device type is refused. Every other failure reports INTERNAL_ERROR. |
| `ChValidate.DeviceVerdictReadsOnlyChrDevices` | src/ch/ch_domain.c:195-218 | The device verdict depends on the definition only through its consoles and serials. |
| `ChValidate.ValidateDomainDef` | src/ch/ch_domain.c:257-268 | Fails iff a CPU element is present and its mode is not host-passthrough. An absent CPU element passes. |
| `ChValidate.ValidateMemory` | src/ch/ch_domain.c:271-325 | The linear search plus comparison equals `MemoryAdmission`. No huge pages passes; more than one fails; nosharepages fails; a size missing from the host list fails naming the size; a failed free-page lookup fails; otherwise it passes iff `initial / size` (floor) is at most the free count, and fails with NotEnoughHugepages if not. |
| `ChValidate.DefValidate` | src/ch/ch_domain.c:327-340 | Fails when the capabilities are unavailable; otherwise it gives the huge-page admission verdict for the host page sizes. |
| `ChValidate.NoHugepagesAlwaysAdmitted` | src/ch/ch_domain.c:282-283 | A definition with an empty huge-page list is admitted, whatever the host state. |
| `ChValidate.HostIndependentRefusals` | src/ch/ch_domain.c:287-297 | Several huge-page entries, or nosharepages with one entry, fail. The verdict is the same for any host page sizes and free counts. |
| `ChValidate.FloorAdmissionBound` | src/ch/ch_domain.c:316-317 | For a positive size, `initial / size <= free` iff `initial < (free + 1) * size`. |
| `ChValidate.AdmissionByMemoryBound` | src/ch/ch_domain.c:300-324 | With one supported size and a known free count, admission passes iff the initial memory is below `(free + 1) * size`. |
| `ChValidate.AdmissionBoundary` | src/ch/ch_domain.c:316-321 | Needed pages equal to the free count pass. One page more fails with NotEnoughHugepages for that size. |
| `ChValidate.FloorAdmitsPartialPage` | src/ch/ch_domain.c:316-317 | 3 units in pages of 2 with 1 free page is admitted, although 2 pages are needed. |
| `ChValidate.DefPostParse` | src/ch/ch_domain.c:120-136 | Passes iff capabilities are available and support the definition's OS type, architecture and virtualization type. Otherwise it fails with status -1: first for missing capabilities, then for the unsupported triple. |
| `ChDef.ReportedError` | src/ch/ch_domain.c:78-428 | The error number each failure reports. CONFIG_UNSUPPORTED exactly for a refused named device type (179), several huge-page sizes (288), nosharepages (294), an unsupported page size (306), too few free pages (318) and a missing emulator (78). NO_DOMAIN exactly for a UUID miss (425). INTERNAL_ERROR for NONE (185), an out-of-range device type (191) and the console and serial rules (196, 201, 208, 215). None exactly for the CPU mode (only logged, 264), the capability fetch (128, 334), the free-page lookup (312) and the domain-support check (130), whose reports this file leaves to the callee. |
| `ChDef.StatusCode` | src/ch/ch_domain.c:71-85 | The int a callback returns: 0 exactly on success, 1 exactly when no emulator was found, and -1 for every other failure. |
| `ChDef.DeviceTypeOf` | src/ch/ch_domain.c:150-193 | A device code names a type iff it lies in [0, LAST), and that type's code is the code. |
| `ChDef.DomainDef.constructor` | src/ch/ch_domain.c:105-117 | A new definition has one vCPU private slot per possible vCPU, each with tid 0. |
| `ChDomain.DefPostParseBasic` | src/ch/ch_domain.c:71-85 | An emulator that is present is kept, with status 0. An absent one is replaced by the path-search result. Only when that result is absent does it fail, with NoEmulator and status 1. |
| `ChDomain.ObjPrivateAlloc` | src/ch/ch_domain.c:45-59 | Private state exists iff the character-device multiplexer was allocated. It then holds that multiplexer and the driver, with no monitor and no machine name. |
| `ChDomain.RemoveInactive` | src/ch/ch_domain.c:36-43 | A persistent domain leaves the list and can no longer be found by its UUID. A transient one leaves the list unchanged. The list keeps every domain under its own UUID. |
| `ChDomain.ObjFromDomain` | src/ch/ch_domain.c:415-432 | Returns the listed domain with the handle's UUID. A miss fails with NoSuchDomain, which carries that UUID and name and is reported as NO_DOMAIN. |
| `ChDomain.RefreshThreadInfo` | src/ch/ch_domain.c:222-256 | Returns 0 always. The warning is logged iff the vcpu-record count differs from maxvcpus. The new slots are the old slots with every vcpu record's tid written at its cpuid, in list order. |
| `ChDomain.VcpuRecordCountIsPositions` | src/ch/ch_domain.c:234-248 | The count compared with maxvcpus is the number of positions in the thread list that hold a vcpu record. |
| `ChDomain.VcpuRecordCountCpuIds` | src/ch/ch_domain.c:239-251 | The count is at least the number of distinct cpu ids reported. It equals that number when no two vcpu records name the same cpu id. |
| `ChDomain.FullDistinctReportMatches` | src/ch/ch_domain.c:247-253 | When the vcpu records name each slot below maxvcpus exactly once and name no other slot, the count equals maxvcpus, so the refresh logs no warning. |
| `ChDomain.DuplicateReportWarns` | src/ch/ch_domain.c:247-253 | Two vcpu records for slot 0 of a one-slot domain count 2, so the refresh warns even though every slot was written. |
| `ChDomain.ApplyThreadInfoAt` | src/ch/ch_domain.c:234-248 | After the refresh, each slot holds the tid of the last vcpu record naming it, or its old tid if no vcpu record names it. |
| `ChDomain.LastVcpuTidSpec` | src/ch/ch_domain.c:239-246 | A last write for a slot exists iff some vcpu record names the slot. It is the tid of a vcpu record naming the slot that no later vcpu record for the slot follows. |
| `ChDomain.UnnamedSlotUnchanged` | src/ch/ch_domain.c:239-246 | A slot that no vcpu record names keeps its old tid. |
| `ChDomain.NoFabricatedTid` | src/ch/ch_domain.c:243-246 | After the refresh, each slot holds its old tid or a tid a vcpu record reported for that slot. |
| `ChDomain.ReportedSlotsForgetOldTids` | src/ch/ch_domain.c:243-246 | At a slot some vcpu record names, the result does not depend on the old slot contents. |
| `ChDomain.ApplyThreadInfoIdempotent` | src/ch/ch_domain.c:234-248 | Refreshing twice from the same thread list leaves the same slots as refreshing once. |
| `ChDomain.GetVcpuPid` | src/ch/ch_domain.c:357-364 | Returns exactly the tid stored in the slot of the given vCPU id. |
| `ChDomain.VcpuPidAfterRefresh` | src/ch/ch_domain.c:357-364 | After a refresh, `GetVcpuPid(j)` is the tid of the last vcpu record naming j, or j's tid from before. |
| `ChDomain.HasVcpuPids` | src/ch/ch_domain.c:366-381 | True iff some slot index below maxvcpus has a tid greater than 0. |
| `ChDomain.RefreshReportsVcpuPid` | src/ch/ch_domain.c:373-378 | If the last tid reported for some slot is positive, then after the refresh some slot holds a positive tid. |
| `ChDomain.GetMachineName` | src/ch/ch_domain.c:383-403 | When the pid is not 0 and the by-PID lookup returns a name, that is the machine name. In every other case the name is the generator applied to ("ch", id, name, privileged). Neither case fails. |
| `ChDomain.MachineNameWithoutPid` | src/ch/ch_domain.c:390-394 | With pid 0, the machine name is the same whatever the naming service would answer. |
| `ChParserConfig.DesignatedFields` | src/ch/ch_domain.c:342-349 | The fields a designated-initializer list sets are exactly the fields it names. |
| `ChParserConfig.LastInitializerWins` | src/ch/ch_domain.c:342-349 | A field holds the callback of the last initializer that names it. |
| `ChParserConfig.ChRegisteredCallbacks` | src/ch/ch_domain.c:342-349 | The registered table is exactly: basic post-parse, post-parse, CPU-mode domain validation and device validation. The memory validator is not in it. |
| `ChParserConfig.RegisteredDomainValidate` | src/ch/ch_domain.c:345-347 | Domain validation through the table is the CPU-mode validator. |
| `ChParserConfig.HugepageRefusalUnreachable` | src/ch/ch_domain.c:287-291 | A host-passthrough definition with several huge-page sizes passes domain validation through the table, though the memory validator refuses it. |

## Left out

- `virCHDomainObjPrivateFree`, `virChrdevAlloc` and `virChrdevFree`: memory management and console plumbing. Allocation is modelled only as "the multiplexer was or was not created" (lines 45-69).
- The `virClass` / `VIR_ONCE_GLOBAL_INIT` registration of the vCPU private class (lines 87-117): a runtime object system. It is modelled as zero-filled tid slots created with the definition. The case where class registration fails is not modelled.
- `virCHDomainGetMonitor` (lines 351-355): a field read. The thread list it would be queried for is an input.
- `virCHDriverPrivateDataCallbacks` (lines 138-142) and the `features` field of the parser configuration (line 348): registration data with no logic of its own.
- Message texts of `virReportError`, `VIR_WARN` and `VIR_ERROR`, and `virUUIDFormat`. Only the error number and the failure reason are kept.
- Locking and reference counting of the domain list and the domain objects. `ObjFromDomain` returns the object without the lock and extra reference the source takes.
- `virNumaGetPageInfo` is asked about node -1 (all nodes); the node argument is not modelled.
- Huge-page sizes, initial memory and free counts are unsigned 64-bit values (`u64`). They are compared in the same unit, as the source compares them.
- `ValidateMemory`: requires that the host lists no page size of 0. The source divides by the matched size (line 316), so a 0 entry would be a division by zero.
- `RefreshThreadInfo`: requires every vcpu record's cpuid to name an existing slot. For any other cpuid, `virDomainDefGetVcpu` yields no vCPU, and the source then dereferences a null private pointer (lines 244-246).
- `GetVcpuPid`: requires the vCPU id to name an existing slot, for the same reason (lines 361-363).
- `GetMachineName`: requires the domain to have private state, which the source dereferences (line 387).
- Thread kinds other than vcpu are folded into one kind, because the refresh only tests for vcpu.

/** The Cloud-Hypervisor domain object and its private state: allocation of
    the private record, the basic post-parse fill-in of the emulator, the
    per-vCPU thread-id refresh from the monitor's thread list and its
    accessors, the machine name, and the domain-list removal and lookup. */
module ChDomain {
  import opened ChDef

  /** A character-device multiplexer handle (virChrdevs). */
  datatype ChrdevHandle = ChrdevHandle(id: nat)

  /** A monitor connection handle (virCHMonitor). */
  datatype MonitorHandle = MonitorHandle(id: nat)

  /** virCHDomainObjPrivate. */
  datatype PrivateState = PrivateState(
    chrdevs: ChrdevHandle,
    driver: Driver,
    monitor: Option<MonitorHandle>,
    machineName: Option<string>)

  /** virCHDriver: the part read here. */
  class Driver {
    const privileged: bool
    const domains: DomainList

    constructor (privileged: bool, domains: DomainList)
      ensures this.privileged == privileged && this.domains == domains
    {
      this.privileged := privileged;
      this.domains := domains;
    }
  }

  /** virDomainObj. */
  class DomainObj {
    const def: DomainDef
    var pid: int
    var persistent: bool
    var privateData: Option<PrivateState>

    constructor (def: DomainDef, persistent: bool, privateData: Option<PrivateState>)
      ensures this.def == def && pid == 0
      ensures this.persistent == persistent && this.privateData == privateData
    {
      this.def := def;
      this.pid := 0;
      this.persistent := persistent;
      this.privateData := privateData;
    }
  }

  /** virDomainObjList, keyed by UUID. */
  class DomainList {
    var objs: map<string, DomainObj>

    /** Every domain is filed under its own UUID. */
    ghost predicate Valid()
      reads this
    {
      forall u :: u in objs ==> objs[u].def.uuid == u
    }

    constructor ()
      ensures Valid() && objs == map[]
    {
      objs := map[];
    }

    /** virDomainObjListFindByUUID */
    function FindByUUID(uuid: string): (r: Option<DomainObj>)
      reads this
      ensures r.Some? <==> uuid in objs
      ensures r.Some? ==> r.value == objs[uuid]
      ensures Valid() && r.Some? ==> r.value.def.uuid == uuid
    {
      if uuid in objs then Some(objs[uuid]) else None
    }

    /** virDomainObjListRemove */
    method Remove(vm: DomainObj)
      requires Valid()
      modifies this
      ensures Valid()
      ensures objs == old(objs) - {vm.def.uuid}
    {
      objs := objs - {vm.def.uuid};
    }
  }

  /** virCHDomainRemoveInactive: only a persistent domain leaves the list. */
  method RemoveInactive(driver: Driver, vm: DomainObj)
    requires driver.domains.Valid()
    modifies driver.domains
    ensures driver.domains.Valid()
    ensures driver.domains.objs == if vm.persistent then old(driver.domains.objs) - {vm.def.uuid}
                                   else old(driver.domains.objs)
    ensures vm.persistent ==> driver.domains.FindByUUID(vm.def.uuid).None?
  {
    if vm.persistent {
      driver.domains.Remove(vm);
    }
  }

  /** The public handle of a domain: its UUID and its name. */
  datatype DomainRef = DomainRef(uuid: string, name: string)

  /** virCHDomainObjFromDomain: find the domain by UUID, or report that no
      domain matches. */
  function ObjFromDomain(driver: Driver, domain: DomainRef): (r: Result<DomainObj, Reason>)
    reads driver.domains
    ensures r.Ok? <==> domain.uuid in driver.domains.objs
    ensures r.Ok? ==> r.value == driver.domains.objs[domain.uuid]
    ensures driver.domains.Valid() && r.Ok? ==> r.value.def.uuid == domain.uuid
    ensures r.Err? ==> r.error == NoSuchDomain(domain.uuid, domain.name) &&
                       ReportedError(r.error) == Some(NoDomain)
  {
    match driver.domains.FindByUUID(domain.uuid)
    case None => Err(NoSuchDomain(domain.uuid, domain.name))
    case Some(vm) => Ok(vm)
  }

  /** virCHDomainObjPrivateAlloc: `chrdevs` is what virChrdevAlloc returned
      (None when it failed). A zero-filled record holding the multiplexer and
      the driver, or no private state at all. */
  function ObjPrivateAlloc(driver: Driver, chrdevs: Option<ChrdevHandle>): (r: Option<PrivateState>)
    ensures r.Some? <==> chrdevs.Some?
    ensures r.Some? ==> r.value.chrdevs == chrdevs.value && r.value.driver == driver
    ensures r.Some? ==> r.value.monitor.None? && r.value.machineName.None?
  {
    match chrdevs
    case None => None
    case Some(c) => Some(PrivateState(c, driver, None, None))
  }

  /** CH_CMD: the program the basic post-parse callback looks for. */
  const ChCmd: string := "cloud-hypervisor"

  /** virCHDomainDefPostParseBasic: fill in the emulator from the search path
      (`findProgramInPath` stands for g_find_program_in_path) only when the
      definition has none. */
  method DefPostParseBasic(def: DomainDef, findProgramInPath: string -> Option<string>)
    returns (o: Outcome)
    modifies def`emulator
    ensures old(def.emulator).Some? ==> def.emulator == old(def.emulator) && o.Pass?
    ensures old(def.emulator).None? ==> def.emulator == findProgramInPath(ChCmd)
    ensures o.Fail? <==> old(def.emulator).None? && findProgramInPath(ChCmd).None?
    ensures o.Fail? ==> o.reason == NoEmulator && StatusCode(o) == 1
    ensures o.Pass? <==> def.emulator.Some?
  {
    if def.emulator.None? {
      def.emulator := findProgramInPath(ChCmd);
      if def.emulator.None? {
        return Fail(NoEmulator);
      }
    }
    return Pass;
  }

  // ---------------------------------------------------------------------
  // Per-vCPU thread ids

  /** A monitor thread list every vcpu record of which names an existing slot
      (an out-of-range cpu id has no vCPU definition to write into). */
  predicate VcpuIdsInRange(info: seq<ThreadInfo>, nslots: nat) {
    forall k :: 0 <= k < |info| && info[k].kind == VcpuThread ==> info[k].cpuid < nslots
  }

  /** The effect of one monitor record on the slots. */
  function ApplyRecord(tids: seq<int>, t: ThreadInfo): seq<int>
    requires t.kind == VcpuThread ==> t.cpuid < |tids|
  {
    if t.kind == VcpuThread then tids[t.cpuid := t.tid] else tids
  }

  /** The slots after the records of `info` were applied in order. */
  function ApplyThreadInfo(tids: seq<int>, info: seq<ThreadInfo>): (r: seq<int>)
    requires VcpuIdsInRange(info, |tids|)
    ensures |r| == |tids|
    decreases |info|
  {
    if info == [] then tids
    else
      var prev := ApplyThreadInfo(tids, info[..|info| - 1]);
      ApplyRecord(prev, info[|info| - 1])
  }

  /** The number of vcpu records in the thread list. */
  function VcpuRecordCount(info: seq<ThreadInfo>): (n: nat)
    ensures n <= |info|
    decreases |info|
  {
    if info == [] then 0
    else VcpuRecordCount(info[..|info| - 1]) + (if info[|info| - 1].kind == VcpuThread then 1 else 0)
  }

  /** The tid the last vcpu record naming slot j reports, if any names it. */
  function LastVcpuTid(info: seq<ThreadInfo>, j: nat): Option<int>
    decreases |info|
  {
    if info == [] then None
    else if info[|info| - 1].kind == VcpuThread && info[|info| - 1].cpuid == j
    then Some(info[|info| - 1].tid)
    else LastVcpuTid(info[..|info| - 1], j)
  }

  /** Some vcpu record names slot j. */
  predicate NamesSlot(info: seq<ThreadInfo>, j: nat) {
    exists k :: 0 <= k < |info| && info[k].kind == VcpuThread && info[k].cpuid == j
  }

  /** LastVcpuTid finds a tid exactly when a vcpu record names the slot, and
      the tid it finds is the one of a vcpu record naming the slot after which
      no other vcpu record names it. */
  lemma {:induction false} LastVcpuTidSpec(info: seq<ThreadInfo>, j: nat)
    ensures LastVcpuTid(info, j).Some? <==> NamesSlot(info, j)
    ensures LastVcpuTid(info, j).Some? ==>
              exists k :: 0 <= k < |info| && info[k].kind == VcpuThread && info[k].cpuid == j &&
                          info[k].tid == LastVcpuTid(info, j).value &&
                          forall m :: k < m < |info| ==> !(info[m].kind == VcpuThread && info[m].cpuid == j)
    decreases |info|
  {
    if info != [] {
      var n := |info| - 1;
      var init := info[..n];
      LastVcpuTidSpec(init, j);
      assert forall k :: 0 <= k < n ==> init[k] == info[k];
      if info[n].kind == VcpuThread && info[n].cpuid == j {
        assert NamesSlot(info, j);
      } else {
        if NamesSlot(info, j) {
          var k :| 0 <= k < |info| && info[k].kind == VcpuThread && info[k].cpuid == j;
          assert k < n;
          assert NamesSlot(init, j);
        }
        if NamesSlot(init, j) {
          var k :| 0 <= k < |init| && init[k].kind == VcpuThread && init[k].cpuid == j;
          assert NamesSlot(info, j);
        }
      }
    }
  }

  /** Each slot ends with the tid of the last vcpu record naming it, and keeps
      its old tid when no vcpu record names it. */
  lemma {:induction false} ApplyThreadInfoAt(tids: seq<int>, info: seq<ThreadInfo>, j: nat)
    requires VcpuIdsInRange(info, |tids|) && j < |tids|
    ensures ApplyThreadInfo(tids, info)[j] ==
              match LastVcpuTid(info, j) case Some(t) => t case None => tids[j]
    decreases |info|
  {
    if info != [] {
      var init := info[..|info| - 1];
      ApplyThreadInfoAt(tids, init, j);
    }
  }

  /** A slot no vcpu record names keeps its tid. */
  lemma {:induction false} UnnamedSlotUnchanged(tids: seq<int>, info: seq<ThreadInfo>, j: nat)
    requires VcpuIdsInRange(info, |tids|) && j < |tids| && !NamesSlot(info, j)
    ensures ApplyThreadInfo(tids, info)[j] == tids[j]
  {
    ApplyThreadInfoAt(tids, info, j);
    LastVcpuTidSpec(info, j);
  }

  /** Every tid a slot holds afterwards is its old one or one the monitor
      reported for that slot: the refresh never makes one up. */
  lemma {:induction false} NoFabricatedTid(tids: seq<int>, info: seq<ThreadInfo>, j: nat)
    requires VcpuIdsInRange(info, |tids|) && j < |tids|
    ensures ApplyThreadInfo(tids, info)[j] == tids[j] ||
            exists k :: 0 <= k < |info| && info[k].kind == VcpuThread && info[k].cpuid == j &&
                        info[k].tid == ApplyThreadInfo(tids, info)[j]
  {
    ApplyThreadInfoAt(tids, info, j);
    LastVcpuTidSpec(info, j);
  }

  /** Applying the same thread list twice leaves the slots as applying it once. */
  lemma {:induction false} ApplyThreadInfoIdempotent(tids: seq<int>, info: seq<ThreadInfo>)
    requires VcpuIdsInRange(info, |tids|)
    ensures ApplyThreadInfo(ApplyThreadInfo(tids, info), info) == ApplyThreadInfo(tids, info)
  {
    var once := ApplyThreadInfo(tids, info);
    var twice := ApplyThreadInfo(once, info);
    forall j | 0 <= j < |tids|
      ensures twice[j] == once[j]
    {
      ApplyThreadInfoAt(tids, info, j);
      ApplyThreadInfoAt(once, info, j);
    }
  }

  /** The slots after the refresh do not depend on the slots before it at any
      slot the monitor reported. */
  lemma {:induction false} ReportedSlotsForgetOldTids(t1: seq<int>, t2: seq<int>, info: seq<ThreadInfo>, j: nat)
    requires |t1| == |t2| && VcpuIdsInRange(info, |t1|) && j < |t1| && NamesSlot(info, j)
    ensures ApplyThreadInfo(t1, info)[j] == ApplyThreadInfo(t2, info)[j]
  {
    ApplyThreadInfoAt(t1, info, j);
    ApplyThreadInfoAt(t2, info, j);
    LastVcpuTidSpec(info, j);
  }

  /** The positions of the vcpu records in the thread list. */
  function VcpuRecordPositions(info: seq<ThreadInfo>): set<int> {
    set k | 0 <= k < |info| && info[k].kind == VcpuThread
  }

  /** The cpu ids the vcpu records of the thread list name. */
  function ReportedCpuIds(info: seq<ThreadInfo>): set<nat> {
    set k | 0 <= k < |info| && info[k].kind == VcpuThread :: info[k].cpuid
  }

  /** No two vcpu records of the thread list name the same cpu id. */
  predicate DistinctVcpuIds(info: seq<ThreadInfo>) {
    forall a, b :: 0 <= a < b < |info| && info[a].kind == VcpuThread && info[b].kind == VcpuThread
                   ==> info[a].cpuid != info[b].cpuid
  }

  /** The count the refresh compares with maxvcpus is the number of vcpu
      records in the list. */
  lemma {:induction false} VcpuRecordCountIsPositions(info: seq<ThreadInfo>)
    ensures VcpuRecordCount(info) == |VcpuRecordPositions(info)|
    decreases |info|
  {
    if info != [] {
      var n := |info| - 1;
      VcpuRecordCountIsPositions(info[..n]);
      var before := VcpuRecordPositions(info[..n]);
      assert before == set k | 0 <= k < n && info[k].kind == VcpuThread;
      if info[n].kind == VcpuThread {
        assert VcpuRecordPositions(info) == before + {n};
        assert n !in before;
      } else {
        assert VcpuRecordPositions(info) == before;
      }
    }
  }

  /** Appending a record adds its cpu id to the reported ones when it is a
      vcpu record, and a cpu id not reported before when no cpu id repeats. */
  lemma ReportedCpuIdsSnoc(info: seq<ThreadInfo>)
    requires info != []
    ensures var init, last := info[..|info| - 1], info[|info| - 1];
            ReportedCpuIds(info) ==
              ReportedCpuIds(init) + (if last.kind == VcpuThread then {last.cpuid} else {})
    ensures var init, last := info[..|info| - 1], info[|info| - 1];
            DistinctVcpuIds(info) ==>
              (DistinctVcpuIds(init) && (last.kind == VcpuThread ==> last.cpuid !in ReportedCpuIds(init)))
  {
    var n := |info| - 1;
    var init := info[..n];
    assert forall k :: 0 <= k < n ==> init[k] == info[k];
  }

  /** The count is at least the number of distinct cpu ids reported, and
      equal to it when no cpu id is reported twice. */
  lemma {:induction false} VcpuRecordCountCpuIds(info: seq<ThreadInfo>)
    ensures VcpuRecordCount(info) >= |ReportedCpuIds(info)|
    ensures DistinctVcpuIds(info) ==> VcpuRecordCount(info) == |ReportedCpuIds(info)|
    decreases |info|
  {
    if info != [] {
      VcpuRecordCountCpuIds(info[..|info| - 1]);
      ReportedCpuIdsSnoc(info);
    }
  }

  /** The slots below n. */
  function SlotsBelow(n: nat): (r: set<nat>)
    ensures forall j: nat :: j in r <==> j < n
    ensures |r| == n
  {
    if n == 0 then {} else SlotsBelow(n - 1) + {n - 1}
  }

  /** A thread list whose vcpu records name every slot below maxvcpus exactly
      once (and no other slot) counts maxvcpus records, so the refresh logs no
      warning. */
  lemma FullDistinctReportMatches(info: seq<ThreadInfo>, nslots: nat)
    requires VcpuIdsInRange(info, nslots) && DistinctVcpuIds(info)
    requires forall j :: 0 <= j < nslots ==> NamesSlot(info, j)
    ensures VcpuRecordCount(info) == nslots
  {
    VcpuRecordCountCpuIds(info);
    var ids := ReportedCpuIds(info);
    forall j: nat | j < nslots ensures j in ids {
      assert NamesSlot(info, j);
      var k :| 0 <= k < |info| && info[k].kind == VcpuThread && info[k].cpuid == j;
    }
    assert ids == SlotsBelow(nslots);
  }

  /** Two vcpu records for slot 0 of a one-slot domain write every slot, yet
      count two against maxvcpus 1, so the refresh warns. */
  lemma DuplicateReportWarns()
    ensures var info := [ThreadInfo(VcpuThread, 0, 10), ThreadInfo(VcpuThread, 0, 11)];
            NamesSlot(info, 0) && VcpuIdsInRange(info, 1) && VcpuRecordCount(info) == 2
  {
    var info := [ThreadInfo(VcpuThread, 0, 10), ThreadInfo(VcpuThread, 0, 11)];
    assert info[0].kind == VcpuThread && info[0].cpuid == 0;
    assert info[..1][..0] == [];
    assert info[..1] == [info[0]];
  }

  /** virCHDomainRefreshThreadInfo: write the tid of every vcpu record of the
      monitor's thread list `info` (what virCHMonitorGetThreadInfo returned)
      into the slot of its cpu id. The result is always 0; `mismatch` is
      whether the count warning is logged. */
  method RefreshThreadInfo(vm: DomainObj, info: seq<ThreadInfo>) returns (rc: int, mismatch: bool)
    requires VcpuIdsInRange(info, vm.def.MaxVcpus())
    modifies vm.def.vcpuTids
    ensures rc == 0
    ensures mismatch <==> VcpuRecordCount(info) != vm.def.MaxVcpus()
    ensures vm.def.vcpuTids[..] == ApplyThreadInfo(old(vm.def.vcpuTids[..]), info)
  {
    var tids := vm.def.vcpuTids;
    var maxvcpus := vm.def.MaxVcpus();
    var ncpus := 0;
    var i := 0;
    while i < |info|
      invariant 0 <= i <= |info|
      invariant tids[..] == ApplyThreadInfo(old(tids[..]), info[..i])
      invariant ncpus == VcpuRecordCount(info[..i])
    {
      assert info[..i + 1][..i] == info[..i];
      if info[i].kind == VcpuThread {
        tids[info[i].cpuid] := info[i].tid;
        ncpus := ncpus + 1;
      }
      i := i + 1;
    }
    assert info[..i] == info;
    mismatch := ncpus != maxvcpus;
    rc := 0;
  }

  /** virCHDomainGetVcpuPid: the tid held by one vCPU slot. */
  function GetVcpuPid(vm: DomainObj, vcpuid: nat): (pid: int)
    reads vm.def.vcpuTids
    requires vcpuid < vm.def.MaxVcpus()
    ensures pid == vm.def.vcpuTids[vcpuid]
  {
    vm.def.vcpuTids[vcpuid]
  }

  /** After a refresh, every slot reads the tid of the last vcpu record that
      named it, or the tid it held before. */
  lemma {:induction false} VcpuPidAfterRefresh(before: seq<int>, vm: DomainObj, info: seq<ThreadInfo>, j: nat)
    requires |before| == vm.def.MaxVcpus() && VcpuIdsInRange(info, |before|) && j < |before|
    requires vm.def.vcpuTids[..] == ApplyThreadInfo(before, info)
    ensures GetVcpuPid(vm, j) == match LastVcpuTid(info, j) case Some(t) => t case None => before[j]
  {
    assert GetVcpuPid(vm, j) == vm.def.vcpuTids[..][j];
    ApplyThreadInfoAt(before, info, j);
  }

  /** Some slot below maxvcpus holds a positive tid. */
  predicate SomeVcpuPid(tids: seq<int>) {
    exists i :: 0 <= i < |tids| && tids[i] > 0
  }

  /** virCHDomainHasVcpuPids: scan the slots for a known tid. */
  method HasVcpuPids(vm: DomainObj) returns (r: bool)
    ensures r <==> exists i :: 0 <= i < vm.def.MaxVcpus() && GetVcpuPid(vm, i) > 0
    ensures r == SomeVcpuPid(vm.def.vcpuTids[..])
  {
    var maxvcpus := vm.def.MaxVcpus();
    var i := 0;
    while i < maxvcpus
      invariant 0 <= i <= maxvcpus
      invariant forall k :: 0 <= k < i ==> vm.def.vcpuTids[k] <= 0
    {
      if vm.def.vcpuTids[i] > 0 {
        assert vm.def.vcpuTids[..][i] > 0 && GetVcpuPid(vm, i) > 0;
        return true;
      }
      i := i + 1;
    }
    assert forall k :: 0 <= k < maxvcpus ==> vm.def.vcpuTids[..][k] == vm.def.vcpuTids[k];
    return false;
  }

  /** A thread list whose last report for some slot is a positive tid leaves
      the domain with a known vCPU pid, whatever the slots held before. */
  lemma {:induction false} RefreshReportsVcpuPid(tids: seq<int>, info: seq<ThreadInfo>, j: nat)
    requires VcpuIdsInRange(info, |tids|) && j < |tids|
    requires LastVcpuTid(info, j).Some? && LastVcpuTid(info, j).value > 0
    ensures SomeVcpuPid(ApplyThreadInfo(tids, info))
  {
    ApplyThreadInfoAt(tids, info, j);
  }

  // ---------------------------------------------------------------------
  // Machine name

  /** virCHDomainGetMachineName: the name systemd knows for the domain's
      process when it has one (`nameByPid` stands for
      virSystemdGetMachineNameByPID, None when it has no answer), otherwise
      the name `generate` (virDomainDriverGenerateMachineName) derives from
      the "ch" prefix, the domain id and name and the driver's privilege. */
  function GetMachineName(vm: DomainObj, nameByPid: int -> Option<string>,
                          generate: (string, int, string, bool) -> string): (name: string)
    reads vm
    requires vm.privateData.Some?
    ensures vm.pid != 0 && nameByPid(vm.pid).Some? ==> name == nameByPid(vm.pid).value
    ensures vm.pid == 0 || nameByPid(vm.pid).None? ==>
              name == generate("ch", vm.def.id, vm.def.name, vm.privateData.value.driver.privileged)
  {
    var byPid := if vm.pid != 0 then nameByPid(vm.pid) else None;
    match byPid
    case Some(n) => n
    case None => generate("ch", vm.def.id, vm.def.name, vm.privateData.value.driver.privileged)
  }

  /** A domain without a process never consults the naming service. */
  lemma MachineNameWithoutPid(vm: DomainObj, s1: int -> Option<string>, s2: int -> Option<string>,
                              generate: (string, int, string, bool) -> string)
    requires vm.privateData.Some? && vm.pid == 0
    ensures GetMachineName(vm, s1, generate) == GetMachineName(vm, s2, generate)
  {
  }
}

/** The admission checks Cloud-Hypervisor applies to a domain definition:
    the device allow-list with its console and serial rules, the CPU mode,
    the huge-page admission and the post-parse capability check. */
module ChValidate {
  import opened ChDef

  /** The device types Cloud-Hypervisor admits. */
  const AdmittedDeviceTypes: set<DeviceType> := {Disk, Net, Memory, Vsock, Controller, Chr}

  /** A console or serial backend Cloud-Hypervisor can drive. */
  predicate PtyOrUnix(c: ChrDef) {
    c.sourceType == ChrPty || c.sourceType == ChrUnix
  }

  /** The console and serial rules, as a property of the whole definition. */
  predicate ChrDevicesSupported(def: DomainDef) {
    && |def.consoles| <= 1
    && |def.serials| <= 1
    && (forall c :: c in def.consoles ==> PtyOrUnix(c))
    && (forall c :: c in def.serials ==> PtyOrUnix(c))
  }

  /** chValidateDomainDeviceDef: admit the device by its type, then check the
      definition's consoles and serials. */
  function ValidateDeviceDef(dev: DeviceDef, def: DomainDef): (o: Outcome)
    ensures o.Pass? <==>
              && DeviceTypeOf(dev.typeCode).Some?
              && DeviceTypeOf(dev.typeCode).value in AdmittedDeviceTypes
              && ChrDevicesSupported(def)
    ensures DeviceTypeOf(dev.typeCode).None? ==> o == Fail(DeviceTypeOutOfRange(dev.typeCode))
    ensures DeviceTypeOf(dev.typeCode) == Some(NoneDevice) ==> o == Fail(UnexpectedNoneDevice)
    ensures forall t :: DeviceTypeOf(dev.typeCode) == Some(t) && t != NoneDevice && t !in AdmittedDeviceTypes
                        ==> o == Fail(UnsupportedDevice(t))
    ensures DeviceTypeOf(dev.typeCode).Some? && DeviceTypeOf(dev.typeCode).value in AdmittedDeviceTypes ==>
              (|def.consoles| > 1 ==> o == Fail(TooManyConsoles)) &&
              (|def.consoles| <= 1 && |def.serials| > 1 ==> o == Fail(TooManySerials))
  {
    match DeviceTypeOf(dev.typeCode)
    case None => Fail(DeviceTypeOutOfRange(dev.typeCode))
    case Some(t) =>
      if t == NoneDevice then Fail(UnexpectedNoneDevice)
      else if t !in AdmittedDeviceTypes then Fail(UnsupportedDevice(t))
      else if |def.consoles| > 1 then Fail(TooManyConsoles)
      else if |def.serials| > 1 then Fail(TooManySerials)
      else if |def.consoles| > 0 && !PtyOrUnix(def.consoles[0]) then Fail(ConsoleNotPtyOrUnix)
      else if |def.serials| > 0 && !PtyOrUnix(def.serials[0]) then Fail(SerialNotPtyOrUnix)
      else Pass
  }

  /** Every failure of the device validator is reported as a configuration
      the driver does not support exactly when a named type is refused, and
      as an internal error otherwise. */
  lemma DeviceFailureErrorNumbers(dev: DeviceDef, def: DomainDef)
    requires ValidateDeviceDef(dev, def).Fail?
    ensures ReportedError(ValidateDeviceDef(dev, def).reason) ==
              if ValidateDeviceDef(dev, def).reason.UnsupportedDevice? then Some(ConfigUnsupported)
              else Some(InternalError)
  {
  }

  /** The device verdict depends on the definition only through its consoles
      and serials. */
  lemma DeviceVerdictReadsOnlyChrDevices(dev: DeviceDef, d1: DomainDef, d2: DomainDef)
    requires d1.consoles == d2.consoles && d1.serials == d2.serials
    ensures ValidateDeviceDef(dev, d1) == ValidateDeviceDef(dev, d2)
  {
  }

  /** chValidateDomainDef: the only CPU mode accepted is host-passthrough. */
  function ValidateDomainDef(def: DomainDef): (o: Outcome)
    ensures o.Fail? <==> def.cpu.Some? && def.cpu.value.mode != CpuHostPassthrough
    ensures o.Fail? ==> o.reason == CpuModeNotPassthrough
  {
    if def.cpu.Some? && def.cpu.value.mode != CpuHostPassthrough then Fail(CpuModeNotPassthrough)
    else Pass
  }

  /** virCHDomainDefValidateMemory as a specification: the verdict for a
      definition whose memory tunables are `mem` and initial memory `initial`,
      on a host with page sizes `pagesSize`, where `freePages(size)` is what
      virNumaGetPageInfo reports as free for that size (None when it fails).
      The pages needed are the floor of the quotient. */
  function MemoryAdmission(mem: MemTune, initial: u64, pagesSize: seq<u64>,
                           freePages: u64 -> Option<u64>): Outcome
    requires 0 !in pagesSize
  {
    if |mem.hugepages| == 0 then Pass
    else if |mem.hugepages| > 1 then Fail(MultipleHugepages)
    else if mem.nosharepages then Fail(SharedPagesDisabled)
    else
      var size := mem.hugepages[0].size;
      if size !in pagesSize then Fail(HugepageSizeUnsupported(size))
      else match freePages(size)
        case None => Fail(PageInfoUnavailable)
        case Some(free) => if initial / size > free then Fail(NotEnoughHugepages(size)) else Pass
  }

  /** virCHDomainDefValidateMemory: a linear search of the host page sizes
      for the requested one, then the free-page comparison. Host page sizes
      are never 0, so the division is defined. */
  method ValidateMemory(def: DomainDef, caps: Caps, freePages: u64 -> Option<u64>)
    returns (o: Outcome)
    requires 0 !in caps.pagesSize
    ensures o == MemoryAdmission(def.mem, def.initialMemory, caps.pagesSize, freePages)
    ensures |def.mem.hugepages| == 0 ==> o.Pass?
    ensures |def.mem.hugepages| > 1 ==> o == Fail(MultipleHugepages)
    ensures |def.mem.hugepages| == 1 && def.mem.nosharepages ==> o == Fail(SharedPagesDisabled)
    ensures |def.mem.hugepages| == 1 && !def.mem.nosharepages ==>
              var size := def.mem.hugepages[0].size;
              && (size !in caps.pagesSize ==> o == Fail(HugepageSizeUnsupported(size)))
              && (size in caps.pagesSize && freePages(size).None? ==> o == Fail(PageInfoUnavailable))
              && (size in caps.pagesSize && freePages(size).Some? ==>
                    (o.Pass? <==> def.initialMemory / size <= freePages(size).value) &&
                    (o.Fail? ==> o == Fail(NotEnoughHugepages(size))))
  {
    var mem := def.mem;
    if |mem.hugepages| == 0 {
      return Pass;
    }
    if |mem.hugepages| > 1 {
      return Fail(MultipleHugepages);
    }
    if mem.nosharepages {
      return Fail(SharedPagesDisabled);
    }
    var size := mem.hugepages[0].size;
    var i := 0;
    while i < |caps.pagesSize|
      invariant 0 <= i <= |caps.pagesSize|
      invariant size !in caps.pagesSize[..i]
    {
      if size == caps.pagesSize[i] {
        break;
      }
      i := i + 1;
    }
    if i == |caps.pagesSize| {
      assert caps.pagesSize[..i] == caps.pagesSize;
      return Fail(HugepageSizeUnsupported(size));
    }
    assert size in caps.pagesSize && size != 0;
    var free := freePages(size);
    if free.None? {
      return Fail(PageInfoUnavailable);
    }
    var needed := def.initialMemory / size;
    if needed > free.value {
      return Fail(NotEnoughHugepages(size));
    }
    return Pass;
  }

  /** virCHDomainDefValidate: fetch the capabilities (None when the driver
      cannot), then run the huge-page admission. */
  method DefValidate(def: DomainDef, caps: Option<Caps>, freePages: u64 -> Option<u64>)
    returns (o: Outcome)
    requires caps.Some? ==> 0 !in caps.value.pagesSize
    ensures caps.None? ==> o == Fail(CapabilitiesUnavailable)
    ensures caps.Some? ==> o == MemoryAdmission(def.mem, def.initialMemory, caps.value.pagesSize, freePages)
  {
    if caps.None? {
      return Fail(CapabilitiesUnavailable);
    }
    o := ValidateMemory(def, caps.value, freePages);
  }

  /** A definition that asks for no huge pages is admitted whatever the host. */
  lemma NoHugepagesAlwaysAdmitted(mem: MemTune, initial: u64, pagesSize: seq<u64>,
                                  freePages: u64 -> Option<u64>)
    requires 0 !in pagesSize && |mem.hugepages| == 0
    ensures MemoryAdmission(mem, initial, pagesSize, freePages) == Pass
  {
  }

  /** Several huge-page sizes, or shared pages disabled, are refused whatever
      the host reports: the verdict does not depend on the page sizes or the
      free counts. */
  lemma HostIndependentRefusals(mem: MemTune, initial: u64, p1: seq<u64>, p2: seq<u64>,
                                f1: u64 -> Option<u64>, f2: u64 -> Option<u64>)
    requires 0 !in p1 && 0 !in p2
    requires |mem.hugepages| > 1 || (|mem.hugepages| == 1 && mem.nosharepages)
    ensures MemoryAdmission(mem, initial, p1, f1) == MemoryAdmission(mem, initial, p2, f2)
    ensures MemoryAdmission(mem, initial, p1, f1).Fail?
  {
  }

  /** The floor comparison admits exactly the initial memories below one page
      more than the free pages cover: up to size - 1 units beyond `free * size`
      are admitted. */
  lemma FloorAdmissionBound(initial: nat, size: nat, free: nat)
    requires size > 0
    ensures initial / size <= free <==> initial < (free + 1) * size
  {
    var q, r := initial / size, initial % size;
    assert initial == q * size + r && 0 <= r < size;
    if q <= free {
      assert q * size <= free * size by { MulMonotone(q, free, size); }
      assert (free + 1) * size == free * size + size;
    } else {
      assert (free + 1) * size <= q * size by { MulMonotone(free + 1, q, size); }
    }
  }

  lemma MulMonotone(a: nat, b: nat, c: nat)
    requires a <= b
    ensures a * c <= b * c
  {
  }

  /** With a supported size and a known free count, admission holds exactly
      when the initial memory is below `(free + 1) * size`, so it may pass
      although the rounded-up page count exceeds the free count. */
  lemma AdmissionByMemoryBound(mem: MemTune, initial: u64, pagesSize: seq<u64>,
                               freePages: u64 -> Option<u64>)
    requires |mem.hugepages| == 1 && !mem.nosharepages
    requires 0 !in pagesSize && mem.hugepages[0].size in pagesSize
    requires freePages(mem.hugepages[0].size).Some?
    ensures MemoryAdmission(mem, initial, pagesSize, freePages).Pass? <==>
              initial < (freePages(mem.hugepages[0].size).value + 1) * mem.hugepages[0].size
  {
    FloorAdmissionBound(initial, mem.hugepages[0].size, freePages(mem.hugepages[0].size).value);
  }

  /** Three units of memory in pages of two with one page free: the source
      admits it (3 / 2 == 1), though two pages would be needed. */
  lemma FloorAdmitsPartialPage()
    ensures MemoryAdmission(MemTune([Hugepage(2)], false), 3, [2], (s: u64) => Some(1)) == Pass
  {
  }

  /** Equality of needed and free pages passes; one page short fails. */
  lemma AdmissionBoundary(mem: MemTune, initial: u64, pagesSize: seq<u64>,
                          freePages: u64 -> Option<u64>)
    requires |mem.hugepages| == 1 && !mem.nosharepages
    requires 0 !in pagesSize && mem.hugepages[0].size in pagesSize
    requires freePages(mem.hugepages[0].size).Some?
    ensures initial / mem.hugepages[0].size == freePages(mem.hugepages[0].size).value ==>
              MemoryAdmission(mem, initial, pagesSize, freePages) == Pass
    ensures initial / mem.hugepages[0].size == freePages(mem.hugepages[0].size).value + 1 ==>
              MemoryAdmission(mem, initial, pagesSize, freePages) == Fail(NotEnoughHugepages(mem.hugepages[0].size))
  {
  }

  /** virCHDomainDefPostParse: the capabilities must be available (None when
      the driver cannot fetch them) and must support the definition's OS type,
      architecture and virtualization type; `domainSupported` stands for
      virCapabilitiesDomainSupported. */
  function DefPostParse(def: DomainDef, caps: Option<Caps>,
                        domainSupported: (Caps, OsTriple) -> bool): (o: Outcome)
    ensures o.Pass? <==> caps.Some? && domainSupported(caps.value, def.os)
    ensures caps.None? ==> o == Fail(CapabilitiesUnavailable)
    ensures caps.Some? && !domainSupported(caps.value, def.os) ==> o == Fail(DomainNotSupported)
    ensures StatusCode(o) == if o.Pass? then 0 else -1
  {
    if caps.None? then Fail(CapabilitiesUnavailable)
    else if !domainSupported(caps.value, def.os) then Fail(DomainNotSupported)
    else Pass
  }
}

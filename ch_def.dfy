/** Data model of the Cloud-Hypervisor domain glue: the parts of a domain
    definition, of the host capabilities and of the monitor's thread records
    that src/ch/ch_domain.c reads or writes, and the failures it reports. */
module ChDef {

  /** `unsigned long long` in the source. */
  type u64 = x: int | 0 <= x < 0x1_0000_0000_0000_0000

  datatype Option<+T> = None | Some(value: T)

  datatype Result<+T, +E> = Ok(value: T) | Err(error: E)

  /** The libvirt error numbers this file raises through virReportError. */
  datatype ErrorNumber = ConfigUnsupported | InternalError | NoDomain

  /** Why a stage or a lookup failed. */
  datatype Reason =
    // chValidateDomainDeviceDef
    | UnsupportedDevice(kind: DeviceType)
    | UnexpectedNoneDevice
    | DeviceTypeOutOfRange(code: int)
    | TooManyConsoles
    | TooManySerials
    | ConsoleNotPtyOrUnix
    | SerialNotPtyOrUnix
    // chValidateDomainDef
    | CpuModeNotPassthrough
    // virCHDomainDefValidateMemory / virCHDomainDefValidate
    | MultipleHugepages
    | SharedPagesDisabled
    | HugepageSizeUnsupported(size: u64)
    | PageInfoUnavailable
    | NotEnoughHugepages(size: u64)
    | CapabilitiesUnavailable
    // virCHDomainDefPostParse
    | DomainNotSupported
    // virCHDomainDefPostParseBasic
    | NoEmulator
    // virCHDomainObjFromDomain
    | NoSuchDomain(uuid: string, name: string)

  /** The error number this file reports for a failure, or None when the file
      only logs it (VIR_ERROR) or leaves the report to the callee that failed. */
  function ReportedError(r: Reason): (e: Option<ErrorNumber>)
    ensures e == Some(ConfigUnsupported) <==>
              r.UnsupportedDevice? || r.MultipleHugepages? || r.SharedPagesDisabled? ||
              r.HugepageSizeUnsupported? || r.NotEnoughHugepages? || r.NoEmulator?
    ensures e == Some(NoDomain) <==> r.NoSuchDomain?
    ensures e.None? <==>
              r.CpuModeNotPassthrough? || r.PageInfoUnavailable? ||
              r.CapabilitiesUnavailable? || r.DomainNotSupported?
  {
    match r
    case UnsupportedDevice(_) => Some(ConfigUnsupported)
    // virReportEnumRangeError reports an internal error too
    case UnexpectedNoneDevice | DeviceTypeOutOfRange(_) => Some(InternalError)
    case TooManyConsoles | TooManySerials => Some(InternalError)
    case ConsoleNotPtyOrUnix | SerialNotPtyOrUnix => Some(InternalError)
    case CpuModeNotPassthrough => None
    case MultipleHugepages | SharedPagesDisabled => Some(ConfigUnsupported)
    case HugepageSizeUnsupported(_) | NotEnoughHugepages(_) => Some(ConfigUnsupported)
    case PageInfoUnavailable | CapabilitiesUnavailable | DomainNotSupported => None
    case NoEmulator => Some(ConfigUnsupported)
    case NoSuchDomain(_, _) => Some(NoDomain)
  }

  /** The verdict of a callback that returns an int status in the source. */
  datatype Outcome = Pass | Fail(reason: Reason)

  /** The int a callback returns for an outcome: 0 on success, 1 when the
      basic post-parse callback finds no emulator, -1 on every other failure. */
  function StatusCode(o: Outcome): (rc: int)
    ensures rc == 0 <==> o.Pass?
    ensures rc == 1 <==> o == Fail(NoEmulator)
    ensures rc == -1 <==> o.Fail? && o.reason != NoEmulator
  {
    match o
    case Pass => 0
    case Fail(NoEmulator) => 1
    case Fail(_) => -1
  }

  /** virDomainDeviceType, without its LAST sentinel. */
  datatype DeviceType =
    | NoneDevice | Disk | Lease | Fs | Net | Input | Sound | Video | Hostdev
    | Watchdog | Controller | Graphics | Hub | Redirdev | Smartcard | Chr
    | Memballoon | Nvram | Rng | Shmem | Tpm | Panic | Memory | Iommu | Vsock
    | Audio | Crypto

  /** The enumerators in declaration order: the code of a type is its index. */
  const DeviceTypes: seq<DeviceType> :=
    [ NoneDevice, Disk, Lease, Fs, Net, Input, Sound, Video, Hostdev,
      Watchdog, Controller, Graphics, Hub, Redirdev, Smartcard, Chr,
      Memballoon, Nvram, Rng, Shmem, Tpm, Panic, Memory, Iommu, Vsock,
      Audio, Crypto ]

  /** VIR_DOMAIN_DEVICE_LAST: the first code that names no device type. */
  const DeviceTypeLast: int := 27

  /** The int code of a device type. */
  function DeviceTypeCode(t: DeviceType): (c: int)
    ensures 0 <= c < DeviceTypeLast && c < |DeviceTypes| && DeviceTypes[c] == t
  {
    match t
    case NoneDevice => 0  case Disk => 1  case Lease => 2  case Fs => 3
    case Net => 4  case Input => 5  case Sound => 6  case Video => 7
    case Hostdev => 8  case Watchdog => 9  case Controller => 10
    case Graphics => 11  case Hub => 12  case Redirdev => 13
    case Smartcard => 14  case Chr => 15  case Memballoon => 16
    case Nvram => 17  case Rng => 18  case Shmem => 19  case Tpm => 20
    case Panic => 21  case Memory => 22  case Iommu => 23  case Vsock => 24
    case Audio => 25  case Crypto => 26
  }

  /** The device type an int code names, None when it is out of range
      (LAST and beyond, or negative). */
  function DeviceTypeOf(code: int): (t: Option<DeviceType>)
    ensures t.Some? <==> 0 <= code < DeviceTypeLast
    ensures t.Some? ==> DeviceTypeCode(t.value) == code
  {
    if 0 <= code < |DeviceTypes| then Some(DeviceTypes[code]) else None
  }

  /** virDomainChrType: the backend of a character device. */
  datatype ChrType =
    | ChrNull | ChrVc | ChrPty | ChrDev | ChrFile | ChrPipe | ChrStdio
    | ChrUdp | ChrTcp | ChrUnix | ChrSpicevmc | ChrSpiceport | ChrNmdm
    | ChrQemuVdagent | ChrDbus

  /** A console or serial device; only its source type is read here. */
  datatype ChrDef = ChrDef(sourceType: ChrType)

  /** virCPUMode. */
  datatype CpuMode = CpuCustom | CpuHostModel | CpuHostPassthrough | CpuMaximum

  datatype CpuDef = CpuDef(mode: CpuMode)

  /** One `<page>` element of `<hugepages>`. */
  datatype Hugepage = Hugepage(size: u64)

  /** The memory tunables read by the huge-page admission check. */
  datatype MemTune = MemTune(hugepages: seq<Hugepage>, nosharepages: bool)

  /** The OS type, architecture and virtualization type of a definition. */
  datatype OsTriple = OsTriple(osType: string, arch: string, virtType: string)

  /** The part of the host capabilities the admission check reads:
      the page sizes the host supports. */
  datatype Caps = Caps(pagesSize: seq<u64>)

  /** A device definition handed to the device validator. */
  datatype DeviceDef = DeviceDef(typeCode: int)

  /** virCHThreadType, with every kind other than vcpu folded into one. */
  datatype ThreadKind = VcpuThread | OtherThread

  /** One record of the monitor's thread list; cpuid is meaningful for vcpu
      threads only. */
  datatype ThreadInfo = ThreadInfo(kind: ThreadKind, cpuid: nat, tid: int)

  /** virDomainDef: a domain definition. The emulator path is assigned by the
      basic post-parse callback and each vCPU slot's private tid by the thread
      refresh; the rest is fixed once parsed. */
  class DomainDef {
    var emulator: Option<string>
    const uuid: string
    const name: string
    const id: int
    const os: OsTriple
    const cpu: Option<CpuDef>
    const mem: MemTune
    /** virDomainDefGetMemoryInitial(def) */
    const initialMemory: u64
    const consoles: seq<ChrDef>
    const serials: seq<ChrDef>
    /** The private tid of each vCPU slot, indexed by cpu id; one slot per
        possible vCPU, hot-pluggable ones included. */
    const vcpuTids: array<int>

    /** virDomainDefGetVcpusMax(def) */
    function MaxVcpus(): nat { vcpuTids.Length }

    /** A parsed definition; every vCPU private record starts with tid 0
        (virCHDomainVcpuPrivateNew zero-fills it). */
    constructor (emulator: Option<string>, uuid: string, name: string, id: int,
                 os: OsTriple, cpu: Option<CpuDef>, mem: MemTune, initialMemory: u64,
                 consoles: seq<ChrDef>, serials: seq<ChrDef>, maxVcpus: nat)
      ensures this.emulator == emulator && this.uuid == uuid && this.name == name
      ensures this.id == id && this.os == os && this.cpu == cpu && this.mem == mem
      ensures this.initialMemory == initialMemory
      ensures this.consoles == consoles && this.serials == serials
      ensures fresh(vcpuTids) && MaxVcpus() == maxVcpus
      ensures forall i :: 0 <= i < maxVcpus ==> vcpuTids[i] == 0
    {
      this.emulator := emulator;
      this.uuid := uuid;
      this.name := name;
      this.id := id;
      this.os := os;
      this.cpu := cpu;
      this.mem := mem;
      this.initialMemory := initialMemory;
      this.consoles := consoles;
      this.serials := serials;
      this.vcpuTids := new int[maxVcpus](_ => 0);
    }
  }
}

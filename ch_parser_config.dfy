/** The parser configuration the Cloud-Hypervisor driver registers with the
    domain XML layer: a struct filled by designated initializers, in which
    the domain-validate field is named twice. Under section 6.7.9, paragraph
    19 of ISO C11, a later initializer of a field overrides an earlier one,
    so the CPU-mode validator is registered and the memory validator is not. */
module ChParserConfig {
  import opened ChDef
  import ChValidate

  /** The callbacks ch_domain.c defines for the parser configuration. */
  datatype Callback =
    | PostParseBasicCallback     // virCHDomainDefPostParseBasic
    | PostParseCallback          // virCHDomainDefPostParse
    | MemoryValidateCallback     // virCHDomainDefValidate
    | DeviceValidateCallback     // chValidateDomainDeviceDef
    | CpuModeValidateCallback    // chValidateDomainDef

  /** The fields of virDomainDefParserConfig that the driver initializes. */
  datatype Field = DomainPostParseBasic | DomainPostParse | DomainValidate | DeviceValidate

  datatype Initializer = Initializer(field: Field, callback: Callback)

  /** The designated initializers of virCHDriverDomainDefParserConfig, in
      the order they are written. */
  const ChInitializers: seq<Initializer> := [
    Initializer(DomainPostParseBasic, PostParseBasicCallback),
    Initializer(DomainPostParse, PostParseCallback),
    Initializer(DomainValidate, MemoryValidateCallback),
    Initializer(DeviceValidate, DeviceValidateCallback),
    Initializer(DomainValidate, CpuModeValidateCallback)
  ]

  /** The struct a list of designated initializers produces: each field holds
      the callback of the last initializer naming it; fields nobody names are
      left out of the map (NULL). */
  function Designate(inits: seq<Initializer>): map<Field, Callback>
    decreases |inits|
  {
    if inits == [] then map[]
    else
      var last := inits[|inits| - 1];
      Designate(inits[..|inits| - 1])[last.field := last.callback]
  }

  /** The fields set are exactly the fields some initializer names. */
  lemma {:induction false} DesignatedFields(inits: seq<Initializer>)
    ensures Designate(inits).Keys == set i | 0 <= i < |inits| :: inits[i].field
    decreases |inits|
  {
    if inits != [] {
      var n := |inits| - 1;
      DesignatedFields(inits[..n]);
      var before := set i | 0 <= i < n :: inits[..n][i].field;
      assert before == set i | 0 <= i < n :: inits[i].field;
      assert (set i | 0 <= i < |inits| :: inits[i].field) == before + {inits[n].field};
    }
  }

  /** A field holds the callback of the last initializer naming it. */
  lemma {:induction false} LastInitializerWins(inits: seq<Initializer>, i: nat)
    requires i < |inits|
    requires forall j :: i < j < |inits| ==> inits[j].field != inits[i].field
    ensures inits[i].field in Designate(inits)
    ensures Designate(inits)[inits[i].field] == inits[i].callback
    decreases |inits|
  {
    var n := |inits| - 1;
    if i < n {
      var init := inits[..n];
      assert init[i] == inits[i];
      LastInitializerWins(init, i);
    }
  }

  /** The configuration the driver registers: basic post-parse, post-parse,
      device validation and CPU-mode validation; the memory validator is not
      reachable through it. */
  lemma ChRegisteredCallbacks()
    ensures Designate(ChInitializers) == map[
              DomainPostParseBasic := PostParseBasicCallback,
              DomainPostParse := PostParseCallback,
              DomainValidate := CpuModeValidateCallback,
              DeviceValidate := DeviceValidateCallback]
    ensures Designate(ChInitializers).Values ==
              {PostParseBasicCallback, PostParseCallback, DeviceValidateCallback, CpuModeValidateCallback}
    ensures MemoryValidateCallback !in Designate(ChInitializers).Values
  {
    var d := Designate(ChInitializers);
    DesignatedFields(ChInitializers);
    assert ChInitializers[4].field == DomainValidate;
    assert ChInitializers[3].field == DeviceValidate;
    assert ChInitializers[1].field == DomainPostParse;
    assert ChInitializers[0].field == DomainPostParseBasic;
    LastInitializerWins(ChInitializers, 4);
    LastInitializerWins(ChInitializers, 3);
    LastInitializerWins(ChInitializers, 1);
    LastInitializerWins(ChInitializers, 0);
    assert d.Keys == {DomainPostParseBasic, DomainPostParse, DomainValidate, DeviceValidate};
    var m := map[DomainPostParseBasic := PostParseBasicCallback,
                 DomainPostParse := PostParseCallback,
                 DomainValidate := CpuModeValidateCallback,
                 DeviceValidate := DeviceValidateCallback];
    assert d == m;
    assert m.Values == {PostParseBasicCallback, PostParseCallback, DeviceValidateCallback, CpuModeValidateCallback} by {
      assert m[DomainPostParseBasic] == PostParseBasicCallback;
      assert m[DomainPostParse] == PostParseCallback;
      assert m[DomainValidate] == CpuModeValidateCallback;
      assert m[DeviceValidate] == DeviceValidateCallback;
    }
  }

  /** The domain-level validation the registered configuration runs: the
      callback in the domain-validate field. */
  function RegisteredDomainValidate(def: DomainDef): (o: Outcome)
    ensures o == ChValidate.ValidateDomainDef(def)
  {
    ChRegisteredCallbacks();
    match Designate(ChInitializers)[DomainValidate]
    case CpuModeValidateCallback => ChValidate.ValidateDomainDef(def)
    case _ => assert false; Pass
  }

  /** Through the registered configuration, a definition with a
      host-passthrough CPU (or none) that asks for several huge-page sizes
      passes domain validation, though the memory validator refuses it. */
  lemma HugepageRefusalUnreachable(def: DomainDef, pagesSize: seq<u64>, freePages: u64 -> Option<u64>)
    requires def.cpu.None? || def.cpu.value.mode == CpuHostPassthrough
    requires |def.mem.hugepages| > 1 && 0 !in pagesSize
    ensures RegisteredDomainValidate(def) == Pass
    ensures ChValidate.MemoryAdmission(def.mem, def.initialMemory, pagesSize, freePages) == Fail(MultipleHugepages)
  {
  }
}

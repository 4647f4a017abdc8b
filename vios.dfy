/** plugins/modules/vios.py: create a Virtual I/O Server partition, install
    it from a NIM server or from an image on the console's disk, accept its
    license, and show its details. */
module Vios {
  import opened Python
  import opened Console
  import opened Outcomes
  import opened Rules

  const BothMedia := "Cannot provide both nim_IP and image_dir. Provide one of them."
  const NoMedium := "Provide atleast one parameter out of nim_IP and image_dir"

  const NimMandatory := ["hmc_host", "hmc_auth", "system_name", "nim_IP", "vios_IP", "nim_subnetmask", "nim_gateway", "name"]
  const NimUnsupported := ["settings", "virtual_optical_media", "free_pvs", "vios_iso", "image_dir", "network_macaddr", "prof_name", "label"]
  const DiskMandatory := ["hmc_host", "hmc_auth", "vios_iso", "image_dir", "vios_IP", "vios_gateway", "vios_subnetmask", "system_name", "vios_name", "prof_name"]
  const DiskUnsupported := ["nim_IP", "name", "nim_gateway", "nim_subnetmask"]
  const PartitionMandatory := ["hmc_host", "hmc_auth", "system_name", "name"]
  const PresentUnsupported := ["nim_IP", "nim_gateway", "vios_IP", "nim_subnetmask", "prof_name", "location_code", "nim_vlan_id", "nim_vlan_priority", "timeout", "virtual_optical_media", "free_pvs"]
  const LicenseUnsupported := ["nim_IP", "nim_gateway", "vios_IP", "nim_subnetmask", "prof_name", "location_code", "nim_vlan_id", "nim_vlan_priority", "timeout", "settings", "virtual_optical_media", "free_pvs"]
  const FactsUnsupported := ["nim_IP", "nim_gateway", "vios_IP", "nim_subnetmask", "prof_name", "location_code", "nim_vlan_id", "nim_vlan_priority", "timeout", "settings"]

  /** Mandatory names are checked first; several missing names are joined
      with ",", several unsupported ones with ", ". */
  const ViosStyle := Style(true, ",", ", ")

  function RuleTable(params: Fields): (rules: RuleChoice)
    ensures rules.Rejected? <==>
      Operation(params) == Str("install") && Truthy(Get(params, "nim_IP")) == Truthy(Get(params, "image_dir"))
    ensures rules.Lists? ==>
      "hmc_host" in rules.mandatory && "hmc_auth" in rules.mandatory && "system_name" in rules.mandatory
    ensures Operation(params) == Str("install") && rules.Lists? ==>
      (Truthy(Get(params, "nim_IP")) <==> "nim_IP" in rules.mandatory) &&
      (Truthy(Get(params, "image_dir")) <==> "image_dir" in rules.mandatory)
  {
    var opr := Operation(params);
    var nim, dir := Truthy(Get(params, "nim_IP")), Truthy(Get(params, "image_dir"));
    if opr == Str("install") then
      if nim && dir then Rejected(BothMedia)
      else if nim then Lists(NimMandatory, NimUnsupported)
      else if dir then Lists(DiskMandatory, DiskUnsupported)
      else Rejected(NoMedium)
    else if opr == Str("present") then Lists(PartitionMandatory, PresentUnsupported)
    else if opr == Str("accept_license") then Lists(PartitionMandatory, LicenseUnsupported)
    else Lists(PartitionMandatory, FactsUnsupported)
  }

  /** What `validate_parameters` raises, if anything. */
  function Validation(params: Fields): Option<string>
  {
    match RuleTable(params)
    case Rejected(msg) => Some(msg)
    case Lists(mandatory, unsupported) => Check(mandatory, unsupported, params, ViosStyle)
  }

  method ValidateParameters(params: Fields) returns (err: Option<string>)
    ensures err == Validation(params)
  {
    match RuleTable(params)
    case Rejected(msg) =>
      err := Some(msg);
    case Lists(mandatory, unsupported) =>
      err := Validate(mandatory, unsupported, params, ViosStyle);
  }

  /** An install request names exactly one medium, and that is settled
      before any mandatory or unsupported name is looked at. */
  lemma InstallMediumFirst(params: Fields)
    requires Operation(params) == Str("install")
    ensures Truthy(Get(params, "nim_IP")) && Truthy(Get(params, "image_dir")) ==> Validation(params) == Some(BothMedia)
    ensures !Truthy(Get(params, "nim_IP")) && !Truthy(Get(params, "image_dir")) ==> Validation(params) == Some(NoMedium)
  {
  }

  /** A request passes validation exactly when a rule list applies, every
      mandatory name has a truthy value and no unsupported name has one; a
      missing mandatory name is reported even when unsupported ones are set. */
  lemma ValidationVerdict(params: Fields)
    ensures Validation(params).None? <==>
      RuleTable(params).Lists? &&
      (forall x :: x in RuleTable(params).mandatory ==> Truthy(Get(params, x))) &&
      (forall x :: x in RuleTable(params).unsupported ==> !Truthy(Get(params, x)))
    ensures RuleTable(params).Lists? && Flagged(RuleTable(params).mandatory, params, false) != [] ==>
      Validation(params) == Some(MissingMessage(Flagged(RuleTable(params).mandatory, params, false), ","))
  {
  }

  // ---- settings of a new partition ----

  const NotSupportSettings := [
    "lpar_env", "os400_restricted_io_mode", "console_slot", "alt_restart_device_slot",
    "alt_console_slot", "op_console_slot", "load_source_slot", "hsl_pool_id",
    "virtual_opti_pool_id", "vnic_adapters", "electronic_err_reporting", "suspend_capable",
    "simplified_remote_restart_capable", "remote_restart_capable", "migration_disabled",
    "virtual_serial_num", "min_num_huge_pages", "desired_num_huge_pages", "max_num_huge_pages",
    "name", "lpar_name", "rs_device_name", "powervm_mgmt_capable", "primary_paging_vios_name",
    "primary_paging_vios_id", "secondary_paging_vios_name", "secondary_paging_vios_id",
    "primary_rs_vios_name", "primary_rs_vios_id", "secondary_rs_vios_name", "secondary_rs_vios_id"]

  /** The keys a partition of this kind does not accept, in the order given. */
  function Offending(keys: seq<string>): (bad: seq<string>)
    ensures |bad| <= |keys|
    ensures forall i :: 0 <= i < |bad| ==> bad[i] in keys && bad[i] in NotSupportSettings
  {
    if keys == [] then []
    else (if keys[0] in NotSupportSettings then [keys[0]] else []) + Offending(keys[1..])
  }

  lemma {:induction false} OffendingMembers(keys: seq<string>, k: string)
    ensures k in Offending(keys) <==> k in keys && k in NotSupportSettings
  {
    if keys != [] {
      assert k in keys <==> k == keys[0] || k in keys[1..];
      OffendingMembers(keys[1..], k);
    }
  }

  /** What `validate_settings_param` raises, if anything.  The argument
      spec declares `settings` a dictionary; its keys are walked in order. */
  function SettingsError(settings: Value): Option<string>
  {
    if Truthy(settings) then
      var bad := Offending(Keys(settings));
      if bad != [] then Some("Invalid parameters: " + Join(bad, ", ")) else None
    else None
  }

  /** Settings are refused exactly when one of their keys is not supported,
      and the message lists every such key in the settings' order; absent or
      empty settings always pass. */
  lemma SettingsVerdict(settings: Value)
    ensures SettingsError(settings).Some? <==> exists k :: k in Keys(settings) && k in NotSupportSettings
    ensures SettingsError(settings).Some? ==>
      SettingsError(settings).value == "Invalid parameters: " + Join(Offending(Keys(settings)), ", ")
    ensures !Truthy(settings) ==> SettingsError(settings).None?
  {
    var keys := Keys(settings);
    forall k { OffendingMembers(keys, k); }
    if Offending(keys) != [] {
      assert Offending(keys)[0] in Offending(keys);
    }
    if !Truthy(settings) {
      assert keys == [];
    }
  }

  /** The profile `createVios` reads the new partition back with: the
      settings' `profile_name`, `default_profile` when the settings lack it,
      and none at all without settings. */
  function CreatedProfile(settings: Value): (profile: Value)
    ensures !Truthy(settings) ==> profile == Nothing
    ensures Truthy(settings) && settings.Dict? && "profile_name" !in ToMap(settings.entries) ==>
      profile == Str("default_profile")
    ensures Truthy(settings) && settings.Dict? && "profile_name" in ToMap(settings.entries) ==>
      profile == ToMap(settings.entries)["profile_name"]
  {
    if Truthy(settings) && settings.Dict? then
      var m := ToMap(settings.entries);
      if "profile_name" in m then m["profile_name"] else Str("default_profile")
    else Nothing
  }

  /** The partition lookup before a create lets the create go ahead: it
      found nothing, or failed with the console's "partition not found"
      code HSCL8012. */
  predicate LookupProceeds(lookup: Reply<Fields>)
  {
    match lookup
    case Answer(config) => config == map[]
    case Refused(text) => Contains(text, "HSCL8012")
  }

  /** `createVios`: validate, refuse unsupported settings, create the
      partition only when it does not exist yet, and read it back. */
  function CreateVios(params: Fields, lookup: Reply<Fields>, created: Reply<()>, fetched: Reply<Fields>): (run: Run)
    ensures Validation(params).Some? ==> run == Run(Raised(ParameterError(Validation(params).value)), [])
    ensures Validation(params).None? && SettingsError(Get(params, "settings")).Some? ==>
      run == Run(Raised(ParameterError(SettingsError(Get(params, "settings")).value)), [])
    ensures Validation(params).None? && SettingsError(Get(params, "settings")).None? ==>
      match lookup
      case Answer(config) => config != map[] ==> run.outcome == Returned(false, Data(config), None)
      case Refused(text) => !Contains(text, "HSCL8012") ==> run.outcome == Raised(HmcError(text))
    ensures run.outcome.Returned? && run.outcome.changed <==>
      Validation(params).None? && SettingsError(Get(params, "settings")).None? && LookupProceeds(lookup) &&
      created.Answer? && fetched.Answer?
    ensures |run.calls| == 3 ==>
      run.calls[2] == GetPartitionConfig(Get(params, "system_name"), Get(params, "name"), CreatedProfile(Get(params, "settings")))
  {
    if Validation(params).Some? then Run(Raised(ParameterError(Validation(params).value)), [])
    else if SettingsError(Get(params, "settings")).Some? then
      Run(Raised(ParameterError(SettingsError(Get(params, "settings")).value)), [])
    else Run(CreateEnding(lookup, created, fetched), CreateTrace(params, lookup, created))
  }

  /** How a valid create request ends: an existing partition is returned
      unchanged, a failed lookup raises, a refused create or read-back is
      caught, and otherwise the new partition's configuration is returned. */
  function CreateEnding(lookup: Reply<Fields>, created: Reply<()>, fetched: Reply<Fields>): Outcome
  {
    if !LookupProceeds(lookup) then
      match lookup
      case Answer(config) => Returned(false, Data(config), None)
      case Refused(text) => Raised(HmcError(text))
    else
      match created
      case Refused(text) => Caught(HmcError(text))
      case Answer(_) =>
        match fetched
        case Refused(text) => Caught(HmcError(text))
        case Answer(config) => Returned(true, Data(config), None)
  }

  /** The console calls of a valid create request: the lookup, then, when
      it lets the create go ahead, the create and, once that is accepted,
      the read-back. */
  function CreateTrace(params: Fields, lookup: Reply<Fields>, created: Reply<()>): seq<Call>
  {
    var system, name, settings := Get(params, "system_name"), Get(params, "name"), Get(params, "settings");
    var probe := GetPartitionConfig(system, name, Nothing);
    if !LookupProceeds(lookup) then [probe]
    else if created.Refused? then [probe, CreateVirtualIOServer(system, name, settings)]
    else [probe, CreateVirtualIOServer(system, name, settings), GetPartitionConfig(system, name, CreatedProfile(settings))]
  }

  /** The partition is created exactly when the request is valid and the
      lookup found no partition of that name, and nothing else is changed. */
  lemma CreateViosMutations(params: Fields, lookup: Reply<Fields>, created: Reply<()>, fetched: Reply<Fields>)
    ensures Mutations(CreateVios(params, lookup, created, fetched).calls) ==
      if Validation(params).None? && SettingsError(Get(params, "settings")).None? && LookupProceeds(lookup)
      then [CreateVirtualIOServer(Get(params, "system_name"), Get(params, "name"), Get(params, "settings"))]
      else []
  {
    if Validation(params).None? && SettingsError(Get(params, "settings")).None? {
      CreateTraceMutations(params, lookup, created);
    }
  }

  lemma CreateTraceMutations(params: Fields, lookup: Reply<Fields>, created: Reply<()>)
    ensures Mutations(CreateTrace(params, lookup, created)) ==
      if LookupProceeds(lookup)
      then [CreateVirtualIOServer(Get(params, "system_name"), Get(params, "name"), Get(params, "settings"))]
      else []
  {
    var system, name, settings := Get(params, "system_name"), Get(params, "name"), Get(params, "settings");
    var probe := GetPartitionConfig(system, name, Nothing);
    var create := CreateVirtualIOServer(system, name, settings);
    var readBack := GetPartitionConfig(system, name, CreatedProfile(settings));
    MutationsOfOne(probe);
    OneMutation([probe], create, readBack);
    var trace := CreateTrace(params, lookup, created);
    if !LookupProceeds(lookup) {
      assert trace == [probe];
    } else if created.Refused? {
      assert trace == [probe] + [create];
    } else {
      assert trace == [probe] + [create] + [readBack];
    }
  }

  /** Once the partition exists, asking again for it changes nothing. */
  lemma CreateConverges(params: Fields, config: Fields, created: Reply<()>, fetched: Reply<Fields>)
    requires Validation(params).None? && SettingsError(Get(params, "settings")).None?
    requires config != map[]
    ensures CreateVios(params, Answer(config), created, fetched) ==
      Run(Returned(false, Data(config), None), [GetPartitionConfig(Get(params, "system_name"), Get(params, "name"), Nothing)])
  {
  }

  // ---- installation ----

  /** One row of `fetchIODetailsForNetboot`: a network adapter of the
      partition's profile and the outcome of pinging the install server through it. */
  datatype Adapter = Adapter(pingResult: string, locationCode: string, macAddress: string)

  predicate Reachable(a: Adapter) { a.pingResult == "successful" }

  /** The position of the first adapter whose ping succeeded. */
  function FirstReachable(adapters: seq<Adapter>): (r: Option<nat>)
    ensures r.Some? ==> r.value < |adapters| && Reachable(adapters[r.value])
    ensures r.Some? ==> forall j :: 0 <= j < r.value ==> !Reachable(adapters[j])
    ensures r.None? ==> forall j :: 0 <= j < |adapters| ==> !Reachable(adapters[j])
  {
    if adapters == [] then None
    else if Reachable(adapters[0]) then Some(0)
    else match FirstReachable(adapters[1..])
      case Some(i) => Some(i + 1)
      case None => None
  }

  /** The `for dvcdict in dvcdictlt: if ... == 'successful': ...; break` loop. */
  method ChooseAdapter(adapters: seq<Adapter>) returns (found: Option<nat>)
    ensures found == FirstReachable(adapters)
  {
    found := None;
    var i := 0;
    while i < |adapters|
      invariant 0 <= i <= |adapters|
      invariant forall j :: 0 <= j < i ==> !Reachable(adapters[j])
    {
      if Reachable(adapters[i]) {
        found := Some(i);
        return;
      }
      i := i + 1;
    }
  }

  /** What `checkForOSToBootUpFully` reports once the partition has booted:
      `rmc_state`, the partition's properties, and its reference code. */
  datatype BootReport = BootReport(rmcState: Value, property: Fields, refCode: string)

  const TimeoutTooShort := "timeout should be more than 10mins"
  const RmcDown := "VIOS installation has been successfull but RMC didnt come up, please check the HMC firewall and security"
  const DiskRmcUp := "VIOS installation has been successfull"
  const DiskDone := "The VIOS image has been installed successfully."
  const NoAdapter := "None of adapters part of the profile is reachable through network. Please attach correct network adapter"
  const NoMac := "Mac address not retrievable."
  const InstallNoMedium := "Provide atleast one parameter out of nim_IP and image_dir to perform vios installation"

  /** `timeout < 10` before any command: None when the installation may go
      on, otherwise how it ends.  Comparing anything but a number with 10
      raises `TypeError`. */
  function TimeoutGate(timeout: Value): (stop: Option<Outcome>)
    ensures timeout.Int? ==> (stop.None? <==> timeout.i >= 10)
    ensures stop.Some? ==> stop.value == FailJson(Message(TimeoutTooShort)) || stop.value.Raised?
  {
    match timeout
    case Int(t) => if t < 10 then Some(FailJson(Message(TimeoutTooShort))) else None
    case Bool(_) => Some(FailJson(Message(TimeoutTooShort)))
    case _ => Some(Raised(TypeError(Unorderable(timeout))))
  }

  /** The `TypeError` text of comparing a value of `v`'s type with an int. */
  function Unorderable(v: Value): string
  {
    "'<' not supported between instances of '" + TypeName(v) + "' and 'int'"
  }

  function TypeName(v: Value): string
  {
    match v
    case Nothing => "NoneType"
    case Bool(_) => "bool"
    case Int(_) => "int"
    case Str(_) => "str"
    case List(_) => "list"
    case Dict(_) => "dict"
  }

  /** The wait in minutes: `params['timeout'] or 60`. */
  function InstallTimeout(params: Fields): (timeout: Value)
    ensures !Truthy(Get(params, "timeout")) ==> timeout == Int(60)
  {
    Or(Get(params, "timeout"), Int(60))
  }

  /** The wait of the disk path as written: `params['timeout']`, with no default. */
  function DiskTimeoutAsWritten(params: Fields): Value
  {
    Get(params, "timeout")
  }

  /** Finding, as written: a disk installation that leaves `timeout` out,
      as the documented example does, compares None with 10 and dies with
      `TypeError` before any command. */
  lemma DiskTimeoutAsWrittenRaises(params: Fields)
    requires Get(params, "timeout") == Nothing
    ensures TimeoutGate(DiskTimeoutAsWritten(params)) == Some(Raised(TypeError(Unorderable(Nothing))))
  {
  }

  /** Finding, as written: a disk installation asked to wait 0 minutes
      fails the gate, where the corrected wait of 60 minutes passes it. */
  lemma DiskTimeoutZeroFails(params: Fields)
    requires Get(params, "timeout") == Int(0)
    ensures TimeoutGate(DiskTimeoutAsWritten(params)) == Some(FailJson(Message(TimeoutTooShort)))
    ensures TimeoutGate(InstallTimeout(params)).None?
  {
  }

  /** Finding, corrected: with the documented default of 60 minutes a
      disk installation without `timeout` passes the gate, and any wait the
      gate lets through is a number of at least 10 minutes. */
  lemma InstallTimeoutDefaults(params: Fields)
    ensures !Truthy(Get(params, "timeout")) ==> TimeoutGate(InstallTimeout(params)).None?
    ensures TimeoutGate(InstallTimeout(params)).None? ==>
      InstallTimeout(params).Int? && InstallTimeout(params).i >= 10
  {
  }

  /** The boot verdict: RMC active is success; RMC down with an empty or
      "00" reference code is success with a warning; any other reference
      code fails, naming the wait and the code. */
  function ClassifyBoot(report: BootReport, timeout: Value, upWarning: Option<string>): (o: Outcome)
    ensures o.Returned? || o.FailJson?
    ensures Truthy(report.rmcState) ==> o == Returned(true, Data(report.property), upWarning)
    ensures !Truthy(report.rmcState) && report.refCode in ["", "00"] ==>
      o == Returned(true, Data(report.property), Some(RmcDown))
    ensures !Truthy(report.rmcState) && report.refCode !in ["", "00"] ==>
      o == FailJson(BootFailure(timeout, report.refCode))
  {
    if Truthy(report.rmcState) then Returned(true, Data(report.property), upWarning)
    else if report.refCode in ["", "00"] then Returned(true, Data(report.property), Some(RmcDown))
    else FailJson(BootFailure(timeout, report.refCode))
  }

  /** The text of a `BootFailure`. */
  function BootFailureMessage(waited: Value, refCode: string): string
  {
    "VIOS Installation failed even after waiting for " + Text(waited) + " mins and the reference code is " + refCode
  }

  /** A failed boot is reported with both the wait and the reference code
      in its message. */
  lemma BootFailureNamesCode(waited: Value, refCode: string)
    ensures Contains(BootFailureMessage(waited, refCode), Text(waited))
    ensures Contains(BootFailureMessage(waited, refCode), refCode)
  {
    var head := "VIOS Installation failed even after waiting for ";
    var middle := " mins and the reference code is ";
    var msg := BootFailureMessage(waited, refCode);
    assert msg == head + Text(waited) + (middle + refCode);
    ContainsInside(head, Text(waited), middle + refCode);
    assert msg == (head + Text(waited) + middle) + refCode + "";
    ContainsInside(head + Text(waited) + middle, refCode, "");
  }

  /** The two installation media: a NIM server, or an image on the
      console's disk. */
  datatype Medium = Nim | Disk

  /** The parameter naming the adapter to install through: a location code
      for NIM, a MAC address for the disk image. */
  function GivenKey(medium: Medium): string
  {
    match medium
    case Nim => "location_code"
    case Disk => "network_macaddr"
  }

  /** What the installer takes from the chosen adapter. */
  function AdapterField(medium: Medium, a: Adapter): string
  {
    match medium
    case Nim => a.locationCode
    case Disk => a.macAddress
  }

  /** The message when no adapter can be used. */
  function Unreachable(medium: Medium): string
  {
    match medium
    case Nim => NoAdapter
    case Disk => NoMac
  }

  /** The partition name the installer works on. */
  function PartitionName(medium: Medium, params: Fields): Value
  {
    match medium
    case Nim => Get(params, "name")
    case Disk => Get(params, "vios_name")
  }

  /** The adapter listing, with the arguments each installer passes. */
  function ScanCall(medium: Medium, params: Fields): Call
  {
    match medium
    case Nim =>
      FetchIODetailsForNetboot([Get(params, "nim_IP"), Get(params, "nim_gateway"), Get(params, "vios_IP"),
                                Get(params, "name"), Or(Get(params, "prof_name"), Str("default_profile")),
                                Get(params, "system_name"), Get(params, "nim_subnetmask")])
    case Disk =>
      FetchIODetailsForNetboot([Get(params, "hmc_host"), Get(params, "vios_gateway"), Get(params, "vios_IP"),
                                Get(params, "vios_name"), Get(params, "prof_name"), Get(params, "system_name"),
                                Get(params, "vios_subnetmask")])
  }

  /** The installation command through the adapter `target`. */
  function InstallCall(medium: Medium, params: Fields, target: Value): Call
  {
    match medium
    case Nim =>
      InstallOSFromNIM([target, Get(params, "nim_IP"), Get(params, "nim_gateway"), Get(params, "vios_IP"),
                        Or(Get(params, "nim_vlan_id"), Str("0")), Or(Get(params, "nim_vlan_priority"), Str("0")),
                        Get(params, "nim_subnetmask"), Get(params, "name"),
                        Or(Get(params, "prof_name"), Str("default_profile")), Get(params, "system_name")])
    case Disk =>
      InstallOSFromDisk([Get(params, "vios_iso"), Get(params, "image_dir"), Get(params, "vios_IP"),
                         Get(params, "vios_gateway"), Get(params, "vios_subnetmask"), target,
                         Get(params, "system_name"), Get(params, "vios_name"), Get(params, "prof_name"),
                         Get(params, "label")])
  }

  /** The wait for the installed partition to boot. */
  function BootCall(medium: Medium, params: Fields): Call
  {
    CheckForOSToBootUpFully(Get(params, "system_name"), PartitionName(medium, params), InstallTimeout(params))
  }

  /** The adapter an installation goes through: the one given, or the
      chosen field of the first adapter whose ping succeeded; None when
      there is none to use. */
  function Target(medium: Medium, params: Fields, adapters: Reply<seq<Adapter>>): (t: Option<Value>)
    ensures t.Some? ==> Truthy(t.value)
    ensures Truthy(Get(params, GivenKey(medium))) ==> t == Some(Get(params, GivenKey(medium)))
    ensures !Truthy(Get(params, GivenKey(medium))) && (adapters.Refused? || FirstReachable(adapters.value).None?) ==>
      t.None?
    ensures (!Truthy(Get(params, GivenKey(medium))) && adapters.Answer? && FirstReachable(adapters.value).Some?) ==>
      (var first := adapters.value[FirstReachable(adapters.value).value];
       t == if AdapterField(medium, first) != "" then Some(Str(AdapterField(medium, first))) else None)
  {
    var given := Get(params, GivenKey(medium));
    if Truthy(given) then Some(given)
    else if adapters.Refused? then None
    else match FirstReachable(adapters.value)
      case Some(i) =>
        var field := AdapterField(medium, adapters.value[i]);
        if field != "" then Some(Str(field)) else None
      case None => None
  }

  /** How an installation ends once the partition has booted.  The NIM
      installer returns the boot verdict.  The disk installer ends the process
      with `changed=True` and a fixed message whenever the boot succeeded,
      dropping the warning, and fails as the NIM one does otherwise. */
  function Verdict(medium: Medium, report: BootReport, timeout: Value): (o: Outcome)
    ensures medium == Nim ==> o == ClassifyBoot(report, timeout, None)
    ensures medium == Disk && ClassifyBoot(report, timeout, None).Returned? ==> o == ExitJson(true, DiskDone)
    ensures medium == Disk && !ClassifyBoot(report, timeout, None).Returned? ==> o == ClassifyBoot(report, timeout, None)
  {
    match medium
    case Nim => ClassifyBoot(report, timeout, None)
    case Disk =>
      var verdict := ClassifyBoot(report, timeout, Some(DiskRmcUp));
      if verdict.Returned? then ExitJson(true, DiskDone) else verdict
  }

  /** An installation may reach the console: it validates and its wait
      passes the gate. */
  predicate Admitted(params: Fields)
  {
    Validation(params).None? && TimeoutGate(InstallTimeout(params)).None?
  }

  /** `installViosUsingNim` and `installViosUsingDisk` (with the documented
      default wait, see the finding on `DiskTimeoutAsWritten`): validate,
      refuse a wait under 10 minutes, find the adapter when none is given,
      install through it, and wait for the boot. */
  function Installation(medium: Medium, params: Fields, adapters: Reply<seq<Adapter>>,
                        installed: Reply<()>, boot: Reply<BootReport>): (run: Run)
    ensures Validation(params).Some? ==> run == Run(Raised(ParameterError(Validation(params).value)), [])
    ensures Validation(params).None? && TimeoutGate(InstallTimeout(params)).Some? ==>
      run == Run(TimeoutGate(InstallTimeout(params)).value, [])
    ensures (Admitted(params) && !Truthy(Get(params, GivenKey(medium))) && adapters.Answer? &&
             FirstReachable(adapters.value).None?) ==> run.outcome == FailJson(Message(Unreachable(medium)))
    ensures (Admitted(params) && Target(medium, params, adapters).Some? && installed.Answer? && boot.Answer?) ==>
      run.outcome == Verdict(medium, boot.value, InstallTimeout(params))
    ensures run.outcome.Returned? && run.outcome.changed ==>
      medium == Nim && Admitted(params) && Target(medium, params, adapters).Some? && installed.Answer? && boot.Answer?
    ensures !run.outcome.ReturnedNone?
  {
    if Validation(params).Some? then Run(Raised(ParameterError(Validation(params).value)), [])
    else if TimeoutGate(InstallTimeout(params)).Some? then Run(TimeoutGate(InstallTimeout(params)).value, [])
    else Run(Ending(medium, params, adapters, installed, boot), Trace(medium, params, adapters, installed))
  }

  /** How an admitted installation ends: a console refusal is caught, a
      missing adapter fails the module, and a finished wait gives the verdict. */
  function Ending(medium: Medium, params: Fields, adapters: Reply<seq<Adapter>>,
                  installed: Reply<()>, boot: Reply<BootReport>): Outcome
  {
    match Target(medium, params, adapters)
    case None =>
      if adapters.Refused? then Caught(HmcError(adapters.text)) else FailJson(Message(Unreachable(medium)))
    case Some(_) =>
      match installed
      case Refused(text) => Caught(HmcError(text))
      case Answer(_) =>
        match boot
        case Refused(text) => Caught(HmcError(text))
        case Answer(report) => Verdict(medium, report, InstallTimeout(params))
  }

  /** The console calls of an admitted installation: the adapter probe
      when no adapter is given, then, with an adapter, the installation and,
      once that is accepted, the wait for the boot. */
  function Trace(medium: Medium, params: Fields, adapters: Reply<seq<Adapter>>, installed: Reply<()>): seq<Call>
  {
    var probe := if Truthy(Get(params, GivenKey(medium))) then [] else [ScanCall(medium, params)];
    match Target(medium, params, adapters)
    case None => probe
    case Some(target) =>
      if installed.Refused? then probe + [InstallCall(medium, params, target)]
      else probe + [InstallCall(medium, params, target)] + [BootCall(medium, params)]
  }

  /** An installation issues its installation command exactly when it is
      admitted and has an adapter to go through, and changes nothing else. */
  lemma InstallationMutations(medium: Medium, params: Fields, adapters: Reply<seq<Adapter>>,
                              installed: Reply<()>, boot: Reply<BootReport>)
    ensures Mutations(Installation(medium, params, adapters, installed, boot).calls) ==
      if Admitted(params) && Target(medium, params, adapters).Some?
      then [InstallCall(medium, params, Target(medium, params, adapters).value)] else []
  {
    if Admitted(params) {
      TraceMutations(medium, params, adapters, installed);
    }
  }

  lemma TraceMutations(medium: Medium, params: Fields, adapters: Reply<seq<Adapter>>, installed: Reply<()>)
    ensures Mutations(Trace(medium, params, adapters, installed)) ==
      if Target(medium, params, adapters).Some? then [InstallCall(medium, params, Target(medium, params, adapters).value)]
      else []
  {
    var scan := ScanCall(medium, params);
    var probe := if Truthy(Get(params, GivenKey(medium))) then [] else [scan];
    MutationsOfOne(scan);
    var trace := Trace(medium, params, adapters, installed);
    match Target(medium, params, adapters)
    case None =>
      assert trace == probe;
    case Some(target) =>
      var install := InstallCall(medium, params, target);
      var wait := BootCall(medium, params);
      OneMutation(probe, install, wait);
      if installed.Refused? {
        assert trace == probe + [install];
      } else {
        assert trace == probe + [install] + [wait];
      }
  }

  /** The installers' choice of target as written: the given location code
      or MAC address, else the field of the adapter `ChooseAdapter`'s loop
      finds, when that field is not empty. */
  method SearchTarget(medium: Medium, params: Fields, adapters: Reply<seq<Adapter>>) returns (target: Option<Value>)
    ensures target == Target(medium, params, adapters)
  {
    var given := Get(params, GivenKey(medium));
    if Truthy(given) {
      return Some(given);
    }
    if adapters.Refused? {
      return None;
    }
    var found := ChooseAdapter(adapters.value);
    target := None;
    if found.Some? {
      var field := AdapterField(medium, adapters.value[found.value]);
      if field != "" {
        target := Some(Str(field));
      }
    }
  }

  /** The installer as the source writes it: validate, gate the wait, search
      for the target, install, and wait for the boot. */
  method InstallFrom(medium: Medium, params: Fields, adapters: Reply<seq<Adapter>>,
                     installed: Reply<()>, boot: Reply<BootReport>) returns (run: Run)
    ensures run == Installation(medium, params, adapters, installed, boot)
  {
    var err := ValidateParameters(params);
    if err.Some? {
      return Run(Raised(ParameterError(err.value)), []);
    }
    var gate := TimeoutGate(InstallTimeout(params));
    if gate.Some? {
      return Run(gate.value, []);
    }
    assert Installation(medium, params, adapters, installed, boot) ==
      Run(Ending(medium, params, adapters, installed, boot), Trace(medium, params, adapters, installed));
    var calls: seq<Call> := if Truthy(Get(params, GivenKey(medium))) then [] else [ScanCall(medium, params)];
    var target := SearchTarget(medium, params, adapters);
    if target.None? {
      if adapters.Refused? {
        return Run(Caught(HmcError(adapters.text)), calls);
      }
      return Run(FailJson(Message(Unreachable(medium))), calls);
    }
    calls := calls + [InstallCall(medium, params, target.value)];
    if installed.Refused? {
      return Run(Caught(HmcError(installed.text)), calls);
    }
    calls := calls + [BootCall(medium, params)];
    match boot
    case Refused(text) =>
      run := Run(Caught(HmcError(text)), calls);
    case Answer(report) =>
      run := Run(Verdict(medium, report, InstallTimeout(params)), calls);
  }

  /** A NIM installation that reaches the console always uses the profile
      `default_profile`: `prof_name` is among the names it refuses. */
  lemma NimUsesDefaultProfile(params: Fields)
    requires Validation(params).None? && RuleTable(params) == Lists(NimMandatory, NimUnsupported)
    ensures Or(Get(params, "prof_name"), Str("default_profile")) == Str("default_profile")
  {
    assert "prof_name" in NimUnsupported;
  }

  /** `install()` as written calls the chosen installer and returns
      nothing, so an installer that returns normally (success or a caught
      console error) leaves `install` returning None. */
  function InstallAsWritten(installer: Outcome): Outcome
  {
    if installer.Returned? then ReturnedNone else installer
  }

  /** Finding, as written: a NIM installation that boots, the case
      `InstallReportsBoot` shows reported once corrected, crashes the module
      unpacking `install`'s None, so the change is never reported. */
  lemma InstallAsWrittenCrashes(params: Fields, adapters: Reply<seq<Adapter>>, report: BootReport)
    requires Truthy(Get(params, "nim_IP")) && !Truthy(Get(params, "image_dir"))
    requires Admitted(params) && Target(Nim, params, adapters).Some?
    requires Truthy(report.rmcState) || report.refCode in ["", "00"]
    ensures RunModule(PerformTaskCatch(InstallAsWritten(Installation(Nim, params, adapters, Answer(()), Answer(report)).outcome)), true) ==
      Crash(TypeError("cannot unpack non-iterable NoneType object"))
  {
  }

  /** `install()`, returning the installer's result: the disk installer
      when `image_dir` is given, the NIM installer when only `nim_IP` is. */
  function InstallRun(params: Fields, adapters: Reply<seq<Adapter>>, installed: Reply<()>, boot: Reply<BootReport>)
    : (run: Run)
    ensures !Truthy(Get(params, "image_dir")) && !Truthy(Get(params, "nim_IP")) ==>
      run == Run(Raised(ParameterError(InstallNoMedium)), [])
    ensures Operation(params) == Str("install") && Truthy(Get(params, "image_dir")) && Truthy(Get(params, "nim_IP")) ==>
      run == Run(Raised(ParameterError(BothMedia)), [])
    ensures Validation(params).Some? ==> run.calls == [] && run.outcome.Raised?
    ensures !run.outcome.ReturnedNone?
  {
    if Truthy(Get(params, "image_dir")) then Installation(Disk, params, adapters, installed, boot)
    else if Truthy(Get(params, "nim_IP")) then Installation(Nim, params, adapters, installed, boot)
    else Run(Raised(ParameterError(InstallNoMedium)), [])
  }

  method Install(params: Fields, adapters: Reply<seq<Adapter>>, installed: Reply<()>, boot: Reply<BootReport>)
    returns (run: Run)
    ensures run == InstallRun(params, adapters, installed, boot)
  {
    if Truthy(Get(params, "image_dir")) {
      run := InstallFrom(Disk, params, adapters, installed, boot);
    } else if Truthy(Get(params, "nim_IP")) {
      run := InstallFrom(Nim, params, adapters, installed, boot);
    } else {
      run := Run(Raised(ParameterError(InstallNoMedium)), []);
    }
  }

  /** Finding, corrected: a NIM installation that boots is reported to the
      caller as a change, with the partition's properties. */
  lemma InstallReportsBoot(params: Fields, adapters: Reply<seq<Adapter>>, report: BootReport)
    requires Truthy(Get(params, "nim_IP")) && !Truthy(Get(params, "image_dir"))
    requires Admitted(params) && Target(Nim, params, adapters).Some?
    requires Truthy(report.rmcState) || report.refCode in ["", "00"]
    ensures RunModule(PerformTaskCatch(InstallRun(params, adapters, Answer(()), Answer(report)).outcome), true).Exit?
    ensures RunModule(PerformTaskCatch(InstallRun(params, adapters, Answer(()), Answer(report)).outcome), true).changed
    ensures RunModule(PerformTaskCatch(InstallRun(params, adapters, Answer(()), Answer(report)).outcome), true).info ==
      (if report.property == map[] then None else Some(report.property))
  {
  }

  const LicenseCommand := "license -accept"

  /** `viosLicenseAccept`: the license is accepted only on a partition whose
      RMC connection is active. */
  function AcceptLicense(params: Fields, config: Reply<Fields>, accepted: Reply<()>): (run: Run)
    ensures Validation(params).Some? ==> run == Run(Raised(ParameterError(Validation(params).value)), [])
    ensures run.outcome.Returned? && run.outcome.changed <==>
      Validation(params).None? && config.Answer? && "rmc_state" in config.value &&
      config.value["rmc_state"] == Str("active") && accepted.Answer?
    ensures (Validation(params).None? && config.Answer? && "rmc_state" in config.value &&
             config.value["rmc_state"].Str? && config.value["rmc_state"] != Str("active")) ==>
      run.outcome == FailJson(Message("Cannot accept the license since the RMC state is " + config.value["rmc_state"].s))
    ensures Validation(params).None? && config.Answer? && "rmc_state" !in config.value ==>
      run.outcome == Raised(KeyError(Str("rmc_state")))
  {
    var system, name := Get(params, "system_name"), Get(params, "name");
    if Validation(params).Some? then Run(Raised(ParameterError(Validation(params).value)), [])
    else
      var probe := GetPartitionConfig(system, name, Nothing);
      match config
      case Refused(text) => Run(Caught(HmcError(text)), [probe])
      case Answer(cfg) =>
        if "rmc_state" !in cfg then Run(Raised(KeyError(Str("rmc_state"))), [probe])
        else if cfg["rmc_state"] == Str("active") then
          var accept := RunCommandOnVIOS(system, name, LicenseCommand);
          (match accepted
           case Refused(text) => Run(Caught(HmcError(text)), [probe, accept])
           case Answer(_) => Run(Returned(true, NoInfo, None), [probe, accept]))
        else if cfg["rmc_state"].Str? then
          Run(FailJson(Message("Cannot accept the license since the RMC state is " + cfg["rmc_state"].s)), [probe])
        else
          Run(Raised(TypeError("can only concatenate str (not \"" + TypeName(cfg["rmc_state"]) + "\") to str")), [probe])
  }

  /** The license command is issued exactly when the request is valid and
      the partition's RMC state is active, and nothing else is changed. */
  lemma AcceptLicenseMutations(params: Fields, config: Reply<Fields>, accepted: Reply<()>)
    ensures Mutations(AcceptLicense(params, config, accepted).calls) ==
      if Validation(params).None? && config.Answer? && "rmc_state" in config.value &&
         config.value["rmc_state"] == Str("active")
      then [RunCommandOnVIOS(Get(params, "system_name"), Get(params, "name"), LicenseCommand)] else []
  {
    var system, name := Get(params, "system_name"), Get(params, "name");
    var probe := GetPartitionConfig(system, name, Nothing);
    var accept := RunCommandOnVIOS(system, name, LicenseCommand);
    MutationsOfOne(probe);
    Issue([probe], accept);
    assert [probe] + [accept] == [probe, accept];
  }

  /** One entry of the console's quick listing of the managed system's
      VIOS partitions: its name, its UUID and the listed record. */
  datatype ViosEntry = ViosEntry(partitionName: string, uuid: string, record: Fields)

  /** The position of the first listed VIOS with the requested name. */
  function FindVios(listing: seq<ViosEntry>, name: Value): (r: Option<nat>)
    ensures r.Some? ==> r.value < |listing| && Str(listing[r.value].partitionName) == name
    ensures r.Some? ==> forall j :: 0 <= j < r.value ==> Str(listing[j].partitionName) != name
    ensures r.None? ==> forall j :: 0 <= j < |listing| ==> Str(listing[j].partitionName) != name
  {
    if listing == [] then None
    else if Str(listing[0].partitionName) == name then Some(0)
    else match FindVios(listing[1..], name)
      case Some(i) => Some(i + 1)
      case None => None
  }

  /** `fetchViosInfo` without the MTMS-to-name resolution: validate, then
      look the partition up. */
  function FetchViosInfo(params: Fields, login: Reply<()>, managed: Reply<(string, string)>,
                         listing: Reply<seq<ViosEntry>>, details: Reply<Fields>): (run: Run)
    ensures Validation(params).Some? ==> run == Run(Raised(ParameterError(Validation(params).value)), [])
    ensures Validation(params).None? ==> run == ViosLookup(params, login, managed, listing, details)
    ensures ReadOnly(run.calls)
  {
    if Validation(params).Some? then Run(Raised(ParameterError(Validation(params).value)), [])
    else ViosLookup(params, login, managed, listing, details)
  }

  /** The REST part of `fetchViosInfo`: log in, check that the managed
      system exists and is operating, find the partition by name in the quick
      listing and return its record together with the memory and processor
      details read from its full description (`details`). */
  function ViosLookup(params: Fields, login: Reply<()>, managed: Reply<(string, string)>,
                      listing: Reply<seq<ViosEntry>>, details: Reply<Fields>): (run: Run)
    ensures ReadOnly(run.calls)
    ensures run.outcome.Returned? ==> !run.outcome.changed
    ensures run.outcome.Returned? && run.outcome.info.Data? ==>
      listing.Answer? && FindVios(listing.value, Get(params, "name")).Some? &&
      details.Answer? &&
      run.outcome.info.fields == listing.value[FindVios(listing.value, Get(params, "name")).value].record + details.value
    ensures login.Answer? && managed.Answer? && managed.value.0 == "" ==>
      run.outcome == FailJson(Message("Given system is not present"))
    ensures (login.Answer? && managed.Answer? && managed.value.0 != "" && listing.Answer? && listing.value != [] &&
             FindVios(listing.value, Get(params, "name")).None?) ==> run.outcome.FailJson?
  {
    var system, name := Get(params, "system_name"), Get(params, "name");
    if login.Refused? then Run(FailJson(ParsedFrom(HmcError(login.text))), [RestLogin])
    else
      var lookup := [RestLogin, GetManagedSystem(system)];
      match managed
      case Refused(text) => Run(FailJson(ParsedFrom(HmcError(text))), lookup)
      case Answer((uuid, state)) =>
        if uuid == "" then Run(FailJson(Message("Given system is not present")), lookup)
        else if state != "None" then Run(FailJson(Message("Given system is in " + state + " state")), lookup)
        else
          var quick := lookup + [GetVirtualIOServersQuick(uuid)];
          match listing
          case Refused(text) => Run(FailJson(ParsedFrom(HmcError(text))), quick)
          case Answer(entries) =>
            if entries == [] then Run(Returned(false, NoInfo, None), quick)
            else match FindVios(entries, name)
              case None =>
                Run(FailJson(Message("VIOS: " + Text(name) + " not found in the Managed System: " + Text(system))), quick)
              case Some(i) =>
                var full := quick + [GetVirtualIOServer(entries[i].uuid)];
                match details
                case Refused(text) => Run(FailJson(ParsedFrom(HmcError(text))), full)
                case Answer(d) => Run(Returned(false, Data(entries[i].record + d), None), full)
  }

  /** Everything the console answers during one invocation of the module. */
  datatype ViosConsole = ViosConsole(
    partition: Reply<Fields>,
    created: Reply<()>,
    createdConfig: Reply<Fields>,
    adapters: Reply<seq<Adapter>>,
    installed: Reply<()>,
    boot: Reply<BootReport>,
    accepted: Reply<()>,
    login: Reply<()>,
    managed: Reply<(string, string)>,
    listing: Reply<seq<ViosEntry>>,
    details: Reply<Fields>)

  /** `perform_task`: dispatch, and turn every escaping exception into a
      returned error. */
  method PerformTask(params: Fields, console: ViosConsole) returns (run: Run)
    ensures !run.outcome.Raised?
    ensures DispatchKey(params) !in {Str("facts"), Str("present"), Str("install"), Str("accept_license")} ==>
      run == Run(Caught(KeyError(DispatchKey(params))), [])
    ensures Validation(params).Some? ==> run.calls == []
    ensures |Mutations(run.calls)| <= 1
    ensures DispatchKey(params) == Str("facts") ==> Mutations(run.calls) == []
  {
    var key := DispatchKey(params);
    if key == Str("facts") {
      run := FetchViosInfo(params, console.login, console.managed, console.listing, console.details);
      ReadOnlyMeansNoMutations(run.calls);
    } else if key == Str("present") {
      run := CreateVios(params, console.partition, console.created, console.createdConfig);
      CreateViosMutations(params, console.partition, console.created, console.createdConfig);
    } else if key == Str("install") {
      run := Install(params, console.adapters, console.installed, console.boot);
      InstallationMutations(Disk, params, console.adapters, console.installed, console.boot);
      InstallationMutations(Nim, params, console.adapters, console.installed, console.boot);
    } else if key == Str("accept_license") {
      run := AcceptLicense(params, console.partition, console.accepted);
      AcceptLicenseMutations(params, console.partition, console.accepted);
    } else {
      run := Run(Raised(KeyError(key)), []);
    }
    run := Run(PerformTaskCatch(run.outcome), run.calls);
  }
}

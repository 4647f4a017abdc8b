/** plugins/modules/power_system.py: power a managed system on or off,
    change its general settings and its memory configuration when they
    differ from what is asked, show its properties, and switch its
    performance metrics (PCM) on or off. */
module PowerSystem {
  import opened Python
  import opened Console
  import opened Outcomes
  import opened Rules

  // ---- parameter validation ----

  const Connection := ["hmc_host", "hmc_auth", "system_name"]
  /** The general settings `modify_syscfg` changes. */
  const GeneralFields := ["new_name", "power_off_policy", "power_on_lpar_start_policy"]
  /** The memory settings `modify_hwres` changes. */
  const MemoryFields := ["requested_num_sys_huge_pages", "mem_mirroring_mode", "pend_mem_region_size"]

  /** Mandatory names are checked first; several missing names are joined
      with ",", several unsupported ones with ", ". */
  const SystemStyle := Style(true, ",", ", ")

  /** The mandatory and the unsupported names for the operation.  The
      table also has a `list_pcm` row, but the state is spelled
      `pcm_facts`, which falls to the last row; both rows carry the same
      lists. */
  function RuleTable(params: Fields): (seq<string>, seq<string>)
  {
    var opr := Operation(params);
    if opr == Str("modify_syscfg") then (Connection, MemoryFields + ["metrics"])
    else if opr == Str("modify_hwres") then (Connection, GeneralFields + ["metrics"])
    else if opr == Str("enable_pcm") || opr == Str("disable_pcm") then (Connection + ["metrics"], GeneralFields + MemoryFields)
    else (Connection, GeneralFields + MemoryFields + ["metrics"])
  }

  /** The table's rows: the connection always, and the metrics for the PCM
      actions, are demanded; every kind of setting is refused except the
      one the operation changes. */
  lemma RuleTableRows(params: Fields)
    ensures RuleTable(params).0 == Connection + if Operation(params) in {Str("enable_pcm"), Str("disable_pcm")} then ["metrics"] else []
    ensures RuleTable(params).1 ==
      (if Operation(params) == Str("modify_syscfg") then [] else GeneralFields) +
      (if Operation(params) == Str("modify_hwres") then [] else MemoryFields) +
      (if Operation(params) in {Str("enable_pcm"), Str("disable_pcm")} then [] else ["metrics"])
  {
  }

  /** What `validate_parameters` raises, if anything. */
  function Validation(params: Fields): Option<string>
  {
    Check(RuleTable(params).0, RuleTable(params).1, params, SystemStyle)
  }

  method ValidateParameters(params: Fields) returns (err: Option<string>)
    ensures err == Validation(params)
  {
    var (mandatory, unsupported) := RuleTable(params);
    err := Validate(mandatory, unsupported, params, SystemStyle);
  }

  /** Each modify action accepts only its own kind of setting, the metrics
      only go with the PCM actions, and every other operation accepts no
      setting at all. */
  lemma ValidationSeparatesSettings(params: Fields, x: string)
    requires Validation(params).None?
    ensures Operation(params) == Str("modify_syscfg") && x in MemoryFields + ["metrics"] ==> !Truthy(Get(params, x))
    ensures Operation(params) == Str("modify_hwres") && x in GeneralFields + ["metrics"] ==> !Truthy(Get(params, x))
    ensures Operation(params) in {Str("enable_pcm"), Str("disable_pcm")} ==>
      Truthy(Get(params, "metrics")) && (x in GeneralFields + MemoryFields ==> !Truthy(Get(params, x)))
    ensures (Operation(params) !in {Str("modify_syscfg"), Str("modify_hwres"), Str("enable_pcm"), Str("disable_pcm")} &&
             x in GeneralFields + MemoryFields + ["metrics"]) ==> !Truthy(Get(params, x))
  {
    assert "metrics" in Connection + ["metrics"];
  }

  /** A PCM request without metrics names the missing parameter on its own. */
  lemma PcmNeedsMetrics(params: Fields)
    requires Operation(params) == Str("enable_pcm") || Operation(params) == Str("disable_pcm")
    requires forall x :: x in Connection ==> Truthy(Get(params, x))
    requires !Truthy(Get(params, "metrics"))
    ensures Validation(params) == Some("mandatory parameter 'metrics' is missing")
  {
    var names := Connection + ["metrics"];
    assert "hmc_host" in Connection && "hmc_auth" in Connection && "system_name" in Connection;
    assert ["hmc_host"][..0] == [];
    assert Flagged(["hmc_host"], params, false) == [];
    assert ["hmc_host", "hmc_auth"][..1] == ["hmc_host"];
    assert Flagged(["hmc_host", "hmc_auth"], params, false) == [];
    assert Connection[..2] == ["hmc_host", "hmc_auth"];
    assert Flagged(Connection, params, false) == [];
    assert names[..3] == Connection;
    assert Flagged(names, params, false) == ["metrics"];
    RuleTableRows(params);
    assert RuleTable(params).0 == names;
    assert MissingMessage(["metrics"], ",") == "mandatory parameter 'metrics' is missing";
  }

  // ---- desired settings ----

  /** The parameters `build_dict` never copies: they say where and what to do. */
  const ControlKeys := ["action", "hmc_host", "hmc_auth", "system_name"]

  /** How `build_dict` stores a value: an int as its `str()` (a bool is an
      int in Python, so it becomes "True" or "False"), anything else as it is. */
  function Canonical(v: Value): Value
  {
    match v
    case Int(i) => Str(IntToString(i))
    case Bool(_) => Str(Text(v))
    case _ => v
  }

  /** The desired settings `build_dict` collects: every parameter except the
      control keys and those left as None. */
  function Desired(params: Fields): Fields
  {
    map k | k in params && k !in ControlKeys && params[k] != Nothing :: Canonical(params[k])
  }

  /** `build_dict`'s loop, inserting one parameter at a time. */
  method BuildDict(params: Fields) returns (config: Fields)
    ensures config == Desired(params)
  {
    config := map[];
    var pending := params.Keys;
    while pending != {}
      invariant pending <= params.Keys
      invariant config == map k | k in params && k !in pending && k !in ControlKeys && params[k] != Nothing :: Canonical(params[k])
      decreases |pending|
    {
      var key :| key in pending;
      pending := pending - {key};
      if key !in ControlKeys && params[key] != Nothing {
        config := config[key := Canonical(params[key])];
      }
    }
  }

  /** The desired settings hold only setting names, never a None value,
      every integer as a string that reads back as that integer, every
      boolean as "True" or "False", and every other value as given. */
  lemma DesiredValues(params: Fields, k: string)
    ensures k in Desired(params) <==> k in params && k !in ControlKeys && params[k] != Nothing
    ensures k in Desired(params) ==> Desired(params)[k] != Nothing
    ensures k in Desired(params) && params[k].Int? ==>
      Desired(params)[k].Str? && ParseInt(Desired(params)[k].s) == Some(params[k].i)
    ensures k in Desired(params) && params[k].Bool? ==>
      Desired(params)[k] == Str(if params[k].b then "True" else "False")
    ensures k in Desired(params) && !params[k].Int? && !params[k].Bool? ==> Desired(params)[k] == params[k]
  {
    if k in Desired(params) && params[k].Int? {
      IntRoundTrip(params[k].i);
    }
  }

  /** Collecting the desired settings a second time changes nothing. */
  lemma DesiredIdempotent(params: Fields)
    ensures Desired(Desired(params)) == Desired(params)
  {
    forall k | k in Desired(params)
      ensures Canonical(Desired(params)[k]) == Desired(params)[k]
    {
      var v := params[k];
      if v.Int? || v.Bool? {
        assert Desired(params)[k].Str?;
      }
    }
  }

  // ---- the modify actions ----

  /** The two modify actions: the general settings (`modify_syscfg`) and the
      memory configuration (`modify_hwres`). */
  datatype Settings = General | Memory

  /** The message when a modify request asks for no setting at all. */
  function NothingAsked(kind: Settings): string
  {
    match kind
    case General => "Atleast one of the System change configuration should to be provided"
    case Memory => "Atleast one of the System Hardware Resources should to be provided"
  }

  /** The console call reading the current settings. */
  function ReadCall(kind: Settings, system: Value): Call
  {
    match kind
    case General => GetManagedSystemDetails(system)
    case Memory => GetManagedSystemHwres(system, "mem", "sys")
  }

  /** The console call writing the desired settings. */
  function WriteCall(kind: Settings, system: Value, desired: Fields): Call
  {
    match kind
    case General => ConfSysGenSettings(system, desired)
    case Memory => ConfSysMem(system, desired, "s")
  }

  /** `d[to] = d.pop(from)`. */
  function Move(d: Fields, from: string, to: string): (r: Fields)
    requires from in d
    ensures to in r && r[to] == d[from]
    ensures from != to ==> from !in r
    ensures forall k :: k in r && k != to ==> k in d && k != from && r[k] == d[k]
    ensures forall k :: k in d && k != from && k != to ==> k in r
  {
    (d - {from})[to := d[from]]
  }

  /** Moving a field back undoes the move when the target name was free. */
  lemma MoveBack(d: Fields, from: string, to: string)
    requires from in d && to !in d && from != to
    ensures Move(Move(d, from, to), to, from) == d
  {
    var back := Move(Move(d, from, to), to, from);
    assert back.Keys == d.Keys;
  }

  /** The current settings under the names of the desired ones, or the
      field whose absence raises `KeyError`. */
  datatype Renaming = Renamed(current: Fields) | Missing(key: string)

  /** The renaming of the current settings: the system's `name` becomes
      `new_name`; the memory's `curr_mem_mirroring_mode` becomes
      `mem_mirroring_mode` when it is there, and `mem_region_size` always
      becomes `pend_mem_region_size`. */
  function Rename(kind: Settings, attrs: Fields): (r: Renaming)
    ensures r.Renamed? <==> (if kind == General then "name" in attrs else "mem_region_size" in attrs)
    ensures r.Missing? ==> r.key == if kind == General then "name" else "mem_region_size"
    ensures r.Renamed? && kind == General ==>
      "name" !in r.current && "new_name" in r.current && r.current["new_name"] == attrs["name"]
    ensures r.Renamed? && kind == Memory ==>
      "mem_region_size" !in r.current && "pend_mem_region_size" in r.current &&
      r.current["pend_mem_region_size"] == attrs["mem_region_size"] &&
      ("curr_mem_mirroring_mode" in attrs ==>
         "curr_mem_mirroring_mode" !in r.current && "mem_mirroring_mode" in r.current &&
         r.current["mem_mirroring_mode"] == attrs["curr_mem_mirroring_mode"])
  {
    match kind
    case General =>
      if "name" in attrs then Renamed(Move(attrs, "name", "new_name")) else Missing("name")
    case Memory =>
      var mirrored := if "curr_mem_mirroring_mode" in attrs then Move(attrs, "curr_mem_mirroring_mode", "mem_mirroring_mode") else attrs;
      if "mem_region_size" in mirrored then Renamed(Move(mirrored, "mem_region_size", "pend_mem_region_size"))
      else Missing("mem_region_size")
  }

  /** The renaming as the source does it, popping and inserting in place. */
  method RenameInPlace(kind: Settings, attrs: Fields) returns (r: Renaming)
    ensures r == Rename(kind, attrs)
  {
    var attr := attrs;
    match kind {
      case General =>
        if "name" !in attr {
          return Missing("name");
        }
        var name := attr["name"];
        attr := attr - {"name"};
        attr := attr["new_name" := name];
      case Memory =>
        if "curr_mem_mirroring_mode" in attr {
          var mode := attr["curr_mem_mirroring_mode"];
          attr := attr - {"curr_mem_mirroring_mode"};
          attr := attr["mem_mirroring_mode" := mode];
        }
        if "mem_region_size" !in attr {
          return Missing("mem_region_size");
        }
        var size := attr["mem_region_size"];
        attr := attr - {"mem_region_size"};
        attr := attr["pend_mem_region_size" := size];
    }
    r := Renamed(attr);
  }

  /** The renamed current settings give back the console's own record when
      renamed back (the target names were free). */
  lemma RenameUndone(attrs: Fields)
    requires "name" in attrs && "new_name" !in attrs
    ensures Rename(General, attrs).Renamed? && Move(Rename(General, attrs).current, "new_name", "name") == attrs
  {
    MoveBack(attrs, "name", "new_name");
  }

  /** `sett_dict.items() <= attr_dict.items()`: every desired setting is
      already current, with the same value. */
  predicate Within(desired: Fields, current: Fields)
  {
    forall k :: k in desired ==> k in current && current[k] == desired[k]
  }

  /** Once the desired settings are written over the current ones, they are
      all current, and nothing else that was current is lost. */
  lemma WrittenIsWithin(desired: Fields, current: Fields)
    ensures Within(desired, current + desired)
    ensures Within(current - desired.Keys, current + desired)
  {
  }

  /** A request is not within the current settings exactly when some
      desired setting is missing or different. */
  lemma NotWithin(desired: Fields, current: Fields)
    ensures !Within(desired, current) <==> exists k :: k in desired && (k !in current || current[k] != desired[k])
  {
  }

  /** `modifySystemConfiguration` and `modifySystemHardwareResources`:
      validate, refuse a request that asks for nothing, read the current
      settings, and write the desired ones only when they are not all
      current already. */
  function Modify(kind: Settings, params: Fields, live: Reply<Fields>, written: Reply<()>): (run: Run)
    ensures Validation(params).Some? ==> run == Run(Raised(ParameterError(Validation(params).value)), [])
    ensures Validation(params).None? && Desired(params) == map[] ==> run == Run(FailJson(Message(NothingAsked(kind))), [])
    ensures (Validation(params).None? && Desired(params) != map[] && live.Answer? && Rename(kind, live.value).Renamed? &&
             Within(Desired(params), Rename(kind, live.value).current)) ==>
      run == Run(Returned(false, NoInfo, None), [ReadCall(kind, Get(params, "system_name"))])
    ensures run.outcome.Returned? && run.outcome.changed <==>
      Validation(params).None? && Desired(params) != map[] && live.Answer? && Rename(kind, live.value).Renamed? &&
      !Within(Desired(params), Rename(kind, live.value).current) && written.Answer?
    ensures (Validation(params).None? && Desired(params) != map[] && live.Answer? && Rename(kind, live.value).Missing?) ==>
      run.outcome == Raised(KeyError(Str(Rename(kind, live.value).key)))
  {
    if Validation(params).Some? then Run(Raised(ParameterError(Validation(params).value)), [])
    else if Desired(params) == map[] then Run(FailJson(Message(NothingAsked(kind))), [])
    else Run(ModifyEnding(kind, params, live, written), ModifyTrace(kind, params, live))
  }

  /** How an admitted modify request ends. */
  function ModifyEnding(kind: Settings, params: Fields, live: Reply<Fields>, written: Reply<()>): Outcome
  {
    match live
    case Refused(text) => Caught(HmcError(text))
    case Answer(attrs) =>
      match Rename(kind, attrs)
      case Missing(key) => Raised(KeyError(Str(key)))
      case Renamed(current) =>
        if Within(Desired(params), current) then Returned(false, NoInfo, None)
        else if written.Refused? then Caught(HmcError(written.text))
        else Returned(true, NoInfo, None)
  }

  /** The console calls of an admitted modify request: the read, and the
      write when the read settings lack something desired. */
  function ModifyTrace(kind: Settings, params: Fields, live: Reply<Fields>): seq<Call>
  {
    var read := ReadCall(kind, Get(params, "system_name"));
    if live.Answer? && Rename(kind, live.value).Renamed? && !Within(Desired(params), Rename(kind, live.value).current)
    then [read, WriteCall(kind, Get(params, "system_name"), Desired(params))]
    else [read]
  }

  /** Exactly one write, carrying the desired settings, is issued when the
      request is admitted and not already satisfied; otherwise nothing changes. */
  lemma ModifyMutations(kind: Settings, params: Fields, live: Reply<Fields>, written: Reply<()>)
    ensures Mutations(Modify(kind, params, live, written).calls) ==
      if Validation(params).None? && Desired(params) != map[] && live.Answer? && Rename(kind, live.value).Renamed? &&
         !Within(Desired(params), Rename(kind, live.value).current)
      then [WriteCall(kind, Get(params, "system_name"), Desired(params))] else []
  {
    var read := ReadCall(kind, Get(params, "system_name"));
    var write := WriteCall(kind, Get(params, "system_name"), Desired(params));
    MutationsOfOne(read);
    Issue([read], write);
    assert [read] + [write] == [read, write];
  }

  /** Asking for settings that the console already reports changes nothing. */
  lemma ModifyConverges(kind: Settings, params: Fields, attrs: Fields, written: Reply<()>)
    requires Validation(params).None? && Desired(params) != map[]
    requires Rename(kind, attrs).Renamed?
    requires Within(Desired(params), Rename(kind, attrs).current)
    ensures Modify(kind, params, Answer(attrs), written).outcome == Returned(false, NoInfo, None)
    ensures Mutations(Modify(kind, params, Answer(attrs), written).calls) == []
  {
    ModifyMutations(kind, params, Answer(attrs), written);
  }

  /** The modify action as the source writes it: the desired settings are
      built by the loop of `BuildDict` and the current ones renamed in place. */
  method ModifySettings(kind: Settings, params: Fields, live: Reply<Fields>, written: Reply<()>) returns (run: Run)
    ensures run == Modify(kind, params, live, written)
  {
    var err := ValidateParameters(params);
    if err.Some? {
      return Run(Raised(ParameterError(err.value)), []);
    }
    var desired := BuildDict(params);
    if desired == map[] {
      return Run(FailJson(Message(NothingAsked(kind))), []);
    }
    var system := Get(params, "system_name");
    var calls := [ReadCall(kind, system)];
    if live.Refused? {
      return Run(Caught(HmcError(live.text)), calls);
    }
    var renaming := RenameInPlace(kind, live.value);
    if renaming.Missing? {
      return Run(Raised(KeyError(Str(renaming.key))), calls);
    }
    if Within(desired, renaming.current) {
      return Run(Returned(false, NoInfo, None), calls);
    }
    calls := calls + [WriteCall(kind, system, desired)];
    if written.Refused? {
      return Run(Caught(HmcError(written.text)), calls);
    }
    run := Run(Returned(true, NoInfo, None), calls);
  }

  // ---- power on and off ----

  const PowerOff := "Power Off"

  /** `powerOnManagedSys` after validation: power on only a system that is
      off, and report a change when the system then reaches `Operating` or
      `Standby`. */
  function PowerOnSteps(system: Value, details: Reply<Fields>, switched: Reply<()>, settled: Reply<bool>): (run: Run)
    ensures details.Answer? && Get(details.value, "state") != Str(PowerOff) ==>
      run == Run(Returned(false, NoInfo, None), [GetManagedSystemDetails(system)])
    ensures run.outcome.Returned? && run.outcome.changed <==>
      details.Answer? && Get(details.value, "state") == Str(PowerOff) && switched.Answer? && settled == Answer(true)
  {
    var probe := [GetManagedSystemDetails(system)];
    match details
    case Refused(text) => Run(Caught(HmcError(text)), probe)
    case Answer(res) =>
      if Get(res, "state") != Str(PowerOff) then Run(Returned(false, NoInfo, None), probe)
      else
        var on := probe + [ManagedSystemPowerOn(system)];
        match switched
        case Refused(text) => Run(Caught(HmcError(text)), on)
        case Answer(_) =>
          var wait := on + [CheckManagedSysState(system, ["Operating", "Standby"])];
          match settled
          case Refused(text) => Run(Caught(HmcError(text)), wait)
          case Answer(up) => Run(Returned(up, NoInfo, None), wait)
  }

  /** `powerOffManagedSys` after validation: shut down only a system that is
      not off, and report a change when it then reaches `Power Off`. */
  function PowerOffSteps(system: Value, details: Reply<Fields>, switched: Reply<()>, settled: Reply<bool>): (run: Run)
    ensures details.Answer? && Get(details.value, "state") == Str(PowerOff) ==>
      run == Run(Returned(false, NoInfo, None), [GetManagedSystemDetails(system)])
    ensures run.outcome.Returned? && run.outcome.changed <==>
      details.Answer? && Get(details.value, "state") != Str(PowerOff) && switched.Answer? && settled == Answer(true)
  {
    var probe := [GetManagedSystemDetails(system)];
    match details
    case Refused(text) => Run(Caught(HmcError(text)), probe)
    case Answer(res) =>
      if Get(res, "state") == Str(PowerOff) then Run(Returned(false, NoInfo, None), probe)
      else
        var off := probe + [ManagedSystemShutdown(system)];
        match switched
        case Refused(text) => Run(Caught(HmcError(text)), off)
        case Answer(_) =>
          var wait := off + [CheckManagedSysState(system, [PowerOff])];
          match settled
          case Refused(text) => Run(Caught(HmcError(text)), wait)
          case Answer(down) => Run(Returned(down, NoInfo, None), wait)
  }

  /** `powerOnManagedSys` and `powerOffManagedSys`: validate, then act on
      the state the system reports. */
  function Power(on: bool, params: Fields, details: Reply<Fields>, switched: Reply<()>, settled: Reply<bool>): (run: Run)
    ensures Validation(params).Some? ==> run == Run(Raised(ParameterError(Validation(params).value)), [])
    ensures Validation(params).None? && on ==> run == PowerOnSteps(Get(params, "system_name"), details, switched, settled)
    ensures Validation(params).None? && !on ==> run == PowerOffSteps(Get(params, "system_name"), details, switched, settled)
  {
    if Validation(params).Some? then Run(Raised(ParameterError(Validation(params).value)), [])
    else if on then PowerOnSteps(Get(params, "system_name"), details, switched, settled)
    else PowerOffSteps(Get(params, "system_name"), details, switched, settled)
  }

  /** The power-on command is issued exactly when the system reports the
      state `Power Off`, and the shutdown exactly when it reports another. */
  lemma PowerMutations(system: Value, details: Reply<Fields>, switched: Reply<()>, settled: Reply<bool>)
    ensures Mutations(PowerOnSteps(system, details, switched, settled).calls) ==
      if details.Answer? && Get(details.value, "state") == Str(PowerOff) then [ManagedSystemPowerOn(system)] else []
    ensures Mutations(PowerOffSteps(system, details, switched, settled).calls) ==
      if details.Answer? && Get(details.value, "state") != Str(PowerOff) then [ManagedSystemShutdown(system)] else []
  {
    var probe := GetManagedSystemDetails(system);
    MutationsOfOne(probe);
    OneMutation([probe], ManagedSystemPowerOn(system), CheckManagedSysState(system, ["Operating", "Standby"]));
    OneMutation([probe], ManagedSystemShutdown(system), CheckManagedSysState(system, [PowerOff]));
  }

  /** Whatever state the system reports, exactly one of power on and power
      off acts on it. */
  lemma PowerActionsComplement(system: Value, state: Fields, switched: Reply<()>, settled: Reply<bool>)
    ensures (Mutations(PowerOnSteps(system, Answer(state), switched, settled).calls) == []) !=
            (Mutations(PowerOffSteps(system, Answer(state), switched, settled).calls) == [])
  {
    PowerMutations(system, Answer(state), switched, settled);
  }

  /** A system that came up after a power-on is left alone by a second one. */
  lemma PowerOnIdempotent(system: Value, state: Fields, switched: Reply<()>, settled: Reply<bool>)
    requires Get(state, "state") in {Str("Operating"), Str("Standby")}
    ensures PowerOnSteps(system, Answer(state), switched, settled).outcome == Returned(false, NoInfo, None)
    ensures Mutations(PowerOnSteps(system, Answer(state), switched, settled).calls) == []
  {
    PowerMutations(system, Answer(state), switched, settled);
  }

  /** A system that is off is left alone by a second power-off. */
  lemma PowerOffIdempotent(system: Value, state: Fields, switched: Reply<()>, settled: Reply<bool>)
    requires Get(state, "state") == Str(PowerOff)
    ensures PowerOffSteps(system, Answer(state), switched, settled).outcome == Returned(false, NoInfo, None)
    ensures Mutations(PowerOffSteps(system, Answer(state), switched, settled).calls) == []
  {
    PowerMutations(system, Answer(state), switched, settled);
  }

  // ---- REST operations ----

  const SystemAbsent := "Given system is not present"

  /** The start of every REST operation: log in and find the system's UUID,
      or the run that ends the module first. */
  datatype Located = Located(uuid: string) | Stopped(run: Run)

  function LocateSystem(system: Value, login: Reply<()>, managed: Reply<string>): (l: Located)
    ensures l.Located? <==> login.Answer? && managed.Answer? && managed.value != ""
    ensures l.Located? ==> l.uuid == managed.value
    ensures l.Stopped? ==> l.run.outcome.FailJson? && ReadOnly(l.run.calls)
    ensures login.Answer? && managed == Answer("") ==>
      l == Stopped(Run(FailJson(Message(SystemAbsent)), [RestLogin, GetManagedSystem(system)]))
  {
    if login.Refused? then Stopped(Run(FailJson(ParsedFrom(HmcError(login.text))), [RestLogin]))
    else
      match managed
      case Refused(text) => Stopped(Run(FailJson(ParsedFrom(HmcError(text))), [RestLogin, GetManagedSystem(system)]))
      case Answer(uuid) =>
        if uuid == "" then Stopped(Run(FailJson(Message(SystemAbsent)), [RestLogin, GetManagedSystem(system)]))
        else Located(uuid)
  }

  /** The two read-only REST operations: the system's properties (`facts`)
      and its PCM settings (`pcm_facts`). */
  datatype Query = Properties | PcmSettings

  function QueryCall(query: Query, uuid: string, params: Fields): Call
  {
    match query
    case Properties => GetManagedSystemQuick(uuid)
    case PcmSettings => GetPcm(uuid, Get(params, "state"))
  }

  /** `fetchManagedSysDetails` and `listPCM`: validate, locate the system
      and return what the console reports about it, changing nothing. */
  function Facts(query: Query, params: Fields, login: Reply<()>, managed: Reply<string>, answer: Reply<Fields>)
    : (run: Run)
    ensures Validation(params).Some? ==> run == Run(Raised(ParameterError(Validation(params).value)), [])
    ensures ReadOnly(run.calls)
    ensures run.outcome.Returned? ==> !run.outcome.changed
    ensures run.outcome.Returned? <==>
      (Validation(params).None? && LocateSystem(Get(params, "system_name"), login, managed).Located? && answer.Answer?)
    ensures run.outcome.Returned? ==> run.outcome.info == Data(answer.value)
  {
    var system := Get(params, "system_name");
    if Validation(params).Some? then Run(Raised(ParameterError(Validation(params).value)), [])
    else match LocateSystem(system, login, managed)
      case Stopped(stop) => stop
      case Located(uuid) =>
        var calls := [RestLogin, GetManagedSystem(system), QueryCall(query, uuid, params)];
        match answer
        case Refused(text) => Run(FailJson(ParsedFrom(HmcError(text))), calls)
        case Answer(prop) => Run(Returned(false, Data(prop), None), calls)
  }

  const EnablingAm := "Enabling AM will automatically enables LTM and EM metrics"
  const DisablingLtmEm := "Disabling LTM or EM automatically disables AM metrics"

  /** `disable`: "true" for `disable_pcm`, "false" otherwise. */
  function DisableFlag(params: Fields): string
  {
    if Get(params, "action") == Str("disable_pcm") then "true" else "false"
  }

  /** `m in metrics` for the list of metric names. */
  predicate Listed(metrics: Value, m: string)
  {
    metrics.List? && m in metrics.items
  }

  /** The warning a PCM change carries: enabling AM also enables LTM and EM,
      and disabling LTM or EM also disables AM.  The first rule wins. */
  function PcmWarning(metrics: Value, disable: string): (w: Option<string>)
    ensures w == Some(EnablingAm) <==> Listed(metrics, "AM") && disable == "false"
    ensures w == Some(DisablingLtmEm) <==> (Listed(metrics, "LTM") || Listed(metrics, "EM")) && disable == "true"
    ensures w.None? <==>
      !(Listed(metrics, "AM") && disable == "false") && !((Listed(metrics, "LTM") || Listed(metrics, "EM")) && disable == "true")
  {
    if Listed(metrics, "AM") && disable == "false" then Some(EnablingAm)
    else if (Listed(metrics, "LTM") || Listed(metrics, "EM")) && disable == "true" then Some(DisablingLtmEm)
    else None
  }

  /** `updatePCM`: validate, locate the system, send the metrics with the
      disable flag, and report a change when the console answers with a
      non-empty record, to which the warning is added under `info`. */
  function UpdatePcmRun(params: Fields, login: Reply<()>, managed: Reply<string>, response: Reply<Fields>): (run: Run)
    ensures Validation(params).Some? ==> run == Run(Raised(ParameterError(Validation(params).value)), [])
    ensures run.outcome.Returned? && run.outcome.changed <==>
      Validation(params).None? && LocateSystem(Get(params, "system_name"), login, managed).Located? &&
      response.Answer? && response.value != map[]
    ensures run.outcome.Returned? && run.outcome.changed ==>
      run.outcome.info == Data(
        match PcmWarning(Get(params, "metrics"), DisableFlag(params))
        case None => response.value
        case Some(w) => response.value["info" := Str(w)])
    ensures run.outcome.Returned? ==> run.outcome.warning.None?
  {
    var system, metrics := Get(params, "system_name"), Get(params, "metrics");
    if Validation(params).Some? then Run(Raised(ParameterError(Validation(params).value)), [])
    else match LocateSystem(system, login, managed)
      case Stopped(stop) => stop
      case Located(uuid) =>
        var calls := [RestLogin, GetManagedSystem(system), UpdatePcm(uuid, metrics, DisableFlag(params))];
        match response
        case Refused(text) => Run(FailJson(ParsedFrom(HmcError(text))), calls)
        case Answer(prop) =>
          if prop == map[] then Run(Returned(false, Data(prop), None), calls)
          else match PcmWarning(metrics, DisableFlag(params))
            case None => Run(Returned(true, Data(prop), None), calls)
            case Some(w) => Run(Returned(true, Data(prop["info" := Str(w)]), None), calls)
  }

  /** The metrics are sent exactly once, with the disable flag of the
      action, as soon as the system is located. */
  lemma UpdatePcmMutations(params: Fields, login: Reply<()>, managed: Reply<string>, response: Reply<Fields>)
    ensures Mutations(UpdatePcmRun(params, login, managed, response).calls) ==
      if Validation(params).None? && LocateSystem(Get(params, "system_name"), login, managed).Located?
      then [UpdatePcm(LocateSystem(Get(params, "system_name"), login, managed).uuid, Get(params, "metrics"), DisableFlag(params))]
      else []
  {
    var system := Get(params, "system_name");
    var location := LocateSystem(system, login, managed);
    var calls := UpdatePcmRun(params, login, managed, response).calls;
    UpdatePcmCalls(params, login, managed, response);
    if Validation(params).Some? {
      assert calls == [];
    } else if location.Stopped? {
      assert calls == location.run.calls;
      ReadOnlyMeansNoMutations(location.run.calls);
    } else {
      var update := UpdatePcm(location.uuid, Get(params, "metrics"), DisableFlag(params));
      assert calls == [RestLogin, GetManagedSystem(system)] + [update] + [];
      OneAmongReads([RestLogin, GetManagedSystem(system)], update, []);
    }
  }

  /** The calls `updatePCM` makes: none before validation passes, the
      location's own calls when the system is not found, and the update
      after the login and the lookup otherwise. */
  lemma UpdatePcmCalls(params: Fields, login: Reply<()>, managed: Reply<string>, response: Reply<Fields>)
    ensures Validation(params).Some? ==> UpdatePcmRun(params, login, managed, response).calls == []
    ensures Validation(params).None? && LocateSystem(Get(params, "system_name"), login, managed).Stopped? ==>
      UpdatePcmRun(params, login, managed, response).calls == LocateSystem(Get(params, "system_name"), login, managed).run.calls
    ensures Validation(params).None? && LocateSystem(Get(params, "system_name"), login, managed).Located? ==>
      UpdatePcmRun(params, login, managed, response).calls ==
        [RestLogin, GetManagedSystem(Get(params, "system_name"))] +
        [UpdatePcm(LocateSystem(Get(params, "system_name"), login, managed).uuid, Get(params, "metrics"), DisableFlag(params))]
  {
  }

  // ---- dispatch ----

  /** Everything the console answers during one invocation of the module. */
  datatype SystemConsole = SystemConsole(
    details: Reply<Fields>,
    switched: Reply<()>,
    settled: Reply<bool>,
    hwres: Reply<Fields>,
    written: Reply<()>,
    login: Reply<()>,
    managed: Reply<string>,
    answer: Reply<Fields>)

  const Actions := {Str("poweron"), Str("poweroff"), Str("facts"), Str("modify_syscfg"), Str("modify_hwres"),
                    Str("enable_pcm"), Str("disable_pcm"), Str("pcm_facts")}

  /** `perform_task`: dispatch on `action` (on `state` when `action` is
      None), and turn every escaping exception into a returned error. */
  method PerformTask(params: Fields, console: SystemConsole) returns (run: Run)
    ensures !run.outcome.Raised?
    ensures DispatchKey(params) !in Actions ==> run == Run(Caught(KeyError(DispatchKey(params))), [])
    ensures Validation(params).Some? ==> run.calls == []
    ensures |Mutations(run.calls)| <= 1
    ensures DispatchKey(params) in {Str("facts"), Str("pcm_facts")} ==> Mutations(run.calls) == []
  {
    var key := DispatchKey(params);
    var system := Get(params, "system_name");
    if key == Str("poweron") || key == Str("poweroff") {
      run := Power(key == Str("poweron"), params, console.details, console.switched, console.settled);
      PowerMutations(system, console.details, console.switched, console.settled);
    } else if key == Str("facts") || key == Str("pcm_facts") {
      run := Facts(if key == Str("facts") then Properties else PcmSettings, params, console.login, console.managed, console.answer);
      ReadOnlyMeansNoMutations(run.calls);
    } else if key == Str("modify_syscfg") {
      run := ModifySettings(General, params, console.details, console.written);
      ModifyMutations(General, params, console.details, console.written);
    } else if key == Str("modify_hwres") {
      run := ModifySettings(Memory, params, console.hwres, console.written);
      ModifyMutations(Memory, params, console.hwres, console.written);
    } else if key == Str("enable_pcm") || key == Str("disable_pcm") {
      run := UpdatePcmRun(params, console.login, console.managed, console.answer);
      UpdatePcmMutations(params, console.login, console.managed, console.answer);
    } else {
      run := Run(Raised(KeyError(key)), []);
    }
    run := Run(PerformTaskCatch(run.outcome), run.calls);
  }
}

/** plugins/modules/vios_update_upgrade.py: update or upgrade the software
    of a Virtual I/O Server from a repository (an image on the console's
    disk, IBM's website, an NFS export or an SFTP server), and show its
    version. */
module ViosUpdateUpgrade {
  import opened Python
  import opened Console
  import opened Outcomes
  import opened Rules

  // ---- parameter validation ----

  const MissingVios := "Missing VIOS details"
  const ViosExclusive := "Parameters 'vios_id' and 'vios_name' are mutually exclusive"
  const NoWebsiteUpgrade := "Upgrade using 'ibmwebsite' is not supported"
  const CredentialsExclusive := "Parameters 'ssh_key_file' and 'password' are mutually exclusive"
  const CredentialsMissing := "Either 'ssh_key_file' or 'password' is mandatory"

  /** The repository fields `facts` refuses. */
  const FactsUnsupported := ["files", "host_name", "user_id", "password", "ssh_key_file", "repository", "restart",
                             "mount_loc", "option", "directory", "save", "disks", "image_name"]
  const DiskUnsupported := ["files", "host_name", "user_id", "password", "ssh_key_file", "mount_loc", "option", "directory", "save"]
  const WebsiteUnsupported := ["files", "host_name", "user_id", "password", "ssh_key_file", "mount_loc", "option", "directory"]

  /** Unsupported names are checked first, and several names are joined
      with "," in both messages. */
  const UpgradeStyle := Style(false, ",", ",")

  /** `x is not None`. */
  predicate Given(v: Value)
  {
    v != Nothing
  }

  /** How many of two values are given. */
  function CountGiven(a: Value, b: Value): nat
  {
    (if Given(a) then 1 else 0) + (if Given(b) then 1 else 0)
  }

  /** The names every state demands. */
  function Base(state: Value): seq<string>
  {
    if state == Str("facts") then ["system_name"] else ["repository", "system_name"]
  }

  /** The names the state adds to the mandatory list. */
  function StateMandatory(state: Value, repo: Value): seq<string>
  {
    if state == Str("upgraded") then ["disks"] + (if repo in {Str("sftp"), Str("nfs")} then ["files"] else [])
    else []
  }

  /** The names the state adds to the unsupported list. */
  function StateUnsupported(state: Value): seq<string>
  {
    if state == Str("updated") then ["disks"]
    else if state == Str("upgraded") then ["restart"]
    else if state == Str("facts") then FactsUnsupported
    else []
  }

  /** The names the repository adds to the mandatory list. */
  function RepoMandatory(repo: Value): seq<string>
  {
    if repo == Str("sftp") then ["user_id", "host_name"]
    else if repo == Str("disk") || repo == Str("ibmwebsite") then ["image_name"]
    else if repo == Str("nfs") then ["mount_loc", "host_name"]
    else []
  }

  /** The names the repository adds to the unsupported list. */
  function RepoUnsupported(repo: Value): seq<string>
  {
    if repo == Str("sftp") then ["mount_loc", "option"]
    else if repo == Str("disk") then DiskUnsupported
    else if repo == Str("ibmwebsite") then WebsiteUnsupported
    else if repo == Str("nfs") then ["user_id", "password", "ssh_key_file"]
    else []
  }

  /** The lists `validate_sub_params` builds for the attributes, or the
      message it raises on the way: the VIOS selector first, then an
      upgrade from the website, then the SFTP credentials. */
  function SubRules(state: Value, attrs: Fields): (rules: RuleChoice)
    ensures rules.Rejected? <==>
      CountGiven(Get(attrs, "vios_id"), Get(attrs, "vios_name")) != 1 ||
      (state == Str("upgraded") && Get(attrs, "repository") == Str("ibmwebsite")) ||
      (Get(attrs, "repository") == Str("sftp") && CountGiven(Get(attrs, "ssh_key_file"), Get(attrs, "password")) != 1)
    ensures CountGiven(Get(attrs, "vios_id"), Get(attrs, "vios_name")) == 0 ==> rules == Rejected(MissingVios)
    ensures rules.Lists? ==> "system_name" in rules.mandatory
    ensures rules.Lists? && state == Str("upgraded") ==> "disks" in rules.mandatory && "restart" in rules.unsupported
    ensures rules.Lists? && state == Str("updated") ==> "disks" in rules.unsupported
  {
    var repo := Get(attrs, "repository");
    var selectors := CountGiven(Get(attrs, "vios_id"), Get(attrs, "vios_name"));
    var credentials := CountGiven(Get(attrs, "ssh_key_file"), Get(attrs, "password"));
    if selectors == 0 then Rejected(MissingVios)
    else if selectors != 1 then Rejected(ViosExclusive)
    else if state == Str("upgraded") && repo == Str("ibmwebsite") then Rejected(NoWebsiteUpgrade)
    else if repo == Str("sftp") && credentials == 2 then Rejected(CredentialsExclusive)
    else if repo == Str("sftp") && credentials == 0 then Rejected(CredentialsMissing)
    else
      Lists(Base(state) + StateMandatory(state, repo) + RepoMandatory(repo), StateUnsupported(state) + RepoUnsupported(repo))
  }

  /** What `validate_sub_params` raises, if anything. */
  function SubValidation(state: Value, attrs: Fields): Option<string>
  {
    match SubRules(state, attrs)
    case Rejected(msg) => Some(msg)
    case Lists(mandatory, unsupported) => Check(mandatory, unsupported, attrs, UpgradeStyle)
  }

  /** `validate_sub_params` as written: the two lists grow with `+=`. */
  method ValidateSubParams(state: Value, attrs: Fields) returns (err: Option<string>)
    ensures err == SubValidation(state, attrs)
  {
    var mandatory := ["repository", "system_name"];
    var unsupported: seq<string> := [];
    if state == Str("facts") {
      mandatory := ["system_name"];
    }
    var count := CountGiven(Get(attrs, "vios_id"), Get(attrs, "vios_name"));
    if count == 0 {
      return Some(MissingVios);
    }
    if count != 1 {
      return Some(ViosExclusive);
    }
    var repo := Get(attrs, "repository");
    if state == Str("updated") {
      unsupported := unsupported + ["disks"];
    } else if state == Str("upgraded") {
      mandatory := mandatory + ["disks"];
      unsupported := unsupported + ["restart"];
      if repo == Str("ibmwebsite") {
        return Some(NoWebsiteUpgrade);
      }
      if repo == Str("sftp") || repo == Str("nfs") {
        mandatory := mandatory + ["files"];
      }
    } else if state == Str("facts") {
      unsupported := unsupported + FactsUnsupported;
    }
    assert mandatory == Base(state) + StateMandatory(state, repo) && unsupported == StateUnsupported(state);
    ghost var stateMandatory, stateUnsupported := mandatory, unsupported;
    if repo == Str("sftp") {
      count := CountGiven(Get(attrs, "ssh_key_file"), Get(attrs, "password"));
      if count != 1 && count != 0 {
        return Some(CredentialsExclusive);
      }
      if count == 0 {
        return Some(CredentialsMissing);
      }
      mandatory := mandatory + ["user_id", "host_name"];
      unsupported := unsupported + ["mount_loc", "option"];
    } else if repo == Str("disk") {
      mandatory := mandatory + ["image_name"];
      unsupported := unsupported + DiskUnsupported;
    } else if repo == Str("ibmwebsite") {
      mandatory := mandatory + ["image_name"];
      unsupported := unsupported + WebsiteUnsupported;
    } else if repo == Str("nfs") {
      mandatory := mandatory + ["mount_loc", "host_name"];
      unsupported := unsupported + ["user_id", "password", "ssh_key_file"];
    }
    assert mandatory == stateMandatory + RepoMandatory(repo) && unsupported == stateUnsupported + RepoUnsupported(repo);
    assert SubRules(state, attrs) == Lists(mandatory, unsupported);
    err := Validate(mandatory, unsupported, attrs, UpgradeStyle);
  }

  /** `validate_parameters`: a top-level mandatory check for the operations
      `update` and `upgrade`, then `validate_sub_params`. */
  function Validation(params: Fields, attrs: Fields): Option<string>
  {
    var top := if Operation(params) in {Str("update"), Str("upgrade")} then ["hmc_host", "hmc_auth", "attributes"] else [];
    var err := Check(top, [], params, Style(true, ",", ","));
    if err.Some? then err else SubValidation(Get(params, "state"), attrs)
  }

  /** The states the module accepts are `updated`, `upgraded` and `facts`,
      so the top-level check never applies and validation is the
      attributes' check alone. */
  lemma TopLevelNeverApplies(params: Fields, attrs: Fields)
    requires Get(params, "state") in {Str("updated"), Str("upgraded"), Str("facts")}
    ensures Validation(params, attrs) == SubValidation(Get(params, "state"), attrs)
  {
    assert Flagged([], params, false) == [];
  }

  /** The VIOS is named by exactly one of `vios_id` and `vios_name`,
      whatever else the attributes hold. */
  lemma SelectorDecidesFirst(state: Value, attrs: Fields)
    ensures !Given(Get(attrs, "vios_id")) && !Given(Get(attrs, "vios_name")) ==> SubValidation(state, attrs) == Some(MissingVios)
    ensures Given(Get(attrs, "vios_id")) && Given(Get(attrs, "vios_name")) ==> SubValidation(state, attrs) == Some(ViosExclusive)
    ensures SubValidation(state, attrs).None? ==> Given(Get(attrs, "vios_id")) != Given(Get(attrs, "vios_name"))
  {
  }

  /** An unsupported name that is set is reported even when mandatory names
      are missing too. */
  lemma UnsupportedReportedFirst(state: Value, attrs: Fields, x: string)
    requires SubRules(state, attrs).Lists?
    requires x in SubRules(state, attrs).unsupported && Truthy(Get(attrs, x))
    ensures Flagged(SubRules(state, attrs).unsupported, attrs, true) != [] &&
      SubValidation(state, attrs) == Some(UnsupportedMessage(Flagged(SubRules(state, attrs).unsupported, attrs, true), ","))
  {
    FlaggedMembers(SubRules(state, attrs).unsupported, attrs, true, x);
  }

  /** An SFTP repository passes only with exactly one of a key file and a
      password, and with a user and a host. */
  lemma SftpCredentials(state: Value, attrs: Fields)
    requires Get(attrs, "repository") == Str("sftp")
    requires SubValidation(state, attrs).None?
    ensures Given(Get(attrs, "ssh_key_file")) != Given(Get(attrs, "password"))
    ensures Truthy(Get(attrs, "user_id")) && Truthy(Get(attrs, "host_name"))
  {
    var rules := SubRules(state, attrs);
    assert "user_id" in rules.mandatory && "host_name" in rules.mandatory;
  }

  /** An upgrade that passes names its disks, does not ask for a restart,
      and names its files when they come from NFS or SFTP. */
  lemma UpgradeNeeds(attrs: Fields)
    requires SubValidation(Str("upgraded"), attrs).None?
    ensures Truthy(Get(attrs, "disks")) && !Truthy(Get(attrs, "restart"))
    ensures Get(attrs, "repository") != Str("ibmwebsite")
    ensures Get(attrs, "repository") in {Str("sftp"), Str("nfs")} ==> Truthy(Get(attrs, "files"))
  {
    var rules := SubRules(Str("upgraded"), attrs);
    assert "disks" in rules.mandatory && "restart" in rules.unsupported;
    if Get(attrs, "repository") in {Str("sftp"), Str("nfs")} {
      assert "files" in rules.mandatory;
    }
  }

  /** Which SFTP credential message is raised, once the VIOS selector
      passes: both credentials are refused as exclusive, neither as missing. */
  lemma SftpMessages(state: Value, attrs: Fields)
    requires Get(attrs, "repository") == Str("sftp")
    requires CountGiven(Get(attrs, "vios_id"), Get(attrs, "vios_name")) == 1
    ensures Given(Get(attrs, "ssh_key_file")) && Given(Get(attrs, "password")) ==>
      SubValidation(state, attrs) == Some(CredentialsExclusive)
    ensures !Given(Get(attrs, "ssh_key_file")) && !Given(Get(attrs, "password")) ==>
      SubValidation(state, attrs) == Some(CredentialsMissing)
  {
  }

  /** What each repository demands and refuses of a request that passes:
      an image name for the console's disk and the website, an export and a
      host for NFS, no mount point or NFS version for SFTP, and no
      repository field at all for `facts`. */
  lemma RepositoryNeeds(state: Value, attrs: Fields)
    requires SubValidation(state, attrs).None?
    ensures Get(attrs, "repository") in {Str("disk"), Str("ibmwebsite")} ==> Truthy(Get(attrs, "image_name"))
    ensures Get(attrs, "repository") == Str("nfs") ==> Truthy(Get(attrs, "mount_loc")) && Truthy(Get(attrs, "host_name"))
    ensures Get(attrs, "repository") == Str("sftp") ==> !Truthy(Get(attrs, "mount_loc")) && !Truthy(Get(attrs, "option"))
    ensures state == Str("facts") ==> forall x :: x in FactsUnsupported ==> !Truthy(Get(attrs, x))
  {
    var rules := SubRules(state, attrs);
    var repo := Get(attrs, "repository");
    if repo in {Str("disk"), Str("ibmwebsite")} {
      assert "image_name" in rules.mandatory;
    }
    if repo == Str("nfs") {
      assert "mount_loc" in rules.mandatory && "host_name" in rules.mandatory;
    }
    if repo == Str("sftp") {
      assert "mount_loc" in rules.unsupported && "option" in rules.unsupported;
    }
    if state == Str("facts") {
      forall x | x in FactsUnsupported ensures x in rules.unsupported {
      }
    }
  }

  // ---- locating the system and the VIOS ----

  const NamesCommand := "lssyscfg -r sys -F name"
  const MtmsCommand := "lssyscfg -r sys -F type_model*serial_num"

  function LparCommand(system: Value): string
  {
    "lssyscfg -r lpar -m " + Text(system) + " -F name,state,lpar_id"
  }

  const NoSystem := "The managed system is not available in HMC"
  const NotRunning := "The VIOS is not in running state"
  const NotAvailable := "The VIOS is not available in HMC"

  /** The first `name,state,lpar_id` row whose field `column` is the key,
      as `next` over the rows finds it, and its position: a row too short
      for the column, before any match, raises `IndexError`. */
  datatype RowLookup = Found(index: nat, fields: seq<string>) | NotFound | TooShort(index: nat)

  function FindRow(lines: seq<string>, key: Value, column: nat): (r: RowLookup)
    ensures r.Found? ==>
      r.index < |lines| && r.fields == Split(lines[r.index], ',') && column < |r.fields| && Str(r.fields[column]) == key
    ensures r.TooShort? ==> r.index < |lines| && |Split(lines[r.index], ',')| <= column
    ensures forall j :: 0 <= j < |lines| && (r.NotFound? || j < r.index) ==>
      column < |Split(lines[j], ',')| && Str(Split(lines[j], ',')[column]) != key
  {
    if lines == [] then NotFound
    else
      var fields := Split(lines[0], ',');
      if |fields| <= column then TooShort(0)
      else if Str(fields[column]) == key then Found(0, fields)
      else
        assert forall j :: 1 <= j < |lines| ==> lines[j] == lines[1..][j - 1];
        match FindRow(lines[1..], key, column)
        case Found(i, f) => Found(i + 1, f)
        case TooShort(i) => TooShort(i + 1)
        case NotFound => NotFound
  }

  /** A row written with `','` between its fields, placed first, is the
      row found for its own key. */
  lemma FindWrittenRow(fields: seq<string>, rest: seq<string>, column: nat)
    requires column < |fields|
    requires forall f :: f in fields ==> ',' !in f
    ensures FindRow([Join(fields, [','])] + rest, Str(fields[column]), column) == Found(0, fields)
  {
    SplitJoin(fields, ',');
  }

  /** The console's answers to the three listing commands: system names,
      system type-model-serial strings and the VIOS rows, line by line. */
  datatype Listing = Listing(names: Reply<seq<string>>, mtms: Reply<seq<string>>, lpars: Reply<seq<string>>)

  /** The value a VIOS row is looked up by: `vios_name or vios_id`. */
  function ViosKey(attrs: Fields): Value
  {
    Or(Get(attrs, "vios_name"), Get(attrs, "vios_id"))
  }

  /** The row field the key is compared with: the name (field 0) when
      `vios_name` is given, the id (field 2) otherwise. */
  function KeyColumn(attrs: Fields): nat
  {
    if Given(Get(attrs, "vios_name")) then 0 else 2
  }

  /** A row that was found, has a state field, and is running. */
  predicate RunningRow(r: RowLookup)
  {
    r.Found? && |r.fields| >= 2 && r.fields[1] == "Running"
  }

  /** The VIOS check of `facts` once the rows are listed: find the row by
      name or by id, and demand it is `Running`.  None when it passes. */
  function ViosCheck(attrs: Fields, rows: seq<string>): (verdict: Option<Outcome>)
    ensures verdict.Some? ==> verdict.value.FailJson? || verdict.value.Raised?
    ensures !Given(Get(attrs, "vios_name")) && !Given(Get(attrs, "vios_id")) ==>
      verdict == Some(Raised(UnboundLocalError("vios_details")))
    ensures Given(Get(attrs, "vios_name")) || Given(Get(attrs, "vios_id")) ==>
      (verdict.None? <==> RunningRow(FindRow(rows, ViosKey(attrs), KeyColumn(attrs))))
    ensures (Given(Get(attrs, "vios_name")) || Given(Get(attrs, "vios_id"))) &&
            FindRow(rows, ViosKey(attrs), KeyColumn(attrs)).NotFound? ==>
      verdict == Some(FailJson(Message(NotAvailable)))
    ensures (Given(Get(attrs, "vios_name")) || Given(Get(attrs, "vios_id"))) &&
            FindRow(rows, ViosKey(attrs), KeyColumn(attrs)).Found? &&
            |FindRow(rows, ViosKey(attrs), KeyColumn(attrs)).fields| >= 2 &&
            FindRow(rows, ViosKey(attrs), KeyColumn(attrs)).fields[1] != "Running" ==>
      verdict == Some(FailJson(Message(NotRunning)))
  {
    var key := ViosKey(attrs);
    var lookup: Option<RowLookup> :=
      if Given(Get(attrs, "vios_name")) then Some(FindRow(rows, key, 0))
      else if Given(Get(attrs, "vios_id")) then Some(FindRow(rows, key, 2))
      else None;
    match lookup
    case None => Some(Raised(UnboundLocalError("vios_details")))
    case Some(TooShort(_)) => Some(Raised(IndexError))
    case Some(NotFound) => Some(FailJson(Message(NotAvailable)))
    case Some(Found(_, fields)) =>
      if |fields| < 2 then Some(Raised(IndexError))
      else if fields[1] != "Running" then Some(FailJson(Message(NotRunning)))
      else None
  }

  /** The listing commands `facts` issues and how the system and VIOS
      checks end: the system must appear among the names or the
      type-model-serial strings, and the VIOS must be found running. */
  function Locate(attrs: Fields, listing: Listing): (r: (seq<Call>, Option<Outcome>))
    ensures ReadOnly(r.0)
    ensures listing.names.Answer? && listing.mtms.Answer? &&
            !(Get(attrs, "system_name").Str? && Get(attrs, "system_name").s in listing.names.value + listing.mtms.value) ==>
      r.1 == Some(FailJson(Message(NoSystem)))
    ensures r.1.None? <==>
      (listing.names.Answer? && listing.mtms.Answer? && listing.lpars.Answer? &&
       Get(attrs, "system_name").Str? && Get(attrs, "system_name").s in listing.names.value + listing.mtms.value &&
       ViosCheck(attrs, listing.lpars.value).None?)
  {
    var system := Get(attrs, "system_name");
    match listing.names
    case Refused(text) => ([Execute(NamesCommand)], Some(Raised(HmcError(text))))
    case Answer(names) =>
      match listing.mtms
      case Refused(text) => ([Execute(NamesCommand), Execute(MtmsCommand)], Some(Raised(HmcError(text))))
      case Answer(mtms) =>
        if !(system.Str? && system.s in names + mtms) then
          ([Execute(NamesCommand), Execute(MtmsCommand)], Some(FailJson(Message(NoSystem))))
        else
          var calls := [Execute(NamesCommand), Execute(MtmsCommand), Execute(LparCommand(system))];
          match listing.lpars
          case Refused(text) => (calls, Some(Raised(HmcError(text))))
          case Answer(rows) => (calls, ViosCheck(attrs, rows))
  }

  /** The record `facts` returns. */
  function VersionRecord(attrs: Fields, version: string): Fields
  {
    map["vios" := ViosKey(attrs), "system" := Get(attrs, "system_name"),
        "version" := Str(version)]
  }

  /** `facts`: validate, locate the system and the VIOS, and report the
      VIOS's version, changing nothing. */
  function Facts(params: Fields, attrs: Fields, listing: Listing, version: Reply<string>): (run: Run)
    ensures Validation(params, attrs).Some? ==> run == Run(Raised(ParameterError(Validation(params, attrs).value)), [])
    ensures ReadOnly(run.calls)
    ensures run.outcome.Returned? <==> (Validation(params, attrs).None? && Locate(attrs, listing).1.None? && version.Answer?)
    ensures run.outcome.Returned? ==> run.outcome == Returned(false, Data(VersionRecord(attrs, version.value)), None)
    ensures run.outcome.Raised? || run.outcome.FailJson? || run.outcome.Returned?
  {
    if Validation(params, attrs).Some? then Run(Raised(ParameterError(Validation(params, attrs).value)), [])
    else
      var (calls, verdict) := Locate(attrs, listing);
      if verdict.Some? then Run(verdict.value, calls)
      else
        match version
        case Refused(text) => Run(Raised(HmcError(text)), calls + [GetViosVersion(attrs)])
        case Answer(v) => Run(Returned(false, Data(VersionRecord(attrs, v)), None), calls + [GetViosVersion(attrs)])
  }

  // ---- flattening the attributes ----

  /** `','.join(v) if v else None` for a list of names. */
  function Joined(v: Value): Value
  {
    if v.List? && v.items != [] then Str(Join(v.items, [','])) else Nothing
  }

  /** `'"ver={}"'.format(v) if v else None` for the NFS version. */
  function Versioned(v: Value): Value
  {
    if Truthy(v) then Str("\"ver=" + Text(v) + "\"") else Nothing
  }

  /** The attributes as the console command takes them. */
  function Flatten(attrs: Fields): (flat: Fields)
    ensures flat.Keys == attrs.Keys + {"files", "disks", "option"}
    ensures forall k :: k in attrs && k !in {"files", "disks", "option"} ==> flat[k] == attrs[k]
    ensures forall k :: k in {"files", "disks"} ==>
      (flat[k].Str? <==> Get(attrs, k).List? && Get(attrs, k).items != []) && (flat[k].Str? || flat[k].Nothing?)
    ensures flat["option"].Str? <==> Truthy(Get(attrs, "option"))
    ensures flat["option"].Str? || flat["option"].Nothing?
  {
    attrs["files" := Joined(Get(attrs, "files"))]["disks" := Joined(Get(attrs, "disks"))]["option" := Versioned(Get(attrs, "option"))]
  }

  /** `ensure_update_upgrade` rewrites the three attributes in place. */
  method FlattenAttributes(attrs: Fields) returns (flat: Fields)
    ensures flat == Flatten(attrs)
  {
    flat := attrs;
    flat := flat["files" := if Truthy(Get(flat, "files")) && Get(flat, "files").List? then Str(Join(Get(flat, "files").items, [','])) else Nothing];
    flat := flat["disks" := if Truthy(Get(flat, "disks")) && Get(flat, "disks").List? then Str(Join(Get(flat, "disks").items, [','])) else Nothing];
    flat := flat["option" := if Truthy(Get(flat, "option")) then Str("\"ver=" + Text(Get(flat, "option")) + "\"") else Nothing];
  }

  /** The flattened lists split back into the names given, when no name
      holds a comma; the version is recovered from between `"ver=` and `"`;
      every other attribute is untouched. */
  lemma FlattenRoundTrip(attrs: Fields, key: string)
    requires Get(attrs, key).List? && Get(attrs, key).items != []
    requires forall f :: f in Get(attrs, key).items ==> ',' !in f
    requires key in {"files", "disks"}
    ensures Flatten(attrs)[key].Str? && Split(Flatten(attrs)[key].s, ',') == Get(attrs, key).items
  {
    SplitJoin(Get(attrs, key).items, ',');
  }

  lemma FlattenVersion(attrs: Fields)
    requires Truthy(Get(attrs, "option"))
    ensures Flatten(attrs)["option"].Str?
    ensures var s := Flatten(attrs)["option"].s; |s| >= 6 && s[..5] == "\"ver=" && s[5..|s| - 1] == Text(Get(attrs, "option"))
  {
  }

  lemma FlattenKeepsOthers(attrs: Fields, k: string)
    requires k !in {"files", "disks", "option"}
    ensures Get(Flatten(attrs), k) == Get(attrs, k)
  {
  }

  /** `files`, `disks` and `option` keep their truthiness through the
      flattening, except a list holding only the empty name, which joins
      into the empty string. */
  lemma FlattenKeepsTruth(attrs: Fields, k: string)
    requires Get(attrs, "files").Nothing? || (Get(attrs, "files").List? && Get(attrs, "files").items != [""])
    requires Get(attrs, "disks").Nothing? || (Get(attrs, "disks").List? && Get(attrs, "disks").items != [""])
    ensures Truthy(Get(Flatten(attrs), k)) == Truthy(Get(attrs, k))
  {
    if k in {"files", "disks"} {
      var v := Get(attrs, k);
      if v.List? && |v.items| > 1 {
        assert Join(v.items, [','])[|v.items[0]|] == ',';
      }
    }
  }

  /** The second `facts` call validates the flattened attributes; with lists
      as above it agrees with the first validation. */
  lemma RevalidationAgrees(state: Value, attrs: Fields)
    requires Get(attrs, "files").Nothing? || (Get(attrs, "files").List? && Get(attrs, "files").items != [""])
    requires Get(attrs, "disks").Nothing? || (Get(attrs, "disks").List? && Get(attrs, "disks").items != [""])
    ensures SubValidation(state, Flatten(attrs)) == SubValidation(state, attrs)
  {
    var flat := Flatten(attrs);
    forall k | k !in {"files", "disks", "option"} ensures Get(flat, k) == Get(attrs, k) {
      FlattenKeepsOthers(attrs, k);
    }
    assert SubRules(state, flat) == SubRules(state, attrs);
    forall x ensures Truthy(Get(flat, x)) == Truthy(Get(attrs, x)) {
      FlattenKeepsTruth(attrs, x);
    }
    if SubRules(state, attrs).Lists? {
      CheckByTruth(SubRules(state, attrs).mandatory, SubRules(state, attrs).unsupported, flat, attrs, UpgradeStyle);
    }
  }

  // ---- update and upgrade ----

  const SaveNeedsImage := "To save the image to the HMC hard disk, 'image_name' parameter is required"
  const ImageNeedsSave := "For remote server repository'image_name' parameter is only required if 'save' option is set to 'true'"
  const AlreadyThere := "The vios is already in required version"

  /** The image-name rule for NFS and SFTP: the image is named exactly when
      it is saved on the console.  None when it passes. */
  function ImageCheck(attrs: Fields): (err: Option<string>)
    ensures err.None? <==>
      Get(attrs, "repository") !in {Str("nfs"), Str("sftp")} || Given(Get(attrs, "save")) == Given(Get(attrs, "image_name"))
  {
    if Get(attrs, "repository") in {Str("nfs"), Str("sftp")} then
      if Given(Get(attrs, "save")) && !Given(Get(attrs, "image_name")) then Some(SaveNeedsImage)
      else if !Given(Get(attrs, "save")) && Given(Get(attrs, "image_name")) then Some(ImageNeedsSave)
      else None
    else None
  }

  /** Everything the console answers during an update or upgrade: the
      listings and version read before the update (the first `facts` call
      and the repeated check ask the same questions with nothing changed in
      between, so they get the same answers), the update itself, and the
      listings and version read by the `facts` call after it. */
  datatype UpgradeConsole = UpgradeConsole(listing: Listing, before: Reply<string>, updated: Reply<()>,
                                           afterListing: Listing, after: Reply<string>)

  /** `ensure_update_upgrade`: validate, read the current version, check the
      system and the VIOS again, check the image name, flatten the
      attributes, run the update, read the version again (validating the
      flattened attributes on the way), and report a change exactly when
      the version moved.  A refusal naming the console's user-authority error
      (`authority`) ends the operation quietly without a change. */
  function UpdateUpgrade(params: Fields, attrs: Fields, console: UpgradeConsole, authority: string): (run: Run)
    ensures Validation(params, attrs).Some? ==> run == Run(Raised(ParameterError(Validation(params, attrs).value)), [])
  {
    if Validation(params, attrs).Some? then Run(Raised(ParameterError(Validation(params, attrs).value)), [])
    else
      var first := Facts(params, attrs, console.listing, console.before);
      if !first.outcome.Returned? then first
      else Run(UpgradeEnding(params, attrs, console, authority, first.outcome.info),
               first.calls + UpgradeTrace(params, attrs, console))
  }

  /** The update command is issued: the request validates, the first
      version read and the second system check pass, and the image name
      fits. */
  predicate Reached(params: Fields, attrs: Fields, console: UpgradeConsole)
  {
    Validation(params, attrs).None? && Locate(attrs, console.listing).1.None? && console.before.Answer? &&
    ImageCheck(attrs).None?
  }

  /** How an update ends once the current version is known. */
  function UpgradeEnding(params: Fields, attrs: Fields, console: UpgradeConsole, authority: string, current: Info): Outcome
  {
    var (_, verdict) := Locate(attrs, console.listing);
    if verdict.Some? then verdict.value
    else if ImageCheck(attrs).Some? then Raised(ParameterError(ImageCheck(attrs).value))
    else
      match console.updated
      case Refused(text) => if Contains(text, authority) then Returned(false, NoInfo, None) else Raised(HmcError(text))
      case Answer(_) =>
        var latest := Facts(params, Flatten(attrs), console.afterListing, console.after);
        if !latest.outcome.Returned? then latest.outcome
        else if current != latest.outcome.info then Returned(true, latest.outcome.info, None)
        else ExitJson(false, AlreadyThere)
  }

  /** The calls after the first version read: the second listing, and,
      once the checks pass, the update and the second version read. */
  function UpgradeTrace(params: Fields, attrs: Fields, console: UpgradeConsole): seq<Call>
  {
    var (calls, verdict) := Locate(attrs, console.listing);
    if verdict.Some? || ImageCheck(attrs).Some? then calls
    else
      var update := calls + [UpdateVios(Get(params, "state"), Flatten(attrs))];
      if console.updated.Refused? then update
      else update + Facts(params, Flatten(attrs), console.afterListing, console.after).calls
  }

  /** The flattening leaves the VIOS and the system the record names alone. */
  lemma RecordOfFlattened(attrs: Fields, version: string)
    ensures VersionRecord(Flatten(attrs), version) == VersionRecord(attrs, version)
  {
    FlattenKeepsOthers(attrs, "vios_name");
    FlattenKeepsOthers(attrs, "vios_id");
    FlattenKeepsOthers(attrs, "system_name");
  }

  /** Once the update is issued, the operation reports a change exactly
      when the version read afterwards differs from the one read before,
      and otherwise ends with `exit_json` saying the VIOS is already there.
      A refusal naming the user-authority error ends it quietly. */
  lemma UpdateUpgradeVerdict(params: Fields, attrs: Fields, console: UpgradeConsole, authority: string)
    requires Reached(params, attrs, console)
    ensures console.updated.Refused? && Contains(console.updated.text, authority) ==>
      UpdateUpgrade(params, attrs, console, authority).outcome == Returned(false, NoInfo, None)
    ensures console.updated.Answer? && Facts(params, Flatten(attrs), console.afterListing, console.after).outcome.Returned? ==>
      UpdateUpgrade(params, attrs, console, authority).outcome ==
        if console.before.value != console.after.value
        then Returned(true, Data(VersionRecord(attrs, console.after.value)), None)
        else ExitJson(false, AlreadyThere)
  {
    var first := Facts(params, attrs, console.listing, console.before);
    assert first.outcome == Returned(false, Data(VersionRecord(attrs, console.before.value)), None);
    if console.updated.Answer? && Facts(params, Flatten(attrs), console.afterListing, console.after).outcome.Returned? {
      RecordOfFlattened(attrs, console.after.value);
      var latest := Facts(params, Flatten(attrs), console.afterListing, console.after).outcome;
      assert latest == Returned(false, Data(VersionRecord(attrs, console.after.value)), None);
      if console.before.value != console.after.value {
        assert VersionRecord(attrs, console.before.value)["version"] != VersionRecord(attrs, console.after.value)["version"];
      }
    }
  }

  /** A change is reported only after the update was accepted and the
      version moved. */
  lemma ChangedMeansNewVersion(params: Fields, attrs: Fields, console: UpgradeConsole, authority: string)
    requires UpdateUpgrade(params, attrs, console, authority).outcome.Returned?
    requires UpdateUpgrade(params, attrs, console, authority).outcome.changed
    ensures Reached(params, attrs, console) && console.updated.Answer? && console.after.Answer?
    ensures console.before.value != console.after.value
    ensures Locate(Flatten(attrs), console.afterListing).1.None?
  {
    var first := Facts(params, attrs, console.listing, console.before);
    var latest := Facts(params, Flatten(attrs), console.afterListing, console.after);
    assert latest.outcome.Returned?;
    UpdateUpgradeVerdict(params, attrs, console, authority);
  }

  /** Exactly one update, carrying the flattened attributes, is issued when
      the request gets that far, and nothing else changes. */
  lemma UpdateUpgradeMutations(params: Fields, attrs: Fields, console: UpgradeConsole, authority: string)
    ensures Mutations(UpdateUpgrade(params, attrs, console, authority).calls) ==
      if Reached(params, attrs, console) then [UpdateVios(Get(params, "state"), Flatten(attrs))] else []
  {
    var run := UpdateUpgrade(params, attrs, console, authority);
    if Validation(params, attrs).None? {
      var first := Facts(params, attrs, console.listing, console.before);
      ReadOnlyMeansNoMutations(first.calls);
      if first.outcome.Returned? {
        UpgradeTraceMutations(params, attrs, console);
        MutationsOfJoin(first.calls, UpgradeTrace(params, attrs, console));
      } else {
        assert run.calls == first.calls;
      }
    }
  }

  lemma UpgradeTraceMutations(params: Fields, attrs: Fields, console: UpgradeConsole)
    ensures Mutations(UpgradeTrace(params, attrs, console)) ==
      if Locate(attrs, console.listing).1.None? && ImageCheck(attrs).None?
      then [UpdateVios(Get(params, "state"), Flatten(attrs))] else []
  {
    var calls := Locate(attrs, console.listing).0;
    var trace := UpgradeTrace(params, attrs, console);
    if Locate(attrs, console.listing).1.None? && ImageCheck(attrs).None? {
      var update := UpdateVios(Get(params, "state"), Flatten(attrs));
      var again := if console.updated.Refused? then [] else Facts(params, Flatten(attrs), console.afterListing, console.after).calls;
      assert trace == calls + [update] + again;
      OneAmongReads(calls, update, again);
    } else {
      assert trace == calls;
      ReadOnlyMeansNoMutations(calls);
    }
  }

  /** The repeated system and VIOS check, made before the update, always
      passes once the first `facts` call returned.  This rests on the model
      giving the repeated listing the first call's answers
      (`UpgradeConsole.listing`), since nothing changes between the two. */
  lemma SecondCheckPasses(params: Fields, attrs: Fields, console: UpgradeConsole)
    requires Validation(params, attrs).None? && Facts(params, attrs, console.listing, console.before).outcome.Returned?
    ensures Locate(attrs, console.listing).1.None?
  {
  }

  /** The rules read only the VIOS selectors, the repository and the SFTP
      credentials of the attributes. */
  lemma SubRulesReads(state: Value, a: Fields, b: Fields)
    requires Get(a, "vios_id") == Get(b, "vios_id") && Get(a, "vios_name") == Get(b, "vios_name")
    requires Get(a, "repository") == Get(b, "repository")
    requires Get(a, "ssh_key_file") == Get(b, "ssh_key_file") && Get(a, "password") == Get(b, "password")
    ensures SubRules(state, a) == SubRules(state, b)
  {
  }

  /** A list of files holding only the empty name passes the first
      validation, being a non-empty list, but joins into the empty string,
      which the second validation of an NFS upgrade reports as missing. */
  lemma EmptyFileNameRevalidation(attrs: Fields)
    requires Get(attrs, "repository") == Str("nfs") && Get(attrs, "files") == List([""])
    requires SubValidation(Str("upgraded"), attrs).None?
    ensures SubValidation(Str("upgraded"), Flatten(attrs)).Some?
  {
    var flat := Flatten(attrs);
    assert Join([""], [',']) == "";
    assert !Truthy(Get(flat, "files"));
    FlattenKeepsOthers(attrs, "vios_id");
    FlattenKeepsOthers(attrs, "vios_name");
    FlattenKeepsOthers(attrs, "repository");
    FlattenKeepsOthers(attrs, "ssh_key_file");
    FlattenKeepsOthers(attrs, "password");
    SubRulesReads(Str("upgraded"), flat, attrs);
    var rules := SubRules(Str("upgraded"), attrs);
    assert rules.Lists?;
    assert "files" in StateMandatory(Str("upgraded"), Str("nfs"));
    assert "files" in rules.mandatory && !Truthy(Get(flat, "files"));
    assert !(forall x :: x in rules.mandatory ==> Truthy(Get(flat, x)));
    assert SubValidation(Str("upgraded"), flat) == Check(rules.mandatory, rules.unsupported, flat, UpgradeStyle);
  }

  /** Such an NFS upgrade issues the update and then raises the second
      validation's `ParameterError`. */
  lemma EmptyFileNameFailsAfterUpdate(params: Fields, attrs: Fields, console: UpgradeConsole, authority: string)
    requires Get(params, "state") == Str("upgraded")
    requires Get(attrs, "repository") == Str("nfs") && Get(attrs, "files") == List([""])
    requires Reached(params, attrs, console) && console.updated.Answer?
    ensures UpdateUpgrade(params, attrs, console, authority).outcome.Raised?
    ensures UpdateUpgrade(params, attrs, console, authority).outcome.error.ParameterError?
    ensures Mutations(UpdateUpgrade(params, attrs, console, authority).calls) ==
      [UpdateVios(Get(params, "state"), Flatten(attrs))]
  {
    TopLevelNeverApplies(params, attrs);
    EmptyFileNameRevalidation(attrs);
    TopLevelNeverApplies(params, Flatten(attrs));
    var first := Facts(params, attrs, console.listing, console.before);
    assert first.outcome.Returned?;
    var latest := Facts(params, Flatten(attrs), console.afterListing, console.after);
    assert latest.outcome == Raised(ParameterError(Validation(params, Flatten(attrs)).value));
    assert UpgradeEnding(params, attrs, console, authority, first.outcome.info) == latest.outcome;
    UpdateUpgradeMutations(params, attrs, console, authority);
  }

  /** A refusal naming the user-authority error changes nothing and
      reports nothing, however the update was asked. */
  lemma AuthorityIsNoop(params: Fields, attrs: Fields, console: UpgradeConsole, authority: string)
    requires Reached(params, attrs, console) && console.updated.Refused?
    requires Contains(console.updated.text, authority)
    ensures RunModule(PerformTaskCatch(UpdateUpgrade(params, attrs, console, authority).outcome), false) ==
      Exit(false, None, None, None)
  {
  }

  // ---- dispatch ----

  const NoCredentials := "missing credential info"

  /** The attributes dictionary. */
  function Attributes(params: Fields): Fields
  {
    if Get(params, "attributes").Dict? then ToMap(Get(params, "attributes").entries) else map[]
  }

  /** `perform_task`: refuse a request without credentials, dispatch on
      `state`, and turn every escaping exception into a returned error. */
  method PerformTask(params: Fields, console: UpgradeConsole, authority: string) returns (run: Run)
    ensures !run.outcome.Raised?
    ensures !Truthy(Get(params, "hmc_auth")) ==> run == Run(Returned(false, ErrorText(Message(NoCredentials)), None), [])
    ensures (Truthy(Get(params, "hmc_auth")) && Get(params, "state") !in {Str("updated"), Str("upgraded"), Str("facts")}) ==>
      run == Run(Caught(KeyError(Get(params, "state"))), [])
    ensures Validation(params, Attributes(params)).Some? ==> run.calls == []
    ensures |Mutations(run.calls)| <= 1
    ensures Get(params, "state") == Str("facts") ==> Mutations(run.calls) == []
  {
    var attrs := Attributes(params);
    var state := Get(params, "state");
    if !Truthy(Get(params, "hmc_auth")) {
      return Run(Returned(false, ErrorText(Message(NoCredentials)), None), []);
    }
    if state == Str("updated") || state == Str("upgraded") {
      run := UpdateUpgrade(params, attrs, console, authority);
      UpdateUpgradeMutations(params, attrs, console, authority);
    } else if state == Str("facts") {
      run := Facts(params, attrs, console.listing, console.before);
      ReadOnlyMeansNoMutations(run.calls);
    } else {
      run := Run(Raised(KeyError(state)), []);
    }
    run := Run(PerformTaskCatch(run.outcome), run.calls);
  }
}

# IBM Power HMC modules: VIOS, managed system, VIOS update and upgrade

This project models three Ansible modules that drive an IBM Hardware
Management Console (HMC). It proves properties of the model in Dafny.

- `plugins/modules/vios.py` works on Virtual I/O Server (VIOS) partitions. It shows their facts, creates one (`present`), installs one from NIM or from a disk image (`install`) and accepts the license (`accept_license`).
- `plugins/modules/power_system.py` works on a managed system. It powers it on and off, shows its facts, changes its general or memory settings, and enables, disables or lists its performance and capacity monitoring (PCM) metrics.
- `plugins/modules/vios_update_upgrade.py` updates or upgrades a VIOS from a repository and shows the VIOS version.

The console is not modelled, only its boundary:
- Every console request a module makes is a `Console.Call`, recorded in order in a trace.
- Every answer is an input: `Answer(value)` or `Refused(text)`, the console's error.
- An operation is a pure function of its parameters and the answers. It returns a `Run`: how the module ends (`Outcomes.Outcome`) together with the trace.
- Where the source loops or updates step by step, a method keeps that form and is proved equal to the function: the adapter scan, the validation lists, `build_dict`, the renaming of the current settings and the attribute flattening.

Files:
- `python.dfy`: the Python values the modules handle and the built-ins they use. This covers truthiness, `or`, `join`, `split`, `in` on strings and `str(int)`.
- `console.dfy`: calls, replies, the mutating calls and the lemmas for counting them.
- `outcomes.dfy`: errors, the returned triple, `fail_json`/`exit_json`, `perform_task`'s catch-all and `run_module`.
- `rules.dfy`: the mandatory/unsupported parameter check that all three modules repeat.
- `vios.dfy`, `power_system.dfy`, `vios_update_upgrade.dfy`: one module per source file.

The mutation lemmas state which mutating calls each operation issues, and when. They show that a read-only request never changes the system. They also show that every operation changes at most one thing and changes nothing when its request is refused.

## Model

| member | source | states |
|---|---|---|
| Python.SplitJoin | plugins/modules/vios_update_upgrade.py:366-369 | splitting comma-joined fields that hold no comma gives the fields back |
| Python.IntRoundTrip | plugins/modules/power_system.py:245-246 | the text `str(n)` gives an integer parses back to `n` |
| Python.ContainsInside | plugins/modules/vios.py:550 | a text contains every piece it is built from, so the boot failure message contains the wait and the reference code |
| Outcomes.PerformTaskCatch | plugins/modules/vios.py:663-668 | an escaping exception becomes the returned `(False, repr(error), None)`; nothing else is touched |
| Outcomes.RunModule | plugins/modules/vios.py:726-739 | the module exits exactly when the info is not a string; it exits with the operation's changed flag; a `None` result crashes the unpacking; an empty info is dropped only under `if info:` |
| Rules.DispatchAgreesWithOperation | plugins/modules/power_system.py:568-572 | when exactly one of `action` and `state` is set, the dispatch key and the validated operation agree |
| Rules.Flagged | plugins/modules/power_system.py:278-281 | each name collected is a listed name whose value has the truthiness looked for, and there are no more of them than names listed |
| Rules.FlaggedMembers | plugins/modules/power_system.py:278-281 | a name is collected exactly when it is listed and its value's truthiness is the one looked for |
| Rules.Collect | plugins/modules/power_system.py:278-281 | the collecting loop yields the listed names with that truthiness, in list order |
| Rules.CheckByTruth | plugins/modules/vios_update_upgrade.py:302-321 | the check depends only on the truthiness of the listed values |
| Rules.Check | plugins/modules/power_system.py:278-297 | the check passes iff every mandatory value is truthy and every unsupported one falsy; the list checked first gives the message when it collected something; when it is clean, the other list's message is given |
| Rules.Validate | plugins/modules/power_system.py:278-297 | the two collecting loops raise exactly the message the check gives |
| Vios.RuleTable | plugins/modules/vios.py:291-320 | the table refuses an install exactly when `nim_IP` and `image_dir` are both truthy or both falsy; every row demands the console, its credentials and the system; an install demands the medium it was given |
| Vios.ValidateParameters | plugins/modules/vios.py:289-342 | `validate_parameters` raises exactly what the rule table and the check give |
| Vios.InstallMediumFirst | plugins/modules/vios.py:297-307 | an install with both media, or neither, is refused with its own message before any list is checked |
| Vios.ValidationVerdict | plugins/modules/vios.py:289-342 | validation passes iff the operation has lists, every mandatory name is truthy and every unsupported one falsy; missing names are reported first |
| Vios.Offending | plugins/modules/vios.py:463 | every key reported is one of the keys given and is unsupported for a VIOS |
| Vios.OffendingMembers | plugins/modules/vios.py:463 | a settings key is reported exactly when it is given and not supported for a VIOS |
| Vios.SettingsVerdict | plugins/modules/vios.py:461-465 | settings are refused iff some key is unsupported; the message lists those keys in the order given; empty settings pass |
| Vios.CreatedProfile | plugins/modules/vios.py:493-495 | the profile read back is `profile_name` from the settings, `default_profile` when absent, `None` without settings |
| Vios.CreateVios | plugins/modules/vios.py:468-502 | invalid parameters or settings raise before any call; an existing partition is returned unchanged; a lookup error other than HSCL8012 propagates; a change is reported iff the partition was created and read back |
| Vios.CreateViosMutations | plugins/modules/vios.py:481-498 | the partition is created at most once: only after a valid request and a lookup that found nothing |
| Vios.CreateTraceMutations | plugins/modules/vios.py:481-498 | the probe and the read-back change nothing, and the creation is the one mutation |
| Vios.CreateConverges | plugins/modules/vios.py:481-485 | once the partition exists, `present` changes nothing and makes one read |
| Vios.FirstReachable | plugins/modules/vios.py:533-537 | the chosen adapter is the first whose ping succeeded; none is chosen iff no ping succeeded |
| Vios.ChooseAdapter | plugins/modules/vios.py:533-537 | the scanning loop with its `break` picks that same adapter |
| Vios.TimeoutGate | plugins/modules/vios.py:526-527 | a numeric timeout passes iff it is at least 10; anything else ends the module or raises |
| Vios.InstallTimeout | plugins/modules/vios.py:518 | a missing or zero timeout becomes 60 minutes |
| Vios.DiskTimeoutAsWrittenRaises | plugins/modules/vios.py:570-579 | a disk install with no timeout raises `TypeError` at `None < 10` |
| Vios.DiskTimeoutZeroFails | plugins/modules/vios.py:570-579 | a disk install with `timeout: 0` fails the gate as written, and passes it with the default wait |
| Vios.InstallTimeoutDefaults | plugins/modules/vios.py:121-127 | with the documented default of 60, an install without timeout passes the gate, and a wait that passes is at least 10 minutes |
| Vios.ClassifyBoot | plugins/modules/vios.py:543-551 | an active RMC reports a change; a dead RMC with reference code "" or "00" reports a change with the firewall warning; any other code fails naming the wait and the code |
| Vios.BootFailureNamesCode | plugins/modules/vios.py:550 | the failure message names the minutes waited and the reference code |
| Vios.Target | plugins/modules/vios.py:528-539 | a given location code or MAC address is used as is; otherwise the target is the first reachable adapter's location code (NIM) or MAC address (disk), or none when that field is empty or no adapter answered; any target chosen is truthy |
| Vios.SearchTarget | plugins/modules/vios.py:528-539 | the installers' target search, through the scanning loop, computes the target function |
| Vios.Verdict | plugins/modules/vios.py:594-604 | NIM reports the boot verdict; a disk install that booted ends with `exit_json(changed=True)`, one that did not fails like NIM |
| Vios.Installation | plugins/modules/vios.py:504-609 | with the corrected wait `timeout or 60` for both media: validation and the timeout gate come first, with no call; no reachable adapter fails with the medium's message; an install that ran ends with the verdict; a returned change comes only from a NIM install that booted |
| Vios.InstallationMutations | plugins/modules/vios.py:527-592 | exactly one install command, to the chosen target, is issued once the request is admitted and a target is found; nothing otherwise |
| Vios.TraceMutations | plugins/modules/vios.py:527-592 | the adapter scan and the boot wait change nothing |
| Vios.InstallFrom | plugins/modules/vios.py:504-609 | both installers (scan loop, install, boot wait), with the disk installer's wait corrected to `timeout or 60`, compute the installation function |
| Vios.NimUsesDefaultProfile | plugins/modules/vios.py:300-302 | a NIM install that passes validation always uses `default_profile`, since `prof_name` is unsupported there |
| Vios.InstallAsWrittenCrashes | plugins/modules/vios.py:611-628 | `install` as written drops the installer's triple, so a NIM installation that boots, the case `Vios.InstallReportsBoot` reports once corrected, crashes `run_module` |
| Vios.InstallRun | plugins/modules/vios.py:611-628 | the corrected `install`, which returns the installer's triple: with neither medium the install raises its own message; with both, validation refuses; invalid requests make no call; the result is never `None` |
| Vios.Install | plugins/modules/vios.py:611-628 | the dispatch on `image_dir` then `nim_IP`, returning the installer's triple, computes that function |
| Vios.InstallReportsBoot | plugins/modules/vios.py:543-555 | a NIM install that boots reaches the caller as a change carrying the partition's properties |
| Vios.AcceptLicense | plugins/modules/vios.py:630-651 | the license is accepted, and a change reported, iff the RMC state is `active` and the command succeeds; another state fails naming it; a missing state raises `KeyError` |
| Vios.AcceptLicenseMutations | plugins/modules/vios.py:641-644 | the accept command is the only mutation and is issued only on an active RMC |
| Vios.FindVios | plugins/modules/vios.py:384-392 | the VIOS chosen is the first listed with the requested name; none is chosen iff no entry has that name |
| Vios.FetchViosInfo | plugins/modules/vios.py:344-459 | facts validate first, then look up, and never change anything |
| Vios.ViosLookup | plugins/modules/vios.py:372-459 | returned facts are the matching entry merged with its details, never changed; an absent system fails; a VIOS missing from a non-empty list fails |
| Vios.PerformTask | plugins/modules/vios.py:653-668 | with `install` dispatched to the corrected `Vios.Install`: nothing escapes; an unknown operation is a caught `KeyError` with no call; invalid parameters make no call; at most one mutation; facts change nothing |
| PowerSystem.RuleTableRows | plugins/modules/power_system.py:259-276 | the table demands the console, its credentials and the system always, and the metrics exactly for the PCM actions; it refuses every kind of setting except the one the operation changes |
| PowerSystem.ValidateParameters | plugins/modules/power_system.py:251-298 | `validate_parameters` raises exactly what the rule table and the check give |
| PowerSystem.ValidationSeparatesSettings | plugins/modules/power_system.py:258-276 | a valid request sets only its own kind of setting; PCM requests carry metrics; other operations set no setting and no metrics |
| PowerSystem.PcmNeedsMetrics | plugins/modules/power_system.py:265-267 | enabling or disabling PCM without metrics is refused with `mandatory parameter 'metrics' is missing` |
| PowerSystem.BuildDict | plugins/modules/power_system.py:237-248 | the loop builds the desired settings dictionary |
| PowerSystem.DesiredValues | plugins/modules/power_system.py:237-248 | a key is desired iff it is given, not None and not a connection key; integers are stored as text that parses back to them, booleans as `True`/`False`, and every other value unchanged |
| PowerSystem.DesiredIdempotent | plugins/modules/power_system.py:237-248 | building the dictionary again from its own result changes nothing |
| PowerSystem.Move | plugins/modules/power_system.py:371 | `d[to] = d.pop(from)` moves one value and keeps every other key |
| PowerSystem.MoveBack | plugins/modules/power_system.py:371 | moving a key and moving it back restores the dictionary |
| PowerSystem.Rename | plugins/modules/power_system.py:369-399 | the renaming succeeds iff the kind's source key (`name` or `mem_region_size`) is there, else it names that key; the system's `name` becomes `new_name`, `mem_region_size` becomes `pend_mem_region_size`, and a `curr_mem_mirroring_mode` becomes `mem_mirroring_mode` |
| PowerSystem.RenameInPlace | plugins/modules/power_system.py:369-399 | the in-place renaming of the current settings computes the renaming function, or the missing key |
| PowerSystem.RenameUndone | plugins/modules/power_system.py:371 | renaming `name` to `new_name` is undone by the reverse move |
| PowerSystem.WrittenIsWithin | plugins/modules/power_system.py:372 | after the desired settings are written, they are a subset of the current ones, so a repeat writes nothing |
| PowerSystem.NotWithin | plugins/modules/power_system.py:372 | the subset test fails iff some desired key is missing or differs |
| PowerSystem.Modify | plugins/modules/power_system.py:355-406 | an empty request fails with the kind's message; settings already in place change nothing; a change is reported iff some desired setting differs and the write succeeds; a missing `name` or `mem_region_size` raises `KeyError` |
| PowerSystem.ModifyMutations | plugins/modules/power_system.py:369-400 | the write is the only mutation, issued exactly when a desired setting differs |
| PowerSystem.ModifyConverges | plugins/modules/power_system.py:369-373 | a system already holding the desired settings is left unchanged |
| PowerSystem.ModifySettings | plugins/modules/power_system.py:355-406 | both modify operations as written compute that function |
| PowerSystem.PowerOnSteps | plugins/modules/power_system.py:310-325 | a system that is not off is left alone; a change is reported iff it was off, powered on and settled in Operating or Standby |
| PowerSystem.PowerOffSteps | plugins/modules/power_system.py:338-352 | an off system is left alone; a change is reported iff it was on, shut down and settled off |
| PowerSystem.Power | plugins/modules/power_system.py:300-352 | validation comes first with no call, then the steps for the direction asked |
| PowerSystem.PowerMutations | plugins/modules/power_system.py:311-347 | power on issues one power-on exactly when the system is off; power off issues one shutdown exactly when it is not |
| PowerSystem.PowerActionsComplement | plugins/modules/power_system.py:311-347 | for any state, exactly one of the two directions acts |
| PowerSystem.PowerOnIdempotent | plugins/modules/power_system.py:311-314 | powering on an Operating or Standby system changes nothing |
| PowerSystem.PowerOffIdempotent | plugins/modules/power_system.py:339-342 | powering off an off system changes nothing |
| PowerSystem.LocateSystem | plugins/modules/power_system.py:428-437 | the system is located iff login and lookup succeed with a UUID; an empty UUID fails with `Given system is not present` |
| PowerSystem.Facts | plugins/modules/power_system.py:409-494 | facts and PCM listing never change anything; they return the console's answer unchanged exactly when validation, location and the query succeed |
| PowerSystem.PcmWarning | plugins/modules/power_system.py:535-540 | the AM warning comes iff AM is enabled; the LTM/EM warning comes iff one of them is disabled; otherwise none |
| PowerSystem.UpdatePcmRun | plugins/modules/power_system.py:497-552 | a change is reported iff the located system answers the update with a non-empty record; the warning is added to that record as `info` |
| PowerSystem.UpdatePcmMutations | plugins/modules/power_system.py:528-532 | the PCM update, with the metrics and the disable flag, is the only mutation and is issued once the system is located |
| PowerSystem.PerformTask | plugins/modules/power_system.py:555-575 | nothing escapes; an unknown operation is a caught `KeyError` with no call; invalid parameters make no call; at most one mutation; the two fact operations change nothing |
| ViosUpdateUpgrade.SubRules | plugins/modules/vios_update_upgrade.py:254-300 | the attributes are refused iff the VIOS selectors are not exactly one, an upgrade uses the website, or an SFTP request has not exactly one credential; no selector is `Missing VIOS details`; the lists always demand `system_name`; an upgrade demands `disks` and refuses `restart`; an update refuses `disks` |
| ViosUpdateUpgrade.ValidateSubParams | plugins/modules/vios_update_upgrade.py:254-321 | the checks as written, growing the two lists, raise exactly what the rules give |
| ViosUpdateUpgrade.TopLevelNeverApplies | plugins/modules/vios_update_upgrade.py:324-346 | for the module's three states the top-level list is empty, so validation is the attributes' check |
| ViosUpdateUpgrade.SelectorDecidesFirst | plugins/modules/vios_update_upgrade.py:263-267 | no VIOS selector, or both, is refused first with its own message; a request that passes names exactly one |
| ViosUpdateUpgrade.UnsupportedReportedFirst | plugins/modules/vios_update_upgrade.py:302-311 | a set unsupported attribute is reported even when mandatory ones are missing |
| ViosUpdateUpgrade.SftpCredentials | plugins/modules/vios_update_upgrade.py:284-292 | an SFTP request that passes has exactly one of key file and password, and a user and a host |
| ViosUpdateUpgrade.SftpMessages | plugins/modules/vios_update_upgrade.py:284-289 | once the VIOS selector passes, an SFTP request with both credentials gets `Parameters 'ssh_key_file' and 'password' are mutually exclusive`, and one with neither gets `Either 'ssh_key_file' or 'password' is mandatory` |
| ViosUpdateUpgrade.RepositoryNeeds | plugins/modules/vios_update_upgrade.py:280-300 | a request that passes has an image name for the disk and website repositories, an export and a host for NFS, no mount point or version for SFTP, and no repository field for `facts` |
| ViosUpdateUpgrade.SubRulesReads | plugins/modules/vios_update_upgrade.py:254-300 | the lists and the refusals depend only on the VIOS selectors, the repository and the SFTP credentials |
| ViosUpdateUpgrade.UpgradeNeeds | plugins/modules/vios_update_upgrade.py:273-279 | an upgrade that passes names disks, asks no restart, does not use the website, and names files for NFS or SFTP |
| ViosUpdateUpgrade.FindRow | plugins/modules/vios_update_upgrade.py:365-369 | a row found, or a row too short for the column, is the first such: every earlier row is long enough and does not match; a row found has the key in the column; none found means every row was long enough and none matched |
| ViosUpdateUpgrade.FindWrittenRow | plugins/modules/vios_update_upgrade.py:366-369 | a row written with commas is found by its own field |
| ViosUpdateUpgrade.ViosCheck | plugins/modules/vios_update_upgrade.py:365-373 | with neither selector the check raises `UnboundLocalError`; otherwise it passes iff the row looked up by name (when `vios_name` is given) or by id is found with state `Running`; a missing row fails with `The VIOS is not available in HMC`, another state with `The VIOS is not in running state`; it only fails the module or raises |
| ViosUpdateUpgrade.Locate | plugins/modules/vios_update_upgrade.py:359-373 | the three listings change nothing; a system listed neither by name nor by type-model-serial fails with `The managed system is not available in HMC`; the location passes iff every listing is answered, the system is listed by name or type-model-serial, and the VIOS check passes |
| ViosUpdateUpgrade.Facts | plugins/modules/vios_update_upgrade.py:349-380 | facts change nothing; they return the VIOS, the system and the version exactly when validation, location and the version read succeed |
| ViosUpdateUpgrade.Flatten | plugins/modules/vios_update_upgrade.py:417-419 | the flattening adds or rewrites exactly `files`, `disks` and `option`: each list becomes a string iff it is non-empty, the version a string iff it is truthy, otherwise None; every other attribute is kept |
| ViosUpdateUpgrade.FlattenAttributes | plugins/modules/vios_update_upgrade.py:417-419 | the three in-place rewrites compute the flattening |
| ViosUpdateUpgrade.FlattenRoundTrip | plugins/modules/vios_update_upgrade.py:417-418 | the joined files and disks split back into the names given |
| ViosUpdateUpgrade.FlattenVersion | plugins/modules/vios_update_upgrade.py:419 | the NFS version is recovered from between `"ver=` and the closing quote |
| ViosUpdateUpgrade.FlattenKeepsOthers | plugins/modules/vios_update_upgrade.py:417-419 | every other attribute is untouched |
| ViosUpdateUpgrade.FlattenKeepsTruth | plugins/modules/vios_update_upgrade.py:417-419 | the rewritten attributes keep their truthiness, unless a list holds only the empty name |
| ViosUpdateUpgrade.RevalidationAgrees | plugins/modules/vios_update_upgrade.py:417-429 | when neither `files` nor `disks` is a list holding only the empty name, the second facts call validates the flattened attributes with the same result as the first |
| ViosUpdateUpgrade.EmptyFileNameRevalidation | plugins/modules/vios_update_upgrade.py:417-429 | an NFS upgrade whose files are `[""]` passes the first validation, but the flattened files are empty and the second validation fails |
| ViosUpdateUpgrade.EmptyFileNameFailsAfterUpdate | plugins/modules/vios_update_upgrade.py:417-429 | such an upgrade issues the update and then raises the second validation's `ParameterError` |
| ViosUpdateUpgrade.ImageCheck | plugins/modules/vios_update_upgrade.py:412-416 | for NFS and SFTP, the request passes iff `save` and `image_name` are both given or both absent |
| ViosUpdateUpgrade.UpdateUpgrade | plugins/modules/vios_update_upgrade.py:383-435 | invalid parameters raise before any call |
| ViosUpdateUpgrade.RecordOfFlattened | plugins/modules/vios_update_upgrade.py:376-379 | the flattening leaves the VIOS and the system in the version record alone |
| ViosUpdateUpgrade.UpdateUpgradeVerdict | plugins/modules/vios_update_upgrade.py:421-435 | after the update, a new version is a change carrying the new record; the same version ends with `The vios is already in required version`; a user-authority refusal returns quietly |
| ViosUpdateUpgrade.ChangedMeansNewVersion | plugins/modules/vios_update_upgrade.py:430-435 | a change is reported only after an accepted update that moved the version, with the system and the VIOS found running again after the update |
| ViosUpdateUpgrade.UpdateUpgradeMutations | plugins/modules/vios_update_upgrade.py:392-429 | the only mutation is one update with the flattened attributes, issued exactly when the request gets that far |
| ViosUpdateUpgrade.UpgradeTraceMutations | plugins/modules/vios_update_upgrade.py:395-429 | the repeated listing and the listings and version read after the update change nothing |
| ViosUpdateUpgrade.SecondCheckPasses | plugins/modules/vios_update_upgrade.py:392-410 | once the first facts pass, the repeated system and VIOS check before the update passes as well |
| ViosUpdateUpgrade.AuthorityIsNoop | plugins/modules/vios_update_upgrade.py:421-427 | a refusal naming the user-authority error ends the module unchanged with no info |
| ViosUpdateUpgrade.PerformTask | plugins/modules/vios_update_upgrade.py:438-451 | nothing escapes; missing credentials are refused with no call; an unknown state is a caught `KeyError`; invalid parameters make no call; at most one mutation; facts change nothing |

## Left out

- The console itself: the command line, the REST client, their sessions, XML and JSON parsing and the REST logoff. Answers are inputs. Repeated reads with nothing changed in between share one answer: in `vios_update_upgrade.py`, the first `facts` call and the repeated check before the update read `ViosUpdateUpgrade.UpgradeConsole.listing` (`ViosUpdateUpgrade.SecondCheckPasses` relies on this). The reads after the update are separate answers (`afterListing`, `after`).
- The polling loops inside the console library (`checkForOSToBootUpFully`, `checkManagedSysState`). Only their verdicts are inputs.
- Resolving a system named by its type-model-serial string (`getSystemNameFromMTMS`). The system name is used as given.
- The extra VIOS facts read from XML: memory, processors, optical media and free physical volumes. They are one `details` record merged into the listing entry.
- Logging, the verbosity switch, the Python-version check and the connection objects' construction.
- The argument spec. Values are assumed to have the declared types: `hmc_auth` and `attributes` are dictionaries, and `files`/`disks` are lists of strings.
- `repr` and `parse_error_response` texts. They are `Outcomes.ReprOf` and `Outcomes.ParsedFrom` of the error.
- The value of `HmcConstants.USER_AUTHORITY_ERR`. It is the parameter `authority`, and it is looked for in the console's error text, not in its `repr`.
- `str()` of lists and dictionaries. `Python.Text` gives "" for containers.
- `splitlines` and `strip`. Console listings arrive as lines, and versions arrive stripped.
- The order of the dictionary `build_dict` returns. A `map` has no order; the console receives the same keys and values.
- `Vios.Installation`: the disk installer as written gates on the raw `timeout` with no default (line 570). The model uses the corrected wait `timeout or 60` for both media, so a disk install with no timeout, or with `timeout: 0`, passes the gate here; the Findings row and `Vios.DiskTimeoutAsWrittenRaises`/`Vios.DiskTimeoutZeroFails` model the code as written.
- `Vios.InstallFrom`: it computes the corrected installation above, not the disk installer's raw wait.
- `Vios.PerformTask`: `install` is dispatched to the corrected `Vios.Install`, which returns the installer's triple. As written, `install` returns `None` and the module crashes (`Vios.InstallAsWrittenCrashes`).
- `Vios.ClassifyBoot`: a `None` reference code with a dead RMC raises `TypeError` at line 550 when it is formatted into the message. The reference code is always a string here.
- `Vios.AcceptLicense`: a partition configuration of `None` would raise `TypeError`. The answer is always a record here.
- `Vios.ViosLookup`: a `None` quick response, and XML lookups that find nothing, are not modelled.
- `PowerSystem.RuleTable`: the `list_pcm` row is never reached, because the state is spelled `pcm_facts`. It has the same lists as the last row, so the two are one row.
- The `action` key that `validate_parameters` in `vios_update_upgrade.py` reads when `state` is None. `perform_task` fails with `KeyError` before that can happen.
- `ViosUpdateUpgrade.UpdateUpgrade`: the HMC user and password lookups (`params['hmc_auth']['username']`) are assumed to succeed.

## Findings

| source | as written | input that shows it | evidently intended | confidence | as-written member | corrected member |
|---|---|---|---|---|---|---|
| plugins/modules/vios.py:611-628 | `install` calls the installer but does not return its triple, so `perform_task` returns `None` and `run_module` fails unpacking it | `action: install` with `nim_IP`, whose partition boots with an active RMC | `install` returns the installer's result, so the change and the partition's properties reach the caller | high, not executed | Vios.InstallAsWrittenCrashes | Vios.InstallReportsBoot |
| plugins/modules/vios.py:570-579 | the disk installer reads `timeout` with no default, so `None < 10` raises `TypeError`, and `0 < 10` fails the module | `action: install` with `image_dir` and no `timeout`; or with `timeout: 0` | the documented default of 60 minutes, `timeout or 60`, as the NIM installer does at line 518 | high, not executed | Vios.DiskTimeoutAsWrittenRaises, Vios.DiskTimeoutZeroFails | Vios.InstallTimeoutDefaults |

# Environment requirements, simulator discovery and the cloud extension service of the NativeScript CLI, in Dafny

This project models three small components of the NativeScript command-line
tool and proves what they promise.

- **The environment-requirements check** (`EnvironmentRequirements`,
  `environment_requirements.dfy`). It runs before a build for a platform.
  If the local toolchain can build, the check succeeds at once. A terminal
  that cannot prompt gets a fixed failure that names `tns setup` and
  `tns cloud setup`. An interactive terminal gets a menu of remediation
  options:
  - configure cloud builds;
  - configure local builds, which runs the setup script;
  - both;
  - configure manually.

  Cloud and both are offered only while the cloud extension is missing.
  The cloud choices install a missing extension and then fail with the
  cloud-build guidance. Manual fails with guidance that names the platform
  and the system-requirements link. Local runs the setup script and checks
  again. If the build is still impossible, a narrower follow-up menu is
  shown. The implementation file is not part of this model. Its behaviour
  comes from the assertions of its test suite,
  `test/services/platform-environment-requirements.ts`. Where those
  assertions are silent, as for the combined option and for answers naming
  an option the menu does not show, "## Left out" says what the model
  does. The flow is written
  twice: as the pure specification `Resolve`/`AfterPrompt`, and as the class
  `PlatformEnvironmentRequirements`. The class records prompts, installs and
  setup runs step by step, and its methods are proved equal to the
  specification.
- **iOS simulator discovery** (`SimulatorDiscovery`,
  `simulator_discovery.dfy`). This is the class `IOSSimulatorDiscovery`. It
  caches the simulator it last reported. On each check it reports the
  difference to the running simulator as device-added and device-removed
  events. Its invariant `Valid` says that the listeners' view, rebuilt from
  all events so far, is exactly the cached simulator. `CheckForDevices`
  keeps that invariant.
- **The cloud extension service** (`CloudExtensionService`,
  `cloud_extension.dfy`). It searches the installed extensions by name. It
  asks the extensibility service to install the extension only when the
  extension is missing.

`text.dfy` (`Text`) models JavaScript's `String.prototype.indexOf`.
`wrappers.dfy` holds `Option`, which stands for `undefined`/`null`.

Collaborators are parameters or fields:
- the process listing's output (`None` when running it threw);
- the simulator the resolver reports;
- whether the local build is possible now, and once the setup script has run;
- the prompter, as a function from the labels shown to the label picked;
- the terminal flags `stdin.isTTY` and `stdout.isTTY`;
- the static configuration's system-requirements link.

An unrecognised answer makes the check end as `Unresolved`. The tests at
lines 100 and 138 await such a call without expecting a rejection. They do
not say what it returns. So the model keeps this ending apart from both
success and failure.

## Model

| member | source | states |
|---|---|---|
| `CloudExtensionService.GetExtensionData` | lib/services/nativescript-cloud-extension-service.ts:31-34 | nothing is found exactly when no installed entry has the cloud extension's name; otherwise the result is the first such entry |
| `CloudExtensionService.IsInstalled` | lib/services/nativescript-cloud-extension-service.ts:17-19 | true exactly when some installed entry has the cloud extension's name |
| `CloudExtensionService.IsLatestVersionInstalled` | lib/services/nativescript-cloud-extension-service.ts:21-29 | false whenever the extension is not installed; otherwise true exactly when the first cloud entry's version is the latest |
| `CloudExtensionService.InstallMakesInstalled` | lib/services/nativescript-cloud-extension-service.ts:9-15 | after `install` the extension is installed, whatever was there before |
| `CloudExtensionService.InstallIdempotent` | lib/services/nativescript-cloud-extension-service.ts:9-15 | a second `install` changes nothing |
| `CloudExtensionService.InstallKeepsInstalled` | lib/services/nativescript-cloud-extension-service.ts:9-15 | `install` keeps every entry and its order, and adds at most one |
| `CloudExtensionService.InstallThenFind` | lib/services/nativescript-cloud-extension-service.ts:9-19 | installing a missing extension makes the new entry the one `getExtensionData` finds |
| `CloudExtensionService.NativescriptCloudExtensionService.Install` | lib/services/nativescript-cloud-extension-service.ts:9-15 | when missing: `installExtension` is called once, with the cloud extension's name, and nothing is logged; when present: no call, the list is unchanged, and only "already installed" is logged |
| `CloudExtensionService.NativescriptCloudExtensionService.IsInstalledNow` | lib/services/nativescript-cloud-extension-service.ts:17-19 | `isInstalled` on the service's current list: some entry has the cloud name |
| `Text.IndexOfFrom` | mobile/mobile-core/ios-simulator-discovery.ts:50 | -1 exactly when the pattern occurs nowhere from the start index on; otherwise the first index at which it occurs |
| `Text.IndexOf` | mobile/mobile-core/ios-simulator-discovery.ts:50 | -1 exactly when the pattern does not occur; otherwise its first occurrence |
| `SimulatorDiscovery.IsSimulatorRunning` | mobile/mobile-core/ios-simulator-discovery.ts:47-54 | true exactly when the listing ran and its output contains "launchd_sim"; false when it threw |
| `SimulatorDiscovery.DiffEvents` | mobile/mobile-core/ios-simulator-discovery.ts:26-37 | the events of one check take the listeners' set of devices from the cached simulator to the running one, and report only changes: a removal only of a cached id that no longer runs, an addition only of the running simulator and only when its id was not cached, no event twice, removals before additions |
| `SimulatorDiscovery.DiffEventsUnique` | mobile/mobile-core/ios-simulator-discovery.ts:26-37 | any event list that takes the listeners from the cached simulator to the running one and reports only changes is exactly the list the check emits |
| `SimulatorDiscovery.CacheTracksRunning` | mobile/mobile-core/ios-simulator-discovery.ts:26-37 | after a check the cache is empty exactly when no simulator runs, and otherwise has the running simulator's id |
| `SimulatorDiscovery.ApplyEventsAppend` | mobile/mobile-core/ios-simulator-discovery.ts:28-35 | reporting two batches of events one after the other is the same as reporting them together |
| `SimulatorDiscovery.CheckKeepsListenersInStep` | mobile/mobile-core/ios-simulator-discovery.ts:26-37 | if the listeners' view of the whole event log is the cache, it is the new cache after one more check's events |
| `SimulatorDiscovery.NoChangeNoEvents` | mobile/mobile-core/ios-simulator-discovery.ts:26-32 | when the running simulator has the cached id, or neither exists, nothing is reported and the cache stays |
| `SimulatorDiscovery.IOSSimulatorDiscovery.constructor` | mobile/mobile-core/ios-simulator-discovery.ts:8-13 | starts with no cached simulator and no events, and in the invariant |
| `SimulatorDiscovery.IOSSimulatorDiscovery.CheckForDevices` | mobile/mobile-core/ios-simulator-discovery.ts:19-45 | on a non-macOS host it changes nothing; on macOS the cache and the emitted events follow the diff; it keeps the listeners' view equal to the cache |
| `SimulatorDiscovery.IOSSimulatorDiscovery.CreateAndAddDevice` | mobile/mobile-core/ios-simulator-discovery.ts:56-59 | caches the simulator and reports it as added |
| `SimulatorDiscovery.IOSSimulatorDiscovery.AddDevice` | mobile/mobile-core/ios-simulator-discovery.ts:58 | appends one added-device event; the listeners now know the id |
| `SimulatorDiscovery.IOSSimulatorDiscovery.RemoveDevice` | mobile/mobile-core/ios-simulator-discovery.ts:30-35 | appends one removed-device event; the listeners no longer know the id |
| `EnvironmentRequirements.OptionOfLabel` | test/services/platform-environment-requirements.ts:31-43 | maps the prompter's answer back to the one option with that label, or to nothing when no option has it |
| `EnvironmentRequirements.LabelRoundTrip` | test/services/platform-environment-requirements.ts:93 | the four labels are distinct, so each label maps back to its own option |
| `EnvironmentRequirements.InitialMenu` | test/services/platform-environment-requirements.ts:84-105 | in presentation order; offers local and manual always, and cloud and both exactly when the extension is missing |
| `EnvironmentRequirements.FollowUpMenu` | test/services/platform-environment-requirements.ts:135-140 | in presentation order; the first menu without local and both |
| `EnvironmentRequirements.MenuDeterminedByOptions` | test/services/platform-environment-requirements.ts:93 | two menus in presentation order that offer the same options are the same list |
| `EnvironmentRequirements.InitialMenuIsForced` | test/services/platform-environment-requirements.ts:84-105 | any ordered menu that follows the first-menu rule is the first menu |
| `EnvironmentRequirements.Choices` | test/services/platform-environment-requirements.ts:93 | one label per option, in menu order; each label maps back to its option |
| `EnvironmentRequirements.InitialChoices` | test/services/platform-environment-requirements.ts:84-105 | the first menu's labels: all four without the extension, "Configure for Local Builds" and "Skip Step and Configure Manually" with it |
| `EnvironmentRequirements.FollowUpChoices` | test/services/platform-environment-requirements.ts:135-140 | the follow-up labels: cloud and manual without the extension, manual alone with it |
| `EnvironmentRequirements.ManualSetupMessage` | test/services/platform-environment-requirements.ts:8 | the manual-setup failure text starts "To be able to build for <platform>, " and ends with the system-requirements link |
| `EnvironmentRequirements.NonInteractiveMessage` | test/services/platform-environment-requirements.ts:9 | the non-interactive failure text names `$ tns setup` and `$ tns cloud setup` and ends with the system-requirements link |
| `EnvironmentRequirements.RemedyFor` | test/services/platform-environment-requirements.ts:107-175 | cloud and both lead to the cloud builds; manual leads to manual setup; local leads to the setup script, but only from the first menu |
| `EnvironmentRequirements.AfterPrompt` | test/services/platform-environment-requirements.ts:95-153 | only a local build verified after the setup script ends in success; one prompt, plus a second exactly when the local option was chosen from the first menu and the setup script left the build impossible; at most one install, made exactly when a missing extension ends in the cloud failure |
| `EnvironmentRequirements.ReadyIsSilent` | test/services/platform-environment-requirements.ts:78-83 | when the local build is possible the check succeeds with no prompt and no other effect |
| `EnvironmentRequirements.NonInteractiveFails` | test/services/platform-environment-requirements.ts:178-187 | a terminal that cannot prompt fails with the non-interactive guidance, with no prompt and no other effect |
| `EnvironmentRequirements.FirstPrompt` | test/services/platform-environment-requirements.ts:84-105 | the first prompt has the message "To continue, choose one of the following options: " and the first menu's labels |
| `EnvironmentRequirements.InstalledNeverInstalls` | test/services/platform-environment-requirements.ts:95-105 | with the extension installed, the check never installs it, whatever the answers |
| `EnvironmentRequirements.InstallOnlyForCloudChoice` | test/services/platform-environment-requirements.ts:141-163 | an install happens only while the extension is missing, and only after a cloud or both answer, given first or after a failed local setup |
| `EnvironmentRequirements.CloudChoice` | test/services/platform-environment-requirements.ts:155-163 | a first answer of cloud or both fails with the cloud-build guidance after one prompt, and installs exactly when the extension was missing |
| `EnvironmentRequirements.ManualChoice` | test/services/platform-environment-requirements.ts:166-175 | a first answer of manual fails with the manual-setup guidance for the platform, after one prompt and without installing |
| `EnvironmentRequirements.UnrecognisedAnswer` | test/services/platform-environment-requirements.ts:95-104 | a first answer that names no option ends the check after that one prompt, with nothing installed and no setup script run |
| `EnvironmentRequirements.LocalSetupSucceeds` | test/services/platform-environment-requirements.ts:112-120 | local setup that makes the build possible succeeds after exactly one prompt and one setup run, with no install |
| `EnvironmentRequirements.LocalSetupFollowUp` | test/services/platform-environment-requirements.ts:122-152 | local setup that leaves the build impossible issues a second prompt with the follow-up menu; cloud there installs a missing extension and fails with the cloud guidance; manual fails with the manual guidance; any other answer leaves the check unresolved |
| `EnvironmentRequirements.ReadyOnlyWhenVerified` | test/services/platform-environment-requirements.ts:112-120 | success means the local build was possible, either before the check or after its setup script |
| `EnvironmentRequirements.OutcomeIgnoresHistory` | test/services/platform-environment-requirements.ts:66-76 | each check starts afresh: its outcome depends on the collaborators' answers only, not on earlier prompts, installs or setup runs |
| `EnvironmentRequirements.PlatformEnvironmentRequirements.PromptForChoice` | test/services/platform-environment-requirements.ts:31-44 | records the prompt with its message and the menu's labels, and returns the option the answer names |
| `EnvironmentRequirements.PlatformEnvironmentRequirements.InstallExtension` | test/services/platform-environment-requirements.ts:46-51 | installs and counts the call only when the extension is missing |
| `EnvironmentRequirements.PlatformEnvironmentRequirements.RunSetupScript` | test/services/platform-environment-requirements.ts:112-116 | counts the run; afterwards the local-build check gives the answer it gives after setup |
| `EnvironmentRequirements.PlatformEnvironmentRequirements.PromptAndRemedy` | test/services/platform-environment-requirements.ts:107-175 | the step-by-step prompt and remedy: its outcome and the collaborators' new state are those of `AfterPrompt` |
| `EnvironmentRequirements.PlatformEnvironmentRequirements.CheckEnvironmentRequirements` | test/services/platform-environment-requirements.ts:78-187 | `checkEnvironmentRequirements`: its outcome and the collaborators' new state are those of `Resolve`, with interactivity taken as both terminal flags set |

## Left out

- The implementation file of `checkEnvironmentRequirements` is not part of this model. The check is modelled from the assertions of its test suite.
- The test suite does not fix the follow-up menu when the extension is installed. The model shows a one-choice prompt offering manual setup, and does not select it automatically.
- The test suite never selects "Configure for Both Local and Cloud Builds"; the label only appears in the asserted menu. The model treats that answer as the cloud choice: it installs a missing extension and fails with the cloud-build guidance, and it does not run the setup script for the local half.
- The test suite does not fix what happens to an answer that names an option missing from the menu shown; its stub prompter answers nothing in that case. The model acts on any answer that names an option: a cloud answer to the `[Local, Manual]` menu ends in the cloud failure.
- The test suite does not fix the follow-up prompt's message. The model reuses the first prompt's message.
- The tests compare failure texts with the test's message constants, with an empty system-requirements link. The model's texts are those constants followed by the link.
- The model does not capture a collaborator failing. A rejected install, setup script or prompt ends the source's call with an exception.
- Promises, `await`, fibers `Future` and `future.return()` are left out: they are asynchronous plumbing with no logic of their own. `startLookingForDevices` only calls `checkForDevices` with a fresh future, so it is left out too.
- Running `ps cax | grep launchd_sim` is not modelled. Its output is a parameter, and `None` means the command threw.
- The simulator resolver's `getRunningSimulator` is a parameter. It is consulted only when the process listing shows a simulator.
- The injector's construction of `IOSSimulator` is not modelled. `DeviceDiscovery.addDevice`/`removeDevice` are modelled as an event log.
- `_.cloneDeep` needs no model: the cache holds a value, so later changes to the resolver's object cannot reach it.
- The logger is modelled as a list of lines only in `NativescriptCloudExtensionService`. Elsewhere it is left out, along with `$injector` registration.
- The doctor service's detection of a usable toolchain is an oracle. It is given by two flags: one for now, one for after the setup script.
- `CloudExtensionService.IsLatestVersionInstalled`: does not implement the npm registry lookup or `semver.eq`. Comparing a version with the latest version is a predicate parameter.
- `CloudExtensionService.NativescriptCloudExtensionService.Install`: what `installExtension` does to the extensibility service's list is not visible. The model appends one entry with the cloud extension's name and the version installed.
- The value of `NATIVESCRIPT_CLOUD_EXTENSION_NAME` comes from `lib/constants.ts`, which is not part of this model. The model uses "nativescript-cloud", the name the test's messages use.
- In the check, the cloud extension service is a flag and a call counter, as the tests stub it. It is not connected to the list that `CloudExtensionService` models.
- `lib/commands/setup.ts` is left out: its two commands only forward to `runSetupScript` and `install`. `definitions/commands-service.d.ts` is left out: it declares an interface with no behaviour.

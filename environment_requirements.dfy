/**
 * The environment-requirements check run before a build for a platform
 * (PlatformEnvironmentRequirements.checkEnvironmentRequirements, whose
 * behaviour test/services/platform-environment-requirements.ts fixes).
 *
 * If the local toolchain can build, the check succeeds at once. Otherwise a
 * non-interactive terminal fails with fixed guidance, and an interactive one
 * is shown a menu of remediation options: configure cloud builds (install
 * the cloud extension), run the local setup script, both, or configure
 * manually. Every path but a verified local toolchain ends in a failure
 * whose message tells the user what to do next.
 *
 * The collaborators are modelled by their observable state: whether the
 * local build is possible now and once the setup script has run, whether
 * the cloud extension is installed, the prompts issued, and how often the
 * extension installation and the setup script were run. The prompter is a
 * function from the labels shown to the label the user picks.
 */
module EnvironmentRequirements {
  import opened Wrappers
  import CloudExtensionService
  import opened Text

  // ---------------------------------------------------------------- options

  /** The remediation options, declared in the order menus present them. */
  datatype SetupOption = CloudSetup | LocalSetup | BothSetup | ManualSetup

  const CloudSetupOptionName: string := "Configure for Cloud Builds"
  const LocalSetupOptionName: string := "Configure for Local Builds"
  const BothSetupOptionName: string := "Configure for Both Local and Cloud Builds"
  const ManuallySetupOptionName: string := "Skip Step and Configure Manually"

  /** The label the prompter shows for an option. */
  function Label(o: SetupOption): string {
    match o
    case CloudSetup => CloudSetupOptionName
    case LocalSetup => LocalSetupOptionName
    case BothSetup => BothSetupOptionName
    case ManualSetup => ManuallySetupOptionName
  }

  /** The position of an option in every menu that offers it. */
  function Rank(o: SetupOption): nat {
    match o
    case CloudSetup => 0
    case LocalSetup => 1
    case BothSetup => 2
    case ManualSetup => 3
  }

  /** The option a label the prompter returned stands for, if any. */
  function OptionOfLabel(answer: string): (r: Option<SetupOption>)
    ensures r.Some? ==> Label(r.value) == answer
    ensures r.None? ==> forall o: SetupOption :: Label(o) != answer
  {
    if answer == CloudSetupOptionName then Some(CloudSetup)
    else if answer == LocalSetupOptionName then Some(LocalSetup)
    else if answer == BothSetupOptionName then Some(BothSetup)
    else if answer == ManuallySetupOptionName then Some(ManualSetup)
    else None
  }

  /** Labels are distinct, so a chosen label identifies exactly one option. */
  lemma LabelRoundTrip(o: SetupOption)
    ensures OptionOfLabel(Label(o)) == Some(o)
  {
  }

  // ------------------------------------------------------------------ menus

  /** The four options are all there are. */
  lemma AllOptionsListed()
    ensures forall o: SetupOption :: o in [CloudSetup, LocalSetup, BothSetup, ManualSetup]
  {
    forall o: SetupOption ensures o in [CloudSetup, LocalSetup, BothSetup, ManualSetup] {
      match o
      case CloudSetup =>
      case LocalSetup =>
      case BothSetup =>
      case ManualSetup =>
    }
  }

  /** The menu lists its options in declaration order, each once. */
  predicate InPresentationOrder(menu: seq<SetupOption>) {
    forall i, j :: 0 <= i < j < |menu| ==> Rank(menu[i]) < Rank(menu[j])
  }

  /**
   * The first menu: local and manual setup always; cloud and both only
   * while the cloud extension is not installed.
   */
  function InitialMenu(extensionInstalled: bool): (menu: seq<SetupOption>)
    ensures InPresentationOrder(menu)
    ensures forall o :: o in menu <==> o == LocalSetup || o == ManualSetup || !extensionInstalled
  {
    if extensionInstalled then [LocalSetup, ManualSetup]
    else
      AllOptionsListed();
      [CloudSetup, LocalSetup, BothSetup, ManualSetup]
  }

  /**
   * The menu shown when the setup script did not make the local build
   * possible: the first menu without the local and combined options.
   */
  function FollowUpMenu(extensionInstalled: bool): (menu: seq<SetupOption>)
    ensures InPresentationOrder(menu)
    ensures forall o :: o in menu <==> o in InitialMenu(extensionInstalled) && o != LocalSetup && o != BothSetup
  {
    if extensionInstalled then [ManualSetup] else [CloudSetup, ManualSetup]
  }

  /** A menu is fixed by the set of options it offers. */
  lemma {:induction false} MenuDeterminedByOptions(a: seq<SetupOption>, b: seq<SetupOption>)
    requires InPresentationOrder(a) && InPresentationOrder(b)
    requires forall o :: o in a <==> o in b
    ensures a == b
    decreases |a|
  {
    assert a != [] ==> a[0] in a;
    assert b != [] ==> b[0] in b;
    if a != [] && b != [] {
      var k :| 0 <= k < |b| && b[k] == a[0];
      var m :| 0 <= m < |a| && a[m] == b[0];
      assert Rank(b[0]) <= Rank(b[k]) && Rank(a[0]) <= Rank(a[m]);
      assert a[0] == b[0];
      forall o ensures o in a[1..] ==> o in b[1..] {
        if o in a[1..] {
          var i :| 0 <= i < |a[1..]| && a[1..][i] == o;
          assert Rank(a[0]) < Rank(a[i + 1]) && a[i + 1] == o && o in a;
          var j :| 0 <= j < |b| && b[j] == o;
          assert j != 0 && b[1..][j - 1] == o;
        }
      }
      forall o ensures o in b[1..] ==> o in a[1..] {
        if o in b[1..] {
          var i :| 0 <= i < |b[1..]| && b[1..][i] == o;
          assert Rank(b[0]) < Rank(b[i + 1]) && b[i + 1] == o && o in b;
          var j :| 0 <= j < |a| && a[j] == o;
          assert j != 0 && a[1..][j - 1] == o;
        }
      }
      MenuDeterminedByOptions(a[1..], b[1..]);
    }
  }

  /**
   * The first-menu rule leaves no freedom: any menu in presentation order
   * that offers the options the rule names is the first menu.
   */
  lemma InitialMenuIsForced(menu: seq<SetupOption>, extensionInstalled: bool)
    requires InPresentationOrder(menu)
    requires forall o :: o in menu <==> o == LocalSetup || o == ManualSetup || !extensionInstalled
    ensures menu == InitialMenu(extensionInstalled)
  {
    MenuDeterminedByOptions(menu, InitialMenu(extensionInstalled));
  }

  /** The labels a menu passes to the prompter, in order. */
  function Choices(menu: seq<SetupOption>): (labels: seq<string>)
    ensures |labels| == |menu|
    ensures forall i :: 0 <= i < |menu| ==> OptionOfLabel(labels[i]) == Some(menu[i])
  {
    seq(|menu|, i requires 0 <= i < |menu| => Label(menu[i]))
  }

  /** The labels of the two first menus, as the prompter receives them. */
  lemma InitialChoices()
    ensures Choices(InitialMenu(false)) ==
      ["Configure for Cloud Builds", "Configure for Local Builds",
       "Configure for Both Local and Cloud Builds", "Skip Step and Configure Manually"]
    ensures Choices(InitialMenu(true)) ==
      ["Configure for Local Builds", "Skip Step and Configure Manually"]
  {
  }

  /** The labels of the two follow-up menus. */
  lemma FollowUpChoices()
    ensures Choices(FollowUpMenu(false)) ==
      ["Configure for Cloud Builds", "Skip Step and Configure Manually"]
    ensures Choices(FollowUpMenu(true)) == ["Skip Step and Configure Manually"]
  {
  }

  // --------------------------------------------------------------- messages

  /** The message of every prompt. */
  const PromptMessage: string := "To continue, choose one of the following options: "

  const CloudBuildsMessage: string :=
    "In order to test your application use the $ tns login command to log in with your account " +
    "and then $ tns cloud build command to build your app in the cloud."

  /** What the manual-configuration failure text says between the platform and the link. */
  const ManualSetupBody: string :=
    "verify that your environment is configured according to the system requirements described at "

  /** The failure text for manual configuration: it names the platform and ends with the link. */
  function ManualSetupMessage(platform: string, sysRequirementsLink: string): (msg: string)
    ensures OccursAt(msg, "To be able to build for " + platform + ", ", 0)
    ensures OccursAt(msg, sysRequirementsLink, |msg| - |sysRequirementsLink|)
  {
    var head := "To be able to build for " + platform + ", ";
    ConcatEnds(head, ManualSetupBody, sysRequirementsLink);
    head + ManualSetupBody + sysRequirementsLink
  }

  /** The opening of the non-interactive failure text. */
  const NonInteractiveIntro: string :=
    "You are missing the " + CloudExtensionService.CloudExtensionName +
    " extension and you will not be able to execute cloud builds. " +
    "Your environment is not configured properly and you will not be able to execute local builds. " +
    PromptMessage + "\n"

  /** The hint to run the local setup script from the command line. */
  const SetupCommandHint: string :=
    "Run $ tns setup command to run the setup script to try to automatically configure your environment for local builds.\n"

  /** The hint to install the cloud extension from the command line. */
  const CloudSetupCommandHint: string :=
    "Run $ tns cloud setup command to install the " + CloudExtensionService.CloudExtensionName +
    " extension to configure your environment for cloud builds.\n"

  /** The hint to configure the environment by hand, which the link completes. */
  const ManualConfigurationHint: string :=
    "Verify that your environment is configured according to the system requirements described at "

  /**
   * The failure text for a terminal that cannot prompt: it names both setup
   * commands and ends with the system-requirements link.
   */
  function NonInteractiveMessage(sysRequirementsLink: string): (msg: string)
    ensures Contains(msg, SetupCommandHint) && Contains(msg, CloudSetupCommandHint)
    ensures OccursAt(msg, sysRequirementsLink, |msg| - |sysRequirementsLink|)
  {
    ConcatParts(NonInteractiveIntro, SetupCommandHint, CloudSetupCommandHint, ManualConfigurationHint,
                sysRequirementsLink);
    NonInteractiveIntro + SetupCommandHint + CloudSetupCommandHint + ManualConfigurationHint + sysRequirementsLink
  }

  // --------------------------------------------------------------- outcomes

  /** Why a check failed, with what its message mentions. */
  datatype Failure =
    | NonInteractiveEnvironment(sysRequirementsLink: string)
    | CloudBuildPending
    | ManualSetupRequired(platform: string, sysRequirementsLink: string)

  /** The text of the error a failed check raises. */
  function Message(f: Failure): string {
    match f
    case NonInteractiveEnvironment(link) => NonInteractiveMessage(link)
    case CloudBuildPending => CloudBuildsMessage
    case ManualSetupRequired(platform, link) => ManualSetupMessage(platform, link)
  }

  /**
   * How one check ends: the local build is possible; the call completed
   * without a recognised choice; or it failed with guidance for the user.
   */
  datatype Outcome = Ready | Unresolved | Failed(failure: Failure)

  /** One call of the prompter: its message and the labels offered. */
  datatype Prompt = Prompt(message: string, choices: seq<string>)

  /** What the collaborators of the check observably hold. */
  datatype Collaborators = Collaborators(
    localBuildReady: bool,     // what canExecuteLocalBuild answers now
    readyAfterSetup: bool,     // what it answers once the setup script has run
    extensionInstalled: bool,  // what the cloud extension service's isInstalled answers
    prompts: seq<Prompt>,      // every prompt issued
    installCalls: nat,         // how often the cloud extension was installed
    setupRuns: nat)            // how often the setup script ran

  // ------------------------------------------------------ the state machine

  /** Which menu the user is answering. */
  datatype Stage = InitialChoice | FollowUpChoice

  function Menu(stage: Stage, extensionInstalled: bool): seq<SetupOption> {
    match stage
    case InitialChoice => InitialMenu(extensionInstalled)
    case FollowUpChoice => FollowUpMenu(extensionInstalled)
  }

  /** What the check does with the user's answer. */
  datatype Remedy = InstallAndBuildInCloud | ConfigureManually | RunLocalSetup | NoRemedy

  /**
   * The cloud and combined options lead to the cloud builds, the manual
   * option to manual configuration, and the local option to the setup
   * script, but only from the first menu.
   */
  function RemedyFor(stage: Stage, choice: Option<SetupOption>): (r: Remedy)
    ensures r == InstallAndBuildInCloud <==> choice == Some(CloudSetup) || choice == Some(BothSetup)
    ensures r == ConfigureManually <==> choice == Some(ManualSetup)
    ensures r == RunLocalSetup <==> stage == InitialChoice && choice == Some(LocalSetup)
  {
    match choice
    case Some(CloudSetup) => InstallAndBuildInCloud
    case Some(BothSetup) => InstallAndBuildInCloud
    case Some(ManualSetup) => ConfigureManually
    case Some(LocalSetup) => if stage == InitialChoice then RunLocalSetup else NoRemedy
    case None => NoRemedy
  }

  /** The extension installation, which does nothing once the extension is there. */
  function InstallIfMissing(c: Collaborators): Collaborators {
    if c.extensionInstalled then c
    else c.(extensionInstalled := true, installCalls := c.installCalls + 1)
  }

  /**
   * Prompts with the menu of `stage` and carries out the answer. Only a
   * local build verified after the setup script counts as Ready; every
   * call issues one prompt, plus a second exactly when the local option
   * was chosen from the first menu and the setup script did not help.
   */
  function AfterPrompt(stage: Stage, c: Collaborators, platform: string, sysRequirementsLink: string,
                       choose: seq<string> -> string): (r: (Outcome, Collaborators))
    ensures r.0.Ready? ==> r.1.localBuildReady && r.1.setupRuns == c.setupRuns + 1
    ensures |r.1.prompts| == |c.prompts| + 1 +
      (if stage == InitialChoice && !c.readyAfterSetup &&
          OptionOfLabel(choose(Choices(Menu(stage, c.extensionInstalled)))) == Some(LocalSetup)
       then 1 else 0)
    ensures c.prompts <= r.1.prompts
    ensures c.installCalls <= r.1.installCalls <= c.installCalls + 1
    ensures r.1.installCalls == c.installCalls + 1 <==>
      !c.extensionInstalled && r.0 == Failed(CloudBuildPending)
    decreases if stage == InitialChoice then 1 else 0
  {
    var choices := Choices(Menu(stage, c.extensionInstalled));
    var asked := c.(prompts := c.prompts + [Prompt(PromptMessage, choices)]);
    match RemedyFor(stage, OptionOfLabel(choose(choices)))
    case InstallAndBuildInCloud => (Failed(CloudBuildPending), InstallIfMissing(asked))
    case ConfigureManually => (Failed(ManualSetupRequired(platform, sysRequirementsLink)), asked)
    case NoRemedy => (Unresolved, asked)
    case RunLocalSetup =>
      var setUp := asked.(setupRuns := asked.setupRuns + 1, localBuildReady := asked.readyAfterSetup);
      if setUp.localBuildReady then (Ready, setUp)
      else AfterPrompt(FollowUpChoice, setUp, platform, sysRequirementsLink, choose)
  }

  /**
   * One whole check: the outcome and what the collaborators hold afterwards.
   * `interactive` says whether both standard input and output are terminals.
   */
  function Resolve(c: Collaborators, platform: string, sysRequirementsLink: string, interactive: bool,
                   choose: seq<string> -> string): (Outcome, Collaborators)
  {
    if c.localBuildReady then (Ready, c)
    else if !interactive then (Failed(NonInteractiveEnvironment(sysRequirementsLink)), c)
    else AfterPrompt(InitialChoice, c, platform, sysRequirementsLink, choose)
  }

  // ------------------------------------------------- properties of a check

  /** A local build that is already possible ends the check at once, prompting for nothing. */
  lemma ReadyIsSilent(c: Collaborators, platform: string, link: string, interactive: bool,
                      choose: seq<string> -> string)
    requires c.localBuildReady
    ensures Resolve(c, platform, link, interactive, choose) == (Ready, c)
  {
  }

  /** A non-interactive terminal fails with fixed guidance before any prompt. */
  lemma NonInteractiveFails(c: Collaborators, platform: string, link: string,
                            choose: seq<string> -> string)
    requires !c.localBuildReady
    ensures Resolve(c, platform, link, false, choose) ==
      (Failed(NonInteractiveEnvironment(link)), c)
  {
  }

  /** The first prompt's message and labels, by whether the extension is installed. */
  lemma FirstPrompt(c: Collaborators, platform: string, link: string, choose: seq<string> -> string)
    requires !c.localBuildReady
    ensures var r := Resolve(c, platform, link, true, choose);
      |r.1.prompts| > |c.prompts| &&
      r.1.prompts[|c.prompts|] == Prompt(PromptMessage, Choices(InitialMenu(c.extensionInstalled)))
  {
  }

  /** With the extension installed nothing is installed, whatever is chosen. */
  lemma InstalledNeverInstalls(c: Collaborators, platform: string, link: string, interactive: bool,
                               choose: seq<string> -> string)
    requires c.extensionInstalled
    ensures Resolve(c, platform, link, interactive, choose).1.installCalls == c.installCalls
  {
  }

  /** The extension is installed only for a cloud or combined choice made while it is missing. */
  lemma InstallOnlyForCloudChoice(c: Collaborators, platform: string, link: string,
                                    choose: seq<string> -> string)
    requires !c.localBuildReady
    requires Resolve(c, platform, link, true, choose).1.installCalls != c.installCalls
    ensures !c.extensionInstalled
    ensures var first := choose(Choices(InitialMenu(false)));
      var second := choose(Choices(FollowUpMenu(false)));
      first == CloudSetupOptionName || first == BothSetupOptionName ||
      (first == LocalSetupOptionName && !c.readyAfterSetup &&
       (second == CloudSetupOptionName || second == BothSetupOptionName))
  {
  }

  /**
   * Choosing cloud (or both) from the first menu installs the missing
   * extension once and fails with the cloud-build guidance; with the
   * extension present it fails the same way without installing.
   */
  lemma CloudChoice(c: Collaborators, platform: string, link: string, choose: seq<string> -> string)
    requires !c.localBuildReady
    requires choose(Choices(InitialMenu(c.extensionInstalled))) in {CloudSetupOptionName, BothSetupOptionName}
    ensures var r := Resolve(c, platform, link, true, choose);
      r.0 == Failed(CloudBuildPending) &&
      |r.1.prompts| == |c.prompts| + 1 &&
      r.1.installCalls == (if c.extensionInstalled then c.installCalls else c.installCalls + 1)
  {
  }

  /** Choosing manual setup from the first menu fails with the system-requirements guidance. */
  lemma ManualChoice(c: Collaborators, platform: string, link: string, choose: seq<string> -> string)
    requires !c.localBuildReady
    requires choose(Choices(InitialMenu(c.extensionInstalled))) == ManuallySetupOptionName
    ensures var r := Resolve(c, platform, link, true, choose);
      r.0 == Failed(ManualSetupRequired(platform, link)) &&
      r.1.installCalls == c.installCalls && |r.1.prompts| == |c.prompts| + 1
  {
  }

  /**
   * An answer naming no option ends the check after that one prompt,
   * unresolved, with nothing installed and no setup script run.
   */
  lemma UnrecognisedAnswer(c: Collaborators, platform: string, link: string, choose: seq<string> -> string)
    requires !c.localBuildReady
    requires OptionOfLabel(choose(Choices(InitialMenu(c.extensionInstalled)))) == None
    ensures Resolve(c, platform, link, true, choose) ==
      (Unresolved, c.(prompts := c.prompts + [Prompt(PromptMessage, Choices(InitialMenu(c.extensionInstalled)))]))
  {
  }

  /** Local setup that makes the build possible succeeds after exactly one prompt. */
  lemma LocalSetupSucceeds(c: Collaborators, platform: string, link: string, choose: seq<string> -> string)
    requires !c.localBuildReady && c.readyAfterSetup
    requires choose(Choices(InitialMenu(c.extensionInstalled))) == LocalSetupOptionName
    ensures var r := Resolve(c, platform, link, true, choose);
      r.0 == Ready && r.1.setupRuns == c.setupRuns + 1 && |r.1.prompts| == |c.prompts| + 1 &&
      r.1.installCalls == c.installCalls
  {
  }

  /**
   * Local setup that leaves the build impossible prompts a second time with
   * the follow-up menu, whose cloud choice installs a missing extension and
   * whose manual choice fails with the system-requirements guidance.
   */
  lemma LocalSetupFollowUp(c: Collaborators, platform: string, link: string, choose: seq<string> -> string)
    requires !c.localBuildReady && !c.readyAfterSetup
    requires choose(Choices(InitialMenu(c.extensionInstalled))) == LocalSetupOptionName
    ensures var r := Resolve(c, platform, link, true, choose);
      var second := choose(Choices(FollowUpMenu(c.extensionInstalled)));
      |r.1.prompts| == |c.prompts| + 2 &&
      r.1.prompts[|c.prompts| + 1] == Prompt(PromptMessage, Choices(FollowUpMenu(c.extensionInstalled))) &&
      r.1.setupRuns == c.setupRuns + 1 &&
      (second == CloudSetupOptionName ==>
        r.0 == Failed(CloudBuildPending) &&
        r.1.installCalls == (if c.extensionInstalled then c.installCalls else c.installCalls + 1)) &&
      (second == ManuallySetupOptionName ==>
        r.0 == Failed(ManualSetupRequired(platform, link)) &&
        r.1.installCalls == c.installCalls) &&
      (second != CloudSetupOptionName && second != BothSetupOptionName && second != ManuallySetupOptionName ==>
        r.0 == Unresolved)
  {
  }

  /** Success means the local build was possible, before the call or after its setup script. */
  lemma ReadyOnlyWhenVerified(c: Collaborators, platform: string, link: string, interactive: bool,
                              choose: seq<string> -> string)
    requires Resolve(c, platform, link, interactive, choose).0 == Ready
    ensures c.localBuildReady || (interactive && c.readyAfterSetup)
  {
  }

  /**
   * Each check starts afresh: its outcome depends on the collaborators'
   * answers only, not on what earlier checks prompted, installed or ran.
   */
  lemma OutcomeIgnoresHistory(c: Collaborators, d: Collaborators, platform: string,
                                link: string, interactive: bool, choose: seq<string> -> string)
    requires c.localBuildReady == d.localBuildReady && c.readyAfterSetup == d.readyAfterSetup
    requires c.extensionInstalled == d.extensionInstalled
    ensures Resolve(c, platform, link, interactive, choose).0 == Resolve(d, platform, link, interactive, choose).0
  {
  }

  // ------------------------------------------------------- the imperative check

  class PlatformEnvironmentRequirements {
    /** The static configuration's system-requirements link. */
    const sysRequirementsLink: string
    var localBuildReady: bool
    var readyAfterSetup: bool
    var extensionInstalled: bool
    var prompts: seq<Prompt>
    var installCalls: nat
    var setupRuns: nat

    /** The collaborators' state as one value. */
    function State(): Collaborators
      reads this
    {
      Collaborators(localBuildReady, readyAfterSetup, extensionInstalled, prompts, installCalls, setupRuns)
    }

    constructor (sysRequirementsLink: string, localBuildReady: bool, readyAfterSetup: bool,
                 extensionInstalled: bool)
      ensures this.sysRequirementsLink == sysRequirementsLink
      ensures State() == Collaborators(localBuildReady, readyAfterSetup, extensionInstalled, [], 0, 0)
    {
      this.sysRequirementsLink := sysRequirementsLink;
      this.localBuildReady := localBuildReady;
      this.readyAfterSetup := readyAfterSetup;
      this.extensionInstalled := extensionInstalled;
      prompts := [];
      installCalls := 0;
      setupRuns := 0;
    }

    /** The prompter: records the prompt and returns the option the answer names. */
    method PromptForChoice(menu: seq<SetupOption>, choose: seq<string> -> string)
      returns (choice: Option<SetupOption>)
      modifies this`prompts
      ensures prompts == old(prompts) + [Prompt(PromptMessage, Choices(menu))]
      ensures choice == OptionOfLabel(choose(Choices(menu)))
    {
      var choices := Choices(menu);
      prompts := prompts + [Prompt(PromptMessage, choices)];
      choice := OptionOfLabel(choose(choices));
    }

    /** The cloud extension service's install, called only while the extension is missing. */
    method InstallExtension()
      modifies this`extensionInstalled, this`installCalls
      ensures State() == InstallIfMissing(old(State()))
    {
      if !extensionInstalled {
        installCalls := installCalls + 1;
        extensionInstalled := true;
      }
    }

    /** The doctor service's setup script, after which the local build check may answer differently. */
    method RunSetupScript()
      modifies this`setupRuns, this`localBuildReady
      ensures State() == old(State()).(setupRuns := old(setupRuns) + 1, localBuildReady := readyAfterSetup)
    {
      setupRuns := setupRuns + 1;
      localBuildReady := readyAfterSetup;
    }

    /**
     * Prompts with the menu of `stage` and carries out the answer: installs
     * the extension and fails for a cloud choice, fails for a manual one, and
     * runs the setup script and re-checks for a local one, prompting once
     * more with the follow-up menu when the build is still impossible.
     */
    method PromptAndRemedy(stage: Stage, platform: string, choose: seq<string> -> string)
      returns (outcome: Outcome)
      modifies this
      ensures (outcome, State()) == AfterPrompt(stage, old(State()), platform, sysRequirementsLink, choose)
      decreases if stage == InitialChoice then 1 else 0
    {
      var selected := PromptForChoice(Menu(stage, extensionInstalled), choose);
      match RemedyFor(stage, selected)
      case InstallAndBuildInCloud =>
        InstallExtension();
        outcome := Failed(CloudBuildPending);
      case ConfigureManually =>
        outcome := Failed(ManualSetupRequired(platform, sysRequirementsLink));
      case NoRemedy =>
        outcome := Unresolved;
      case RunLocalSetup =>
        RunSetupScript();
        if localBuildReady {
          outcome := Ready;
        } else {
          outcome := PromptAndRemedy(FollowUpChoice, platform, choose);
        }
    }

    /**
     * `checkEnvironmentRequirements`. `stdinIsTTY` and `stdoutIsTTY` are the
     * process's terminal flags; `choose` answers the prompts.
     */
    method CheckEnvironmentRequirements(platform: string, stdinIsTTY: bool, stdoutIsTTY: bool,
                                        choose: seq<string> -> string)
      returns (outcome: Outcome)
      modifies this
      ensures (outcome, State()) ==
        Resolve(old(State()), platform, sysRequirementsLink, stdinIsTTY && stdoutIsTTY, choose)
    {
      ghost var before := State();
      var interactive := stdinIsTTY && stdoutIsTTY;
      if localBuildReady {
        outcome := Ready;
      } else if !interactive {
        outcome := Failed(NonInteractiveEnvironment(sysRequirementsLink));
      } else {
        outcome := PromptAndRemedy(InitialChoice, platform, choose);
        assert (outcome, State()) == AfterPrompt(InitialChoice, before, platform, sysRequirementsLink, choose);
      }
    }
  }
}

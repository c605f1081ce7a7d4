/**
 * The service that answers whether the nativescript-cloud extension is
 * installed and installs it on request
 * (lib/services/nativescript-cloud-extension-service.ts).
 *
 * The extensibility service it delegates to is modelled by the list of
 * installed extensions it reports and a log of the names it was asked to
 * install; the logger by the list of lines written to it.
 */
module CloudExtensionService {
  import opened Wrappers

  /** The name under which the cloud-build extension is installed. */
  const CloudExtensionName: string := "nativescript-cloud"

  /** The line `install` logs when there is nothing to do. */
  const AlreadyInstalledMessage: string :=
    "Extension " + CloudExtensionName + " is already installed."

  /** One entry of the extensibility service's list of installed extensions. */
  datatype ExtensionData = ExtensionData(extensionName: string, version: string)

  predicate IsCloudEntry(e: ExtensionData) {
    e.extensionName == CloudExtensionName
  }

  /** Index `i` holds the first cloud entry of `installed`. */
  predicate FirstCloudAt(installed: seq<ExtensionData>, i: int) {
    0 <= i < |installed| && IsCloudEntry(installed[i]) &&
    forall j :: 0 <= j < i ==> !IsCloudEntry(installed[j])
  }

  /**
   * `getExtensionData`: the first installed entry whose name is the cloud
   * extension's name, or nothing (Array.prototype.find).
   */
  function GetExtensionData(installed: seq<ExtensionData>): (r: Option<ExtensionData>)
    ensures r.None? <==> forall i :: 0 <= i < |installed| ==> !IsCloudEntry(installed[i])
    ensures r.Some? ==> exists i :: FirstCloudAt(installed, i) && installed[i] == r.value
  {
    if installed == [] then None
    else if IsCloudEntry(installed[0]) then Some(installed[0])
    else
      var rest := GetExtensionData(installed[1..]);
      assert rest.Some? ==> exists i :: FirstCloudAt(installed, i) && installed[i] == rest.value by {
        if rest.Some? {
          var k :| FirstCloudAt(installed[1..], k) && installed[1..][k] == rest.value;
          forall j | 1 <= j < k + 1 ensures !IsCloudEntry(installed[j]) {
            assert installed[j] == installed[1..][j - 1];
          }
          assert FirstCloudAt(installed, k + 1);
        }
      }
      rest
  }

  /** `isInstalled`: some installed entry carries the cloud extension's name. */
  function IsInstalled(installed: seq<ExtensionData>): (r: bool)
    ensures r <==> exists i :: 0 <= i < |installed| && IsCloudEntry(installed[i])
  {
    GetExtensionData(installed).Some?
  }

  /**
   * `isLatestVersionInstalled`: false when the extension is not installed;
   * otherwise whether the installed entry's version is the latest one.
   * `isLatest` stands for comparing a version with the latest version the
   * npm registry reports (a semver equality the model does not implement).
   */
  function IsLatestVersionInstalled(installed: seq<ExtensionData>, isLatest: string -> bool): (r: bool)
    ensures !IsInstalled(installed) ==> !r
    ensures r <==> exists i :: FirstCloudAt(installed, i) && isLatest(installed[i].version)
  {
    match GetExtensionData(installed)
    case None => false
    case Some(data) => isLatest(data.version)
  }

  /** What `install` leaves installed: the list itself, or the list plus the new entry. */
  function AfterInstall(installed: seq<ExtensionData>, fetchedVersion: string): seq<ExtensionData> {
    if IsInstalled(installed) then installed
    else installed + [ExtensionData(CloudExtensionName, fetchedVersion)]
  }

  /** After `install` the extension is installed, whatever was there before. */
  lemma {:induction false} InstallMakesInstalled(installed: seq<ExtensionData>, fetchedVersion: string)
    ensures IsInstalled(AfterInstall(installed, fetchedVersion))
  {
    if !IsInstalled(installed) {
      var after := AfterInstall(installed, fetchedVersion);
      assert IsCloudEntry(after[|installed|]);
    }
  }

  /** A second `install` changes nothing: installing is idempotent. */
  lemma InstallIdempotent(installed: seq<ExtensionData>, v1: string, v2: string)
    ensures AfterInstall(AfterInstall(installed, v1), v2) == AfterInstall(installed, v1)
  {
    InstallMakesInstalled(installed, v1);
  }

  /** `install` never removes or reorders what was installed before. */
  lemma InstallKeepsInstalled(installed: seq<ExtensionData>, fetchedVersion: string)
    ensures installed <= AfterInstall(installed, fetchedVersion)
    ensures |AfterInstall(installed, fetchedVersion)| <= |installed| + 1
  {
  }

  /** Installing an absent extension makes the new entry the one `getExtensionData` finds. */
  lemma {:induction false} InstallThenFind(installed: seq<ExtensionData>, fetchedVersion: string)
    requires !IsInstalled(installed)
    ensures GetExtensionData(AfterInstall(installed, fetchedVersion)) ==
      Some(ExtensionData(CloudExtensionName, fetchedVersion))
  {
    var after := AfterInstall(installed, fetchedVersion);
    InstallMakesInstalled(installed, fetchedVersion);
    var r := GetExtensionData(after);
    var i :| FirstCloudAt(after, i) && after[i] == r.value;
    assert i == |installed|;
  }

  class NativescriptCloudExtensionService {
    /** What the extensibility service reports as installed. */
    var installed: seq<ExtensionData>
    /** Every name the extensibility service was asked to install, in order. */
    var installRequests: seq<string>
    /** Every line written to the logger, in order. */
    var output: seq<string>

    constructor (initiallyInstalled: seq<ExtensionData>)
      ensures installed == initiallyInstalled && installRequests == [] && output == []
    {
      installed := initiallyInstalled;
      installRequests := [];
      output := [];
    }

    /**
     * `install`: asks the extensibility service to install the cloud
     * extension when it is absent, and otherwise only logs that it is
     * already installed. `fetchedVersion` is the version the installation
     * brings in; the new entry is what the call resolves with.
     */
    method Install(fetchedVersion: string) returns (data: Option<ExtensionData>)
      modifies this
      ensures installed == AfterInstall(old(installed), fetchedVersion)
      ensures IsInstalled(installed)
      ensures old(IsInstalled(installed)) ==>
        data == None && installRequests == old(installRequests) &&
        output == old(output) + [AlreadyInstalledMessage]
      ensures !old(IsInstalled(installed)) ==>
        data == Some(ExtensionData(CloudExtensionName, fetchedVersion)) &&
        installRequests == old(installRequests) + [CloudExtensionName] &&
        output == old(output)
    {
      InstallMakesInstalled(installed, fetchedVersion);
      if !IsInstalled(installed) {
        var entry := ExtensionData(CloudExtensionName, fetchedVersion);
        installRequests := installRequests + [CloudExtensionName];
        installed := installed + [entry];
        data := Some(entry);
        return;
      }
      output := output + [AlreadyInstalledMessage];
      data := None;
    }

    /** `isInstalled` on the service's current list. */
    function IsInstalledNow(): (r: bool)
      reads this
      ensures r <==> exists i :: 0 <= i < |installed| && IsCloudEntry(installed[i])
    {
      IsInstalled(installed)
    }
  }
}

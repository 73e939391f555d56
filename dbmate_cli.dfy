/**
 * The decisions of the migration runner script (run_dbmate_cli.py): which dbmate
 * release asset fits the host, which zip member holds the executable, how the
 * dbmate command line is assembled, and the script's exit status.
 */
module DbmateCli {
  import opened Wrappers
  import opened Text

  const DBMATE_VERSION: string := "v2.27.0"
  const RELEASES_URL: string := "https://github.com/amacneil/dbmate/releases/download/"
  /** Status passed to `sys.exit` on unsupported hosts and on launch failures. */
  const EXIT_FAILURE: int := 1

  /** `DBMATE_EXE_NAME` for the lower-cased `platform.system()`. */
  function ExeName(system: string): (r: string)
    ensures system == "windows" <==> r == "dbmate.exe"
    ensures system != "windows" <==> r == "dbmate"
  {
    if system == "windows" then "dbmate.exe" else "dbmate"
  }

  datatype AssetDetails = AssetDetails(assetFilename: string, url: string, isCompressed: bool, exeNameInArchive: string)

  predicate IsAmd64(machine: string) {
    machine == "x86_64" || machine == "amd64"
  }

  /** The release asset name for a lower-cased system and machine, when one exists. */
  function AssetFilename(system: string, machine: string): (r: Option<string>)
  {
    if system == "linux" then
      if IsAmd64(machine) then Some("dbmate-linux-amd64")
      else if machine == "aarch64" || machine == "arm64" then Some("dbmate-linux-arm64")
      else None
    else if system == "darwin" then
      if IsAmd64(machine) then Some("dbmate-macos-amd64")
      else if machine == "arm64" then Some("dbmate-macos-arm64")
      else None
    else if system == "windows" && IsAmd64(machine) then Some("dbmate-windows-amd64.zip")
    else None
  }

  /**
   * `get_asset_details`: the asset, its download URL, whether it is a zip archive and the
   * executable's name in it; an unsupported host ends the script with status 1.
   */
  function GetAssetDetails(system: string, machine: string): (r: Result<AssetDetails, int>)
    ensures r.Failure? <==> AssetFilename(system, machine).None?
    ensures r.Failure? ==> r.error == EXIT_FAILURE
    ensures r.Success? ==>
              r.value.assetFilename == AssetFilename(system, machine).value
              && r.value.url == RELEASES_URL + DBMATE_VERSION + "/" + r.value.assetFilename
              && (r.value.isCompressed <==> system == "windows")
              && r.value.exeNameInArchive == ExeName(system)
  {
    match AssetFilename(system, machine)
    case None => Failure(EXIT_FAILURE)
    case Some(asset) =>
      Success(AssetDetails(asset, RELEASES_URL + DBMATE_VERSION + "/" + asset,
                           system == "windows", ExeName(system)))
  }

  /** The hosts with an asset: linux and darwin on amd64 and arm64, windows on amd64 only. */
  lemma SupportedHosts(system: string, machine: string)
    ensures AssetFilename(system, machine).Some? <==>
              ((system == "linux" && (IsAmd64(machine) || machine == "aarch64" || machine == "arm64"))
               || (system == "darwin" && (IsAmd64(machine) || machine == "arm64"))
               || (system == "windows" && IsAmd64(machine)))
  {
  }

  /** Only the windows asset is a zip archive, and only it carries the ".zip" suffix. */
  lemma CompressedIffZip(system: string, machine: string)
    requires GetAssetDetails(system, machine).Success?
    ensures var d := GetAssetDetails(system, machine).value;
            d.isCompressed <==> EndsWith(d.assetFilename, ".zip")
  {
    var d := GetAssetDetails(system, machine).value;
    if !d.isCompressed {
      var a := d.assetFilename;
      assert a[|a| - 4] != '.';
    }
  }

  /** Index of the first member name ending with `exe`. */
  function FirstEndingWith(names: seq<string>, exe: string): (r: Option<nat>)
    ensures r.Some? ==> r.value < |names| && EndsWith(names[r.value], exe)
                         && forall i :: 0 <= i < r.value ==> !EndsWith(names[i], exe)
    ensures r.None? ==> forall i :: 0 <= i < |names| ==> !EndsWith(names[i], exe)
  {
    if names == [] then None
    else if EndsWith(names[0], exe) then Some(0)
    else match FirstEndingWith(names[1..], exe)
      case None => None
      case Some(k) => Some(k + 1)
  }

  /**
   * The zip member to extract: the first name ending with the executable's name; none
   * raises "<exe> not found in zip.".
   */
  method ChooseZipMember(names: seq<string>, exe: string) returns (r: Result<string, string>)
    ensures FirstEndingWith(names, exe).Some? ==> r == Success(names[FirstEndingWith(names, exe).value])
    ensures FirstEndingWith(names, exe).None? ==> r == Failure(exe + " not found in zip.")
  {
    var member: Option<string> := None;
    var i := 0;
    while i < |names|
      invariant 0 <= i <= |names|
      invariant member.None?
      invariant forall j :: 0 <= j < i ==> !EndsWith(names[j], exe)
    {
      if EndsWith(names[i], exe) {
        member := Some(names[i]);
        FirstIsUnique(names, exe, i);
        break;
      }
      i := i + 1;
    }
    if member.Some? {
      r := Success(member.value);
    } else {
      r := Failure(exe + " not found in zip.");
    }
  }

  lemma FirstIsUnique(names: seq<string>, exe: string, i: nat)
    requires i < |names| && EndsWith(names[i], exe)
    requires forall j :: 0 <= j < i ==> !EndsWith(names[j], exe)
    ensures FirstEndingWith(names, exe) == Some(i)
  {
    var f := FirstEndingWith(names, exe);
    assert f.Some?;
    assert !(f.value < i) && !(f.value > i);
  }

  /** The `--url` option, present iff DATABASE_URL is set and non-empty. */
  function UrlOption(dbUrl: Option<string>): seq<string> {
    if dbUrl.Some? && dbUrl.value != "" then ["--url", dbUrl.value] else []
  }

  /** Python `argv[1:]`: the arguments after the script name. */
  function UserArgs(argv: seq<string>): seq<string> {
    if |argv| == 0 then [] else argv[1..]
  }

  /**
   * The dbmate command of `main`: the executable, `-d` and the migrations directory,
   * the `--url` option when DATABASE_URL is set, then the user's arguments.
   */
  method BuildCommand(dbmatePath: string, migrationsDir: string, dbUrl: Option<string>, argv: seq<string>)
    returns (command: seq<string>)
    ensures command == [dbmatePath, "-d", migrationsDir] + UrlOption(dbUrl) + UserArgs(argv)
  {
    var commandArgs := ["-d", migrationsDir];
    if dbUrl.Some? && dbUrl.value != "" {
      commandArgs := commandArgs + ["--url", dbUrl.value];
    }
    command := [dbmatePath] + commandArgs + UserArgs(argv);
  }

  /** The command always starts with the executable and the migrations option and ends with the user's arguments. */
  lemma CommandShape(dbmatePath: string, migrationsDir: string, dbUrl: Option<string>, argv: seq<string>)
    ensures var c := [dbmatePath, "-d", migrationsDir] + UrlOption(dbUrl) + UserArgs(argv);
            c[..3] == [dbmatePath, "-d", migrationsDir]
            && (dbUrl.Some? && dbUrl.value != "" <==> |c| == |UserArgs(argv)| + 5)
            && (dbUrl.Some? && dbUrl.value != "" ==> c[3] == "--url" && c[4] == dbUrl.value)
            && c[|c| - |UserArgs(argv)|..] == UserArgs(argv)
            && |UserArgs(argv)| == if |argv| == 0 then 0 else |argv| - 1
  {
    var c := [dbmatePath, "-d", migrationsDir] + UrlOption(dbUrl) + UserArgs(argv);
    assert c[|c| - |UserArgs(argv)|..] == UserArgs(argv);
  }

  /** How the dbmate process ended, as seen by `main`. */
  datatype Launch = Exited(returnCode: int) | ExecutableNotFound | LaunchError

  /** The script's exit status: dbmate's own return code, or 1 when it could not be run. */
  function ExitStatus(launch: Launch): (status: int)
    ensures launch.Exited? ==> status == launch.returnCode
    ensures !launch.Exited? ==> status == EXIT_FAILURE
  {
    match launch
    case Exited(code) => code
    case ExecutableNotFound => EXIT_FAILURE
    case LaunchError => EXIT_FAILURE
  }
}

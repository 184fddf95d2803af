/** `Utils`: the process-wide property set, loaded lazily from
    setup.properties, and the operating-system-dependent paths derived from
    it. The static state of the Java class is one `PropertyStore` object; the
    operating-system name (`System.getProperty("os.name")`) is a parameter. */
module Utils {
  import opened Wrappers
  import opened JavaStrings

  /** A `java.util.Properties` table. */
  type Properties = map<string, string>

  const RootKey: string := "browser.path.root"
  const ExtensionKey: string := "browser.mode.extension"
  const DriverKeyPrefix: string := "browser.path."
  const Placeholder: string := "OS_SYSTEM"

  /** The `NullPointerException` raised when `browser.path.root` is absent and
      `replace` is called on the null it reads. */
  datatype Error = MissingRoot

  /** `Properties.getProperty`: the value, or null when the key is absent. */
  function GetProperty(p: Properties, key: string): (v: Option<string>)
    ensures v.Some? <==> key in p
    ensures v.Some? ==> v.value == p[key]
  {
    if key in p then Some(p[key]) else None
  }

  /** What `String` concatenation appends for a value that may be null. */
  function Show(v: Option<string>): string {
    match v
    case Some(s) => s
    case None => "null"
  }

  /** The operating system is taken for Linux when its lower-cased name contains "linux". */
  predicate IsLinux(osName: string) {
    Contains(ToLower(osName), "linux")
  }

  /** The folder name substituted for the placeholder. */
  function OsFolder(osName: string): (f: string)
    ensures f == "linux" || f == "windows"
    ensures f == "linux" <==> IsLinux(osName)
  {
    if IsLinux(osName) then "linux" else "windows"
  }

  /** The result of `binOSPath` for a loaded property set. */
  function OsPath(p: Properties, osName: string): Result<string, Error> {
    match GetProperty(p, RootKey)
    case None => Failure(MissingRoot)
    case Some(root) => Success(ReplaceAll(root, Placeholder, OsFolder(osName)))
  }

  /** The property set after `binOSPath`: off Linux it records the ".exe"
      driver extension. */
  function AfterOsPath(p: Properties, osName: string): Properties {
    if IsLinux(osName) then p else p[ExtensionKey := ".exe"]
  }

  /** The result of `binDownloadFolderPath` for a loaded property set. */
  function DownloadFolderPath(p: Properties, osName: string): Result<string, Error> {
    match GetProperty(p, RootKey)
    case None => Failure(MissingRoot)
    case Some(root) => Success(ReplaceAll(root, Placeholder, OsFolder(osName)) + "downloads")
  }

  /** The result of `binDriverPath` for a loaded property set: the root, the
      browser's driver name and the extension, the last two read after
      `binOSPath` has updated the set. */
  function DriverPath(p: Properties, osName: string, browser: string): Result<string, Error> {
    match OsPath(p, osName)
    case Failure(e) => Failure(e)
    case Success(root) =>
      var q := AfterOsPath(p, osName);
      Success(root + Show(GetProperty(q, DriverKeyPrefix + browser)) + Show(GetProperty(q, ExtensionKey)))
  }

  /** The static state of `Utils`: the file's contents and the `props` field. */
  class PropertyStore {
    /** What `Properties.load` reads from setup.properties; `None` when the
        file cannot be read, in which case the set stays empty. */
    const setupFile: Option<Properties>
    /** The static field `props`: `None` while it is still null. */
    var props: Option<Properties>

    constructor (setupFile: Option<Properties>)
      ensures this.setupFile == setupFile && props == None
    {
      this.setupFile := setupFile;
      props := None;
    }

    /** The property set `getProp()` returns in the current state. */
    function Current(): Properties
      reads this
    {
      if props.Some? then props.value else setupFile.GetOr(map[])
    }

    /** `getProp()`: loads the set on first use, then always returns the same one. */
    method LoadProps() returns (p: Properties)
      modifies this
      ensures props == Some(p)
      ensures p == old(Current())
      ensures old(props).Some? ==> props == old(props)
      ensures old(props).None? ==> p == setupFile.GetOr(map[])
    {
      if props.None? {
        var loaded: Properties := map[];
        if setupFile.Some? {
          loaded := setupFile.value;
        }
        props := Some(loaded);
      }
      p := props.value;
    }

    /** `getProp(key)`: the loaded value for `key`, null when absent. */
    method GetProp(key: string) returns (v: Option<string>)
      modifies this
      ensures props == Some(old(Current()))
      ensures v == GetProperty(old(Current()), key)
    {
      var p := LoadProps();
      v := GetProperty(p, key);
    }

    /** `binOSPath`: the root path with every OS_SYSTEM replaced by the folder
        of the operating system; off Linux it also sets the driver extension
        to ".exe", and that is the only key it changes. */
    method BinOsPath(osName: string) returns (r: Result<string, Error>)
      modifies this
      ensures props == Some(AfterOsPath(old(Current()), osName))
      ensures r == OsPath(old(Current()), osName)
    {
      var root := GetProp(RootKey);
      var newChar := "windows";
      if Contains(ToLower(osName), "linux") {
        newChar := "linux";
      } else {
        props := Some(props.value[ExtensionKey := ".exe"]);
      }
      match root
      case None =>
        r := Failure(MissingRoot);
      case Some(path) =>
        r := Success(ReplaceAll(path, Placeholder, newChar));
    }

    /** `binDownloadFolderPath`: the resolved root followed by "downloads"; it
        loads the set but never changes it. */
    method BinDownloadFolderPath(osName: string) returns (r: Result<string, Error>)
      modifies this
      ensures props == Some(old(Current()))
      ensures r == DownloadFolderPath(old(Current()), osName)
    {
      var root := GetProp(RootKey);
      var newChar := "windows";
      if Contains(ToLower(osName), "linux") {
        newChar := "linux";
      }
      match root
      case None =>
        r := Failure(MissingRoot);
      case Some(path) =>
        r := Success(ReplaceAll(path, Placeholder, newChar) + "downloads");
    }

    /** `binDriverPath(browser)`: root, driver name and extension, concatenated. */
    method BinDriverPath(osName: string, browser: string) returns (r: Result<string, Error>)
      modifies this
      ensures props == Some(AfterOsPath(old(Current()), osName))
      ensures r == DriverPath(old(Current()), osName, browser)
    {
      var root := BinOsPath(osName);
      match root
      case Failure(e) =>
        r := Failure(e);
      case Success(path) =>
        var name := GetProp(DriverKeyPrefix + browser);
        var extension := GetProp(ExtensionKey);
        r := Success(path + Show(name) + Show(extension));
    }
  }

  // ---------------------------------------------------------------------
  // Lemmas
  // ---------------------------------------------------------------------

  /** The placeholder's letters are upper-case and underscore; the folder
      names have none of them. */
  lemma FolderAvoidsPlaceholder(osName: string)
    ensures forall c :: c in OsFolder(osName) ==> c !in Placeholder
  {
    forall c | c in Placeholder ensures !('a' <= c <= 'z') {
      var i :| 0 <= i < |Placeholder| && Placeholder[i] == c;
    }
    forall c | c in OsFolder(osName) ensures 'a' <= c <= 'z' {
      var i :| 0 <= i < |OsFolder(osName)| && OsFolder(osName)[i] == c;
    }
  }

  /** The resolved root contains no OS_SYSTEM, and is the root itself when the
      root had none. */
  lemma OsPathResolvesPlaceholder(p: Properties, osName: string)
    ensures OsPath(p, osName).Success? <==> RootKey in p
    ensures OsPath(p, osName).Success? ==> !Contains(OsPath(p, osName).value, Placeholder)
    ensures RootKey in p && !Contains(p[RootKey], Placeholder) ==> OsPath(p, osName) == Success(p[RootKey])
  {
    if RootKey in p {
      FolderAvoidsPlaceholder(osName);
      ReplaceAllRemovesTarget(p[RootKey], Placeholder, OsFolder(osName));
      if !Contains(p[RootKey], Placeholder) {
        ReplaceAllAbsent(p[RootKey], Placeholder, OsFolder(osName));
      }
    }
  }

  /** The folder name lands exactly where the first OS_SYSTEM of the root
      stood; with a single placeholder the root is otherwise unchanged. */
  lemma OsPathSubstitutesFolder(p: Properties, osName: string, before: string, after: string)
    requires RootKey in p && p[RootKey] == before + Placeholder + after
    requires forall i :: 0 <= i < |before| ==> !OccursAt(Placeholder, p[RootKey], i)
    ensures OsPath(p, osName) == Success(before + OsFolder(osName) + ReplaceAll(after, Placeholder, OsFolder(osName)))
    ensures !Contains(after, Placeholder) ==> OsPath(p, osName) == Success(before + OsFolder(osName) + after)
  {
    ReplaceAllFirstOccurrence(before, Placeholder, after, OsFolder(osName));
    if !Contains(after, Placeholder) {
      ReplaceAllAbsent(after, Placeholder, OsFolder(osName));
    }
  }

  /** A root whose folder part has an underscore and capital letters of its own. */
  lemma OsPathExample(osName: string)
    ensures OsPath(map[RootKey := "./Web_Selenium/OS_SYSTEM/"], osName)
              == Success("./Web_Selenium/" + OsFolder(osName) + "/")
  {
    var root := "./Web_Selenium/OS_SYSTEM/";
    assert root == "./Web_Selenium/" + Placeholder + "/";
    forall i | 0 <= i < 15 ensures !OccursAt(Placeholder, root, i) {
      assert root[i..i + 9][0] == root[i] != 'O';
    }
    assert !OccursAt(Placeholder, "/", 0);
    OsPathSubstitutesFolder(map[RootKey := root], osName, "./Web_Selenium/", "/");
  }

  /** `binOSPath` changes the driver extension and nothing else, and only off Linux. */
  lemma OsPathSideEffect(p: Properties, osName: string, key: string)
    ensures key != ExtensionKey ==> GetProperty(AfterOsPath(p, osName), key) == GetProperty(p, key)
    ensures GetProperty(AfterOsPath(p, osName), ExtensionKey) ==
              if IsLinux(osName) then GetProperty(p, ExtensionKey) else Some(".exe")
    ensures IsLinux(osName) ==> AfterOsPath(p, osName) == p
  {
  }

  /** Calling `binOSPath` again returns the same path and leaves the set as it was. */
  lemma OsPathIdempotent(p: Properties, osName: string)
    ensures OsPath(AfterOsPath(p, osName), osName) == OsPath(p, osName)
    ensures AfterOsPath(AfterOsPath(p, osName), osName) == AfterOsPath(p, osName)
  {
  }

  /** In the same state, the download folder is the resolved root followed by "downloads". */
  lemma DownloadFolderExtendsOsPath(p: Properties, osName: string)
    ensures DownloadFolderPath(p, osName).Success? <==> OsPath(p, osName).Success?
    ensures OsPath(p, osName).Success? ==>
              DownloadFolderPath(p, osName).value == OsPath(p, osName).value + "downloads"
  {
  }

  /** The driver path is the resolved root, then the driver's name, then the
      extension; off Linux that extension is ".exe". */
  lemma DriverPathShape(p: Properties, osName: string, browser: string)
    ensures DriverPath(p, osName, browser).Success? <==> RootKey in p
    ensures RootKey in p ==>
              var root := OsPath(p, osName).value;
              var rest := Show(GetProperty(p, DriverKeyPrefix + browser));
              && DriverPath(p, osName, browser).value[..|root|] == root
              && (!IsLinux(osName) ==> DriverPath(p, osName, browser).value == root + rest + ".exe")
  {
    if RootKey in p && !IsLinux(osName) {
      assert DriverKeyPrefix + browser != ExtensionKey by {
        if |browser| == 9 {
          assert (DriverKeyPrefix + browser)[8] == 'p';
          assert ExtensionKey[8] == 'm';
        }
      }
    }
  }
}

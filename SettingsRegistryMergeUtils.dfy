/**
 * The settings-registry key constants and the bootstrap helper `PlatformGet`,
 * which reads "<rootPath>/<platform>_<keyName>" and falls back to
 * "<rootPath>/<keyName>".
 *
 * The registry is a map from keys to values of the requested type: a key that
 * is absent, or whose value has another type, is not in the map.
 */
module SettingsRegistryMergeUtils {
  import opened Wrappers

  /** The key made of `segments`, each preceded by '/': ["a", "b"] is "/a/b". */
  function KeyOf(segments: seq<string>): string
  {
    if |segments| == 0 then "" else KeyOf(segments[..|segments| - 1]) + "/" + segments[|segments| - 1]
  }

  // The key constants of the header, written as their '/'-separated segments.
  const OrganizationRoot: seq<string> := ["Amazon"]
  const FilePathsRoot: seq<string> := OrganizationRoot + ["AzCore", "Runtime", "FilePaths"]

  const OrganizationRootKey: string := KeyOf(OrganizationRoot)
  const BuildTargetNameKey: string := KeyOf(OrganizationRoot + ["AzCore", "Settings", "BuildTargetName"])
  const SpecializationsRootKey: string := KeyOf(OrganizationRoot + ["AzCore", "Settings", "Specializations"])
  const BootstrapSettingsRootKey: string := KeyOf(OrganizationRoot + ["AzCore", "Bootstrap"])
  const GemListRootKey: string := KeyOf(OrganizationRoot + ["AzCore", "Gems"])
  const FilePathsRootKey: string := KeyOf(FilePathsRoot)
  const FilePathKey_BinaryFolder: string := KeyOf(FilePathsRoot + ["BinaryFolder"])
  const FilePathKey_EngineRootFolder: string := KeyOf(FilePathsRoot + ["EngineRootFolder"])
  const FilePathKey_CacheProjectRootFolder: string := KeyOf(FilePathsRoot + ["CacheProjectRootFolder"])
  const FilePathKey_CacheRootFolder: string := KeyOf(FilePathsRoot + ["CacheRootFolder"])
  const FilePathKey_ProjectPath: string := KeyOf(FilePathsRoot + ["SourceProjectPath"])
  const FilePathKey_ProjectUserPath: string := KeyOf(FilePathsRoot + ["SourceProjectUserPath"])
  const FilePathKey_DevWriteStorage: string := KeyOf(FilePathsRoot + ["DevWriteStorage"])
  const CommandLineRootKey: string := KeyOf(OrganizationRoot + ["AzCore", "Runtime", "CommandLine"])
  const ProjectSettingsRootKey: string := KeyOf(OrganizationRoot + ["Project", "Settings"])
  const EngineManifestRootKey: string := KeyOf(OrganizationRoot + ["Engine", "Manifest"])
  const EngineSettingsRootKey: string := KeyOf(OrganizationRoot + ["Engine", "Settings"])

  /** The platform codename the Windows build substitutes into the platform key. */
  const WindowsPlatformCodename: string := "windows"

  /** The root and settings key constants of the header. */
  const SettingsKeys: seq<string> := [
    OrganizationRootKey, BuildTargetNameKey, SpecializationsRootKey, BootstrapSettingsRootKey, GemListRootKey]

  /** The runtime, project and engine root key constants of the header. */
  const RuntimeKeys: seq<string> := [
    FilePathsRootKey, CommandLineRootKey, ProjectSettingsRootKey, EngineManifestRootKey, EngineSettingsRootKey]

  /** The file-path keys, each with the name it appends to `FilePathsRootKey`. */
  const FilePathKeys: seq<(string, string)> := [
    (FilePathKey_BinaryFolder, "BinaryFolder"),
    (FilePathKey_EngineRootFolder, "EngineRootFolder"),
    (FilePathKey_CacheProjectRootFolder, "CacheProjectRootFolder"),
    (FilePathKey_CacheRootFolder, "CacheRootFolder"),
    (FilePathKey_ProjectPath, "SourceProjectPath"),
    (FilePathKey_ProjectUserPath, "SourceProjectUserPath"),
    (FilePathKey_DevWriteStorage, "DevWriteStorage")]

  /** Every key constant of the header. */
  const AllKeys: seq<string> := SettingsKeys + RuntimeKeys + seq(|FilePathKeys|, i requires 0 <= i < |FilePathKeys| => FilePathKeys[i].0)

  /** "<rootPath>/<platform>_<keyName>". */
  function PlatformKey(rootPath: string, platform: string, keyName: string): string
  {
    rootPath + "/" + platform + "_" + keyName
  }

  /** "<rootPath>/<keyName>". */
  function GenericKey(rootPath: string, keyName: string): string
  {
    rootPath + "/" + keyName
  }

  /**
   * `PlatformGet`: the value under the platform key when there is one; otherwise
   * exactly the result of looking up the generic key.
   */
  function PlatformGet<T>(registry: map<string, T>, rootPath: string, platform: string, keyName: string): (r: Option<T>)
    ensures r.Some? <==> PlatformKey(rootPath, platform, keyName) in registry || GenericKey(rootPath, keyName) in registry
    ensures PlatformKey(rootPath, platform, keyName) in registry ==> r == Some(registry[PlatformKey(rootPath, platform, keyName)])
    ensures PlatformKey(rootPath, platform, keyName) !in registry && r.Some? ==> r.value == registry[GenericKey(rootPath, keyName)]
  {
    var key := PlatformKey(rootPath, platform, keyName);
    if key in registry then
      Some(registry[key])
    else
      var fallback := GenericKey(rootPath, keyName);
      if fallback in registry then Some(registry[fallback]) else None
  }

  // ---------------------------------------------------------------------------
  // Properties
  // ---------------------------------------------------------------------------

  /** The platform key and the generic key are different keys, whatever the platform. */
  lemma PlatformKeyDiffersFromGeneric(rootPath: string, platform: string, keyName: string)
    ensures PlatformKey(rootPath, platform, keyName) != GenericKey(rootPath, keyName)
  {
    assert |PlatformKey(rootPath, platform, keyName)| > |GenericKey(rootPath, keyName)|;
  }

  /** Storing a platform-specific value shadows whatever the generic key holds. */
  lemma PlatformValueShadowsGeneric<T>(registry: map<string, T>, rootPath: string, platform: string, keyName: string, v: T)
    ensures PlatformGet(registry[PlatformKey(rootPath, platform, keyName) := v], rootPath, platform, keyName) == Some(v)
  {
  }

  /** Without a platform-specific value, the generic value is read, and changing it changes the result. */
  lemma {:induction false} GenericValueIsFallback<T>(registry: map<string, T>, rootPath: string, platform: string, keyName: string, v: T)
    requires PlatformKey(rootPath, platform, keyName) !in registry
    ensures PlatformGet(registry[GenericKey(rootPath, keyName) := v], rootPath, platform, keyName) == Some(v)
  {
    PlatformKeyDiffersFromGeneric(rootPath, platform, keyName);
  }

  /** The lookup on Windows reads "<rootPath>/windows_<keyName>" first. */
  lemma WindowsPlatformKey(rootPath: string, keyName: string)
    ensures PlatformKey(rootPath, WindowsPlatformCodename, keyName) == rootPath + "/windows_" + keyName
  {
  }

  /** A key with one more segment is the key of the others, '/', and that segment. */
  lemma KeyOfSnoc(segments: seq<string>, name: string)
    ensures KeyOf(segments + [name]) == GenericKey(KeyOf(segments), name)
  {
    assert (segments + [name])[..|segments|] == segments;
  }

  /** A key is a prefix of the key of any longer segment list. */
  lemma {:induction false} KeyOfPrefix(segments: seq<string>, more: seq<string>)
    ensures KeyOf(segments) <= KeyOf(segments + more)
    decreases |more|
  {
    if |more| != 0 {
      var init := more[..|more| - 1];
      var last := more[|more| - 1];
      KeyOfPrefix(segments, init);
      assert segments + more == (segments + init) + [last];
      KeyOfSnoc(segments + init, last);
      var k := KeyOf(segments + init);
      assert KeyOf(segments + more) == k + ("/" + last);
      var short := KeyOf(segments);
      assert k[..|short|] == short;
      assert (k + ("/" + last))[..|short|] == short;
    } else {
      assert segments + more == segments;
    }
  }

  /** The organization root key is "/Amazon". */
  lemma OrganizationRootText()
    ensures OrganizationRootKey == "/Amazon"
  {
    KeyOfSnoc([], "Amazon");
    assert [] + ["Amazon"] == OrganizationRoot;
  }

  /** The file-paths root key is "/Amazon/AzCore/Runtime/FilePaths". */
  lemma FilePathsRootText()
    ensures FilePathsRootKey == "/Amazon/AzCore/Runtime/FilePaths"
  {
    OrganizationRootText();
    KeyOfSnoc(OrganizationRoot, "AzCore");
    KeyOfSnoc(OrganizationRoot + ["AzCore"], "Runtime");
    KeyOfSnoc(OrganizationRoot + ["AzCore", "Runtime"], "FilePaths");
    assert OrganizationRoot + ["AzCore"] + ["Runtime"] == OrganizationRoot + ["AzCore", "Runtime"];
    assert OrganizationRoot + ["AzCore", "Runtime"] + ["FilePaths"] == FilePathsRoot;
  }

  /** The root and settings keys lie under the organization root. */
  lemma SettingsKeysUnderOrganizationRoot()
    ensures forall k :: k in SettingsKeys ==> OrganizationRootKey <= k
  {
    KeyOfPrefix(OrganizationRoot, []);
    assert OrganizationRoot + [] == OrganizationRoot;
    KeyOfPrefix(OrganizationRoot, ["AzCore", "Settings", "BuildTargetName"]);
    KeyOfPrefix(OrganizationRoot, ["AzCore", "Settings", "Specializations"]);
    KeyOfPrefix(OrganizationRoot, ["AzCore", "Bootstrap"]);
    KeyOfPrefix(OrganizationRoot, ["AzCore", "Gems"]);
  }

  /** The runtime, project and engine keys lie under the organization root. */
  lemma RuntimeKeysUnderOrganizationRoot()
    ensures forall k :: k in RuntimeKeys ==> OrganizationRootKey <= k
  {
    KeyOfPrefix(OrganizationRoot, ["AzCore", "Runtime", "FilePaths"]);
    KeyOfPrefix(OrganizationRoot, ["AzCore", "Runtime", "CommandLine"]);
    KeyOfPrefix(OrganizationRoot, ["Project", "Settings"]);
    KeyOfPrefix(OrganizationRoot, ["Engine", "Manifest"]);
    KeyOfPrefix(OrganizationRoot, ["Engine", "Settings"]);
  }

  /** The file-path keys lie under the organization root. */
  lemma FilePathKeysUnderOrganizationRoot()
    ensures forall p :: p in FilePathKeys ==> OrganizationRootKey <= p.0
  {
    var rest := ["AzCore", "Runtime", "FilePaths"];
    forall p | p in FilePathKeys ensures OrganizationRootKey <= p.0 {
      assert FilePathsRoot + [p.1] == OrganizationRoot + (rest + [p.1]);
      KeyOfPrefix(OrganizationRoot, rest + [p.1]);
    }
  }

  /** Every key constant lies under the organization root "/Amazon". */
  lemma KeysUnderOrganizationRoot()
    ensures forall k :: k in AllKeys ==> OrganizationRootKey <= k
  {
    SettingsKeysUnderOrganizationRoot();
    RuntimeKeysUnderOrganizationRoot();
    FilePathKeysUnderOrganizationRoot();
    var fromFilePaths := seq(|FilePathKeys|, i requires 0 <= i < |FilePathKeys| => FilePathKeys[i].0);
    forall k | k in AllKeys ensures OrganizationRootKey <= k {
      if k in fromFilePaths {
        var i :| 0 <= i < |FilePathKeys| && fromFilePaths[i] == k;
        assert FilePathKeys[i] in FilePathKeys;
      }
    }
  }

  /** Every file-path key is `FilePathsRootKey`, a '/', and its name. */
  lemma FilePathKeysUnderFilePathsRoot()
    ensures FilePathsRootKey == "/Amazon/AzCore/Runtime/FilePaths"
    ensures forall p :: p in FilePathKeys ==> p.0 == FilePathsRootKey + "/" + p.1
  {
    FilePathsRootText();
    forall p | p in FilePathKeys ensures p.0 == FilePathsRootKey + "/" + p.1 {
      KeyOfSnoc(FilePathsRoot, p.1);
    }
  }
}

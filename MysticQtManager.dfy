/**
 * `MysticQtManager`: the EMotion FX Qt helper that caches icons by file name, and
 * the `Initializer` that creates and destroys the single global manager.
 *
 * File names are compared case-insensitively, as `StringFunc::Equal` does with
 * case sensitivity off; case folding is ASCII only. A `QIcon` is modelled by the
 * data directory and file name it was loaded from.
 */
module MysticQtManager {
  import opened Wrappers

  /** ASCII lower-casing, as `tolower` in the C locale. */
  function ToLower(c: char): (r: char)
    ensures 'A' <= c <= 'Z' ==> r == (c as int + 32) as char
    ensures !('A' <= c <= 'Z') ==> r == c
  {
    if 'A' <= c <= 'Z' then (c as int + 32) as char else c
  }

  /** Equal ignoring ASCII case. */
  predicate EqualNoCase(a: string, b: string)
  {
    |a| == |b| && forall i :: 0 <= i < |a| ==> ToLower(a[i]) == ToLower(b[i])
  }

  /** A loaded icon: the file `fileName` in the directory `dataDir`. */
  datatype Icon = Icon(dataDir: string, fileName: string)

  /** `IconData`: the name the icon was requested by, and the icon. */
  datatype IconData = IconData(fileName: string, icon: Icon)

  /** The index of the first entry from `from` on whose name equals `filename` ignoring case. */
  function FirstMatch(icons: seq<IconData>, filename: string, from: nat): (r: Option<nat>)
    requires from <= |icons|
    ensures r.Some? ==> from <= r.value < |icons| && EqualNoCase(icons[r.value].fileName, filename)
    ensures r.Some? ==> forall j :: from <= j < r.value ==> !EqualNoCase(icons[j].fileName, filename)
    ensures r.None? ==> forall j :: from <= j < |icons| ==> !EqualNoCase(icons[j].fileName, filename)
    decreases |icons| - from
  {
    if from == |icons| then None
    else if EqualNoCase(icons[from].fileName, filename) then Some(from)
    else FirstMatch(icons, filename, from + 1)
  }

  /** The cache and the icon after `FindIcon(filename)`: a hit returns the cached icon, a miss loads and appends one. */
  function Lookup(icons: seq<IconData>, dataDir: string, filename: string): (seq<IconData>, Icon)
  {
    var m := FirstMatch(icons, filename, 0);
    if m.Some? then (icons, icons[m.value].icon)
    else (icons + [IconData(filename, Icon(dataDir, filename))], Icon(dataDir, filename))
  }

  /** No two entries of the cache have names that are equal ignoring case. */
  predicate DistinctNoCase(icons: seq<IconData>)
  {
    forall i, j :: 0 <= i < j < |icons| ==> !EqualNoCase(icons[i].fileName, icons[j].fileName)
  }

  class Manager {
    var icons: seq<IconData>
    var appDir: string
    var dataDir: string

    /** `MysticQtManager()`: an empty cache. */
    constructor ()
      ensures icons == [] && appDir == "" && dataDir == ""
    {
      icons := [];
      appDir := "";
      dataDir := "";
    }

    method SetAppDir(dir: string)
      modifies this
      ensures appDir == dir && icons == old(icons) && dataDir == old(dataDir)
    {
      appDir := dir;
    }

    method SetDataDir(dir: string)
      modifies this
      ensures dataDir == dir && icons == old(icons) && appDir == old(appDir)
    {
      dataDir := dir;
    }

    /**
     * `FindIcon`: the first cached icon whose name matches ignoring case, else a
     * newly loaded one. The source's `IconData` reads the data directory of the
     * global manager; here it is this manager's, which is the same object
     * whenever the global manager is the one asked.
     */
    method FindIcon(filename: string) returns (icon: Icon)
      modifies this
      ensures (icons, icon) == Lookup(old(icons), dataDir, filename)
      ensures dataDir == old(dataDir) && appDir == old(appDir)
    {
      for i := 0 to |icons|
        invariant forall j :: 0 <= j < i ==> !EqualNoCase(icons[j].fileName, filename)
      {
        if EqualNoCase(icons[i].fileName, filename) {
          return icons[i].icon;
        }
      }
      var iconData := IconData(filename, Icon(dataDir, filename));
      icons := icons + [iconData];
      return iconData.icon;
    }

    /** `~MysticQtManager`: every icon is destroyed and the list cleared. */
    method Destroy()
      modifies this
      ensures icons == [] && appDir == old(appDir) && dataDir == old(dataDir)
    {
      icons := [];
    }
  }

  /** The global `gMysticQtManager` pointer and the `Initializer` functions on it. */
  class Globals {
    var manager: Manager?

    constructor ()
      ensures manager == null
    {
      manager := null;
    }

    /** `Initializer::Init`: keeps an existing manager, otherwise creates one with the given directories. */
    method Init(appDir: string, dataDir: string) returns (ok: bool)
      modifies this
      ensures ok
      ensures old(manager) != null ==> manager == old(manager)
      ensures old(manager) == null ==>
                manager != null && fresh(manager) && manager.icons == []
                && manager.appDir == appDir && manager.dataDir == dataDir
    {
      if manager != null {
        return true;
      }
      var m := new Manager();
      m.SetAppDir(appDir);
      m.SetDataDir(dataDir);
      manager := m;
      return true;
    }

    /** `Initializer::Shutdown`: destroys the manager, if any, and clears the pointer. */
    method Shutdown()
      modifies this, manager
      ensures manager == null
      ensures old(manager) != null ==> old(manager).icons == []
    {
      if manager != null {
        manager.Destroy();
      }
      manager := null;
    }
  }

  // ---------------------------------------------------------------------------
  // Properties
  // ---------------------------------------------------------------------------

  /** A hit leaves the cache as it was and returns the icon of the first matching entry. */
  lemma {:induction false} LookupHit(icons: seq<IconData>, dataDir: string, filename: string, i: nat)
    requires i < |icons| && EqualNoCase(icons[i].fileName, filename)
    ensures Lookup(icons, dataDir, filename).0 == icons
    ensures exists j :: 0 <= j <= i && EqualNoCase(icons[j].fileName, filename) && Lookup(icons, dataDir, filename).1 == icons[j].icon
  {
    var m := FirstMatch(icons, filename, 0);
    assert m.Some?;
    assert m.value <= i;
  }

  /** A miss appends exactly one entry named `filename`; earlier entries keep their order. */
  lemma LookupMiss(icons: seq<IconData>, dataDir: string, filename: string)
    requires forall j :: 0 <= j < |icons| ==> !EqualNoCase(icons[j].fileName, filename)
    ensures Lookup(icons, dataDir, filename).0 == icons + [IconData(filename, Icon(dataDir, filename))]
    ensures Lookup(icons, dataDir, filename).1 == Icon(dataDir, filename)
  {
  }

  /**
   * A lookup keeps the cache free of two entries that match ignoring case. This is
   * the step of an induction over any sequence of lookups that starts from the
   * empty cache of `Manager.constructor`.
   */
  lemma LookupKeepsDistinct(icons: seq<IconData>, dataDir: string, filename: string)
    requires DistinctNoCase(icons)
    ensures DistinctNoCase(Lookup(icons, dataDir, filename).0)
  {
  }

  /** After a lookup, looking the same name up again is a hit that returns the same icon. */
  lemma {:induction false} LookupIdempotent(icons: seq<IconData>, dataDir: string, filename: string)
    ensures var (cache, icon) := Lookup(icons, dataDir, filename);
            Lookup(cache, dataDir, filename) == (cache, icon)
  {
    var (cache, icon) := Lookup(icons, dataDir, filename);
    if FirstMatch(icons, filename, 0).None? {
      EqualNoCaseReflexive(filename);
      assert cache[|icons|].fileName == filename;
      assert forall j :: 0 <= j < |icons| ==> cache[j] == icons[j];
      var m := FirstMatch(cache, filename, 0);
      assert m.Some? && m.value == |icons|;
    }
  }

  lemma EqualNoCaseReflexive(a: string)
    ensures EqualNoCase(a, a)
  {
  }

  /** Names that differ only in ASCII case hit the same entry. */
  lemma {:induction false} CaseVariantsShareEntry(icons: seq<IconData>, dataDir: string, a: string, b: string)
    requires EqualNoCase(a, b)
    ensures FirstMatch(icons, a, 0) == FirstMatch(icons, b, 0)
  {
    forall s: string
      ensures EqualNoCase(s, a) <==> EqualNoCase(s, b)
    {
    }
    FirstMatchRespectsEquivalence(icons, a, b, 0);
  }

  lemma {:induction false} FirstMatchRespectsEquivalence(icons: seq<IconData>, a: string, b: string, from: nat)
    requires from <= |icons|
    requires forall s: string :: EqualNoCase(s, a) <==> EqualNoCase(s, b)
    ensures FirstMatch(icons, a, from) == FirstMatch(icons, b, from)
    decreases |icons| - from
  {
    if from < |icons| {
      FirstMatchRespectsEquivalence(icons, a, b, from + 1);
    }
  }
}

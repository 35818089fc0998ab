/**
 * The two pure string helpers of the legacy Maya asset converter: deriving the
 * search string of a texture file name, and recognising the PBR texture type of a
 * file name that follows the "<search string>_<Type>.<ext>" convention.
 *
 * Python's `str.split`, `str.join`, `str.replace(pattern, '')`, slicing and
 * `os.path.basename` are written out below as the functions they compute.
 */
module IsolateAndAssign {
  import opened Wrappers

  // ---------------------------------------------------------------------------
  // Python string primitives
  // ---------------------------------------------------------------------------

  /** Index of the first `c` in `s` (`s.find(c)` when it is present). */
  function FirstIndex(s: string, c: char): (i: nat)
    requires c in s
    ensures i < |s| && s[i] == c && c !in s[..i]
  {
    if s[0] == c then 0 else 1 + FirstIndex(s[1..], c)
  }

  /** `s.split(c)` for a one-character separator. */
  function Split(s: string, c: char): (parts: seq<string>)
    ensures |parts| >= 1
    decreases |s|
  {
    if c in s then
      var i := FirstIndex(s, c);
      [s[..i]] + Split(s[i + 1..], c)
    else
      [s]
  }

  /** `c.join(parts)` for a one-character glue string. */
  function Join(parts: seq<string>, c: char): string
  {
    if |parts| == 0 then ""
    else if |parts| == 1 then parts[0]
    else parts[0] + [c] + Join(parts[1..], c)
  }

  /** `s[1:]`: everything but the first character, or "" when `s` is empty. */
  function DropFirst(s: string): (r: string)
  {
    if |s| == 0 then "" else s[1..]
  }

  /** `os.path.basename` on a POSIX path: the text after the last '/'. */
  function Basename(path: string): (name: string)
    ensures '/' !in name
    ensures |name| <= |path| && path[|path| - |name|..] == name
    ensures '/' !in path ==> name == path
    decreases |path|
  {
    if '/' in path then
      var i := FirstIndex(path, '/');
      var name := Basename(path[i + 1..]);
      assert path[i + 1..][|path[i + 1..]| - |name|..] == path[|path| - |name|..];
      name
    else
      path
  }

  /** True when `p` occurs in `s` at position `i`. */
  predicate OccursAt(s: string, p: string, i: nat)
  {
    i + |p| <= |s| && s[i..i + |p|] == p
  }

  /** `s.replace(p, '')`: a left-to-right scan that deletes non-overlapping occurrences of `p`. */
  function RemoveAll(s: string, p: string): string
    decreases |s|
  {
    if |p| == 0 || |s| == 0 then s
    else if p <= s then RemoveAll(s[|p|..], p)
    else [s[0]] + RemoveAll(s[1..], p)
  }

  // ---------------------------------------------------------------------------
  // The two helpers
  // ---------------------------------------------------------------------------

  /** The file name of a path up to its first '.': `os.path.basename(p).split('.')[0]`. */
  function Stem(textureName: string): string
  {
    Split(Basename(textureName), '.')[0]
  }

  /** `'_'.join(stem.split('_')[:-1])`: the stem without its last '_'-separated segment. */
  function DropLastSegment(stem: string): string
  {
    var basenameList := Split(stem, '_');
    Join(basenameList[..|basenameList| - 1], '_')
  }

  /** `get_search_string`: the file stem without its last '_'-separated segment. */
  function GetSearchString(textureName: string): (search: string)
    ensures search <= Stem(textureName)
  {
    DropLastSegmentIsPrefix(Stem(textureName));
    DropLastSegment(Stem(textureName))
  }

  const TextureTypes: seq<string> := ["BaseColor", "Metallic", "Normal", "Emissive", "Roughness"]

  /** `get_texture_type`: the PBR type named by `fileName` once the search string is removed, or None. */
  function GetTextureType(searchString: string, fileName: string): (r: Option<string>)
    ensures r.Some? ==> r.value in TextureTypes
  {
    var targetString := RemoveAll(fileName, searchString);
    var base := Split(targetString, '.')[0];
    if DropFirst(base) in TextureTypes then Some(DropFirst(base)) else None
  }

  // ---------------------------------------------------------------------------
  // Properties
  // ---------------------------------------------------------------------------

  /** The first piece of a split is the text before the first separator. */
  lemma {:induction false} SplitHead(s: string, c: char)
    ensures c !in Split(s, c)[0]
    ensures c in s ==> Split(s, c)[0] == s[..FirstIndex(s, c)]
    ensures c !in s ==> Split(s, c)[0] == s
  {
  }

  /** No piece of a split contains the separator. */
  lemma {:induction false} SplitPiecesFree(s: string, c: char)
    ensures forall k :: 0 <= k < |Split(s, c)| ==> c !in Split(s, c)[k]
    decreases |s|
  {
    if c in s {
      var i := FirstIndex(s, c);
      SplitPiecesFree(s[i + 1..], c);
    }
  }

  /** Joining the pieces of a split with the same separator gives back the string. */
  lemma {:induction false} JoinSplit(s: string, c: char)
    ensures Join(Split(s, c), c) == s
    decreases |s|
  {
    if c in s {
      var i := FirstIndex(s, c);
      var rest := Split(s[i + 1..], c);
      assert Split(s, c) == [s[..i]] + rest;
      assert ([s[..i]] + rest)[1..] == rest;
      JoinSplit(s[i + 1..], c);
      calc {
        Join(Split(s, c), c);
        s[..i] + [c] + Join(rest, c);
        s[..i] + [c] + s[i + 1..];
        { assert s == s[..i] + [c] + s[i + 1..]; }
        s;
      }
    }
  }

  /** Joining all pieces equals joining all but the last, the glue, and the last. */
  lemma {:induction false} JoinSnoc(parts: seq<string>, c: char)
    requires |parts| >= 2
    ensures Join(parts, c) == Join(parts[..|parts| - 1], c) + [c] + parts[|parts| - 1]
    decreases |parts|
  {
    if |parts| > 2 {
      JoinSnoc(parts[1..], c);
      assert parts[1..][..|parts| - 2] == parts[..|parts| - 1][1..];
    }
  }

  /** A stem without '_' gives the empty search string. */
  lemma SearchStringWithoutUnderscore(textureName: string)
    requires '_' !in Stem(textureName)
    ensures GetSearchString(textureName) == ""
  {
  }

  /**
   * For a stem that contains '_', the search string, a '_' and the stem's last
   * '_'-separated segment give back the stem; the last segment holds no '_'.
   */
  lemma {:induction false} SearchStringSplitsStem(textureName: string)
    requires '_' in Stem(textureName)
    ensures var stem := Stem(textureName);
            var last := Split(stem, '_')[|Split(stem, '_')| - 1];
            GetSearchString(textureName) + "_" + last == stem && '_' !in last
  {
    var stem := Stem(textureName);
    var parts := Split(stem, '_');
    assert |parts| >= 2 by {
      var i := FirstIndex(stem, '_');
      assert parts == [stem[..i]] + Split(stem[i + 1..], '_');
    }
    JoinSnoc(parts, '_');
    JoinSplit(stem, '_');
    SplitPiecesFree(stem, '_');
  }

  lemma PrefixOfConcat(a: string, b: string)
    ensures a <= a + b
  {
    assert (a + b)[..|a|] == a;
  }

  /** Dropping the last segment keeps a prefix of the stem. */
  lemma {:induction false} DropLastSegmentIsPrefix(stem: string)
    ensures DropLastSegment(stem) <= stem
  {
    var parts := Split(stem, '_');
    var search := DropLastSegment(stem);
    if |parts| >= 2 {
      var last := parts[|parts| - 1];
      assert search == Join(parts[..|parts| - 1], '_');
      JoinSnoc(parts, '_');
      JoinSplit(stem, '_');
      assert stem == search + ['_'] + last;
      assert stem[..|search|] == search;
    } else {
      assert search == "";
    }
  }

  /** The search string is a prefix of the stem, so it carries no '.' and no '/'. */
  lemma {:induction false} SearchStringIsInsideStem(textureName: string)
    ensures GetSearchString(textureName) <= Stem(textureName)
    ensures '.' !in GetSearchString(textureName)
    ensures '/' !in GetSearchString(textureName)
  {
    var stem := Stem(textureName);
    SplitHead(Basename(textureName), '.');
    assert '.' !in stem && '/' !in stem;
    DropLastSegmentIsPrefix(stem);
    var search := GetSearchString(textureName);
    forall k | 0 <= k < |search| ensures search[k] != '.' && search[k] != '/' {
      assert search[k] == stem[k];
    }
  }

  /** Deleting a pattern that does not occur leaves the string unchanged. */
  lemma {:induction false} RemoveAllAbsent(s: string, p: string)
    requires forall i :: 0 <= i <= |s| ==> !OccursAt(s, p, i)
    ensures RemoveAll(s, p) == s
    decreases |s|
  {
    if |p| != 0 && |s| != 0 {
      assert !OccursAt(s, p, 0);
      assert !(p <= s);
      forall i | 0 <= i <= |s[1..]| ensures !OccursAt(s[1..], p, i) {
        assert !OccursAt(s, p, i + 1);
        if i + |p| <= |s[1..]| {
          assert s[1..][i..i + |p|] == s[i + 1..i + 1 + |p|];
        }
      }
      RemoveAllAbsent(s[1..], p);
    }
  }

  /** Removing a pattern that starts the string removes it and continues after it. */
  lemma RemoveAllLeading(p: string, rest: string)
    requires |p| != 0
    ensures RemoveAll(p + rest, p) == RemoveAll(rest, p)
  {
    assert (p + rest)[..|p|] == p;
    assert (p + rest)[|p|..] == rest;
  }

  /** The text before the first '.' of "<sep><Type>.<extension>" is "<sep><Type>". */
  lemma HeadBeforeDot(head: string, extension: string)
    requires '.' !in head
    ensures Split(head + "." + extension, '.')[0] == head
  {
    var rest := head + "." + extension;
    assert rest[|head|] == '.';
    assert rest[..|head|] == head;
    assert FirstIndex(rest, '.') == |head|;
    SplitHead(rest, '.');
  }

  /**
   * A file named "<search string><separator><Type>.<extension>", where the search
   * string occurs nowhere after its first occurrence, has type `Type`. The empty
   * search string occurs everywhere, so it cannot meet the requires here; its case
   * is `EmptySearchStringTypesByName`.
   */
  lemma ConventionalNameHasItsType(searchString: string, sep: char, textureType: string, extension: string)
    requires textureType in TextureTypes
    requires sep != '.'
    requires var rest := [sep] + textureType + "." + extension;
             forall i :: 0 <= i <= |rest| ==> !OccursAt(rest, searchString, i)
    ensures GetTextureType(searchString, searchString + [sep] + textureType + "." + extension) == Some(textureType)
  {
    var head := [sep] + textureType;
    var rest := head + "." + extension;
    var fileName := searchString + rest;
    assert fileName == searchString + [sep] + textureType + "." + extension;
    RemoveAllAbsent(rest, searchString);
    if |searchString| != 0 {
      RemoveAllLeading(searchString, rest);
    }
    assert '.' !in textureType;
    HeadBeforeDot(head, extension);
    assert DropFirst(head) == textureType;
  }

  /** The empty search string deletes nothing: "<c><Type>.<extension>" has type `Type`. */
  lemma EmptySearchStringTypesByName(first: char, textureType: string, extension: string)
    requires textureType in TextureTypes
    requires first != '.'
    ensures GetTextureType("", [first] + textureType + "." + extension) == Some(textureType)
  {
    var head := [first] + textureType;
    var fileName := head + "." + extension;
    assert [first] + textureType + "." + extension == fileName;
    assert RemoveAll(fileName, "") == fileName;
    assert '.' !in textureType;
    HeadBeforeDot(head, extension);
    assert DropFirst(head) == textureType;
  }

  /**
   * A stem without '_' gives the empty search string: a file named
   * "<c><Type>.<extension>" then has type `Type`, whatever its first character.
   */
  lemma StemWithoutUnderscoreTypesByName(textureName: string, first: char, textureType: string, extension: string)
    requires '_' !in Stem(textureName)
    requires textureType in TextureTypes
    requires first != '.'
    ensures GetTextureType(GetSearchString(textureName), [first] + textureType + "." + extension) == Some(textureType)
  {
    assert GetSearchString(textureName) == "";
    EmptySearchStringTypesByName(first, textureType, extension);
  }
}

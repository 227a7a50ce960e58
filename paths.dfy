/**
 * File paths: the processed-marker naming rule, the spreadsheet extension
 * filter shared by the folder watcher and the start-up sweep, and the
 * POSIX `os.path.join` used by the sweep to build a file's path.
 */
module Paths {

  /** Suffix appended to a spreadsheet's path to name its processed marker. */
  const MarkerSuffix: string := ".processed"

  predicate EndsWith(s: string, suffix: string) {
    |suffix| <= |s| && s[|s| - |suffix|..] == suffix
  }

  /** The `endswith(('.xlsx', '.xls'))` filter. */
  predicate IsSpreadsheet(name: string) {
    EndsWith(name, ".xlsx") || EndsWith(name, ".xls")
  }

  /** `f"{path}.processed"`: the marker keeps the whole path as its prefix. */
  function MarkerPath(path: string): (m: string)
    ensures |m| == |path| + |MarkerSuffix|
    ensures m[..|path|] == path && EndsWith(m, MarkerSuffix)
  {
    path + MarkerSuffix
  }

  /** Two different files never share a marker. */
  lemma MarkerPathInjective(p: string, q: string)
    ensures MarkerPath(p) == MarkerPath(q) <==> p == q
  {
    if MarkerPath(p) == MarkerPath(q) {
      calc {
        p;
        MarkerPath(p)[..|p|];
        MarkerPath(q)[..|q|];
        q;
      }
    }
  }

  /**
   * A marker file is never itself a spreadsheet, so the marker written into
   * the watched folder never triggers processing of its own.
   */
  lemma MarkerIsNotSpreadsheet(path: string)
    ensures !IsSpreadsheet(MarkerPath(path))
  {
    var m := MarkerPath(path);
    assert m[|m| - 1] == 'd';
    assert m[|m| - 1] == m[|m| - 5..][4];
    assert m[|m| - 1] == m[|m| - 4..][3];
  }

  /**
   * POSIX `os.path.join(folder, name)`: an absolute name replaces the folder,
   * an empty folder or one ending in a separator is extended directly, and
   * otherwise a single `/` is inserted.
   */
  function Join(folder: string, name: string): (p: string)
    ensures EndsWith(p, name)
    ensures p == name || (|p| > |name| && p[|p| - |name| - 1] == '/')
  {
    if |name| > 0 && name[0] == '/' then name
    else if folder == [] || folder[|folder| - 1] == '/' then folder + name
    else folder + "/" + name
  }

  /** Characters of an extension that is a suffix of `p` but longer than `name`. */
  lemma SlashNotInExtension(p: string, name: string, ext: string)
    requires EndsWith(p, name) && |name| < |ext| && EndsWith(p, ext)
    requires |p| > |name| && p[|p| - |name| - 1] == '/'
    ensures exists k :: 0 <= k < |ext| && ext[k] == '/'
  {
    var k := |ext| - |name| - 1;
    assert ext[k] == p[|p| - |ext|..][k] == p[|p| - |name| - 1];
  }

  /** Suffix of a suffix: a path ending in `name` ends in `ext` exactly when `name` does. */
  lemma SuffixOfSuffix(p: string, name: string, ext: string)
    requires EndsWith(p, name) && |ext| <= |name|
    ensures EndsWith(p, ext) <==> EndsWith(name, ext)
  {
    assert p[|p| - |ext|..] == name[|name| - |ext|..] by {
      assert p[|p| - |name|..] == name;
      assert p[|p| - |ext|..] == p[|p| - |name|..][|name| - |ext|..];
    }
  }

  /**
   * The sweep filters on the bare file name and hands the joined path on;
   * the watcher filters on the full path. Both tests agree.
   */
  lemma {:induction false} JoinKeepsExtension(folder: string, name: string)
    ensures IsSpreadsheet(Join(folder, name)) <==> IsSpreadsheet(name)
  {
    var p := Join(folder, name);
    forall ext | ext == ".xlsx" || ext == ".xls"
      ensures EndsWith(p, ext) <==> EndsWith(name, ext)
    {
      if |ext| <= |name| {
        SuffixOfSuffix(p, name, ext);
      } else if p == name {
      } else if EndsWith(p, ext) {
        SlashNotInExtension(p, name, ext);
      }
    }
  }
}

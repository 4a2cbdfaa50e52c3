/**
 * The database file naming rule shared by `NewDB` (pkg/database/sqlite.go,
 * embed-visualizer/pkg/database/sqlite.go) and `createOutputDatabase` (main.go):
 * `Join(outputDir, TrimSuffix(Base(in), Ext(in)) + "_embeddings.db")`.
 *
 * `Base`, `Ext`, `Clean` and `Join` follow Go's `path/filepath` on a system whose separator
 * is `/`.
 */
module Paths {
  import opened Text

  const Separator: char := '/'
  const DatabaseSuffix: string := "_embeddings.db"

  /** `s` without its trailing separators. */
  function TrimTrailingSlashes(s: string): (r: string)
    ensures |r| <= |s| && r == s[..|r|]
    ensures r == [] || r[|r| - 1] != Separator
    ensures forall k :: |r| <= k < |s| ==> s[k] == Separator
  {
    if s != [] && s[|s| - 1] == Separator then TrimTrailingSlashes(s[..|s| - 1]) else s
  }

  /** The part of `s` after its last separator (all of `s` when it has none). */
  function AfterLastSlash(s: string): (r: string)
    ensures |r| <= |s| && r == s[|s| - |r|..]
    ensures Separator !in r
    ensures r == s || s[|s| - |r| - 1] == Separator
  {
    if s == [] then []
    else if s[|s| - 1] == Separator then []
    else AfterLastSlash(s[..|s| - 1]) + [s[|s| - 1]]
  }

  /** `filepath.Base`: the last element of `path` after trailing separators are dropped;
      `"."` for the empty path and `"/"` for a path of separators only. */
  function Base(path: string): (r: string)
    ensures r != []
    ensures Separator in r ==> r == [Separator]
  {
    if path == [] then "."
    else
      var element := AfterLastSlash(TrimTrailingSlashes(path));
      if element == [] then [Separator] else element
  }

  /** The extension found scanning `path` backwards from position `i`, past characters that
      are neither separators nor dots: from the last dot of the final element to the end of
      `path`, or empty when a separator (or the start) comes first. */
  function ExtFrom(path: string, i: nat): (r: string)
    requires i <= |path|
    requires forall k :: i <= k < |path| ==> path[k] != Separator && path[k] != '.'
    ensures r == [] || (r[0] == '.' && HasSuffix(path, r))
    ensures Separator !in r
    ensures forall k :: 0 < k < |r| ==> r[k] != '.'
  {
    if i == 0 then []
    else if path[i - 1] == Separator then []
    else if path[i - 1] == '.' then path[i - 1..]
    else ExtFrom(path, i - 1)
  }

  /** `filepath.Ext`: the suffix of `path` from the last dot of its final element, or empty
      when that element has no dot. It looks at `path` as given, trailing separator
      included. */
  function Ext(path: string): (r: string)
    ensures r == [] || (r[0] == '.' && HasSuffix(path, r))
    ensures Separator !in r
    ensures forall k :: 0 < k < |r| ==> r[k] != '.'
  {
    ExtFrom(path, |path|)
  }

  /** The file name the database gets: the input's base name without its extension, then
      `_embeddings.db`. */
  function DatabaseName(inputFile: string): string
  {
    TrimSuffix(Base(inputFile), Ext(inputFile)) + DatabaseSuffix
  }

  /** A path element: non-empty, no separator, neither `.` nor `..`. */
  predicate IsElement(e: string)
  {
    e != [] && Separator !in e && e != "." && e != ".."
  }

  /** The elements of `path` between its separators, leaving out the empty and `.` ones,
      which `filepath.Clean` drops. */
  function Elements(path: string): seq<string>
    decreases |path|
  {
    var last := AfterLastSlash(path);
    if last == path then Kept(last) else Elements(path[..|path| - |last| - 1]) + Kept(last)
  }

  /** A piece between separators as an element: none when it is empty or `.`. */
  function Kept(piece: string): seq<string>
  {
    if piece == [] || piece == "." then [] else [piece]
  }

  /** One element of `filepath.Clean`'s scan over `kept`: `..` removes the last kept element
      unless that is `..` too; with nothing to remove it is dropped at the root and kept in a
      relative path; any other element is kept. */
  function CleanStep(rooted: bool, kept: seq<string>, e: string): seq<string>
  {
    if e != ".." then kept + [e]
    else if kept != [] && kept[|kept| - 1] != ".." then kept[..|kept| - 1]
    else if rooted then kept
    else kept + [".."]
  }

  /** The elements `filepath.Clean` keeps, scanning `elements` from the left. */
  function Resolve(rooted: bool, elements: seq<string>): seq<string>
  {
    if elements == [] then []
    else CleanStep(rooted, Resolve(rooted, elements[..|elements| - 1]), elements[|elements| - 1])
  }

  /** Whether `path` starts at the root. */
  predicate Rooted(path: string)
  {
    path != [] && path[0] == Separator
  }

  /** The kept elements written out: one separator between them, one in front at the root,
      and `.` for nothing at all. */
  function Render(rooted: bool, kept: seq<string>): string
  {
    if kept == [] then (if rooted then [Separator] else ".")
    else (if rooted then [Separator] else []) + Join(kept, [Separator])
  }

  /** `filepath.Clean`: single separators, no `.` elements, each inner `..` removed with the
      element before it, no `..` right after the root, no trailing separator; `.` (or `/` at
      the root) when nothing is left. */
  function Clean(path: string): string
  {
    Render(Rooted(path), Resolve(Rooted(path), Elements(path)))
  }

  /** `s` without its leading separators. */
  function TrimLeadingSlashes(s: string): (r: string)
    ensures |r| <= |s| && r == s[|s| - |r|..]
    ensures r == [] || r[0] != Separator
  {
    if s != [] && s[0] == Separator then TrimLeadingSlashes(s[1..]) else s
  }

  /** `filepath.Join(dir, elem)`: the two joined by one separator and cleaned; an empty
      `dir` is skipped, and two empty arguments give the empty path. */
  function JoinPath(dir: string, elem: string): string
  {
    if dir != [] then Clean(dir + [Separator] + elem)
    else if elem != [] then Clean(elem)
    else []
  }

  /** The database name is one path element, written with one leading separator only when
      the input is the root directory. */
  lemma {:induction false} DatabaseNameIsElement(inputFile: string)
    ensures IsElement(TrimLeadingSlashes(DatabaseName(inputFile)))
  {
    var base := Base(inputFile);
    var stem := TrimSuffix(base, Ext(inputFile));
    if Separator in base {
      assert stem == [Separator];
      RootName(stem);
    } else {
      assert Separator !in stem;
      ElementName(stem);
    }
  }

  /** The root's base name gives the bare suffix once its separator is dropped. */
  lemma {:induction false} RootName(stem: string)
    requires stem == [Separator]
    ensures IsElement(TrimLeadingSlashes(stem + DatabaseSuffix))
  {
    var name := stem + DatabaseSuffix;
    assert name[1..] == DatabaseSuffix;
    assert DatabaseSuffix[0] == '_';
    assert TrimLeadingSlashes(name) == DatabaseSuffix;
    SuffixIsElement();
  }

  /** A separator-free stem gives a separator-free name. */
  lemma {:induction false} ElementName(stem: string)
    requires Separator !in stem
    ensures IsElement(TrimLeadingSlashes(stem + DatabaseSuffix))
  {
    var name := stem + DatabaseSuffix;
    assert name[|name| - 1] == 'b';
    assert Separator !in name by {
      forall k | 0 <= k < |name| ensures name[k] != Separator {
        if k >= |stem| {
          assert name[k] == DatabaseSuffix[k - |stem|];
        } else {
          assert name[k] == stem[k];
        }
      }
    }
    assert TrimLeadingSlashes(name) == name;
  }

  /** The path of the database for `inputFile` in `outputDir`. */
  function DatabasePath(inputFile: string, outputDir: string): string
  {
    JoinPath(outputDir, DatabaseName(inputFile))
  }

  /** After a separator, the last element is what follows it. */
  lemma {:induction false} AfterLastSlashAppend(p: string, e: string)
    requires Separator !in e
    ensures AfterLastSlash(p + [Separator] + e) == e
  {
    var s := p + [Separator] + e;
    if e != [] {
      assert s[..|s| - 1] == p + [Separator] + e[..|e| - 1];
      AfterLastSlashAppend(p, e[..|e| - 1]);
    }
  }

  /** Scanning for the extension never looks past the last separator. */
  lemma {:induction false} ExtFromAppend(p: string, name: string, i: nat)
    requires i <= |name|
    requires forall k :: i <= k < |name| ==> name[k] != Separator && name[k] != '.'
    ensures ExtFrom(p + [Separator] + name, |p| + 1 + i) == ExtFrom(name, i)
  {
    var path := p + [Separator] + name;
    if i == 0 {
      assert path[|p|] == Separator;
    } else {
      assert path[|p| + i] == name[i - 1];
      if name[i - 1] == '.' {
        assert path[|p| + i..] == name[i - 1..];
      } else if name[i - 1] != Separator {
        ExtFromAppend(p, name, i - 1);
      }
    }
  }

  /** `Base` and `Ext` of a path ending in an element are those of the element alone. */
  lemma {:induction false} LastElement(p: string, name: string)
    requires name != [] && Separator !in name
    ensures Base(p + [Separator] + name) == name && Base(name) == name
    ensures Ext(p + [Separator] + name) == Ext(name)
  {
    BaseOfLastElement(p, name);
    BaseOfElement(name);
    ExtOfLastElement(p, name);
  }

  /** `Ext` of a path ending in an element. */
  lemma {:induction false} ExtOfLastElement(p: string, name: string)
    ensures Ext(p + [Separator] + name) == Ext(name)
  {
    var path := p + [Separator] + name;
    assert |path| == |p| + 1 + |name|;
    ExtFromAppend(p, name, |name|);
  }

  /** `Base` of a path ending in an element. */
  lemma {:induction false} BaseOfLastElement(p: string, name: string)
    requires name != [] && Separator !in name
    ensures Base(p + [Separator] + name) == name
  {
    var path := p + [Separator] + name;
    assert path[|path| - 1] == name[|name| - 1];
    assert TrimTrailingSlashes(path) == path;
    AfterLastSlashAppend(p, name);
  }

  /** `Base` of an element alone. */
  lemma {:induction false} BaseOfElement(name: string)
    requires name != [] && Separator !in name
    ensures Base(name) == name
  {
    assert TrimTrailingSlashes(name) == name by {
      assert name[|name| - 1] in name;
    }
    AfterLastSlashOfElement(name);
  }

  /** A string without separators is its own last element. */
  lemma {:induction false} AfterLastSlashOfElement(name: string)
    requires Separator !in name
    ensures AfterLastSlash(name) == name
  {
    assert forall k :: 0 <= k < |name| ==> name[k] != Separator;
  }

  /** The suffix is a path element. */
  lemma {:induction false} SuffixIsElement()
    ensures IsElement(DatabaseSuffix)
  {
    forall k | 0 <= k < |DatabaseSuffix|
      ensures DatabaseSuffix[k] != Separator
    {
    }
  }

  /** Directories in the input path are dropped: only its final element names the
      database. */
  lemma {:induction false} DatabaseNameDropsDirectories(dir: string, name: string)
    requires name != [] && Separator !in name
    ensures DatabaseName(dir + [Separator] + name) == DatabaseName(name)
  {
    LastElement(dir, name);
  }

  /** Only the last extension is removed: `stem.ext` gives `stem_embeddings.db` (so
      `book.tar.gz` gives `book.tar_embeddings.db`, and a dot-file such as `.notes` gives
      `_embeddings.db`). */
  lemma {:induction false} DatabaseNameRemovesLastExtension(stem: string, ext: string)
    requires Separator !in stem && Separator !in ext && '.' !in ext
    ensures DatabaseName(stem + "." + ext) == stem + DatabaseSuffix
  {
    var dotExt := ['.'] + ext;
    var name := stem + dotExt;
    assert stem + "." + ext == name;
    assert Separator !in name;
    assert name[|stem|] == '.' && name[|stem|..] == dotExt && name[..|stem|] == stem;
    ExtScanToDot(name, |stem|, |name|);
    assert Ext(name) == dotExt;
    assert Base(name) == name by {
      assert TrimTrailingSlashes(name) == name;
    }
    assert TrimSuffix(name, dotExt) == stem;
  }

  /** `filepath.Ext` is empty exactly when the final element holds no dot. */
  lemma {:induction false} ExtEmptyIff(path: string)
    ensures Ext(path) == [] <==> '.' !in AfterLastSlash(path)
  {
    var last := AfterLastSlash(path);
    if last != path {
      var p := path[..|path| - |last| - 1];
      assert path == p + [Separator] + last;
      ExtOfLastElement(p, last);
    }
    ElementExtEmptyIff(last);
  }

  /** The extension of one element is empty exactly when the element holds no dot. */
  lemma {:induction false} ElementExtEmptyIff(e: string)
    requires Separator !in e
    ensures Ext(e) == [] <==> '.' !in e
  {
    if '.' in e {
      assert e[..|e|] == e;
      DotGivesExt(e, |e|);
    } else {
      ExtWithoutDot(e, |e|);
    }
  }

  /** A dot before `i` in a separator-free element, with no dot from `i` on, is found by the
      backward scan. */
  lemma {:induction false} DotGivesExt(e: string, i: nat)
    requires Separator !in e
    requires 0 < i <= |e| && '.' in e[..i]
    requires forall k :: i <= k < |e| ==> e[k] != '.'
    ensures ExtFrom(e, i) != []
  {
    if e[i - 1] != '.' {
      assert '.' in e[..i - 1] by {
        assert e[..i] == e[..i - 1] + [e[i - 1]];
        DotInSnoc(e[..i - 1], e[i - 1]);
      }
      DotGivesExt(e, i - 1);
    }
  }

  /** Appending a character other than a dot adds no dot. */
  lemma {:induction false} DotInSnoc(s: string, c: char)
    requires c != '.'
    ensures '.' in s + [c] <==> '.' in s
  {
    if '.' in s + [c] {
      var k :| 0 <= k < |s| + 1 && (s + [c])[k] == '.';
      assert s[k] == '.';
    }
  }

  /** Scanning back from `i` over dot-free, separator-free characters reaches the dot at
      `d`. */
  lemma {:induction false} ExtScanToDot(path: string, d: nat, i: nat)
    requires d < i <= |path| && path[d] == '.'
    requires forall k :: d < k < |path| ==> path[k] != Separator && path[k] != '.'
    ensures ExtFrom(path, i) == path[d..]
  {
    if i - 1 > d {
      ExtScanToDot(path, d, i - 1);
    }
  }

  /** A name without a dot keeps its whole base: `README` gives `README_embeddings.db`. */
  lemma {:induction false} DatabaseNameWithoutDot(name: string)
    requires name != [] && Separator !in name && '.' !in name
    ensures DatabaseName(name) == name + DatabaseSuffix
  {
    ExtWithoutDot(name, |name|);
    assert AfterLastSlash(name) == name;
  }

  /** A dot-free, separator-free stretch before `i` has no extension. */
  lemma {:induction false} ExtWithoutDot(path: string, i: nat)
    requires i <= |path|
    requires forall k :: 0 <= k < |path| ==> path[k] != Separator && path[k] != '.'
    ensures ExtFrom(path, i) == []
  {
    if i > 0 {
      ExtWithoutDot(path, i - 1);
    }
  }

  /** `Ext` reads the input as given: a trailing separator hides the extension that `Base`
      still shows, so `notes.txt/` gives `notes.txt_embeddings.db`. */
  lemma {:induction false} DatabaseNameTrailingSeparator(name: string)
    requires name != [] && Separator !in name
    ensures DatabaseName(name + [Separator]) == name + DatabaseSuffix
  {
    var path := name + [Separator];
    assert TrimTrailingSlashes(path) == name by {
      assert path[..|path| - 1] == name;
    }
    assert AfterLastSlash(name) == name;
  }

  /** Appending a separator and a separator-free `e` appends `e`'s element, if it is one. */
  lemma {:induction false} ElementsAppend(p: string, e: string)
    requires Separator !in e
    ensures Elements(p + [Separator] + e) == Elements(p) + Kept(e)
  {
    var path := p + [Separator] + e;
    AfterLastSlashAppend(p, e);
    assert path[..|path| - |e| - 1] == p;
  }

  /** Joining a name made of leading separators and one element adds just that element. */
  lemma {:induction false} ElementsOfJoin(dir: string, name: string)
    requires IsElement(TrimLeadingSlashes(name))
    ensures Elements(dir + [Separator] + name) == Elements(dir) + [TrimLeadingSlashes(name)]
    decreases |name|, 1
  {
    if name != [] && name[0] == Separator {
      ElementsOfJoinSeparator(dir, name);
    } else {
      assert name == TrimLeadingSlashes(name);
      ElementsAppend(dir, name);
      assert Kept(name) == [name];
    }
  }

  /** A separator at the start of the name is one more separator after the directory. */
  lemma {:induction false} ElementsOfJoinSeparator(dir: string, name: string)
    requires name != [] && name[0] == Separator
    requires IsElement(TrimLeadingSlashes(name))
    ensures Elements(dir + [Separator] + name) == Elements(dir) + [TrimLeadingSlashes(name)]
    decreases |name|, 0
  {
    var dir' := dir + [Separator];
    var rest := name[1..];
    assert dir + [Separator] + name == dir' + [Separator] + rest;
    ElementsOfJoin(dir', rest);
    ElementsTrailingSeparator(dir);
  }

  /** The elements of a name made of leading separators and one element. */
  lemma {:induction false} ElementsOfName(name: string)
    requires IsElement(TrimLeadingSlashes(name))
    ensures Elements(name) == [TrimLeadingSlashes(name)]
  {
    if name[0] == Separator {
      ElementsOfLeadingSeparator(name);
    } else {
      AfterLastSlashOfElement(name);
    }
  }

  /** A leading separator adds no element in front of the name. */
  lemma {:induction false} ElementsOfLeadingSeparator(name: string)
    requires name != [] && name[0] == Separator
    requires IsElement(TrimLeadingSlashes(name))
    ensures Elements(name) == [TrimLeadingSlashes(name)]
  {
    var rest := name[1..];
    ElementsOfJoin([], rest);
    assert name == [] + [Separator] + rest;
    assert TrimLeadingSlashes(name) == TrimLeadingSlashes(rest);
    NoElements();
  }

  lemma {:induction false} NoElements()
    ensures Elements([]) == []
  {
    assert AfterLastSlash([]) == [];
  }

  /** An element other than `..` is kept at the end. */
  lemma {:induction false} ResolveSnoc(rooted: bool, elements: seq<string>, e: string)
    requires e != ".."
    ensures Resolve(rooted, elements + [e]) == Resolve(rooted, elements) + [e]
  {
    assert (elements + [e])[..|elements|] == elements;
  }

  /** One more element, other than `..`, is written after one separator, or alone. */
  lemma {:induction false} RenderSnoc(rooted: bool, kept: seq<string>, e: string)
    requires e != []
    ensures kept == [] && rooted ==> Render(rooted, kept + [e]) == [Separator] + e
    ensures kept == [] && !rooted ==> Render(rooted, kept + [e]) == e
    ensures kept != [] ==> Render(rooted, kept + [e]) == Render(rooted, kept) + [Separator] + e
  {
    if kept == [] {
      assert kept + [e] == [e];
    } else {
      JoinSnoc(kept, e, [Separator]);
    }
  }

  /** Written out, kept elements ending in `e` have `e` as their last element. */
  lemma {:induction false} BaseOfRender(rooted: bool, kept: seq<string>, e: string)
    requires IsElement(e)
    ensures Base(Render(rooted, kept + [e])) == e
  {
    RenderSnoc(rooted, kept, e);
    if kept == [] {
      if rooted {
        assert [Separator] + e == [] + [Separator] + e;
        BaseOfLastElement([], e);
      } else {
        BaseOfElement(e);
      }
    } else {
      BaseOfLastElement(Render(rooted, kept), e);
    }
  }

  /** Cleaning a path whose elements end in `e` yields a path whose last element is `e`. */
  lemma {:induction false} CleanBase(path: string, e: string)
    requires IsElement(e)
    requires |Elements(path)| > 0 && Elements(path)[|Elements(path)| - 1] == e
    ensures Base(Clean(path)) == e
  {
    var es := Elements(path);
    var before := es[..|es| - 1];
    assert es == before + [e];
    ResolveSnoc(Rooted(path), before, e);
    BaseOfRender(Rooted(path), Resolve(Rooted(path), before), e);
  }

  /** Joining a name made of leading separators and one element onto any directory, that
      element is the last one of the path. */
  lemma {:induction false} JoinPathBase(dir: string, name: string)
    requires IsElement(TrimLeadingSlashes(name))
    ensures Base(JoinPath(dir, name)) == TrimLeadingSlashes(name)
  {
    var e := TrimLeadingSlashes(name);
    if dir != [] {
      ElementsOfJoin(dir, name);
      CleanBase(dir + [Separator] + name, e);
    } else {
      ElementsOfName(name);
      CleanBase(name, e);
    }
  }

  /** The database file's own name, as `filepath.Base` reads it back from the joined path,
      is the name built from the input. */
  lemma {:induction false} DatabasePathBase(inputFile: string, outputDir: string)
    ensures Base(DatabasePath(inputFile, outputDir)) == TrimLeadingSlashes(DatabaseName(inputFile))
  {
    DatabaseNameIsElement(inputFile);
    JoinPathBase(outputDir, DatabaseName(inputFile));
  }

  /** A directory already in `filepath.Clean` form, other than `.` and `/`, is kept as
      written: the name follows it after one separator. */
  lemma {:induction false} JoinCleanDir(dir: string, name: string)
    requires dir != [] && Clean(dir) == dir && dir != "." && dir != [Separator]
    requires IsElement(TrimLeadingSlashes(name))
    ensures JoinPath(dir, name) == dir + [Separator] + TrimLeadingSlashes(name)
  {
    var e := TrimLeadingSlashes(name);
    var path := dir + [Separator] + name;
    var rooted := Rooted(dir);
    assert Rooted(path) == rooted by {
      assert path[0] == dir[0];
    }
    ElementsOfJoin(dir, name);
    var kept := Resolve(rooted, Elements(dir));
    ResolveSnoc(rooted, Elements(dir), e);
    assert Clean(path) == Render(rooted, kept + [e]);
    RenderSnoc(rooted, kept, e);
  }

  /** The database path for an output directory in clean form is the directory, one
      separator, and the database name: `../out` gives `../out/notes_embeddings.db`. */
  lemma {:induction false} DatabasePathInCleanDir(inputFile: string, outputDir: string)
    requires outputDir != [] && Clean(outputDir) == outputDir
    requires outputDir != "." && outputDir != [Separator]
    ensures DatabasePath(inputFile, outputDir) ==
            outputDir + [Separator] + TrimLeadingSlashes(DatabaseName(inputFile))
  {
    DatabaseNameIsElement(inputFile);
    JoinCleanDir(outputDir, DatabaseName(inputFile));
  }

  /** A trailing separator on the directory adds no element. */
  lemma {:induction false} ElementsDirSeparator(dir: string, name: string)
    requires IsElement(TrimLeadingSlashes(name))
    ensures Elements(dir + [Separator] + [Separator] + name) == Elements(dir + [Separator] + name)
  {
    ElementsOfJoin(dir + [Separator], name);
    ElementsOfJoin(dir, name);
    ElementsTrailingSeparator(dir);
  }

  /** A trailing separator adds no element. */
  lemma {:induction false} ElementsTrailingSeparator(p: string)
    ensures Elements(p + [Separator]) == Elements(p)
  {
    var path := p + [Separator];
    assert AfterLastSlash(path) == [];
    assert path[..|path| - 1] == p;
  }

  /** A trailing separator on the directory changes nothing. */
  lemma {:induction false} JoinDirSeparator(dir: string, name: string)
    requires dir != [] && IsElement(TrimLeadingSlashes(name))
    ensures JoinPath(dir + [Separator], name) == JoinPath(dir, name)
  {
    var long := dir + [Separator] + [Separator] + name;
    var short := dir + [Separator] + name;
    ElementsDirSeparator(dir, name);
    assert Rooted(long) == Rooted(short) by {
      assert long[0] == short[0];
    }
    assert Clean(long) == Clean(short);
  }

  /** A trailing separator on the output directory changes nothing. */
  lemma {:induction false} DatabasePathDirSeparator(inputFile: string, outputDir: string)
    requires outputDir != []
    ensures DatabasePath(inputFile, outputDir + [Separator]) == DatabasePath(inputFile, outputDir)
  {
    DatabaseNameIsElement(inputFile);
    JoinDirSeparator(outputDir, DatabaseName(inputFile));
  }

  /** A directory next to the working one, `../e`, is in clean form: a leading `..` stays
      in a relative path. */
  lemma {:induction false} ParentDirIsClean(e: string)
    requires IsElement(e)
    ensures Clean(".." + [Separator] + e) == ".." + [Separator] + e
  {
    var up := "..";
    var dir := up + [Separator] + e;
    assert !Rooted(dir) by {
      assert dir[0] == '.';
    }
    calc {
      Clean(dir);
      Render(false, Resolve(false, Elements(dir)));
      { ParentDirElements(e); }
      Render(false, Resolve(false, [up, e]));
      { ParentDirResolves(e); }
      Render(false, [up, e]);
      { RenderPair(up, e); }
      dir;
    }
  }

  /** Scanning `..` then an element keeps both in a relative path. */
  lemma {:induction false} ParentDirResolves(e: string)
    requires IsElement(e)
    ensures Resolve(false, ["..", e]) == ["..", e]
  {
    var up := "..";
    assert Resolve(false, [up]) == [up] by {
      assert [up][..0] == [];
    }
    ResolveSnoc(false, [up], e);
    assert [up] + [e] == [up, e];
  }

  /** Two kept elements of a relative path are written with one separator between them. */
  lemma {:induction false} RenderPair(a: string, b: string)
    ensures Render(false, [a, b]) == a + [Separator] + b
  {
    calc {
      Render(false, [a, b]);
      Join([a, b], [Separator]);
      { assert [a, b][1..] == [b]; }
      a + [Separator] + Join([b], [Separator]);
      a + [Separator] + b;
    }
  }

  /** The elements of `../e` are `..` and `e`. */
  lemma {:induction false} ParentDirElements(e: string)
    requires IsElement(e)
    ensures Elements(".." + [Separator] + e) == ["..", e]
  {
    var up := "..";
    AfterLastSlashOfElement(up);
    ElementsAppend(up, e);
    assert Elements(up) == [up];
    assert [up] + [e] == [up, e];
  }

  /** An output directory `../e` next to the working directory: the database lies in it,
      so `../out` gives `../out/notes_embeddings.db` for `notes.txt`. */
  lemma {:induction false} DatabasePathParentDir(inputFile: string, e: string)
    requires IsElement(e)
    ensures DatabasePath(inputFile, ".." + [Separator] + e) ==
            ".." + [Separator] + e + [Separator] + TrimLeadingSlashes(DatabaseName(inputFile))
  {
    var dir := ".." + [Separator] + e;
    ParentDirIsClean(e);
    assert dir != "." && dir != [Separator] by {
      assert |dir| > 2;
    }
    DatabasePathInCleanDir(inputFile, dir);
  }
}

/** The library files a build reads and the modules the compiler is given
    (getFiles and getModules, gulpfile.js:76-149). The locale files (every
    `.js` file under `lib/locales`) are passed in, in the order the glob
    returns them. */
module Files {
  import opened Prelude

  const DEFAULT_PACKAGES: seq<string> :=
    ["es6", "array", "date", "range", "function", "number", "object", "regexp", "string"]

  const ALL_PACKAGES: seq<string> :=
    ["es6", "array", "date", "range", "function", "number", "object", "regexp", "string",
     "inflections", "language", "locales"]

  /** What the first forEach appends to the list for one requested name. */
  function Expansion(name: string): seq<string>
  {
    if name == "default" then DEFAULT_PACKAGES
    else if name == "all" then ALL_PACKAGES
    else []
  }

  /** Everything the first forEach appends. It visits only the names that
      were in the list when it started, so appended names are not expanded
      again. */
  function Expansions(names: seq<string>): seq<string>
    decreases |names|
  {
    if names == [] then []
    else Expansions(names[..|names| - 1]) + Expansion(names[|names| - 1])
  }

  /** The files the second forEach adds for one name of the grown list. */
  function FilesFor(name: string, skipLocales: bool, localeFiles: seq<string>): seq<string>
  {
    if name == "locales" && !skipLocales then localeFiles else ["lib/" + name + ".js"]
  }

  function FileList(names: seq<string>, skipLocales: bool, localeFiles: seq<string>): seq<string>
    decreases |names|
  {
    if names == [] then []
    else FileList(names[..|names| - 1], skipLocales, localeFiles) + FilesFor(names[|names| - 1], skipLocales, localeFiles)
  }

  /** The list getFiles returns for the comma-separated `packages`. */
  function FilesOf(packages: string, skipLocales: bool, localeFiles: seq<string>): seq<string>
  {
    if packages == "core" then ["lib/core.js"]
    else
      var requested := Split(packages, ",");
      ["lib/core.js", "lib/common.js"] + FileList(requested + Expansions(requested), skipLocales, localeFiles)
  }

  /** getFiles. */
  method GetFiles(packages: string, skipLocales: bool, localeFiles: seq<string>) returns (files: seq<string>)
    ensures files == FilesOf(packages, skipLocales, localeFiles)
  {
    if packages == "core" {
      return ["lib/core.js"];
    }
    files := ["lib/core.js", "lib/common.js"];
    var requested := Split(packages, ",");
    var arr := ExpandKeywords(requested);
    files := AddPackageFiles(files, arr, skipLocales, localeFiles);
  }

  /** getFiles' first forEach: the list grows while it is walked, but only
      the entries it had at the start are visited. */
  method ExpandKeywords(requested: seq<string>) returns (arr: seq<string>)
    ensures arr == requested + Expansions(requested)
  {
    arr := requested;
    var n := |arr|;
    var i := 0;
    while i < n
      invariant 0 <= i <= n == |requested|
      invariant arr == requested + Expansions(requested[..i])
    {
      ExpansionsSnoc(requested, i);
      ghost var before := arr;
      ghost var grown := Expansion(requested[i]);
      if arr[i] == "default" {
        arr := arr + DEFAULT_PACKAGES;
      } else if arr[i] == "all" {
        arr := arr + ALL_PACKAGES;
      }
      assert arr == before + grown;
      ConcatAssoc(requested, Expansions(requested[..i]), grown);
      i := i + 1;
    }
    assert requested[..i] == requested;
  }

  /** getFiles' second forEach: the files of every name of the grown list,
      appended in order. */
  method AddPackageFiles(start: seq<string>, arr: seq<string>, skipLocales: bool, localeFiles: seq<string>) returns (files: seq<string>)
    ensures files == start + FileList(arr, skipLocales, localeFiles)
  {
    files := start;
    var j := 0;
    while j < |arr|
      invariant 0 <= j <= |arr|
      invariant files == start + FileList(arr[..j], skipLocales, localeFiles)
    {
      FileListSnoc(arr, j, skipLocales, localeFiles);
      ghost var added := FilesFor(arr[j], skipLocales, localeFiles);
      if arr[j] == "locales" && !skipLocales {
        assert added == localeFiles;
        files := files + localeFiles;
      } else {
        assert added == ["lib/" + arr[j] + ".js"];
        files := files + ["lib/" + arr[j] + ".js"];
      }
      assert files == start + (FileList(arr[..j], skipLocales, localeFiles) + added);
      j := j + 1;
    }
    assert arr[..j] == arr;
  }

  lemma ConcatAssoc(a: seq<string>, b: seq<string>, c: seq<string>)
    ensures (a + b) + c == a + (b + c)
  {
  }

  lemma ExpansionsSnoc(names: seq<string>, i: nat)
    requires i < |names|
    ensures Expansions(names[..i + 1]) == Expansions(names[..i]) + Expansion(names[i])
  {
    assert names[..i + 1][..i] == names[..i];
  }

  lemma FileListSnoc(names: seq<string>, j: nat, skipLocales: bool, localeFiles: seq<string>)
    requires j < |names|
    ensures FileList(names[..j + 1], skipLocales, localeFiles)
      == FileList(names[..j], skipLocales, localeFiles) + FilesFor(names[j], skipLocales, localeFiles)
  {
    assert names[..j + 1][..j] == names[..j];
  }

  /** Every name in the list contributes its files. */
  lemma {:induction false} FileListIncludes(names: seq<string>, skipLocales: bool, localeFiles: seq<string>, name: string, f: string)
    requires name in names && f in FilesFor(name, skipLocales, localeFiles)
    ensures f in FileList(names, skipLocales, localeFiles)
    decreases |names|
  {
    var init := names[..|names| - 1];
    assert names == init + [names[|names| - 1]];
    if name != names[|names| - 1] {
      FileListIncludes(init, skipLocales, localeFiles, name, f);
    }
  }

  /** Every name a keyword stands for is among the appended names. */
  lemma {:induction false} ExpansionsInclude(names: seq<string>, keyword: string, q: string)
    requires keyword in names && q in Expansion(keyword)
    ensures q in Expansions(names)
    decreases |names|
  {
    var init := names[..|names| - 1];
    assert names == init + [names[|names| - 1]];
    if keyword != names[|names| - 1] {
      ExpansionsInclude(init, keyword, q);
    }
  }

  /** Outside the "core" build the core and common files come first, every
      requested package is read from `lib/<name>.js` (locales from the
      glob), and a keyword brings in the file of every package it stands
      for. */
  lemma GetFilesCoversRequest(packages: string, skipLocales: bool, localeFiles: seq<string>, name: string)
    requires packages != "core" && name in Split(packages, ",")
    ensures var files := FilesOf(packages, skipLocales, localeFiles);
      files[..2] == ["lib/core.js", "lib/common.js"]
      && (forall f | f in FilesFor(name, skipLocales, localeFiles) :: f in files)
      && (forall q | q in Expansion(name) :: forall f | f in FilesFor(q, skipLocales, localeFiles) :: f in files)
  {
    var requested := Split(packages, ",");
    var grown := requested + Expansions(requested);
    forall f | f in FilesFor(name, skipLocales, localeFiles)
      ensures f in FilesOf(packages, skipLocales, localeFiles)
    {
      FileListIncludes(grown, skipLocales, localeFiles, name, f);
    }
    forall q, f | q in Expansion(name) && f in FilesFor(q, skipLocales, localeFiles)
      ensures f in FilesOf(packages, skipLocales, localeFiles)
    {
      ExpansionsInclude(requested, name, q);
      FileListIncludes(grown, skipLocales, localeFiles, q, f);
    }
  }

  /** A keyword stays in the list after it is expanded, so its own name is
      read as a library file: `getFiles('all')` lists `lib/all.js`. */
  lemma KeywordReadAsFile(keyword: string, skipLocales: bool, localeFiles: seq<string>)
    requires keyword == "all" || keyword == "default"
    ensures "lib/" + keyword + ".js" in FilesOf(keyword, skipLocales, localeFiles)
  {
    LacksChar(keyword, ',');
    NoOccurrence(keyword, ",");
    RequestedFileRead(keyword, keyword, skipLocales, localeFiles);
  }

  /** A requested name other than `locales` is read from `lib/<name>.js`. */
  lemma RequestedFileRead(packages: string, name: string, skipLocales: bool, localeFiles: seq<string>)
    requires packages != "core" && name in Split(packages, ",") && name != "locales"
    ensures "lib/" + name + ".js" in FilesOf(packages, skipLocales, localeFiles)
  {
    GetFilesCoversRequest(packages, skipLocales, localeFiles, name);
    assert "lib/" + name + ".js" in FilesFor(name, skipLocales, localeFiles);
  }

  // ---------------------------------------------------------------------
  // The list without the keyword entries.

  /** The files for one name when the keywords are only expanded. */
  function IntendedFilesFor(name: string, skipLocales: bool, localeFiles: seq<string>): seq<string>
  {
    if name == "default" || name == "all" then [] else FilesFor(name, skipLocales, localeFiles)
  }

  function IntendedFileList(names: seq<string>, skipLocales: bool, localeFiles: seq<string>): (r: seq<string>)
    ensures forall f | f in r :: exists name | name in names :: f in IntendedFilesFor(name, skipLocales, localeFiles)
    decreases |names|
  {
    if names == [] then []
    else
      var init := names[..|names| - 1];
      var last := names[|names| - 1];
      assert forall name | name in init :: name in names;
      IntendedFileList(init, skipLocales, localeFiles) + IntendedFilesFor(last, skipLocales, localeFiles)
  }

  /** getFiles with the keywords expanded but not read as files. */
  function IntendedFilesOf(packages: string, skipLocales: bool, localeFiles: seq<string>): seq<string>
  {
    if packages == "core" then ["lib/core.js"]
    else
      var requested := Split(packages, ",");
      ["lib/core.js", "lib/common.js"] + IntendedFileList(requested + Expansions(requested), skipLocales, localeFiles)
  }

  /** Every name in the list other than a keyword contributes its files. */
  lemma {:induction false} IntendedFileListIncludes(names: seq<string>, skipLocales: bool, localeFiles: seq<string>, name: string, f: string)
    requires name in names && f in IntendedFilesFor(name, skipLocales, localeFiles)
    ensures f in IntendedFileList(names, skipLocales, localeFiles)
    decreases |names|
  {
    var init := names[..|names| - 1];
    assert names == init + [names[|names| - 1]];
    if name != names[|names| - 1] {
      IntendedFileListIncludes(init, skipLocales, localeFiles, name, f);
    }
  }

  /** The packages a keyword stands for are not keywords themselves. */
  lemma ExpansionHasNoKeyword(name: string, q: string)
    requires q in Expansion(name)
    ensures q != "all" && q != "default"
  {
    var i :| 0 <= i < |Expansion(name)| && Expansion(name)[i] == q;
    assert |q| != 3 || q == "es6";
    assert |q| != 7 || q == "locales";
  }

  /** The intended list still holds what was asked for: the core and
      common files first, every requested package that is not a keyword,
      and the file of every package a requested keyword stands for. */
  lemma IntendedFilesCoverRequest(packages: string, skipLocales: bool, localeFiles: seq<string>, name: string)
    requires packages != "core" && name in Split(packages, ",")
    ensures var files := IntendedFilesOf(packages, skipLocales, localeFiles);
      files[..2] == ["lib/core.js", "lib/common.js"]
      && (name != "all" && name != "default" ==> forall f | f in FilesFor(name, skipLocales, localeFiles) :: f in files)
      && (forall q | q in Expansion(name) :: forall f | f in FilesFor(q, skipLocales, localeFiles) :: f in files)
  {
    var requested := Split(packages, ",");
    var grown := requested + Expansions(requested);
    if name != "all" && name != "default" {
      forall f | f in FilesFor(name, skipLocales, localeFiles)
        ensures f in IntendedFilesOf(packages, skipLocales, localeFiles)
      {
        IntendedFileListIncludes(grown, skipLocales, localeFiles, name, f);
      }
    }
    forall q, f | q in Expansion(name) && f in FilesFor(q, skipLocales, localeFiles)
      ensures f in IntendedFilesOf(packages, skipLocales, localeFiles)
    {
      ExpansionsInclude(requested, name, q);
      ExpansionHasNoKeyword(name, q);
      IntendedFileListIncludes(grown, skipLocales, localeFiles, q, f);
    }
  }

  /** The intended list never names a keyword's file, yet loses nothing
      that was asked for: outside the "core" build it opens with the core
      and common files, reads every requested package that is not a
      keyword, and reads every package a requested keyword stands for. */
  lemma IntendedFilesSkipKeywords(packages: string, skipLocales: bool, localeFiles: seq<string>)
    requires forall f | f in localeFiles :: StartsWith(f, "lib/locales/")
    ensures "lib/all.js" !in IntendedFilesOf(packages, skipLocales, localeFiles)
    ensures "lib/default.js" !in IntendedFilesOf(packages, skipLocales, localeFiles)
    ensures packages != "core" ==> IntendedFilesOf(packages, skipLocales, localeFiles)[..2] == ["lib/core.js", "lib/common.js"]
    ensures packages != "core" ==> forall name | name in Split(packages, ",") ::
      (name != "all" && name != "default" ==>
        forall f | f in FilesFor(name, skipLocales, localeFiles) :: f in IntendedFilesOf(packages, skipLocales, localeFiles))
      && (forall q | q in Expansion(name) ::
        forall f | f in FilesFor(q, skipLocales, localeFiles) :: f in IntendedFilesOf(packages, skipLocales, localeFiles))
  {
    if packages != "core" {
      forall name | name in Split(packages, ",")
        ensures (name != "all" && name != "default" ==>
            forall f | f in FilesFor(name, skipLocales, localeFiles) :: f in IntendedFilesOf(packages, skipLocales, localeFiles))
          && (forall q | q in Expansion(name) ::
            forall f | f in FilesFor(q, skipLocales, localeFiles) :: f in IntendedFilesOf(packages, skipLocales, localeFiles))
      {
        IntendedFilesCoverRequest(packages, skipLocales, localeFiles, name);
      }
    }
    IntendedFilesLackKeywordFiles(packages, skipLocales, localeFiles);
  }

  lemma IntendedFilesLackKeywordFiles(packages: string, skipLocales: bool, localeFiles: seq<string>)
    requires forall f | f in localeFiles :: StartsWith(f, "lib/locales/")
    ensures "lib/all.js" !in IntendedFilesOf(packages, skipLocales, localeFiles)
    ensures "lib/default.js" !in IntendedFilesOf(packages, skipLocales, localeFiles)
  {
    if packages != "core" {
      var requested := Split(packages, ",");
      var grown := requested + Expansions(requested);
      forall f | f in IntendedFileList(grown, skipLocales, localeFiles)
        ensures f != "lib/all.js" && f != "lib/default.js"
      {
        var name :| name in grown && f in IntendedFilesFor(name, skipLocales, localeFiles);
        IntendedFileNotKeyword(name, f, skipLocales, localeFiles);
      }
    }
  }

  /** No name contributes a keyword's file: a keyword contributes nothing,
      a locale file lies under `lib/locales/`, and `lib/<name>.js` names
      its own package. */
  lemma IntendedFileNotKeyword(name: string, f: string, skipLocales: bool, localeFiles: seq<string>)
    requires forall g | g in localeFiles :: StartsWith(g, "lib/locales/")
    requires f in IntendedFilesFor(name, skipLocales, localeFiles)
    ensures f != "lib/all.js" && f != "lib/default.js"
  {
    if name == "locales" && !skipLocales {
      assert StartsWith(f, "lib/locales/");
      assert f[4] == "lib/locales/"[4] == 'l';
      assert "lib/all.js"[4] == 'a' && "lib/default.js"[4] == 'd';
    } else {
      assert f == "lib/" + name + ".js";
      assert name == f[4..|f| - 3];
      assert name != "all" && name != "default";
      assert "lib/all.js"[4..7] == "all";
      assert "lib/default.js"[4..11] == "default";
    }
  }

  // ---------------------------------------------------------------------
  // getModules.

  /** The first match of /(\w+)\.js/ at or after `k`: a run of word
      characters that reaches ".js". Only a maximal run can, as the
      character after a shorter one is a word character, not a dot. */
  function JsNameFrom(f: string, k: nat): (r: Option<string>)
    ensures r.Some? ==> IsWord(r.value)
    decreases |f| - k
  {
    if k >= |f| then None
    else if IsWordChar(f[k]) && StartsWith(f[WordEnd(f, k)..], ".js") then Some(f[k..WordEnd(f, k)])
    else JsNameFrom(f, k + 1)
  }

  /** A library file is named by its base name. */
  lemma JsNameOfLibFile(name: string)
    requires IsWord(name)
    ensures JsNameFrom("lib/" + name + ".js", 0) == Some(name)
  {
    var f := "lib/" + name + ".js";
    var e := 4 + |name|;
    assert f[3] == '/' && f[e] == '.';
    assert forall i | 4 <= i < e :: f[i] == name[i - 4];
    WordEndOfName(f, 4, |name|);
    assert f[e..] == ".js";
    assert f[4..e] == name;
    assert JsNameFrom(f, 4) == Some(name);
    assert JsNameFrom(f, 3) == JsNameFrom(f, 4);
    WordEndOfName(f, 2, 1);
    WordEndOfName(f, 1, 2);
    WordEndOfName(f, 0, 3);
    assert f[3..][0] == '/';
    assert JsNameFrom(f, 2) == JsNameFrom(f, 3);
    assert JsNameFrom(f, 1) == JsNameFrom(f, 2);
    assert JsNameFrom(f, 0) == JsNameFrom(f, 1);
  }

  lemma {:induction false} WordEndOfName(f: string, start: nat, n: nat)
    requires start + n < |f|
    requires forall i | start <= i < start + n :: IsWordChar(f[i])
    requires !IsWordChar(f[start + n])
    ensures WordEnd(f, start) == start + n
    decreases n
  {
    if n > 0 {
      WordEndOfName(f, start + 1, n - 1);
    }
  }

  /** Whether `f` contains "locales" (`f.match(/locales/)`). */
  predicate IsLocaleFile(f: string)
  {
    IndexOfFrom(f, "locales", 0).Some?
  }

  /** The modules getModules collects and the locale files it sets aside,
      file by file; a file without a `name.js` part makes `match(...)[1]`
      a TypeError. */
  function ModuleEntries(files: seq<string>): Result<(seq<seq<string>>, seq<string>)>
    decreases |files|
  {
    if files == [] then Ok(([], []))
    else
      var f := files[|files| - 1];
      var (modules, locales) :- ModuleEntries(files[..|files| - 1]);
      match JsNameFrom(f, 0)
      case None => Err(TypeError("match(...) is null"))
      case Some(name) =>
        if name == "core" then Ok((modules + [["core:1", f]], locales))
        else if IsLocaleFile(f) then Ok((modules, locales + [f]))
        else Ok((modules + [[name + ":1:core", f]], locales))
  }

  /** getModules: one module per file, with every locale file gathered into
      a last `locales` module whose entry counts them. */
  function ModulesOf(files: seq<string>): Result<seq<seq<string>>>
  {
    var (modules, locales) :- ModuleEntries(files);
    Ok(if |locales| > 0 then modules + [["locales:" + NatToString(|locales|) + ":core"] + locales] else modules)
  }

  method GetModules(files: seq<string>) returns (r: Result<seq<seq<string>>>)
    ensures r == ModulesOf(files)
  {
    var modules: seq<seq<string>> := [];
    var locales: seq<string> := [];
    var i := 0;
    while i < |files|
      invariant 0 <= i <= |files|
      invariant ModuleEntries(files[..i]) == Ok((modules, locales))
    {
      assert files[..i + 1][..i] == files[..i];
      var f := files[i];
      var name := JsNameFrom(f, 0);
      if name.None? {
        ModuleEntriesFailFast(files, i + 1);
        return Err(TypeError("match(...) is null"));
      }
      if name.value == "core" {
        modules := modules + [["core:1", f]];
      } else if IsLocaleFile(f) {
        locales := locales + [f];
      } else {
        modules := modules + [[name.value + ":1:core", f]];
      }
      i := i + 1;
    }
    assert files[..i] == files;
    if |locales| > 0 {
      modules := modules + [["locales:" + NatToString(|locales|) + ":core"] + locales];
    }
    return Ok(modules);
  }

  /** Once a prefix of the files fails, the whole list fails the same way. */
  lemma {:induction false} ModuleEntriesFailFast(files: seq<string>, n: nat)
    requires n <= |files| && ModuleEntries(files[..n]).Err?
    ensures ModuleEntries(files) == ModuleEntries(files[..n])
    decreases |files| - n
  {
    if n < |files| {
      assert files[..n + 1][..n] == files[..n];
      ModuleEntriesFailFast(files, n + 1);
    } else {
      assert files[..n] == files;
    }
  }

  /** Every file is either a module of its own or one of the locales, in
      order, and the locales module counts them. */
  lemma {:induction false} ModuleEntriesCount(files: seq<string>)
    requires ModuleEntries(files).Ok?
    ensures var (modules, locales) := ModuleEntries(files).value;
      |modules| + |locales| == |files|
      && (forall f | f in locales :: f in files && IsLocaleFile(f))
      && (forall m | m in modules :: |m| == 2 && m[1] in files)
    decreases |files|
  {
    if files != [] {
      var init := files[..|files| - 1];
      assert forall f | f in init :: f in files;
      ModuleEntriesCount(init);
    }
  }

  /** The files of plain packages become one module each, named after the
      package and depending on core. */
  lemma LibFileModule(names: seq<string>)
    requires forall i | 0 <= i < |names| :: IsWord(names[i]) && names[i] != "core" && !IsLocaleFile("lib/" + names[i] + ".js")
    ensures ModulesOf(Libs(names)) == Ok(LibEntries(names))
  {
    LibFileEntries(names);
  }

  function Libs(names: seq<string>): (r: seq<string>)
    ensures |r| == |names| && forall i | 0 <= i < |names| :: r[i] == "lib/" + names[i] + ".js"
  {
    seq(|names|, i requires 0 <= i < |names| => "lib/" + names[i] + ".js")
  }

  /** Dropping the last name drops the last file and the last entry. */
  lemma LibsSnoc(names: seq<string>)
    requires names != []
    ensures Libs(names)[..|names| - 1] == Libs(names[..|names| - 1])
    ensures LibEntries(names) == LibEntries(names[..|names| - 1]) + [[names[|names| - 1] + ":1:core", Libs(names)[|names| - 1]]]
  {
  }

  /** A last file named by a plain package adds its `<name>:1:core` module. */
  lemma ModuleEntriesPlainFile(files: seq<string>, modules: seq<seq<string>>, locales: seq<string>, name: string)
    requires files != [] && ModuleEntries(files[..|files| - 1]) == Ok((modules, locales))
    requires JsNameFrom(files[|files| - 1], 0) == Some(name) && name != "core" && !IsLocaleFile(files[|files| - 1])
    ensures ModuleEntries(files) == Ok((modules + [[name + ":1:core", files[|files| - 1]]], locales))
  {
  }

  /** The module entries of plain packages: `<name>:1:core` with its file. */
  function LibEntries(names: seq<string>): (r: seq<seq<string>>)
    ensures |r| == |names| && forall i | 0 <= i < |names| :: r[i] == [names[i] + ":1:core", "lib/" + names[i] + ".js"]
  {
    seq(|names|, i requires 0 <= i < |names| => [names[i] + ":1:core", "lib/" + names[i] + ".js"])
  }

  lemma {:induction false} LibFileEntries(names: seq<string>)
    requires forall i | 0 <= i < |names| :: IsWord(names[i]) && names[i] != "core" && !IsLocaleFile("lib/" + names[i] + ".js")
    ensures ModuleEntries(Libs(names)) == Ok((LibEntries(names), []))
    decreases |names|
  {
    if names != [] {
      var n := |names| - 1;
      var init := names[..n];
      LibFileEntries(init);
      LibsSnoc(names);
      JsNameOfLibFile(names[n]);
      ModuleEntriesPlainFile(Libs(names), LibEntries(init), [], names[n]);
    }
  }
}

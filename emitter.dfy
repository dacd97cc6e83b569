/** The text of one package file (writePackage, gulpfile.js:1056-1238).

    A package file is a sequence of blocks separated by blank lines: the
    strict-mode directive, the requires, the assigns that unpack grouped
    dependencies, the body, the initializing call and the exports. Empty
    blocks are dropped. An internal function that exports something has
    its body and exports hoisted above the requires. The directory layout
    is computed with `path.relative`, which is passed in as `rel`. */
module Emitter {
  import opened Prelude
  import opened Sorting
  import opened Packages

  const TAB := "  "
  const BLOCK_DELIMITER := "\n\n"
  const STRICT := "\"use strict\";"
  const DECLARES_PREAMBLE := "// Exported function declaration was hoisted here\n// to avoid problems with circular dependencies."
  const NPM_DESTINATION := "release/npm/sugar"
  const CORE_TARGET := "../../../lib/core"

  /** `path.relative(from, to)`. */
  type Relative = (string, string) -> string

  /** One file the run writes: its path and its text. */
  datatype OutputFile = OutputFile(path: string, text: string)

  // ---------------------------------------------------------------------
  // groupAliases.

  /** The alias of the unit `d`, when it has one. */
  function AliasOf(top: seq<Entry<Package>>, d: string): Option<string>
  {
    match Lookup(top, d)
    case Some(p) => if p.alias != "" then Some(p.alias) else None
    case None => None
  }

  /** The dependencies `groupAliases` keeps: those that are not aliases,
      in order. */
  function NonAliased(top: seq<Entry<Package>>, deps: seq<string>): seq<string>
    decreases |deps|
  {
    if deps == [] then []
    else
      var d := deps[|deps| - 1];
      NonAliased(top, deps[..|deps| - 1]) + (if AliasOf(top, d).None? then [d] else [])
  }

  /** The group names `groupAliases` appends: each alias once, in the order
      first met. */
  function AliasGroups(top: seq<Entry<Package>>, deps: seq<string>): seq<string>
    decreases |deps|
  {
    if deps == [] then []
    else
      var d := deps[|deps| - 1];
      var groups := AliasGroups(top, deps[..|deps| - 1]);
      match AliasOf(top, d)
      case Some(g) => PushUnique(groups, g)
      case None => groups
  }

  /** No dependency that is an alias survives the collapse, and every
      dependency that is not one does. */
  lemma {:induction false} NonAliasedExact(top: seq<Entry<Package>>, deps: seq<string>, x: string)
    ensures x in NonAliased(top, deps) <==> x in deps && AliasOf(top, x).None?
    decreases |deps|
  {
    if deps != [] {
      var init := deps[..|deps| - 1];
      assert deps == init + [deps[|deps| - 1]];
      NonAliasedExact(top, init, x);
    }
  }

  /** The appended group names are exactly the aliases of the
      dependencies, each once. */
  lemma {:induction false} AliasGroupsExact(top: seq<Entry<Package>>, deps: seq<string>, g: string)
    ensures NoDup(AliasGroups(top, deps))
    ensures g in AliasGroups(top, deps) <==> exists d | d in deps :: AliasOf(top, d) == Some(g)
    decreases |deps|
  {
    if deps != [] {
      var init := deps[..|deps| - 1];
      var last := deps[|deps| - 1];
      assert deps == init + [last];
      AliasGroupsExact(top, init, g);
      var groups := AliasGroups(top, init);
      if AliasOf(top, last).Some? {
        var a := AliasOf(top, last).value;
        if a !in groups {
          forall i, j | 0 <= i < j < |groups + [a]|
            ensures (groups + [a])[i] != (groups + [a])[j]
          {
            if j == |groups| {
              assert (groups + [a])[i] == groups[i];
            } else {
              assert (groups + [a])[i] == groups[i] && (groups + [a])[j] == groups[j];
            }
          }
        }
      }
      if g in AliasGroups(top, deps) && g !in groups {
        assert AliasOf(top, last) == Some(g);
      }
      if g in groups {
        var d :| d in init && AliasOf(top, d) == Some(g);
        assert d in deps;
      }
      if exists d | d in deps :: AliasOf(top, d) == Some(g) {
        var d :| d in deps && AliasOf(top, d) == Some(g);
        if d != last {
          assert d in init;
        }
      }
    }
  }

  /** groupAliases: the filter collects the aliases while it drops the
      aliased dependencies. */
  method GroupAliases(top: seq<Entry<Package>>, deps: seq<string>) returns (r: seq<string>)
    ensures r == NonAliased(top, deps) + AliasGroups(top, deps)
  {
    var kept: seq<string> := [];
    var aliases: seq<string> := [];
    var i := 0;
    while i < |deps|
      invariant 0 <= i <= |deps|
      invariant kept == NonAliased(top, deps[..i]) && aliases == AliasGroups(top, deps[..i])
    {
      assert deps[..i + 1][..i] == deps[..i];
      var p := Lookup(top, deps[i]);
      if p.Some? && p.value.alias != "" {
        if p.value.alias !in aliases {
          aliases := aliases + [p.value.alias];
        }
      } else {
        kept := kept + [deps[i]];
      }
      i := i + 1;
    }
    assert deps[..i] == deps;
    return kept + aliases;
  }

  /** prepareDeps: the dependencies sorted by length, aliases collapsed. */
  function PreparedDeps(top: seq<Entry<Package>>, p: Package): seq<string>
  {
    NonAliased(top, SortByLength(p.dependencies)) + AliasGroups(top, SortByLength(p.dependencies))
  }

  // ---------------------------------------------------------------------
  // Requires.

  function RequireCall(path: string): string
  {
    "require('" + path + "')"
  }

  /** getSugarCorePath. */
  function CorePath(p: Package, rel: Relative): string
  {
    rel(p.path, CORE_TARGET)
  }

  /** getDependencyPath: the require path of a unit or method, relative to
      the package being written. */
  function DependencyPath(top: seq<Entry<Package>>, methods: seq<Entry<Package>>, p: Package, dep: string, rel: Relative): (r: Result<string>)
    ensures r.Err? <==> dep !in Keys(top) && dep !in Keys(methods)
    ensures r.Err? ==> r.error == MissingDependency(dep)
    ensures r.Ok? ==> |r.value| > 0 && r.value[0] == '.'
  {
    var found := if Lookup(top, dep).Some? then Lookup(top, dep) else Lookup(methods, dep);
    match found
    case None => Err(MissingDependency(dep))
    case Some(q) => Ok(RequirePath(PathJoin(rel(p.path, q.path), q.name)))
  }

  /** `dep = require('...')` for each named dependency, in order. */
  function NamedRequires(top: seq<Entry<Package>>, methods: seq<Entry<Package>>, p: Package, deps: seq<string>, rel: Relative): (r: Result<seq<string>>)
    ensures r.Ok? ==> |r.value| == |deps|
    decreases |deps|
  {
    if deps == [] then Ok([])
    else
      var path :- DependencyPath(top, methods, p, deps[0], rel);
      var rest :- NamedRequires(top, methods, p, deps[1..], rel);
      Ok([deps[0] + " = " + RequireCall(path)] + rest)
  }

  /** `require('...');` for each required package, in order. */
  function UnnamedRequires(top: seq<Entry<Package>>, methods: seq<Entry<Package>>, p: Package, reqs: seq<string>, rel: Relative): (r: Result<seq<string>>)
    ensures r.Ok? ==> |r.value| == |reqs|
    decreases |reqs|
  {
    if reqs == [] then Ok([])
    else
      var path :- DependencyPath(top, methods, p, reqs[0], rel);
      var rest :- UnnamedRequires(top, methods, p, reqs[1..], rel);
      Ok([RequireCall(path) + ";"] + rest)
  }

  /** A require list fails exactly when one of its names is in neither
      registry. */
  lemma {:induction false} NamedRequiresFail(top: seq<Entry<Package>>, methods: seq<Entry<Package>>, p: Package, deps: seq<string>, rel: Relative)
    ensures NamedRequires(top, methods, p, deps, rel).Err? <==> exists d | d in deps :: d !in Keys(top) && d !in Keys(methods)
    ensures UnnamedRequires(top, methods, p, deps, rel).Err? <==> exists d | d in deps :: d !in Keys(top) && d !in Keys(methods)
    decreases |deps|
  {
    if deps != [] {
      NamedRequiresFail(top, methods, p, deps[1..], rel);
      assert forall d | d in deps[1..] :: d in deps;
      assert forall d | d in deps :: d == deps[0] || d in deps[1..];
    }
  }

  /** getRequires: the core require, the named requires and the unnamed
      requires (sorted), as blocks joined by a newline. */
  function RequiresBlock(top: seq<Entry<Package>>, methods: seq<Entry<Package>>, p: Package, deps: seq<string>, rel: Relative): Result<string>
  {
    var core := if p.core then ["var Sugar = " + RequireCall(CorePath(p, rel)) + ";\n"] else [];
    var named :- NamedRequires(top, methods, p, deps, rel);
    var namedBlock := if |deps| > 0 then ["var " + JoinSep(named, ",\n" + TAB + TAB) + ";\n"] else [];
    var unnamed :- UnnamedRequires(top, methods, p, SortByChars(p.required), rel);
    var unnamedBlock := if |p.required| > 0 then [JoinSep(unnamed, "\n")] else [];
    Ok(JoinSep(core + namedBlock + unnamedBlock, "\n"))
  }

  /** A package is written only when every name it depends on or requires
      is registered; otherwise "Missing dependency" names the first absent
      one. */
  lemma RequiresBlockFails(top: seq<Entry<Package>>, methods: seq<Entry<Package>>, p: Package, deps: seq<string>, rel: Relative)
    ensures RequiresBlock(top, methods, p, deps, rel).Err? <==>
      exists d | d in deps + p.required :: d !in Keys(top) && d !in Keys(methods)
    ensures RequiresBlock(top, methods, p, deps, rel).Err? ==>
      RequiresBlock(top, methods, p, deps, rel).error.MissingDependency?
  {
    NamedRequiresFail(top, methods, p, deps, rel);
    var sorted := SortByChars(p.required);
    NamedRequiresFail(top, methods, p, sorted, rel);
    assert forall d :: d in sorted <==> d in p.required by {
      forall d
        ensures d in sorted <==> d in p.required
      {
        assert d in sorted <==> d in multiset(sorted);
        assert d in p.required <==> d in multiset(p.required);
      }
    }
    if NamedRequires(top, methods, p, deps, rel).Err? {
      NamedRequiresError(top, methods, p, deps, rel);
    } else if UnnamedRequires(top, methods, p, sorted, rel).Err? {
      NamedRequiresError(top, methods, p, sorted, rel);
    }
  }

  lemma {:induction false} NamedRequiresError(top: seq<Entry<Package>>, methods: seq<Entry<Package>>, p: Package, deps: seq<string>, rel: Relative)
    ensures NamedRequires(top, methods, p, deps, rel).Err? ==> NamedRequires(top, methods, p, deps, rel).error.MissingDependency?
    ensures UnnamedRequires(top, methods, p, deps, rel).Err? ==> UnnamedRequires(top, methods, p, deps, rel).error.MissingDependency?
    decreases |deps|
  {
    if deps != [] {
      NamedRequiresError(top, methods, p, deps[1..], rel);
    }
  }

  // ---------------------------------------------------------------------
  // Assigns.

  /** `token = group.token` for each name a grouped package exports. */
  function TokenAssigns(group: string, tokens: seq<string>): (r: seq<string>)
    ensures |r| == |tokens|
    ensures forall i | 0 <= i < |tokens| :: r[i] == tokens[i] + " = " + group + "." + tokens[i]
    decreases |tokens|
  {
    if tokens == [] then []
    else TokenAssigns(group, tokens[..|tokens| - 1]) + [tokens[|tokens| - 1] + " = " + group + "." + tokens[|tokens| - 1]]
  }

  /** The names a dependency exports when it exports several. */
  function MultiExports(top: seq<Entry<Package>>, d: string): Option<(string, seq<string>)>
  {
    match Lookup(top, d)
    case Some(q) =>
      if q.exports.Members? && |q.exports.names| > 1 then Some((q.name, q.exports.names)) else None
    case None => None
  }

  /** The unpacking lines of getAssigns, dependency by dependency. */
  function AssignLines(top: seq<Entry<Package>>, deps: seq<string>): seq<string>
    decreases |deps|
  {
    if deps == [] then []
    else
      var d := deps[|deps| - 1];
      AssignLines(top, deps[..|deps| - 1]) +
        match MultiExports(top, d)
        case Some((group, tokens)) => TokenAssigns(group, tokens)
        case None => []
  }

  /** getAssigns. */
  function AssignsBlock(top: seq<Entry<Package>>, deps: seq<string>): string
  {
    var lines := AssignLines(top, deps);
    if |lines| > 0 then "var " + JoinSep(SortByLength(lines), ",\n" + TAB + TAB) + ";\n" else ""
  }

  /** Every name exported by a dependency that exports several is bound
      to a variable of its own. */
  lemma {:induction false} AssignLinesComplete(top: seq<Entry<Package>>, deps: seq<string>, d: string, k: nat)
    requires d in deps && MultiExports(top, d).Some? && k < |MultiExports(top, d).value.1|
    ensures var (group, tokens) := MultiExports(top, d).value;
      tokens[k] + " = " + group + "." + tokens[k] in AssignLines(top, deps)
    decreases |deps|
  {
    var init := deps[..|deps| - 1];
    var last := deps[|deps| - 1];
    assert deps == init + [last];
    var (group, tokens) := MultiExports(top, d).value;
    if last == d {
      assert TokenAssigns(group, tokens)[k] == tokens[k] + " = " + group + "." + tokens[k];
    } else {
      assert d in init;
      AssignLinesComplete(top, init, d, k);
    }
  }

  /** A package none of whose dependencies exports several names has no
      assigns block. */
  lemma {:induction false} AssignsOnlyForGroups(top: seq<Entry<Package>>, deps: seq<string>)
    requires forall d | d in deps :: MultiExports(top, d).None?
    ensures AssignLines(top, deps) == []
    ensures AssignsBlock(top, deps) == ""
    decreases |deps|
  {
    if deps != [] {
      var init := deps[..|deps| - 1];
      assert forall d | d in init :: d in deps;
      AssignsOnlyForGroups(top, init);
      assert deps[|deps| - 1] in deps;
    }
  }

  /** The lines one more dependency contributes. */
  lemma AssignLinesSnoc(top: seq<Entry<Package>>, deps: seq<string>, i: nat)
    requires i < |deps|
    ensures AssignLines(top, deps[..i + 1]) == AssignLines(top, deps[..i]) +
      match MultiExports(top, deps[i])
      case Some((group, tokens)) => TokenAssigns(group, tokens)
      case None => []
  {
    assert deps[..i + 1][..i] == deps[..i];
  }

  /** `exports.forEach(...)` pushing one line per exported name. */
  method PushTokenAssigns(assigns: seq<string>, group: string, tokens: seq<string>) returns (r: seq<string>)
    ensures r == assigns + TokenAssigns(group, tokens)
  {
    r := assigns;
    var j := 0;
    while j < |tokens|
      invariant 0 <= j <= |tokens|
      invariant r == assigns + TokenAssigns(group, tokens[..j])
    {
      assert tokens[..j + 1][..j] == tokens[..j];
      r := r + [tokens[j] + " = " + group + "." + tokens[j]];
      j := j + 1;
    }
    assert tokens[..j] == tokens;
  }

  /** getAssigns: for each dependency that exports several names, one line
      per name. */
  method Assigns(top: seq<Entry<Package>>, deps: seq<string>) returns (r: string)
    ensures r == AssignsBlock(top, deps)
  {
    var assigns: seq<string> := [];
    var i := 0;
    while i < |deps|
      invariant 0 <= i <= |deps|
      invariant assigns == AssignLines(top, deps[..i])
    {
      AssignLinesSnoc(top, deps, i);
      var found := Lookup(top, deps[i]);
      if found.Some? && found.value.exports.Members? && |found.value.exports.names| > 1 {
        assigns := PushTokenAssigns(assigns, found.value.name, found.value.exports.names);
      }
      i := i + 1;
    }
    assert deps[..i] == deps;
    if |assigns| > 0 {
      return "var " + JoinSep(SortByLength(assigns), ",\n" + TAB + TAB) + ";\n";
    }
    return "";
  }

  // ---------------------------------------------------------------------
  // Exports.

  /** `TAB + "'" + e + "': " + e` for each exported name. */
  function ExportEntries(names: seq<string>): (r: seq<string>)
    ensures |r| == |names|
    ensures forall i | 0 <= i < |names| :: r[i] == TAB + "'" + names[i] + "': " + names[i]
  {
    seq(|names|, i requires 0 <= i < |names| => TAB + "'" + names[i] + "': " + names[i])
  }

  /** The statement getExports emits around the exported value. */
  function ExportStatement(value: string): (r: string)
    ensures StartsWith(r, "module.exports = ") && r[|r| - 1] == ';'
  {
    var r := "module.exports = " + value + ";";
    assert r[..17] == "module.exports = ";
    r
  }

  /** getExports. */
  function ExportsBlock(p: Package, rel: Relative): (r: string)
    ensures r == "" <==> !ExportsTruthy(p.exports)
    ensures r != "" ==> StartsWith(r, "module.exports = ") && r[|r| - 1] == ';'
    ensures p.exports == Single("core") ==> r == ExportStatement(RequireCall(CorePath(p, rel)))
  {
    match p.exports
    case NoExports => ""
    case Single(name) =>
      if name == "" then ""
      else if name == "core" then ExportStatement(RequireCall(CorePath(p, rel)))
      else ExportStatement(name)
    case Members(names) =>
      if |names| == 1 then ExportStatement(names[0])
      else ExportStatement("{\n" + JoinSep(SortByLength(ExportEntries(names)), ",\n") + "\n}")
  }

  /** One exported name (other than the core token) is exported bare,
      whether it is a string or a one-element list. */
  lemma ExportsSingleName(p: Package, rel: Relative, x: string)
    requires x != "" && x != "core"
    requires p.exports == Single(x) || p.exports == Members([x])
    ensures ExportsBlock(p, rel) == ExportStatement(x)
  {
  }

  /** Several names are exported as an object literal with one entry per
      name, shortest entries first. */
  lemma ExportsSeveralNames(p: Package, rel: Relative, names: seq<string>)
    requires p.exports == Members(names) && |names| != 1
    ensures var entries := SortByLength(ExportEntries(names));
      ExportsBlock(p, rel) == ExportStatement("{\n" + JoinSep(entries, ",\n") + "\n}")
      && SortedByLength(entries)
      && forall i | 0 <= i < |names| :: TAB + "'" + names[i] + "': " + names[i] in entries
  {
    var entries := SortByLength(ExportEntries(names));
    forall i | 0 <= i < |names|
      ensures TAB + "'" + names[i] + "': " + names[i] in entries
    {
      var e := ExportEntries(names)[i];
      assert e in multiset(ExportEntries(names));
      assert e in multiset(entries);
    }
  }

  // ---------------------------------------------------------------------
  // The file.

  /** The blocks `join` keeps: the non-empty ones, in order. */
  function NonEmpty(blocks: seq<string>): (r: seq<string>)
    ensures forall i | 0 <= i < |r| :: r[i] != ""
    decreases |blocks|
  {
    if blocks == [] then []
    else (if blocks[0] != "" then [blocks[0]] else []) + NonEmpty(blocks[1..])
  }

  /** join: the non-empty blocks separated by a blank line. */
  function Join(blocks: seq<string>): string
  {
    JoinSep(NonEmpty(blocks), BLOCK_DELIMITER)
  }

  lemma {:induction false} NonEmptyAppend(a: seq<string>, b: seq<string>)
    ensures NonEmpty(a + b) == NonEmpty(a) + NonEmpty(b)
    decreases |a|
  {
    if a == [] {
      assert a + b == b;
    } else {
      assert (a + b)[0] == a[0] && (a + b)[1..] == a[1..] + b;
      NonEmptyAppend(a[1..], b);
    }
  }

  /** Empty blocks leave no trace: dropping them does not change the
      text, and a list without them is joined as it is. */
  lemma {:induction false} JoinIgnoresEmpty(a: seq<string>, b: seq<string>)
    ensures Join(a + [""] + b) == Join(a + b)
    ensures (forall i | 0 <= i < |a| :: a[i] != "") ==> Join(a) == JoinSep(a, BLOCK_DELIMITER)
    decreases |a|
  {
    NonEmptyAppend(a + [""], b);
    NonEmptyAppend(a, [""]);
    NonEmptyAppend(a, b);
    assert NonEmpty([""]) == [];
    assert NonEmpty(a) + [] == NonEmpty(a);
    if (forall i | 0 <= i < |a| :: a[i] != "") && a != [] {
      assert a[1..] == a[1..];
      assert forall i | 0 <= i < |a[1..]| :: a[1..][i] == a[i + 1];
      JoinIgnoresEmpty(a[1..], b);
      NonEmptyKeepsAll(a);
    }
  }

  lemma {:induction false} NonEmptyKeepsAll(a: seq<string>)
    requires forall i | 0 <= i < |a| :: a[i] != ""
    ensures NonEmpty(a) == a
    decreases |a|
  {
    if a != [] {
      assert forall i | 0 <= i < |a[1..]| :: a[1..][i] == a[i + 1];
      NonEmptyKeepsAll(a[1..]);
      assert a == [a[0]] + a[1..];
    }
  }

  /** Whether getOutputBody hoists the body and exports above the
      requires: an internal function that exports something. */
  predicate Hoisted(p: Package)
  {
    p.unitType == Some(InternalUnit) && ExportsTruthy(p.exports)
  }

  /** getOutputBody. */
  function OutputBody(top: seq<Entry<Package>>, methods: seq<Entry<Package>>, p: Package, rel: Relative): Result<string>
  {
    var deps := PreparedDeps(top, p);
    var reqs :- RequiresBlock(top, methods, p, deps, rel);
    var assigns := AssignsBlock(top, deps);
    var exports := ExportsBlock(p, rel);
    if Hoisted(p) then
      Ok(Join([STRICT, DECLARES_PREAMBLE + "\n" + p.body, exports, reqs, assigns, p.init]))
    else
      Ok(Join([STRICT, reqs, assigns, p.body, p.init, exports]))
  }

  /** The first three blocks of a join, when none of them is empty, open
      the text in order. */
  lemma {:induction false} JoinOpensWith(a: string, b: string, c: string, rest: seq<string>)
    requires a != "" && b != "" && c != ""
    ensures StartsWith(Join([a, b, c] + rest), a + BLOCK_DELIMITER + b + BLOCK_DELIMITER + c)
  {
    var head := [a, b, c];
    NonEmptyAppend(head, rest);
    NonEmptyKeepsAll(head);
    var text := JoinSep(head, BLOCK_DELIMITER);
    JoinSepCons(a, [b, c], BLOCK_DELIMITER);
    assert head == [a] + [b, c];
    JoinSepCons(b, [c], BLOCK_DELIMITER);
    assert [b, c] == [b] + [c];
    assert text == a + BLOCK_DELIMITER + b + BLOCK_DELIMITER + c;
    if NonEmpty(rest) != [] {
      JoinSepAppend(head, NonEmpty(rest), BLOCK_DELIMITER);
      assert Join(head + rest) == text + BLOCK_DELIMITER + JoinSep(NonEmpty(rest), BLOCK_DELIMITER);
    } else {
      assert head + NonEmpty(rest) == head;
    }
  }

  /** A join opens with its first block when that is not empty, and closes
      with its last block, after a blank line, when that is not empty and
      follows a non-empty one. */
  lemma {:induction false} JoinEnds(a: string, middle: seq<string>, z: string)
    requires a != ""
    ensures StartsWith(Join([a] + middle + [z]), a)
    ensures z != "" ==> EndsWith(Join([a] + middle + [z]), BLOCK_DELIMITER + z)
  {
    NonEmptyAppend([a] + middle, [z]);
    NonEmptyAppend([a], middle);
    NonEmptyKeepsAll([a]);
    var kept := [a] + NonEmpty(middle);
    var front := JoinSep(kept, BLOCK_DELIMITER);
    if NonEmpty(middle) != [] {
      JoinSepAppend([a], NonEmpty(middle), BLOCK_DELIMITER);
    } else {
      assert kept == [a];
    }
    assert StartsWith(front, a);
    if z != "" {
      NonEmptyKeepsAll([z]);
      JoinSepAppend(kept, [z], BLOCK_DELIMITER);
      assert Join([a] + middle + [z]) == front + (BLOCK_DELIMITER + z);
      EndsWithAppended(front, BLOCK_DELIMITER + z);
    } else {
      assert NonEmpty([z]) == [];
      assert kept + [] == kept;
    }
  }

  /** The blocks of a hoisted package, joined: the directive, the hoisted
      body and the exports open the text. */
  lemma JoinOfHoisted(body: string, x: string, b: string, c: string, d: string)
    requires x != ""
    ensures StartsWith(Join([STRICT, DECLARES_PREAMBLE + "\n" + body, x, b, c, d]),
      STRICT + BLOCK_DELIMITER + (DECLARES_PREAMBLE + "\n" + body) + BLOCK_DELIMITER + x)
  {
    var hoisted := DECLARES_PREAMBLE + "\n" + body;
    assert hoisted != "" by {
      assert |hoisted| >= |DECLARES_PREAMBLE|;
    }
    assert [STRICT, hoisted, x] + [b, c, d] == [STRICT, hoisted, x, b, c, d];
    JoinOpensWith(STRICT, hoisted, x, [b, c, d]);
  }

  /** An internal function that exports something opens with the
      directive, the hoisting notice, its body and its exports, before any
      require. */
  lemma OutputHoistsInternal(top: seq<Entry<Package>>, methods: seq<Entry<Package>>, p: Package, rel: Relative)
    requires Hoisted(p) && OutputBody(top, methods, p, rel).Ok?
    ensures StartsWith(OutputBody(top, methods, p, rel).value,
      STRICT + BLOCK_DELIMITER + (DECLARES_PREAMBLE + "\n" + p.body) + BLOCK_DELIMITER + ExportsBlock(p, rel))
  {
    var deps := PreparedDeps(top, p);
    var reqs := RequiresBlock(top, methods, p, deps, rel).value;
    JoinOfHoisted(p.body, ExportsBlock(p, rel), reqs, AssignsBlock(top, deps), p.init);
  }

  /** The blocks of a package that is not hoisted, joined: the directive
      first and, when not empty, the last block last. */
  lemma JoinOfPlain(b: string, c: string, d: string, e: string, z: string)
    ensures StartsWith(Join([STRICT, b, c, d, e, z]), STRICT)
    ensures z != "" ==> EndsWith(Join([STRICT, b, c, d, e, z]), BLOCK_DELIMITER + z)
  {
    assert [STRICT] + [b, c, d, e] + [z] == [STRICT, b, c, d, e, z];
    JoinEnds(STRICT, [b, c, d, e], z);
  }

  /** Any other package opens with the directive and, when it exports
      something, closes with its exports. */
  lemma OutputExportsLast(top: seq<Entry<Package>>, methods: seq<Entry<Package>>, p: Package, rel: Relative)
    requires !Hoisted(p) && OutputBody(top, methods, p, rel).Ok?
    ensures StartsWith(OutputBody(top, methods, p, rel).value, STRICT)
    ensures ExportsTruthy(p.exports) ==> EndsWith(OutputBody(top, methods, p, rel).value, BLOCK_DELIMITER + ExportsBlock(p, rel))
  {
    var deps := PreparedDeps(top, p);
    var reqs := RequiresBlock(top, methods, p, deps, rel).value;
    JoinOfPlain(reqs, AssignsBlock(top, deps), p.body, p.init, ExportsBlock(p, rel));
  }

  /** writePackage: an alias package is not written; any other is written
      to `release/npm/sugar/<path>/<name>.js`. */
  function WritePackage(top: seq<Entry<Package>>, methods: seq<Entry<Package>>, name: string, p: Package, rel: Relative): (r: Result<Option<OutputFile>>)
    ensures p.alias != "" ==> r == Ok(None)
    ensures p.alias == "" ==> (r.Ok? <==> OutputBody(top, methods, p, rel).Ok?)
    ensures r.Ok? ==> (r.value.Some? <==> p.alias == "")
    ensures r.Ok? && r.value.Some? ==>
      r.value.value.text == OutputBody(top, methods, p, rel).value
      && r.value.value.path == PathJoin(PathJoin(NPM_DESTINATION, p.path), name + ".js")
  {
    if p.alias != "" then Ok(None)
    else
      var text :- OutputBody(top, methods, p, rel);
      Ok(Some(OutputFile(PathJoin(PathJoin(NPM_DESTINATION, p.path), name + ".js"), text)))
  }

  /** writePackage as the script runs it: prepareDeps sorts and collapses
      the dependency list, then the blocks are built and joined. */
  method EmitPackage(top: seq<Entry<Package>>, methods: seq<Entry<Package>>, name: string, p: Package, rel: Relative)
    returns (r: Result<Option<OutputFile>>)
    ensures r == WritePackage(top, methods, name, p, rel)
  {
    if p.alias != "" {
      return Ok(None);
    }
    var deps := GroupAliases(top, SortByLength(p.dependencies));
    var reqs := RequiresBlock(top, methods, p, deps, rel);
    if reqs.Err? {
      return Err(reqs.error);
    }
    var assigns := Assigns(top, deps);
    var exports := ExportsBlock(p, rel);
    var text;
    if Hoisted(p) {
      text := Join([STRICT, DECLARES_PREAMBLE + "\n" + p.body, exports, reqs.value, assigns, p.init]);
    } else {
      text := Join([STRICT, reqs.value, assigns, p.body, p.init, exports]);
    }
    return Ok(Some(OutputFile(PathJoin(PathJoin(NPM_DESTINATION, p.path), name + ".js"), text)));
  }
}

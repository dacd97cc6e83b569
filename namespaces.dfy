/** Namespace tracking and comment lookup inside parseModule
    (gulpfile.js:632-670, 828-854).

    While acorn parses a module it reports every comment; the comment is
    stored under its end line, and a comment carrying `@namespace X` or
    `@package X` opens a namespace boundary at that line. A boundary is
    stored only when the next one opens, or when parsing ends and the last
    one is flushed. A node belongs to the last stored boundary that starts
    on a line strictly above it. */
module Namespaces {
  import opened Prelude

  datatype Comment = Comment(text: string, block: bool)
  datatype Boundary = Boundary(name: string, line: nat)

  /** A comment as acorn reports it: its text and the line it ends on. */
  datatype CommentAt = CommentAt(comment: Comment, endLine: nat)

  // ---------------------------------------------------------------------
  // The tag regular expression /@(namespace|package) \w+/g.

  /** The namespace name of a tag that starts at offset `k`, if one does. */
  function TagAt(text: string, k: nat): (r: Option<string>)
    ensures r.Some? ==> IsWord(r.value)
    ensures r.Some? ==> OccursAt(text, "@namespace " + r.value, k) || OccursAt(text, "@package " + r.value, k)
  {
    if OccursAt(text, "@namespace ", k) && k + 11 < |text| && IsWordChar(text[k + 11]) then
      var e := WordEnd(text, k + 11);
      OccursAtExtended(text, "@namespace ", k, e);
      Some(text[k + 11..e])
    else if OccursAt(text, "@package ", k) && k + 9 < |text| && IsWordChar(text[k + 9]) then
      var e := WordEnd(text, k + 9);
      OccursAtExtended(text, "@package ", k, e);
      Some(text[k + 9..e])
    else None
  }

  /** The names of all tags from offset `k` on, found left to right, each
      search resuming after the previous match. */
  function TagNames(text: string, k: nat): (r: seq<string>)
    ensures forall i | 0 <= i < |r| :: IsWord(r[i])
    decreases |text| - k
  {
    if k >= |text| then []
    else
      match TagAt(text, k)
      case Some(w) => [w] + TagNames(text, k + 1 + |w|)
      case None => TagNames(text, k + 1)
  }

  /** `matches[matches.length - 1]`'s name: the namespace a comment opens. */
  function LastNamespaceTag(text: string): (r: Option<string>)
    ensures r.Some? ==> IsWord(r.value)
    ensures r.None? <==> TagNames(text, 0) == []
  {
    var names := TagNames(text, 0);
    if names == [] then None else Some(names[|names| - 1])
  }

  /** A comment with no `@` opens no namespace. */
  lemma {:induction false} NoTagWithoutAt(text: string, k: nat)
    requires forall i | 0 <= i < |text| :: text[i] != '@'
    ensures TagNames(text, k) == []
    decreases |text| - k
  {
    if k < |text| {
      OccursAtHead(text, "@namespace ", k);
      OccursAtHead(text, "@package ", k);
      NoTagWithoutAt(text, k + 1);
    }
  }

  // ---------------------------------------------------------------------
  // Boundaries and the namespace of a line.

  /** The boundaries a run of comments stores, in order, once the last one
      has been flushed: one per comment that carries a tag. */
  function TaggedBoundaries(cs: seq<CommentAt>): seq<Boundary>
  {
    if cs == [] then []
    else
      var last := cs[|cs| - 1];
      TaggedBoundaries(cs[..|cs| - 1]) +
        match LastNamespaceTag(last.comment.text)
        case None => []
        case Some(ns) => [Boundary(ns, last.endLine)]
  }

  /** The name of the last boundary whose line is strictly less than `line`. */
  function NamespaceAt(ranges: seq<Boundary>, line: nat): (r: Option<string>)
  {
    if ranges == [] then None
    else if ranges[|ranges| - 1].line < line then Some(ranges[|ranges| - 1].name)
    else NamespaceAt(ranges[..|ranges| - 1], line)
  }

  /** The namespace of a line is that of the last boundary above it; there
      is none exactly when every boundary starts at or below the line. */
  lemma {:induction false} NamespaceAtIsLastAbove(ranges: seq<Boundary>, line: nat)
    ensures NamespaceAt(ranges, line).None? <==> forall i | 0 <= i < |ranges| :: ranges[i].line >= line
    ensures NamespaceAt(ranges, line).Some? ==>
      exists i | 0 <= i < |ranges| :: ranges[i].line < line && ranges[i].name == NamespaceAt(ranges, line).value
        && forall j | i < j < |ranges| :: ranges[j].line >= line
    decreases |ranges|
  {
    if ranges != [] {
      var k := |ranges| - 1;
      var init := ranges[..k];
      NamespaceAtIsLastAbove(init, line);
      if ranges[k].line >= line && NamespaceAt(init, line).Some? {
        var i :| 0 <= i < |init| && init[i].line < line && init[i].name == NamespaceAt(init, line).value
          && forall j | i < j < |init| :: init[j].line >= line;
        assert ranges[i] == init[i];
        assert forall j | i < j < |ranges| :: ranges[j].line >= line by {
          forall j | i < j < |ranges|
            ensures ranges[j].line >= line
          {
            if j < k {
              assert ranges[j] == init[j];
            }
          }
        }
      }
      if ranges[k].line >= line {
        assert forall i | 0 <= i < |init| :: ranges[i] == init[i];
      }
    }
  }

  /** `namespace + '|' + name`, where an undefined namespace prints as
      "undefined". */
  function FullMethodKey(ns: Option<string>, name: string): (r: string)
    ensures ns.Some? ==> r == ns.value + "|" + name
  {
    (if ns.Some? then ns.value else "undefined") + "|" + name
  }

  // ---------------------------------------------------------------------
  // The comment before a node and the method names it lists.

  /** The comment that ends on the nearest line strictly above `line`. */
  function NearestComment(comments: map<nat, Comment>, line: nat): (r: Option<Comment>)
    decreases line
  {
    if line == 0 then None
    else if line - 1 in comments then Some(comments[line - 1])
    else NearestComment(comments, line - 1)
  }

  /** There is a nearest comment exactly when some comment ends above the
      line, and it is the one ending on the closest line above. */
  lemma {:induction false} NearestCommentIsClosest(comments: map<nat, Comment>, line: nat)
    ensures NearestComment(comments, line).None? <==> forall l: nat | l < line :: l !in comments
    ensures NearestComment(comments, line).Some? ==>
      exists l: nat | l < line :: l in comments && comments[l] == NearestComment(comments, line).value
        && (forall m: nat | l < m < line :: m !in comments)
    decreases line
  {
    if line > 0 && line - 1 !in comments {
      NearestCommentIsClosest(comments, line - 1);
      if NearestComment(comments, line).Some? {
        var l: nat :| l < line - 1 && l in comments && comments[l] == NearestComment(comments, line).value
          && (forall m: nat | l < m < line - 1 :: m !in comments);
        assert forall m: nat | l < m < line :: m !in comments;
      }
    } else if line > 0 {
      assert (line - 1) as nat in comments;
    }
  }

  predicate IsSpaceOrStar(c: char)
  {
    IsSpace(c) || c == '*'
  }

  predicate EndsSetRun(c: char)
  {
    c == '@' || c == '/'
  }

  /** The end of the run of characters other than `@` and `/` from `i`. */
  function SetRunEnd(s: string, i: nat): (j: nat)
    requires i <= |s|
    ensures i <= j <= |s|
    ensures forall k | i <= k < j :: !EndsSetRun(s[k])
    ensures j < |s| ==> EndsSetRun(s[j])
    decreases |s| - i
  {
    if i < |s| && !EndsSetRun(s[i]) then SetRunEnd(s, i + 1) else i
  }

  /** `block.match(/@set([^@\/]+)/)[1]`: the text after the first `@set` that
      is followed by at least one character other than `@` and `/`. */
  function SetList(block: string, from: nat): (r: Option<string>)
    ensures r.Some? ==> |r.value| > 0 && forall k | 0 <= k < |r.value| :: !EndsSetRun(r.value[k])
    decreases |block| - from
  {
    if from + 4 >= |block| then None
    else if OccursAt(block, "@set", from) && !EndsSetRun(block[from + 4]) then
      Some(block[from + 4..SetRunEnd(block, from + 4)])
    else SetList(block, from + 1)
  }

  /** `block.match(/@method (\w+)/)[1]`. */
  function MethodTag(block: string, from: nat): (r: Option<string>)
    ensures r.Some? ==> IsWord(r.value)
    decreases |block| - from
  {
    if from + 8 >= |block| then None
    else if OccursAt(block, "@method ", from) && IsWordChar(block[from + 8]) then
      Some(block[from + 8..WordEnd(block, from + 8)])
    else MethodTag(block, from + 1)
  }

  /** Drops the leading and the trailing run of white space and asterisks:
      `replace(/^[\s*]*|[\s*]*$/g, '')`. */
  function TrimSpaceOrStar(s: string): (r: string)
    ensures |r| <= |s|
  {
    if s == [] then s
    else if IsSpaceOrStar(s[0]) then TrimSpaceOrStar(s[1..])
    else if IsSpaceOrStar(s[|s| - 1]) then TrimSpaceOrStar(s[..|s| - 1])
    else s
  }

  /** Replaces every run of white space and asterisks by one comma:
      `replace(/[\s*]+/g, ',')`. */
  function CollapseToCommas(s: string): (r: string)
    ensures forall k | 0 <= k < |r| :: !IsSpaceOrStar(r[k])
    decreases |s|
  {
    if s == [] then []
    else if IsSpaceOrStar(s[0]) then "," + CollapseToCommas(s[SpaceOrStarEnd(s, 0)..])
    else [s[0]] + CollapseToCommas(s[1..])
  }

  function SpaceOrStarEnd(s: string, i: nat): (j: nat)
    requires i <= |s|
    ensures i <= j <= |s|
    ensures i < |s| && IsSpaceOrStar(s[i]) ==> j > i
    decreases |s| - i
  {
    if i < |s| && IsSpaceOrStar(s[i]) then SpaceOrStarEnd(s, i + 1) else i
  }

  /** The method names one `***`-separated block of a comment lists: the
      comma-separated `@set` list if there is one, else the `@method` name. */
  function BlockMethodNames(block: string): seq<string>
  {
    match SetList(block, 0)
    case Some(list) => Split(CollapseToCommas(TrimSpaceOrStar(list)), ",")
    case None =>
      match MethodTag(block, 0)
      case Some(name) => [name]
      case None => []
  }

  function AllBlockMethodNames(blocks: seq<string>): seq<string>
  {
    if blocks == [] then [] else AllBlockMethodNames(blocks[..|blocks| - 1]) + BlockMethodNames(blocks[|blocks| - 1])
  }

  /** getAllMethodNamesInPreviousComment for a comment's text. */
  function CommentMethodNames(text: string): seq<string>
  {
    AllBlockMethodNames(Split(text, "***"))
  }

  predicate IsCleanName(name: string)
  {
    forall k | 0 <= k < |name| :: name[k] != ',' && !IsSpaceOrStar(name[k])
  }

  /** Every name read from a comment is free of commas, white space and
      asterisks: `@set` lists are cut at exactly those characters, and a
      `@method` name is a \w word. */
  lemma BlockMethodNamesClean(block: string)
    ensures forall name | name in BlockMethodNames(block) :: IsCleanName(name)
  {
    match SetList(block, 0)
    case Some(list) =>
      CollapsedPiecesClean(CollapseToCommas(TrimSpaceOrStar(list)));
    case None =>
  }

  /** Cutting a text free of white space and asterisks at its commas gives
      clean names. */
  lemma CollapsedPiecesClean(collapsed: string)
    requires forall k | 0 <= k < |collapsed| :: !IsSpaceOrStar(collapsed[k])
    ensures forall name | name in Split(collapsed, ",") :: IsCleanName(name)
  {
    SplitPiecesLackSeparator(collapsed, ",");
    SplitPiecesFrom(collapsed, ",");
    forall name | name in Split(collapsed, ",")
      ensures IsCleanName(name)
    {
      forall k | 0 <= k < |name|
        ensures name[k] != ','
      {
        assert name[k] == ',' ==> OccursAt(name, ",", k);
      }
    }
  }

  lemma {:induction false} CommentMethodNamesClean(text: string)
    ensures forall name | name in CommentMethodNames(text) :: IsCleanName(name)
  {
    AllBlockMethodNamesClean(Split(text, "***"));
  }

  lemma {:induction false} AllBlockMethodNamesClean(blocks: seq<string>)
    ensures forall name | name in AllBlockMethodNames(blocks) :: IsCleanName(name)
    decreases |blocks|
  {
    if blocks != [] {
      AllBlockMethodNamesClean(blocks[..|blocks| - 1]);
      BlockMethodNamesClean(blocks[|blocks| - 1]);
    }
  }

  /** A name that a `@set` list can carry: not empty, clean, and free of the
      `@` and `/` that end the list. */
  predicate IsListableName(name: string)
  {
    name != [] && IsCleanName(name) && forall k | 0 <= k < |name| :: !EndsSetRun(name[k])
  }

  /** A `@set` list of names joined by commas reads back as exactly those
      names. */
  lemma SetBlockRoundTrip(names: seq<string>)
    requires |names| > 0 && forall i | 0 <= i < |names| :: IsListableName(names[i])
    ensures BlockMethodNames("@set " + JoinSep(names, ",")) == names
  {
    var j := JoinSep(names, ",");
    JoinListable(names);
    JoinSepEnds(names, ",");
    SetListOfRun("@set " + j, j);
    TrimKeeps(j);
    CollapseKeeps(j);
    forall i | 0 <= i < |names|
      ensures !Contains(names[i], ",")
    {
      CleanLacksComma(names[i]);
    }
    SplitJoinPieces(names, ",");
  }

  /** Joining listable names by commas gives a run with no white space, no
      asterisk, no `@` and no `/`. */
  lemma JoinListable(names: seq<string>)
    requires forall i | 0 <= i < |names| :: IsListableName(names[i])
    ensures var j := JoinSep(names, ",");
      forall k | 0 <= k < |j| :: !EndsSetRun(j[k]) && !IsSpaceOrStar(j[k])
  {
    JoinSepKeeps(names, ",", c => !EndsSetRun(c) && !IsSpaceOrStar(c));
  }

  /** `@set ` followed by a run free of `@` and `/` lists that whole run. */
  lemma SetListOfRun(block: string, j: string)
    requires block == "@set " + j
    requires j != [] && forall k | 0 <= k < |j| :: !EndsSetRun(j[k])
    ensures SetList(block, 0) == Some(" " + j)
  {
    assert block[..4] == "@set";
    assert OccursAt(block, "@set", 0);
    assert block[4] == ' ';
    var r := SetRunEnd(block, 4);
    assert r == |block|;
    assert block[4..r] == " " + j;
  }

  /** Trimming drops the one leading blank and keeps a text that neither
      opens nor closes with white space or an asterisk. */
  lemma TrimKeeps(j: string)
    requires j != [] && !IsSpaceOrStar(j[0]) && !IsSpaceOrStar(j[|j| - 1])
    ensures TrimSpaceOrStar(" " + j) == j
  {
    assert (" " + j)[1..] == j;
  }

  /** Collapsing changes nothing in a text without white space or asterisks. */
  lemma {:induction false} CollapseKeeps(s: string)
    requires forall k | 0 <= k < |s| :: !IsSpaceOrStar(s[k])
    ensures CollapseToCommas(s) == s
    decreases |s|
  {
    if s != [] {
      CollapseKeeps(s[1..]);
    }
  }

  lemma CleanLacksComma(name: string)
    requires IsCleanName(name)
    ensures !Contains(name, ",")
  {
    LacksChar(name, ',');
  }

  /** A `@set` list of nothing but asterisks gives one empty name: the list
      trims to the empty text, and splitting it gives one empty piece. */
  lemma StarOnlySetGivesEmptyName()
    ensures BlockMethodNames("@set *") == [""]
  {
    var block := "@set *";
    assert block[..4] == "@set";
    assert SetRunEnd(block, 6) == 6;
    assert SetRunEnd(block, 5) == 6;
    assert SetRunEnd(block, 4) == 6;
    assert block[4..6] == " *";
    assert SetList(block, 0) == Some(" *");
    assert TrimSpaceOrStar(" *") == "";
  }

  // ---------------------------------------------------------------------
  // The tracker: parseModule's comment table and namespace ranges.

  class NamespaceTracker {
    var comments: map<nat, Comment>   // commentsByEndLine
    var ranges: seq<Boundary>         // namespaceRanges
    var current: Option<Boundary>     // currentNamespaceRange

    constructor()
      ensures comments == map[] && ranges == [] && current == None
    {
      comments := map[];
      ranges := [];
      current := None;
    }

    /** namespaceBoundary: stores the open boundary, then opens the named
        one, if a name is given. */
    method NamespaceBoundary(ns: Option<string>, line: nat)
      modifies this
      ensures ranges == old(ranges) + OptSeq(old(current))
      ensures current == if ns.Some? && ns.value != "" then Some(Boundary(ns.value, line)) else old(current)
      ensures comments == old(comments)
    {
      if current.Some? {
        ranges := ranges + [current.value];
      }
      if ns.Some? && ns.value != "" {
        current := Some(Boundary(ns.value, line));
      }
    }

    /** onComment: records the comment under its end line and, if it
        carries a namespace tag, opens a boundary there. Stored and open
        boundaries together grow by exactly the comment's tag. */
    method OnComment(c: CommentAt)
      modifies this
      ensures comments == old(comments)[c.endLine := c.comment]
      ensures ranges + OptSeq(current) == old(ranges + OptSeq(current)) + TaggedBoundaries([c])
      ensures LastNamespaceTag(c.comment.text).None? ==> ranges == old(ranges) && current == old(current)
    {
      comments := comments[c.endLine := c.comment];
      var tag := LastNamespaceTag(c.comment.text);
      assert [c][..0] == [];
      if tag.Some? {
        NamespaceBoundary(tag, c.endLine);
      }
    }

    /** getNamespaceForNode: the forEach over the stored ranges. */
    method NamespaceFor(line: nat) returns (r: Option<string>)
      ensures r == NamespaceAt(ranges, line)
    {
      r := None;
      var i := 0;
      while i < |ranges|
        invariant 0 <= i <= |ranges|
        invariant r == NamespaceAt(ranges[..i], line)
      {
        assert ranges[..i + 1][..i] == ranges[..i];
        if ranges[i].line < line {
          r := Some(ranges[i].name);
        }
        i := i + 1;
      }
      assert ranges[..i] == ranges;
    }

    /** getLastCommentForNode: steps up one line at a time. */
    method LastCommentBefore(line: nat) returns (r: Option<Comment>)
      ensures r == NearestComment(comments, line)
    {
      var l: nat := line;
      r := None;
      while r.None? && l > 0
        invariant l <= line
        invariant r.None? ==> NearestComment(comments, line) == NearestComment(comments, l)
        invariant r.Some? ==> r == NearestComment(comments, line)
        decreases l
      {
        l := l - 1;
        if l in comments {
          r := Some(comments[l]);
        }
      }
    }

    /** getAllMethodNamesInPreviousComment; reading `.text` of a missing
        comment is a TypeError. */
    method MethodNamesInPreviousComment(line: nat) returns (r: Result<seq<string>>)
      ensures NearestComment(comments, line).None? ==> r == Err(TypeError("comment is undefined"))
      ensures NearestComment(comments, line).Some? ==> r == Ok(CommentMethodNames(NearestComment(comments, line).value.text))
    {
      var comment := LastCommentBefore(line);
      if comment.None? {
        return Err(TypeError("comment is undefined"));
      }
      var blocks := Split(comment.value.text, "***");
      var names := [];
      var i := 0;
      while i < |blocks|
        invariant 0 <= i <= |blocks|
        invariant names == AllBlockMethodNames(blocks[..i])
      {
        assert blocks[..i + 1][..i] == blocks[..i];
        names := names + BlockMethodNames(blocks[i]);
        i := i + 1;
      }
      assert blocks[..i] == blocks;
      return Ok(names);
    }
  }
}

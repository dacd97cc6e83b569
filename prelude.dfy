/** Shared vocabulary of the modularizer: optional values, results and the
    errors that stop a run, plus the JavaScript string and array operations
    the build script relies on (String.prototype.slice, split, join, the
    regular-expression classes \s and \w, and "push if not already there"). */
module Prelude {

  datatype Option<T> = None | Some(value: T)

  /** Every way a modularize run stops. None of them is recovered from. */
  datatype Error =
    | UnknownNode(nodeType: string)          // the dependency walk met a node kind it has no rule for
    | UnknownTopLevelNode(nodeType: string)  // a top-level statement of no recognised shape
    | MissingDependency(name: string)        // a name to require is in neither registry
    | TypeError(reason: string)              // the script reads a property of undefined
    | FileNotFound(path: string)             // a library module is missing on disk

  datatype Result<T> = Ok(value: T) | Err(error: Error) {
    predicate IsFailure() { Err? }
    function PropagateFailure<U>(): Result<U> requires Err? { Err(error) }
    function Extract(): T requires Ok? { value }
  }

  /** The outcome of a step that changes state and returns nothing. */
  datatype Outcome = Done | Failed(error: Error) {
    predicate IsFailure() { Failed? }
    function PropagateFailure(): Outcome requires Failed? { this }
  }

  function OptSeq<T>(o: Option<T>): seq<T>
  {
    match o
    case None => []
    case Some(x) => [x]
  }

  // ---------------------------------------------------------------------
  // Arrays without duplicates: `if (xs.indexOf(x) === -1) xs.push(x)`.

  predicate NoDup<T(==)>(s: seq<T>)
  {
    forall i, j | 0 <= i < j < |s| :: s[i] != s[j]
  }

  function PushUnique<T(==)>(acc: seq<T>, x: T): seq<T>
  {
    if x in acc then acc else acc + [x]
  }

  /** Pushes every element of `xs`, in order, each only if not yet present. */
  function AddAll<T(==)>(acc: seq<T>, xs: seq<T>): seq<T>
    decreases |xs|
  {
    if xs == [] then acc else PushUnique(AddAll(acc, xs[..|xs| - 1]), xs[|xs| - 1])
  }

  lemma {:induction false} AddAllMembership<T>(acc: seq<T>, xs: seq<T>, x: T)
    ensures x in AddAll(acc, xs) <==> x in acc || x in xs
    decreases |xs|
  {
    if xs != [] {
      var init := xs[..|xs| - 1];
      AddAllMembership(acc, init, x);
      assert xs == init + [xs[|xs| - 1]];
    }
  }

  lemma {:induction false} AddAllNoDup<T>(acc: seq<T>, xs: seq<T>)
    requires NoDup(acc)
    ensures NoDup(AddAll(acc, xs))
    decreases |xs|
  {
    if xs != [] {
      AddAllNoDup(acc, xs[..|xs| - 1]);
    }
  }

  lemma {:induction false} AddAllPrefix<T>(acc: seq<T>, xs: seq<T>)
    ensures acc <= AddAll(acc, xs)
    decreases |xs|
  {
    if xs != [] {
      AddAllPrefix(acc, xs[..|xs| - 1]);
    }
  }

  /** Pushing two batches one after the other is pushing their concatenation. */
  lemma {:induction false} AddAllConcat<T>(acc: seq<T>, xs: seq<T>, ys: seq<T>)
    ensures AddAll(acc, xs + ys) == AddAll(AddAll(acc, xs), ys)
    decreases |ys|
  {
    if ys == [] {
      assert xs + ys == xs;
    } else {
      var init := ys[..|ys| - 1];
      assert (xs + ys)[..|xs + ys| - 1] == xs + init;
      AddAllConcat(acc, xs, init);
    }
  }

  /** `arr.splice(arr.indexOf(x), 1)`: removes the first occurrence of `x`. */
  function RemoveFirst(s: seq<string>, x: string): (r: seq<string>)
    ensures x !in s ==> r == s
    ensures x in s ==> |r| == |s| - 1
  {
    if s == [] then []
    else if s[0] == x then s[1..]
    else [s[0]] + RemoveFirst(s[1..], x)
  }

  /** On a list without duplicates, removing the first `x` removes every `x`
      and nothing else. */
  lemma {:induction false} RemoveFirstNoDup(s: seq<string>, x: string)
    requires NoDup(s)
    ensures NoDup(RemoveFirst(s, x))
    ensures forall y :: y in RemoveFirst(s, x) <==> y in s && y != x
  {
    if s != [] {
      assert forall j | 0 < j < |s| :: s[0] != s[j];
      assert s[0] !in s[1..];
      RemoveFirstNoDup(s[1..], x);
    }
  }

  // ---------------------------------------------------------------------
  // Objects used as dictionaries. A JavaScript object iterates its string
  // keys in insertion order, and assigning to an existing key keeps its
  // place, so a dictionary is a list of entries with distinct keys.

  datatype Entry<V> = Entry(key: string, value: V)

  function Keys<V>(d: seq<Entry<V>>): (r: seq<string>)
    ensures |r| == |d|
    ensures forall i | 0 <= i < |d| :: r[i] == d[i].key
  {
    if d == [] then [] else [d[0].key] + Keys(d[1..])
  }

  /** `obj[key]`: the value stored under `key`, if any. */
  function Lookup<V>(d: seq<Entry<V>>, key: string): (r: Option<V>)
    ensures r.None? <==> key !in Keys(d)
  {
    if d == [] then None
    else if d[0].key == key then Some(d[0].value)
    else Lookup(d[1..], key)
  }

  /** `obj[key] = value`. */
  function Put<V>(d: seq<Entry<V>>, key: string, value: V): (r: seq<Entry<V>>)
    ensures Keys(r) == if key in Keys(d) then Keys(d) else Keys(d) + [key]
  {
    if d == [] then [Entry(key, value)]
    else if d[0].key == key then [Entry(key, value)] + d[1..]
    else [d[0]] + Put(d[1..], key, value)
  }

  /** After `obj[key] = value`, reading `key` gives `value` and every other
      key reads as before. */
  lemma {:induction false} LookupPut<V>(d: seq<Entry<V>>, key: string, value: V, other: string)
    ensures Lookup(Put(d, key, value), key) == Some(value)
    ensures other != key ==> Lookup(Put(d, key, value), other) == Lookup(d, other)
  {
    if d != [] && d[0].key != key {
      LookupPut(d[1..], key, value, other);
    }
  }

  /** Assignment never duplicates a key. */
  lemma PutKeepsKeysUnique<V>(d: seq<Entry<V>>, key: string, value: V)
    requires NoDup(Keys(d))
    ensures NoDup(Keys(Put(d, key, value)))
  {
  }

  // ---------------------------------------------------------------------
  // Strings.

  predicate StartsWith(s: string, prefix: string)
  {
    |prefix| <= |s| && s[..|prefix|] == prefix
  }

  predicate EndsWith(s: string, suffix: string)
  {
    |suffix| <= |s| && s[|s| - |suffix|..] == suffix
  }

  lemma EndsWithAppended(s: string, suffix: string)
    ensures EndsWith(s + suffix, suffix)
  {
    assert (s + suffix)[|s|..] == suffix;
  }

  /** The index String.prototype.slice uses for a start or end argument. */
  function SliceIndex(len: nat, i: int): (r: nat)
    ensures r <= len
  {
    if i < 0 then (if len + i < 0 then 0 else len + i)
    else if i > len then len
    else i
  }

  /** `s.slice(a, b)`: negative indexes count from the end, out-of-range
      indexes are clamped, and an empty string comes back when a >= b. */
  function Slice(s: string, a: int, b: int): (r: string)
    ensures |r| <= |s|
    ensures 0 <= a <= b <= |s| ==> r == s[a..b]
  {
    var i := SliceIndex(|s|, a);
    var j := SliceIndex(|s|, b);
    if i < j then s[i..j] else ""
  }

  /** `xs.join(sep)` over strings. */
  function JoinSep(xs: seq<string>, sep: string): string
  {
    if xs == [] then ""
    else if |xs| == 1 then xs[0]
    else xs[0] + sep + JoinSep(xs[1..], sep)
  }

  predicate OccursAt(s: string, sep: string, k: int)
  {
    0 <= k && k + |sep| <= |s| && s[k..k + |sep|] == sep
  }

  /** An occurrence extends by whatever follows it. */
  lemma OccursAtExtended(s: string, sep: string, k: nat, e: nat)
    requires OccursAt(s, sep, k) && k + |sep| <= e <= |s|
    ensures OccursAt(s, sep + s[k + |sep|..e], k)
  {
    assert s[k..e] == s[k..k + |sep|] + s[k + |sep|..e];
  }

  lemma OccursAtHead(s: string, pat: string, k: int)
    ensures OccursAt(s, pat, k) && |pat| > 0 ==> s[k] == pat[0]
  {
    if OccursAt(s, pat, k) && |pat| > 0 {
      assert s[k..k + |pat|][0] == s[k];
    }
  }

  ghost predicate Contains(s: string, sep: string)
  {
    exists k :: OccursAt(s, sep, k)
  }

  /** The first index at or after `from` where `sep` occurs in `s`. */
  function IndexOfFrom(s: string, sep: string, from: nat): (r: Option<nat>)
    requires |sep| > 0
    ensures r.Some? ==> from <= r.value && OccursAt(s, sep, r.value)
    ensures r.Some? ==> forall k | from <= k < r.value :: !OccursAt(s, sep, k)
    ensures r.None? ==> forall k | from <= k :: !OccursAt(s, sep, k)
    decreases |s| - from
  {
    if from + |sep| > |s| then None
    else if s[from..from + |sep|] == sep then Some(from)
    else IndexOfFrom(s, sep, from + 1)
  }

  /** `s.split(sep)` for a non-empty separator string. */
  function Split(s: string, sep: string): (r: seq<string>)
    requires |sep| > 0
    ensures |r| >= 1
    decreases |s|
  {
    match IndexOfFrom(s, sep, 0)
    case None => [s]
    case Some(i) => [s[..i]] + Split(s[i + |sep|..], sep)
  }

  /** A text none of whose characters is `c` holds no occurrence of `[c]`. */
  lemma LacksChar(s: string, c: char)
    requires forall k | 0 <= k < |s| :: s[k] != c
    ensures !Contains(s, [c])
  {
    forall k
      ensures !OccursAt(s, [c], k)
    {
      if 0 <= k < |s| {
        assert s[k] != c;
        assert k + 1 <= |s| ==> s[k..k + 1][0] == s[k];
      }
    }
  }

  /** A string without the separator splits into itself. */
  lemma NoOccurrence(s: string, sep: string)
    requires |sep| > 0 && !Contains(s, sep)
    ensures Split(s, sep) == [s]
  {
  }

  lemma JoinSepCons(x: string, xs: seq<string>, sep: string)
    requires |xs| >= 1
    ensures JoinSep([x] + xs, sep) == x + sep + JoinSep(xs, sep)
  {
    assert ([x] + xs)[1..] == xs;
  }

  /** Joining two non-empty lists one after the other puts one separator
      between them. */
  lemma {:induction false} JoinSepAppend(a: seq<string>, b: seq<string>, sep: string)
    requires |a| >= 1 && |b| >= 1
    ensures JoinSep(a + b, sep) == JoinSep(a, sep) + sep + JoinSep(b, sep)
    decreases |a|
  {
    if |a| == 1 {
      assert a + b == [a[0]] + b;
      JoinSepCons(a[0], b, sep);
    } else {
      JoinSepAppend(a[1..], b, sep);
      assert a + b == [a[0]] + (a[1..] + b);
      JoinSepCons(a[0], a[1..] + b, sep);
      assert a == [a[0]] + a[1..];
      JoinSepCons(a[0], a[1..], sep);
    }
  }

  /** Splitting and joining again with the same separator gives the text back. */
  lemma {:induction false} SplitJoinRoundTrip(s: string, sep: string)
    requires |sep| > 0
    ensures JoinSep(Split(s, sep), sep) == s
    decreases |s|
  {
    match IndexOfFrom(s, sep, 0)
    case None =>
    case Some(i) =>
      var rest := s[i + |sep|..];
      var pieces := Split(rest, sep);
      calc {
        JoinSep(Split(s, sep), sep);
        JoinSep([s[..i]] + pieces, sep);
        { JoinSepCons(s[..i], pieces, sep); }
        s[..i] + sep + JoinSep(pieces, sep);
        { SplitJoinRoundTrip(rest, sep); }
        s[..i] + sep + rest;
        { SplitAround(s, i, i + |sep|); }
        s;
      }
  }

  /** Joining pieces that lack a one-character separator and splitting
      again gives the pieces back. */
  lemma {:induction false} SplitJoinPieces(pieces: seq<string>, sep: string)
    requires |sep| == 1 && |pieces| > 0
    requires forall i | 0 <= i < |pieces| :: !Contains(pieces[i], sep)
    ensures Split(JoinSep(pieces, sep), sep) == pieces
    decreases |pieces|
  {
    if |pieces| == 1 {
      NoOccurrence(pieces[0], sep);
    } else {
      var rest := pieces[1..];
      SplitJoinPieces(rest, sep);
      JoinSepCons(pieces[0], rest, sep);
      assert pieces == [pieces[0]] + rest;
      SplitAfterPiece(pieces[0], JoinSep(rest, sep), sep);
    }
  }

  /** Splitting `a + sep + b`, where `a` does not contain the one-character
      separator, cuts exactly after `a`. */
  lemma SplitAfterPiece(a: string, b: string, sep: string)
    requires |sep| == 1 && !Contains(a, sep)
    ensures Split(a + sep + b, sep) == [a] + Split(b, sep)
  {
    var s := a + sep + b;
    assert s[|a|..|a| + 1] == sep;
    assert OccursAt(s, sep, |a|);
    forall k | 0 <= k < |a|
      ensures !OccursAt(s, sep, k)
    {
      assert s[k..k + 1] == a[k..k + 1];
      assert !OccursAt(a, sep, k);
    }
    assert IndexOfFrom(s, sep, 0) == Some(|a|);
    assert s[..|a|] == a;
    assert s[|a| + 1..] == b;
  }

  /** Every character of a join is a character of a piece or of the
      separator, so a property all of those have holds throughout the join. */
  lemma {:induction false} JoinSepKeeps(xs: seq<string>, sep: string, p: char -> bool)
    requires forall i, k | 0 <= i < |xs| && 0 <= k < |xs[i]| :: p(xs[i][k])
    requires forall k | 0 <= k < |sep| :: p(sep[k])
    ensures forall k | 0 <= k < |JoinSep(xs, sep)| :: p(JoinSep(xs, sep)[k])
    decreases |xs|
  {
    if |xs| > 1 {
      var rest := xs[1..];
      JoinSepKeeps(rest, sep, p);
      var tail := JoinSep(rest, sep);
      assert forall k | 0 <= k < |xs[0]| :: p(xs[0][k]);
      forall k | 0 <= k < |xs[0] + sep + tail|
        ensures p((xs[0] + sep + tail)[k])
      {
        if k >= |xs[0]| + |sep| {
          assert (xs[0] + sep + tail)[k] == tail[k - |xs[0]| - |sep|];
        }
      }
    } else if |xs| == 1 {
      assert forall k | 0 <= k < |xs[0]| :: p(xs[0][k]);
    }
  }

  /** A join of pieces that are not empty opens with the first piece's
      first character and closes with the last piece's last character. */
  lemma {:induction false} JoinSepEnds(xs: seq<string>, sep: string)
    requires |xs| > 0 && forall i | 0 <= i < |xs| :: xs[i] != []
    ensures var j := JoinSep(xs, sep);
      j != [] && j[0] == xs[0][0] && j[|j| - 1] == xs[|xs| - 1][|xs[|xs| - 1]| - 1]
    decreases |xs|
  {
    if |xs| > 1 {
      var rest := xs[1..];
      assert rest[|rest| - 1] == xs[|xs| - 1];
      JoinSepEnds(rest, sep);
    }
  }

  /** A text is its parts before, between and after two offsets. */
  lemma SplitAround(s: string, i: nat, j: nat)
    requires i <= j <= |s|
    ensures s[..i] + s[i..j] + s[j..] == s
  {
  }

  /** No piece produced by split contains the separator. */
  lemma {:induction false} SplitPiecesLackSeparator(s: string, sep: string)
    requires |sep| > 0
    ensures forall p | p in Split(s, sep) :: !Contains(p, sep)
    decreases |s|
  {
    match IndexOfFrom(s, sep, 0)
    case None =>
      assert Split(s, sep) == [s];
    case Some(i) =>
      SplitPiecesLackSeparator(s[i + |sep|..], sep);
      var head := s[..i];
      forall k | OccursAt(head, sep, k)
        ensures false
      {
        assert head[k..k + |sep|] == s[k..k + |sep|];
        assert OccursAt(s, sep, k);
      }
  }

  /** Every character of a piece produced by split is a character of the
      text that was split. */
  lemma {:induction false} SplitPiecesFrom(s: string, sep: string)
    requires |sep| > 0
    ensures forall p | p in Split(s, sep) :: forall k | 0 <= k < |p| :: p[k] in s
    decreases |s|
  {
    match IndexOfFrom(s, sep, 0)
    case None =>
      assert Split(s, sep) == [s];
    case Some(i) =>
      var rest := s[i + |sep|..];
      var tail := Split(rest, sep);
      assert Split(s, sep) == [s[..i]] + tail;
      SplitPiecesFrom(rest, sep);
      InSuffix(s, i + |sep|);
      forall p | p in [s[..i]] + tail
        ensures forall k | 0 <= k < |p| :: p[k] in s
      {
        if p == s[..i] {
          assert forall k | 0 <= k < |p| :: p[k] == s[k];
        } else {
          assert p in tail;
          assert forall k | 0 <= k < |p| :: p[k] in rest;
        }
      }
  }

  lemma InSuffix(s: string, n: nat)
    requires n <= |s|
    ensures forall c | c in s[n..] :: c in s
  {
    forall c | c in s[n..]
      ensures c in s
    {
      var j :| 0 <= j < |s| - n && s[n..][j] == c;
      assert s[n + j] == c;
    }
  }

  /** The JavaScript regular-expression class \s. */
  predicate IsSpace(c: char)
  {
    c == ' ' || c == '\t' || c == '\n' || c == '\r' || c == '\U{000B}' || c == '\U{000C}'
    || c == '\U{00A0}' || c == '\U{1680}' || ('\U{2000}' <= c <= '\U{200A}')
    || c == '\U{2028}' || c == '\U{2029}' || c == '\U{202F}' || c == '\U{205F}'
    || c == '\U{3000}' || c == '\U{FEFF}'
  }

  /** The JavaScript regular-expression class \w. */
  predicate IsWordChar(c: char)
  {
    ('a' <= c <= 'z') || ('A' <= c <= 'Z') || ('0' <= c <= '9') || c == '_'
  }

  predicate IsWord(s: string)
  {
    |s| > 0 && forall i | 0 <= i < |s| :: IsWordChar(s[i])
  }

  /** The end of the run of \w characters that starts at `i`. */
  function WordEnd(s: string, i: nat): (j: nat)
    requires i <= |s|
    ensures i <= j <= |s|
    ensures forall k | i <= k < j :: IsWordChar(s[k])
    ensures j < |s| ==> !IsWordChar(s[j])
    decreases |s| - i
  {
    if i < |s| && IsWordChar(s[i]) then WordEnd(s, i + 1) else i
  }

  /** The end of the run of \s characters that starts at `i`. */
  function SpaceEnd(s: string, i: nat): (j: nat)
    requires i <= |s|
    ensures i <= j <= |s|
    ensures forall k | i <= k < j :: IsSpace(s[k])
    ensures j < |s| ==> !IsSpace(s[j])
    decreases |s| - i
  {
    if i < |s| && IsSpace(s[i]) then SpaceEnd(s, i + 1) else i
  }

  /** Character-wise toLowerCase; only A-Z change (the names it is applied
      to are \w words, which are ASCII). */
  function LowerChar(c: char): (r: char)
    ensures ('A' <= c <= 'Z') ==> r as int == c as int + 32
    ensures !('A' <= c <= 'Z') ==> r == c
  {
    if 'A' <= c <= 'Z' then (c as int + 32) as char else c
  }

  function ToLower(s: string): (r: string)
    ensures |r| == |s|
    ensures forall i | 0 <= i < |s| :: r[i] == LowerChar(s[i])
  {
    if s == [] then [] else [LowerChar(s[0])] + ToLower(s[1..])
  }

  /** Decimal text of a natural number, as JavaScript prints it. */
  function NatToString(n: nat): (r: string)
    ensures |r| > 0
    decreases n
  {
    if n < 10 then [Digit(n)] else NatToString(n / 10) + [Digit(n % 10)]
  }

  function Digit(d: nat): char
    requires d < 10
  {
    "0123456789"[d]
  }
}

/**
 * Reading a prior back from the text its `__repr__` writes
 * (bilby/core/prior/base.py): `_split_repr` cuts `k=v,...` text at
 * commas, glues back the chunks of a parenthesised call and maps each
 * chunk to a keyword; `_parse_argument_string` turns the literal forms
 * (None, raw and quoted strings) into values; `_from_repr` removes
 * spaces and rejects unknown keywords. The chunk list is updated in
 * place exactly as the source's loops do.
 */
module PriorRepr {
  import opened Wrappers
  import opened PyStrings
  import opened OrderedDict

  /** What the reader raises. */
  datatype ReprError =
    | IndexError                     // unclosed call, bad `del`, or a positional chunk without an argument name
    | UnknownArgument(key: string)   // AttributeError('Unknown argument ... for class ...')

  // ---------------------------------------------------------------------------
  // `_split_repr`, first loop: re-gluing the chunks of a parenthesised call.

  /** The first chunk at or after `i` that contains ')': where the inner `while` stops. */
  function CloseFrom(chunks: seq<string>, i: nat): (r: Option<nat>)
    ensures r.Some? ==> i <= r.value < |chunks| && ')' in chunks[r.value]
    ensures r.Some? ==> forall x :: i <= x < r.value ==> ')' !in chunks[x]
    ensures r.None? ==> forall x :: i <= x < |chunks| ==> ')' !in chunks[x]
    decreases |chunks| - i
  {
    if i >= |chunks| then None
    else if ')' in chunks[i] then Some(i)
    else CloseFrom(chunks, i + 1)
  }

  /** The reader's test for a chunk that starts a call. */
  predicate Opens(chunk: string) {
    '(' in chunk
  }

  /** A '(' chunk with no ')' chunk at or after it: the inner loop runs off the end of the list. */
  predicate Unclosed(chunks: seq<string>, i: nat)
    requires i < |chunks|
  {
    Opens(chunks[i]) && CloseFrom(chunks, i).None?
  }

  /** `args[i]` once chunks `i+1..j` have been glued onto it, each step stripped of surrounding whitespace. */
  function GlueRange(chunks: seq<string>, i: nat, j: nat): string
    requires i <= j < |chunks|
    decreases j - i
  {
    if j == i then chunks[i] else Strip(GlueRange(chunks, i, j - 1) + "," + chunks[j])
  }

  /** The value the first loop leaves in `args[t]`. */
  function GluedAt(chunks: seq<string>, t: nat): string
    requires t < |chunks|
  {
    if Opens(chunks[t]) && CloseFrom(chunks, t).Some? then GlueRange(chunks, t, CloseFrom(chunks, t).value)
    else chunks[t]
  }

  /** `args` after the first `k` iterations of the first loop. */
  function GlueState(chunks: seq<string>, k: nat): (r: seq<string>)
    ensures |r| == |chunks|
  {
    seq(|chunks|, t requires 0 <= t < |chunks| => if t < k then GluedAt(chunks, t) else chunks[t])
  }

  lemma GlueStateStep(chunks: seq<string>, k: nat)
    requires k < |chunks|
    ensures GlueState(chunks, k + 1) == GlueState(chunks, k)[k := GluedAt(chunks, k)]
    ensures GlueState(chunks, k)[k] == chunks[k]
  {
  }

  lemma GlueStateAt(chunks: seq<string>, k: nat, t: nat)
    requires t < k && t < |chunks|
    ensures GlueState(chunks, k)[t] == GluedAt(chunks, t)
  {
  }

  lemma GlueStateFrom(chunks: seq<string>, k: nat, t: nat)
    requires k <= t < |chunks|
    ensures GlueState(chunks, k)[t] == chunks[t]
  {
  }

  /** Before the first iteration nothing is glued. */
  lemma GlueStateNone(chunks: seq<string>)
    ensures GlueState(chunks, 0) == chunks
  {
  }

  /** An iteration on a chunk that opens no call changes nothing. */
  lemma GlueStateKeep(chunks: seq<string>, k: nat)
    requires k < |chunks| && !Opens(chunks[k])
    ensures GlueState(chunks, k + 1) == GlueState(chunks, k)
  {
    GlueStateStep(chunks, k);
  }

  /** The first ')' chunk at or after `i` is found where it is. */
  lemma {:induction false} CloseFromAt(chunks: seq<string>, i: nat, j: nat)
    requires i <= j < |chunks| && ')' in chunks[j]
    requires forall x :: i <= x < j ==> ')' !in chunks[x]
    ensures CloseFrom(chunks, i) == Some(j)
    decreases j - i
  {
    if i < j {
      CloseFromAt(chunks, i + 1, j);
    }
  }

  function Range(a: nat, b: nat): (r: seq<nat>)
    requires a <= b
    ensures |r| == b - a && forall k :: 0 <= k < b - a ==> r[k] == a + k
  {
    seq(b - a, k requires 0 <= k < b - a => a + k)
  }

  lemma RangeSnoc(a: nat, b: nat)
    requires a <= b
    ensures Range(a, b + 1) == Range(a, b) + [b]
  {
  }

  /** The indices iteration `t` of the first loop appends to `remove`. */
  function Absorbed(chunks: seq<string>, t: nat): seq<nat>
    requires t < |chunks|
  {
    if Opens(chunks[t]) && CloseFrom(chunks, t).Some? then Range(t + 1, CloseFrom(chunks, t).value + 1) else []
  }

  /** What iterations `a..b-1` of the first loop append to `remove`. */
  function RemoveBetween(chunks: seq<string>, a: nat, b: nat): seq<nat>
    requires a <= b <= |chunks|
    decreases b - a
  {
    if a == b then [] else Absorbed(chunks, a) + RemoveBetween(chunks, a + 1, b)
  }

  function Reverse<T>(s: seq<T>): (r: seq<T>)
    ensures |r| == |s| && forall i :: 0 <= i < |s| ==> r[i] == s[|s| - 1 - i]
  {
    if s == [] then [] else Reverse(s[1..]) + [s[0]]
  }

  /** `for ii in idxs: del args[ii]`, where an index past the current end raises. */
  function DeleteAll(args: seq<string>, idxs: seq<nat>): Result<seq<string>, ReprError>
    decreases |idxs|
  {
    if idxs == [] then Ok(args)
    else if idxs[0] < |args| then DeleteAll(args[..idxs[0]] + args[idxs[0] + 1..], idxs[1..])
    else Err(IndexError)
  }

  /** The chunk list `_split_repr` hands to its keyword loop. */
  function GluedChunks(s: string): Result<seq<string>, ReprError> {
    var chunks := Split(s, ',');
    if exists i :: 0 <= i < |chunks| && Unclosed(chunks, i) then Err(IndexError)
    else DeleteAll(GlueState(chunks, |chunks|), Reverse(RemoveBetween(chunks, 0, |chunks|)))
  }

  // ---------------------------------------------------------------------------
  // `_split_repr`, last loop: chunks to keywords.

  /** `arg.split('=')[0]` */
  function KeyOf(arg: string): string {
    Split(arg, '=')[0]
  }

  /** `'='.join(arg.split('=')[1:])` */
  function ValueOf(arg: string): string {
    Join(Split(arg, '=')[1..], "=")
  }

  /**
   * The keyword and value stored for chunk `ii`: a chunk without '=' takes the
   * constructor argument name at the same position, and there may be none.
   */
  function EntryOf(arg: string, ii: nat, argNames: seq<string>): Option<(string, string)> {
    if '=' !in arg then (if ii < |argNames| then Some((argNames[ii], arg)) else None)
    else Some((KeyOf(arg), ValueOf(arg)))
  }

  /** The entry of every chunk, in chunk order. */
  function Entries(args: seq<string>, argNames: seq<string>): (r: seq<Option<(string, string)>>)
    ensures |r| == |args|
    ensures forall i :: 0 <= i < |args| ==> r[i] == EntryOf(args[i], i, argNames)
  {
    seq(|args|, i requires 0 <= i < |args| => EntryOf(args[i], i, argNames))
  }

  /** The last loop of `_split_repr`: every chunk's entry assigned into the dictionary in order. */
  function Kwargs(args: seq<string>, argNames: seq<string>): Result<Dict<string, string>, ReprError> {
    match PutEach(Entries(args, argNames))
    case None => Err(IndexError)
    case Some(d) => Ok(d)
  }

  /** What `_split_repr(string)` returns or raises. */
  function SplitReprSpec(s: string, argNames: seq<string>): Result<Dict<string, string>, ReprError> {
    match GluedChunks(s)
    case Err(e) => Err(e)
    case Ok(args) => Kwargs(args, argNames)
  }

  lemma AppendAssoc<T>(a: seq<T>, b: seq<T>, c: seq<T>)
    ensures a + (b + c) == (a + b) + c
  {
  }

  lemma AppendNil<T>(a: seq<T>)
    ensures a + [] == a && [] + a == a
  {
  }

  lemma {:induction false} RemoveBetweenSnoc(chunks: seq<string>, a: nat, b: nat)
    requires a <= b < |chunks|
    ensures RemoveBetween(chunks, a, b + 1) == RemoveBetween(chunks, a, b) + Absorbed(chunks, b)
    decreases b - a
  {
    if a < b {
      RemoveBetweenSnoc(chunks, a + 1, b);
      AppendAssoc(Absorbed(chunks, a), RemoveBetween(chunks, a + 1, b), Absorbed(chunks, b));
    } else {
      AppendNil(Absorbed(chunks, a));
    }
  }

  // ---------------------------------------------------------------------------
  // What `_split_repr` guarantees.

  /**
   * The nesting the reader supports: every chunk holding '(' is followed, at or
   * after itself and before any other '(' chunk, by a chunk holding ')'.
   */
  predicate WellNested(chunks: seq<string>) {
    forall i {:trigger Opens(chunks[i])} :: 0 <= i < |chunks| && Opens(chunks[i]) ==>
      CloseFrom(chunks, i).Some? && forall x {:trigger Opens(chunks[x])} :: i < x < CloseFrom(chunks, i).value ==> !Opens(chunks[x])
  }

  /** Where the group that starts at chunk `t` ends: after its ')' chunk when it opens a closed call, else after itself. */
  function NextGroup(chunks: seq<string>, t: nat): (r: nat)
    requires t < |chunks|
    ensures t < r <= |chunks|
  {
    if Opens(chunks[t]) && CloseFrom(chunks, t).Some? then CloseFrom(chunks, t).value + 1 else t + 1
  }

  /** The chunk list from `t` read as groups, each group represented by the entry of `g` at its first chunk. */
  function GroupsOf(chunks: seq<string>, g: seq<string>, t: nat): (r: seq<string>)
    requires |g| == |chunks|
    ensures t < |chunks| ==> |r| >= 1
    decreases |chunks| - t
  {
    if t >= |chunks| then [] else [g[t]] + GroupsOf(chunks, g, NextGroup(chunks, t))
  }

  /** The call groups with their glued text: what the reader should recover. */
  function GroupsFrom(chunks: seq<string>): seq<string> {
    GroupsOf(chunks, GlueState(chunks, |chunks|), 0)
  }

  lemma {:induction false} RemoveBetweenSkip(chunks: seq<string>, a: nat, b: nat)
    requires a <= b <= |chunks|
    requires forall x :: a <= x < b ==> Absorbed(chunks, x) == []
    ensures RemoveBetween(chunks, a, |chunks|) == RemoveBetween(chunks, b, |chunks|)
    decreases b - a
  {
    if a < b {
      RemoveBetweenSkip(chunks, a + 1, b);
      assert RemoveBetween(chunks, a, |chunks|) == Absorbed(chunks, a) + RemoveBetween(chunks, a + 1, |chunks|);
    }
  }

  lemma ReverseConcat<T>(a: seq<T>, b: seq<T>)
    ensures Reverse(a + b) == Reverse(b) + Reverse(a)
  {
  }

  lemma {:induction false} DeleteAllConcat(args: seq<string>, a: seq<nat>, b: seq<nat>)
    ensures DeleteAll(args, a + b) == match DeleteAll(args, a) { case Ok(rest) => DeleteAll(rest, b) case Err(e) => Err(e) }
    decreases |a|
  {
    if a == [] {
      assert a + b == b;
    } else {
      assert (a + b)[0] == a[0] && (a + b)[1..] == a[1..] + b;
      if a[0] < |args| {
        DeleteAllConcat(args[..a[0]] + args[a[0] + 1..], a[1..], b);
      }
    }
  }

  /** Deleting the indices of a middle block from the back removes exactly that block. */
  lemma {:induction false} DeleteDescending(a: seq<string>, b: seq<string>, c: seq<string>)
    ensures DeleteAll(a + b + c, Reverse(Range(|a|, |a| + |b|))) == Ok(a + c)
    decreases |b|
  {
    if b == [] {
      assert Range(|a|, |a|) == [];
      assert a + b + c == a + c;
    } else {
      var m := |b| - 1;
      assert Range(|a|, |a| + |b|) == Range(|a|, |a| + m) + [|a| + m];
      ReverseConcat(Range(|a|, |a| + m), [|a| + m]);
      var idxs := Reverse(Range(|a|, |a| + |b|));
      assert idxs == [|a| + m] + Reverse(Range(|a|, |a| + m));
      var x := a + b + c;
      assert x[..|a| + m] + x[|a| + m + 1..] == a + b[..m] + c;
      assert idxs[1..] == Reverse(Range(|a|, |a| + |b[..m]|));
      DeleteDescending(a, b[..m], c);
    }
  }

  lemma GroupsOfStep(chunks: seq<string>, g: seq<string>, t: nat)
    requires |g| == |chunks| && t < |chunks|
    ensures GroupsOf(chunks, g, t) == [g[t]] + GroupsOf(chunks, g, NextGroup(chunks, t))
  {
  }

  lemma SliceRegroup<T>(p: seq<T>, g: seq<T>, t: nat, m: nat)
    requires t < m <= |g|
    ensures p + g[t..] == (p + g[t..m]) + g[m..]
    ensures p + g[t..m] == (p + [g[t]]) + g[t + 1..m]
    ensures g[t..t + 1] == [g[t]]
  {
  }

  lemma SliceEdges<T>(p: seq<T>, g: seq<T>)
    ensures p + g[|g|..] == p && [] + g[0..] == g
  {
  }

  lemma ConsAssoc<T>(p: seq<T>, x: T, c: seq<T>)
    ensures (p + [x]) + c == p + ([x] + c)
  {
  }

  /** Inside a well-nested group no chunk other than its opener collects indices. */
  lemma NothingAbsorbedInside(chunks: seq<string>, t: nat)
    requires WellNested(chunks)
    requires t < |chunks| && Opens(chunks[t])
    ensures forall x :: t < x <= CloseFrom(chunks, t).value ==> Absorbed(chunks, x) == []
  {
    var j := CloseFrom(chunks, t).value;
    forall x | t < x <= j ensures Absorbed(chunks, x) == [] {
      if x == j && Opens(chunks[j]) {
        assert CloseFrom(chunks, j) == Some(j);
      }
    }
  }

  /** The deletions of one group, applied after those of all later groups, remove the group's tail. */
  lemma OpenerDeletes(x: seq<string>, y: seq<string>, whole: seq<nat>, rest: seq<nat>, prefix: seq<string>, head: string,
                      mid: seq<string>, p: seq<string>, c: seq<string>, res: seq<string>, t: nat, j: nat)
    requires |prefix| == t && t <= j && |mid| == j - t
    requires x == y && whole == Range(t + 1, j + 1) + rest && p == prefix + [head] + mid && res == [head] + c
    requires DeleteAll(y, Reverse(rest)) == Ok(p + c)
    ensures DeleteAll(x, Reverse(whole)) == Ok(prefix + res)
  {
    var a := prefix + [head];
    var r := Range(t + 1, j + 1);
    ReverseConcat(r, rest);
    DeleteAllConcat(x, Reverse(rest), Reverse(r));
    DeleteDescending(a, mid, c);
    assert |a| == t + 1 && |a| + |mid| == j + 1;
    ConsAssoc(prefix, head, c);
  }

  /**
   * Walking the groups from `t` over any list `g` of the chunks' length: deleting
   * the rest of `remove` keeps each group's first entry and drops the others.
   */
  lemma {:induction false} DeleteWalk(chunks: seq<string>, g: seq<string>, t: nat, prefix: seq<string>)
    requires WellNested(chunks) && |g| == |chunks|
    requires t <= |chunks| && |prefix| == t
    ensures DeleteAll(prefix + g[t..], Reverse(RemoveBetween(chunks, t, |chunks|))) == Ok(prefix + GroupsOf(chunks, g, t))
    decreases |chunks| - t, 1
  {
    if t == |chunks| {
      SliceEdges(prefix, g);
      AppendNil(prefix);
    } else if Opens(chunks[t]) {
      DeleteWalkOpener(chunks, g, t, prefix);
    } else {
      DeleteWalkPlain(chunks, g, t, prefix);
    }
  }

  /** The indices collected for a well-nested group are its tail, followed by those of the later groups. */
  lemma OpenerRemoves(chunks: seq<string>, t: nat)
    requires WellNested(chunks)
    requires t < |chunks| && Opens(chunks[t])
    ensures CloseFrom(chunks, t).Some?
    ensures RemoveBetween(chunks, t, |chunks|)
              == Range(t + 1, CloseFrom(chunks, t).value + 1) + RemoveBetween(chunks, CloseFrom(chunks, t).value + 1, |chunks|)
  {
    NothingAbsorbedInside(chunks, t);
    RemoveBetweenSkip(chunks, t + 1, CloseFrom(chunks, t).value + 1);
  }

  /** The walk over a group opened by chunk `t`: the entries of its tail are deleted. */
  lemma {:induction false} DeleteWalkOpener(chunks: seq<string>, g: seq<string>, t: nat, prefix: seq<string>)
    requires WellNested(chunks) && |g| == |chunks|
    requires t < |chunks| && |prefix| == t && Opens(chunks[t])
    ensures DeleteAll(prefix + g[t..], Reverse(RemoveBetween(chunks, t, |chunks|))) == Ok(prefix + GroupsOf(chunks, g, t))
    decreases |chunks| - t, 0
  {
    OpenerRemoves(chunks, t);
    var n := |chunks|;
    var j := CloseFrom(chunks, t).value;
    var p := prefix + g[t..j + 1];
    SliceRegroup(prefix, g, t, j + 1);
    DeleteWalk(chunks, g, j + 1, p);
    GroupsOfStep(chunks, g, t);
    assert |prefix| == t && t <= j && |g[t + 1..j + 1]| == j - t;
    assert prefix + g[t..] == p + g[j + 1..];
    assert RemoveBetween(chunks, t, n) == Range(t + 1, j + 1) + RemoveBetween(chunks, j + 1, n);
    assert p == prefix + [g[t]] + g[t + 1..j + 1];
    assert NextGroup(chunks, t) == j + 1;
    assert GroupsOf(chunks, g, t) == [g[t]] + GroupsOf(chunks, g, j + 1);
    assert DeleteAll(p + g[j + 1..], Reverse(RemoveBetween(chunks, j + 1, n))) == Ok(p + GroupsOf(chunks, g, j + 1));
    OpenerDeletes(prefix + g[t..], p + g[j + 1..], RemoveBetween(chunks, t, n), RemoveBetween(chunks, j + 1, n),
                  prefix, g[t], g[t + 1..j + 1], p, GroupsOf(chunks, g, j + 1), GroupsOf(chunks, g, t), t, j);
  }

  /** The walk over a chunk that opens no call: its entry is kept. */
  lemma {:induction false} DeleteWalkPlain(chunks: seq<string>, g: seq<string>, t: nat, prefix: seq<string>)
    requires WellNested(chunks) && |g| == |chunks|
    requires t < |chunks| && |prefix| == t && !Opens(chunks[t])
    ensures DeleteAll(prefix + g[t..], Reverse(RemoveBetween(chunks, t, |chunks|))) == Ok(prefix + GroupsOf(chunks, g, t))
    decreases |chunks| - t, 0
  {
    var n := |chunks|;
    AppendNil(RemoveBetween(chunks, t + 1, n));
    assert RemoveBetween(chunks, t, n) == RemoveBetween(chunks, t + 1, n);
    SliceRegroup(prefix, g, t, t + 1);
    DeleteWalk(chunks, g, t + 1, prefix + [g[t]]);
    GroupsOfStep(chunks, g, t);
    ConsAssoc(prefix, g[t], GroupsOf(chunks, g, t + 1));
  }

  lemma NoWhitespaceGlue(a: string, b: string)
    requires NoWhitespace(a) && NoWhitespace(b)
    ensures NoWhitespace(a + "," + b)
    ensures Strip(a + "," + b) == a + "," + b
  {
    var s := a + "," + b;
    forall k | 0 <= k < |s| ensures !IsSpace(s[k]) {
      if k < |a| {
        assert s[k] == a[k];
      } else if k > |a| {
        assert s[k] == b[k - |a| - 1];
      }
    }
    StripNoWhitespace(s);
  }

  lemma GlueRangeStep(chunks: seq<string>, i: nat, j: nat)
    requires i < j < |chunks|
    ensures GlueRange(chunks, i, j) == Strip(GlueRange(chunks, i, j - 1) + "," + chunks[j])
  {
  }

  /** Gluing one more whitespace-free chunk onto whitespace-free joined text is joining it too. */
  lemma GlueJoinStep(g: string, xs: seq<string>, y: string, z: seq<string>)
    requires |xs| >= 1 && g == Join(xs, ",") && NoWhitespace(g) && NoWhitespace(y) && z == xs + [y]
    ensures Strip(g + "," + y) == Join(z, ",")
    ensures NoWhitespace(Join(z, ","))
  {
    NoWhitespaceGlue(g, y);
    JoinAppend(xs, y, ",");
  }

  /** Without whitespace, gluing chunks `i..j` is joining them with commas. */
  lemma {:induction false} GlueRangeJoin(chunks: seq<string>, i: nat, j: nat)
    requires i <= j < |chunks|
    requires forall x {:trigger NoWhitespace(chunks[x])} :: 0 <= x < |chunks| ==> NoWhitespace(chunks[x])
    ensures GlueRange(chunks, i, j) == Join(chunks[i..j + 1], ",")
    ensures NoWhitespace(GlueRange(chunks, i, j))
    decreases j - i
  {
    if j == i {
      assert chunks[i..j + 1] == [chunks[i]];
      assert NoWhitespace(chunks[i]);
    } else {
      GlueRangeJoin(chunks, i, j - 1);
      assert NoWhitespace(chunks[j]);
      GlueRangeStep(chunks, i, j);
      assert chunks[i..j + 1] == chunks[i..j] + [chunks[j]];
      GlueJoinStep(GlueRange(chunks, i, j - 1), chunks[i..j], chunks[j], chunks[i..j + 1]);
    }
  }

  /** When each group's entry is its chunks joined by commas, joining the groups joins the chunks. */
  lemma {:induction false} GroupsJoin(chunks: seq<string>, g: seq<string>, t: nat)
    requires |g| == |chunks| && t < |chunks|
    requires forall x :: 0 <= x < |chunks| ==> g[x] == Join(chunks[x..NextGroup(chunks, x)], ",")
    ensures Join(GroupsOf(chunks, g, t), ",") == Join(chunks[t..], ",")
    decreases |chunks| - t
  {
    var n := |chunks|;
    var m := NextGroup(chunks, t);
    GroupsOfStep(chunks, g, t);
    var gs := GroupsOf(chunks, g, t);
    if m == n {
      assert chunks[t..m] == chunks[t..];
    } else {
      GroupsJoin(chunks, g, m);
      assert gs[1..] == GroupsOf(chunks, g, m);
      JoinConcat(chunks[t..m], chunks[m..], ",");
      assert chunks[t..m] + chunks[m..] == chunks[t..];
    }
  }

  /** Without whitespace, the first loop leaves each group's chunks joined by commas at the group's first index. */
  lemma GlueStateJoins(chunks: seq<string>)
    requires forall x {:trigger NoWhitespace(chunks[x])} :: 0 <= x < |chunks| ==> NoWhitespace(chunks[x])
    ensures forall x :: 0 <= x < |chunks| ==>
              GlueState(chunks, |chunks|)[x] == Join(chunks[x..NextGroup(chunks, x)], ",")
  {
    var g := GlueState(chunks, |chunks|);
    forall x | 0 <= x < |chunks|
      ensures g[x] == Join(chunks[x..NextGroup(chunks, x)], ",")
    {
      GlueStateAt(chunks, |chunks|, x);
      if Opens(chunks[x]) && CloseFrom(chunks, x).Some? {
        GlueRangeJoin(chunks, x, CloseFrom(chunks, x).value);
      } else {
        assert chunks[x..x + 1] == [chunks[x]];
      }
    }
  }

  /**
   * On whitespace-free, well-nested text the glued chunks are the call groups,
   * and joining them with commas gives back the text.
   */
  lemma SplitReprRejoins(s: string)
    requires NoWhitespace(s)
    requires WellNested(Split(s, ','))
    ensures GluedChunks(s) == Ok(GroupsFrom(Split(s, ',')))
    ensures Join(GluedChunks(s).value, ",") == s
  {
    var chunks := Split(s, ',');
    var g := GlueState(chunks, |chunks|);
    assert !exists i :: 0 <= i < |chunks| && Unclosed(chunks, i);
    DeleteWalk(chunks, g, 0, []);
    SliceEdges([], g);
    AppendNil(GroupsOf(chunks, g, 0));
    SplitNoWhitespace(s, ',');
    GlueStateJoins(chunks);
    GroupsJoin(chunks, g, 0);
    SliceEdges([], chunks);
    JoinOfSplit(s, ',');
  }

  /** A '(' chunk with no ')' chunk at or after it makes the reader raise IndexError. */
  lemma SplitReprUnclosed(s: string, argNames: seq<string>, i: nat)
    requires i < |Split(s, ',')| && Opens(Split(s, ',')[i])
    requires forall x :: i <= x < |Split(s, ',')| ==> ')' !in Split(s, ',')[x]
    ensures SplitReprSpec(s, argNames) == Err(IndexError)
  {
    assert Unclosed(Split(s, ','), i);
  }

  /** Every chunk of the dictionary phase yields an entry. */
  predicate AllEntries(args: seq<string>, argNames: seq<string>) {
    forall i :: 0 <= i < |args| ==> EntryOf(args[i], i, argNames).Some?
  }

  /** No later chunk produces the same key as chunk `i`. */
  predicate LastWithKey(args: seq<string>, argNames: seq<string>, i: nat)
    requires i < |args| && AllEntries(args, argNames)
  {
    forall j :: i < j < |args| ==> EntryOf(args[j], j, argNames).value.0 != EntryOf(args[i], i, argNames).value.0
  }

  /** The dictionary phase succeeds exactly when every chunk yields an entry. */
  lemma KwargsOutcome(args: seq<string>, argNames: seq<string>)
    ensures Kwargs(args, argNames).Ok? <==> AllEntries(args, argNames)
  {
    PutEachFails(Entries(args, argNames));
  }

  /** A positional chunk without an argument name at its position makes the dictionary phase raise IndexError. */
  lemma KwargsMissingName(args: seq<string>, argNames: seq<string>, i: nat)
    requires i < |args| && '=' !in args[i] && i >= |argNames|
    ensures Kwargs(args, argNames) == Err(IndexError)
  {
    assert Entries(args, argNames)[i].None?;
    PutEachFails(Entries(args, argNames));
  }

  /** Every chunk's key is in the dictionary. */
  lemma KwargsKeyPresent(args: seq<string>, argNames: seq<string>, i: nat)
    requires i < |args| && Kwargs(args, argNames).Ok?
    ensures EntryOf(args[i], i, argNames).Some?
    ensures Lookup(Kwargs(args, argNames).value, EntryOf(args[i], i, argNames).value.0).Some?
  {
    PutEachPresent(Entries(args, argNames), i);
  }

  /** A key holds the value of the last chunk that names it. */
  lemma KwargsLastWins(args: seq<string>, argNames: seq<string>, i: nat)
    requires i < |args| && AllEntries(args, argNames) && LastWithKey(args, argNames, i)
    ensures Kwargs(args, argNames).Ok?
    ensures Lookup(Kwargs(args, argNames).value, EntryOf(args[i], i, argNames).value.0)
              == Some(EntryOf(args[i], i, argNames).value.1)
  {
    var es := Entries(args, argNames);
    KwargsOutcome(args, argNames);
    assert LastAssignment(es, i);
    PutEachLast(es, i);
  }

  /** Only the chunks' keys are in the dictionary. */
  lemma KwargsOnlyChunkKeys(args: seq<string>, argNames: seq<string>, key: string)
    requires Kwargs(args, argNames).Ok? && Lookup(Kwargs(args, argNames).value, key).Some?
    ensures exists i :: 0 <= i < |args| && EntryOf(args[i], i, argNames).Some? && EntryOf(args[i], i, argNames).value.0 == key
  {
    var es := Entries(args, argNames);
    PutEachOnly(es, key);
    var i :| 0 <= i < |es| && es[i].Some? && es[i].value.0 == key;
    assert EntryOf(args[i], i, argNames) == es[i];
  }

  /** A keyword chunk's key is the text before its first '=' and its value all the rest, later '=' included. */
  lemma KeywordChunk(arg: string, i: nat)
    requires i < |arg| && arg[i] == '=' && '=' !in arg[..i]
    ensures KeyOf(arg) == arg[..i]
    ensures ValueOf(arg) == arg[i + 1..]
  {
    assert arg == arg[..i] + ['='] + arg[i + 1..];
    SplitAtFirst(arg[..i], arg[i + 1..], '=');
    JoinOfSplit(arg[i + 1..], '=');
  }

  /** A positional chunk takes the constructor argument name at its own position in the chunk list. */
  lemma PositionalChunk(arg: string, ii: nat, argNames: seq<string>)
    requires '=' !in arg
    ensures ii < |argNames| ==> EntryOf(arg, ii, argNames) == Some((argNames[ii], arg))
    ensures ii >= |argNames| ==> EntryOf(arg, ii, argNames) == None
  {
  }

  /** One step of the inner `while`: chunk `jj` is glued onto `args[ii]`. */
  lemma GlueCallStep(args: seq<string>, chunks: seq<string>, ii: nat, jj: nat, glued: seq<string>)
    requires ii < jj < |chunks| == |args|
    requires glued == args[ii := GlueRange(chunks, ii, jj - 1)] && glued[jj] == chunks[jj]
    ensures glued[ii := Strip(glued[ii] + "," + glued[jj])] == args[ii := GlueRange(chunks, ii, jj)]
  {
    GlueRangeStep(chunks, ii, jj);
  }

  /** The inner loop ran off the end: no chunk at or after `ii` closes the call. */
  lemma GlueRunsOff(chunks: seq<string>, ii: nat)
    requires forall x :: ii <= x < |chunks| ==> ')' !in chunks[x]
    ensures CloseFrom(chunks, ii).None?
  {
  }

  /** The inner loop stopped at the first closing chunk `jj`: the call is glued and its chunks marked for removal. */
  lemma GlueCallDone(args: seq<string>, chunks: seq<string>, ii: nat, jj: nat, glued: seq<string>, added: seq<nat>)
    requires ii <= jj < |chunks| == |args| && args == GlueState(chunks, ii) && Opens(chunks[ii])
    requires forall x :: ii <= x < jj ==> ')' !in chunks[x]
    requires glued == args[ii := GlueRange(chunks, ii, jj)] && ')' in glued[jj] && glued[jj] == chunks[jj]
    requires added == Range(ii + 1, jj + 1)
    ensures CloseFrom(chunks, ii).Some?
    ensures (glued, added) == (GlueState(chunks, ii + 1), Absorbed(chunks, ii))
  {
    CloseFromAt(chunks, ii, jj);
    GlueStateStep(chunks, ii);
  }

  /**
   * The inner `while` of `_split_repr` for chunk `ii`, which opens a call: later
   * chunks are glued onto `args[ii]` up to the first one holding ')', and their
   * indices are collected for deletion; running off the end raises IndexError.
   */
  method GlueCall(args: seq<string>, ghost chunks: seq<string>, ii: nat) returns (r: Result<(seq<string>, seq<nat>), ReprError>)
    requires ii < |chunks| == |args| && args == GlueState(chunks, ii) && Opens(chunks[ii])
    ensures r.Err? <==> CloseFrom(chunks, ii).None?
    ensures r.Err? ==> r.error == IndexError
    ensures r.Ok? ==> r.value == (GlueState(chunks, ii + 1), Absorbed(chunks, ii))
  {
    var n := |args|;
    var glued := args;
    var added: seq<nat> := [];
    var jj := ii;
    GlueStateStep(chunks, ii);
    while ')' !in glued[jj]
      invariant ii <= jj < n == |glued|
      invariant forall x :: ii <= x < jj ==> ')' !in chunks[x]
      invariant glued == args[ii := GlueRange(chunks, ii, jj)]
      invariant glued[jj] == chunks[jj]
      invariant added == Range(ii + 1, jj + 1)
      decreases n - jj
    {
      assert ')' !in chunks[jj];
      jj := jj + 1;
      if jj == n {
        GlueRunsOff(chunks, ii);
        return Err(IndexError);
      }
      GlueStateFrom(chunks, ii, jj);
      GlueCallStep(args, chunks, ii, jj, glued);
      glued := glued[ii := Strip(glued[ii] + "," + glued[jj])];
      RangeSnoc(ii + 1, jj + 1);
      added := added + [jj];
    }
    GlueCallDone(args, chunks, ii, jj, glued, added);
    return Ok((glued, added));
  }

  /** The outer loop of `_split_repr`'s first phase, over every chunk in turn. */
  method GlueLoop(chunks: seq<string>) returns (r: Result<(seq<string>, seq<nat>), ReprError>)
    ensures r.Err? <==> exists i :: 0 <= i < |chunks| && Unclosed(chunks, i)
    ensures r.Err? ==> r.error == IndexError
    ensures r.Ok? ==> r.value == (GlueState(chunks, |chunks|), RemoveBetween(chunks, 0, |chunks|))
  {
    var args := chunks;
    var n := |args|;
    var remove: seq<nat> := [];
    var ii := 0;
    GlueStateNone(chunks);
    while ii < n
      invariant 0 <= ii <= n == |chunks|
      invariant forall i :: 0 <= i < ii ==> !Unclosed(chunks, i)
      invariant args == GlueState(chunks, ii)
      invariant remove == RemoveBetween(chunks, 0, ii)
    {
      var key := args[ii];
      GlueStateStep(chunks, ii);
      RemoveBetweenSnoc(chunks, 0, ii);
      if Opens(key) {
        var glued := GlueCall(args, chunks, ii);
        if glued.Err? {
          assert Unclosed(chunks, ii);
          return Err(IndexError);
        }
        args := glued.value.0;
        remove := remove + glued.value.1;
      } else {
        GlueStateKeep(chunks, ii);
      }
      ii := ii + 1;
    }
    return Ok((args, remove));
  }

  /** `for ii in remove: del args[ii]`. */
  method DeleteIndices(args: seq<string>, remove: seq<nat>) returns (r: Result<seq<string>, ReprError>)
    ensures r == DeleteAll(args, remove)
  {
    var rest := args;
    var k := 0;
    while k < |remove|
      invariant 0 <= k <= |remove|
      invariant DeleteAll(args, remove) == DeleteAll(rest, remove[k..])
    {
      var idx := remove[k];
      if idx >= |rest| {
        return Err(IndexError);
      }
      assert remove[k..][1..] == remove[k + 1..];
      rest := rest[..idx] + rest[idx + 1..];
      k := k + 1;
    }
    assert remove[k..] == [];
    return Ok(rest);
  }

  /**
   * The first two loops of `Prior._split_repr`: the chunk list is glued in place
   * chunk by chunk, then the collected indices are deleted from the back.
   */
  method GlueChunks(s: string) returns (r: Result<seq<string>, ReprError>)
    ensures r == GluedChunks(s)
  {
    var chunks := Split(s, ',');
    var glued := GlueLoop(chunks);
    if glued.Err? {
      return Err(IndexError);
    }
    var remove := Reverse(glued.value.1);
    r := DeleteIndices(glued.value.0, remove);
  }

  /** The last loop of `Prior._split_repr`: chunks entered into the dictionary in order. */
  method Keywords(args: seq<string>, argNames: seq<string>) returns (r: Result<Dict<string, string>, ReprError>)
    ensures r == Kwargs(args, argNames)
  {
    ghost var es := Entries(args, argNames);
    var kwargs: Dict<string, string> := [];
    var i := 0;
    while i < |args|
      invariant 0 <= i <= |args|
      invariant PutEach(es[..i]) == Some(kwargs)
    {
      var arg := args[i];
      var key: string, val: string;
      if '=' !in arg {
        if i >= |argNames| {
          KwargsMissingName(args, argNames, i);
          return Err(IndexError);
        }
        key, val := argNames[i], arg;
      } else {
        var splitArg := Split(arg, '=');
        key, val := splitArg[0], Join(splitArg[1..], "=");
      }
      assert es[..i + 1] == es[..i] + [Some((key, val))];
      PutEachSnoc(es[..i], Some((key, val)));
      kwargs := Put(kwargs, key, val);
      i := i + 1;
    }
    assert es[..i] == es;
    return Ok(kwargs);
  }

  method SplitRepr(s: string, argNames: seq<string>) returns (r: Result<Dict<string, string>, ReprError>)
    ensures r == SplitReprSpec(s, argNames)
  {
    var glued := GlueChunks(s);
    if glued.Err? {
      return Err(glued.error);
    }
    r := Keywords(glued.value, argNames);
  }

  // ---------------------------------------------------------------------------
  // `_parse_argument_string`, literal branches, and `_from_repr`.

  /** An argument as `_from_repr` passes it on; the call, eval and import branches are kept as text. */
  datatype Parsed =
    | NoneArg                       // the literal None
    | StrArg(s: string)             // a raw or quoted string literal
    | DeferredCall(text: string)    // a nested prior call, built by reflection
    | DeferredEval(text: string)    // any other expression, given to eval
    | DeferredImport(path: string)  // a callable named by condition_func / conversion_function

  function IndexOf(s: string, c: char): (r: nat)
    requires c in s
    ensures r < |s| && s[r] == c && c !in s[..r]
  {
    if s[0] == c then 0 else assert s[1..][..] == s[1..]; 1 + IndexOf(s[1..], c)
  }

  function LastIndexOf(s: string, c: char): (r: nat)
    requires c in s
    ensures r < |s| && s[r] == c && c !in s[r + 1..]
  {
    if s[|s| - 1] == c then |s| - 1 else LastIndexOf(s[..|s| - 1], c)
  }

  /** `re.sub(r"'.*'", '', line)` on one line: the greedy match runs from the first quote to the last one. */
  function CutQuotes(line: string): string {
    if '\'' in line && IndexOf(line, '\'') < LastIndexOf(line, '\'') then
      line[..IndexOf(line, '\'')] + line[LastIndexOf(line, '\'') + 1..]
    else line
  }

  /** `re.sub(r"'.*'", '', s)`: '.' does not match a newline, so each line is cut on its own. */
  function SubQuoted(s: string): string {
    var lines := Split(s, '\n');
    Join(seq(|lines|, i requires 0 <= i < |lines| => CutQuotes(lines[i])), "\n")
  }

  /** The raw-string test: what is left after the quoted part is exactly "r" or "u". */
  predicate RawPrefixed(val: string) {
    SubQuoted(val) == "r" || SubQuoted(val) == "u"
  }

  /** `val[2:-1]` with Python's clamping of slice bounds. */
  function SliceTwoToLast(val: string): (r: string)
    ensures |val| >= 3 ==> r == val[2..|val| - 1]
    ensures |val| < 3 ==> r == ""
  {
    if |val| >= 3 then val[2..|val| - 1] else ""
  }

  /** `Prior._parse_argument_string`, tried in the source's order. */
  function ParseArgumentString(val: string): Parsed {
    if val == "None" then NoneArg
    else if RawPrefixed(val) then StrArg(SliceTwoToLast(val))
    else if '\'' in val then StrArg(StripChar(val, '\''))
    else if '(' in val then DeferredCall(val)
    else DeferredEval(val)
  }

  /**
   * Only the text None reads as None; any other text holding a quote reads as a
   * string literal; quote-free text is a call exactly when it holds '('.
   */
  lemma ParseClassifies(val: string)
    ensures ParseArgumentString(val) == NoneArg <==> val == "None"
    ensures val != "None" && '\'' in val ==> ParseArgumentString(val).StrArg?
    ensures '\'' !in val && !RawPrefixed(val) && val != "None" ==>
              (ParseArgumentString(val).DeferredCall? <==> '(' in val) &&
              (ParseArgumentString(val).DeferredEval? <==> '(' !in val)
  {
  }

  lemma SubQuotedOneLine(s: string)
    requires '\n' !in s
    ensures SubQuoted(s) == CutQuotes(s)
  {
    SplitWithoutSep(s, '\n');
  }

  /** The text `repr` gives `None` reads back as None. */
  lemma ParseNone()
    ensures ParseArgumentString("None") == NoneArg
  {
  }

  /** A raw or unicode-prefixed literal `r'x'` / `u'x'` on one line reads back as `x`, whatever quotes `x` holds. */
  lemma ParsePrefixed(p: char, x: string)
    requires p == 'r' || p == 'u'
    requires '\n' !in x
    ensures ParseArgumentString([p, '\''] + x + "'") == StrArg(x)
  {
    var s := [p, '\''] + x + "'";
    assert s[0] == p;
    SubQuotedOneLine(s);
    assert IndexOf(s, '\'') == 1;
    assert LastIndexOf(s, '\'') == |s| - 1;
    assert CutQuotes(s) == [p];
    assert s[2..|s| - 1] == x;
  }

  /** A single-quoted literal `'x'`, with no quote inside, reads back as `x`. */
  lemma ParseQuoted(x: string)
    requires '\'' !in x && '\n' !in x
    ensures ParseArgumentString("'" + x + "'") == StrArg(x)
  {
    var s := "'" + x + "'";
    SubQuotedOneLine(s);
    assert IndexOf(s, '\'') == 0;
    assert LastIndexOf(s, '\'') == |s| - 1;
    assert CutQuotes(s) == "";
    StripCharQuoted(x, '\'');
    assert "'" + x + "'" == ['\''] + x + ['\''];
  }

  /** The keys whose string values `_from_repr` resolves to callables by import. */
  predicate ImportsCallable(key: string) {
    key == "condition_func" || key == "conversion_function"
  }

  /** The value `_from_repr` stores for one keyword. */
  function ParseEntry(key: string, val: string): Parsed {
    var p := ParseArgumentString(val);
    if ImportsCallable(key) && p.StrArg? then DeferredImport(p.s) else p
  }

  /** The position of the first keyword at or after `from` that the constructor does not take. */
  function FirstUnknown(kwargs: Dict<string, string>, argNames: seq<string>, from: nat): (r: Option<nat>)
    ensures r.Some? ==> from <= r.value < |kwargs| && kwargs[r.value].0 !in argNames
    ensures r.Some? ==> forall j :: from <= j < r.value ==> kwargs[j].0 in argNames
    ensures r.None? ==> forall j :: from <= j < |kwargs| ==> kwargs[j].0 in argNames
    decreases |kwargs| - from
  {
    if from >= |kwargs| then None
    else if kwargs[from].0 !in argNames then Some(from)
    else FirstUnknown(kwargs, argNames, from + 1)
  }

  /** Every keyword with its value parsed, in the dictionary's order. */
  function ParsedEntries(kwargs: Dict<string, string>): (r: Dict<string, Parsed>)
    ensures |r| == |kwargs|
    ensures forall i :: 0 <= i < |kwargs| ==> r[i] == (kwargs[i].0, ParseEntry(kwargs[i].0, kwargs[i].1))
  {
    seq(|kwargs|, i requires 0 <= i < |kwargs| => (kwargs[i].0, ParseEntry(kwargs[i].0, kwargs[i].1)))
  }

  /**
   * The keyword loop of `_from_repr`: without reference parameters the first keyword
   * the constructor does not take raises; otherwise every value is parsed in place.
   */
  function ParseKeywords(kwargs: Dict<string, string>, argNames: seq<string>, hasReferenceParams: bool)
    : Result<Dict<string, Parsed>, ReprError>
  {
    var unknown := FirstUnknown(kwargs, argNames, 0);
    if unknown.Some? && !hasReferenceParams then Err(UnknownArgument(kwargs[unknown.value].0))
    else Ok(ParsedEntries(kwargs))
  }

  /** Parsing in place keeps every key and maps each stored value through the parser. */
  lemma {:induction false} LookupParsed(kwargs: Dict<string, string>, key: string)
    ensures Lookup(ParsedEntries(kwargs), key).Some? <==> Lookup(kwargs, key).Some?
    ensures Lookup(kwargs, key).Some? ==>
              Lookup(ParsedEntries(kwargs), key) == Some(ParseEntry(key, Lookup(kwargs, key).value))
    decreases |kwargs|
  {
    if kwargs != [] {
      var p := ParsedEntries(kwargs);
      assert p[1..] == ParsedEntries(kwargs[1..]);
      LookupParsed(kwargs[1..], key);
    }
  }

  /** What `_from_repr(string)` passes to the constructor, or raises. */
  function FromReprSpec(s: string, argNames: seq<string>, hasReferenceParams: bool): Result<Dict<string, Parsed>, ReprError> {
    match SplitReprSpec(RemoveSpaces(s), argNames)
    case Err(e) => Err(e)
    case Ok(kwargs) => ParseKeywords(kwargs, argNames, hasReferenceParams)
  }

  /** The keyword loop of `Prior._from_repr`, which replaces each value by its parse. */
  method ParseEach(kwargs: Dict<string, string>, argNames: seq<string>, hasReferenceParams: bool)
    returns (r: Result<Dict<string, Parsed>, ReprError>)
    ensures r == ParseKeywords(kwargs, argNames, hasReferenceParams)
  {
    var parsed: Dict<string, Parsed> := [];
    var i := 0;
    while i < |kwargs|
      invariant 0 <= i <= |kwargs| && |parsed| == i
      invariant hasReferenceParams || forall j :: 0 <= j < i ==> kwargs[j].0 in argNames
      invariant forall j :: 0 <= j < i ==> parsed[j] == (kwargs[j].0, ParseEntry(kwargs[j].0, kwargs[j].1))
    {
      var key := kwargs[i].0;
      if key !in argNames && !hasReferenceParams {
        assert FirstUnknown(kwargs, argNames, 0) == Some(i);
        return Err(UnknownArgument(key));
      }
      parsed := parsed + [(key, ParseEntry(key, kwargs[i].1))];
      i := i + 1;
    }
    assert parsed == ParsedEntries(kwargs);
    return Ok(parsed);
  }

  /** `Prior._from_repr` up to the reflective constructor call: the keywords it would pass. */
  method FromRepr(s: string, argNames: seq<string>, hasReferenceParams: bool) returns (r: Result<Dict<string, Parsed>, ReprError>)
    ensures r == FromReprSpec(s, argNames, hasReferenceParams)
  {
    var text := RemoveSpaces(s);
    var split := SplitRepr(text, argNames);
    if split.Err? {
      return Err(split.error);
    }
    r := ParseEach(split.value, argNames, hasReferenceParams);
  }

  /**
   * On text whose keywords split cleanly, `_from_repr` rejects exactly the texts that
   * name a keyword the constructor does not take, naming the first such keyword.
   */
  lemma FromReprUnknownKey(s: string, argNames: seq<string>, hasReferenceParams: bool, i: nat)
    requires SplitReprSpec(RemoveSpaces(s), argNames).Ok?
    requires i < |SplitReprSpec(RemoveSpaces(s), argNames).value|
    requires SplitReprSpec(RemoveSpaces(s), argNames).value[i].0 !in argNames
    requires forall j :: 0 <= j < i ==> SplitReprSpec(RemoveSpaces(s), argNames).value[j].0 in argNames
    ensures FromReprSpec(s, argNames, hasReferenceParams).Err? <==> !hasReferenceParams
    ensures !hasReferenceParams ==>
              FromReprSpec(s, argNames, hasReferenceParams)
                == Err(UnknownArgument(SplitReprSpec(RemoveSpaces(s), argNames).value[i].0))
  {
    var kwargs := SplitReprSpec(RemoveSpaces(s), argNames).value;
    var u := FirstUnknown(kwargs, argNames, 0);
    assert u.Some?;
    assert u.value == i;
  }

  /** When every keyword is one the constructor takes, `_from_repr` passes them all, each value parsed. */
  lemma FromReprKnownKeys(s: string, argNames: seq<string>, hasReferenceParams: bool, key: string)
    requires SplitReprSpec(RemoveSpaces(s), argNames).Ok?
    requires forall j :: 0 <= j < |SplitReprSpec(RemoveSpaces(s), argNames).value| ==>
               SplitReprSpec(RemoveSpaces(s), argNames).value[j].0 in argNames
    ensures FromReprSpec(s, argNames, hasReferenceParams).Ok?
    ensures Lookup(FromReprSpec(s, argNames, hasReferenceParams).value, key).Some? <==>
            Lookup(SplitReprSpec(RemoveSpaces(s), argNames).value, key).Some?
    ensures Lookup(SplitReprSpec(RemoveSpaces(s), argNames).value, key).Some? ==>
              Lookup(FromReprSpec(s, argNames, hasReferenceParams).value, key)
                == Some(ParseEntry(key, Lookup(SplitReprSpec(RemoveSpaces(s), argNames).value, key).value))
  {
    var kwargs := SplitReprSpec(RemoveSpaces(s), argNames).value;
    assert FirstUnknown(kwargs, argNames, 0).None?;
    LookupParsed(kwargs, key);
  }

  // ---------------------------------------------------------------------------
  // `__repr__` and the round trip.

  /** The `key=repr(value)` pieces `__repr__` writes, values already rendered by `repr`. */
  function ReprPieces(entries: seq<(string, string)>): (r: seq<string>)
    ensures |r| == |entries| && forall i :: 0 <= i < |entries| ==> r[i] == entries[i].0 + "=" + entries[i].1
  {
    seq(|entries|, i requires 0 <= i < |entries| => entries[i].0 + "=" + entries[i].1)
  }

  /** `Prior.__repr__`: "ClassName(k1=r1, k2=r2, ...)" in instantiation-dict order. */
  function Repr(className: string, entries: seq<(string, string)>): (r: string)
    ensures r == className + "(" + Join(ReprPieces(entries), ", ") + ")"
    ensures r[|className| + 1..|r| - 1] == Join(ReprPieces(entries), ", ")
  {
    className + "(" + Join(ReprPieces(entries), ", ") + ")"
  }

  /** Entries `__repr__` writes so that they can be read back: plain keys, no spaces, commas or calls. */
  predicate Readable(entries: seq<(string, string)>) {
    && |entries| >= 1
    && (forall i :: 0 <= i < |entries| ==>
          && ' ' !in entries[i].0 && ',' !in entries[i].0 && '=' !in entries[i].0 && '(' !in entries[i].0
          && ' ' !in entries[i].1 && ',' !in entries[i].1 && '(' !in entries[i].1)
    && DistinctKeys(entries)
  }

  lemma {:induction false} RemoveSpacesJoin(pieces: seq<string>)
    requires forall i :: 0 <= i < |pieces| ==> ' ' !in pieces[i]
    ensures RemoveSpaces(Join(pieces, ", ")) == Join(pieces, ",")
    decreases |pieces|
  {
    if |pieces| == 0 {
    } else if |pieces| == 1 {
      RemoveSpacesNone(pieces[0]);
    } else {
      RemoveSpacesJoin(pieces[1..]);
      RemoveSpacesConcat(pieces[0] + ", ", Join(pieces[1..], ", "));
      RemoveSpacesConcat(pieces[0], ", ");
      RemoveSpacesNone(pieces[0]);
      assert RemoveSpaces(", ") == ",";
    }
  }

  lemma {:induction false} RemoveBetweenEmpty(chunks: seq<string>, a: nat, b: nat)
    requires a <= b <= |chunks|
    requires forall x :: a <= x < b ==> !Opens(chunks[x])
    ensures RemoveBetween(chunks, a, b) == []
    decreases b - a
  {
    if a < b {
      RemoveBetweenEmpty(chunks, a + 1, b);
    }
  }

  /** With no '(' anywhere, nothing is glued or deleted. */
  lemma GluedChunksPlain(s: string)
    requires forall x :: 0 <= x < |Split(s, ',')| ==> !Opens(Split(s, ',')[x])
    ensures GluedChunks(s) == Ok(Split(s, ','))
  {
    var chunks := Split(s, ',');
    RemoveBetweenEmpty(chunks, 0, |chunks|);
    assert GlueState(chunks, |chunks|) == chunks;
  }

  /** The pieces `__repr__` writes for readable entries enter the dictionary as the entries themselves. */
  lemma KwargsOfPieces(entries: seq<(string, string)>, argNames: seq<string>)
    requires Readable(entries)
    ensures Kwargs(ReprPieces(entries), argNames) == Ok(entries)
  {
    var pieces := ReprPieces(entries);
    var es := Entries(pieces, argNames);
    forall i | 0 <= i < |es|
      ensures es[i] == Some(entries[i])
    {
      var key := entries[i].0;
      assert pieces[i] == key + "=" + entries[i].1;
      assert pieces[i][..|key|] == key && pieces[i][|key| + 1..] == entries[i].1;
      KeywordChunk(pieces[i], |key|);
    }
    PutEachDistinct(es, entries);
  }

  /** Reading back the argument text of `__repr__` (spaces removed) gives the entries it was written from. */
  lemma SplitReprRoundTrip(entries: seq<(string, string)>, argNames: seq<string>)
    requires Readable(entries)
    ensures SplitReprSpec(RemoveSpaces(Join(ReprPieces(entries), ", ")), argNames) == Ok(entries)
  {
    var pieces := ReprPieces(entries);
    RemoveSpacesJoin(pieces);
    SplitOfJoin(pieces, ',');
    GluedChunksPlain(Join(pieces, ","));
    KwargsOfPieces(entries, argNames);
  }

  /**
   * `_from_repr` applied to the argument text of `__repr__` passes the
   * constructor every written keyword, in order, with its value parsed.
   */
  lemma FromReprRoundTrip(className: string, entries: seq<(string, string)>, argNames: seq<string>, hasReferenceParams: bool)
    requires Readable(entries)
    requires forall i :: 0 <= i < |entries| ==> entries[i].0 in argNames
    ensures var text := Repr(className, entries);
            FromReprSpec(text[|className| + 1..|text| - 1], argNames, hasReferenceParams) == Ok(ParsedEntries(entries))
  {
    SplitReprRoundTrip(entries, argNames);
    assert FirstUnknown(entries, argNames, 0).None?;
  }
}

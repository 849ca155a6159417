/** Streamed tool calls, put together from fragments. */
module Streams {
  import opened Options

  // Chunks carry fragments of several calls, in any interleaving; the accumulator returns the calls at the finishing
  // chunk and is then empty.

  datatype ToolCall = ToolCall(id: string, name: string, arguments: string)

  datatype Fragment = Fragment(index: int, id: string, name: string, arguments: string)

  /** A decoded chunk: no choices, or the fragments of the first choice and whether it finishes the calls. */
  datatype Chunk = NoChoices | Delta(fragments: seq<Fragment>, finishes: bool)

  /** Nothing yet, the finished calls, or the crash on a call index that no fragment mentioned. */
  datatype Decoded = More | Finished(calls: seq<ToolCall>) | Crashed

  const EMPTY := ToolCall("", "", "")

  function Merge(c: ToolCall, f: Fragment): ToolCall {
    ToolCall(if f.id != "" then f.id else c.id, if f.name != "" then f.name else c.name, c.arguments + f.arguments)
  }

  /** What the fragments of one call amount to. */
  function Merged(fs: seq<Fragment>): ToolCall {
    if fs == [] then EMPTY else Merge(Merged(fs[..|fs| - 1]), fs[|fs| - 1])
  }

  /** The fragments of the call at an index, in order. */
  function At(fs: seq<Fragment>, index: int): seq<Fragment> {
    if fs == [] then []
    else
      var before := At(fs[..|fs| - 1], index);
      if fs[|fs| - 1].index == index then before + [fs[|fs| - 1]] else before
  }

  /** The accumulator after these fragments. */
  function Accumulated(fs: seq<Fragment>): map<int, ToolCall> {
    if fs == [] then map[]
    else
      var before, f := Accumulated(fs[..|fs| - 1]), fs[|fs| - 1];
      before[f.index := Merge(if f.index in before then before[f.index] else EMPTY, f)]
  }

  class StreamDecoder {
    var streamAccum: Option<map<int, ToolCall>>

    constructor ()
      ensures streamAccum == None
    {
      streamAccum := None;
    }

    /** `seen` are the fragments since the last finished response. */
    ghost predicate Holds(seen: seq<Fragment>)
      reads this
    {
      if streamAccum.None? then seen == [] else streamAccum.value == Accumulated(seen)
    }

    method DecodeStreamToolCalls(chunk: Chunk, ghost seen: seq<Fragment>) returns (r: Decoded)
      requires Holds(seen)
      modifies this
      ensures chunk.NoChoices? ==> r == More && Holds(seen)
      ensures chunk.Delta? && !chunk.finishes ==> r == More && Holds(seen + chunk.fragments)
      ensures chunk.Delta? && chunk.finishes ==> r == Finish(seen + chunk.fragments) && (r.Finished? ==> streamAccum == None)
    {
      if chunk.NoChoices? {
        return More;
      }
      var accum := if streamAccum.None? then map[] else streamAccum.value;
      accum := Absorb(accum, chunk.fragments, seen);
      streamAccum := Some(accum);
      if !chunk.finishes {
        return More;
      }
      r := Assemble(accum);
      if r.Finished? {
        streamAccum := None;
      }
    }
  }

  /** The loop over the fragments of a chunk. */
  method Absorb(before: map<int, ToolCall>, fragments: seq<Fragment>, ghost seen: seq<Fragment>) returns (accum: map<int, ToolCall>)
    requires before == Accumulated(seen)
    ensures accum == Accumulated(seen + fragments)
  {
    hide Accumulated;
    accum := before;
    ghost var all := seen;
    assert seen + fragments[..0] == seen;
    for k := 0 to |fragments|
      invariant all == seen + fragments[..k] && accum == Accumulated(all)
    {
      var tc := fragments[k];
      var existing := if tc.index in accum then accum[tc.index] else EMPTY;
      if tc.id != "" {
        existing := existing.(id := tc.id);
      }
      if tc.name != "" {
        existing := existing.(name := tc.name);
      }
      existing := existing.(arguments := existing.arguments + tc.arguments);
      AccumulatedMore(all, tc);
      accum := accum[tc.index := existing];
      assert fragments[..k + 1] == fragments[..k] + [tc];
      all := all + [tc];
    }
    assert fragments[..|fragments|] == fragments;
  }

  /** The calls in index order, from 0 to the number of entries; a missing entry is a nil dereference. */
  method Assemble(accum: map<int, ToolCall>) returns (r: Decoded)
    ensures r == if Contiguous(accum) then Finished(seq(|accum|, i requires 0 <= i < |accum| => accum[i])) else Crashed
  {
    var calls := [];
    for i := 0 to |accum|
      invariant |calls| == i && forall k :: 0 <= k < i ==> k in accum && calls[k] == accum[k]
    {
      if i !in accum {
        return Crashed;
      }
      calls := calls + [accum[i]];
    }
    return Finished(calls);
  }

  /** Every call index below the number of calls was mentioned. */
  predicate Contiguous(m: map<int, ToolCall>) {
    forall i :: 0 <= i < |m| ==> i in m
  }

  function Finish(fs: seq<Fragment>): Decoded {
    var m := Accumulated(fs);
    if Contiguous(m) then Finished(seq(|m|, i requires 0 <= i < |m| => m[i])) else Crashed
  }

  lemma AccumulatedMore(fs: seq<Fragment>, f: Fragment)
    ensures var m := Accumulated(fs);
            Accumulated(fs + [f]) == m[f.index := Merge(if f.index in m then m[f.index] else EMPTY, f)]
  {
    assert (fs + [f])[..|fs|] == fs;
  }

  /** The accumulator holds one entry for each index mentioned: what the fragments at that index amount to. */
  lemma {:induction false} AccumulatedAt(fs: seq<Fragment>, i: int)
    ensures i in Accumulated(fs) <==> At(fs, i) != []
    ensures i in Accumulated(fs) ==> Accumulated(fs)[i] == Merged(At(fs, i))
  {
    if fs != [] {
      var before, f := fs[..|fs| - 1], fs[|fs| - 1];
      AccumulatedAt(before, i);
      if f.index == i {
        assert At(fs, i)[..|At(before, i)|] == At(before, i);
      }
    }
  }

  // ---------- What fragments amount to ----------

  function IDs(fs: seq<Fragment>): (ss: seq<string>) {
    seq(|fs|, i requires 0 <= i < |fs| => fs[i].id)
  }

  function Names(fs: seq<Fragment>): (ss: seq<string>) {
    seq(|fs|, i requires 0 <= i < |fs| => fs[i].name)
  }

  function Arguments(fs: seq<Fragment>): (ss: seq<string>) {
    seq(|fs|, i requires 0 <= i < |fs| => fs[i].arguments)
  }

  /** The last piece that is not empty. */
  function LastGiven(ss: seq<string>): string {
    if ss == [] then "" else if ss[|ss| - 1] != "" then ss[|ss| - 1] else LastGiven(ss[..|ss| - 1])
  }

  function Joined(ss: seq<string>): string {
    if ss == [] then "" else Joined(ss[..|ss| - 1]) + ss[|ss| - 1]
  }

  /** What fragments at one index amount to: the last identifiers win, the arguments are joined. */
  function Assembled(fs: seq<Fragment>): ToolCall {
    ToolCall(LastGiven(IDs(fs)), LastGiven(Names(fs)), Joined(Arguments(fs)))
  }

  lemma {:induction false} MergedIs(fs: seq<Fragment>)
    ensures Merged(fs) == Assembled(fs)
  {
    if fs != [] {
      var n := |fs| - 1;
      MergedIs(fs[..n]);
      assert IDs(fs)[..n] == IDs(fs[..n]) && Names(fs)[..n] == Names(fs[..n]) && Arguments(fs)[..n] == Arguments(fs[..n]);
    }
  }

  /** The indexes mentioned are the first n. */
  ghost predicate Mentions(fs: seq<Fragment>, n: nat) {
    forall i :: At(fs, i) != [] <==> 0 <= i < n
  }

  ghost predicate Assembles(fs: seq<Fragment>, calls: seq<ToolCall>) {
    && Mentions(fs, |calls|)
    && forall i :: 0 <= i < |calls| ==> calls[i] == Assembled(At(fs, i))
  }

  lemma MentionsSize(fs: seq<Fragment>, n: nat)
    requires Mentions(fs, n)
    ensures |Accumulated(fs)| == n && Contiguous(Accumulated(fs))
  {
    hide Accumulated, At;
    var m := Accumulated(fs);
    RangeIs(n);
    forall i | i in m.Keys + Range(n) ensures i in m.Keys && i in Range(n) {
      AccumulatedAt(fs, i);
      assert At(fs, i) != [] <==> 0 <= i < n;
    }
    assert m.Keys == Range(n);
  }

  lemma ContiguousMentions(fs: seq<Fragment>)
    requires Contiguous(Accumulated(fs))
    ensures Mentions(fs, |Accumulated(fs)|)
  {
    hide Accumulated, At;
    var m := Accumulated(fs);
    RangeIs(|m|);
    forall i | i in Range(|m|) ensures i in m.Keys {
      assert 0 <= i < |m|;
    }
    SameSize(Range(|m|), m.Keys);
    forall i ensures At(fs, i) != [] <==> 0 <= i < |m| {
      AccumulatedAt(fs, i);
      assert i in m.Keys <==> i in Range(|m|);
    }
  }

  lemma SameSize(a: set<int>, b: set<int>)
    requires a <= b && |a| == |b|
    ensures a == b
  {
    assert |b - a| == |b| - |a|;
  }

  /** The decoder crashes exactly when the indexes mentioned are not 0, 1, 2, ... without a gap. */
  lemma CrashesIff(fs: seq<Fragment>)
    ensures Finish(fs) == Crashed <==> !exists n: nat :: Mentions(fs, n)
  {
    hide Accumulated, At, Mentions;
    if n: nat :| Mentions(fs, n) {
      MentionsSize(fs, n);
    }
    if Contiguous(Accumulated(fs)) {
      ContiguousMentions(fs);
    }
  }

  /**
   * Fragments give these calls exactly when they mention the indexes of the calls and, index by index, the last
   * identifiers that are not empty and the joined arguments are those of the call. Order across indexes and the
   * way arguments are cut are immaterial.
   */
  lemma FragmentationInvariant(fs: seq<Fragment>, calls: seq<ToolCall>)
    ensures Finish(fs) == Finished(calls) <==> Assembles(fs, calls)
  {
    hide Accumulated, At, Merged;
    var m := Accumulated(fs);
    forall i | i in m ensures m[i] == Assembled(At(fs, i)) {
      AccumulatedAt(fs, i);
      MergedIs(At(fs, i));
    }
    if Mentions(fs, |calls|) {
      MentionsSize(fs, |calls|);
    }
    if Contiguous(m) {
      ContiguousMentions(fs);
    }
  }

  // ---------- Splitting identifiers ----------

  /** How many pieces are not empty. */
  function Given(ss: seq<string>): nat {
    if ss == [] then 0 else Given(ss[..|ss| - 1]) + if ss[|ss| - 1] == "" then 0 else 1
  }

  /** Every field of every call cut into pieces, and the pieces interleaved across indexes. */
  ghost predicate Split(fs: seq<Fragment>, calls: seq<ToolCall>) {
    Mentions(fs, |calls|) && forall i :: 0 <= i < |calls| ==> calls[i] == Whole(At(fs, i))
  }

  function Whole(fs: seq<Fragment>): ToolCall {
    ToolCall(Joined(IDs(fs)), Joined(Names(fs)), Joined(Arguments(fs)))
  }

  lemma {:induction false} JoinedIsLast(ss: seq<string>)
    ensures Joined(ss) == LastGiven(ss) <==> Given(ss) <= 1
    ensures Joined(ss) == "" <==> Given(ss) == 0
  {
    if ss != [] {
      var before, last := ss[..|ss| - 1], ss[|ss| - 1];
      JoinedIsLast(before);
      assert |Joined(ss)| == |Joined(before)| + |last|;
      if last != "" && Joined(before) == "" {
        assert Joined(ss) == last;
      }
    }
  }

  /** No ID and no name at this index was cut. */
  predicate Uncut(fs: seq<Fragment>) {
    Given(IDs(fs)) <= 1 && Given(Names(fs)) <= 1
  }

  ghost predicate AllUncut(fs: seq<Fragment>, n: nat) {
    forall i :: 0 <= i < n ==> Uncut(At(fs, i))
  }

  /** Calls cut into pieces come back exactly when no ID and no name was cut. */
  lemma SplitComesBackIff(fs: seq<Fragment>, calls: seq<ToolCall>)
    requires Split(fs, calls)
    ensures Finish(fs) == Finished(calls) <==> AllUncut(fs, |calls|)
  {
    hide Finish, Mentions, Uncut;
    FragmentationInvariant(fs, calls);
    forall i | 0 <= i < |calls| ensures calls[i] == Assembled(At(fs, i)) <==> Uncut(At(fs, i)) {
      assert calls[i] == Whole(At(fs, i));
      UncutIff(At(fs, i));
    }
    if Assembles(fs, calls) {
      forall i | 0 <= i < |calls| ensures Uncut(At(fs, i)) {
        assert calls[i] == Assembled(At(fs, i));
      }
    }
  }

  lemma UncutIff(fs: seq<Fragment>)
    ensures Whole(fs) == Assembled(fs) <==> Uncut(fs)
  {
    JoinedIsLast(IDs(fs));
    JoinedIsLast(Names(fs));
  }

  /** A name in two pieces: the decoder keeps the second. */
  lemma SplitNameLost()
    ensures var fs := [Fragment(0, "c1", "get_", "{"), Fragment(0, "", "weather", "}")];
            Split(fs, [ToolCall("c1", "get_weather", "{}")]) && Finish(fs) == Finished([ToolCall("c1", "weather", "{}")])
  {
    hide At, Joined, LastGiven, Finish;
    var a, b := Fragment(0, "c1", "get_", "{"), Fragment(0, "", "weather", "}");
    var fs := [a, b];
    TwoAt(a, b);
    TwoPieces(a.id, b.id);
    TwoPieces(a.name, b.name);
    TwoPieces(a.arguments, b.arguments);
    assert IDs(fs) == [a.id, b.id] && Names(fs) == [a.name, b.name] && Arguments(fs) == [a.arguments, b.arguments];
    assert a.id + b.id == "c1" && a.name + b.name == "get_weather" && a.arguments + b.arguments == "{}";
    FragmentationInvariant(fs, [ToolCall("c1", "weather", "{}")]);
  }

  lemma TwoAt(a: Fragment, b: Fragment)
    requires a.index == b.index == 0
    ensures forall i :: At([a, b], i) == if i == 0 then [a, b] else []
  {
    forall i ensures At([a, b], i) == if i == 0 then [a, b] else [] {
      assert [a, b][..1] == [a] && [a][..0] == [];
      assert At([a], i) == if i == 0 then [a] else [];
    }
  }

  lemma TwoPieces(a: string, b: string)
    ensures Joined([a, b]) == a + b && LastGiven([a, b]) == if b != "" then b else a
  {
    assert [a, b][..1] == [a] && [a][..0] == [];
    assert Joined([a]) == "" + a == a && LastGiven([a]) == a;
  }

  function Range(n: nat): set<int> {
    if n == 0 then {} else Range(n - 1) + {n - 1}
  }

  lemma {:induction false} RangeIs(n: nat)
    ensures |Range(n)| == n && forall i :: i in Range(n) <==> 0 <= i < n
  {
    if n > 0 {
      RangeIs(n - 1);
    }
  }

  /** A whole streamed response: the chunks up to the finishing one, however the fragments are spread over them. */
  method DecodeAll(d: StreamDecoder, chunks: seq<Chunk>) returns (r: Decoded)
    requires d.streamAccum == None
    requires chunks != [] && chunks[|chunks| - 1].Delta? && chunks[|chunks| - 1].finishes
    requires forall k :: 0 <= k < |chunks| - 1 ==> chunks[k].Delta? ==> !chunks[k].finishes
    modifies d
    ensures r == Finish(AllFragments(chunks))
    ensures r.Finished? ==> d.streamAccum == None
  {
    var k := 0;
    ghost var seen: seq<Fragment> := [];
    assert chunks[..0] == [];
    while k < |chunks| - 1
      invariant 0 <= k < |chunks| && seen == AllFragments(chunks[..k]) && d.Holds(seen)
    {
      var _ := d.DecodeStreamToolCalls(chunks[k], seen);
      AllFragmentsMore(chunks, k);
      assert seen + [] == seen;
      seen := AllFragments(chunks[..k + 1]);
      k := k + 1;
    }
    AllFragmentsMore(chunks, k);
    assert chunks[..k + 1] == chunks;
    r := d.DecodeStreamToolCalls(chunks[k], seen);
  }

  function AllFragments(chunks: seq<Chunk>): seq<Fragment> {
    if chunks == [] then []
    else
      var before, last := AllFragments(chunks[..|chunks| - 1]), chunks[|chunks| - 1];
      if last.Delta? then before + last.fragments else before
  }

  lemma AllFragmentsMore(chunks: seq<Chunk>, k: nat)
    requires k < |chunks|
    ensures AllFragments(chunks[..k + 1]) ==
            AllFragments(chunks[..k]) + if chunks[k].Delta? then chunks[k].fragments else []
  {
    assert chunks[..k + 1][..k] == chunks[..k];
  }
}

/**
 * What the streaming accumulator computes, stated against reference
 * definitions written independently of the fold: the text is every text piece
 * joined in arrival order, and each call is the concatenation, field by field,
 * of the fragments that carry its index.
 */
module ChatOpenAIProofs {
  import opened Wrappers
  import opened ChatOpenAI

  /** Every text piece of the stream, joined in arrival order. */
  function JoinedContent(stream: seq<Delta>): string {
    if stream == [] then "" else stream[0].content + JoinedContent(stream[1..])
  }

  /** Every tool-call fragment of the stream, in arrival order. */
  function Fragments(stream: seq<Delta>): seq<ToolCallDelta> {
    if stream == [] then [] else stream[0].toolCalls + Fragments(stream[1..])
  }

  /** The fragments that carry index `k`, in arrival order. */
  function OfIndex(frags: seq<ToolCallDelta>, k: nat): seq<ToolCallDelta> {
    if frags == [] then []
    else (if frags[0].index == k then [frags[0]] else []) + OfIndex(frags[1..], k)
  }

  /** The call whose id, name and arguments are those of `frags` joined in order. */
  function Joined(frags: seq<ToolCallDelta>): ToolCall {
    if frags == [] then NewToolCall
    else
      var rest := Joined(frags[1..]);
      ToolCall(frags[0].id + rest.id,
               ToolCallFunction(frags[0].name + rest.func.name, frags[0].arguments + rest.func.arguments))
  }

  /** One more than the largest index among `frags`; 0 when there are none. */
  function Width(frags: seq<ToolCallDelta>): nat {
    if frags == [] then 0 else Max(frags[0].index + 1, Width(frags[1..]))
  }

  /** Each fragment's index is at most the number of calls seen before it. */
  predicate Grows(frags: seq<ToolCallDelta>) {
    forall j :: 0 <= j < |frags| ==> frags[j].index <= Width(frags[..j])
  }

  lemma {:induction false} JoinedContentSnoc(stream: seq<Delta>, d: Delta)
    ensures JoinedContent(stream + [d]) == JoinedContent(stream) + d.content
  {
    if stream != [] {
      assert (stream + [d])[1..] == stream[1..] + [d];
      JoinedContentSnoc(stream[1..], d);
    }
  }

  lemma {:induction false} FragmentsSnoc(stream: seq<Delta>, d: Delta)
    ensures Fragments(stream + [d]) == Fragments(stream) + d.toolCalls
  {
    if stream != [] {
      assert (stream + [d])[1..] == stream[1..] + [d];
      FragmentsSnoc(stream[1..], d);
    }
  }

  lemma {:induction false} OfIndexSnoc(frags: seq<ToolCallDelta>, f: ToolCallDelta, k: nat)
    ensures OfIndex(frags + [f], k) == OfIndex(frags, k) + (if f.index == k then [f] else [])
  {
    if frags != [] {
      assert (frags + [f])[1..] == frags[1..] + [f];
      OfIndexSnoc(frags[1..], f, k);
    }
  }

  lemma {:induction false} JoinedSnoc(frags: seq<ToolCallDelta>, f: ToolCallDelta)
    ensures Joined(frags + [f]) == Extend(Joined(frags), f)
  {
    if frags != [] {
      assert (frags + [f])[1..] == frags[1..] + [f];
      JoinedSnoc(frags[1..], f);
    }
  }

  lemma {:induction false} WidthSnoc(frags: seq<ToolCallDelta>, f: ToolCallDelta)
    ensures Width(frags + [f]) == Max(Width(frags), f.index + 1)
  {
    if frags != [] {
      assert (frags + [f])[1..] == frags[1..] + [f];
      WidthSnoc(frags[1..], f);
    }
  }

  lemma GrowsSnoc(frags: seq<ToolCallDelta>, f: ToolCallDelta)
    ensures Grows(frags + [f]) <==> Grows(frags) && f.index <= Width(frags)
  {
    var all := frags + [f];
    forall j | 0 <= j < |frags| ensures all[..j] == frags[..j] && all[j] == frags[j] { }
    assert all[..|frags|] == frags;
  }

  /** One merge step keeps entry `k` equal to the join of the fragments of index `k`. */
  lemma MergeStepJoins(init: seq<ToolCallDelta>, f: ToolCallDelta, calls: seq<ToolCall>, k: nat)
    requires |calls| == Width(init)
    requires forall i :: 0 <= i < |calls| ==> calls[i] == Joined(OfIndex(init, i))
    requires MergeFragment(calls, f).Ok? && k < |MergeFragment(calls, f).value|
    ensures MergeFragment(calls, f).value[k] == Joined(OfIndex(init + [f], k))
  {
    OfIndexSnoc(init, f, k);
    if k == f.index {
      JoinedSnoc(OfIndex(init, k), f);
      if k >= |calls| {
        NoFragmentsPastWidth(init, k);
      }
    } else {
      assert OfIndex(init + [f], k) == OfIndex(init, k);
    }
  }

  /**
   * Merging a list of fragments into an empty call list succeeds exactly when
   * every fragment's index is at most the number of calls seen so far; the
   * merged list then has one entry per index, and entry `k` is the field-wise
   * concatenation of the fragments of index `k`, in arrival order.
   */
  lemma {:induction false} MergeFragmentsJoinsEachIndex(frags: seq<ToolCallDelta>)
    ensures MergeFragments([], frags).Ok? <==> Grows(frags)
    ensures MergeFragments([], frags).Ok? ==>
      var calls := MergeFragments([], frags).value;
      |calls| == Width(frags) && forall k :: 0 <= k < |calls| ==> calls[k] == Joined(OfIndex(frags, k))
    decreases |frags|
  {
    if frags != [] {
      var init, f := frags[..|frags| - 1], frags[|frags| - 1];
      assert frags == init + [f];
      MergeFragmentsJoinsEachIndex(init);
      WidthSnoc(init, f);
      GrowsSnoc(init, f);
      if MergeFragments([], init).Ok? {
        var calls := MergeFragments([], init).value;
        if MergeFragment(calls, f).Ok? {
          var merged := MergeFragment(calls, f).value;
          forall k | 0 <= k < |merged| ensures merged[k] == Joined(OfIndex(frags, k)) {
            MergeStepJoins(init, f, calls, k);
          }
        }
      }
    }
  }

  /** No fragment carries an index at or past the width. */
  lemma {:induction false} NoFragmentsPastWidth(frags: seq<ToolCallDelta>, k: nat)
    requires Width(frags) <= k
    ensures OfIndex(frags, k) == []
  {
    if frags != [] {
      NoFragmentsPastWidth(frags[1..], k);
    }
  }

  /** Merging `a + b` is merging `a`, then merging `b` into the result. */
  lemma {:induction false} MergeFragmentsAppend(calls: seq<ToolCall>, a: seq<ToolCallDelta>, b: seq<ToolCallDelta>)
    ensures MergeFragments(calls, a + b) ==
      match MergeFragments(calls, a)
      case Err(e) => Err(e)
      case Ok(merged) => MergeFragments(merged, b)
    decreases |b|
  {
    if b == [] {
      assert a + b == a;
    } else {
      var init := b[..|b| - 1];
      assert (a + b)[..|a + b| - 1] == a + init;
      MergeFragmentsAppend(calls, a, init);
    }
  }

  /**
   * The accumulated response is the stream's text pieces joined in arrival
   * order together with the merge of all its fragments in arrival order.
   */
  lemma {:induction false} AccumulateIsJoinAndMerge(stream: seq<Delta>)
    ensures Accumulate(stream) ==
      match MergeFragments([], Fragments(stream))
      case Err(e) => Err(e)
      case Ok(calls) => Ok(ChatResponse(JoinedContent(stream), calls))
    decreases |stream|
  {
    if stream != [] {
      var init, d := stream[..|stream| - 1], stream[|stream| - 1];
      assert stream == init + [d];
      AccumulateIsJoinAndMerge(init);
      JoinedContentSnoc(init, d);
      FragmentsSnoc(init, d);
      MergeFragmentsAppend([], Fragments(init), d.toolCalls);
      match MergeFragments([], Fragments(init))
      case Err(e) =>
      case Ok(calls) =>
        assert Accumulate(init) == Ok(ChatResponse(JoinedContent(init), calls));
        assert d.content == "" ==> JoinedContent(init) + d.content == JoinedContent(init);
    }
  }

  /**
   * The accumulator's whole contract: a stream accumulates exactly when its
   * fragments' indices never skip past the end of the call list, and then the
   * content is every text piece in arrival order and call `k` is the
   * concatenation of the id, name and argument pieces of index `k`.
   */
  lemma AccumulateSpec(stream: seq<Delta>)
    ensures Accumulate(stream).Ok? <==> Grows(Fragments(stream))
    ensures Accumulate(stream).Ok? ==>
      var r := Accumulate(stream).value;
      && r.content == JoinedContent(stream)
      && |r.toolCalls| == Width(Fragments(stream))
      && forall k :: 0 <= k < |r.toolCalls| ==> r.toolCalls[k] == Joined(OfIndex(Fragments(stream), k))
  {
    AccumulateIsJoinAndMerge(stream);
    MergeFragmentsJoinsEachIndex(Fragments(stream));
  }

  /**
   * Reordering fragments of different indices, while keeping the order of
   * each index's own fragments, does not change the merged calls.
   */
  lemma ReorderingAcrossIndicesIsHarmless(a: seq<ToolCallDelta>, b: seq<ToolCallDelta>)
    requires Grows(a) && Grows(b) && Width(a) == Width(b)
    requires forall k :: 0 <= k < Width(a) ==> OfIndex(a, k) == OfIndex(b, k)
    ensures MergeFragments([], a) == MergeFragments([], b)
  {
    MergeFragmentsJoinsEachIndex(a);
    MergeFragmentsJoinsEachIndex(b);
    var ra, rb := MergeFragments([], a).value, MergeFragments([], b).value;
    assert |ra| == |rb|;
    forall k | 0 <= k < |ra| ensures ra[k] == rb[k] { }
    assert ra == rb;
  }

  /**
   * The list grows by one entry per fragment at most: fragments of indices
   * 2, 0, 1 in that order raise an IndexError at the first one, while 0, 2, 1
   * raises at the second.
   */
  lemma IndexMayNotSkipAhead(d: ToolCallDelta)
    ensures Accumulate([Delta("", [d.(index := 2), d.(index := 0), d.(index := 1)])])
         == Err(ToolCallIndexError(2, 1))
    ensures Accumulate([Delta("", [d.(index := 0), d.(index := 2), d.(index := 1)])])
         == Err(ToolCallIndexError(2, 2))
  {
    var f0, f2, f1 := d.(index := 0), d.(index := 2), d.(index := 1);
    var skipped := [f2, f0, f1];
    assert skipped[..1][..0] == [];
    assert MergeFragments([], skipped[..1]) == Err(ToolCallIndexError(2, 1));
    MergeFragmentsStaysFailed([], skipped, 1);
    assert [Delta("", skipped)][..0] == [];
    var frags := [f0, f2, f1];
    assert [f0][..0] == [];
    assert MergeFragments([], []) == Ok([]);
    assert MergeFragments([], [f0]) == MergeFragment([], f0);
    assert frags[..2][..1] == [f0];
    assert MergeFragments([], frags[..2]) == Err(ToolCallIndexError(2, 2));
    MergeFragmentsStaysFailed([], frags, 2);
    assert [Delta("", frags)][..0] == [];
  }

  /** Fragments of indices 0, 1, 0 produce two calls, the first of which joins both of its pieces. */
  lemma InterleavedIndicesMerge()
    ensures Accumulate([Delta("", [ToolCallDelta(0, "call_a", "calc", "{\"a\":")]),
                        Delta("", [ToolCallDelta(1, "call_b", "echo", "{}")]),
                        Delta("", [ToolCallDelta(0, "", "", "2}")])])
         == Ok(ChatResponse("", [ToolCall("call_a", ToolCallFunction("calc", "{\"a\":2}")),
                                 ToolCall("call_b", ToolCallFunction("echo", "{}"))]))
  {
    var f0, f1, f2 := ToolCallDelta(0, "call_a", "calc", "{\"a\":"), ToolCallDelta(1, "call_b", "echo", "{}"),
      ToolCallDelta(0, "", "", "2}");
    var s := [Delta("", [f0]), Delta("", [f1]), Delta("", [f2])];
    assert s[..2][..1] == [Delta("", [f0])] && s[..2] == [Delta("", [f0]), Delta("", [f1])];
    assert [Delta("", [f0])][..0] == [];
    assert [f0][..0] == [] && [f1][..0] == [] && [f2][..0] == [];
    var c0 := ToolCall("call_a", ToolCallFunction("calc", "{\"a\":"));
    var c1 := ToolCall("call_b", ToolCallFunction("echo", "{}"));
    assert Extend(NewToolCall, f0) == c0 && Extend(NewToolCall, f1) == c1;
    assert MergeFragment([], f0).value == [c0];
    assert MergeFragments([], [f0]) == MergeFragment([], f0) == Ok([c0]);
    assert Accumulate([Delta("", [f0])]) == Ok(ChatResponse("", [c0]));
    assert MergeFragment([c0], f1).value == [c0, c1];
    assert MergeFragments([c0], [f1]) == MergeFragment([c0], f1) == Ok([c0, c1]);
    assert Accumulate(s[..2]) == Ok(ChatResponse("", [c0, c1]));
    assert MergeFragments([c0, c1], [f2]) == MergeFragment([c0, c1], f2);
    assert Extend(c0, f2) == ToolCall("call_a", ToolCallFunction("calc", "{\"a\":2}"));
    assert MergeFragment([c0, c1], f2).value == [Extend(c0, f2), c1];
  }
}

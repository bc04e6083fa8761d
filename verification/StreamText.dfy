/** Collecting streamed text without duplication (src/services/streams.py). */
module StreamText {

  /** One upstream response; a missing or non-string attribute reads as "". */
  datatype Chunk = Chunk(delta: string, full: string)

  datatype Semantics = Delta | Cumulative

  datatype Summary = Empty | Only(semantics: Semantics) | Mixed

  /** The text a chunk adds to `text`. */
  function Piece(text: string, c: Chunk): string {
    if c.delta != "" then
      if c.full != "" && c.full == text && c.full != c.delta then ""
      else if c.full != "" && text <= c.full && c.full != text && c.full[|text|..] != c.delta then c.full[|text|..]
      else c.delta
    else if text <= c.full then c.full[|text|..]
    else if c.full <= text then ""
    else c.full
  }

  /** What a chunk says about the stream it came from. */
  function Labels(text: string, c: Chunk): set<Semantics> {
    if c.delta != "" then
      if c.full != "" && text <= c.full && (if c.full == text then c.full != c.delta else c.full[|text|..] != c.delta)
      then {Cumulative, Delta} else {Delta}
    else if c.full == "" then {}
    else if text <= c.full || c.full <= text then {Cumulative}
    else {Delta}
  }

  function Collected(chunks: seq<Chunk>): string
    decreases |chunks|
  {
    if chunks == [] then ""
    else
      var before := Collected(chunks[..|chunks| - 1]);
      before + Piece(before, chunks[|chunks| - 1])
  }

  function Pieces(chunks: seq<Chunk>): seq<string>
    decreases |chunks|
  {
    if chunks == [] then []
    else Pieces(chunks[..|chunks| - 1]) + [Piece(Collected(chunks[..|chunks| - 1]), chunks[|chunks| - 1])]
  }

  function Observed(chunks: seq<Chunk>): set<Semantics>
    decreases |chunks|
  {
    if chunks == [] then {}
    else Observed(chunks[..|chunks| - 1]) + Labels(Collected(chunks[..|chunks| - 1]), chunks[|chunks| - 1])
  }

  function Emitted(pieces: seq<string>): nat
    decreases |pieces|
  {
    if pieces == [] then 0
    else Emitted(pieces[..|pieces| - 1]) + (if pieces[|pieces| - 1] == "" then 0 else 1)
  }

  function Join(pieces: seq<string>): string
    decreases |pieces|
  {
    if pieces == [] then "" else Join(pieces[..|pieces| - 1]) + pieces[|pieces| - 1]
  }

  class StreamTextAccumulator {
    var text: string
    var chunkCount: nat
    var emitted: nat
    var duplicates: nat
    var observed: set<Semantics>
    /** Every chunk consumed so far. */
    ghost var seen: seq<Chunk>

    ghost predicate Valid()
      reads this
    {
      && text == Collected(seen) && observed == Observed(seen) && chunkCount == |seen|
      && emitted == Emitted(Pieces(seen)) && emitted + duplicates == chunkCount
    }

    constructor ()
      ensures Valid() && seen == []
    {
      text, chunkCount, emitted, duplicates, observed, seen := "", 0, 0, 0, {}, [];
    }

    method Consume(c: Chunk) returns (piece: string)
      requires Valid()
      modifies this
      ensures Valid() && seen == old(seen) + [c]
      ensures text == old(text) + piece
      ensures Pieces(seen) == Pieces(old(seen)) + [piece]
      ensures c.delta == "" && c.full == "" ==> piece == ""
      ensures c.delta != "" && c.full == "" ==> piece == c.delta
      ensures c.delta != "" && old(text) <= c.full && c.full != old(text) ==> text == c.full
      ensures c.delta != "" && c.full != "" && c.full == old(text) ==> piece == if c.delta == c.full then c.delta else ""
      ensures c.delta != "" && c.full != "" && !(old(text) <= c.full) ==> piece == c.delta
      ensures c.delta == "" && old(text) <= c.full ==> text == c.full
      ensures c.delta == "" && c.full <= old(text) ==> piece == ""
      ensures c.delta == "" && !(old(text) <= c.full) && !(c.full <= old(text)) ==> piece == c.full
      ensures c.delta != "" && c.full == "" ==> observed == old(observed) + {Delta}
      ensures c.delta != "" && c.full != "" && text == c.full && text != old(text) + c.delta ==> observed == old(observed) + {Delta, Cumulative}
      ensures c.delta == "" && c.full != "" && (old(text) <= c.full || c.full <= old(text)) ==> observed == old(observed) + {Cumulative}
      ensures c.delta == "" && c.full != "" && !(old(text) <= c.full) && !(c.full <= old(text)) ==> observed == old(observed) + {Delta}
      ensures chunkCount == old(chunkCount) + 1
      ensures emitted == old(emitted) + if piece == "" then 0 else 1
    {
      chunkCount := chunkCount + 1;
      if c.delta != "" {
        piece := ConsumeExplicitDelta(c.delta, c.full);
      } else if c.full != "" {
        piece := ConsumeUnlabelledText(c.full);
      } else {
        piece := "";
      }
      Record(c, piece);
    }

    method Record(c: Chunk, piece: string)
      requires text == Collected(seen) && piece == Piece(text, c) && observed == Observed(seen) + Labels(text, c)
      requires chunkCount == |seen| + 1 && emitted == Emitted(Pieces(seen)) && emitted + duplicates + 1 == chunkCount
      modifies this
      ensures Valid() && seen == old(seen) + [c]
      ensures text == old(text) + piece
      ensures Pieces(seen) == Pieces(old(seen)) + [piece]
      ensures observed == old(observed) && chunkCount == old(chunkCount)
      ensures emitted == old(emitted) + if piece == "" then 0 else 1
    {
      Appended(seen, c);
      if piece != "" {
        text := text + piece;
        emitted := emitted + 1;
      } else {
        duplicates := duplicates + 1;
      }
      seen := seen + [c];
    }

    method ConsumeExplicitDelta(delta: string, full: string) returns (piece: string)
      requires delta != ""
      modifies this`observed
      ensures piece == Piece(text, Chunk(delta, full))
      ensures observed == old(observed) + Labels(text, Chunk(delta, full))
    {
      if full != "" && full == text && full != delta {
        observed := observed + {Cumulative} + {Delta};
        return "";
      }
      if full != "" && text <= full {
        var suffix := full[|text|..];
        if suffix != "" && suffix != delta {
          observed := observed + {Cumulative} + {Delta};
          return suffix;
        }
      }
      observed := observed + {Delta};
      return delta;
    }

    method ConsumeUnlabelledText(value: string) returns (piece: string)
      requires value != ""
      modifies this`observed
      ensures piece == Piece(text, Chunk("", value))
      ensures observed == old(observed) + Labels(text, Chunk("", value))
    {
      if text == "" {
        observed := observed + {Cumulative};
        return value;
      }
      if text <= value {
        observed := observed + {Cumulative};
        return value[|text|..];
      }
      if value <= text {
        observed := observed + {Cumulative};
        return "";
      }
      observed := observed + {Delta};
      return value;
    }

    method Metadata() returns (summary: Summary, length: nat)
      requires Valid()
      ensures summary.Empty? <==> Observed(seen) == {}
      ensures summary.Mixed? <==> Observed(seen) == {Delta, Cumulative}
      ensures forall semantics :: summary == Only(semantics) ==> Observed(seen) == {semantics}
      ensures length == |Collected(seen)|
    {
      length := |text|;
      if Delta in observed && Cumulative in observed {
        summary := Mixed;
      } else if Delta in observed {
        summary := Only(Delta);
      } else if Cumulative in observed {
        summary := Only(Cumulative);
      } else {
        summary := Empty;
      }
      assert forall semantics :: semantics in observed ==> semantics == Delta || semantics == Cumulative;
    }
  }

  lemma Appended(chunks: seq<Chunk>, c: Chunk)
    ensures Collected(chunks + [c]) == Collected(chunks) + Piece(Collected(chunks), c)
    ensures Pieces(chunks + [c]) == Pieces(chunks) + [Piece(Collected(chunks), c)]
    ensures Observed(chunks + [c]) == Observed(chunks) + Labels(Collected(chunks), c)
    ensures Emitted(Pieces(chunks + [c])) == Emitted(Pieces(chunks)) + (if Piece(Collected(chunks), c) == "" then 0 else 1)
  {
    assert (chunks + [c])[..|chunks|] == chunks;
    var before, piece := Pieces(chunks), Piece(Collected(chunks), c);
    assert (before + [piece])[..|before|] == before;
  }

  lemma PiecesLength(chunks: seq<Chunk>)
    ensures |Pieces(chunks)| == |chunks|
  {
  }

  /** The collected text is always what the calls returned, put together. */
  lemma {:induction false} CollectedIsJoined(chunks: seq<Chunk>)
    ensures Collected(chunks) == Join(Pieces(chunks))
    decreases |chunks|
  {
    if chunks != [] {
      CollectedIsJoined(chunks[..|chunks| - 1]);
      var before := Pieces(chunks[..|chunks| - 1]);
      assert Pieces(chunks)[..|before|] == before;
      PiecesLength(chunks);
      PiecesLength(chunks[..|chunks| - 1]);
    }
  }

  // ---------------------------------------------------------------- labelled streams

  /**
   After a chunk that carries its full text the collected text is that full text, exactly
   when it extends what was there and is not a repetition of a chunk that is all delta.
   */
  lemma FullTextReached(text: string, c: Chunk)
    requires c.full != ""
    ensures text + Piece(text, c) == c.full <==> text <= c.full && !(text == c.full && c.full == c.delta)
  {
    var after := text + Piece(text, c);
    assert after[..|text|] == text;
    if text <= c.full { assert c.full == text + c.full[|text|..]; }
  }

  function FullBefore(stream: seq<Chunk>, i: nat): string
    requires i <= |stream|
  {
    if i == 0 then "" else stream[i - 1].full
  }

  /** Every chunk of the stream continues the full text of the one before it by its delta. */
  ghost predicate Labelled(stream: seq<Chunk>) {
    forall i :: 0 <= i < |stream| ==> Continues(stream, i)
  }

  predicate Continues(stream: seq<Chunk>, i: nat)
    requires i < |stream|
  {
    stream[i].full == FullBefore(stream, i) + stream[i].delta
  }

  /** Which chunks arrive: some may be lost or repeated, none overtakes another. */
  predicate Arrival(stream: seq<Chunk>, order: seq<nat>) {
    && (forall k :: 0 <= k < |order| ==> order[k] < |stream|)
    && (forall k :: 0 <= k < |order| - 1 ==> order[k] <= order[k + 1])
  }

  function Received(stream: seq<Chunk>, order: seq<nat>): (chunks: seq<Chunk>)
    requires Arrival(stream, order)
    ensures |chunks| == |order| && forall k :: 0 <= k < |order| ==> chunks[k] == stream[order[k]]
  {
    seq(|order|, k requires 0 <= k < |order| => stream[order[k]])
  }

  lemma PrefixTransitive(a: string, b: string, c: string)
    requires a <= b && b <= c
    ensures a <= c
  {
    assert a == b[..|a|] && b == c[..|b|];
  }

  lemma {:induction false} FullTextsGrow(stream: seq<Chunk>, i: nat, j: nat)
    requires Labelled(stream) && i <= j < |stream|
    ensures stream[i].full <= stream[j].full
    ensures i < j ==> stream[i].full <= FullBefore(stream, j)
    decreases j
  {
    if i < j {
      FullTextsGrow(stream, i, j - 1);
      assert Continues(stream, j);
      assert stream[j - 1].full <= stream[j].full;
      PrefixTransitive(stream[i].full, stream[j - 1].full, stream[j].full);
    }
  }

  predicate Whole(c: Chunk) { c.delta != "" && c.delta == c.full }

  predicate RepeatsWhole(stream: seq<Chunk>, order: seq<nat>, k: nat)
    requires Arrival(stream, order) && k + 1 < |order|
  {
    order[k] == order[k + 1] && Whole(stream[order[k]])
  }

  ghost predicate Follows(chunks: seq<Chunk>) {
    forall k :: 0 < k <= |chunks| ==> FollowsAt(chunks, k)
  }

  /** After `k` chunks the collected text is the full text of the last of them. */
  predicate FollowsAt(chunks: seq<Chunk>, k: nat)
    requires 0 < k <= |chunks|
  {
    Collected(chunks[..k]) == chunks[k - 1].full
  }

  lemma NextArrival(stream: seq<Chunk>, before: string, i: nat, j: nat)
    requires Labelled(stream) && i <= j < |stream| && before == stream[i].full
    ensures before + Piece(before, stream[j]) == stream[j].full <==> !(i == j && Whole(stream[j]))
  {
    FullTextsGrow(stream, i, j);
    assert Continues(stream, j);
    var c := stream[j];
    if c.full != "" { FullTextReached(before, c); }
    if i < j && before == c.full && c.full == c.delta {
      assert |c.full| == |FullBefore(stream, j)| + |c.delta|;
      assert |before| <= |FullBefore(stream, j)|;
    }
  }

  lemma FirstArrival(stream: seq<Chunk>, j: nat)
    requires j < |stream|
    ensures "" + Piece("", stream[j]) == stream[j].full || (stream[j].full == "" && stream[j].delta != "")
  {
    if stream[j].full != "" { FullTextReached("", stream[j]); }
  }

  lemma FollowsStep(stream: seq<Chunk>, order: seq<nat>, n: nat)
    requires Labelled(stream) && Arrival(stream, order) && n < |order|
    requires n == 0 || FollowsAt(Received(stream, order), n)
    ensures FollowsAt(Received(stream, order), n + 1) <==> n == 0 || !RepeatsWhole(stream, order, n - 1)
  {
    var chunks := Received(stream, order);
    assert chunks[..n + 1][..n] == chunks[..n];
    if n == 0 {
      assert chunks[..0] == [];
      assert Continues(stream, order[0]);
      FirstArrival(stream, order[0]);
    } else {
      NextArrival(stream, stream[order[n - 1]].full, order[n - 1], order[n]);
    }
  }

  /**
   Stream reconstruction: after every arrival the collected text is the full text of the
   chunk that arrived last, if and only if no chunk that is all delta arrives twice running.
   */
  lemma LabelledStreamCollected(stream: seq<Chunk>, order: seq<nat>)
    requires Labelled(stream) && Arrival(stream, order)
    ensures Follows(Received(stream, order)) <==> forall k :: 0 <= k < |order| - 1 ==> !RepeatsWhole(stream, order, k)
  {
    var chunks := Received(stream, order);
    if forall k :: 0 <= k < |order| - 1 ==> !RepeatsWhole(stream, order, k) {
      FollowsWithoutRepeats(stream, order, |order|);
    } else {
      var k :| 0 <= k < |order| - 1 && RepeatsWhole(stream, order, k);
      if FollowsAt(chunks, k + 1) {
        FollowsStep(stream, order, k + 1);
      }
    }
  }

  lemma {:induction false} FollowsWithoutRepeats(stream: seq<Chunk>, order: seq<nat>, n: nat)
    requires Labelled(stream) && Arrival(stream, order) && n <= |order|
    requires forall k :: 0 <= k < |order| - 1 ==> !RepeatsWhole(stream, order, k)
    ensures forall k :: 0 < k <= n ==> FollowsAt(Received(stream, order), k)
  {
    if n > 0 {
      FollowsWithoutRepeats(stream, order, n - 1);
      FollowsStep(stream, order, n - 1);
    }
  }

  // ---------------------------------------------------------------- unlabelled streams

  predicate Comparable(a: string, b: string) { a <= b || b <= a }

  ghost predicate AllComparable(chunks: seq<Chunk>) {
    forall i, j :: 0 <= i < |chunks| && 0 <= j < |chunks| ==> Comparable(chunks[i].full, chunks[j].full)
  }

  /** The collected text is the longest one seen, and every one seen is a prefix of it. */
  ghost predicate LongestSeen(chunks: seq<Chunk>) {
    Covers(chunks, Collected(chunks)) && Occurs(chunks, Collected(chunks))
  }

  ghost predicate Covers(chunks: seq<Chunk>, text: string) {
    forall i :: 0 <= i < |chunks| ==> chunks[i].full <= text
  }

  ghost predicate Occurs(chunks: seq<Chunk>, text: string) {
    text == "" || exists i :: 0 <= i < |chunks| && chunks[i].full == text
  }

  lemma PrefixesOfOne(a: string, b: string, w: string)
    requires a <= w && b <= w
    ensures Comparable(a, b)
  {
    assert a == w[..|a|] && b == w[..|b|];
  }

  /**
   For unlabelled texts in any order: what is left is the longest seen if and only if the
   texts are all prefixes one of another, and exactly then is no chunk taken for a delta.
   */
  lemma {:induction false} UnlabelledStreamCollected(chunks: seq<Chunk>)
    requires forall i :: 0 <= i < |chunks| ==> chunks[i].delta == ""
    ensures LongestSeen(chunks) <==> AllComparable(chunks)
    ensures Delta in Observed(chunks) <==> !AllComparable(chunks)
    decreases |chunks|
  {
    if chunks != [] {
      var less := chunks[..|chunks| - 1];
      UnlabelledStreamCollected(less);
      if LongestSeen(chunks) {
        forall i, j | 0 <= i < |chunks| && 0 <= j < |chunks| ensures Comparable(chunks[i].full, chunks[j].full) {
          PrefixesOfOne(chunks[i].full, chunks[j].full, Collected(chunks));
        }
      }
      if AllComparable(less) {
        LongestGrows(chunks);
      } else {
        var i, j :| 0 <= i < |less| && 0 <= j < |less| && !Comparable(less[i].full, less[j].full);
        assert chunks[i] == less[i] && chunks[j] == less[j];
      }
    }
  }

  lemma OneStepLonger(chunks: seq<Chunk>, before: string, c: Chunk)
    requires chunks != [] && chunks[|chunks| - 1] == c && c.delta == "" && before == Collected(chunks[..|chunks| - 1])
    requires Comparable(before, c.full)
    ensures Collected(chunks) == if before <= c.full then c.full else before
  {
  }

  lemma LongestStays(chunks: seq<Chunk>)
    requires chunks != [] && chunks[|chunks| - 1].delta == "" && LongestSeen(chunks[..|chunks| - 1])
    requires Comparable(Collected(chunks[..|chunks| - 1]), chunks[|chunks| - 1].full)
    ensures LongestSeen(chunks)
  {
    var less := chunks[..|chunks| - 1];
    var before, c := Collected(less), chunks[|chunks| - 1];
    OneStepLonger(chunks, before, c);
    LongerCovers(less, c, before, Collected(chunks));
    LongerOccurs(less, c, before, Collected(chunks));
    assert chunks == less + [c];
  }

  lemma LongerCovers(less: seq<Chunk>, c: Chunk, before: string, after: string)
    requires Covers(less, before) && before <= after && c.full <= after
    ensures Covers(less + [c], after)
  {
    forall i | 0 <= i < |less| ensures less[i].full <= after { PrefixTransitive(less[i].full, before, after); }
  }

  lemma LongerOccurs(less: seq<Chunk>, c: Chunk, before: string, after: string)
    requires Occurs(less, before) && (after == c.full || after == before)
    ensures Occurs(less + [c], after)
  {
    if after == c.full {
      assert (less + [c])[|less|] == c;
    } else if before != "" {
      var i :| 0 <= i < |less| && less[i].full == before;
      assert (less + [c])[i] == less[i];
    }
  }

  lemma LongestGrows(chunks: seq<Chunk>)
    requires chunks != [] && chunks[|chunks| - 1].delta == "" && LongestSeen(chunks[..|chunks| - 1])
    ensures AllComparable(chunks) ==> LongestSeen(chunks)
    ensures AllComparable(chunks) <==> Comparable(Collected(chunks[..|chunks| - 1]), chunks[|chunks| - 1].full)
  {
    var less := chunks[..|chunks| - 1];
    var before, c := Collected(less), chunks[|chunks| - 1];
    if AllComparable(chunks) && before != "" {
      var i :| 0 <= i < |less| && less[i].full == before;
      assert Comparable(chunks[i].full, chunks[|chunks| - 1].full);
    }
    if Comparable(before, c.full) {
      LongestStays(chunks);
      forall i, j | 0 <= i < |chunks| && 0 <= j < |chunks| ensures Comparable(chunks[i].full, chunks[j].full) {
        PrefixesOfOne(chunks[i].full, chunks[j].full, Collected(chunks));
      }
    }
  }
}

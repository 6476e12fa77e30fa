/** Putting the caches of separately prefilled chunks together (example/blend_samsum.py:32-101).  Prefilling a chunk leaves,
    for every layer, one row of keys and one of values for the beginning-of-sequence token and one for each token of the
    chunk; what the rows hold does not matter here. */
module Blending {
  const BOS := 1

  function Flatten(docs: seq<seq<int>>): seq<int> {
    if docs == [] then [] else docs[0] + Flatten(docs[1..])
  }

  /** The outer `n` of a list: its first half, rounded up, and its last half. */
  function Outer(docs: seq<seq<int>>, n: nat): (r: seq<seq<int>>)
    requires n <= |docs|
    ensures |r| == n
  {
    docs[..(n + 1) / 2] + docs[|docs| - n / 2..]
  }

  lemma {:induction false} FlattenAppend(a: seq<seq<int>>, b: seq<seq<int>>)
    ensures Flatten(a + b) == Flatten(a) + Flatten(b)
  {
    if a == [] {
      assert a + b == b;
    } else {
      assert (a + b)[1..] == a[1..] + b;
      FlattenAppend(a[1..], b);
    }
  }

  lemma DropOne(all: seq<seq<int>>, m: nat)
    requires m < |all|
    ensures |Flatten(all[..m] + all[m + 1..])| <= |Flatten(all)|
  {
    hide Flatten;
    assert all == all[..m] + ([all[m]] + all[m + 1..]);
    FlattenAppend(all[..m], [all[m]] + all[m + 1..]);
    FlattenAppend([all[m]], all[m + 1..]);
    FlattenAppend(all[..m], all[m + 1..]);
  }

  /** Deleting the middle one of the outer `n` leaves the outer `n - 1`. */
  lemma OuterShrinks(docs: seq<seq<int>>, n: nat)
    requires 0 < n <= |docs|
    ensures Outer(docs, n)[..n / 2] + Outer(docs, n)[n / 2 + 1..] == Outer(docs, n - 1)
    ensures |Flatten(Outer(docs, n - 1))| <= |Flatten(Outer(docs, n))|
  {
    hide Flatten;
    var all, m := Outer(docs, n), n / 2;
    assert all[..m] + all[m + 1..] == Outer(docs, n - 1);
    DropOne(all, m);
  }

  lemma {:induction false} OuterFits(docs: seq<seq<int>>, m: nat, n: nat)
    requires m <= n <= |docs|
    ensures |Flatten(Outer(docs, m))| <= |Flatten(Outer(docs, n))|
  {
    if m < n {
      OuterShrinks(docs, n);
      OuterFits(docs, m, n - 1);
    }
  }

  lemma OuterAll(docs: seq<seq<int>>)
    ensures Outer(docs, |docs|) == docs
  {
  }

  ghost predicate Different(docs: seq<seq<int>>) {
    forall i, j | 0 <= i < j < |docs| :: docs[i] != docs[j]
  }

  /** Of different chunks, the outer ones are the first ones only if at most one is left, or all. */
  lemma OuterIsFirstIff(docs: seq<seq<int>>, n: nat)
    requires n <= |docs| && Different(docs)
    ensures Outer(docs, n) == docs[..n] <==> n <= 1 || n == |docs|
  {
    var outer, m := Outer(docs, n), (n + 1) / 2;
    if n == |docs| {
      OuterAll(docs);
    } else if n >= 2 {
      assert outer[m] == docs[|docs| - n / 2] && docs[..n][m] == docs[m];
      assert docs[m] != docs[|docs| - n / 2];
    } else {
      assert docs[|docs|..] == [];
    }
  }

  /** The comment on the loop (32) says that the last examples are dropped.  So it is, for different chunks, if and only if none
      has to be dropped, or all but one. */
  lemma LastDroppedIff(docs: seq<seq<int>>, maxLen: nat, kept: seq<seq<int>>)
    requires Different(docs) && |kept| <= |docs| && kept == Outer(docs, |kept|) && |Flatten(kept)| <= maxLen
    requires forall n | |kept| < n <= |docs| :: |Flatten(Outer(docs, n))| > maxLen
    ensures kept == docs[..|kept|] <==>
            |Flatten(docs)| <= maxLen || |docs| < 2 || |Flatten(Outer(docs, 2))| > maxLen
  {
    hide Outer, Different;
    OuterAll(docs);
    OuterIsFirstIff(docs, |kept|);
    if |docs| >= 2 && |kept| >= 2 {
      OuterFits(docs, 2, |kept|);
    }
  }

  /** For instance, of three chunks the second is dropped first. */
  lemma SecondOfThree(a: seq<int>, b: seq<int>, c: seq<int>)
    requires b != c
    ensures Outer([a, b, c], 2) == [a, c] != [a, b, c][..2]
  {
    assert [a, b, c][1] == b && [a, c][1] == c;
  }

  /** Dropping chunks while there are too many tokens (32-35).  What is kept is the longest outer part that fits: the chunk
      dropped is always the middle one, not the last. */
  method TrimChunks(docs: seq<seq<int>>, maxLen: nat) returns (kept: seq<seq<int>>)
    ensures |kept| <= |docs| && kept == Outer(docs, |kept|)
    ensures |Flatten(kept)| <= maxLen
    ensures forall n | |kept| < n <= |docs| :: |Flatten(Outer(docs, n))| > maxLen
  {
    hide Outer;
    kept := docs;
    OuterAll(docs);
    while |Flatten(kept)| > maxLen
      invariant |kept| <= |docs| && kept == Outer(docs, |kept|)
      invariant forall n | |kept| < n <= |docs| :: |Flatten(Outer(docs, n))| > maxLen
      decreases |kept|
    {
      var delIdx := |kept| / 2;
      OuterShrinks(docs, |kept|);
      kept := kept[..delIdx] + kept[delIdx + 1..];
    }
  }

  /** The chunks that are prefilled (50-61). */
  function Chunks(docs: seq<seq<int>>, q: seq<int>, startFull: seq<int>, start: seq<int>, end: seq<int>): (r: seq<seq<int>>)
    ensures |r| == |docs| + 2
    ensures forall i | 0 < i < |r| :: |start| <= |r[i]|
  {
    [startFull] + Started(docs, start) + [start + q + end]
  }

  function Started(docs: seq<seq<int>>, start: seq<int>): (r: seq<seq<int>>)
    ensures |r| == |docs| && forall i | 0 <= i < |r| :: r[i] == start + docs[i]
  {
    if docs == [] then [] else [start + docs[0]] + Started(docs[1..], start)
  }

  /** All parts but the first have `from` elements to cut off. */
  ghost predicate Long<T>(parts: seq<seq<T>>, from: nat) {
    forall i | 0 < i < |parts| :: from <= |parts[i]|
  }

  /** The first part whole, then each part without its first `from` elements. */
  ghost function Joined<T>(parts: seq<seq<T>>, from: nat): seq<T>
    requires Long(parts, from)
  {
    if parts == [] then []
    else if |parts| == 1 then parts[0]
    else Joined(parts[..|parts| - 1], from) + parts[|parts| - 1][from..]
  }

  lemma JoinedNext<T>(parts: seq<seq<T>>, part: seq<T>, from: nat)
    requires Long(parts, from) && (parts != [] ==> from <= |part|)
    ensures Long(parts + [part], from)
    ensures Joined(parts + [part], from) == if parts == [] then part else Joined(parts, from) + part[from..]
  {
    assert (parts + [part])[..|parts|] == parts;
  }

  /** Where an element of the joined parts comes from: which part, and which place in it. */
  ghost function Place(lengths: seq<nat>, from: nat, r: nat): (place: (nat, nat))
    requires Cuttable(lengths, from) && r < Length(lengths, from)
    ensures place.0 < |lengths| && place.1 < lengths[place.0] && (place.0 > 0 ==> from <= place.1)
  {
    var n := |lengths| - 1;
    if n == 0 then (0, r)
    else if Length(lengths[..n], from) <= r then (n, from + r - Length(lengths[..n], from))
    else Place(lengths[..n], from, r)
  }

  ghost predicate Cuttable(lengths: seq<nat>, from: nat) {
    forall i | 0 < i < |lengths| :: from <= lengths[i]
  }

  ghost function Length(lengths: seq<nat>, from: nat): nat
    requires Cuttable(lengths, from)
  {
    if lengths == [] then 0
    else if |lengths| == 1 then lengths[0]
    else Length(lengths[..|lengths| - 1], from) + lengths[|lengths| - 1] - from
  }

  function Lengths<T>(parts: seq<seq<T>>): (r: seq<nat>)
    ensures |r| == |parts| && forall i | 0 <= i < |r| :: r[i] == |parts[i]|
  {
    if parts == [] then [] else Lengths(parts[..|parts| - 1]) + [|parts[|parts| - 1]|]
  }

  lemma {:induction false} JoinedLength<T>(parts: seq<seq<T>>, from: nat)
    requires Cuttable(Lengths(parts), from)
    ensures Long(parts, from)
    ensures |Joined(parts, from)| == Length(Lengths(parts), from)
  {
    var lengths := Lengths(parts);
    assert forall i | 0 < i < |parts| :: from <= lengths[i];
    if |parts| > 1 {
      var front := parts[..|parts| - 1];
      assert Lengths(front) == lengths[..|parts| - 1];
      JoinedLength(front, from);
    }
  }

  lemma {:induction false} JoinedAt<T>(parts: seq<seq<T>>, from: nat, r: nat)
    requires Cuttable(Lengths(parts), from) && r < Length(Lengths(parts), from)
    ensures Long(parts, from)
    ensures r < |Joined(parts, from)|
    ensures var (c, p) := Place(Lengths(parts), from, r); Joined(parts, from)[r] == parts[c][p]
  {
    JoinedLength(parts, from);
    var lengths := Lengths(parts);
    if |parts| > 1 {
      var front := parts[..|parts| - 1];
      assert Lengths(front) == lengths[..|parts| - 1];
      JoinedLength(front, from);
      if r < Length(Lengths(front), from) {
        JoinedAt(front, from, r);
      }
    }
  }

  /** The rows of one layer, chunk by chunk. */
  function Column<Row>(caches: seq<seq<seq<Row>>>, layer: nat): (r: seq<seq<Row>>)
    requires forall i | 0 <= i < |caches| :: layer < |caches[i]|
    ensures |r| == |caches| && forall i | 0 <= i < |r| :: r[i] == caches[i][layer]
  {
    if caches == [] then []
    else Column(caches[..|caches| - 1], layer) + [caches[|caches| - 1][layer]]
  }

  /** What prefilling the chunks leaves in the layers: a row for the first token and one for each token of the chunk. */
  ghost predicate Prefilled<Row>(chunks: seq<seq<int>>, caches: seq<seq<seq<Row>>>, numLayers: nat) {
    && |caches| == |chunks|
    && forall i | 0 <= i < |chunks| ::
      |caches[i]| == numLayers && forall j | 0 <= j < numLayers :: |caches[i][j]| == |chunks[i]| + 1
  }

  /** The rows of layer `j` for the first `n` chunks. */
  ghost predicate LayerIs<Row>(rows: seq<Row>, caches: seq<seq<seq<Row>>>, n: nat, j: nat, from: nat)
    requires n <= |caches| && forall i | 0 <= i < |caches| :: j < |caches[i]|
  {
    Long(Column(caches[..n], j), from) && rows == Joined(Column(caches[..n], j), from)
  }

  lemma LayerStart<Row>(caches: seq<seq<seq<Row>>>, j: nat, from: nat)
    requires forall i | 0 <= i < |caches| :: j < |caches[i]|
    ensures LayerIs([], caches, 0, j, from)
  {
  }

  lemma LayerNext<Row>(rows: seq<Row>, caches: seq<seq<seq<Row>>>, n: nat, j: nat, from: nat)
    requires n < |caches| && forall i | 0 <= i < |caches| :: j < |caches[i]|
    requires LayerIs(rows, caches, n, j, from) && (n > 0 ==> from <= |caches[n][j]|)
    ensures LayerIs(if n == 0 then caches[0][j] else rows + caches[n][j][from..], caches, n + 1, j, from)
  {
    assert caches[..n + 1][..n] == caches[..n];
    JoinedNext(Column(caches[..n], j), caches[n][j], from);
  }

  /** The concatenation loop (67-91), for the keys or the values of all layers. */
  method JoinCaches<Row>(chunks: seq<seq<int>>, start: nat, caches: seq<seq<seq<Row>>>, numLayers: nat)
    returns (past: seq<seq<Row>>)
    requires chunks != [] && Prefilled(chunks, caches, numLayers) && Long(chunks, start)
    ensures |past| == numLayers
    ensures forall j | 0 <= j < numLayers :: LayerIs(past[j], caches, |caches|, j, start + 1)
  {
    hide LayerIs, Joined, Column;
    past := [];
    for i := 0 to |chunks|
      invariant |past| == if i == 0 then 0 else numLayers
      invariant forall j | 0 <= j < |past| :: LayerIs(past[j], caches, i, j, start + 1)
    {
      for j := 0 to numLayers
        invariant |past| == if i == 0 then j else numLayers
        invariant forall l | 0 <= l < j :: LayerIs(past[l], caches, i + 1, l, start + 1)
        invariant forall l | j <= l < |past| :: LayerIs(past[l], caches, i, l, start + 1)
      {
        var hackKv := caches[i][j];
        assert |hackKv| == |chunks[i]| + 1 && hackKv[..|hackKv|] == hackKv;
        if i == 0 {
          LayerStart(caches, j, start + 1);
          LayerNext([], caches, 0, j, start + 1);
          past := past + [hackKv[..|chunks[0]| + 1]];
        } else {
          LayerNext(past[j], caches, i, j, start + 1);
          past := past[j := past[j] + hackKv[start + 1..|chunks[i]| + 1]];
        }
      }
    }
  }

  /** `input_ids` (94-101). */
  method JoinTokens(chunks: seq<seq<int>>, start: nat) returns (inputIds: seq<int>)
    requires Long(chunks, start)
    ensures inputIds == Joined(chunks, start)
  {
    inputIds := [];
    for i := 0 to |chunks|
      invariant inputIds == Joined(chunks[..i], start)
    {
      assert chunks[..i + 1] == chunks[..i] + [chunks[i]];
      JoinedNext(chunks[..i], chunks[i], start);
      if i == 0 {
        inputIds := inputIds + chunks[i];
      } else {
        inputIds := inputIds + chunks[i][start..];
      }
    }
    assert chunks[..|chunks|] == chunks;
  }

  /** The tokens that are prefilled for each chunk. */
  ghost function WithBos(chunks: seq<seq<int>>): (r: seq<seq<int>>)
    ensures |r| == |chunks| && forall i | 0 <= i < |r| :: r[i] == [BOS] + chunks[i]
  {
    if chunks == [] then [] else WithBos(chunks[..|chunks| - 1]) + [[BOS] + chunks[|chunks| - 1]]
  }

  lemma {:induction false} BosOnce(chunks: seq<seq<int>>, start: nat)
    requires chunks != [] && Long(chunks, start)
    ensures Long(WithBos(chunks), start + 1) && [BOS] + Joined(chunks, start) == Joined(WithBos(chunks), start + 1)
  {
    var n := |chunks| - 1;
    var front, last := chunks[..n], chunks[n];
    assert chunks == front + [last];
    assert WithBos(chunks) == WithBos(front) + [[BOS] + last];
    JoinedNext(front, last, start);
    if n > 0 {
      BosOnce(front, start);
      BosNext(front, last, start);
    }
  }

  lemma BosNext(front: seq<seq<int>>, last: seq<int>, start: nat)
    requires front != [] && Long(front, start) && Long(WithBos(front), start + 1) && start <= |last|
    requires [BOS] + Joined(front, start) == Joined(WithBos(front), start + 1)
    ensures Long(WithBos(front) + [[BOS] + last], start + 1)
    ensures Joined(WithBos(front) + [[BOS] + last], start + 1) == [BOS] + (Joined(front, start) + last[start..])
  {
    hide Joined;
    JoinedNext(WithBos(front), [BOS] + last, start + 1);
    assert ([BOS] + last)[start + 1..] == last[start..];
  }

  /** The filler at the start of each chunk but the first drops out again. */
  lemma InputIs(docs: seq<seq<int>>, q: seq<int>, startFull: seq<int>, start: seq<int>, end: seq<int>)
    ensures Joined(Chunks(docs, q, startFull, start, end), |start|) == startFull + Flatten(docs) + q + end
  {
    hide Joined, Flatten;
    var last := start + q + end;
    StartedJoined(docs, startFull, start);
    JoinedNext([startFull] + Started(docs, start), last, |start|);
    assert last[|start|..] == q + end;
  }

  lemma {:induction false} StartedJoined(docs: seq<seq<int>>, startFull: seq<int>, start: seq<int>)
    ensures Joined([startFull] + Started(docs, start), |start|) == startFull + Flatten(docs)
  {
    hide Joined, Started;
    if docs == [] {
      JoinedNext([], startFull, |start|);
      assert [startFull] + Started(docs, start) == [] + [startFull];
    } else {
      var n := |docs| - 1;
      var front := [startFull] + Started(docs[..n], start);
      StartedJoined(docs[..n], startFull, start);
      FrontJoined(docs, startFull, start, front);
      FlattenAppend(docs[..n], [docs[n]]);
      assert docs == docs[..n] + [docs[n]];
    }
  }

  lemma StartedNext(docs: seq<seq<int>>, start: seq<int>)
    requires docs != []
    ensures Started(docs, start) == Started(docs[..|docs| - 1], start) + [start + docs[|docs| - 1]]
  {
    hide Started;
  }

  lemma FrontJoined(docs: seq<seq<int>>, startFull: seq<int>, start: seq<int>, front: seq<seq<int>>)
    requires docs != [] && front == [startFull] + Started(docs[..|docs| - 1], start)
    ensures Joined([startFull] + Started(docs, start), |start|) == Joined(front, |start|) + docs[|docs| - 1]
  {
    var last := docs[|docs| - 1];
    hide Joined, Started;
    JoinedNext(front, start + last, |start|);
    StartedNext(docs, start);
    assert [startFull] + (Started(docs[..|docs| - 1], start) + [start + last]) == front + [start + last];
    assert (start + last)[|start|..] == last;
  }

  /** Row `r` of a layer, whose chunks left `parts`, comes from the prefill of the very token that stands at `r` of the
      blended prompt.  The place does not depend on `parts`, so the keys and values of all layers go together. */
  ghost predicate FromPlace<Row>(chunks: seq<seq<int>>, start: nat, parts: seq<seq<Row>>, r: nat)
    requires Long(chunks, start) && Long(parts, start + 1)
  {
    var tokens, rows, inputIds := WithBos(chunks), Joined(parts, start + 1), Joined(chunks, start);
    && Cuttable(Lengths(tokens), start + 1) && r < Length(Lengths(tokens), start + 1)
    && r < |rows| && r <= |inputIds|
    && var (c, p) := Place(Lengths(tokens), start + 1, r);
    && c < |parts| && p < |parts[c]| && rows[r] == parts[c][p]
    && c < |tokens| && p < |tokens[c]| && ([BOS] + inputIds)[r] == tokens[c][p]
  }

  lemma RowsOfTokens<Row>(chunks: seq<seq<int>>, start: nat, parts: seq<seq<Row>>)
    requires chunks != [] && Long(chunks, start)
    requires |parts| == |chunks| && forall i | 0 <= i < |chunks| :: |parts[i]| == |chunks[i]| + 1
    ensures Long(parts, start + 1) && |Joined(parts, start + 1)| == |Joined(chunks, start)| + 1
    ensures forall r | 0 <= r <= |Joined(chunks, start)| :: FromPlace(chunks, start, parts, r)
  {
    hide Joined, Place, Length, Lengths, WithBos;
    var tokens := WithBos(chunks);
    assert Lengths(parts) == Lengths(tokens);
    BosOnce(chunks, start);
    JoinedLength(tokens, start + 1);
    JoinedLength(parts, start + 1);
    forall r | 0 <= r <= |Joined(chunks, start)| ensures FromPlace(chunks, start, parts, r) {
      JoinedAt(tokens, start + 1, r);
      JoinedAt(parts, start + 1, r);
    }
  }

  /** The whole of it: the rows of every layer are those of the tokens of the blended prompt, one for one, behind the single
      row of the first token, and the blended prompt has the kept chunks between prefix and question. */
  method Blend<Row>(docs: seq<seq<int>>, q: seq<int>, startFull: seq<int>, start: seq<int>, end: seq<int>,
      keys: seq<seq<seq<Row>>>, values: seq<seq<seq<Row>>>, numLayers: nat)
    returns (oldKeys: seq<seq<Row>>, oldValues: seq<seq<Row>>, inputIds: seq<int>)
    requires Prefilled(Chunks(docs, q, startFull, start, end), keys, numLayers)
    requires Prefilled(Chunks(docs, q, startFull, start, end), values, numLayers)
    ensures inputIds == startFull + Flatten(docs) + q + end
    ensures |oldKeys| == |oldValues| == numLayers
    ensures forall j | 0 <= j < numLayers ::
      BlendedLayer(Chunks(docs, q, startFull, start, end), |start|, Column(keys, j), oldKeys[j], inputIds)
    ensures forall j | 0 <= j < numLayers ::
      BlendedLayer(Chunks(docs, q, startFull, start, end), |start|, Column(values, j), oldValues[j], inputIds)
  {
    hide Joined, Flatten, Chunks, Column;
    var chunks := Chunks(docs, q, startFull, start, end);
    oldKeys := JoinCaches(chunks, |start|, keys, numLayers);
    oldValues := JoinCaches(chunks, |start|, values, numLayers);
    inputIds := JoinTokens(chunks, |start|);
    InputIs(docs, q, startFull, start, end);
    forall j | 0 <= j < numLayers ensures BlendedLayer(chunks, |start|, Column(keys, j), oldKeys[j], inputIds) {
      LayerBlended(chunks, |start|, keys, numLayers, j, oldKeys[j], inputIds);
    }
    forall j | 0 <= j < numLayers ensures BlendedLayer(chunks, |start|, Column(values, j), oldValues[j], inputIds) {
      LayerBlended(chunks, |start|, values, numLayers, j, oldValues[j], inputIds);
    }
  }

  /** From the retrieved examples to the blended prompt; `prefill` is what the model leaves behind for a list of chunks. */
  method TrimAndBlend<Row>(docs: seq<seq<int>>, maxLen: nat, q: seq<int>, startFull: seq<int>, start: seq<int>, end: seq<int>,
      prefill: seq<seq<int>> -> (seq<seq<seq<Row>>>, seq<seq<seq<Row>>>), numLayers: nat)
    returns (kept: seq<seq<int>>, oldKeys: seq<seq<Row>>, oldValues: seq<seq<Row>>, inputIds: seq<int>)
    requires forall chunks :: Prefilled(chunks, prefill(chunks).0, numLayers) && Prefilled(chunks, prefill(chunks).1, numLayers)
    ensures |kept| <= |docs| && kept == Outer(docs, |kept|) && |Flatten(kept)| <= maxLen
    ensures forall n | |kept| < n <= |docs| :: |Flatten(Outer(docs, n))| > maxLen
    ensures inputIds == startFull + Flatten(kept) + q + end && |inputIds| <= |startFull| + maxLen + |q| + |end|
    ensures |oldKeys| == |oldValues| == numLayers
    ensures var chunks := Chunks(kept, q, startFull, start, end);
      && Prefilled(chunks, prefill(chunks).0, numLayers) && Prefilled(chunks, prefill(chunks).1, numLayers)
      && forall j | 0 <= j < numLayers ::
        && BlendedLayer(chunks, |start|, Column(prefill(chunks).0, j), oldKeys[j], inputIds)
        && BlendedLayer(chunks, |start|, Column(prefill(chunks).1, j), oldValues[j], inputIds)
  {
    hide Flatten, Outer, Chunks, Column, BlendedLayer, Prefilled;
    kept := TrimChunks(docs, maxLen);
    var caches := prefill(Chunks(kept, q, startFull, start, end));
    oldKeys, oldValues, inputIds := Blend(kept, q, startFull, start, end, caches.0, caches.1, numLayers);
  }

  ghost predicate BlendedLayer<Row>(chunks: seq<seq<int>>, start: nat, parts: seq<seq<Row>>, rows: seq<Row>,
    inputIds: seq<int>)
  {
    && Long(chunks, start) && Long(parts, start + 1) && inputIds == Joined(chunks, start)
    && rows == Joined(parts, start + 1) && |rows| == |inputIds| + 1
    && forall r | 0 <= r <= |inputIds| :: FromPlace(chunks, start, parts, r)
  }

  lemma LayerBlended<Row>(chunks: seq<seq<int>>, start: nat, caches: seq<seq<seq<Row>>>, numLayers: nat, j: nat,
      rows: seq<Row>, inputIds: seq<int>)
    requires chunks != [] && Long(chunks, start) && Prefilled(chunks, caches, numLayers) && j < numLayers
    requires LayerIs(rows, caches, |caches|, j, start + 1) && inputIds == Joined(chunks, start)
    ensures BlendedLayer(chunks, start, Column(caches, j), rows, inputIds)
  {
    hide Joined, Column;
    assert caches[..|caches|] == caches;
    RowsOfTokens(chunks, start, Column(caches, j));
  }
}

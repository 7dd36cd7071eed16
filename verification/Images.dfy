/** Requests over the image limit: the oldest images are replaced by a text label, in chunks
    of half the limit. */
module Images {
  import opened Messages
  import opened Views

  function DroppedLabel(block: Block): string {
    if !block.AssetBlock? then "[image dropped from view]"
    else
      var key := if block.publicId.Some? && block.publicId.value != "" then block.publicId.value else block.storageKey;
      "[image id=" + key + "] dropped from view; recall_image(\"" + key + "\") shows it again"
  }

  /** The label of a stored image begins with the id that shows it again. */
  lemma LabelNamesImage(key: string, mime: string, publicId: Option<string>)
    ensures var id := match publicId
                      case Some(given) => if given == "" then key else given
                      case None => key;
      "[image id=" + id + "]" <= DroppedLabel(AssetBlock(key, mime, publicId))
  {
  }

  function Min(a: nat, b: nat): nat {
    if a < b then a else b
  }

  function ImagesIn(blocks: seq<Block>): nat {
    if blocks == [] then 0
    else ImagesIn(blocks[..|blocks| - 1]) + if IsImage(blocks[|blocks| - 1]) then 1 else 0
  }

  function BlocksOf(message: Message): seq<Block> {
    if message.content.Blocks? then message.content.blocks else []
  }

  function CountImages(messages: seq<Message>): nat {
    if messages == [] then 0
    else CountImages(messages[..|messages| - 1]) + ImagesIn(BlocksOf(messages[|messages| - 1]))
  }

  function Chunk(limit: int): (chunk: int)
    ensures chunk >= 1
  {
    if limit / 2 > 1 then limit / 2 else 1
  }

  function CeilDiv(a: int, b: int): int
    requires b > 0
  {
    -((-a) / b)
  }

  /** How many of `count` images are given up: whole chunks, enough to meet the limit. */
  function Drops(count: nat, limit: int): (drop: nat)
  {
    var drop := CeilDiv(count - limit, Chunk(limit)) * Chunk(limit);
    if drop < 0 then 0 else drop
  }

  function DropCount(messages: seq<Message>, limit: int): nat {
    Drops(CountImages(messages), limit)
  }

  /** `to` is `from` with exactly its first `drop` images turned into labels: every other
      block, and the rest of every message, as it was. */
  ghost predicate DropsOldest(from: seq<Message>, to: seq<Message>, drop: nat) {
    && |to| == |from|
    && forall i :: 0 <= i < |from| ==> DropsAt(from, to, i, drop)
  }

  ghost predicate DropsAt(from: seq<Message>, to: seq<Message>, i: nat, drop: nat)
    requires i < |from| == |to|
  {
    DropsFrom(from[i], to[i], CountImages(from[..i]), drop)
  }

  ghost predicate DropsFrom(from: Message, to: Message, before: nat, drop: nat) {
    if !from.content.Blocks? then to == from
    else
      && to.content.Blocks?
      && to == from.(content := to.content)
      && LabelsOldest(from.content.blocks, to.content.blocks, before, drop)
  }

  ghost predicate LabelsOldest(from: seq<Block>, to: seq<Block>, before: nat, drop: nat) {
    && |to| == |from|
    && forall j :: 0 <= j < |from| ==> LabelsAt(from, to, j, before, drop)
  }

  ghost predicate LabelsAt(from: seq<Block>, to: seq<Block>, j: nat, before: nat, drop: nat)
    requires j < |from| && j < |to|
  {
    to[j] == if IsImage(from[j]) && before + ImagesIn(from[..j]) < drop then TextBlock(DroppedLabel(from[j]))
        else from[j]
  }

  lemma {:induction false} NoneMeansNoImage(blocks: seq<Block>, j: nat)
    requires j < |blocks| && IsImage(blocks[j])
    ensures ImagesIn(blocks[..j]) < ImagesIn(blocks)
  {
    var n := |blocks| - 1;
    if j < n {
      assert blocks[..n][..j] == blocks[..j];
      NoneMeansNoImage(blocks[..n], j);
    }
  }

  lemma {:induction false} CountPrefix(messages: seq<Message>, i: nat)
    requires i <= |messages|
    ensures CountImages(messages[..i]) <= CountImages(messages)
  {
    if i < |messages| {
      assert messages[..|messages| - 1][..i] == messages[..i];
      CountPrefix(messages[..|messages| - 1], i);
    } else {
      assert messages[..i] == messages;
    }
  }

  lemma {:induction false} CountAppend(a: seq<Message>, b: seq<Message>)
    ensures CountImages(a + b) == CountImages(a) + CountImages(b)
  {
    if b == [] {
      assert a + b == a;
    } else {
      assert (a + b)[..|a + b| - 1] == a + b[..|b| - 1];
      CountAppend(a, b[..|b| - 1]);
    }
  }

  /** How many of `total` are still to be dropped once `before` images were passed. */
  function Left(before: nat, total: nat): nat {
    if before < total then total - before else 0
  }

  lemma Untouched(message: Message, before: nat, drop: nat)
    requires before >= drop || ImagesIn(BlocksOf(message)) == 0
    ensures DropsFrom(message, message, before, drop)
  {
    forall j | message.content.Blocks? && 0 <= j < |message.content.blocks|
      ensures LabelsAt(message.content.blocks, message.content.blocks, j, before, drop)
    {
      if IsImage(message.content.blocks[j]) {
        NoneMeansNoImage(message.content.blocks, j);
      }
    }
  }

  method DropFromBlocks(content: seq<Block>, ghost before: nat, drop: nat, ghost total: nat)
    returns (blocks: seq<Block>, left: nat)
    requires drop == Left(before, total)
    ensures LabelsOldest(content, blocks, before, total)
    ensures left == Left(before + ImagesIn(content), total)
  {
    blocks, left := [], drop;
    for j := 0 to |content|
      invariant |blocks| == j
      invariant left == Left(before + ImagesIn(content[..j]), total)
      invariant forall k :: 0 <= k < j ==> LabelsAt(content, blocks, k, before, total)
    {
      assert content[..j + 1][..j] == content[..j];
      var block := content[j];
      ghost var labelled := blocks;
      if left > 0 && IsImage(block) {
        left := left - 1;
        blocks := blocks + [TextBlock(DroppedLabel(block))];
      } else {
        blocks := blocks + [block];
      }
      forall k | 0 <= k < j ensures LabelsAt(content, blocks, k, before, total) {
        assert LabelsAt(content, labelled, k, before, total);
      }
    }
    assert content[..|content|] == content;
  }

  method DropFromMessage(from: Message, ghost before: nat, drop: nat, ghost total: nat)
    returns (message: Message, left: nat)
    requires drop == Left(before, total)
    ensures DropsFrom(from, message, before, total)
    ensures left == Left(before + ImagesIn(BlocksOf(from)), total)
  {
    message, left := from, drop;
    if drop > 0 && from.content.Blocks? && ImagesIn(from.content.blocks) > 0 {
      var blocks, rest := DropFromBlocks(from.content.blocks, before, drop, total);
      message, left := from.(content := Blocks(blocks)), rest;
    } else {
      Untouched(from, before, total);
    }
  }

  method DropOldestImages(messages: seq<Message>, limit: int) returns (dropped: seq<Message>)
    ensures DropsOldest(messages, dropped, DropCount(messages, limit))
  {
    var drop := DropCount(messages, limit);
    ghost var total: nat := drop;
    if drop == 0 {
      NothingToDrop(messages);
      return messages;
    }
    dropped := [];
    for i := 0 to |messages|
      invariant |dropped| == i
      invariant drop == Left(CountImages(messages[..i]), total)
      invariant DropsOldest(messages[..i], dropped, total)
    {
      assert messages[..i + 1][..i] == messages[..i];
      var message, left := DropFromMessage(messages[i], CountImages(messages[..i]), drop, total);
      OneMoreDropped(messages[..i], dropped, messages[i], message, total);
      assert messages[..i + 1] == messages[..i] + [messages[i]];
      drop := left;
      dropped := dropped + [message];
    }
    assert messages[..|messages|] == messages;
  }

  lemma OneMoreDropped(from: seq<Message>, to: seq<Message>, f: Message, t: Message, drop: nat)
    requires DropsOldest(from, to, drop) && DropsFrom(f, t, CountImages(from), drop)
    ensures DropsOldest(from + [f], to + [t], drop)
  {
    assert (from + [f])[..|from|] == from;
    forall i | 0 <= i < |from| ensures DropsAt(from + [f], to + [t], i, drop) {
      assert (from + [f])[..i] == from[..i];
      assert DropsAt(from, to, i, drop);
    }
  }

  lemma NothingToDrop(messages: seq<Message>)
    ensures DropsOldest(messages, messages, 0)
  {
    forall i | 0 <= i < |messages| ensures DropsAt(messages, messages, i, 0) {
      Untouched(messages[i], CountImages(messages[..i]), 0);
    }
  }

  // ---------- What is left ----------

  lemma {:induction false} LabelledCount(from: seq<Block>, to: seq<Block>, before: nat, drop: nat)
    requires LabelsOldest(from, to, before, drop)
    ensures ImagesIn(to) == ImagesIn(from) - Min(ImagesIn(from), Left(before, drop))
  {
    if from != [] {
      var n := |from| - 1;
      forall j | 0 <= j < n ensures LabelsAt(from[..n], to[..n], j, before, drop) {
        assert from[..n][..j] == from[..j];
        assert LabelsAt(from, to, j, before, drop);
      }
      assert LabelsAt(from, to, n, before, drop);
      LabelledCount(from[..n], to[..n], before, drop);
    }
  }

  lemma {:induction false} CountLeft(from: seq<Message>, to: seq<Message>, drop: nat)
    requires DropsOldest(from, to, drop)
    ensures CountImages(to) == CountImages(from) - Min(CountImages(from), drop)
  {
    if from != [] {
      var n := |from| - 1;
      forall i | 0 <= i < n ensures DropsAt(from[..n], to[..n], i, drop) {
        assert from[..n][..i] == from[..i];
        assert DropsAt(from, to, i, drop);
      }
      CountLeft(from[..n], to[..n], drop);
      assert DropsAt(from, to, n, drop);
      if from[n].content.Blocks? {
        LabelledCount(from[n].content.blocks, to[n].content.blocks, CountImages(from[..n]), drop);
      }
    }
  }

  /** Once as many images are dropped as there are, none is left of any kind: inline, by address or
      stored. */
  lemma OnlyLabelsLeft(messages: seq<Message>, dropped: seq<Message>, drop: nat, i: nat, j: nat)
    requires DropsOldest(messages, dropped, drop) && drop >= CountImages(messages)
    requires i < |dropped| && dropped[i].content.Blocks? && j < |dropped[i].content.blocks|
    ensures match dropped[i].content.blocks[j]
            case TextBlock(_) => true
            case AssetBlock(_, mime, _) => !("image/" <= mime)
            case _ => false
  {
    assert DropsAt(messages, dropped, i, drop);
    var blocks := messages[i].content.blocks;
    assert LabelsAt(blocks, dropped[i].content.blocks, j, CountImages(messages[..i]), drop);
    if IsImage(blocks[j]) {
      NoneMeansNoImage(blocks, j);
      CountPrefix(messages, i + 1);
      assert messages[..i + 1][..i] == messages[..i];
    }
  }

  lemma CeilBounds(a: int, b: int)
    requires b > 0
    ensures a <= CeilDiv(a, b) * b < a + b
  {
    var q, r := (-a) / b, (-a) % b;
    assert -a == q * b + r;
    assert CeilDiv(a, b) * b == -(q * b) by {
      assert CeilDiv(a, b) == -q;
    }
  }

  lemma MulLess(p: int, q: int, b: int)
    requires b > 0 && p * b < q * b
    ensures p < q
  {
  }

  /** The fewest whole chunks that meet the limit. */
  lemma DropsBounds(count: nat, limit: int)
    ensures count <= limit ==> Drops(count, limit) == 0
    ensures count > limit ==> count - limit <= Drops(count, limit) < count - limit + Chunk(limit)
    ensures exists k: nat :: Drops(count, limit) == k * Chunk(limit)
  {
    var b := Chunk(limit);
    var q := CeilDiv(count - limit, b);
    CeilBounds(count - limit, b);
    if count <= limit {
      MulLess(q, 1, b);
    }
    if q >= 0 {
      var k: nat := q;
      assert Drops(count, limit) == k * b;
    } else {
      assert Drops(count, limit) == 0 * b;
    }
  }

  lemma DropsLeast(count: nat, limit: int, k: nat)
    requires count - limit <= k * Chunk(limit)
    ensures Drops(count, limit) <= k * Chunk(limit)
  {
    var b := Chunk(limit);
    var q := CeilDiv(count - limit, b);
    CeilBounds(count - limit, b);
    MulLess(q, k + 1, b);
  }

  lemma DropsMonotone(a: nat, b: nat, limit: int)
    requires a <= b
    ensures Drops(a, limit) <= Drops(b, limit)
    ensures Drops(a, limit) == Drops(b, limit) <==> b <= limit || b - Drops(a, limit) <= limit
  {
    DropsBounds(a, limit);
    DropsBounds(b, limit);
    var k: nat :| Drops(b, limit) == k * Chunk(limit);
    DropsLeast(a, limit, k);
    var j: nat :| Drops(a, limit) == j * Chunk(limit);
    if b - limit <= Drops(a, limit) {
      DropsLeast(b, limit, j);
    }
  }

  /** A request that drops images keeps at most `limit`, and no fewer than a chunk below it; and it
      drops them in chunks of half the limit. */
  lemma LimitHeld(messages: seq<Message>, dropped: seq<Message>, limit: int)
    requires limit >= 1
    requires DropsOldest(messages, dropped, DropCount(messages, limit))
    ensures CountImages(dropped) <= limit
    ensures CountImages(messages) > limit ==> CountImages(dropped) >= limit - Chunk(limit) + 1
    ensures CountImages(messages) <= limit ==> dropped == messages
    ensures var chunk := if limit >= 2 then limit / 2 else 1;
      exists k: nat :: CountImages(messages) - CountImages(dropped) == k * chunk
  {
    DropsBounds(CountImages(messages), limit);
    var k: nat :| Drops(CountImages(messages), limit) == k * Chunk(limit);
    assert Chunk(limit) == if limit >= 2 then limit / 2 else 1;
    CountLeft(messages, dropped, DropCount(messages, limit));
    if CountImages(messages) <= limit {
      NothingToDrop(messages);
      OneOutcome(messages, dropped, messages, 0);
    }
  }

  lemma SameDrop(from: Message, a: Message, b: Message, before: nat, drop: nat)
    requires DropsFrom(from, a, before, drop) && DropsFrom(from, b, before, drop)
    ensures a == b
  {
    if from.content.Blocks? {
      var blocks := from.content.blocks;
      forall j | 0 <= j < |blocks| ensures a.content.blocks[j] == b.content.blocks[j] {
        assert LabelsAt(blocks, a.content.blocks, j, before, drop)
            && LabelsAt(blocks, b.content.blocks, j, before, drop);
      }
      assert a.content.blocks == b.content.blocks;
    }
  }

  lemma EarlierPart(messages: seq<Message>, more: seq<Message>, later: seq<Message>, drop: nat)
    requires DropsOldest(messages + more, later, drop)
    ensures DropsOldest(messages, later[..|messages|], drop)
  {
    forall i | 0 <= i < |messages| ensures DropsAt(messages, later[..|messages|], i, drop) {
      assert (messages + more)[..i] == messages[..i];
      assert DropsAt(messages + more, later, i, drop);
    }
  }

  lemma OneOutcome(messages: seq<Message>, a: seq<Message>, b: seq<Message>, drop: nat)
    requires DropsOldest(messages, a, drop) && DropsOldest(messages, b, drop)
    ensures a == b
  {
    forall i | 0 <= i < |messages| ensures a[i] == b[i] {
      assert DropsAt(messages, a, i, drop) && DropsAt(messages, b, i, drop);
      SameDrop(messages[i], a[i], b[i], CountImages(messages[..i]), drop);
    }
  }

  /** Messages that arrive later only add to what is dropped: exactly when the images still
      kept and the new ones pass the limit. */
  lemma NextChunk(messages: seq<Message>, more: seq<Message>, limit: int, first: seq<Message>)
    requires limit >= 1 && DropsOldest(messages, first, DropCount(messages, limit))
    ensures DropCount(messages, limit) <= DropCount(messages + more, limit)
    ensures DropCount(messages, limit) == DropCount(messages + more, limit)
        <==> CountImages(first) + CountImages(more) <= limit
  {
    CountAppend(messages, more);
    DropsMonotone(CountImages(messages), CountImages(messages + more), limit);
    DropsBounds(CountImages(messages), limit);
    CountLeft(messages, first, DropCount(messages, limit));
  }

  /** Until another chunk is needed, the earlier part of the request is sent as before; then
      it drops a longer run of its oldest images. */
  lemma EarlierPartIsStable(messages: seq<Message>, more: seq<Message>, limit: int, first: seq<Message>,
        later: seq<Message>)
    requires limit >= 1
    requires DropsOldest(messages, first, DropCount(messages, limit))
    requires DropsOldest(messages + more, later, DropCount(messages + more, limit))
    ensures DropsOldest(messages, later[..|messages|], DropCount(messages + more, limit))
    ensures CountImages(first) + CountImages(more) <= limit ==> later[..|messages|] == first
  {
    NextChunk(messages, more, limit, first);
    EarlierPart(messages, more, later, DropCount(messages + more, limit));
    if CountImages(first) + CountImages(more) <= limit {
      OneOutcome(messages, first, later[..|messages|], DropCount(messages, limit));
    }
  }
}

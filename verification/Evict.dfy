/** The cap on images in a request (internal/convert/evict.go): all but the last few become a line of text. */
module Evict {
  import opened Wrappers
  import opened Sequences
  import opened Chat
  import Convert
  import CI = ConvertImages
  import ConvertLaws

  const PLACEHOLDER: string := "[Media removed from earlier context to reduce request size]"

  /** Where an image is: message, block, and element of a tool result (-1: the block itself). */
  datatype ImageRef = ImageRef(part: Part, message: nat, block: nat, entry: int)

  /** Any block with a base64 image source counts, whatever its type. */
  predicate IsImageDocument(b: Block)
  {
    b.source.Some? && b.source.value.typ == "base64" && b.source.value.data != ""
        && IsImageMime(MediaType(b.source.value))
  }

  function EntryRef(e: Entry, mi: nat, bi: nat, ei: nat): seq<ImageRef>
  {
    if e.Object? && ImagePartOf(e.source, e.detail).Some? then
        [ImageRef(ImagePartOf(e.source, e.detail).value, mi, bi, ei)] else []
  }

  /** The references of the elements from ei on. */
  function EntryRefs(es: seq<Entry>, mi: nat, bi: nat, ei: nat): seq<ImageRef>
    requires ei <= |es|
    decreases |es| - ei
  {
    if ei == |es| then [] else EntryRef(es[ei], mi, bi, ei) + EntryRefs(es, mi, bi, ei + 1)
  }

  function BlockRefs(b: Block, mi: nat, bi: nat): seq<ImageRef>
  {
    if b.typ == "image" then
      var part := ImagePartOf(b.source, b.detail);
      if part.Some? then [ImageRef(part.value, mi, bi, -1)] else []
    else if IsImageDocument(b) then
      [ImageRef(ImagePart(DataURL(MediaType(b.source.value), b.source.value.data), ""), mi, bi, -1)]
    else if IsToolResult(b.typ) && b.content.Entries? then EntryRefs(b.content.entries, mi, bi, 0)
    else []
  }

  /** The references of the blocks from bi on. */
  function BlocksRefs(bs: seq<Block>, mi: nat, bi: nat): seq<ImageRef>
    requires bi <= |bs|
    decreases |bs| - bi
  {
    if bi == |bs| then [] else BlockRefs(bs[bi], mi, bi) + BlocksRefs(bs, mi, bi + 1)
  }

  function MessageRefs(m: Message, mi: nat): seq<ImageRef>
  {
    if m.content.Blocks? then BlocksRefs(m.content.blocks, mi, 0) else []
  }

  /** The references of the messages from mi on, in document order. */
  function Refs(ms: seq<Message>, mi: nat): seq<ImageRef>
    requires mi <= |ms|
    decreases |ms| - mi
  {
    if mi == |ms| then [] else MessageRefs(ms[mi], mi) + Refs(ms, mi + 1)
  }

  // ---- replacing one image ----

  /** The serialization of a text element is never looked at. */
  function TextEntry(text: string): Entry
  {
    Object("text", text, None, "", "")
  }

  function ReplacedBlock(b: Block, entry: int, text: string): Block
  {
    if entry < 0 then TextBlockOf(text)
    else if b.content.Entries? && entry < |b.content.entries| && b.content.entries[entry].Object? then
      b.(content := Entries(b.content.entries[entry := TextEntry(text)]))
    else b
  }

  /** The messages with the image at the reference replaced; no change when nothing is there. */
  function Replaced(ms: seq<Message>, r: ImageRef, text: string): (ms': seq<Message>)
    ensures |ms'| == |ms|
    ensures forall i :: 0 <= i < |ms| && i != r.message ==> ms'[i] == ms[i]
  {
    if r.message < |ms| && ms[r.message].content.Blocks? && r.block < |ms[r.message].content.blocks| then
      var m := ms[r.message];
      ms[r.message := m.(content := Blocks(m.content.blocks[r.block := ReplacedBlock(m.content.blocks[r.block], r.entry,
            text)]))]
    else ms
  }

  method EnumerateImageRefs(messages: array<Message>) returns (refs: seq<ImageRef>)
    ensures refs == Refs(messages[..], 0)
  {
    hide MessageRefs;
    refs := [];
    var mi := 0;
    assert [] + Refs(messages[..], 0) == Refs(messages[..], 0);
    while mi < messages.Length
      invariant 0 <= mi <= messages.Length
      invariant refs + Refs(messages[..], mi) == Refs(messages[..], 0)
    {
      var found := EnumerateBlocks(messages[mi], mi);
      assert refs + (found + Refs(messages[..], mi + 1)) == refs + found + Refs(messages[..], mi + 1);
      refs := refs + found;
      mi := mi + 1;
    }
    assert refs + [] == refs;
  }

  method EnumerateBlocks(message: Message, mi: nat) returns (refs: seq<ImageRef>)
    ensures refs == MessageRefs(message, mi)
  {
    hide ImagePartOf, IsImageDocument, DataURL, MediaType, EntryRefs;
    refs := [];
    if !message.content.Blocks? {
      return;
    }
    var blocks := message.content.blocks;
    var bi := 0;
    assert [] + BlocksRefs(blocks, mi, 0) == BlocksRefs(blocks, mi, 0);
    while bi < |blocks|
      invariant 0 <= bi <= |blocks|
      invariant refs + BlocksRefs(blocks, mi, bi) == BlocksRefs(blocks, mi, 0)
    {
      var found := EnumerateBlock(blocks[bi], mi, bi);
      assert refs + (found + BlocksRefs(blocks, mi, bi + 1)) == refs + found + BlocksRefs(blocks, mi, bi + 1);
      refs := refs + found;
      bi := bi + 1;
    }
    assert refs + [] == refs;
  }

  method EnumerateBlock(block: Block, mi: nat, bi: nat) returns (refs: seq<ImageRef>)
    ensures refs == BlockRefs(block, mi, bi)
  {
    hide ImagePartOf, DataURL, MediaType;
    refs := [];
    if block.typ == "image" {
      var part := ImagePartOf(block.source, block.detail);
      if part.Some? {
        refs := [ImageRef(part.value, mi, bi, -1)];
      }
    } else if IsImageDocument(block) {
      refs := [ImageRef(ImagePart(DataURL(MediaType(block.source.value), block.source.value.data), ""), mi, bi, -1)];
    } else if IsToolResult(block.typ) && block.content.Entries? {
      var entries := block.content.entries;
      var ei := 0;
      assert [] + EntryRefs(entries, mi, bi, 0) == EntryRefs(entries, mi, bi, 0);
      while ei < |entries|
        invariant 0 <= ei <= |entries|
        invariant refs + EntryRefs(entries, mi, bi, ei) == EntryRefs(entries, mi, bi, 0)
      {
        var found := EntryRef(entries[ei], mi, bi, ei);
        assert refs + (found + EntryRefs(entries, mi, bi, ei + 1)) == refs + found + EntryRefs(entries, mi, bi, ei + 1);
        refs := refs + found;
        ei := ei + 1;
      }
      assert refs + [] == refs;
    }
  }

  method ReplaceImageRef(messages: array<Message>, ref: ImageRef, text: string)
    modifies messages
    ensures messages[..] == Replaced(old(messages[..]), ref, text)
  {
    if ref.message >= messages.Length {
      return;
    }
    var m := messages[ref.message];
    if !m.content.Blocks? || ref.block >= |m.content.blocks| {
      return;
    }
    var blocks := m.content.blocks;
    var block := blocks[ref.block];
    if ref.entry < 0 {
      messages[ref.message] := m.(content := Blocks(blocks[ref.block := TextBlockOf(text)]));
      return;
    }
    assert blocks[ref.block := block] == blocks && messages[..][ref.message := m] == messages[..];
    if !block.content.Entries? || ref.entry >= |block.content.entries| || !block.content.entries[ref.entry].Object? {
      return;
    }
    var entries := block.content.entries[ref.entry := TextEntry(text)];
    messages[ref.message] := m.(content := Blocks(blocks[ref.block := block.(content := Entries(entries))]));
  }

  // ---- replacing the first image leaves the others ----

  lemma {:induction false} EntriesFirst(es: seq<Entry>, mi: nat, bi: nat, ei: nat, text: string)
    requires ei <= |es| && EntryRefs(es, mi, bi, ei) != []
    ensures var r := EntryRefs(es, mi, bi, ei)[0];
            && r.message == mi && r.block == bi && ei <= r.entry < |es| && es[r.entry].Object?
            && EntryRefs(es[r.entry := TextEntry(text)], mi, bi, ei) == EntryRefs(es, mi, bi, ei)[1..]
    decreases |es| - ei
  {
    hide ImagePartOf;
    TextEntryNoImage(text);
    if EntryRef(es[ei], mi, bi, ei) == [] {
      EntriesFirst(es, mi, bi, ei + 1, text);
      assert [] + EntryRefs(es, mi, bi, ei + 1) == EntryRefs(es, mi, bi, ei + 1);
      var r := EntryRefs(es, mi, bi, ei)[0];
      assert [] + EntryRefs(es[r.entry := TextEntry(text)], mi, bi, ei + 1) == EntryRefs(es[r.entry := TextEntry(text)],
            mi, bi, ei + 1);
    } else {
      var es' := es[ei := TextEntry(text)];
      EntriesSame(es, es', mi, bi, ei + 1);
      assert [] + EntryRefs(es', mi, bi, ei + 1) == EntryRefs(es', mi, bi, ei + 1);
    }
  }

  lemma TextEntryNoImage(text: string)
    ensures forall mi, bi, ei :: EntryRef(TextEntry(text), mi, bi, ei) == []
  {
  }

  lemma {:induction false} EntriesSame(es: seq<Entry>, es': seq<Entry>, mi: nat, bi: nat, ei: nat)
    requires |es'| == |es| && ei <= |es| && forall k :: ei <= k < |es| ==> es'[k] == es[k]
    ensures EntryRefs(es', mi, bi, ei) == EntryRefs(es, mi, bi, ei)
    decreases |es| - ei
  {
    hide EntryRef;
    if ei < |es| { EntriesSame(es, es', mi, bi, ei + 1); }
  }

  /** A reference leads into the block it was found in. */
  ghost predicate PointsInto(r: ImageRef, b: Block)
  {
    r.entry >= 0 ==> b.content.Entries? && r.entry < |b.content.entries| && b.content.entries[r.entry].Object?
  }

  lemma BlockFirst(b: Block, mi: nat, bi: nat, text: string)
    requires BlockRefs(b, mi, bi) != []
    ensures var r := BlockRefs(b, mi, bi)[0];
            && r.message == mi && r.block == bi && -1 <= r.entry && PointsInto(r, b)
            && BlockRefs(ReplacedBlock(b, r.entry, text), mi, bi) == BlockRefs(b, mi, bi)[1..]
  {
    hide ImagePartOf, IsImageMime, DataURL, MediaType, EntryRefs;
    if b.typ != "image" && !IsImageDocument(b) {
      EntriesFirst(b.content.entries, mi, bi, 0, text);
    }
  }

  lemma {:induction false} BlocksSame(bs: seq<Block>, bs': seq<Block>, mi: nat, bi: nat)
    requires |bs'| == |bs| && bi <= |bs| && forall k :: bi <= k < |bs| ==> bs'[k] == bs[k]
    ensures BlocksRefs(bs', mi, bi) == BlocksRefs(bs, mi, bi)
    decreases |bs| - bi
  {
    hide BlockRefs;
    if bi < |bs| { BlocksSame(bs, bs', mi, bi + 1); }
  }

  lemma {:induction false} BlocksFirst(bs: seq<Block>, mi: nat, bi: nat, text: string)
    requires bi <= |bs| && BlocksRefs(bs, mi, bi) != []
    ensures var r := BlocksRefs(bs, mi, bi)[0];
            && r.message == mi && bi <= r.block < |bs| && -1 <= r.entry && PointsInto(r, bs[r.block])
            && BlocksRefs(bs[r.block := ReplacedBlock(bs[r.block], r.entry, text)], mi, bi)
               == BlocksRefs(bs, mi, bi)[1..]
    decreases |bs| - bi
  {
    hide BlockRefs, ReplacedBlock, PointsInto;
    var r := BlocksRefs(bs, mi, bi)[0];
    if BlockRefs(bs[bi], mi, bi) == [] {
      assert [] + BlocksRefs(bs, mi, bi + 1) == BlocksRefs(bs, mi, bi + 1);
      BlocksFirst(bs, mi, bi + 1, text);
      var bs' := bs[r.block := ReplacedBlock(bs[r.block], r.entry, text)];
      assert [] + BlocksRefs(bs', mi, bi + 1) == BlocksRefs(bs', mi, bi + 1);
    } else {
      BlockFirst(bs[bi], mi, bi, text);
      var bs' := bs[bi := ReplacedBlock(bs[bi], r.entry, text)];
      BlocksSame(bs, bs', mi, bi + 1);
    }
  }

  lemma {:induction false} MessagesSame(ms: seq<Message>, ms': seq<Message>, mi: nat)
    requires |ms'| == |ms| && mi <= |ms| && forall k :: mi <= k < |ms| ==> ms'[k] == ms[k]
    ensures Refs(ms', mi) == Refs(ms, mi)
    decreases |ms| - mi
  {
    hide MessageRefs;
    if mi < |ms| { MessagesSame(ms, ms', mi + 1); }
  }

  /** A reference leads to an image of the messages. */
  ghost predicate Valid(r: ImageRef, ms: seq<Message>)
  {
    && r.message < |ms| && ms[r.message].content.Blocks? && r.block < |ms[r.message].content.blocks| && -1 <= r.entry
    && PointsInto(r, ms[r.message].content.blocks[r.block])
  }

  /** Replacing the first image takes exactly it off the list. */
  lemma {:induction false} ReplaceFirst(ms: seq<Message>, mi: nat, text: string)
    requires mi <= |ms| && Refs(ms, mi) != []
    ensures var r := Refs(ms, mi)[0];
            mi <= r.message && Valid(r, ms) && Refs(Replaced(ms, r, text), mi) == Refs(ms, mi)[1..]
    decreases |ms| - mi
  {
    hide BlocksRefs, ReplacedBlock, PointsInto;
    var r := Refs(ms, mi)[0];
    var ms' := Replaced(ms, r, text);
    if MessageRefs(ms[mi], mi) == [] {
      assert [] + Refs(ms, mi + 1) == Refs(ms, mi + 1);
      ReplaceFirst(ms, mi + 1, text);
      assert [] + Refs(ms', mi + 1) == Refs(ms', mi + 1);
    } else {
      BlocksFirst(ms[mi].content.blocks, mi, 0, text);
      MessagesSame(ms, ms', mi + 1);
    }
  }

  // ---- the state after evicting ----

  type Place = (nat, nat, int)

  function PlaceOf(r: ImageRef): Place
  {
    (r.message, r.block, r.entry)
  }

  function EvictedBlock(b: Block, mi: nat, bi: nat, gone: set<Place>): Block
  {
    if (mi, bi, -1) in gone then TextBlockOf(PLACEHOLDER)
    else if b.content.Entries? then
      var es := b.content.entries;
      b.(content := Entries(seq(|es|, ei requires 0 <= ei < |es| => if (mi, bi, ei) in gone then TextEntry(PLACEHOLDER)
            else es[ei])))
    else b
  }

  function EvictedMessage(m: Message, mi: nat, gone: set<Place>): Message
  {
    if m.content.Blocks? then
      var bs := m.content.blocks;
      m.(content := Blocks(seq(|bs|, bi requires 0 <= bi < |bs| => EvictedBlock(bs[bi], mi, bi, gone))))
    else m
  }

  /** The messages with the images at these places, and nothing else, turned into the placeholder. */
  function Evicted(ms: seq<Message>, gone: set<Place>): (r: seq<Message>)
    ensures |r| == |ms|
  {
    seq(|ms|, mi requires 0 <= mi < |ms| => EvictedMessage(ms[mi], mi, gone))
  }

  lemma EvictNothing(ms: seq<Message>)
    ensures Evicted(ms, {}) == ms
  {
    forall mi | 0 <= mi < |ms| ensures EvictedMessage(ms[mi], mi, {}) == ms[mi] {
      MessageKept(ms[mi], mi, {});
    }
  }

  lemma BlockKept(b: Block, mi: nat, bi: nat, gone: set<Place>)
    requires forall ei: int :: (mi, bi, ei) !in gone
    ensures EvictedBlock(b, mi, bi, gone) == b
  {
    if b.content.Entries? {
      assert EvictedBlock(b, mi, bi, gone).content.entries == b.content.entries;
    }
  }

  lemma MessageKept(m: Message, mi: nat, gone: set<Place>)
    requires forall bi: nat, ei: int :: (mi, bi, ei) !in gone
    ensures EvictedMessage(m, mi, gone) == m
  {
    hide EvictedBlock;
    if m.content.Blocks? {
      forall bi | 0 <= bi < |m.content.blocks|
          ensures EvictedBlock(m.content.blocks[bi], mi, bi, gone) == m.content.blocks[bi] {
        BlockKept(m.content.blocks[bi], mi, bi, gone);
      }
      assert EvictedMessage(m, mi, gone).content.blocks == m.content.blocks;
    }
  }

  lemma EvictBlock(b: Block, r: ImageRef, gone: set<Place>)
    requires -1 <= r.entry && PointsInto(r, EvictedBlock(b, r.message, r.block, gone))
    ensures ReplacedBlock(EvictedBlock(b, r.message, r.block, gone), r.entry, PLACEHOLDER) == EvictedBlock(b, r.message,
              r.block, gone + {PlaceOf(r)})
  {
    var mi, bi := r.message, r.block;
    var was, now := EvictedBlock(b, mi, bi, gone), EvictedBlock(b, mi, bi, gone + {PlaceOf(r)});
    if r.entry >= 0 {
      assert (mi, bi, -1) !in gone;
      assert ReplacedBlock(was, r.entry, PLACEHOLDER).content.entries == now.content.entries;
    }
  }

  lemma SameBlock(b: Block, mi: nat, bi: nat, gone: set<Place>, p: Place)
    requires (p.0, p.1) != (mi, bi)
    ensures EvictedBlock(b, mi, bi, gone + {p}) == EvictedBlock(b, mi, bi, gone)
  {
    if b.content.Entries? && (mi, bi, -1) !in gone {
      assert EvictedBlock(b, mi, bi, gone + {p}).content.entries == EvictedBlock(b, mi, bi, gone).content.entries;
    }
  }

  lemma EvictMessage(m: Message, mi: nat, r: ImageRef, gone: set<Place>)
    requires r.message == mi ==> m.content.Blocks? && r.block < |m.content.blocks| && -1 <= r.entry
                                 && PointsInto(r, EvictedBlock(m.content.blocks[r.block], mi, r.block, gone))
    ensures var was, now := EvictedMessage(m, mi, gone), EvictedMessage(m, mi, gone + {PlaceOf(r)});
            now == if r.message != mi then was
                   else was.(content := Blocks(was.content.blocks[r.block :=
                         ReplacedBlock(was.content.blocks[r.block], r.entry, PLACEHOLDER)]))
  {
    hide EvictedBlock, ReplacedBlock, PointsInto;
    if m.content.Blocks? {
      var bs := m.content.blocks;
      forall bi | 0 <= bi < |bs| ensures (mi, bi) != (r.message, r.block) ==>
          EvictedBlock(bs[bi], mi, bi, gone + {PlaceOf(r)}) == EvictedBlock(bs[bi], mi, bi, gone) {
        if (mi, bi) != (r.message, r.block) { SameBlock(bs[bi], mi, bi, gone, PlaceOf(r)); }
      }
      var was, now := EvictedMessage(m, mi, gone), EvictedMessage(m, mi, gone + {PlaceOf(r)});
      if r.message == mi {
        EvictBlock(bs[r.block], r, gone);
        assert now.content.blocks == was.content.blocks[r.block := ReplacedBlock(was.content.blocks[r.block], r.entry,
              PLACEHOLDER)];
      } else {
        assert now.content.blocks == was.content.blocks;
      }
    }
  }

  lemma EvictOne(ms: seq<Message>, r: ImageRef, gone: set<Place>)
    requires Valid(r, Evicted(ms, gone))
    ensures Replaced(Evicted(ms, gone), r, PLACEHOLDER) == Evicted(ms, gone + {PlaceOf(r)})
  {
    hide EvictedBlock, ReplacedBlock, PointsInto;
    var was, now := Evicted(ms, gone), Evicted(ms, gone + {PlaceOf(r)});
    forall mi | 0 <= mi < |ms| ensures Replaced(was, r, PLACEHOLDER)[mi] == now[mi] {
      EvictMessage(ms[mi], mi, r, gone);
    }
  }

  /** The places of the first n references. */
  function Places(refs: seq<ImageRef>): set<Place>
  {
    set r | r in refs :: PlaceOf(r)
  }

  /** How many of n images go. */
  function Excess(n: nat, keep: int): nat
  {
    if keep <= 0 || n <= keep then 0 else n - keep
  }

  /** Afterwards the images are the last `keep` of the original ones, where they were, and nothing else has changed. */
  method EvictOldImages(messages: array<Message>, keep: int) returns (evicted: nat)
    modifies messages
    ensures var refs := Refs(old(messages[..]), 0);
            && evicted == Excess(|refs|, keep)
            && Refs(messages[..], 0) == refs[evicted..]
            && messages[..] == Evicted(old(messages[..]), Places(refs[..evicted]))
  {
    hide Refs, Evicted, Replaced, Valid;
    ghost var was := messages[..];
    EvictNothing(was);
    NoPlaces(Refs(was, 0));
    if keep <= 0 || messages.Length == 0 {
      assert Refs(was, 0) != [] ==> keep <= 0 by { EmptyHasNone(was); }
      return 0;
    }
    var refs := EnumerateImageRefs(messages);
    var evict := |refs| - keep;
    if evict <= 0 {
      return 0;
    }
    var i := 0;
    while i < evict
      invariant 0 <= i <= evict
      invariant Refs(messages[..], 0) == refs[i..]
      invariant messages[..] == Evicted(was, Places(refs[..i]))
    {
      ReplaceFirst(messages[..], 0, PLACEHOLDER);
      EvictOne(was, refs[i], Places(refs[..i]));
      assert refs[..i + 1] == refs[..i] + [refs[i]];
      assert Places(refs[..i + 1]) == Places(refs[..i]) + {PlaceOf(refs[i])};
      ReplaceImageRef(messages, refs[i], PLACEHOLDER);
      i := i + 1;
    }
    evicted := evict;
  }

  lemma NoPlaces(refs: seq<ImageRef>)
    ensures Places(refs[..0]) == {} && refs[0..] == refs
  {
  }

  lemma EmptyHasNone(ms: seq<Message>)
    ensures |ms| == 0 ==> Refs(ms, 0) == []
  {
  }

  /** What has become of the block: it is the notice, or keeps everything but the elements that are the notice now. */
  ghost predicate BlockEvicted(was: Block, now: Block, whole: bool, elements: set<int>)
  {
    var notice := "[Media removed from earlier context to reduce request size]";
    if whole then now.typ == "text" && now.text == notice && now.content == NoContent && now.source == None
    else if elements == {} then now == was
    else
      && was.content.Entries? && now.content.Entries? && |now.content.entries| == |was.content.entries|
      && now == was.(content := now.content)
      && forall ei :: 0 <= ei < |was.content.entries| ==>
          var e := now.content.entries[ei];
          if ei in elements then e.Object? && e.typ == "text" && e.text == notice && e.source == None
          else e == was.content.entries[ei]
  }

  /** The elements of one block whose places are gone. */
  function ElementsGone(gone: set<Place>, mi: nat, bi: nat): set<int>
  {
    set p <- gone | p.0 == mi && p.1 == bi && p.2 >= 0 :: p.2
  }

  /** Message by message and block by block, what evicting these images has made of the conversation. */
  lemma EvictedTells(ms: seq<Message>, refs: seq<ImageRef>, n: nat, mi: nat, bi: nat)
    requires refs == Refs(ms, 0) && n <= |refs| && mi < |ms|
    requires ms[mi].content.Blocks? && bi < |ms[mi].content.blocks|
    ensures var gone := Places(refs[..n]);
            var now := Evicted(ms, gone)[mi];
            && now.content.Blocks? && |now.content.blocks| == |ms[mi].content.blocks|
            && now == ms[mi].(content := now.content)
            && BlockEvicted(ms[mi].content.blocks[bi], now.content.blocks[bi], (mi, bi, -1) in gone,
                 ElementsGone(gone, mi, bi))
  {
    hide Refs;
    var gone := Places(refs[..n]);
    var b := ms[mi].content.blocks[bi];
    if (mi, bi, -1) !in gone {
      if ElementsGone(gone, mi, bi) != {} {
        var ei :| ei in ElementsGone(gone, mi, bi);
        assert (mi, bi, ei) in gone;
        var r :| r in refs[..n] && PlaceOf(r) == (mi, bi, ei);
        assert r in refs;
        RefsPoint(ms, 0, r);
      }
      BlockTells(b, mi, bi, gone);
    }
  }

  lemma BlockTells(b: Block, mi: nat, bi: nat, gone: set<Place>)
    requires (mi, bi, -1) !in gone && (ElementsGone(gone, mi, bi) != {} ==> b.content.Entries?)
    ensures BlockEvicted(b, EvictedBlock(b, mi, bi, gone), false, ElementsGone(gone, mi, bi))
  {
    forall ei: nat ensures ei in ElementsGone(gone, mi, bi) <==> (mi, bi, ei) in gone {
      if (mi, bi, ei) in gone {
        assert (mi, bi, ei).2 in ElementsGone(gone, mi, bi);
      }
    }
    if b.content.Entries? && ElementsGone(gone, mi, bi) == {} {
      assert EvictedBlock(b, mi, bi, gone).content.entries == b.content.entries;
    }
  }

  lemma {:induction false} RefsPoint(ms: seq<Message>, mi: nat, r: ImageRef)
    requires mi <= |ms| && r in Refs(ms, mi)
    ensures Valid(r, ms)
    decreases |ms| - mi
  {
    hide BlocksRefs, PointsInto;
    if r in MessageRefs(ms[mi], mi) {
      BlocksPoint(ms[mi].content.blocks, mi, 0, r);
    } else {
      RefsPoint(ms, mi + 1, r);
    }
  }

  lemma {:induction false} BlocksPoint(bs: seq<Block>, mi: nat, bi: nat, r: ImageRef)
    requires bi <= |bs| && r in BlocksRefs(bs, mi, bi)
    ensures r.message == mi && r.block < |bs| && -1 <= r.entry && PointsInto(r, bs[r.block])
    decreases |bs| - bi
  {
    hide EntryRefs, ImagePartOf, IsImageDocument, DataURL, MediaType;
    if r in BlockRefs(bs[bi], mi, bi) {
      if bs[bi].content.Entries? && r in EntryRefs(bs[bi].content.entries, mi, bi, 0) {
        EntriesPoint(bs[bi].content.entries, mi, bi, 0, r);
      }
    } else {
      BlocksPoint(bs, mi, bi + 1, r);
    }
  }

  lemma {:induction false} EntriesPoint(es: seq<Entry>, mi: nat, bi: nat, ei: nat, r: ImageRef)
    requires ei <= |es| && r in EntryRefs(es, mi, bi, ei)
    ensures r.message == mi && r.block == bi && 0 <= r.entry < |es| && es[r.entry].Object?
    decreases |es| - ei
  {
    hide ImagePartOf;
    if r !in EntryRef(es[ei], mi, bi, ei) {
      EntriesPoint(es, mi, bi, ei + 1, r);
    }
  }

  // ---- the cap ----

  /** A tool result with an image source of its own counts as one image, whatever its content holds. */
  predicate CountedRight(b: Block)
  {
    IsToolResult(b.typ) && IsImageDocument(b) ==> |Convert.ResultImages(b)| <= 1
  }

  predicate AllCountedRight(ms: seq<Message>)
  {
    forall m <- ms :: m.content.Blocks? ==> forall b <- m.content.blocks :: CountedRight(b)
  }

  /** An element that counts and is not sent: it has an image source, and is none. */
  function Stray(e: Entry): nat
  {
    if e.Object? && e.typ != "image" && ImagePartOf(e.source, e.detail).Some? then 1 else 0
  }

  /** The images of a user turn's block that count and are not sent. */
  function Unsent(b: Block): nat
  {
    if b.typ == "image" then 0
    else if IsImageDocument(b) then
      (if b.typ == "document" || (IsToolResult(b.typ) && Convert.ResultImages(b) != []) then 0 else 1)
    else if IsToolResult(b.typ) && b.content.Entries? then Total(Stray, b.content.entries)
    else 0
  }

  /** The images of a user turn's block that are sent and do not count. */
  function Extra(b: Block): nat
  {
    if CountedRight(b) then 0 else |Convert.ResultImages(b)| - 1
  }

  lemma {:induction false} EntriesCount(es: seq<Entry>, mi: nat, bi: nat, ei: nat)
    requires ei <= |es|
    ensures |Convert.EntryImages(es)| + Total(Stray, es)
            == |Convert.EntryImages(es[..ei])| + Total(Stray, es[..ei]) + |EntryRefs(es, mi, bi, ei)|
    decreases |es| - ei
  {
    hide ImagePartOf;
    if ei < |es| {
      assert es[..ei + 1][..ei] == es[..ei];
      EntriesCount(es, mi, bi, ei + 1);
    } else {
      assert es[..ei] == es;
    }
  }

  /** What a block sends and what it counts for. */
  lemma BlockCount(b: Block, mi: nat, bi: nat)
    ensures |CI.SentImages(b)| + Unsent(b) == |BlockRefs(b, mi, bi)| + Extra(b)
  {
    hide ImagePartOf, IsImageMime, DataURL, MediaType, EntryRefs, Convert.EntryImages, Stray;
    if b.content.Entries? {
      EntriesCount(b.content.entries, mi, bi, 0);
      assert b.content.entries[..0] == [];
      assert Convert.EntryImages([]) == [] by { NoEntryImages(); }
    }
  }

  lemma NoEntryImages()
    ensures Convert.EntryImages([]) == []
  {
  }

  /** A block sends no more images than it counts for, except for the one kind of tool result. */
  lemma BlockBound(b: Block, mi: nat, bi: nat)
    ensures |CI.SentImages(b)| <= |BlockRefs(b, mi, bi)| <==> CountedRight(b)
  {
    hide BlockRefs, CI.SentImages, IsImageMime, MediaType, Convert.EntryImages;
    BlockCount(b, mi, bi);
  }

  /** What a message counts for and does not send: all its images, if it is not the user's. */
  function UnsentIn(m: Message): nat
  {
    if !m.content.Blocks? then 0
    else if m.role == "user" then Total(Unsent, m.content.blocks)
    else |MessageRefs(m, 0)|
  }

  function ExtraIn(m: Message): nat
  {
    if m.content.Blocks? && m.role == "user" then Total(Extra, m.content.blocks) else 0
  }

  lemma {:induction false} BlocksCount(bs: seq<Block>, mi: nat, bi: nat)
    requires bi <= |bs|
    ensures |Gather(CI.SentImages, bs)| + Total(Unsent, bs) + Total(Extra, bs[..bi])
            == |Gather(CI.SentImages, bs[..bi])| + Total(Unsent, bs[..bi]) + |BlocksRefs(bs, mi, bi)| + Total(Extra, bs)
    decreases |bs| - bi
  {
    hide BlockRefs, CI.SentImages, Unsent, Extra, Gather, Total;
    if bi < |bs| {
      assert bs[..bi + 1] == bs[..bi] + [bs[bi]];
      GatherSnoc(CI.SentImages, bs[..bi], bs[bi]);
      TotalSnoc(Unsent, bs[..bi], bs[bi]);
      TotalSnoc(Extra, bs[..bi], bs[bi]);
      BlockCount(bs[bi], mi, bi);
      BlocksCount(bs, mi, bi + 1);
    } else {
      assert bs[..bi] == bs;
    }
  }

  lemma {:induction false} SameCount(bs: seq<Block>, mi: nat, mi': nat, bi: nat)
    requires bi <= |bs|
    ensures |BlocksRefs(bs, mi, bi)| == |BlocksRefs(bs, mi', bi)|
    decreases |bs| - bi
  {
    hide BlockRefs, CI.SentImages, Unsent, Extra;
    if bi < |bs| {
      BlockCount(bs[bi], mi, bi);
      BlockCount(bs[bi], mi', bi);
      SameCount(bs, mi, mi', bi + 1);
    }
  }

  /** Only turns of text are taken for the client's own, and text sends no images. */
  lemma {:induction false} TextSendsNone(bs: seq<Block>)
    requires forall b <- bs :: b.typ == "text"
    ensures Gather(CI.SentImages, bs) == []
  {
    hide ImagePartOf, IsImageMime, Convert.ResultImages;
    if bs != [] {
      assert bs[|bs| - 1] in bs;
      TextSendsNone(bs[..|bs| - 1]);
    }
  }

  lemma MessageCount(m: Message, mi: nat, sanitize: bool)
    ensures |CI.MessageImages(Convert.SanitizedTurn(m, sanitize))| + UnsentIn(m) == |MessageRefs(m, mi)| + ExtraIn(m)
  {
    hide BlocksRefs, Gather, CI.SentImages, Unsent, Extra, Convert.UserMetaTurnReplacement, JoinWith;
    if m.content.Blocks? {
      var bs := m.content.blocks;
      SameCount(bs, mi, 0, 0);
      BlocksCount(bs, mi, 0);
      assert bs[..0] == [];
      assert |Gather(CI.SentImages, [])| == 0 by { NoneSent(); }
      if forall b <- bs :: b.typ == "text" { TextSendsNone(bs); }
    }
  }

  lemma NoneSent()
    ensures |Gather(CI.SentImages, [])| == 0 && |Gather(CI.MessageImages, [])| == 0
  {
  }

  lemma {:induction false} MessagesCount(ms: seq<Message>, mi: nat, sanitize: bool)
    requires mi <= |ms|
    ensures var s := Convert.Sanitized(ms, sanitize);
            |Gather(CI.MessageImages, s)| + Total(UnsentIn, ms) + Total(ExtraIn, ms[..mi])
            == |Gather(CI.MessageImages, s[..mi])| + Total(UnsentIn, ms[..mi]) + |Refs(ms, mi)| + Total(ExtraIn, ms)
    decreases |ms| - mi
  {
    hide MessageRefs, CI.MessageImages, UnsentIn, ExtraIn, Convert.SanitizedTurn, Gather, Total;
    var s := Convert.Sanitized(ms, sanitize);
    if mi < |ms| {
      assert s[..mi + 1] == s[..mi] + [s[mi]] && ms[..mi + 1] == ms[..mi] + [ms[mi]];
      GatherSnoc(CI.MessageImages, s[..mi], s[mi]);
      TotalSnoc(UnsentIn, ms[..mi], ms[mi]);
      TotalSnoc(ExtraIn, ms[..mi], ms[mi]);
      MessageCount(ms[mi], mi, sanitize);
      MessagesCount(ms, mi + 1, sanitize);
    } else {
      assert s[..mi] == s && ms[..mi] == ms;
    }
  }

  /**
   * For every conversation: the images sent are those the references count, less the ones that count and are not sent
   * and the ones dropped while results are waited for, and with those that are sent and do not count.
   */
  lemma ConvertedCount(ms: seq<Message>, replay: Convert.ReplayMode, sanitize: bool)
    requires Convert.Converted(Convert.Sanitized(ms, sanitize), replay).Success?
    ensures var s := Convert.Sanitized(ms, sanitize);
            |Gather(CI.ImagesOf, Convert.Converted(s, replay).value)| + |CI.Dropped(s, replay)| + Total(UnsentIn, ms)
            == |Refs(ms, 0)| + Total(ExtraIn, ms)
  {
    hide *;
    var s := Convert.Sanitized(ms, sanitize);
    var sent, dropped := Gather(CI.ImagesOf, Convert.Converted(s, replay).value), CI.Dropped(s, replay);
    CI.ConvertedImages(s, replay);
    assert |multiset(sent) + multiset(dropped)| == |sent| + |dropped|;
    assert |multiset(Gather(CI.MessageImages, s))| == |Gather(CI.MessageImages, s)|;
    MessagesCount(ms, 0, sanitize);
    NoneSent();
    TotalNothing(UnsentIn, []);
    TotalNothing(ExtraIn, []);
    assert s[..0] == [] && ms[..0] == [];
  }

  lemma NothingExtra(ms: seq<Message>)
    requires AllCountedRight(ms)
    ensures Total(ExtraIn, ms) == 0
  {
    hide CountedRight;
    forall m | m in ms ensures ExtraIn(m) == 0 {
      if m.content.Blocks? { TotalNothing(Extra, m.content.blocks); }
    }
    TotalNothing(ExtraIn, ms);
  }

  /** The conversion sends no more images than the references count. */
  lemma ConvertedBound(ms: seq<Message>, replay: Convert.ReplayMode, sanitize: bool)
    requires AllCountedRight(ms) && Convert.Converted(Convert.Sanitized(ms, sanitize), replay).Success?
    ensures |Gather(CI.ImagesOf, Convert.Converted(Convert.Sanitized(ms, sanitize), replay).value)| <= |Refs(ms, 0)|
  {
    hide *;
    ConvertedCount(ms, replay, sanitize);
    NothingExtra(ms);
  }

  lemma EvictedKeepsSources(ms: seq<Message>, gone: set<Place>)
    requires AllCountedRight(ms)
    ensures AllCountedRight(Evicted(ms, gone))
  {
    hide EvictedBlock, CountedRight;
    var s := Evicted(ms, gone);
    forall m | m in s && m.content.Blocks? ensures forall b <- m.content.blocks :: CountedRight(b) {
      var mi :| 0 <= mi < |s| && s[mi] == m;
      forall b | b in m.content.blocks ensures CountedRight(b) {
        var bi :| 0 <= bi < |m.content.blocks| && m.content.blocks[bi] == b;
        assert ms[mi] in ms && ms[mi].content.blocks[bi] in ms[mi].content.blocks;
        EvictedKeepsSource(ms[mi].content.blocks[bi], mi, bi, gone);
      }
    }
  }

  lemma EvictedKeepsSource(b: Block, mi: nat, bi: nat, gone: set<Place>)
    requires CountedRight(b)
    ensures CountedRight(EvictedBlock(b, mi, bi, gone))
  {
    hide IsImageMime, MediaType, Convert.EntryImages;
    if b.content.Entries? && (mi, bi, -1) !in gone {
      FewerEntryImages(b.content.entries, EvictedBlock(b, mi, bi, gone).content.entries);
    }
  }

  lemma {:induction false} FewerEntryImages(es: seq<Entry>, es': seq<Entry>)
    requires |es'| == |es| && forall k :: 0 <= k < |es| ==> es'[k] == es[k] || es'[k] == TextEntry(PLACEHOLDER)
    ensures |Convert.EntryImages(es')| <= |Convert.EntryImages(es)|
  {
    hide ImagePartOf;
    if es != [] {
      FewerEntryImages(es[..|es| - 1], es'[..|es| - 1]);
    }
  }

  /** Evict, then convert: at most `keep` images reach the upstream, if every tool result counts for its images. */
  method ConvertCapped(messages: array<Message>, keep: int, replay: Convert.ReplayMode, sanitize: bool)
      returns (r: Result<seq<OutMessage>, Convert.ConversionError>)
    modifies messages
    ensures var refs := Refs(old(messages[..]), 0);
            messages[..] == Evicted(old(messages[..]), Places(refs[..Excess(|refs|, keep)]))
    ensures r == Convert.Converted(Convert.Sanitized(messages[..], sanitize), replay)
    ensures keep > 0 && AllCountedRight(old(messages[..])) && r.Success? ==> |Gather(CI.ImagesOf, r.value)| <= keep
    ensures keep > 0 && r.Success? ==>
              var n, ms := |Refs(old(messages[..]), 0)|, messages[..];
              |Gather(CI.ImagesOf, r.value)| <= keep <==>
              (if n <= keep then n else keep) + Total(ExtraIn, ms)
              <= keep + Total(UnsentIn, ms) + |CI.Dropped(Convert.Sanitized(ms, sanitize), replay)|
  {
    hide *;
    ghost var was := messages[..];
    var evicted := EvictOldImages(messages, keep);
    ExcessLeaves(|Refs(was, 0)|, keep);
    r := Convert.ConvertMessages(messages[..], replay, sanitize);
    if r.Success? { ConvertedCount(messages[..], replay, sanitize); }
    if AllCountedRight(was) && r.Success? {
      EvictedKeepsSources(was, Places(Refs(was, 0)[..evicted]));
      ConvertedBound(messages[..], replay, sanitize);
    }
  }

  lemma ExcessLeaves(n: nat, keep: int)
    ensures Excess(n, keep) <= n && (keep > 0 ==> n - Excess(n, keep) == if n <= keep then n else keep)
  {
  }

  /** A conversation of one user message that holds one block. */
  function Only(b: Block): seq<Message>
  {
    [Message("user", Blocks([b]), None)]
  }

  lemma OnlyRefs(b: Block)
    ensures Refs(Only(b), 0) == BlockRefs(b, 0, 0)
  {
    hide BlockRefs;
    var bs := [b];
    assert BlocksRefs(bs, 0, 0) == BlockRefs(bs[0], 0, 0) + BlocksRefs(bs, 0, 1);
    assert Refs(Only(b), 0) == MessageRefs(Only(b)[0], 0) + Refs(Only(b), 1);
  }

  lemma OnlyTurns(b: Block, replay: Convert.ReplayMode)
    ensures Convert.Turns(Only(b), replay) == Success(Convert.Turned(Convert.UserMessages([b]), None))
  {
    hide Convert.UserMessages;
    assert Only(b)[..0] == [];
    assert [] + Convert.UserMessages([b]) == Convert.UserMessages([b])
        && [] + ([] + Convert.UserMessages([b])) == Convert.UserMessages([b]);
  }

  /** It is converted, and sends the block's images. */
  lemma OnlyConverts(b: Block, replay: Convert.ReplayMode)
    ensures var r := Convert.Converted(Only(b), replay);
            r.Success? && |Gather(CI.ImagesOf, r.value)| == |CI.SentImages(b)|
  {
    hide *;
    OnlyTurns(b, replay);
    var out := Convert.UserMessages([b]);
    ConvertLaws.ConvertedIs(Only(b), replay);
    NothingWaits(out);
    CI.BackfilledImages(out, replay);
    CI.UserImages([b]);
    GatherOne(CI.SentImages, b);
    assert |multiset(Gather(CI.ImagesOf, out))| == |Gather(CI.ImagesOf, out)|
        && |multiset(CI.SentImages(b))| == |CI.SentImages(b)|;
  }

  lemma NothingWaits(out: seq<OutMessage>)
    ensures out + Convert.Waiting(None) == out
  {
  }

  /**
   * The condition is exact: whatever the block, a conversation that holds nothing else, evicted down to as many
   * images as it counts for, which takes nothing away, is converted, and keeps to the cap if and only if the
   * block is one that counts right.
   */
  lemma CapIsExact(b: Block, replay: Convert.ReplayMode, sanitize: bool)
    ensures var n := |BlockRefs(b, 0, 0)|;
            var r := Convert.Converted(Convert.Sanitized(Only(b), sanitize), replay);
            && |Refs(Only(b), 0)| == n && Excess(n, n) == 0
               && Evicted(Only(b), Places(Refs(Only(b), 0)[..0])) == Only(b)
            && r.Success? && (|Gather(CI.ImagesOf, r.value)| <= n <==> CountedRight(b))
            && (!CountedRight(b) ==> n == 1)
  {
    hide Refs, Evicted, BlockRefs, Gather, CI.ImagesOf, CI.SentImages, Convert.Converted, Convert.Sanitized,
         CountedRight;
    OnlyRefs(b);
    EvictNothing(Only(b));
    NoPlaces(Refs(Only(b), 0));
    BlockBound(b, 0, 0);
    Unsanitized(b, sanitize, replay);
    OnlyConverts(b, replay);
    if CountedRight(b) {
      assert AllCountedRight(Only(b));
      ConvertedBound(Only(b), replay, sanitize);
    } else {
      MiscountedIsResult(b);
    }
  }

  lemma MiscountedIsResult(b: Block)
    ensures !CountedRight(b) ==> b.typ != "text" && |BlockRefs(b, 0, 0)| == 1
  {
    hide Convert.EntryImages, IsImageMime, MediaType, DataURL;
  }

  /** Only a turn of text can be taken for one of the client's own. */
  lemma Unsanitized(b: Block, sanitize: bool, replay: Convert.ReplayMode)
    ensures b.typ != "text" ==> Convert.Sanitized(Only(b), sanitize) == Only(b)
    ensures Convert.Converted(Convert.Sanitized(Only(b), sanitize), replay).Success?
  {
    hide Convert.Converted, Convert.UserMetaTurnReplacement, JoinWith;
    var s := Convert.Sanitized(Only(b), sanitize);
    assert s == [s[0]];
    assert Only(b)[0].content.blocks == [b];
    assert b in [b];
    OneIsConverted(s[0], replay);
  }

  lemma OneIsConverted(m: Message, replay: Convert.ReplayMode)
    requires m.role == "user"
    ensures Convert.Converted([m], replay).Success?
  {
    hide Convert.UserMessages, Convert.StringMessage, Convert.CleanReasoning, Convert.BackfilledAll;
    ConvertLaws.ConvertedIs([m], replay);
    assert [m][..0] == [];
    assert Convert.Turns([], replay) == Success(Convert.Turned([], None));
  }

  /** One that does not: this tool result with a source counts as one image and sends two. */
  lemma SourceBreaksCap() returns (b: Block)
    ensures !CountedRight(b) && |BlockRefs(b, 0, 0)| == 1 && |CI.SentImages(b)| == 2
  {
    var src := Source("base64", "image/png", "", "AA", "");
    var e := Object("image", "", Some(src), "", "");
    b := Block("tool_result", "", "", "", "", "", Entries([e, e]), false, "id", Some(src), "", "", "");
    PngIsImage();
    assert Convert.EntryImages([e, e]) == Convert.EntryImages([e]) + Convert.EntryImage(e) by {
      assert [e, e][..1] == [e];
    }
    assert Convert.EntryImages([e]) == Convert.EntryImages([]) + Convert.EntryImage(e) by { assert [e][..0] == []; }
  }

  lemma PngIsImage()
    ensures IsImageMime("image/png")
  {
    assert Lower("image/png") == "image/png";
  }
}

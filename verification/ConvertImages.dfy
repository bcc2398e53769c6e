/** Where the images of a conversation go when it is converted. */
module ConvertImages {
  import opened Wrappers
  import opened Strings
  import opened Sequences
  import opened Chat
  import opened Convert
  import ConvertLaws

  function ImageIn(p: Part): seq<Part>
  {
    if p.ImagePart? then [p] else []
  }

  /** The image parts of one message. */
  function ImagesOf(m: OutMessage): seq<Part>
  {
    if m.content.Parts? then Gather(ImageIn, m.content.parts) else []
  }

  /** The images a user turn's block brings. */
  function SentImages(b: Block): seq<Part>
  {
    if b.typ == "image" then
      var part := ImagePartOf(b.source, b.detail);
      if part.Some? then [part.value] else []
    else if b.typ == "document" then
      (if b.source.Some? && b.source.value.typ == "base64" && IsImageMime(MediaType(b.source.value))
            && b.source.value.data != "" then
         [ImagePart(DataURL(MediaType(b.source.value), b.source.value.data), "")]
       else [])
    else if IsToolResult(b.typ) then ResultImages(b)
    else []
  }

  function MessageImages(m: Message): seq<Part>
  {
    if m.role == "user" && m.content.Blocks? then Gather(SentImages, m.content.blocks) else []
  }

  // ---- every list of images holds nothing but images ----

  predicate AllImages(parts: seq<Part>)
  {
    forall p <- parts :: p.ImagePart?
  }

  lemma {:induction false} AllImagesGather(parts: seq<Part>)
    requires AllImages(parts)
    ensures Gather(ImageIn, parts) == parts
  {
    if parts != [] {
      AllImagesGather(parts[..|parts| - 1]);
    }
  }

  lemma {:induction false} ResultImagesAreImages(es: seq<Entry>)
    ensures AllImages(EntryImages(es))
  {
    hide ImagePartOf;
    if es != [] {
      ResultImagesAreImages(es[..|es| - 1]);
      PartIsImage(es[|es| - 1]);
    }
  }

  lemma PartIsImage(e: Entry)
    ensures AllImages(EntryImage(e))
  {
  }

  lemma SentAreImages(b: Block)
    ensures AllImages(SentImages(b)) && AllImages(ResultImages(b))
    ensures ImagePartOf(b.source, b.detail).Some? ==> ImagePartOf(b.source, b.detail).value.ImagePart?
  {
    if b.content.Entries? { ResultImagesAreImages(b.content.entries); }
  }

  // ---- user turns ----

  /** All images of a half-done user turn: sent, and still held. */
  ghost function Held(s: UserState): multiset<Part>
  {
    multiset(Gather(ImagesOf, s.result)) + multiset(s.images) + multiset(s.media)
  }

  ghost predicate Clean(s: UserState)
  {
    AllImages(s.images) && AllImages(s.media)
  }

  lemma FlushTextImages(s: UserState)
    ensures Gather(ImagesOf, FlushText(s).result) == Gather(ImagesOf, s.result)
    ensures Held(FlushText(s)) == Held(s) && FlushText(s).images == s.images && FlushText(s).media == s.media
  {
    hide Gather, JoinWith;
    var m := UserText(JoinWith(s.text, "\n"));
    GatherSnoc(ImagesOf, s.result, m);
    assert Gather(ImagesOf, s.result) + [] == Gather(ImagesOf, s.result);
  }

  lemma PartsImages(head: seq<Part>, images: seq<Part>)
    requires AllImages(images) && Gather(ImageIn, head) == []
    ensures ImagesOf(UserParts(head + images)) == images
  {
    GatherConcat(ImageIn, head, images);
    AllImagesGather(images);
    assert [] + images == images;
  }

  lemma TextHasNoImage(text: string)
    ensures Gather(ImageIn, [TextPart(text)]) == [] && Gather(ImageIn, []) == []
  {
    GatherOne(ImageIn, TextPart(text));
  }

  lemma WithImagesImages(ms: seq<OutMessage>, images: seq<Part>)
    requires AllImages(images)
    ensures multiset(Gather(ImagesOf, WithImages(ms, images))) == multiset(Gather(ImagesOf, ms)) + multiset(images)
  {
    hide Gather, AllImages;
    var i := LastUserText(ms);
    if i == -1 {
      TextHasNoImage("");
      PartsImages([], images);
      assert [] + images == images;
      GatherSnoc(ImagesOf, ms, UserParts(images));
    } else {
      var text := ms[i].content.text;
      TextHasNoImage(text);
      PartsImages([TextPart(text)], images);
      GatherWithout(ImagesOf, ms, i);
      GatherSnoc(ImagesOf, ms[..i] + ms[i + 1..], UserParts([TextPart(text)] + images));
    }
  }

  lemma FlushImagesImages(s: UserState)
    requires Clean(s)
    ensures Held(FlushImages(s)) == Held(s) && FlushImages(s).media == s.media && FlushImages(s).images == []
  {
    hide Gather, FlushText, AllImages, WithImages;
    FlushTextImages(s);
    WithImagesImages(FlushText(s).result, s.images);
  }

  lemma AddBlockImages(s: UserState, b: Block)
    requires Clean(s)
    ensures Clean(AddBlock(s, b)) && Held(AddBlock(s, b)) == Held(s) + multiset(SentImages(b))
  {
    hide Gather, FlushText, FlushImages, ImagePartOf, ResultImages, ResultMessage, DocumentRef, DataURL, MediaType,
         IsImageMime;
    SentAreImages(b);
    FlushTextImages(s);
    if b.typ != "image" && b.typ != "document" && IsToolResult(b.typ) {
      AddResultImages(s, b);
    }
  }

  lemma AddResultImages(s: UserState, b: Block)
    requires Clean(s)
    ensures Clean(AddResult(s, b)) && Held(AddResult(s, b)) == Held(s) + multiset(ResultImages(b))
  {
    hide Gather, FlushText, FlushImages, ResultImages;
    SentAreImages(b);
    FlushImagesImages(s);
    FlushTextImages(FlushImages(s));
    var ms := FlushText(FlushImages(s)).result;
    GatherSnoc(ImagesOf, ms, ResultMessage(b));
    assert Gather(ImagesOf, ms) + [] == Gather(ImagesOf, ms);
  }

  lemma {:induction false} AddBlocksImages(blocks: seq<Block>)
    ensures Clean(AddBlocks(blocks)) && Held(AddBlocks(blocks)) == multiset(Gather(SentImages, blocks))
  {
    hide AddBlock, SentImages;
    if blocks != [] {
      var blocks', b := blocks[..|blocks| - 1], blocks[|blocks| - 1];
      AddBlocksImages(blocks');
      AddBlockImages(AddBlocks(blocks'), b);
    }
  }

  lemma MediaImages(ms: seq<OutMessage>, media: seq<Part>)
    requires AllImages(media)
    ensures multiset(Gather(ImagesOf, WithMedia(ms, media))) == multiset(Gather(ImagesOf, ms)) + multiset(media)
  {
    hide Gather, AllImages;
    TextHasNoImage(MEDIA_MARKER);
    PartsImages([TextPart(MEDIA_MARKER)], media);
    GatherSnoc(ImagesOf, ms, UserParts([TextPart(MEDIA_MARKER)] + media));
  }

  /** A user turn sends exactly the images it was given. */
  lemma UserImages(blocks: seq<Block>)
    ensures multiset(Gather(ImagesOf, UserMessages(blocks))) == multiset(Gather(SentImages, blocks))
  {
    hide Gather, AddBlocks, FlushText, FlushImages, WithMedia;
    var s := AddBlocks(blocks);
    AddBlocksImages(blocks);
    FlushImagesImages(s);
    FlushTextImages(FlushImages(s));
    var t := FlushText(FlushImages(s));
    MediaImages(t.result, t.media);
  }

  // ---- where a text goes that images go out with ----

  function ToolOf(m: OutMessage): seq<OutMessage>
  {
    if m.role == "tool" then [m] else []
  }

  /**
   * The last text goes to the end, behind every tool message so far. The same ones were in front of it before if and
   * only if no tool message followed it.
   */
  lemma TextStaysPut(ms: seq<OutMessage>, images: seq<Part>)
    requires LastUserText(ms) != -1
    ensures var i, now := LastUserText(ms), WithImages(ms, images);
            && now[|now| - 1] == UserParts([TextPart(ms[i].content.text)] + images)
            && Gather(ToolOf, now[..|now| - 1]) == Gather(ToolOf, ms)
            && (Gather(ToolOf, now[..|now| - 1]) == Gather(ToolOf, ms[..i]) <==> Gather(ToolOf, ms[i + 1..]) == [])
  {
    hide Gather;
    var i, now := LastUserText(ms), WithImages(ms, images);
    assert now[..|now| - 1] == ms[..i] + ms[i + 1..];
    GatherWithout(ToolOf, ms, i);
    GatherConcat(ToolOf, ms[..i], ms[i + 1..]);
    assert |Gather(ToolOf, ms[..i]) + Gather(ToolOf, ms[i + 1..])| == |Gather(ToolOf, ms[..i])| + |Gather(ToolOf,
          ms[i + 1..])|;
    assert Gather(ToolOf, ms[..i]) + [] == Gather(ToolOf, ms[..i]);
  }

  /** A turn where it does not: text, a result, an image. The text goes out behind the result. */
  lemma TextPulled(text: string, result: Block, image: Block)
    requires IsToolResult(result.typ) && ResultImages(result) == []
    requires image.typ == "image" && ImagePartOf(image.source, image.detail).Some?
    ensures var part := ImagePartOf(image.source, image.detail).value;
            UserMessages([TextBlockOf(text), result, image])
                == [ResultMessage(result), UserParts([TextPart(text), part])]
  {
    hide ImagePartOf, ResultMessage, ResultImages;
    var t, part := TextBlockOf(text), ImagePartOf(image.source, image.detail).value;
    var bs := [t, result, image];
    assert bs[..2] == [t, result] && [t, result][..1] == [t] && [t][..0] == [];
    assert AddBlocks([t]) == UserState([], [text], [], []) by { assert [] + [text] == [text]; }
    assert JoinWith([text], "\n") == text;
    assert AddBlocks([t, result]) == UserState([UserText(text), ResultMessage(result)], [], [], []) by {
      OneResult(text, result);
    }
    assert AddBlocks(bs) == UserState([UserText(text), ResultMessage(result)], [], [part], []) by {
      assert [] + [part] == [part];
    }
    PullsText(text, result, part);
  }

  lemma OneResult(text: string, result: Block)
    requires IsToolResult(result.typ) && ResultImages(result) == []
    ensures AddBlock(UserState([], [text], [], []), result) == UserState([UserText(text), ResultMessage(result)], [],
              [], [])
  {
    hide ResultMessage, ResultImages;
    assert [] + [UserText(text)] + [ResultMessage(result)] == [UserText(text), ResultMessage(result)];
  }

  lemma PullsText(text: string, result: Block, part: Part)
    ensures WithImages([UserText(text), ResultMessage(result)], [part])
            == [ResultMessage(result), UserParts([TextPart(text), part])]
  {
    var ms := [UserText(text), ResultMessage(result)];
    assert !IsUserText(ms[1]) && ms[..1] == [UserText(text)];
    assert LastUserText(ms) == 0;
    assert [TextPart(text)] + [part] == [TextPart(text), part];
    assert ms[..0] + ms[1..] + [UserParts([TextPart(text), part])]
        == [ResultMessage(result), UserParts([TextPart(text), part])];
  }

  // ---- user turns that answer ----

  /** On this path only the tool results' images survive. */
  function ResultsOf(b: Block): seq<Part>
  {
    if b.typ != "text" && IsToolResult(b.typ) then ResultImages(b) else []
  }

  /** A document that is an image is dropped. */
  function DocumentOf(b: Block): seq<Part>
  {
    if b.typ == "document" then SentImages(b) else []
  }

  lemma {:induction false} InjectImages(blocks: seq<Block>, deferred: OutMessage, remaining: set<string>)
    requires deferred.content.Text?
    ensures var s := InjectBlocks(blocks, deferred, remaining);
            AllImages(s.media) && Gather(ImagesOf, s.result) == [] && s.media == Gather(ResultsOf, blocks)
  {
    hide InjectBlock, SentImages, ResultsOf;
    if blocks != [] {
      var blocks', b := blocks[..|blocks| - 1], blocks[|blocks| - 1];
      InjectImages(blocks', deferred, remaining);
      InjectBlockImages(InjectBlocks(blocks', deferred, remaining), b, deferred);
    }
  }

  lemma InjectTextImages(s: InjectState)
    requires Gather(ImagesOf, s.result) == []
    ensures Gather(ImagesOf, InjectText(s).result) == [] && InjectText(s).media == s.media
  {
    hide Gather, JoinWith;
    GatherSnoc(ImagesOf, s.result, UserText(JoinWith(s.text, "\n")));
  }

  lemma InjectBlockImages(s: InjectState, b: Block, deferred: OutMessage)
    requires deferred.content.Text? && AllImages(s.media) && Gather(ImagesOf, s.result) == []
    ensures var t := InjectBlock(s, b, deferred);
            AllImages(t.media) && Gather(ImagesOf, t.result) == [] && t.media == s.media + ResultsOf(b)
  {
    hide Gather, InjectText, ResultImages, ImagePartOf, DataURL, MediaType, IsImageMime;
    SentAreImages(b);
    InjectTextImages(s);
    var ms := InjectText(s).result;
    GatherSnoc(ImagesOf, ms, ResultMessage(b));
    GatherSnoc(ImagesOf, ms + [ResultMessage(b)], deferred);
    assert ms + [ResultMessage(b)] + [] == ms + [ResultMessage(b)];
    assert s.media + [] == s.media;
  }

  /** What a turn without image blocks brings: the images of its results, and those of its documents. */
  lemma {:induction false} ResultsAndDocuments(blocks: seq<Block>)
    requires !HasImage(blocks)
    ensures multiset(Gather(SentImages, blocks)) == multiset(Gather(ResultsOf, blocks))
            + multiset(Gather(DocumentOf, blocks))
  {
    hide ResultImages, ImagePartOf, DataURL, MediaType, IsImageMime, HasImage;
    if blocks != [] {
      NoImageBefore(blocks);
      ResultsAndDocuments(blocks[..|blocks| - 1]);
      assert multiset(SentImages(blocks[|blocks| - 1])) == multiset(ResultsOf(blocks[|blocks| - 1]))
          + multiset(DocumentOf(blocks[|blocks| - 1]));
    }
  }

  lemma NoImageBefore(blocks: seq<Block>)
    requires !HasImage(blocks) && blocks != []
    ensures !HasImage(blocks[..|blocks| - 1]) && blocks[|blocks| - 1].typ != "image"
  {
    assert blocks[|blocks| - 1] in blocks;
  }

  lemma InjectedImages(blocks: seq<Block>, deferred: OutMessage, remaining: set<string>)
    requires deferred.content.Text? && !HasImage(blocks)
    ensures multiset(Gather(ImagesOf, InjectedMessages(blocks, deferred, remaining)))
            + multiset(Gather(DocumentOf, blocks))
            == multiset(Gather(SentImages, blocks))
  {
    hide Gather, InjectBlocks, InjectText, WithMedia, HasImage;
    InjectImages(blocks, deferred, remaining);
    ResultsAndDocuments(blocks);
    var s := InjectBlocks(blocks, deferred, remaining);
    InjectTextImages(s);
    MediaImages(InjectText(s).result, s.media);
  }

  /** The blocks this path looks at. */
  function Heeded(blocks: seq<Block>): seq<Block>
  {
    if blocks == [] then []
    else
      var b := blocks[|blocks| - 1];
      Heeded(blocks[..|blocks| - 1]) + (if b.typ == "text" || IsToolResult(b.typ) then [b] else [])
  }

  /** Everything but text and results is dropped, documents of any kind included. */
  lemma {:induction false} InjectHeeds(blocks: seq<Block>, deferred: OutMessage, remaining: set<string>)
    ensures InjectBlocks(blocks, deferred, remaining) == InjectBlocks(Heeded(blocks), deferred, remaining)
  {
    hide InjectResult;
    if blocks != [] {
      var blocks', b := blocks[..|blocks| - 1], blocks[|blocks| - 1];
      InjectHeeds(blocks', deferred, remaining);
      assert (Heeded(blocks') + [b])[..|Heeded(blocks')|] == Heeded(blocks');
      assert Heeded(blocks') + [] == Heeded(blocks');
    }
  }

  // ---- conversations ----

  /** What waits is text. */
  predicate TextWaits(p: Option<Pending>)
  {
    p.Some? ==> p.value.message.content.Text?
  }

  lemma WaitingImages(p: Option<Pending>)
    requires TextWaits(p)
    ensures Gather(ImagesOf, Waiting(p)) == []
  {
    if p.Some? { GatherOne(ImagesOf, p.value.message); }
  }

  lemma TextTurn(p: Option<Pending>, m: OutMessage)
    requires TextWaits(p) && m.content.Text?
    ensures Gather(ImagesOf, Waiting(p) + [m]) == [] && Gather(ImagesOf, [m]) == []
  {
    hide Gather, Waiting;
    WaitingImages(p);
    GatherSnoc(ImagesOf, Waiting(p), m);
    GatherOne(ImagesOf, m);
  }

  /** What a turn taken while results are waited for drops. */
  function DroppedIn(m: Message, p: Option<Pending>): seq<Part>
  {
    if m.role == "user" && m.content.Blocks? && p.Some? && p.value.remaining != {} then
        Gather(DocumentOf, m.content.blocks) else []
  }

  /** The images a conversation loses: those of documents that come while results are waited for. */
  function Dropped(ms: seq<Message>, replay: ReplayMode): seq<Part>
  {
    if ms == [] then []
    else
      var r := Turns(ms[..|ms| - 1], replay);
      Dropped(ms[..|ms| - 1], replay) + (if r.Success? then DroppedIn(ms[|ms| - 1], r.value.pending) else [])
  }

  lemma TurnImages(m: Message, p: Option<Pending>, replay: ReplayMode)
    requires TextWaits(p) && Turn(m, p, replay).Success?
    ensures var t := Turn(m, p, replay).value;
            TextWaits(t.pending) && multiset(Gather(ImagesOf, t.out)) + multiset(DroppedIn(m, p))
                == multiset(MessageImages(m))
  {
    hide Gather, UserMessages, InjectBlocks, InjectedMessages, HasImage, Calls, Deferred, Said, JoinWith, Replayed,
         ResultIDs, Waiting;
    var r := CleanReasoning(m.reasoning);
    if m.role == "assistant" && m.content.Blocks? {
      TextTurn(p, PreMessage(m.content.blocks, r, replay));
    } else if m.content.Blocks? {
      if m.role == "user" {
        UserTurnImages(m.content.blocks, p);
      } else {
        NoImages();
      }
    } else {
      TextTurn(p, if m.content.Str? then StringMessage(m.role, m.content.text, r, replay)
            else OutMessage(m.role, Text(""), [], None, None));
    }
  }

  lemma NoImages()
    ensures Gather(ImagesOf, []) == []
  {
  }

  lemma UserTurnImages(blocks: seq<Block>, p: Option<Pending>)
    requires TextWaits(p) && UserTurn(blocks, p).Success?
    ensures var t := UserTurn(blocks, p).value;
            && TextWaits(t.pending)
            && multiset(Gather(ImagesOf, t.out)) + (if p.Some? && p.value.remaining != {} then
                 multiset(Gather(DocumentOf, blocks)) else multiset{})
               == multiset(Gather(SentImages, blocks))
  {
    hide Gather, UserMessages, InjectBlocks, InjectedMessages, HasImage, Waiting;
    WaitingImages(p);
    UserImages(blocks);
    GatherConcat(ImagesOf, Waiting(p), UserMessages(blocks));
    assert [] + Gather(ImagesOf, UserMessages(blocks)) == Gather(ImagesOf, UserMessages(blocks));
    if p.Some? && p.value.remaining != {} { InjectedImages(blocks, p.value.message, p.value.remaining); }
  }

  lemma {:induction false} TurnsImages(ms: seq<Message>, replay: ReplayMode)
    requires Turns(ms, replay).Success?
    ensures var t := Turns(ms, replay).value;
            TextWaits(t.pending) && multiset(Gather(ImagesOf, t.out)) + multiset(Dropped(ms, replay))
                == multiset(Gather(MessageImages, ms))
  {
    hide Turn, MessageImages, ImagesOf, DroppedIn;
    if ms != [] {
      var ms', m := ms[..|ms| - 1], ms[|ms| - 1];
      var t := Turns(ms', replay).value;
      TurnsImages(ms', replay);
      TurnImages(m, t.pending, replay);
      GatherConcat(ImagesOf, t.out, Turn(m, t.pending, replay).value.out);
    }
  }

  lemma {:induction false} BackfilledImages(ms: seq<OutMessage>, replay: ReplayMode)
    ensures Gather(ImagesOf, BackfilledAll(ms, replay)) == Gather(ImagesOf, ms)
  {
    hide ImagesOf, Gather, Backfilled;
    forall i | 0 <= i < |ms| ensures ImagesOf(BackfilledAll(ms, replay)[i]) == ImagesOf(ms[i]) {
      SameImages(ms[i], replay);
    }
    GatherSame(ImagesOf, BackfilledAll(ms, replay), ms);
  }

  lemma SameImages(m: OutMessage, replay: ReplayMode)
    ensures ImagesOf(Backfilled(m, replay)) == ImagesOf(m)
  {
    hide Gather;
  }

  /** The images sent and the images dropped are the images given, each once. */
  lemma ConvertedImages(ms: seq<Message>, replay: ReplayMode)
    requires Converted(ms, replay).Success?
    ensures var sent, given := multiset(Gather(ImagesOf, Converted(ms, replay).value)),
            multiset(Gather(MessageImages, ms));
            sent + multiset(Dropped(ms, replay)) == given && sent <= given
                && (sent == given <==> Dropped(ms, replay) == [])
  {
    hide Gather, Turns, BackfilledAll, Waiting, Dropped;
    ConvertLaws.ConvertedIs(ms, replay);
    var t := Turns(ms, replay).value;
    TurnsImages(ms, replay);
    WaitingImages(t.pending);
    GatherConcat(ImagesOf, t.out, Waiting(t.pending));
    assert Gather(ImagesOf, t.out) + [] == Gather(ImagesOf, t.out);
    BackfilledImages(t.out + Waiting(t.pending), replay);
    assert |multiset(Dropped(ms, replay))| == |Dropped(ms, replay)|;
  }

  /** The turn is taken while results are waited for. */
  predicate WaitsAt(ms: seq<Message>, k: nat, replay: ReplayMode)
    requires k < |ms|
  {
    var r := Turns(ms[..k], replay);
    r.Success? && r.value.pending.Some? && r.value.pending.value.remaining != {}
  }

  predicate BringsDocument(m: Message)
  {
    m.role == "user" && m.content.Blocks? && exists b <- m.content.blocks :: DocumentOf(b) != []
  }

  /** Nothing is lost if and only if no turn brings an image as a document while results are waited for. */
  lemma {:induction false} NothingDropped(ms: seq<Message>, replay: ReplayMode)
    ensures Dropped(ms, replay) == [] <==> forall k :: 0 <= k < |ms| && WaitsAt(ms, k, replay) ==>
            !BringsDocument(ms[k])
  {
    hide Turns, BringsDocument;
    if ms != [] {
      var ms', n := ms[..|ms| - 1], |ms| - 1;
      NothingDropped(ms', replay);
      forall k | 0 <= k < n ensures WaitsAt(ms, k, replay) <==> WaitsAt(ms', k, replay) {
        assert ms[..k] == ms'[..k];
      }
      assert Turns(ms', replay).Success? ==>
               (DroppedIn(ms[n], Turns(ms', replay).value.pending) == [] <==>
                     !(WaitsAt(ms, n, replay) && BringsDocument(ms[n])))
        by { if Turns(ms', replay).Success? { DroppedTurn(ms[n], Turns(ms', replay).value.pending); } }
    }
  }

  lemma DroppedTurn(m: Message, p: Option<Pending>)
    ensures DroppedIn(m, p) == [] <==> !(p.Some? && p.value.remaining != {} && BringsDocument(m))
  {
    hide DocumentOf;
    if m.content.Blocks? { GatherNothing(m.content.blocks); }
  }

  lemma {:induction false} GatherNothing(blocks: seq<Block>)
    ensures Gather(DocumentOf, blocks) == [] <==> forall b <- blocks :: DocumentOf(b) == []
  {
    hide DocumentOf;
    if blocks != [] {
      var blocks', b := blocks[..|blocks| - 1], blocks[|blocks| - 1];
      GatherNothing(blocks');
      assert blocks == blocks' + [b];
    }
  }

  /** A conversation that loses an image: it comes as a document behind a call whose result has not come. */
  lemma DocumentLost(replay: ReplayMode) returns (ms: seq<Message>)
    ensures |Dropped(ms, replay)| == 1 && Converted(ms, replay).Success?
  {
    hide AssistantMessage, UserMessages, InjectBlocks, InjectedMessages, JoinWith, Converted;
    var use := Block("tool_use", "", "", "c", "f", "{}", NoContent, false, "", None, "", "", "");
    var later := TextBlockOf("later");
    var src := Source("base64", "image/png", "", "AA", "");
    var doc := Block("document", "", "", "", "", "", NoContent, false, "", Some(src), "", "", "");
    var call, turn := Message("assistant", Blocks([use, later]), None), Message("user", Blocks([doc]), None);
    ms := [call, turn];
    CallWaits(use, later, call, replay);
    ImageDocument(doc, src);
    GatherOne(DocumentOf, doc);
    assert ms[..1] == [call];
    NotAnImage(doc);
    LostTurns(ms, call, turn, doc, replay);
  }

  lemma ImageDocument(doc: Block, src: Source)
    requires src == Source("base64", "image/png", "", "AA", "") && doc.typ == "document" && doc.source == Some(src)
    ensures |DocumentOf(doc)| == 1
  {
    hide ResultImages;
    assert Lower("image/png") == "image/png";
  }

  lemma CallWaits(use: Block, later: Block, call: Message, replay: ReplayMode)
    requires use == Block("tool_use", "", "", "c", "f", "{}", NoContent, false, "", None, "", "", "")
             && later == TextBlockOf("later")
    requires call == Message("assistant", Blocks([use, later]), None)
    ensures var r := Turns([call], replay);
            r.Success? && r.value.pending.Some? && r.value.pending.value.remaining == {"c"}
  {
    hide AssistantMessage, PreMessage, CleanReasoning, Deferred, Calls, ResultIDs;
    UseIsFirst(use, later);
    WaitsFor(use, later);
    assert [call][..0] == [] && Turns([], replay) == Success(Turned([], None));
  }

  lemma UseIsFirst(use: Block, later: Block)
    requires use.typ == "tool_use" && later.typ == "text"
    ensures Deferred([use, later]) == [later]
  {
    var bs := [use, later];
    assert bs[0].typ == "tool_use" && bs[1].typ != "tool_use";
    assert IndexFirstToolUse(bs) == 0;
    assert bs[1..] == [later] && [later][..0] == [];
    assert NotCalls([later]) == NotCalls([]) + [later];
  }

  lemma WaitsFor(use: Block, later: Block)
    requires use == Block("tool_use", "", "", "c", "f", "{}", NoContent, false, "", None, "", "", "")
             && later.typ == "text"
    ensures ResultIDs(Calls([use, later])) == {"c"}
  {
    hide TrimSpace;
    var bs := [use, later];
    assert bs[..1] == [use] && [use][..0] == [];
    assert Calls([use]) == Calls([]) + CallOf(use);
    assert Calls(bs) == Calls([use]) + CallOf(later);
    NamedID();
    assert Calls(bs) == CallOf(use) && |CallOf(use)| == 1 && CallOf(use)[0].id == "c";
    assert CallOf(use)[0] in Calls(bs);
  }

  lemma NamedID()
    ensures TrimSpace("c") != ""
  {
    BlankIsAllSpace("c");
    assert !IsSpace("c"[0]);
  }

  lemma NotAnImage(doc: Block)
    requires doc.typ == "document"
    ensures !HasImage([doc])
  {
  }

  lemma LostTurns(ms: seq<Message>, call: Message, turn: Message, doc: Block, replay: ReplayMode)
    requires ms == [call, turn] && turn == Message("user", Blocks([doc]), None) && doc.typ == "document"
             && !HasImage([doc])
    requires var r := Turns([call], replay);
             r.Success? && r.value.pending.Some? && r.value.pending.value.remaining != {}
    requires |DocumentOf(doc)| == 1 && Gather(DocumentOf, [doc]) == DocumentOf(doc)
    ensures |Dropped(ms, replay)| == 1 && Converted(ms, replay).Success?
  {
    hide Turn, InjectBlocks, InjectedMessages, HasImage, DocumentOf, Gather, BackfilledAll;
    assert ms[..1] == [call] && [call][..0] == [];
    assert Dropped([call], replay) == [] by { FirstTurn(call, replay); }
    UserTurnSucceeds(turn, Turns([call], replay).value.pending, replay);
    ConvertLaws.ConvertedIs(ms, replay);
  }

  lemma FirstTurn(call: Message, replay: ReplayMode)
    ensures Dropped([call], replay) == []
  {
    assert [call][..0] == [];
    assert Turns([], replay).value.pending == None;
  }

  lemma UserTurnSucceeds(turn: Message, p: Option<Pending>, replay: ReplayMode)
    requires turn.role == "user" && turn.content.Blocks? && p.Some? && p.value.remaining != {}
             && !HasImage(turn.content.blocks)
    ensures Turn(turn, p, replay).Success?
  {
    hide InjectBlocks, InjectedMessages, HasImage;
  }
}

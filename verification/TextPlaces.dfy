/**
 * Where the texts of a user turn go out: each with its results ahead
 * of it, unless later images pull it (internal/convert/converter.go).
 */
module TextPlaces {
  import opened Sequences
  import opened Chat
  import opened Convert
  import CI = ConvertImages

  /** A text message: the results ahead of it in the turn, and ahead of it as it goes out. */
  datatype Seat = Seat(text: string, home: nat, ahead: nat)

  /** The texts that are messages of their own, those that went out with images, and the results so far. */
  datatype Seats = Seats(alone: seq<Seat>, joined: seq<Seat>, results: nat)

  function Sit(z: Seats, text: seq<string>): Seats
  {
    if text == [] then z else z.(alone := z.alone + [Seat(JoinWith(text, "\n"), z.results, z.results)])
  }

  /** Images take the last text that is alone along, wherever it is. */
  function Pull(z: Seats, images: seq<Part>): Seats
  {
    if images == [] || z.alone == [] then z
    else
      var n := |z.alone| - 1;
      z.(alone := z.alone[..n], joined := z.joined + [z.alone[n].(ahead := z.results)])
  }

  /** A result, or the end of the turn, sends the text and the images that came since the result before. */
  function Settle(z: Seats, s: UserState): Seats
  {
    Pull(Sit(z, s.text), s.images)
  }

  /** An image that comes as a document sends the text ahead of it, too. */
  function Seated(z: Seats, s: UserState, b: Block): Seats
  {
    if CI.DocumentOf(b) != [] then Sit(z, s.text)
    else if IsToolResult(b.typ) then Settle(z, s).(results := z.results + 1)
    else z
  }

  function SeatsIn(blocks: seq<Block>): Seats
  {
    if blocks == [] then Seats([], [], 0)
    else
      Seated(SeatsIn(blocks[..|blocks| - 1]), AddBlocks(blocks[..|blocks| - 1]), blocks[|blocks| - 1])
  }

  function AllSeats(blocks: seq<Block>): Seats
  {
    Settle(SeatsIn(blocks), AddBlocks(blocks))
  }

  // ---- where the messages have their texts ----

  function Results(ms: seq<OutMessage>): nat
  {
    |Gather(CI.ToolOf, ms)|
  }

  /** The text-only user messages, each with the number of tool messages ahead of it. */
  function Lone(ms: seq<OutMessage>): seq<(string, nat)>
  {
    if ms == [] then []
    else
      var m, was := ms[|ms| - 1], ms[..|ms| - 1];
      Lone(was) + (if IsUserText(m) then [(m.content.text, Results(was))] else [])
  }

  /** The user messages of parts that begin with a text. */
  function Joined(ms: seq<OutMessage>): seq<(string, nat)>
  {
    if ms == [] then []
    else
      var m, was := ms[|ms| - 1], ms[..|ms| - 1];
      Joined(was) + (if m.content.Parts? && m.content.parts != [] && m.content.parts[0].TextPart? then
            [(m.content.parts[0].text, Results(was))] else [])
  }

  function Shown(seats: seq<Seat>): (r: seq<(string, nat)>)
    ensures |r| == |seats|
  {
    seq(|seats|, i requires 0 <= i < |seats| => (seats[i].text, seats[i].ahead))
  }

  ghost predicate Matches(z: Seats, ms: seq<OutMessage>)
  {
    Lone(ms) == Shown(z.alone) && Joined(ms) == Shown(z.joined) && Results(ms) == z.results
  }

  lemma Snoc(ms: seq<OutMessage>, m: OutMessage)
    ensures Results(ms + [m]) == Results(ms) + |CI.ToolOf(m)|
    ensures IsUserText(m) ==> Lone(ms + [m]) == Lone(ms) + [(m.content.text, Results(ms))]
    ensures !IsUserText(m) ==> Lone(ms + [m]) == Lone(ms)
    ensures m.content.Text? ==> Joined(ms + [m]) == Joined(ms)
    ensures m.content.Parts? ==>
              Joined(ms + [m]) == Joined(ms) + (if m.content.parts != [] && m.content.parts[0].TextPart? then
                    [(m.content.parts[0].text, Results(ms))] else [])
  {
    assert (ms + [m])[..|ms|] == ms;
    GatherSnoc(CI.ToolOf, ms, m);
  }

  lemma SitMatches(z: Seats, s: UserState)
    requires Matches(z, s.result)
    ensures Matches(Sit(z, s.text), FlushText(s).result)
  {
    hide JoinWith, Lone, Joined, Results;
    if s.text != [] {
      Snoc(s.result, UserText(JoinWith(s.text, "\n")));
    }
  }

  lemma {:induction false} NoneAlone(a: seq<OutMessage>, b: seq<OutMessage>)
    requires forall m <- b :: !IsUserText(m)
    ensures Lone(a + b) == Lone(a)
  {
    hide IsUserText;
    if b == [] {
      assert a + b == a;
    } else {
      var b', m := b[..|b| - 1], b[|b| - 1];
      NoneAlone(a, b');
      assert a + b == (a + b') + [m];
      Snoc(a + b', m);
    }
  }

  /** Taking out a text-only message changes nothing for the messages of parts. */
  lemma {:induction false} Without(a: seq<OutMessage>, m: OutMessage, b: seq<OutMessage>)
    requires IsUserText(m)
    ensures Joined(a + b) == Joined(a + [m] + b) && Results(a + b) == Results(a + [m] + b)
  {
    hide Joined, Results, Lone;
    if b == [] {
      assert a + b == a && a + [m] + b == a + [m];
      Snoc(a, m);
    } else {
      var b', x := b[..|b| - 1], b[|b| - 1];
      Without(a, m, b');
      assert a + b == (a + b') + [x] && a + [m] + b == (a + [m] + b') + [x];
      Snoc(a + b', x);
      Snoc(a + [m] + b', x);
    }
  }

  lemma LastAlone(ms: seq<OutMessage>)
    ensures var i := LastUserText(ms);
            if i == -1 then Lone(ms) == []
            else Lone(ms) == Lone(ms[..i]) + [(ms[i].content.text, Results(ms[..i]))]
                 && Lone(ms[..i] + ms[i + 1..]) == Lone(ms[..i])
                 && Joined(ms[..i] + ms[i + 1..]) == Joined(ms) && Results(ms[..i] + ms[i + 1..]) == Results(ms)
  {
    hide Joined, Results, IsUserText;
    var i := LastUserText(ms);
    if i == -1 {
      NoneAlone([], ms);
      assert [] + ms == ms;
    } else {
      assert ms == ms[..i] + [ms[i]] + ms[i + 1..];
      NoneAlone(ms[..i] + [ms[i]], ms[i + 1..]);
      NoneAlone(ms[..i], ms[i + 1..]);
      Snoc(ms[..i], ms[i]);
      Without(ms[..i], ms[i], ms[i + 1..]);
    }
  }

  lemma PullMatches(z: Seats, ms: seq<OutMessage>, images: seq<Part>)
    requires Matches(z, ms) && images != [] && CI.AllImages(images)
    ensures Matches(Pull(z, images), WithImages(ms, images))
  {
    hide Joined, Results, Lone, LastUserText;
    var i := LastUserText(ms);
    LastAlone(ms);
    if i == -1 {
      assert images[0] in images;
      Snoc(ms, UserParts(images));
    } else {
      var m := UserParts([TextPart(ms[i].content.text)] + images);
      assert m.content.parts[0] == TextPart(ms[i].content.text);
      Snoc(ms[..i] + ms[i + 1..], m);
      PullLast(z, images, Lone(ms[..i]), (ms[i].content.text, Results(ms[..i])));
    }
  }

  lemma PullLast(z: Seats, images: seq<Part>, before: seq<(string, nat)>, last: (string, nat))
    requires images != [] && Shown(z.alone) == before + [last]
    ensures Shown(Pull(z, images).alone) == before
            && Shown(Pull(z, images).joined) == Shown(z.joined) + [(last.0, z.results)]
  {
    var n := |z.alone| - 1;
    assert n == |before| && Shown(z.alone)[n] == last;
    assert Shown(z.alone[..n]) == Shown(z.alone)[..n];
  }

  lemma SettleMatches(z: Seats, s: UserState)
    requires Matches(z, s.result) && CI.AllImages(s.images)
    ensures Matches(Settle(z, s), FlushText(FlushImages(s)).result)
  {
    hide Matches, JoinWith, Sit, WithImages;
    SitMatches(z, s);
    if s.images != [] { PullMatches(Sit(z, s.text), FlushText(s).result, s.images); }
  }

  lemma ResultMatches(z: Seats, ms: seq<OutMessage>, b: Block)
    requires Matches(z, ms)
    ensures Matches(z.(results := z.results + 1), ms + [ResultMessage(b)])
  {
    hide SerializeToolResult;
    Snoc(ms, ResultMessage(b));
  }

  lemma SeatMatches(z: Seats, s: UserState, b: Block)
    requires Matches(z, s.result) && CI.AllImages(s.images)
    ensures Matches(Seated(z, s, b), AddBlock(s, b).result)
  {
    hide Matches, Settle, Sit, ImagePartOf, ResultMessage, ResultImages, FlushText, FlushImages, DataURL, DocumentRef,
         IsImageMime, MediaType;
    SitMatches(z, s);
    SettleMatches(z, s);
    SettleCounts(z, s);
    ResultMatches(Settle(z, s), FlushText(FlushImages(s)).result, b);
  }

  lemma {:induction false} SeatsMatch(blocks: seq<Block>)
    ensures Matches(SeatsIn(blocks), AddBlocks(blocks).result)
  {
    hide Matches, Seated, AddBlock;
    if blocks == [] {
      assert Matches(Seats([], [], 0), []) by { NothingMatches(); }
    } else {
      var blocks', b := blocks[..|blocks| - 1], blocks[|blocks| - 1];
      SeatsMatch(blocks');
      CI.AddBlocksImages(blocks');
      SeatMatches(SeatsIn(blocks'), AddBlocks(blocks'), b);
    }
  }

  lemma NothingMatches()
    ensures Matches(Seats([], [], 0), [])
  {
  }

  lemma SettleCounts(z: Seats, s: UserState)
    ensures Settle(z, s).results == z.results
  {
  }

  /**
   * Of a whole turn: the texts alone and those with images, in order, each with the tool messages ahead of it as its
   * seat says. The images of the results come last, behind a text of their own.
   */
  lemma TextsPlaced(blocks: seq<Block>)
    ensures var z, out, media := AllSeats(blocks), UserMessages(blocks), AddBlocks(blocks).media;
            && Lone(out) == Shown(z.alone) && Results(out) == z.results
            && Joined(out) == Shown(z.joined) + (if media == [] then [] else [(MEDIA_MARKER, z.results)])
  {
    hide Lone, Joined, Results, Settle;
    var s := AddBlocks(blocks);
    SeatsMatch(blocks);
    CI.AddBlocksImages(blocks);
    SettleMatches(SeatsIn(blocks), s);
    var ms := FlushText(FlushImages(s)).result;
    assert Joined(ms) + [] == Joined(ms);
    Snoc(ms, UserParts([TextPart(MEDIA_MARKER)] + s.media));
  }

  // ---- every text has a seat ----

  predicate Ends(b: Block)
  {
    CI.DocumentOf(b) != [] || IsToolResult(b.typ)
  }

  function TextAt(text: seq<string>, results: nat): seq<(string, nat)>
  {
    if text == [] then [] else [(JoinWith(text, "\n"), results)]
  }

  function ResultOf(b: Block): seq<Block>
  {
    if IsToolResult(b.typ) then [b] else []
  }

  /** What a block says: its text, or the line that stands for a document that is no picture. */
  function PieceIn(b: Block): seq<string>
  {
    if b.typ == "text" then [b.text] else if b.typ == "document" && Speaks(b) then [DocumentText(b, b.source.value)]
        else []
  }

  function DocumentText(b: Block, src: Source): string
  {
    var typ := MediaType(src);
    var name := if b.title != "" then b.title else if src.typ == "url" then src.url else "document";
    var data := if src.data != "" then "data:" + typ + ";base64," + src.data else typ;
    "[Document: " + name + (if src.typ == "base64" then " (" + data + ")" else if typ != "" then " (" + typ + ")"
          else "")
    + "]" + (if b.context != "" then "\n" + b.context else "")
  }

  /** What has been said since the last result or image document. */
  function LastPieces(blocks: seq<Block>): seq<string>
  {
    if blocks == [] || Ends(blocks[|blocks| - 1]) then []
    else LastPieces(blocks[..|blocks| - 1]) + PieceIn(blocks[|blocks| - 1])
  }

  lemma DocumentSays(s: UserState, b: Block)
    requires b.typ == "document" && Speaks(b)
    ensures AddDocument(s, b).text == s.text + PieceIn(b)
  {
    hide IsImageMime, MediaType;
    var src, typ := b.source.value, MediaType(b.source.value);
    var name := if b.title != "" then b.title else if src.typ == "url" then src.url else "document";
    var data := if src.data != "" then "data:" + typ + ";base64," + src.data else typ;
    var note := if src.typ == "base64" then " (" + data + ")" else if typ != "" then " (" + typ + ")" else "";
    assert name + " (" + data + ")" == name + (" (" + data + ")");
    assert name + " (" + typ + ")" == name + (" (" + typ + ")");
    DocumentLine(name, note, b.context);
  }

  lemma DocumentLine(name: string, note: string, context: string)
    ensures DocumentRef(name + note, context) ==
            "[Document: " + name + note + "]" + (if context != "" then "\n" + context else "")
    ensures name + "" == name
  {
    assert "[Document: " + (name + note) == "[Document: " + name + note;
    assert "[Document: " + (name + note) + "]\n" + context == "[Document: " + name + note + "]" + ("\n" + context);
    assert "[Document: " + name + note + "]" + "" == "[Document: " + name + note + "]";
  }

  lemma PieceAdded(s: UserState, b: Block)
    ensures AddBlock(s, b).text == if Ends(b) then [] else s.text + PieceIn(b)
  {
    hide ImagePartOf, DataURL, DocumentRef, DocumentText, IsImageMime, MediaType, ResultImages, ResultMessage, JoinWith,
         WithImages;
    assert s.text + [] == s.text;
    if b.typ == "document" && Speaks(b) { DocumentSays(s, b); }
  }

  lemma {:induction false} PiecesAre(blocks: seq<Block>)
    ensures AddBlocks(blocks).text == LastPieces(blocks)
  {
    hide AddBlock, Ends, PieceIn;
    if blocks != [] {
      PiecesAre(blocks[..|blocks| - 1]);
      PieceAdded(AddBlocks(blocks[..|blocks| - 1]), blocks[|blocks| - 1]);
    }
  }

  /**
   * The texts of a turn, joined up to the next result or image document, each with the number of results ahead of it.
   */
  function TextsIn(blocks: seq<Block>): seq<(string, nat)>
  {
    if blocks == [] then []
    else
      var blocks', b := blocks[..|blocks| - 1], blocks[|blocks| - 1];
      TextsIn(blocks') + (if Ends(b) then TextAt(LastPieces(blocks'), |Gather(ResultOf, blocks')|) else [])
  }

  function AllTexts(blocks: seq<Block>): seq<(string, nat)>
  {
    TextsIn(blocks) + TextAt(LastPieces(blocks), |Gather(ResultOf, blocks)|)
  }

  function HomeOf(s: Seat): seq<(string, nat)>
  {
    [(s.text, s.home)]
  }

  ghost function Homes(z: Seats): multiset<(string, nat)>
  {
    multiset(Gather(HomeOf, z.alone)) + multiset(Gather(HomeOf, z.joined))
  }

  lemma SitHomes(z: Seats, text: seq<string>)
    ensures Homes(Sit(z, text)) == Homes(z) + multiset(TextAt(text, z.results))
  {
    hide Gather, JoinWith;
    if text != [] { GatherSnoc(HomeOf, z.alone, Seat(JoinWith(text, "\n"), z.results, z.results)); }
  }

  lemma PullHomes(z: Seats, images: seq<Part>)
    ensures Homes(Pull(z, images)) == Homes(z) && Pull(z, images).results == z.results
  {
    hide Gather;
    if images != [] && z.alone != [] {
      var n := |z.alone| - 1;
      assert z.alone == z.alone[..n] + [z.alone[n]];
      GatherSnoc(HomeOf, z.alone[..n], z.alone[n]);
      GatherSnoc(HomeOf, z.joined, z.alone[n].(ahead := z.results));
    }
  }

  lemma SettleHomes(z: Seats, s: UserState)
    ensures Homes(Settle(z, s)) == Homes(z) + multiset(TextAt(s.text, z.results))
  {
    hide Homes, Sit, Pull, TextAt;
    SitHomes(z, s.text);
    PullHomes(Sit(z, s.text), s.images);
  }

  lemma {:induction false} HomesIn(blocks: seq<Block>)
    ensures Homes(SeatsIn(blocks)) == multiset(TextsIn(blocks)) && SeatsIn(blocks).results == |Gather(ResultOf, blocks)|
  {
    hide Homes, Settle, TextAt, CI.DocumentOf;
    if blocks == [] {
      NobodyHome();
    } else {
      var blocks', b := blocks[..|blocks| - 1], blocks[|blocks| - 1];
      var z, s := SeatsIn(blocks'), AddBlocks(blocks');
      HomesIn(blocks');
      PiecesAre(blocks');
      SitHomes(z, s.text);
      SettleHomes(z, s);
      SettleCounts(z, s);
      OnlyDocuments(b);
      assert Homes(Settle(z, s).(results := z.results + 1)) == Homes(Settle(z, s)) by {
        SameHomes(Settle(z, s), z.results + 1);
      }
      assert TextsIn(blocks') + [] == TextsIn(blocks');
    }
  }

  lemma NobodyHome()
    ensures Homes(Seats([], [], 0)) == multiset{}
  {
  }

  lemma SameHomes(z: Seats, n: nat)
    ensures Homes(z.(results := n)) == Homes(z)
  {
  }

  lemma OnlyDocuments(b: Block)
    ensures CI.DocumentOf(b) != [] ==> !IsToolResult(b.typ)
  {
  }

  /** Every text of the turn has one seat, and its home is where it was. */
  lemma EverySeat(blocks: seq<Block>)
    ensures Homes(AllSeats(blocks)) == multiset(AllTexts(blocks))
  {
    hide Homes, TextAt, Settle;
    HomesIn(blocks);
    PiecesAre(blocks);
    SettleHomes(SeatsIn(blocks), AddBlocks(blocks));
  }

  // ---- which texts move ----

  predicate AtHome(seats: seq<Seat>)
  {
    forall s <- seats :: s.ahead == s.home
  }

  /** The block adds to the turn's text. */
  predicate Speaks(b: Block)
  {
    || b.typ == "text"
    || (b.typ == "document" && b.source.Some?
         && !(b.source.value.typ == "base64" && IsImageMime(MediaType(b.source.value))))
  }

  /** Since the last result there was text. */
  predicate OwnText(blocks: seq<Block>)
  {
    && blocks != [] && !IsToolResult(blocks[|blocks| - 1].typ)
    && (Speaks(blocks[|blocks| - 1]) || OwnText(blocks[..|blocks| - 1]))
  }

  /** Images go out at k that came without text of their own, while an earlier text is still alone. */
  predicate Late(blocks: seq<Block>, k: nat)
    requires k <= |blocks|
  {
    && (k == |blocks| || IsToolResult(blocks[k].typ))
    && AddBlocks(blocks[..k]).images != [] && !OwnText(blocks[..k]) && SeatsIn(blocks[..k]).alone != []
  }

  /**
   * Who is alone is at home, and there was text since the last result if some is pending or sits behind that result.
   */
  ghost predicate Steady(z: Seats, text: seq<string>, own: bool)
  {
    && AtHome(z.alone) && (forall s <- z.alone :: s.home <= z.results)
    && (own <==> text != [] || (z.alone != [] && z.alone[|z.alone| - 1].home == z.results))
  }

  lemma SitSteady(z: Seats, text: seq<string>, own: bool)
    requires Steady(z, text, own)
    ensures Steady(Sit(z, text), [], own) && Sit(z, text).joined == z.joined
  {
    hide JoinWith;
    if text != [] {
      var y := Sit(z, text);
      forall s | s in y.alone ensures s.ahead == s.home && s.home <= z.results {
        assert s in z.alone || s == y.alone[|z.alone|];
      }
    }
  }

  lemma PullSteady(z: Seats, images: seq<Part>, own: bool)
    requires Steady(z, [], own)
    ensures var y := Pull(z, images);
            Steady(y.(results := z.results + 1), [], false)
            && (AtHome(y.joined) <==> AtHome(z.joined) && !(images != [] && z.alone != [] && !own))
  {
    var y := Pull(z, images);
    assert forall s <- y.alone :: s in z.alone;
    if images != [] && z.alone != [] {
      var n := |z.alone| - 1;
      assert z.alone[n] in z.alone;
      var moved := z.alone[n].(ahead := z.results);
      assert y.joined == z.joined + [moved];
      assert moved in y.joined && forall s <- z.joined :: s in y.joined;
    }
  }

  lemma SettleSteady(z: Seats, s: UserState, own: bool)
    requires Steady(z, s.text, own)
    ensures var y := Settle(z, s);
            Steady(y.(results := z.results + 1), [], false)
            && (AtHome(y.joined) <==> AtHome(z.joined) && !(s.images != [] && !own && z.alone != []))
  {
    hide Steady, AtHome;
    SitSteady(z, s.text, own);
    PullSteady(Sit(z, s.text), s.images, own);
    OwnSits(z, s.text, own);
  }

  lemma OwnSits(z: Seats, text: seq<string>, own: bool)
    requires Steady(z, text, own)
    ensures !own ==> Sit(z, text) == z
  {
  }

  /** What a block does that is no result. */
  lemma StepSteady(z: Seats, s: UserState, b: Block, own: bool)
    requires Steady(z, s.text, own) && !IsToolResult(b.typ)
    ensures var y := Seated(z, s, b);
            Steady(y, AddBlock(s, b).text, own || Speaks(b)) && y.joined == z.joined
  {
    hide Sit, ImagePartOf, DataURL, DocumentRef, IsImageMime, MediaType, AtHome, ResultImages;
    SitSteady(z, s.text, own);
  }

  lemma EmptiedBySettling(s: UserState, b: Block)
    requires IsToolResult(b.typ)
    ensures AddBlock(s, b).text == [] && CI.DocumentOf(b) == []
  {
    hide JoinWith, ResultMessage, ResultImages, WithImages;
  }

  lemma {:induction false} SteadyIn(blocks: seq<Block>)
    ensures Steady(SeatsIn(blocks), AddBlocks(blocks).text, OwnText(blocks))
    ensures AtHome(SeatsIn(blocks).joined) <==> forall k :: 0 <= k < |blocks| ==> !Late(blocks, k)
  {
    hide Steady, AtHome, Sit, Settle, AddBlock, CI.DocumentOf, Speaks;
    if blocks == [] {
      assert Steady(Seats([], [], 0), [], false) && AtHome([]) by { NobodySteady(); }
    } else {
      var n := |blocks| - 1;
      var blocks', b := blocks[..n], blocks[n];
      var z, s, own := SeatsIn(blocks'), AddBlocks(blocks'), OwnText(blocks');
      SteadyIn(blocks');
      forall k | 0 <= k < n ensures Late(blocks, k) <==> Late(blocks', k) {
        assert blocks[..k] == blocks'[..k];
      }
      if IsToolResult(b.typ) {
        SettleSteady(z, s, own);
        SettleCounts(z, s);
        EmptiedBySettling(s, b);
        assert Late(blocks, n) <==> s.images != [] && !own && z.alone != [];
      } else {
        StepSteady(z, s, b, own);
      }
    }
  }

  lemma NobodySteady()
    ensures Steady(Seats([], [], 0), [], false) && AtHome([])
  {
  }

  /**
   * No text goes out behind a result it was ahead of if and only if no images go out late; the texts that stay alone
   * are at home in any case.
   */
  lemma TextsStay(blocks: seq<Block>)
    ensures AtHome(AllSeats(blocks).alone)
    ensures AtHome(AllSeats(blocks).joined) <==> forall k :: 0 <= k <= |blocks| ==> !Late(blocks, k)
  {
    hide AtHome, Settle, Late;
    var n := |blocks|;
    var z, s, own := SeatsIn(blocks), AddBlocks(blocks), OwnText(blocks);
    SteadyIn(blocks);
    SettleSteady(z, s, own);
    assert Steady(Settle(z, s).(results := z.results + 1), [], false) ==> AtHome(Settle(z, s).alone);
    assert blocks[..n] == blocks;
    assert Late(blocks, n) <==> s.images != [] && !own && z.alone != [] by { LateAtTheEnd(blocks); }
  }

  lemma LateAtTheEnd(blocks: seq<Block>)
    ensures Late(blocks, |blocks|) <==>
            AddBlocks(blocks).images != [] && !OwnText(blocks)
            && SeatsIn(blocks).alone != []
  {
    hide AddBlocks, OwnText, SeatsIn;
    assert blocks[..|blocks|] == blocks;
  }
}

/**
 * The lesson-content renderer: callout boxes (`buildBoxHtml`) and the
 * dispatch over content blocks by their `type` tag (`buildLessonContentHtml`).
 */
module Blocks {
  import opened Optional
  import opened Markup

  /**
   * One content block as the lesson data gives it: the `type` tag and the
   * fields the renderer reads. A field the block does not carry is the
   * empty string or the empty list. The renderer treats the two alike for
   * `style`, and a box's `intro`, `text` and `items`, which it tests for
   * truthiness; a missing `title`, or `text` of `h3` and `p`, prints as
   * `undefined` there, and a missing `items` of `list_simple` throws, which
   * this model does not follow.
   */
  datatype Block = Block(kind: string, style: string, title: string, text: string, intro: string, items: seq<string>)

  /** The block types the renderer recognises. */
  const Kinds: set<string> := {"h3", "p", "box_simple", "box_list", "steps", "box_alert", "list_simple"}

  datatype Kind = Heading | Paragraph | BoxSimple | BoxList | Steps | BoxAlert | ListSimple | Unrecognized
  {
    /** The `type` tag of this kind of block. */
    function Name(): string
      requires !Unrecognized?
    {
      match this
      case Heading => "h3"
      case Paragraph => "p"
      case BoxSimple => "box_simple"
      case BoxList => "box_list"
      case Steps => "steps"
      case BoxAlert => "box_alert"
      case ListSimple => "list_simple"
    }
  }

  /** The case of the renderer's `switch` a `type` tag selects; any other tag falls to the default. */
  function KindOf(tag: string): (k: Kind)
    ensures k == Unrecognized || k.Name() == tag
  {
    if tag == "h3" then Heading
    else if tag == "p" then Paragraph
    else if tag == "box_simple" then BoxSimple
    else if tag == "box_list" then BoxList
    else if tag == "steps" then Steps
    else if tag == "box_alert" then BoxAlert
    else if tag == "list_simple" then ListSimple
    else Unrecognized
  }

  /** The optional parts of a box contribute their text only when it is non-empty. */
  function Present(s: string): seq<string> {
    if |s| == 0 then [] else [s]
  }

  function BoxPara(s: string): seq<Piece> {
    if |s| == 0 then [] else [Tagged(BoxParaOpen), Text(s), Tagged(ParaClose)]
  }

  /** One `<li>` per item, in item order (the `items.map(...).join("")`). */
  function ItemPieces(items: seq<string>): seq<Piece> {
    if |items| == 0 then []
    else ItemPieces(items[..|items| - 1]) + [Item(items[|items| - 1])]
  }

  function ListPieces(items: seq<string>, listType: ListType): seq<Piece> {
    if |items| == 0 then [] else [Tagged(BoxListOpen(listType))] + ItemPieces(items) + [Tagged(ListClose)]
  }

  /** A bare bulleted list of the items. */
  function SimpleListPieces(items: seq<string>): seq<Piece> {
    [Tagged(SimpleListOpen)] + ItemPieces(items) + [Tagged(ListClose)]
  }

  /** The box body: intro paragraph, list, trailing text; each only when its field is non-empty. */
  function BoxBody(text: string, intro: string, items: seq<string>, listType: ListType): seq<Piece> {
    BoxPara(intro) + ListPieces(items, listType) + BoxPara(text)
  }

  function BoxHead(style: Style, title: string): seq<Piece> {
    [Tagged(BoxOpen(style)), Tagged(BoxTitleOpen), Text(title), Tagged(BoxTitleClose)]
  }

  /** A titled callout box in the colours of `style`. */
  function BoxPieces(style: Style, title: string, text: string, intro: string, items: seq<string>, listType: ListType): (r: seq<Piece>)
    ensures 5 <= |r| && r[0] == Tagged(BoxOpen(style)) && r[|r| - 1] == Tagged(DivClose)
  {
    BoxHead(style, title) + BoxBody(text, intro, items, listType) + [Tagged(DivClose)]
  }

  /** The output of one block, chosen by its type tag; an unknown tag gives nothing. */
  function BlockPieces(b: Block): (r: seq<Piece>)
    ensures |r| == 0 <==> b.kind !in Kinds
  {
    match KindOf(b.kind)
    case Heading => [Tagged(HeadingOpen), Text(b.text), Tagged(HeadingClose)]
    case Paragraph => [Tagged(ParaOpen), Text(b.text), Tagged(ParaClose)]
    case BoxSimple => BoxPieces(ResolveStyle(b.style), b.title, b.text, "", [], ListDisc)
    case BoxList => BoxPieces(ResolveStyle(b.style), b.title, "", b.intro, b.items, ListDisc)
    case Steps => BoxPieces(ResolveStyle(b.style), b.title, "", b.intro, b.items, ListDecimal)
    case BoxAlert => BoxPieces(ResolveStyle("alert"), b.title, b.text, "", [], ListDisc)
    case ListSimple => SimpleListPieces(b.items)
    case Unrecognized => []
  }

  /** The pieces of every element of `xs` in turn. */
  function FlatMap<X>(xs: seq<X>, f: X -> seq<Piece>): seq<Piece> {
    if |xs| == 0 then [] else FlatMap(xs[..|xs| - 1], f) + f(xs[|xs| - 1])
  }

  function RenderBlocks(blocks: seq<Block>): seq<Piece> {
    FlatMap(blocks, BlockPieces)
  }

  /** The lesson content; an absent content array renders nothing. */
  function ContentPieces(content: Option<seq<Block>>): seq<Piece> {
    match content
    case None => []
    case Some(blocks) => RenderBlocks(blocks)
  }

  /** The blocks with a recognised type, in order. */
  function Recognized(blocks: seq<Block>): seq<Block> {
    if |blocks| == 0 then []
    else Recognized(blocks[..|blocks| - 1]) + (if blocks[|blocks| - 1].kind in Kinds then [blocks[|blocks| - 1]] else [])
  }

  // ---------------------------------------------------------------------
  // The type tag and the style table

  /** Each recognised tag selects the case of its own name; every other tag falls to the default. */
  lemma KindOfSpec(tag: string)
    ensures tag in Kinds ==> KindOf(tag).Name() == tag
    ensures tag !in Kinds <==> KindOf(tag) == Unrecognized
  {
  }

  /** Every key of the style table resolves to its own style. */
  lemma StyleRoundTrip(s: Style)
    ensures ResolveStyle(s.Token()) == s
  {
  }

  // ---------------------------------------------------------------------
  // Lists and boxes, as each view sees them

  /** A view that sees each item as its text sees a list as its items, in order. */
  lemma {:induction false} ItemPiecesEcho(items: seq<string>, f: Piece -> seq<string>)
    requires forall s :: f(Item(s)) == [s]
    ensures Collect(ItemPieces(items), f) == items
  {
    if |items| > 0 {
      var init := items[..|items| - 1];
      var last := items[|items| - 1];
      ItemPiecesEcho(init, f);
      Collect1(Item(last), f);
      CollectConcat(ItemPieces(init), [Item(last)], f);
      assert items == init + [last];
    }
  }

  /** A view that sees nothing of an item sees nothing of a whole list. */
  lemma {:induction false} ItemPiecesSilent<T>(items: seq<string>, f: Piece -> seq<T>)
    requires forall s :: f(Item(s)) == []
    ensures Collect(ItemPieces(items), f) == []
  {
    if |items| > 0 {
      var init := items[..|items| - 1];
      ItemPiecesSilent(init, f);
      Collect1(Item(items[|items| - 1]), f);
      CollectConcat(ItemPieces(init), [Item(items[|items| - 1])], f);
    }
  }

  /** Everything a view sees of a list: one `<li>` per item, in order, and nothing else. */
  lemma ItemPiecesShape(items: seq<string>)
    ensures ItemsOf(ItemPieces(items)) == items
    ensures TextsOf(ItemPieces(items)) == items
    ensures ListTypesOf(ItemPieces(items)) == []
    ensures NoQuizControls(ItemPieces(items))
    ensures forall p :: p in ItemPieces(items) ==> p.Item?
  {
    ItemPiecesOnlyItems(items);
    ItemPiecesEcho(items, PieceItems);
    ItemPiecesEcho(items, PieceTexts);
    ItemPiecesSilent(items, PieceListTypes);
    ItemPiecesSilent(items, PieceAnswerIds);
    ItemPiecesSilent(items, PieceToggleIds);
  }

  /** The item list holds `<li>` items only: no tag, no other text. */
  lemma {:induction false} ItemPiecesOnlyItems(items: seq<string>)
    ensures forall p :: p in ItemPieces(items) ==> p.Item?
  {
    if |items| > 0 {
      ItemPiecesOnlyItems(items[..|items| - 1]);
    }
  }

  /** What a view `f` sees of a box paragraph: nothing when its text is empty. */
  lemma ParaCollect<T>(s: string, f: Piece -> seq<T>)
    ensures Collect(BoxPara(s), f)
         == if |s| == 0 then [] else f(Tagged(BoxParaOpen)) + f(Text(s)) + f(Tagged(ParaClose))
  {
    if |s| > 0 {
      Collect3(Tagged(BoxParaOpen), Text(s), Tagged(ParaClose), f);
    }
  }

  /** What a view `f` sees of a box list: nothing when there are no items. */
  lemma ListCollect<T>(items: seq<string>, listType: ListType, f: Piece -> seq<T>)
    ensures Collect(ListPieces(items, listType), f)
         == if |items| == 0 then [] else f(Tagged(BoxListOpen(listType))) + Collect(ItemPieces(items), f) + f(Tagged(ListClose))
  {
    if |items| > 0 {
      Collect1(Tagged(BoxListOpen(listType)), f);
      Collect1(Tagged(ListClose), f);
      CollectConcat3([Tagged(BoxListOpen(listType))], ItemPieces(items), [Tagged(ListClose)], f);
    }
  }

  /** What a view `f` sees of a box body: the intro, the list and the trailing text in turn. */
  lemma BodyCollect<T>(text: string, intro: string, items: seq<string>, listType: ListType, f: Piece -> seq<T>)
    ensures Collect(BoxBody(text, intro, items, listType), f)
         == Collect(BoxPara(intro), f) + Collect(ListPieces(items, listType), f) + Collect(BoxPara(text), f)
  {
    CollectConcat3(BoxPara(intro), ListPieces(items, listType), BoxPara(text), f);
  }

  /** What a view `f` sees of a box: its head, then its body, then the closing `</div>`. */
  lemma BoxCollect<T>(style: Style, title: string, text: string, intro: string, items: seq<string>, listType: ListType, f: Piece -> seq<T>)
    ensures Collect(BoxPieces(style, title, text, intro, items, listType), f)
         == f(Tagged(BoxOpen(style))) + f(Tagged(BoxTitleOpen)) + f(Text(title)) + f(Tagged(BoxTitleClose))
            + Collect(BoxBody(text, intro, items, listType), f) + f(Tagged(DivClose))
  {
    Collect4(Tagged(BoxOpen(style)), Tagged(BoxTitleOpen), Text(title), Tagged(BoxTitleClose), f);
    Collect1(Tagged(DivClose), f);
    CollectConcat3(BoxHead(style, title), BoxBody(text, intro, items, listType), [Tagged(DivClose)], f);
  }

  /** What a view that sees nothing of a box's frame tags sees of the box: its title, then its body. */
  lemma BoxFrame<T>(style: Style, title: string, text: string, intro: string, items: seq<string>, listType: ListType, f: Piece -> seq<T>)
    requires f(Tagged(BoxOpen(style))) == [] && f(Tagged(BoxTitleOpen)) == []
    requires f(Tagged(BoxTitleClose)) == [] && f(Tagged(DivClose)) == []
    ensures Collect(BoxPieces(style, title, text, intro, items, listType), f)
         == f(Text(title)) + Collect(BoxBody(text, intro, items, listType), f)
  {
    BoxCollect(style, title, text, intro, items, listType, f);
    DropEmpties(f(Text(title)), Collect(BoxBody(text, intro, items, listType), f));
  }

  /** The texts of a box paragraph: its text, when there is one. */
  lemma ParaTexts(s: string)
    ensures TextsOf(BoxPara(s)) == Present(s)
  {
    ParaCollect(s, PieceTexts);
  }

  /** A view that sees nothing of a paragraph's tags and text sees nothing of the paragraph. */
  lemma ParaSilent<T>(s: string, f: Piece -> seq<T>)
    requires f(Tagged(BoxParaOpen)) == [] && f(Tagged(ParaClose)) == [] && f(Text(s)) == []
    ensures Collect(BoxPara(s), f) == []
  {
    ParaCollect(s, f);
  }

  /** The texts of a box list: its items. */
  lemma ListTexts(items: seq<string>, listType: ListType)
    ensures TextsOf(ListPieces(items, listType)) == items
  {
    if |items| > 0 {
      ListCollect(items, listType, PieceTexts);
      ItemPiecesEcho(items, PieceTexts);
      EmptyAround(items);
    }
  }

  /** A box list holds its items, one `<li>` each, in order. */
  lemma ListItems(items: seq<string>, listType: ListType)
    ensures ItemsOf(ListPieces(items, listType)) == items
  {
    if |items| > 0 {
      ListCollect(items, listType, PieceItems);
      ItemPiecesEcho(items, PieceItems);
      EmptyAround(items);
    }
  }

  /** A box list is one list of type `listType`, and no list at all without items. */
  lemma ListListTypes(items: seq<string>, listType: ListType)
    ensures ListTypesOf(ListPieces(items, listType)) == if |items| == 0 then [] else [listType]
  {
    if |items| > 0 {
      ListCollect(items, listType, PieceListTypes);
      ItemPiecesSilent(items, PieceListTypes);
    }
  }

  /** A view that sees nothing of a list's tags and items sees nothing of the list. */
  lemma ListSilent<T>(items: seq<string>, listType: ListType, f: Piece -> seq<T>)
    requires f(Tagged(BoxListOpen(listType))) == [] && f(Tagged(ListClose)) == []
    requires forall s :: f(Item(s)) == []
    ensures Collect(ListPieces(items, listType), f) == []
  {
    if |items| > 0 {
      ListCollect(items, listType, f);
      ItemPiecesSilent(items, f);
    }
  }

  /** The box body's texts: the intro, the items and the trailing text, each only when present. */
  lemma BodyTexts(text: string, intro: string, items: seq<string>, listType: ListType)
    ensures TextsOf(BoxBody(text, intro, items, listType)) == Present(intro) + items + Present(text)
  {
    BodyCollect(text, intro, items, listType, PieceTexts);
    ParaTexts(intro);
    ListTexts(items, listType);
    ParaTexts(text);
  }

  /** The box body is empty exactly when the intro, the items and the text all are. */
  lemma EmptyBody(text: string, intro: string, items: seq<string>, listType: ListType)
    ensures |BoxBody(text, intro, items, listType)| == 0 <==> |intro| == 0 && |items| == 0 && |text| == 0
  {
  }

  lemma BoxTexts(style: Style, title: string, text: string, intro: string, items: seq<string>, listType: ListType)
    ensures TextsOf(BoxPieces(style, title, text, intro, items, listType)) == [title] + (Present(intro) + items + Present(text))
  {
    BoxFrame(style, title, text, intro, items, listType, PieceTexts);
    BodyTexts(text, intro, items, listType);
  }

  lemma BodyItems(text: string, intro: string, items: seq<string>, listType: ListType)
    ensures ItemsOf(BoxBody(text, intro, items, listType)) == items
  {
    BodyCollect(text, intro, items, listType, PieceItems);
    ParaSilent(intro, PieceItems);
    ListItems(items, listType);
    ParaSilent(text, PieceItems);
    EmptyAround(items);
  }

  lemma BoxItems(style: Style, title: string, text: string, intro: string, items: seq<string>, listType: ListType)
    ensures ItemsOf(BoxPieces(style, title, text, intro, items, listType)) == items
  {
    BoxFrame(style, title, text, intro, items, listType, PieceItems);
    BodyItems(text, intro, items, listType);
  }

  lemma BodyListTypes(text: string, intro: string, items: seq<string>, listType: ListType)
    ensures ListTypesOf(BoxBody(text, intro, items, listType)) == if |items| == 0 then [] else [listType]
  {
    BodyCollect(text, intro, items, listType, PieceListTypes);
    ParaSilent(intro, PieceListTypes);
    ListListTypes(items, listType);
    ParaSilent(text, PieceListTypes);
    EmptyAround(ListTypesOf(ListPieces(items, listType)));
  }

  lemma BoxListTypes(style: Style, title: string, text: string, intro: string, items: seq<string>, listType: ListType)
    ensures ListTypesOf(BoxPieces(style, title, text, intro, items, listType)) == if |items| == 0 then [] else [listType]
  {
    BoxFrame(style, title, text, intro, items, listType, PieceListTypes);
    BodyListTypes(text, intro, items, listType);
  }

  lemma BodyAnswerIds(text: string, intro: string, items: seq<string>, listType: ListType)
    ensures AnswerIdsIn(BoxBody(text, intro, items, listType)) == []
  {
    BodyCollect(text, intro, items, listType, PieceAnswerIds);
    ParaSilent(intro, PieceAnswerIds);
    ListSilent(items, listType, PieceAnswerIds);
    ParaSilent(text, PieceAnswerIds);
  }

  lemma BodyToggleIds(text: string, intro: string, items: seq<string>, listType: ListType)
    ensures ToggleIdsIn(BoxBody(text, intro, items, listType)) == []
  {
    BodyCollect(text, intro, items, listType, PieceToggleIds);
    ParaSilent(intro, PieceToggleIds);
    ListSilent(items, listType, PieceToggleIds);
    ParaSilent(text, PieceToggleIds);
  }

  lemma BoxNoQuizControls(style: Style, title: string, text: string, intro: string, items: seq<string>, listType: ListType)
    ensures NoQuizControls(BoxPieces(style, title, text, intro, items, listType))
  {
    BoxCollect(style, title, text, intro, items, listType, PieceAnswerIds);
    BoxCollect(style, title, text, intro, items, listType, PieceToggleIds);
    BodyAnswerIds(text, intro, items, listType);
    BodyToggleIds(text, intro, items, listType);
  }

  /** A box without items carries no list markup, whatever its list type. */
  lemma BoxWithoutItemsHasNoList(style: Style, title: string, text: string, intro: string, listType: ListType)
    ensures ListMarkupOf(BoxPieces(style, title, text, intro, [], listType)) == []
  {
    BoxCollect(style, title, text, intro, [], listType, PieceListMarkup);
    BodyCollect(text, intro, [], listType, PieceListMarkup);
    ParaSilent(intro, PieceListMarkup);
    ParaSilent(text, PieceListMarkup);
  }

  /**
   * A box opens with its colours and closes with `</div>`; its texts are the title, then the intro, the items
   * and the trailing text in that order; each item is read back from its own `<li>`; and it has a list of
   * `listType` exactly when there are items.
   */
  lemma BoxShape(style: Style, title: string, text: string, intro: string, items: seq<string>, listType: ListType)
    ensures var r := BoxPieces(style, title, text, intro, items, listType);
      && r[0] == Tagged(BoxOpen(style)) && r[|r| - 1] == Tagged(DivClose)
      && TextsOf(r) == [title] + (Present(intro) + items + Present(text))
      && ItemsOf(r) == items
      && ListTypesOf(r) == (if |items| == 0 then [] else [listType])
      && NoQuizControls(r)
  {
    BoxItems(style, title, text, intro, items, listType);
    BoxTexts(style, title, text, intro, items, listType);
    BoxListTypes(style, title, text, intro, items, listType);
    BoxNoQuizControls(style, title, text, intro, items, listType);
  }

  // ---------------------------------------------------------------------
  // The dispatch by block type

  /** `h3` is a heading showing the block's text, with no list. */
  lemma HeadingShape(b: Block)
    requires b.kind == "h3"
    ensures TextsOf(BlockPieces(b)) == [b.text]
    ensures ListMarkupOf(BlockPieces(b)) == []
  {
    assert BlockPieces(b) == [Tagged(HeadingOpen), Text(b.text), Tagged(HeadingClose)];
    Collect3(Tagged(HeadingOpen), Text(b.text), Tagged(HeadingClose), PieceTexts);
    Collect3(Tagged(HeadingOpen), Text(b.text), Tagged(HeadingClose), PieceListMarkup);
  }

  /** `p` is a paragraph showing the block's text, with no list. */
  lemma ParagraphShape(b: Block)
    requires b.kind == "p"
    ensures TextsOf(BlockPieces(b)) == [b.text]
    ensures ListMarkupOf(BlockPieces(b)) == []
  {
    assert BlockPieces(b) == [Tagged(ParaOpen), Text(b.text), Tagged(ParaClose)];
    Collect3(Tagged(ParaOpen), Text(b.text), Tagged(ParaClose), PieceTexts);
    Collect3(Tagged(ParaOpen), Text(b.text), Tagged(ParaClose), PieceListMarkup);
  }

  /** A block whose type is not recognised contributes nothing. */
  lemma UnknownBlockEmpty(b: Block)
    requires b.kind !in Kinds
    ensures BlockPieces(b) == []
  {
    KindOfSpec(b.kind);
  }

  lemma BoxListDispatch(b: Block)
    requires b.kind == "box_list"
    ensures BlockPieces(b) == BoxPieces(ResolveStyle(b.style), b.title, "", b.intro, b.items, ListDisc)
  {
    assert KindOf(b.kind) == BoxList;
  }

  lemma StepsDispatch(b: Block)
    requires b.kind == "steps"
    ensures BlockPieces(b) == BoxPieces(ResolveStyle(b.style), b.title, "", b.intro, b.items, ListDecimal)
  {
    assert KindOf(b.kind) == Steps;
  }

  /** `box_alert` always takes the alert colours, whatever style the block names. */
  lemma AlertBoxIgnoresStyle(b: Block, style: string)
    requires b.kind == "box_alert"
    ensures BlockPieces(b) == BlockPieces(b.(style := style))
    ensures BlockPieces(b)[0] == Tagged(BoxOpen(Alert))
    ensures TextsOf(BlockPieces(b)) == [b.title] + Present(b.text)
  {
    assert KindOf(b.kind) == BoxAlert;
    assert ResolveStyle("alert") == Alert;
    BoxTexts(Alert, b.title, b.text, "", [], ListDisc);
  }

  /** `box_simple` holds its title and text only, and no list markup at all. */
  lemma SimpleBoxHasNoList(b: Block)
    requires b.kind == "box_simple"
    ensures TextsOf(BlockPieces(b)) == [b.title] + Present(b.text)
    ensures ListMarkupOf(BlockPieces(b)) == []
  {
    assert KindOf(b.kind) == BoxSimple;
    BoxTexts(ResolveStyle(b.style), b.title, b.text, "", [], ListDisc);
    BoxWithoutItemsHasNoList(ResolveStyle(b.style), b.title, b.text, "", ListDisc);
  }

  /** `box_list` and `steps` never show a trailing text, whatever the block carries. */
  lemma ListBoxIgnoresText(b: Block, text: string)
    requires b.kind == "box_list" || b.kind == "steps"
    ensures BlockPieces(b) == BlockPieces(b.(text := text))
    ensures TextsOf(BlockPieces(b)) == [b.title] + (Present(b.intro) + b.items)
    ensures ItemsOf(BlockPieces(b)) == b.items
    ensures ListTypesOf(BlockPieces(b)) == if |b.items| == 0 then [] else [if b.kind == "steps" then ListDecimal else ListDisc]
  {
    var listType := if b.kind == "steps" then ListDecimal else ListDisc;
    if b.kind == "box_list" {
      BoxListDispatch(b);
      BoxListDispatch(b.(text := text));
    } else {
      StepsDispatch(b);
      StepsDispatch(b.(text := text));
    }
    BoxTexts(ResolveStyle(b.style), b.title, "", b.intro, b.items, listType);
    BoxItems(ResolveStyle(b.style), b.title, "", b.intro, b.items, listType);
    BoxListTypes(ResolveStyle(b.style), b.title, "", b.intro, b.items, listType);
  }

  /** A piece with a box list's type set to `listType`; every other piece as it is. */
  function Relist(p: Piece, listType: ListType): seq<Piece> {
    if p.Tagged? && p.tag.BoxListOpen? then [Tagged(BoxListOpen(listType))] else [p]
  }

  function Relister(listType: ListType): Piece -> seq<Piece> {
    p => Relist(p, listType)
  }

  /** Gives every box list in a piece sequence the list type `listType`. */
  function WithListType(ps: seq<Piece>, listType: ListType): seq<Piece> {
    Collect(ps, Relister(listType))
  }

  lemma {:induction false} ItemPiecesRelist(items: seq<string>, listType: ListType)
    ensures WithListType(ItemPieces(items), listType) == ItemPieces(items)
  {
    if |items| > 0 {
      var init := items[..|items| - 1];
      var last := items[|items| - 1];
      ItemPiecesRelist(init, listType);
      Collect1(Item(last), Relister(listType));
      CollectConcat(ItemPieces(init), [Item(last)], Relister(listType));
    }
  }

  lemma ParaRelist(s: string, listType: ListType)
    ensures WithListType(BoxPara(s), listType) == BoxPara(s)
  {
    ParaCollect(s, Relister(listType));
  }

  lemma ListRelist(items: seq<string>, from: ListType, to: ListType)
    ensures WithListType(ListPieces(items, from), to) == ListPieces(items, to)
  {
    if |items| > 0 {
      ListCollect(items, from, Relister(to));
      ItemPiecesRelist(items, to);
    }
  }

  lemma HeadRelist(style: Style, title: string, listType: ListType)
    ensures WithListType(BoxHead(style, title), listType) == BoxHead(style, title)
  {
    Collect4(Tagged(BoxOpen(style)), Tagged(BoxTitleOpen), Text(title), Tagged(BoxTitleClose), Relister(listType));
  }

  lemma BodyRelist(text: string, intro: string, items: seq<string>, from: ListType, to: ListType)
    ensures WithListType(BoxBody(text, intro, items, from), to) == BoxBody(text, intro, items, to)
  {
    BodyCollect(text, intro, items, from, Relister(to));
    ParaRelist(intro, to);
    ListRelist(items, from, to);
    ParaRelist(text, to);
  }

  /** Two boxes that differ only in their list type turn into each other by a change of list type. */
  lemma BoxWithListType(style: Style, title: string, text: string, intro: string, items: seq<string>, from: ListType, to: ListType)
    ensures WithListType(BoxPieces(style, title, text, intro, items, from), to) == BoxPieces(style, title, text, intro, items, to)
  {
    CollectConcat3(BoxHead(style, title), BoxBody(text, intro, items, from), [Tagged(DivClose)], Relister(to));
    HeadRelist(style, title, to);
    BodyRelist(text, intro, items, from, to);
    Collect1(Tagged(DivClose), Relister(to));
  }

  /** `steps` renders exactly as `box_list` does, except that its list is numbered. */
  lemma StepsAreNumberedBoxList(b: Block)
    requires b.kind == "box_list"
    ensures BlockPieces(b.(kind := "steps")) == WithListType(BlockPieces(b), ListDecimal)
    ensures BlockPieces(b) == WithListType(BlockPieces(b.(kind := "steps")), ListDisc)
  {
    BoxListDispatch(b);
    StepsDispatch(b.(kind := "steps"));
    BoxWithListType(ResolveStyle(b.style), b.title, "", b.intro, b.items, ListDisc, ListDecimal);
    BoxWithListType(ResolveStyle(b.style), b.title, "", b.intro, b.items, ListDecimal, ListDisc);
  }

  /** What a view `f` sees of a simple list: the opening `<ul>`, the items, the closing `</ul>`. */
  lemma SimpleListCollect<T>(items: seq<string>, f: Piece -> seq<T>)
    ensures Collect(SimpleListPieces(items), f) == f(Tagged(SimpleListOpen)) + Collect(ItemPieces(items), f) + f(Tagged(ListClose))
  {
    Collect1(Tagged(SimpleListOpen), f);
    Collect1(Tagged(ListClose), f);
    CollectConcat3([Tagged(SimpleListOpen)], ItemPieces(items), [Tagged(ListClose)], f);
  }

  lemma SimpleListItems(items: seq<string>)
    ensures ItemsOf(SimpleListPieces(items)) == items
  {
    SimpleListCollect(items, PieceItems);
    ItemPiecesEcho(items, PieceItems);
    EmptyAround(items);
  }

  lemma SimpleListTexts(items: seq<string>)
    ensures TextsOf(SimpleListPieces(items)) == items
  {
    SimpleListCollect(items, PieceTexts);
    ItemPiecesEcho(items, PieceTexts);
    EmptyAround(items);
  }

  lemma SimpleListListTypes(items: seq<string>)
    ensures ListTypesOf(SimpleListPieces(items)) == []
  {
    SimpleListCollect(items, PieceListTypes);
    ItemPiecesSilent(items, PieceListTypes);
  }

  /** `list_simple` is a bare bulleted list of its items, one `<li>` each, with no box around it. */
  lemma SimpleListShape(b: Block)
    requires b.kind == "list_simple"
    ensures var r := BlockPieces(b);
      && r[0] == Tagged(SimpleListOpen) && r[|r| - 1] == Tagged(ListClose)
      && ItemsOf(r) == b.items && TextsOf(r) == b.items
      && ListTypesOf(r) == []
  {
    assert KindOf(b.kind) == ListSimple;
    SimpleListItems(b.items);
    SimpleListTexts(b.items);
    SimpleListListTypes(b.items);
  }

  // ---------------------------------------------------------------------
  // Lesson content

  lemma {:induction false} FlatMapConcat<X>(a: seq<X>, b: seq<X>, f: X -> seq<Piece>)
    ensures FlatMap(a + b, f) == FlatMap(a, f) + FlatMap(b, f)
    decreases |b|
  {
    if |b| == 0 {
      assert a + b == a;
    } else {
      var b' := b[..|b| - 1];
      assert (a + b)[..|a + b| - 1] == a + b';
      assert (a + b)[|a + b| - 1] == b[|b| - 1];
      FlatMapConcat(a, b', f);
    }
  }

  lemma FlatMap1<X>(x: X, f: X -> seq<Piece>)
    ensures FlatMap([x], f) == f(x)
  {
    assert [x][..0] == [];
  }

  /** Rendering a concatenation of blocks concatenates their renderings. */
  lemma RenderBlocksConcat(a: seq<Block>, b: seq<Block>)
    ensures RenderBlocks(a + b) == RenderBlocks(a) + RenderBlocks(b)
  {
    FlatMapConcat(a, b, BlockPieces);
  }

  /** Blocks of an unknown type can be dropped without changing the output. */
  lemma {:induction false} UnknownBlocksVanish(blocks: seq<Block>)
    ensures RenderBlocks(blocks) == RenderBlocks(Recognized(blocks))
  {
    if |blocks| > 0 {
      var init := blocks[..|blocks| - 1];
      var last := blocks[|blocks| - 1];
      UnknownBlocksVanish(init);
      assert RenderBlocks(blocks) == RenderBlocks(init) + BlockPieces(last);
      if last.kind in Kinds {
        RenderBlocksConcat(Recognized(init), [last]);
        FlatMap1(last, BlockPieces);
      } else {
        UnknownBlockEmpty(last);
        AppendEmpty(RenderBlocks(init));
        AppendEmpty(Recognized(init));
      }
    }
  }

  /** No block renders an interactive quiz control. */
  lemma BlockHasNoQuizControls(b: Block)
    ensures NoQuizControls(BlockPieces(b))
  {
    match KindOf(b.kind)
    case Heading =>
      Collect3(Tagged(HeadingOpen), Text(b.text), Tagged(HeadingClose), PieceAnswerIds);
      Collect3(Tagged(HeadingOpen), Text(b.text), Tagged(HeadingClose), PieceToggleIds);
    case Paragraph =>
      Collect3(Tagged(ParaOpen), Text(b.text), Tagged(ParaClose), PieceAnswerIds);
      Collect3(Tagged(ParaOpen), Text(b.text), Tagged(ParaClose), PieceToggleIds);
    case BoxSimple =>
      BoxNoQuizControls(ResolveStyle(b.style), b.title, b.text, "", [], ListDisc);
    case BoxList =>
      BoxNoQuizControls(ResolveStyle(b.style), b.title, "", b.intro, b.items, ListDisc);
    case Steps =>
      BoxNoQuizControls(ResolveStyle(b.style), b.title, "", b.intro, b.items, ListDecimal);
    case BoxAlert =>
      BoxNoQuizControls(ResolveStyle("alert"), b.title, b.text, "", [], ListDisc);
    case ListSimple =>
      ItemPiecesSilent(b.items, PieceAnswerIds);
      ItemPiecesSilent(b.items, PieceToggleIds);
      SimpleListCollect(b.items, PieceAnswerIds);
      SimpleListCollect(b.items, PieceToggleIds);
    case Unrecognized =>
  }

  lemma {:induction false} RenderBlocksHasNoQuizControls(blocks: seq<Block>)
    ensures NoQuizControls(RenderBlocks(blocks))
  {
    if |blocks| > 0 {
      var last := blocks[|blocks| - 1];
      RenderBlocksHasNoQuizControls(blocks[..|blocks| - 1]);
      BlockHasNoQuizControls(last);
      CollectConcat(RenderBlocks(blocks[..|blocks| - 1]), BlockPieces(last), PieceAnswerIds);
      CollectConcat(RenderBlocks(blocks[..|blocks| - 1]), BlockPieces(last), PieceToggleIds);
    }
  }

  /** The lesson content never contains a quiz toggle or a hidden answer. */
  lemma ContentHasNoQuizControls(content: Option<seq<Block>>)
    ensures NoQuizControls(ContentPieces(content))
  {
    if content.Some? {
      RenderBlocksHasNoQuizControls(content.value);
    }
  }

  // ---------------------------------------------------------------------
  // The string-building code

  lemma BoxParaHtml(s: string)
    ensures Html(BoxPara(s)) == if |s| == 0 then "" else TagHtml(BoxParaOpen) + s + TagHtml(ParaClose)
  {
    if |s| > 0 {
      HtmlThree(Tagged(BoxParaOpen), Text(s), Tagged(ParaClose));
    }
  }

  lemma ListPiecesHtml(items: seq<string>, listType: ListType)
    ensures Html(ListPieces(items, listType))
         == if |items| == 0 then "" else TagHtml(BoxListOpen(listType)) + Html(ItemPieces(items)) + TagHtml(ListClose)
  {
    if |items| > 0 {
      var open := [Tagged(BoxListOpen(listType))];
      var close := [Tagged(ListClose)];
      HtmlOne(open[0]);
      HtmlOne(close[0]);
      HtmlConcat(open, ItemPieces(items));
      HtmlConcat(open + ItemPieces(items), close);
    }
  }

  lemma BoxPiecesHtml(style: Style, title: string, text: string, intro: string, items: seq<string>, listType: ListType)
    ensures Html(BoxPieces(style, title, text, intro, items, listType))
         == TagHtml(BoxOpen(style)) + TagHtml(BoxTitleOpen) + title + TagHtml(BoxTitleClose)
            + (Html(BoxPara(intro)) + Html(ListPieces(items, listType)) + Html(BoxPara(text)))
            + TagHtml(DivClose)
  {
    var head := BoxHead(style, title);
    var tail := [Tagged(DivClose)];
    var body := BoxBody(text, intro, items, listType);
    HtmlFour(head[0], head[1], head[2], head[3]);
    HtmlOne(tail[0]);
    HtmlConcat(BoxPara(intro), ListPieces(items, listType));
    HtmlConcat(BoxPara(intro) + ListPieces(items, listType), BoxPara(text));
    HtmlConcat(head, body);
    HtmlConcat(head + body, tail);
  }

  /** Builds a box's HTML by appending its parts to a string, as `buildBoxHtml` does. */
  method BuildBoxHtml(style: string, title: string, text: string, intro: string, items: seq<string>, listType: ListType)
    returns (html: string)
    ensures html == Html(BoxPieces(ResolveStyle(style), title, text, intro, items, listType))
  {
    var boxClasses := ResolveStyle(style);
    var contentHtml := "";
    BoxParaHtml(intro);
    ListPiecesHtml(items, listType);
    BoxParaHtml(text);
    ghost var x, y, z := Html(BoxPara(intro)), Html(ListPieces(items, listType)), Html(BoxPara(text));
    if |intro| > 0 {
      contentHtml := contentHtml + (TagHtml(BoxParaOpen) + intro + TagHtml(ParaClose));
    }
    assert contentHtml == x;
    if |items| > 0 {
      var itemsHtml := Html(ItemPieces(items));
      contentHtml := contentHtml + TagHtml(BoxListOpen(listType));
      contentHtml := contentHtml + itemsHtml;
      contentHtml := contentHtml + TagHtml(ListClose);
      AppendAssoc(x, TagHtml(BoxListOpen(listType)), itemsHtml, TagHtml(ListClose));
    }
    assert contentHtml == x + y;
    if |text| > 0 {
      contentHtml := contentHtml + (TagHtml(BoxParaOpen) + text + TagHtml(ParaClose));
    }
    assert contentHtml == x + y + z;
    BoxPiecesHtml(boxClasses, title, text, intro, items, listType);
    html := TagHtml(BoxOpen(boxClasses)) + TagHtml(BoxTitleOpen) + title + TagHtml(BoxTitleClose)
      + contentHtml + TagHtml(DivClose);
  }

  /** Renders one content block, the body of the `switch` in `buildLessonContentHtml`. */
  method BuildBlockHtml(item: Block) returns (part: string)
    ensures part == Html(BlockPieces(item))
  {
    match KindOf(item.kind) {
      case Heading =>
        part := TagHtml(HeadingOpen) + item.text + TagHtml(HeadingClose);
        HtmlThree(Tagged(HeadingOpen), Text(item.text), Tagged(HeadingClose));
      case Paragraph =>
        part := TagHtml(ParaOpen) + item.text + TagHtml(ParaClose);
        HtmlThree(Tagged(ParaOpen), Text(item.text), Tagged(ParaClose));
      case BoxSimple =>
        part := BuildBoxHtml(item.style, item.title, item.text, "", [], ListDisc);
      case BoxList =>
        part := BuildBoxHtml(item.style, item.title, "", item.intro, item.items, ListDisc);
      case Steps =>
        part := BuildBoxHtml(item.style, item.title, "", item.intro, item.items, ListDecimal);
      case BoxAlert =>
        part := BuildBoxHtml("alert", item.title, item.text, "", [], ListDisc);
      case ListSimple =>
        part := TagHtml(SimpleListOpen);
        part := part + Html(ItemPieces(item.items));
        part := part + TagHtml(ListClose);
        HtmlOne(Tagged(SimpleListOpen));
        HtmlOne(Tagged(ListClose));
        HtmlConcat([Tagged(SimpleListOpen)], ItemPieces(item.items));
        HtmlConcat([Tagged(SimpleListOpen)] + ItemPieces(item.items), [Tagged(ListClose)]);
      case Unrecognized =>
        part := "";
    }
  }

  /** Builds the lesson content's HTML block by block, as `buildLessonContentHtml` does. */
  method BuildLessonContentHtml(content: Option<seq<Block>>) returns (html: string)
    ensures html == Html(ContentPieces(content))
  {
    html := "";
    if content.None? {
      return;
    }
    var blocks := content.value;
    var i := 0;
    while i < |blocks|
      invariant 0 <= i <= |blocks|
      invariant html == Html(RenderBlocks(blocks[..i]))
    {
      var part := BuildBlockHtml(blocks[i]);
      assert blocks[..i + 1][..i] == blocks[..i];
      HtmlConcat(RenderBlocks(blocks[..i]), BlockPieces(blocks[i]));
      html := html + part;
      i := i + 1;
    }
    assert blocks[..i] == blocks;
  }
}

/**
 * The HTML the viewer assembles, kept as a sequence of pieces: fixed markup
 * from the templates (a closed set of tags, some carrying an interpolated
 * attribute) and verbatim lesson text. `Html` concatenates the pieces into
 * the string the templates produce. Lesson text is inserted unescaped.
 * The indentation and newlines of the template literals, and the HTML
 * comments inside them, are not reproduced.
 */
module Markup {
  import Decimal

  /** The style tokens of the callout boxes, with their class strings. */
  datatype Style = Info | Success | Alert | Warning | Neutral | Special | Accent | Special2 | Special3
  {
    /** The key of this style in the style table. */
    function Token(): string {
      match this
      case Info => "info"
      case Success => "success"
      case Alert => "alert"
      case Warning => "warning"
      case Neutral => "neutral"
      case Special => "special"
      case Accent => "accent"
      case Special2 => "special_2"
      case Special3 => "special_3"
    }

    /** The colour, border and text classes of this style. */
    function Classes(): string {
      match this
      case Info => "bg-blue-100 border-secondary text-primary"
      case Success => "bg-green-100 border-green-500 text-green-700"
      case Alert => "bg-red-100 border-red-500 text-red-700"
      case Warning => "bg-yellow-100 border-yellow-500 text-yellow-800"
      case Neutral => "bg-gray-100 border-gray-500 text-gray-800"
      case Special => "bg-purple-100 border-purple-500 text-purple-800"
      case Accent => "bg-teal-100 border-teal-500 text-teal-800"
      case Special2 => "bg-orange-100 border-orange-500 text-orange-800"
      case Special3 => "bg-indigo-100 border-indigo-500 text-indigo-800"
    }
  }

  const StyleTokens: set<string> :=
    {"info", "success", "alert", "warning", "neutral", "special", "accent", "special_2", "special_3"}

  /** Looks a style token up in the style table; a token that is not a key falls back to `neutral`. */
  function ResolveStyle(token: string): (r: Style)
    ensures r == Neutral || r.Token() == token
  {
    if token == "info" then Info
    else if token == "success" then Success
    else if token == "alert" then Alert
    else if token == "warning" then Warning
    else if token == "special" then Special
    else if token == "accent" then Accent
    else if token == "special_2" then Special2
    else if token == "special_3" then Special3
    else Neutral
  }

  /** A key of the style table resolves to the style it names; any other token resolves to `neutral`. */
  lemma ResolveStyleSpec(token: string)
    ensures token in StyleTokens ==> ResolveStyle(token).Token() == token
    ensures token !in StyleTokens ==> ResolveStyle(token) == Neutral
  {
  }

  /** The list style of a box list (`listType`). */
  datatype ListType = ListDisc | ListDecimal
  {
    function Class(): string {
      match this
      case ListDisc => "list-disc"
      case ListDecimal => "list-decimal"
    }
  }

  const ShowAnswerLabel: string := "عرض الإجابة"
  const HideAnswerLabel: string := "إخفاء الإجابة"

  /** The fixed template markup between two interpolations. */
  datatype Tag =
    // content blocks
    | HeadingOpen | HeadingClose | ParaOpen | ParaClose
    | SimpleListOpen | ListClose
    // callout boxes
    | BoxOpen(style: Style) | BoxTitleOpen | BoxTitleClose | BoxParaOpen
    | BoxListOpen(listType: ListType) | DivClose
    // quiz items
    | QuizItemOpen | PrintQuizItemOpen | QuestionOpen
    | ToggleButton(answerId: string) | AnswerOpen(answerId: string) | PrintAnswerOpen
    // lesson page and its print variant
    | PageOpen(fontSize: nat) | PrintWrapperOpen | LessonTitleOpen | LessonTitleClose
    | GoalBanner | PrintGoalBanner | GoalClose
    | FigureOpen | PrintFigureOpen | ImageAlt | ImageEnd | CaptionOpen | CaptionClose | FigureClose
    | QuizSection | PrintQuizSection | PrintSignature

  function TagHtml(t: Tag): string {
    match t
    case HeadingOpen => "<h3 class=\"text-xl font-bold text-secondary mt-8 mb-4\">"
    case HeadingClose => "</h3>"
    case ParaOpen => "<p class=\"mb-6\">"
    case ParaClose => "</p>"
    case SimpleListOpen => "<ul class=\"list-disc list-inside space-y-2 mt-3 mb-6 pr-4\">"
    case ListClose => "</ul>"
    case BoxOpen(style) => "<div class=\"p-4 rounded-xl border-r-4 my-6 " + style.Classes() + "\">"
    case BoxTitleOpen => "<h4 class=\"font-bold text-xl mb-2\">"
    case BoxTitleClose => "</h4>"
    case BoxParaOpen => "<p>"
    case BoxListOpen(listType) => "<ul class=\"" + listType.Class() + " list-inside space-y-2 mt-3 pr-4\">"
    case DivClose => "</div>"
    case QuizItemOpen => "<div class=\"quiz-item mb-4 p-3 bg-yellow-100 rounded-md shadow-inner\">"
    case PrintQuizItemOpen => "<div class=\"quiz-item mb-4 p-3 bg-yellow-100 rounded-md\">"
    case QuestionOpen => "<p class=\"font-medium text-gray-800\">"
    case ToggleButton(answerId) =>
      "<button onclick=\"toggleAnswer('" + answerId + "', this)\" class=\"quiz-toggle-btn text-sm text-primary font-bold py-1 px-3 mt-2 rounded-md bg-white hover:bg-gray-100 border border-secondary/50 transition\">"
      + ShowAnswerLabel + "</button>"
    case AnswerOpen(answerId) =>
      "<p id=\"" + answerId + "\" class=\"quiz-answer hidden pt-2 border-t border-yellow-300 mt-2 text-sm text-gray-700\">"
    case PrintAnswerOpen =>
      "<p class=\"quiz-answer-print pt-2 border-t border-yellow-300 mt-2 text-sm text-gray-700\"><strong>الإجابة:</strong> "
    case PageOpen(fontSize) => "<div class=\"content-text\" style=\"font-size: " + Decimal.Format(fontSize) + "px;\">"
    case PrintWrapperOpen => "<div class=\"lesson-print-wrapper\">"
    case LessonTitleOpen => "<h2 class=\"text-3xl font-extrabold text-primary mb-6 border-b-4 pb-2 border-secondary/50\">"
    case LessonTitleClose => "</h2>"
    case GoalBanner =>
      "<div class=\"bg-green-50 p-4 rounded-lg border-r-4 border-green-600 mb-6 shadow-sm\">"
      + "<p class=\"font-extrabold text-green-700 flex items-center mb-1\">"
      + "<svg class=\"w-5 h-5 ml-1\" fill=\"none\" stroke=\"currentColor\" viewBox=\"0 0 24 24\" xmlns=\"http://www.w3.org/2000/svg\">"
      + "<path stroke-linecap=\"round\" stroke-linejoin=\"round\" stroke-width=\"2\" d=\"M14 10h4.765a2 2 0 011.789 2.89l-3.5 7A2 2 0 0115.265 21H6.55a2 2 0 01-1.883-1.883l.35-3.513A1.5 1.5 0 005.152 14H12m2-4v9.067l.35.351A1.5 1.5 0 0015.152 21H17M14 10V5a2 2 0 00-2-2h-2a2 2 0 00-2 2v2m0 0v2m0 0v2\"></path></svg>"
      + "🎯 الهدف من الدرس:</p><p class=\"text-gray-700\">"
    case PrintGoalBanner =>
      "<div class=\"bg-green-50 p-4 rounded-lg border-r-4 border-green-600 mb-6\">"
      + "<p class=\"font-extrabold text-green-700\">🎯 الهدف من الدرس:</p><p class=\"text-gray-700\">"
    case GoalClose => "</p></div>"
    case FigureOpen => "<figure class=\"my-6 rounded-lg overflow-hidden shadow-md border border-gray-100\"><img src=\""
    case PrintFigureOpen => "<figure class=\"my-6 rounded-lg overflow-hidden border\"><img src=\""
    case ImageAlt => "\" alt=\""
    case ImageEnd => "\" class=\"w-full h-auto object-cover\">"
    case CaptionOpen => "<figcaption class=\"p-2 text-center text-sm text-gray-500 bg-gray-50 border-t\">صورة توضيحية: "
    case CaptionClose => "</figcaption>"
    case FigureClose => "</figure>"
    case QuizSection =>
      "<h3 class=\"text-2xl font-bold text-secondary mt-10 mb-4 border-t pt-4\">📚 ملخص وأسئلة تقييم ذاتي</h3>"
      + "<div class=\"bg-yellow-50 p-4 rounded-xl border-l-4 border-yellow-500 mb-6 shadow-sm\">"
      + "<p class=\"font-extrabold text-yellow-700 mb-3\">راجع نفسك!</p>"
    case PrintQuizSection =>
      "<h3 class=\"text-2xl font-bold text-secondary mt-10 mb-4 border-t pt-4\">📚 ملخص وأسئلة تقييم ذاتي</h3>"
      + "<div class=\"bg-yellow-50 p-4 rounded-xl border-l-4 border-yellow-500 mb-6\">"
    case PrintSignature =>
      "<div><div style=\"all: unset; display: block; margin-top: 1.5rem; !important; padding-left: 30px; text-align: left; font-size: 14px;\">انتهى الدرس</div>"
      + "<div style=\"all: unset; display: block; margin-top: 1.5rem; !important; padding: 0.75rem; color: #2563eb; text-align: left; font-size: 14px;\">تحياتي هشام محمد</div></div>"
  }

  /**
   * One piece of rendered output: template markup, lesson text inserted
   * verbatim, or a list item (the `<li>${item}</li>` template, its text
   * inserted verbatim).
   */
  datatype Piece = Tagged(tag: Tag) | Text(text: string) | Item(text: string)

  /**
   * What a piece sequence shows through a per-piece view `f`: the views of
   * the pieces, concatenated in order.
   */
  function Collect<T>(ps: seq<Piece>, f: Piece -> seq<T>): seq<T> {
    if |ps| == 0 then [] else Collect(ps[..|ps| - 1], f) + f(ps[|ps| - 1])
  }

  lemma {:induction false} CollectConcat<T>(a: seq<Piece>, b: seq<Piece>, f: Piece -> seq<T>)
    ensures Collect(a + b, f) == Collect(a, f) + Collect(b, f)
    decreases |b|
  {
    if |b| == 0 {
      assert a + b == a;
    } else {
      var b' := b[..|b| - 1];
      assert (a + b)[..|a + b| - 1] == a + b';
      assert (a + b)[|a + b| - 1] == b[|b| - 1];
      CollectConcat(a, b', f);
    }
  }

  lemma Collect1<T>(p: Piece, f: Piece -> seq<T>)
    ensures Collect([p], f) == f(p)
  {
    assert [p][..0] == [];
  }

  lemma CollectConcat3<T>(a: seq<Piece>, b: seq<Piece>, c: seq<Piece>, f: Piece -> seq<T>)
    ensures Collect(a + b + c, f) == Collect(a, f) + Collect(b, f) + Collect(c, f)
  {
    CollectConcat(a, b, f);
    CollectConcat(a + b, c, f);
  }

  lemma Collect3<T>(p: Piece, q: Piece, r: Piece, f: Piece -> seq<T>)
    ensures Collect([p, q, r], f) == f(p) + f(q) + f(r)
  {
    assert [p, q, r] == [p] + [q] + [r];
    CollectConcat([p] + [q], [r], f);
    CollectConcat([p], [q], f);
    Collect1(p, f);
    Collect1(q, f);
    Collect1(r, f);
  }

  lemma Collect4<T>(p: Piece, q: Piece, r: Piece, s: Piece, f: Piece -> seq<T>)
    ensures Collect([p, q, r, s], f) == f(p) + f(q) + f(r) + f(s)
  {
    assert [p, q, r, s] == [p, q, r] + [s];
    CollectConcat([p, q, r], [s], f);
    Collect3(p, q, r, f);
    Collect1(s, f);
  }

  function PieceHtml(p: Piece): string {
    match p
    case Tagged(t) => TagHtml(t)
    case Text(s) => s
    case Item(s) => "<li>" + s + "</li>"
  }

  /** The HTML string of a piece sequence: the pieces' strings, in order. */
  function Html(ps: seq<Piece>): string {
    Collect(ps, PieceHtml)
  }

  lemma HtmlConcat(a: seq<Piece>, b: seq<Piece>)
    ensures Html(a + b) == Html(a) + Html(b)
  {
    CollectConcat(a, b, PieceHtml);
  }

  lemma HtmlOne(p: Piece)
    ensures Html([p]) == PieceHtml(p)
  {
    Collect1(p, PieceHtml);
  }

  // ---------------------------------------------------------------------
  // Sequence algebra: regrouping identities that the proofs below call where
  // the solver does not apply them on its own. They state nothing about the
  // viewer.

  lemma AppendEmpty<T>(s: seq<T>)
    ensures s + [] == s
  {
  }

  /** Empty sequences on either side of `s` add nothing. */
  lemma EmptyAround<T>(s: seq<T>)
    ensures [] + s + [] == s
  {
  }

  /** Empty sequences around and between `head` and `body` add nothing. */
  lemma DropEmpties<T>(head: seq<T>, body: seq<T>)
    ensures [] + [] + head + [] + body + [] == head + body
  {
  }

  /** Regrouping three appends to a string, as a string builder does them. */
  lemma AppendAssoc<T>(a: seq<T>, b: seq<T>, c: seq<T>, d: seq<T>)
    ensures a + b + c + d == a + (b + c + d)
  {
  }

  // ---------------------------------------------------------------------
  // The HTML of short piece sequences

  lemma HtmlThree(p: Piece, q: Piece, r: Piece)
    ensures Html([p, q, r]) == PieceHtml(p) + PieceHtml(q) + PieceHtml(r)
  {
    assert [p, q, r] == [p] + [q] + [r];
    HtmlConcat([p] + [q], [r]);
    HtmlConcat([p], [q]);
    HtmlOne(p);
    HtmlOne(q);
    HtmlOne(r);
  }

  lemma HtmlFour(p: Piece, q: Piece, r: Piece, s: Piece)
    ensures Html([p, q, r, s]) == PieceHtml(p) + PieceHtml(q) + PieceHtml(r) + PieceHtml(s)
  {
    assert [p, q, r, s] == [p, q, r] + [s];
    HtmlConcat([p, q, r], [s]);
    HtmlThree(p, q, r);
    HtmlOne(s);
  }

  function PieceTexts(p: Piece): seq<string> {
    if p.Tagged? then [] else [p.text]
  }

  /** The lesson text of a piece sequence, list items included, in document order. */
  function TextsOf(ps: seq<Piece>): seq<string> {
    Collect(ps, PieceTexts)
  }

  function PieceAnswerIds(p: Piece): seq<string> {
    if p.Tagged? && p.tag.AnswerOpen? then [p.tag.answerId] else []
  }

  /** The ids of the hidden quiz answers in a piece sequence, in order. */
  function AnswerIdsIn(ps: seq<Piece>): seq<string> {
    Collect(ps, PieceAnswerIds)
  }

  function PieceToggleIds(p: Piece): seq<string> {
    if p.Tagged? && p.tag.ToggleButton? then [p.tag.answerId] else []
  }

  /** The answer ids the toggle buttons of a piece sequence act on, in order. */
  function ToggleIdsIn(ps: seq<Piece>): seq<string> {
    Collect(ps, PieceToggleIds)
  }

  /** No piece is an interactive quiz control (a toggle button or a hidden answer). */
  predicate NoQuizControls(ps: seq<Piece>) {
    AnswerIdsIn(ps) == [] && ToggleIdsIn(ps) == []
  }

  /** List markup: a list's opening or closing tag, or a list item. */
  predicate IsListMarkup(p: Piece) {
    p.Item? || (p.Tagged? && (p.tag.BoxListOpen? || p.tag.SimpleListOpen? || p.tag.ListClose?))
  }

  function PieceListMarkup(p: Piece): seq<Piece> {
    if IsListMarkup(p) then [p] else []
  }

  /** The list markup of a piece sequence, in order. */
  function ListMarkupOf(ps: seq<Piece>): seq<Piece> {
    Collect(ps, PieceListMarkup)
  }

  function PieceListTypes(p: Piece): seq<ListType> {
    if p.Tagged? && p.tag.BoxListOpen? then [p.tag.listType] else []
  }

  /** The list types of the box lists in a piece sequence, in order. */
  function ListTypesOf(ps: seq<Piece>): seq<ListType> {
    Collect(ps, PieceListTypes)
  }

  function PieceItems(p: Piece): seq<string> {
    if p.Item? then [p.text] else []
  }

  /** The list items of a piece sequence, in order: one per `<li>`. */
  function ItemsOf(ps: seq<Piece>): seq<string> {
    Collect(ps, PieceItems)
  }

}

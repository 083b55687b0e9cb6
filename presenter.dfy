/**
 * The lesson page and the printable course (the templates of `loadLesson`
 * and `printFullCourse`, their quiz builders) and the viewer's state: the
 * font size, the one-shot print generation, the displayed lesson and the
 * quiz answers it shows.
 */
module Presenter {
  import opened Optional
  import Decimal
  import opened Markup
  import opened Blocks

  datatype QuizItem = QuizItem(q: string, a: string)

  /** A lesson as the lesson data gives it; `content` is absent when the lesson has no content array. */
  datatype Lesson = Lesson(title: string, goal: string, imagePlaceholder: string, content: Option<seq<Block>>, quiz: seq<QuizItem>)

  /**
   * One key of the lesson table with its value, in key order; `lesson` is
   * `None` when the value is falsy.
   */
  datatype Entry = Entry(id: string, lesson: Option<Lesson>)

  // ---------------------------------------------------------------------
  // Looking a lesson up

  /** The value of the first entry with key `id`; `None` when there is no such entry. */
  function FindEntry(entries: seq<Entry>, id: string): (r: Option<Lesson>)
    ensures forall i :: 0 <= i < |entries| && entries[i].id == id && (forall j :: 0 <= j < i ==> entries[j].id != id)
              ==> r == entries[i].lesson
    ensures (forall i :: 0 <= i < |entries| ==> entries[i].id != id) ==> r.None?
    ensures r.Some? ==> exists i :: 0 <= i < |entries| && entries[i].id == id && entries[i].lesson == r
  {
    if |entries| == 0 then None
    else if entries[0].id == id then entries[0].lesson
    else
      var r := FindEntry(entries[1..], id);
      assert forall i :: 1 <= i < |entries| ==> entries[i] == entries[1..][i - 1];
      r
  }

  /** The lesson `loadLesson` shows for `id`: none when the table is undefined or holds no truthy value under `id`. */
  function Lookup(lessons: Option<seq<Entry>>, id: string): Option<Lesson> {
    match lessons
    case None => None
    case Some(entries) => FindEntry(entries, id)
  }

  // ---------------------------------------------------------------------
  // Quiz items

  /** The id of the hidden answer of quiz item `index` of lesson `lessonId`. */
  function AnswerId(lessonId: string, index: nat): string {
    "answer-" + lessonId + "-" + Decimal.Format(index)
  }

  /** Within one lesson, different quiz items get different answer ids. */
  lemma AnswerIdInjective(lessonId: string, i: nat, j: nat)
    requires AnswerId(lessonId, i) == AnswerId(lessonId, j)
    ensures i == j
  {
    var prefix := "answer-" + lessonId + "-";
    assert Decimal.Format(i) == AnswerId(lessonId, i)[|prefix|..];
    assert Decimal.Format(j) == AnswerId(lessonId, j)[|prefix|..];
    Decimal.FormatInjective(i, j);
  }

  /** The answer ids of the first `n` quiz items of a lesson, in order. */
  function AnswerIds(lessonId: string, n: nat): (r: seq<string>)
    ensures |r| == n
    ensures forall i :: 0 <= i < n ==> r[i] == AnswerId(lessonId, i)
  {
    if n == 0 then [] else AnswerIds(lessonId, n - 1) + [AnswerId(lessonId, n - 1)]
  }

  /** No two quiz items of a lesson share an answer id. */
  lemma AnswerIdsDistinct(lessonId: string, n: nat)
    ensures forall i, j :: 0 <= i < j < n ==> AnswerIds(lessonId, n)[i] != AnswerIds(lessonId, n)[j]
  {
    forall i, j | 0 <= i < j < n
      ensures AnswerIds(lessonId, n)[i] != AnswerIds(lessonId, n)[j]
    {
      if AnswerIds(lessonId, n)[i] == AnswerIds(lessonId, n)[j] {
        AnswerIdInjective(lessonId, i, j);
      }
    }
  }

  /** One quiz item on the lesson page: the question, a toggle button, and the answer hidden under `answerId`. */
  function QuizItemPieces(answerId: string, item: QuizItem): seq<Piece> {
    [Tagged(QuizItemOpen), Tagged(QuestionOpen), Text(item.q), Tagged(ParaClose),
     Tagged(ToggleButton(answerId)), Tagged(AnswerOpen(answerId)), Text(item.a), Tagged(ParaClose),
     Tagged(DivClose)]
  }

  /** One quiz item on the printed page: the question and its answer, shown. */
  function PrintQuizItemPieces(item: QuizItem): seq<Piece> {
    [Tagged(PrintQuizItemOpen), Tagged(QuestionOpen), Text(item.q), Tagged(ParaClose),
     Tagged(PrintAnswerOpen), Text(item.a), Tagged(ParaClose), Tagged(DivClose)]
  }

  /** The quiz of lesson `lessonId` on its page, item `i` with answer id `AnswerId(lessonId, i)`. */
  function QuizPieces(lessonId: string, quiz: seq<QuizItem>): (r: seq<Piece>)
    ensures |r| == 9 * |quiz|
    ensures forall i :: 0 <= i < |quiz| ==> r[9 * i..9 * i + 9] == QuizItemPieces(AnswerId(lessonId, i), quiz[i])
  {
    if |quiz| == 0 then []
    else
      var init := QuizPieces(lessonId, quiz[..|quiz| - 1]);
      var r := init + QuizItemPieces(AnswerId(lessonId, |quiz| - 1), quiz[|quiz| - 1]);
      assert forall i :: 0 <= i < |quiz| - 1 ==> r[9 * i..9 * i + 9] == init[9 * i..9 * i + 9];
      r
  }

  /** The quiz on the printed page. */
  function PrintQuizPieces(quiz: seq<QuizItem>): (r: seq<Piece>)
    ensures |r| == 8 * |quiz|
    ensures forall i :: 0 <= i < |quiz| ==> r[8 * i..8 * i + 8] == PrintQuizItemPieces(quiz[i])
  {
    if |quiz| == 0 then []
    else
      var init := PrintQuizPieces(quiz[..|quiz| - 1]);
      var r := init + PrintQuizItemPieces(quiz[|quiz| - 1]);
      assert forall i :: 0 <= i < |quiz| - 1 ==> r[8 * i..8 * i + 8] == init[8 * i..8 * i + 8];
      r
  }

  /** Each question followed by its answer, item by item. */
  function QuizTexts(quiz: seq<QuizItem>): seq<string> {
    if |quiz| == 0 then [] else QuizTexts(quiz[..|quiz| - 1]) + [quiz[|quiz| - 1].q, quiz[|quiz| - 1].a]
  }

  // Regrouping helpers: a quiz item's nine (printed: eight) pieces in groups of four.

  lemma QuizItemSplit(answerId: string, item: QuizItem)
    ensures QuizItemPieces(answerId, item)
         == [Tagged(QuizItemOpen), Tagged(QuestionOpen), Text(item.q), Tagged(ParaClose)]
            + [Tagged(ToggleButton(answerId)), Tagged(AnswerOpen(answerId)), Text(item.a), Tagged(ParaClose)]
            + [Tagged(DivClose)]
  {
  }

  lemma PrintQuizItemSplit(item: QuizItem)
    ensures PrintQuizItemPieces(item)
         == [Tagged(PrintQuizItemOpen), Tagged(QuestionOpen), Text(item.q), Tagged(ParaClose)]
            + [Tagged(PrintAnswerOpen), Text(item.a), Tagged(ParaClose), Tagged(DivClose)]
  {
  }

  /** What a view `f` sees of one quiz item on the lesson page. */
  lemma QuizItemCollect<T>(answerId: string, item: QuizItem, f: Piece -> seq<T>)
    ensures Collect(QuizItemPieces(answerId, item), f)
         == f(Tagged(QuizItemOpen)) + f(Tagged(QuestionOpen)) + f(Text(item.q)) + f(Tagged(ParaClose))
            + (f(Tagged(ToggleButton(answerId))) + f(Tagged(AnswerOpen(answerId))) + f(Text(item.a)) + f(Tagged(ParaClose)))
            + f(Tagged(DivClose))
  {
    QuizItemSplit(answerId, item);
    Collect4(Tagged(QuizItemOpen), Tagged(QuestionOpen), Text(item.q), Tagged(ParaClose), f);
    Collect4(Tagged(ToggleButton(answerId)), Tagged(AnswerOpen(answerId)), Text(item.a), Tagged(ParaClose), f);
    Collect1(Tagged(DivClose), f);
    CollectConcat3([Tagged(QuizItemOpen), Tagged(QuestionOpen), Text(item.q), Tagged(ParaClose)],
                   [Tagged(ToggleButton(answerId)), Tagged(AnswerOpen(answerId)), Text(item.a), Tagged(ParaClose)],
                   [Tagged(DivClose)], f);
  }

  /** What a view `f` sees of one quiz item on the printed page. */
  lemma PrintQuizItemCollect<T>(item: QuizItem, f: Piece -> seq<T>)
    ensures Collect(PrintQuizItemPieces(item), f)
         == f(Tagged(PrintQuizItemOpen)) + f(Tagged(QuestionOpen)) + f(Text(item.q)) + f(Tagged(ParaClose))
            + (f(Tagged(PrintAnswerOpen)) + f(Text(item.a)) + f(Tagged(ParaClose)) + f(Tagged(DivClose)))
  {
    PrintQuizItemSplit(item);
    Collect4(Tagged(PrintQuizItemOpen), Tagged(QuestionOpen), Text(item.q), Tagged(ParaClose), f);
    Collect4(Tagged(PrintAnswerOpen), Text(item.a), Tagged(ParaClose), Tagged(DivClose), f);
    CollectConcat([Tagged(PrintQuizItemOpen), Tagged(QuestionOpen), Text(item.q), Tagged(ParaClose)],
                  [Tagged(PrintAnswerOpen), Text(item.a), Tagged(ParaClose), Tagged(DivClose)], f);
  }

  /** A quiz item on the page hides its answer under `answerId` and its one button toggles that answer. */
  lemma QuizItemControls(answerId: string, item: QuizItem)
    ensures AnswerIdsIn(QuizItemPieces(answerId, item)) == [answerId]
    ensures ToggleIdsIn(QuizItemPieces(answerId, item)) == [answerId]
  {
    QuizItemCollect(answerId, item, PieceAnswerIds);
    QuizItemCollect(answerId, item, PieceToggleIds);
  }

  /** A quiz item shows its question, then its answer. */
  lemma QuizItemTexts(answerId: string, item: QuizItem)
    ensures TextsOf(QuizItemPieces(answerId, item)) == [item.q, item.a]
  {
    QuizItemCollect(answerId, item, PieceTexts);
  }

  /** A printed quiz item shows its question, then its answer. */
  lemma PrintQuizItemTexts(item: QuizItem)
    ensures TextsOf(PrintQuizItemPieces(item)) == [item.q, item.a]
  {
    PrintQuizItemCollect(item, PieceTexts);
  }

  /** A printed quiz item has neither a toggle button nor a hidden answer. */
  lemma PrintQuizItemHasNoQuizControls(item: QuizItem)
    ensures NoQuizControls(PrintQuizItemPieces(item))
  {
    PrintQuizItemCollect(item, PieceAnswerIds);
    PrintQuizItemCollect(item, PieceToggleIds);
  }

  /** The hidden answers of a lesson's quiz carry the ids `answer-<lessonId>-<index>`, in item order. */
  lemma {:induction false} QuizAnswerIds(lessonId: string, quiz: seq<QuizItem>)
    ensures AnswerIdsIn(QuizPieces(lessonId, quiz)) == AnswerIds(lessonId, |quiz|)
    ensures ToggleIdsIn(QuizPieces(lessonId, quiz)) == AnswerIds(lessonId, |quiz|)
  {
    if |quiz| > 0 {
      var init := quiz[..|quiz| - 1];
      var id := AnswerId(lessonId, |quiz| - 1);
      var item := QuizItemPieces(id, quiz[|quiz| - 1]);
      QuizAnswerIds(lessonId, init);
      QuizItemControls(id, quiz[|quiz| - 1]);
      CollectConcat(QuizPieces(lessonId, init), item, PieceAnswerIds);
      CollectConcat(QuizPieces(lessonId, init), item, PieceToggleIds);
    }
  }

  /** The page quiz shows each question and its answer, in item order. */
  lemma {:induction false} QuizPiecesTexts(lessonId: string, quiz: seq<QuizItem>)
    ensures TextsOf(QuizPieces(lessonId, quiz)) == QuizTexts(quiz)
  {
    if |quiz| > 0 {
      var init := quiz[..|quiz| - 1];
      var id := AnswerId(lessonId, |quiz| - 1);
      QuizPiecesTexts(lessonId, init);
      QuizItemTexts(id, quiz[|quiz| - 1]);
      CollectConcat(QuizPieces(lessonId, init), QuizItemPieces(id, quiz[|quiz| - 1]), PieceTexts);
    }
  }

  /** The printed quiz shows each question and its answer, in item order. */
  lemma {:induction false} PrintQuizPiecesTexts(quiz: seq<QuizItem>)
    ensures TextsOf(PrintQuizPieces(quiz)) == QuizTexts(quiz)
  {
    if |quiz| > 0 {
      var init := quiz[..|quiz| - 1];
      PrintQuizPiecesTexts(init);
      PrintQuizItemTexts(quiz[|quiz| - 1]);
      CollectConcat(PrintQuizPieces(init), PrintQuizItemPieces(quiz[|quiz| - 1]), PieceTexts);
    }
  }

  /** The printed quiz holds exactly the questions and answers of the page quiz, in the same order. */
  lemma PrintQuizShowsSameTexts(lessonId: string, quiz: seq<QuizItem>)
    ensures TextsOf(PrintQuizPieces(quiz)) == TextsOf(QuizPieces(lessonId, quiz))
  {
    QuizPiecesTexts(lessonId, quiz);
    PrintQuizPiecesTexts(quiz);
  }

  lemma {:induction false} PrintQuizHasNoQuizControls(quiz: seq<QuizItem>)
    ensures NoQuizControls(PrintQuizPieces(quiz))
  {
    if |quiz| > 0 {
      var init := quiz[..|quiz| - 1];
      PrintQuizHasNoQuizControls(init);
      PrintQuizItemHasNoQuizControls(quiz[|quiz| - 1]);
      CollectConcat(PrintQuizPieces(init), PrintQuizItemPieces(quiz[|quiz| - 1]), PieceAnswerIds);
      CollectConcat(PrintQuizPieces(init), PrintQuizItemPieces(quiz[|quiz| - 1]), PieceToggleIds);
    }
  }

  // ---------------------------------------------------------------------
  // The lesson page and its printed form

  /** The lesson card up to the content: font size, title, goal, illustration with caption. */
  function PageHead(fontSize: nat, lesson: Lesson): seq<Piece> {
    [Tagged(PageOpen(fontSize)), Tagged(LessonTitleOpen), Text(lesson.title), Tagged(LessonTitleClose),
     Tagged(GoalBanner), Text(lesson.goal), Tagged(GoalClose),
     Tagged(FigureOpen), Text(lesson.imagePlaceholder), Tagged(ImageAlt), Text(lesson.title), Tagged(ImageEnd),
     Tagged(CaptionOpen), Text(lesson.title), Tagged(CaptionClose), Tagged(FigureClose)]
  }

  function PageTail(): seq<Piece> {
    [Tagged(DivClose), Tagged(DivClose)]
  }

  /** The inner HTML of the lesson card `loadLesson` shows for lesson `lessonId`. */
  function LessonPagePieces(lessonId: string, lesson: Lesson, fontSize: nat): seq<Piece> {
    PageHead(fontSize, lesson) + ContentPieces(lesson.content) + [Tagged(QuizSection)]
      + QuizPieces(lessonId, lesson.quiz) + PageTail()
  }

  /** A printed lesson up to the content: fixed 16px text, title, goal, illustration without caption. */
  function PrintHead(lesson: Lesson): seq<Piece> {
    [Tagged(PrintWrapperOpen), Tagged(PageOpen(16)), Tagged(LessonTitleOpen), Text(lesson.title), Tagged(LessonTitleClose),
     Tagged(PrintGoalBanner), Text(lesson.goal), Tagged(GoalClose),
     Tagged(PrintFigureOpen), Text(lesson.imagePlaceholder), Tagged(ImageAlt), Text(lesson.title), Tagged(ImageEnd),
     Tagged(FigureClose)]
  }

  function PrintTail(): seq<Piece> {
    [Tagged(DivClose), Tagged(PrintSignature), Tagged(DivClose), Tagged(DivClose)]
  }

  /** One lesson of the printable course. */
  function PrintLessonPieces(lesson: Lesson): seq<Piece> {
    PrintHead(lesson) + ContentPieces(lesson.content) + [Tagged(PrintQuizSection)]
      + PrintQuizPieces(lesson.quiz) + PrintTail()
  }

  function EntryPieces(entry: Entry): seq<Piece> {
    match entry.lesson
    case None => []
    case Some(lesson) => PrintLessonPieces(lesson)
  }

  /** The printable course: every lesson of the table in key order; a falsy value is skipped. */
  function CoursePieces(entries: seq<Entry>): seq<Piece> {
    FlatMap(entries, EntryPieces)
  }

  /** A view that sees nothing of any piece of `ps` sees nothing of `ps`. */
  lemma {:induction false} CollectSilent<T>(ps: seq<Piece>, f: Piece -> seq<T>)
    requires forall p :: p in ps ==> f(p) == []
    ensures Collect(ps, f) == []
  {
    if |ps| > 0 {
      assert forall p :: p in ps[..|ps| - 1] ==> p in ps;
      CollectSilent(ps[..|ps| - 1], f);
    }
  }

  /** The frame of the lesson page around its quiz has no quiz controls. */
  lemma PageFrameHasNoQuizControls(fontSize: nat, lesson: Lesson)
    ensures NoQuizControls(PageHead(fontSize, lesson)) && NoQuizControls(PageTail())
  {
    CollectSilent(PageHead(fontSize, lesson), PieceAnswerIds);
    CollectSilent(PageHead(fontSize, lesson), PieceToggleIds);
    CollectSilent(PageTail(), PieceAnswerIds);
    CollectSilent(PageTail(), PieceToggleIds);
  }

  lemma PrintFrameHasNoQuizControls(lesson: Lesson)
    ensures NoQuizControls(PrintHead(lesson)) && NoQuizControls(PrintTail())
  {
    CollectSilent(PrintHead(lesson), PieceAnswerIds);
    CollectSilent(PrintHead(lesson), PieceToggleIds);
    CollectSilent(PrintTail(), PieceAnswerIds);
    CollectSilent(PrintTail(), PieceToggleIds);
  }

  /** What a view `f` sees of a page made of a head, the content, a quiz heading, a quiz and a tail. */
  lemma PageCollect<T>(head: seq<Piece>, content: seq<Piece>, section: Piece, quiz: seq<Piece>, tail: seq<Piece>, f: Piece -> seq<T>)
    ensures Collect(head + content + [section] + quiz + tail, f)
         == Collect(head, f) + Collect(content, f) + f(section) + Collect(quiz, f) + Collect(tail, f)
  {
    CollectConcat3(head, content, [section], f);
    Collect1(section, f);
    CollectConcat3(head + content + [section], quiz, tail, f);
  }

  /** The hidden answers of a lesson page: item `i`'s under `answer-<lessonId>-<i>`, and no others. */
  lemma LessonPageAnswerIds(lessonId: string, lesson: Lesson, fontSize: nat)
    ensures AnswerIdsIn(LessonPagePieces(lessonId, lesson, fontSize)) == AnswerIds(lessonId, |lesson.quiz|)
  {
    PageFrameHasNoQuizControls(fontSize, lesson);
    ContentHasNoQuizControls(lesson.content);
    QuizAnswerIds(lessonId, lesson.quiz);
    QuizOnly(PageHead(fontSize, lesson), ContentPieces(lesson.content), Tagged(QuizSection),
             QuizPieces(lessonId, lesson.quiz), PageTail(), PieceAnswerIds);
  }

  /** The buttons of a lesson page: item `i`'s toggles `answer-<lessonId>-<i>`, so every button finds its answer. */
  lemma LessonPageToggleIds(lessonId: string, lesson: Lesson, fontSize: nat)
    ensures ToggleIdsIn(LessonPagePieces(lessonId, lesson, fontSize)) == AnswerIds(lessonId, |lesson.quiz|)
  {
    PageFrameHasNoQuizControls(fontSize, lesson);
    ContentHasNoQuizControls(lesson.content);
    QuizAnswerIds(lessonId, lesson.quiz);
    QuizOnly(PageHead(fontSize, lesson), ContentPieces(lesson.content), Tagged(QuizSection),
             QuizPieces(lessonId, lesson.quiz), PageTail(), PieceToggleIds);
  }

  /** A view that sees only the quiz of a page sees of the page what it sees of the quiz. */
  lemma QuizOnly<T>(head: seq<Piece>, content: seq<Piece>, section: Piece, quiz: seq<Piece>, tail: seq<Piece>, f: Piece -> seq<T>)
    requires Collect(head, f) == [] && Collect(content, f) == [] && f(section) == [] && Collect(tail, f) == []
    ensures Collect(head + content + [section] + quiz + tail, f) == Collect(quiz, f)
  {
    PageCollect(head, content, section, quiz, tail, f);
  }

  /** A printed lesson has neither toggle buttons nor hidden answers. */
  lemma PrintLessonHasNoQuizControls(lesson: Lesson)
    ensures NoQuizControls(PrintLessonPieces(lesson))
  {
    var head, content, quiz, tail := PrintHead(lesson), ContentPieces(lesson.content), PrintQuizPieces(lesson.quiz), PrintTail();
    PrintFrameHasNoQuizControls(lesson);
    ContentHasNoQuizControls(lesson.content);
    PrintQuizHasNoQuizControls(lesson.quiz);
    PageCollect(head, content, Tagged(PrintQuizSection), quiz, tail, PieceAnswerIds);
    PageCollect(head, content, Tagged(PrintQuizSection), quiz, tail, PieceToggleIds);
  }

  /** The printable course has neither toggle buttons nor hidden answers. */
  lemma {:induction false} CourseHasNoQuizControls(entries: seq<Entry>)
    ensures NoQuizControls(CoursePieces(entries))
  {
    if |entries| > 0 {
      var init := entries[..|entries| - 1];
      var last := entries[|entries| - 1];
      CourseHasNoQuizControls(init);
      if last.lesson.Some? {
        PrintLessonHasNoQuizControls(last.lesson.value);
      }
      CollectConcat(CoursePieces(init), EntryPieces(last), PieceAnswerIds);
      CollectConcat(CoursePieces(init), EntryPieces(last), PieceToggleIds);
    }
  }

  /** Printing a lesson table in two parts prints the first part's lessons, then the second's. */
  lemma CourseConcat(a: seq<Entry>, b: seq<Entry>)
    ensures CoursePieces(a + b) == CoursePieces(a) + CoursePieces(b)
  {
    FlatMapConcat(a, b, EntryPieces);
  }

  /** The lessons of the table that are present, in key order. */
  function PresentLessons(entries: seq<Entry>): seq<Lesson> {
    if |entries| == 0 then []
    else
      var last := entries[|entries| - 1];
      PresentLessons(entries[..|entries| - 1]) + (if last.lesson.Some? then [last.lesson.value] else [])
  }

  /** The printable course is the printed form of each present lesson, one after another in key order. */
  lemma {:induction false} CourseSkipsMissing(entries: seq<Entry>)
    ensures CoursePieces(entries) == FlatMap(PresentLessons(entries), PrintLessonPieces)
  {
    if |entries| > 0 {
      var init := entries[..|entries| - 1];
      var last := entries[|entries| - 1];
      CourseSkipsMissing(init);
      assert entries == init + [last];
      CourseConcat(init, [last]);
      FlatMap1(last, EntryPieces);
      if last.lesson.Some? {
        FlatMapConcat(PresentLessons(init), [last.lesson.value], PrintLessonPieces);
        FlatMap1(last.lesson.value, PrintLessonPieces);
      } else {
        AppendEmpty(CoursePieces(init));
        AppendEmpty(PresentLessons(init));
      }
    }
  }

  // ---------------------------------------------------------------------
  // The string-building code

  lemma PageHtml(head: seq<Piece>, content: seq<Piece>, section: Piece, quiz: seq<Piece>, tail: seq<Piece>)
    ensures Html(head + content + [section] + quiz + tail)
         == Html(head) + Html(content) + PieceHtml(section) + Html(quiz) + Html(tail)
  {
    PageCollect(head, content, section, quiz, tail, PieceHtml);
  }

  /** Builds the lesson card's inner HTML, as the template in `loadLesson` does. */
  method BuildLessonPageHtml(lessonId: string, lesson: Lesson, fontSize: nat) returns (html: string)
    ensures html == Html(LessonPagePieces(lessonId, lesson, fontSize))
  {
    var quizHtml := Html(QuizPieces(lessonId, lesson.quiz));
    var mainContentHtml := BuildLessonContentHtml(lesson.content);
    html := Html(PageHead(fontSize, lesson)) + mainContentHtml + TagHtml(QuizSection) + quizHtml + Html(PageTail());
    PageHtml(PageHead(fontSize, lesson), ContentPieces(lesson.content), Tagged(QuizSection), QuizPieces(lessonId, lesson.quiz), PageTail());
  }

  /** Builds one lesson of the printable course, as the loop body of `printFullCourse` does. */
  method BuildPrintLessonHtml(lesson: Lesson) returns (html: string)
    ensures html == Html(PrintLessonPieces(lesson))
  {
    var quizHtml := Html(PrintQuizPieces(lesson.quiz));
    var mainContentHtml := BuildLessonContentHtml(lesson.content);
    html := Html(PrintHead(lesson)) + mainContentHtml + TagHtml(PrintQuizSection) + quizHtml + Html(PrintTail());
    PageHtml(PrintHead(lesson), ContentPieces(lesson.content), Tagged(PrintQuizSection), PrintQuizPieces(lesson.quiz), PrintTail());
  }

  /** Builds the printable course lesson by lesson, skipping falsy values. */
  method BuildCourseHtml(entries: seq<Entry>) returns (html: string)
    ensures html == Html(CoursePieces(entries))
  {
    html := "";
    var i := 0;
    while i < |entries|
      invariant 0 <= i <= |entries|
      invariant html == Html(CoursePieces(entries[..i]))
    {
      assert entries[..i + 1][..i] == entries[..i];
      HtmlConcat(CoursePieces(entries[..i]), EntryPieces(entries[i]));
      if entries[i].lesson.Some? {
        var part := BuildPrintLessonHtml(entries[i].lesson.value);
        html := html + part;
      }
      i := i + 1;
    }
    assert entries[..i] == entries;
  }

  // ---------------------------------------------------------------------
  // Font size

  const MinFontSize: int := 14
  const MaxFontSize: int := 24
  const InitialFontSize: int := 16

  function Distance(x: int, y: int): nat {
    if x < y then y - x else x - y
  }

  /** The font size limits applied to a requested size. */
  function Clamp(size: int): (r: int)
    ensures MinFontSize <= r <= MaxFontSize
    ensures MinFontSize <= size <= MaxFontSize ==> r == size
    ensures forall y :: MinFontSize <= y <= MaxFontSize ==> Distance(r, size) <= Distance(y, size)
  {
    if size < MinFontSize then MinFontSize else if size > MaxFontSize then MaxFontSize else size
  }

  /** Clamping twice is clamping once; a step past either limit stays at that limit. */
  lemma ClampIdempotent(size: int)
    ensures Clamp(Clamp(size)) == Clamp(size)
    ensures Clamp(MaxFontSize + 2) == MaxFontSize && Clamp(MinFontSize - 2) == MinFontSize
  {
  }

  // ---------------------------------------------------------------------
  // Quiz answers

  /** A hidden answer on the page and the label of the button that toggles it. */
  datatype Answer = Answer(hidden: bool, buttonLabel: string)

  function LabelFor(hidden: bool): string {
    if hidden then ShowAnswerLabel else HideAnswerLabel
  }

  /** The button offers to show a hidden answer and to hide a shown one. */
  predicate Consistent(a: Answer) {
    a.buttonLabel == LabelFor(a.hidden)
  }

  /** One press of the toggle button. */
  function Toggled(a: Answer): (r: Answer)
    ensures r.hidden == !a.hidden && Consistent(r)
  {
    if a.hidden then Answer(false, HideAnswerLabel) else Answer(true, ShowAnswerLabel)
  }

  /** Pressing the button twice restores both the answer's visibility and the label. */
  lemma ToggleTwice(a: Answer)
    requires Consistent(a)
    ensures Toggled(Toggled(a)) == a
  {
  }

  /** The answers of a freshly shown lesson page: every one hidden, every button offering to show it. */
  function InitialAnswers(lessonId: string, n: nat): (r: map<string, Answer>)
    ensures forall i :: 0 <= i < n ==> AnswerId(lessonId, i) in r && r[AnswerId(lessonId, i)] == Answer(true, ShowAnswerLabel)
    ensures forall id :: id in r ==> id in AnswerIds(lessonId, n) && Consistent(r[id])
  {
    map id | id in AnswerIds(lessonId, n) :: Answer(true, ShowAnswerLabel)
  }

  // ---------------------------------------------------------------------
  // The viewer's state

  class Presenter {
    /** The current font size of the lesson text, in pixels. */
    var fontSize: int
    /** Whether the printable course has been generated. */
    var generated: bool
    /** The lesson card as rendered when its lesson was loaded; the answers' current state is in `answers`. */
    var display: string
    /** The content of the print container. */
    var printHtml: string
    /** The quiz answers on display, by id. */
    var answers: map<string, Answer>
    /** Whether the page has a print container. */
    const hasPrintContainer: bool

    predicate Valid()
      reads this
    {
      && MinFontSize <= fontSize <= MaxFontSize
      && (forall id :: id in answers ==> Consistent(answers[id]))
      && (generated ==> hasPrintContainer)
    }

    constructor (hasPrintContainer: bool)
      ensures Valid()
      ensures fontSize == InitialFontSize && !generated
      ensures display == "" && printHtml == "" && answers == map[]
      ensures this.hasPrintContainer == hasPrintContainer
    {
      fontSize := InitialFontSize;
      generated := false;
      display := "";
      printHtml := "";
      answers := map[];
      this.hasPrintContainer := hasPrintContainer;
    }

    /** Steps the font size by `delta`, then pulls it back within the limits. */
    method ChangeFontSize(delta: int)
      requires Valid()
      modifies this
      ensures Valid()
      ensures fontSize == Clamp(old(fontSize) + delta)
      ensures generated == old(generated) && display == old(display) && printHtml == old(printHtml) && answers == old(answers)
    {
      fontSize := fontSize + delta;
      if fontSize < MinFontSize {
        fontSize := MinFontSize;
      }
      if fontSize > MaxFontSize {
        fontSize := MaxFontSize;
      }
    }

    /**
     * Shows lesson `lessonId`: its page replaces the one on display, with
     * every answer hidden. When the table is undefined or has no truthy
     * value under `lessonId`, nothing changes.
     */
    method LoadLesson(lessons: Option<seq<Entry>>, lessonId: string)
      requires Valid()
      modifies this
      ensures Valid()
      ensures Lookup(lessons, lessonId).None? ==> unchanged(this)
      ensures Lookup(lessons, lessonId).Some? ==>
        && display == Html(LessonPagePieces(lessonId, Lookup(lessons, lessonId).value, fontSize))
        && answers == InitialAnswers(lessonId, |Lookup(lessons, lessonId).value.quiz|)
      ensures fontSize == old(fontSize) && generated == old(generated) && printHtml == old(printHtml)
    {
      var found := Lookup(lessons, lessonId);
      if found.None? {
        return;
      }
      var lesson := found.value;
      display := BuildLessonPageHtml(lessonId, lesson, fontSize);
      answers := InitialAnswers(lessonId, |lesson.quiz|);
    }

    /** Presses the toggle button of answer `answerId`; an id with no answer on display changes nothing. */
    method ToggleAnswer(answerId: string)
      requires Valid()
      modifies this
      ensures Valid()
      ensures answerId !in old(answers) ==> unchanged(this)
      ensures answerId in old(answers) ==> answers == old(answers)[answerId := Toggled(old(answers)[answerId])]
      ensures fontSize == old(fontSize) && generated == old(generated) && display == old(display) && printHtml == old(printHtml)
    {
      if answerId !in answers {
        return;
      }
      var answer := answers[answerId];
      if answer.hidden {
        answers := answers[answerId := Answer(false, HideAnswerLabel)];
      } else {
        answers := answers[answerId := Answer(true, ShowAnswerLabel)];
      }
    }

    /**
     * Generates the printable course, once: without a print container, once
     * generated, or with the lesson table undefined, nothing changes.
     */
    method PrintFullCourse(lessons: Option<seq<Entry>>)
      requires Valid()
      modifies this
      ensures Valid()
      ensures !hasPrintContainer || old(generated) || lessons.None? ==> unchanged(this)
      ensures hasPrintContainer && !old(generated) && lessons.Some? ==>
        && generated
        && printHtml == Html(CoursePieces(lessons.value))
      ensures fontSize == old(fontSize) && display == old(display) && answers == old(answers)
      ensures old(generated) ==> generated
    {
      if !hasPrintContainer {
        return;
      }
      if !generated {
        if lessons.None? {
          return;
        }
        var fullCourseHtml := BuildCourseHtml(lessons.value);
        printHtml := fullCourseHtml;
        generated := true;
      }
    }
  }

  /** Every answer on a freshly loaded page is one the page hides, and every hidden answer is tracked. */
  lemma LoadedAnswersMatchPage(lessonId: string, lesson: Lesson, fontSize: nat)
    ensures forall id :: id in InitialAnswers(lessonId, |lesson.quiz|) <==> id in AnswerIdsIn(LessonPagePieces(lessonId, lesson, fontSize))
  {
    LessonPageAnswerIds(lessonId, lesson, fontSize);
  }

  /** Two presses of the same button on a page restore the page's answers. */
  lemma ToggleTwiceRestoresAnswers(answers: map<string, Answer>, answerId: string)
    requires answerId in answers && Consistent(answers[answerId])
    ensures answers[answerId := Toggled(answers[answerId])][answerId := Toggled(Toggled(answers[answerId]))] == answers
  {
    ToggleTwice(answers[answerId]);
  }
}

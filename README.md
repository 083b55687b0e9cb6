# Arabic course viewer — a Dafny model of `logic.js`

The viewer shows an Arabic-language course one lesson at a time in the
browser. The lesson data is a table of lessons keyed by id, loaded from a
separate data file. Each lesson has a title, a goal, an illustration, a list
of content blocks and a self-review quiz. `logic.js` turns that data into
HTML:

- `buildBoxHtml` renders a coloured callout box;
- `buildLessonContentHtml` dispatches over the content blocks by their `type`
  tag (`h3`, `p`, `box_simple`, `box_list`, `steps`, `box_alert`,
  `list_simple`);
- `loadLesson` builds the lesson card with its quiz, whose answers start
  hidden behind a "show answer" button;
- `changeFontSize` changes the reading size within 14–24 px;
- `toggleAnswer` shows and hides one answer;
- `printFullCourse` renders every lesson once into a print container.

This project models that core in five modules:

- `Optional` — the `Option` type for values that may be absent (the lesson
  table, a lesson's content, a falsy lesson entry).
- `Decimal` — writing a quiz index in decimal inside an answer id, with its
  parse-back round trip.
- `Markup` — the output as a sequence of *pieces*. A piece is one of:
  - a fixed markup tag from a closed set, whose literal HTML is `TagHtml`;
  - a verbatim text inserted into the template;
  - an `<li>` item.

  `Html` flattens the pieces to the string the code builds. Structural views
  read back the same sequence: the inserted texts, the list items, the list
  types, the answer and toggle ids, and the list markup. These facts are
  about the template's own markup: an inserted text is one opaque piece,
  so markup inside it is not seen by them. The module also holds the box colour table and its
  fall-back to `neutral`.
- `Blocks` — the `Block` record, the box and block renderers, the content
  renderer, and the string-building methods, proved equal to `Html` of the
  pieces.
- `Presenter` — the lesson table as an ordered list of entries, answer ids,
  the quiz, the lesson page and the print page, the font-size clamp, and the
  answer toggle. The `Presenter` class holds the page state that the event
  handlers update in place:
  - `fontSize` (the `currentFontSize` global);
  - `generated` (the `isFullCourseGenerated` flag);
  - the displayed lesson HTML;
  - the print container's HTML;
  - the state of each answer on the page.

The string-building code is modelled by methods, each proved to produce
`Html` of the corresponding piece sequence:

- `BuildLessonContentHtml` and `BuildCourseHtml` are `while` loops that
  append to a string, as the `for…of` and `for…in` loops of the code do;
- `BuildBoxHtml`, `BuildBlockHtml`, `BuildLessonPageHtml` and
  `BuildPrintLessonHtml` append their parts in straight-line code, as
  `buildBoxHtml`, one `switch` branch and the two page templates do.

Every `.map(…).join("")` of the code (the box list items, the `list_simple`
items, the lesson quiz and the printed quiz) is taken as the piece function
itself (`ItemPieces`, `QuizPieces`, `PrintQuizPieces`). The methods use `Html`
of it rather than building it step by step. The properties themselves are
proved as lemmas about the piece sequences.

The HTML text is modelled without the template's indentation whitespace and
`<!-- -->` comments. A field that a block does not carry is the empty string
or the empty list. The code treats these alike for the fields it tests for
truthiness: a box's `intro`, `text` and `items`, the `style` (missing falls
back to `neutral`) and the lesson's `content`. The other fields are inserted
without a test; see "## Left out".

Behaviour of the code worth noting:

- headings and paragraphs are the block types `h3` and `p`;
- the printed lesson has no caption, no shadows, no goal icon and no
  "راجع نفسك!" line, is generated at 16 px, and ends with the two-line signature;
- `loadLesson` does not check that the lesson container exists;
- `changeFontSize` accepts any delta, not only ±2;
- a falsy lesson value counts as missing (`loadLesson`) or is skipped
  (`printFullCourse`).

## Model

| member | source | states |
|---|---|---|
| Decimal.Format | logic.js:150 | the index written in an answer id is a non-empty string of decimal digits, one digit exactly when the index is below 10, with no leading zero unless the index is 0 |
| Decimal.FormatRoundTrip | logic.js:150 | reading back the decimal digits of an index gives the index |
| Decimal.FormatInjective | logic.js:150 | distinct indices are written differently |
| Markup.TagHtml | logic.js:51-388 | the literal markup of every fixed tag of the templates; its use is stated by `BoxParaHtml`, `ListPiecesHtml`, `BoxPiecesHtml` and the `Build…Html` methods |
| Markup.ResolveStyle | logic.js:31-42 | the colour-table lookup is total: its result is either the style named by the token or the `neutral` fall-back, whose colour classes `Style.Classes` are the table's values at logic.js:32-40 (exactly which is stated by `ResolveStyleSpec` and `StyleRoundTrip`) |
| Markup.ResolveStyleSpec | logic.js:31-42 | a style name in the colour table selects its own entry; any other name (including a missing one) falls back to `neutral` |
| Blocks.StyleRoundTrip | logic.js:31-42 | every colour-table entry is selected by its own name |
| Blocks.KindOf | logic.js:79-118 | the `switch` on the `type` tag selects either the case named by the tag or the default (exactly which is stated by `KindOfSpec`) |
| Blocks.KindOfSpec | logic.js:79-118 | a recognised `type` tag selects the case of that name; exactly the unrecognised tags fall to the default case |
| Blocks.ItemPieces | logic.js:52 | the `items.map(…).join("")` of the box list (and of `list_simple`, logic.js:114), one `<li>` per item; stated by `ItemPiecesShape` and `ItemPiecesRelist` |
| Blocks.ItemPiecesShape | logic.js:52 | the item list yields one `<li>` per item in item order, reading back exactly the items; every piece is an `<li>` item, so there is no other tag (no nested list) and no quiz control |
| Blocks.BoxPara | logic.js:46-48 | an optional box paragraph (intro, and likewise text at logic.js:56-58); stated by `ParaTexts`, `BoxParaHtml` and `ParaRelist` |
| Blocks.ParaTexts | logic.js:46-48 | an optional paragraph contributes its text exactly when the text is non-empty |
| Blocks.ListPieces | logic.js:50-54 | the box list; stated by `ListTexts`, `ListItems`, `ListListTypes`, `ListRelist` and `ListPiecesHtml` |
| Blocks.ListTexts | logic.js:50-54 | the box list's texts are exactly its items |
| Blocks.ListItems | logic.js:50-54 | the box list's `<li>` items are exactly its items |
| Blocks.ListListTypes | logic.js:50-54 | a box has a list, of the requested type, exactly when it has items |
| Blocks.BoxBody | logic.js:44-58 | the box body, intro then list then text; stated by `EmptyBody`, `BodyTexts`, `BodyItems`, `BodyListTypes` and `BodyRelist` |
| Blocks.EmptyBody | logic.js:44-58 | the box body is empty exactly when the intro, the items and the text are all empty |
| Blocks.BodyTexts | logic.js:44-58 | the box body's texts are the intro, the items and the trailing text, in that order, each only when present |
| Blocks.BodyItems | logic.js:44-58 | the box body's `<li>` items are exactly the items |
| Blocks.BodyListTypes | logic.js:44-58 | the box body holds one list of the requested type exactly when there are items |
| Blocks.BodyAnswerIds | logic.js:44-58 | a box body carries no answer paragraph |
| Blocks.BodyToggleIds | logic.js:44-58 | a box body carries no answer button |
| Blocks.BoxTexts | logic.js:44-66 | a box's texts are its title followed by its body texts |
| Blocks.BoxItems | logic.js:44-66 | a box's `<li>` items are exactly its items |
| Blocks.BoxListTypes | logic.js:44-66 | a box has a list of the requested type exactly when it has items |
| Blocks.BoxNoQuizControls | logic.js:44-66 | a box carries no quiz control |
| Blocks.BoxWithoutItemsHasNoList | logic.js:50-54 | a box without items has no list markup at all |
| Blocks.BoxPieces | logic.js:22-67 | a box has at least five pieces, opens with the `div` of its colour classes and ends with `</div>`, with the `h4` title of `BoxHead` first; its texts, items and list are stated by `BoxShape`, its HTML by `BoxPiecesHtml` and `BuildBoxHtml` |
| Blocks.BoxShape | logic.js:22-66 | a box opens with its colour classes and closes its `div`; its texts are the title, intro, items and text in order; its items read back exactly; it has a list of the given type exactly when it has items; it has no quiz control |
| Blocks.BlockPieces | logic.js:79-119 | a block renders to nothing exactly when its `type` tag is not recognised; the per-tag behaviour is stated by `HeadingShape`, `ParagraphShape`, `AlertBoxIgnoresStyle`, `SimpleBoxHasNoList`, `ListBoxIgnoresText`, `StepsAreNumberedBoxList` and `SimpleListShape` |
| Blocks.HeadingShape | logic.js:80-82 | `h3` shows exactly the block's text and has no list |
| Blocks.ParagraphShape | logic.js:83-85 | `p` shows exactly the block's text and has no list |
| Blocks.UnknownBlockEmpty | logic.js:117-118 | a block with an unrecognised type contributes nothing |
| Blocks.AlertBoxIgnoresStyle | logic.js:109-111 | `box_alert` always uses the alert colours whatever the block's style, and shows the title and the text |
| Blocks.SimpleBoxHasNoList | logic.js:86-88 | `box_simple` shows the title and the text and has no list |
| Blocks.ListBoxIgnoresText | logic.js:89-108 | `box_list` and `steps` ignore the block's `text`; their texts are the title, intro and items; their items read back exactly; their list is bulleted for `box_list` and numbered for `steps` |
| Blocks.ItemPiecesRelist | logic.js:52 | changing the list type leaves the items untouched |
| Blocks.ParaRelist | logic.js:46-48 | changing the list type leaves a paragraph untouched |
| Blocks.ListRelist | logic.js:51 | changing the list type of a list gives the same list with the new type |
| Blocks.HeadRelist | logic.js:62-63 | changing the list type leaves the box heading untouched |
| Blocks.BodyRelist | logic.js:44-58 | changing the list type of a box body changes only the list's type |
| Blocks.BoxWithListType | logic.js:22-66 | two boxes that differ only in list type differ exactly by the list type on the `ul` |
| Blocks.StepsAreNumberedBoxList | logic.js:89-108 | a `steps` block is the `box_list` block with its list made numbered, and conversely |
| Blocks.SimpleListPieces | logic.js:113-115 | the bare bulleted list of `list_simple`; stated by `SimpleListItems`, `SimpleListTexts`, `SimpleListListTypes` and `SimpleListShape` |
| Blocks.SimpleListItems | logic.js:112-116 | `list_simple` yields one `<li>` per item, in order |
| Blocks.SimpleListTexts | logic.js:112-116 | `list_simple` shows exactly its items |
| Blocks.SimpleListListTypes | logic.js:112-116 | `list_simple` carries no box list type |
| Blocks.SimpleListShape | logic.js:112-116 | `list_simple` is a bare `ul` with no box around it, whose items and texts are exactly the block's items |
| Blocks.RenderBlocks | logic.js:78-120 | the content array's blocks rendered in turn; stated by `RenderBlocksConcat`, `UnknownBlocksVanish` and `RenderBlocksHasNoQuizControls` |
| Blocks.ContentPieces | logic.js:74-122 | an absent content array renders nothing, a present one renders its blocks; stated by `ContentHasNoQuizControls` and `BuildLessonContentHtml` |
| Blocks.RenderBlocksConcat | logic.js:78-120 | rendering a content array is rendering each part in turn and concatenating |
| Blocks.UnknownBlocksVanish | logic.js:117-118 | rendering a content array equals rendering only its blocks of recognised type |
| Blocks.BlockHasNoQuizControls | logic.js:79-119 | no content block carries a quiz answer or button |
| Blocks.RenderBlocksHasNoQuizControls | logic.js:78-120 | a content array carries no quiz answer or button |
| Blocks.ContentHasNoQuizControls | logic.js:74-122 | the lesson content, absent or present, carries no quiz answer or button |
| Blocks.BoxParaHtml | logic.js:46-48 | an optional paragraph is `<p>text</p>` when the text is non-empty and nothing otherwise |
| Blocks.ListPiecesHtml | logic.js:50-54 | a box list is the opening `ul` with its type, the `<li>` items and `</ul>`, and nothing without items |
| Blocks.BoxPiecesHtml | logic.js:61-66 | a box is the opening `div`, the `h4` title, the intro, list and text parts in that order, and the closing `div` |
| Blocks.BuildBoxHtml | logic.js:22-67 | appending the box's parts builds the box's HTML for the style's colour-table entry |
| Blocks.BuildBlockHtml | logic.js:79-119 | the HTML one content block appends is that of its pieces |
| Blocks.BuildLessonContentHtml | logic.js:74-122 | the loop over the content array builds the content's HTML; an absent array gives the empty string |
| Presenter.FindEntry | logic.js:133-138 | lookup returns the first entry with the id; none when no entry has it; any lesson returned belongs to an entry with that id |
| Presenter.Lookup | logic.js:133-138 | an undefined lesson table finds nothing; otherwise the lookup is `FindEntry` |
| Presenter.AnswerId | logic.js:150 | the id `answer-<lesson>-<index>` of a quiz answer; stated by `AnswerIdInjective` and `AnswerIdsDistinct` |
| Presenter.AnswerIdInjective | logic.js:150 | two quiz items of one lesson never share an answer id |
| Presenter.AnswerIds | logic.js:148-150 | there is one answer id per quiz item, the i-th being `answer-<lesson>-<i>` |
| Presenter.AnswerIdsDistinct | logic.js:148-150 | a lesson's answer ids are pairwise distinct |
| Presenter.QuizItemPieces | logic.js:151-167 | one quiz item on the card: question, button, hidden answer; stated by `QuizItemControls` and `QuizItemTexts` |
| Presenter.QuizItemControls | logic.js:151-167 | each quiz item carries exactly one answer paragraph and one button, both for its own answer id |
| Presenter.QuizItemTexts | logic.js:151-167 | each quiz item shows its question and then its answer |
| Presenter.PrintQuizItemPieces | logic.js:341-349 | one printed quiz item: question and shown answer; stated by `PrintQuizItemTexts` and `PrintQuizItemHasNoQuizControls` |
| Presenter.PrintQuizItemTexts | logic.js:341-349 | each printed quiz item shows its question and then its answer |
| Presenter.PrintQuizItemHasNoQuizControls | logic.js:341-349 | a printed quiz item has no button and no hidden answer |
| Presenter.QuizPieces | logic.js:148-169 | the lesson quiz is one nine-piece item per quiz entry, the i-th entry's item at position i with answer id `AnswerId(lesson, i)` |
| Presenter.PrintQuizPieces | logic.js:339-351 | the printed quiz is one eight-piece item per quiz entry, the i-th entry's item at position i |
| Presenter.QuizAnswerIds | logic.js:148-169 | the lesson quiz's answer paragraphs and buttons carry exactly the lesson's answer ids, in quiz order |
| Presenter.QuizPiecesTexts | logic.js:148-169 | the lesson quiz shows every question and answer, in quiz order |
| Presenter.PrintQuizPiecesTexts | logic.js:339-351 | the printed quiz shows every question and answer, in quiz order |
| Presenter.PrintQuizShowsSameTexts | logic.js:339-351 | the printed quiz shows the same texts as the on-screen quiz |
| Presenter.PrintQuizHasNoQuizControls | logic.js:339-351 | the printed quiz has no button and no hidden answer |
| Presenter.PageHead | logic.js:176-192 | the card's opening: font-size `div`, title, goal banner and figure with caption; stated by `PageFrameHasNoQuizControls` |
| Presenter.PrintHead | logic.js:359-370 | the printed lesson's opening: wrapper, 16 px `div`, title, goal banner and figure without caption; stated by `PrintFrameHasNoQuizControls` |
| Presenter.LessonPagePieces | logic.js:175-203 | the lesson card: head, content, quiz section, quiz and closing tags (`PageTail`, logic.js:202-203); stated by `LessonPageAnswerIds`, `LessonPageToggleIds`, `LoadedAnswersMatchPage` and `BuildLessonPageHtml` |
| Presenter.PrintLessonPieces | logic.js:358-388 | the printed lesson: head, content, quiz section, printed quiz and signature (`PrintTail`, logic.js:377-387); stated by `PrintLessonHasNoQuizControls` and `BuildPrintLessonHtml` |
| Presenter.PageFrameHasNoQuizControls | logic.js:175-203 | the lesson card outside the content and the quiz has no quiz control |
| Presenter.PrintFrameHasNoQuizControls | logic.js:358-388 | the printed lesson outside the content and the quiz has no quiz control |
| Presenter.LessonPageAnswerIds | logic.js:148-203 | the lesson card's answer paragraphs carry exactly the lesson's answer ids |
| Presenter.LessonPageToggleIds | logic.js:148-203 | the lesson card's buttons address exactly the lesson's answer ids, in order, so every button finds its answer |
| Presenter.PrintLessonHasNoQuizControls | logic.js:339-388 | a printed lesson has no button and no hidden answer |
| Presenter.CourseHasNoQuizControls | logic.js:334-389 | the printed course has no button and no hidden answer |
| Presenter.EntryPieces | logic.js:335-336 | a falsy entry prints nothing, a present lesson prints its printed lesson; stated by `CourseSkipsMissing` |
| Presenter.CoursePieces | logic.js:334-389 | the printed course, entry by entry in key order; stated by `CourseConcat`, `CourseSkipsMissing` and `CourseHasNoQuizControls` |
| Presenter.CourseConcat | logic.js:334-389 | printing a lesson table in two parts gives the first part's printed lessons followed by the second's |
| Presenter.CourseSkipsMissing | logic.js:334-389 | the printed course is the printed form of each present lesson, in key order; falsy entries contribute nothing |
| Presenter.BuildLessonPageHtml | logic.js:147-204 | the lesson card built from the quiz, content and template strings is the HTML of the lesson page |
| Presenter.BuildPrintLessonHtml | logic.js:339-388 | the printed lesson built from its strings is the HTML of the print page |
| Presenter.BuildCourseHtml | logic.js:326-389 | the loop over the lesson table builds the printed course's HTML, skipping falsy entries |
| Presenter.Clamp | logic.js:237-239 | the font size stays within 14–24, is unchanged inside that range, and is the nearest size in range otherwise |
| Presenter.ClampIdempotent | logic.js:237-239 | clamping twice is clamping once; stepping above the maximum or below the minimum stays at the bound |
| Presenter.Toggled | logic.js:255-261 | toggling flips whether the answer is hidden and gives the button the label `LabelFor` of the new state (logic.js:257, 260) |
| Presenter.ToggleTwice | logic.js:255-261 | toggling an answer twice restores it |
| Presenter.InitialAnswers | logic.js:148-165 | a freshly loaded lesson has one hidden answer per quiz item, each with the "show answer" label, and no others |
| Presenter.Presenter.constructor | logic.js:2-6 | the page starts at 16 px, with nothing generated, displayed or printed, and no answers |
| Presenter.Presenter.ChangeFontSize | logic.js:236-240 | the font size becomes the clamped sum; nothing else changes |
| Presenter.Presenter.LoadLesson | logic.js:132-207 | an unknown id or a missing table changes nothing; otherwise the display is the lesson card at the current size, and the answers are that lesson's, all hidden |
| Presenter.Presenter.ToggleAnswer | logic.js:251-262 | an id with no answer on the page changes nothing; otherwise only that answer is toggled |
| Presenter.Presenter.PrintFullCourse | logic.js:316-394 | with no print container, once generated, or with no lesson table nothing changes; otherwise the container receives the printed course and the flag is set, so generation happens at most once |
| Presenter.LoadedAnswersMatchPage | logic.js:148-207 | the answers the page tracks after loading are exactly the answer paragraphs on the card |
| Presenter.ToggleTwiceRestoresAnswers | logic.js:251-262 | two toggles of the same answer restore the page's answers |

## Left out

- DOM glue is not modelled. This covers the card's entrance animation (the 10 ms timer), the active sidebar link classes, closing the sidebar on narrow screens, scrolling to the top, and console logging.
- Restyling the existing `.content-text` elements in `changeFontSize` (logic.js:241-243) is not modelled. The model keeps only the size, which a newly loaded card uses. The restyle also reaches the printed lessons in the print container (logic.js:360), which are generated only once at 16 px. After a size change made once the course has been generated, the real container therefore shows the new size (a course generated after a change is written at 16 px and stays so until the next change), while `printHtml`, which `ChangeFontSize` leaves as it is, still records 16 px.
- `toggleSidebar` is DOM class manipulation and is not modelled. Its check tests the class `translatex-0` but adds `translate-x-0`.
- `printContent`, the `window.print()` calls, the `printing-lesson`/`printing-course` body classes, `onafterprint` and the 1000 ms fall-back timers are browser printing, not modelled. `PrintFullCourse` models only the generation of the print container.
- The `onload` handler that builds the sidebar from the lesson table and loads the first lesson is not modelled.
- The template's indentation whitespace and HTML comments are not modelled. `Html` gives the markup and texts in the same order.
- Texts are inserted unescaped, as in the code, and are not modelled further. A quote in a lesson id would break the button's `onclick` attribute. Markup inside a text (say `<li>x</li>`, or a paragraph with an `answer-` id) becomes part of the real page, but the views see the text as one piece; so `BoxNoQuizControls`, `ContentHasNoQuizControls`, `LessonPageAnswerIds`, `LoadedAnswersMatchPage` and the other view lemmas speak about the template's own markup only.
- A missing field renders as the word `undefined` in the code wherever it is inserted without a truthiness test. The model treats a missing field as the empty string. This changes the box title, the `h3` and `p` texts, the lesson's `title`, `goal` and `imagePlaceholder` (logic.js:177, 185, 190-191, 361, 365, 369), and a quiz item's `q` and `a` (logic.js:153, 164, 343, 346). A missing `quiz` (logic.js:148, 339) or a missing `items` of a `list_simple` block (logic.js:114) would throw in the code; the model always has a list. A `null` element of the content array or of the quiz would also throw, at `item.type` or `q.q` (logic.js:79, 153, 343); the model's `Block` and `QuizItem` records always carry their fields.
- Lookups of names inherited by every JavaScript object (such as `constructor`) in the colour table and the lesson table are not modelled.
- The lesson table is an ordered list of entries in the order a `for…in` loop visits the keys. Lookup takes the first entry with the id, and ids are expected to be distinct.
- A missing lesson container in `loadLesson` would throw in the code. The model always has the container.
- Presenter.Presenter.ChangeFontSize: the delta is an integer; fractional sizes are not modelled.
- Presenter.Presenter.LoadLesson: `display` is the lesson card as rendered when it was loaded, without the wrapper `div` and its animation classes. Later answer toggles and font-size changes alter the real page, but the model records them in `answers` and `fontSize`, not in `display`.
- Presenter.Presenter.ToggleAnswer: the button's text in the page template has surrounding whitespace; after a toggle it is the bare label. The model records only the label.

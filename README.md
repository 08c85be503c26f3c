# Persona and business-model-canvas dashboard, modelled in Dafny

The repository is a small browser application with two parts.

- A chat-style **persona wizard** (`PersonaCreator` in `script.js`) asks six fixed
  questions in a chain: industry, role, age range, goals, challenges and
  decision making. It stores each answer under its step. After the last answer it
  builds a persona record; goals and challenges are split on commas and trimmed.
  A **template catalog** (`personaTemplates` in `templates.js`) can pre-fill the
  answers instead.
- A **dashboard** (`DashboardManager` in `dashboard.js`) keeps a list of personas and
  a list of business model canvases. It lets the user open, edit, save,
  duplicate and delete canvases, add and delete personas, and reorder canvas items
  by drag and drop. It also shows counts, completeness statistics and the five
  newest personas.

The model keeps the source's own form.

- The wizard and the dashboard manager are classes whose fields the methods update
  (`Wizard.PersonaCreator`, `Dashboard.DashboardManager`).
- Each method is proved against a pure function: `Wizard.Answer`,
  `Dashboard.SaveCanvas`, `Dashboard.Duplicate` and the others. The properties the
  source promises are then proved about those functions as lemmas.
- The string operations the core depends on are modelled over `seq<char>`:
  `String.prototype.trim` with ECMAScript's full white-space set, `split` on one
  character and `Array.prototype.join`. So are `filter` and `findIndex`.

Modules (one per file): `Wrappers` (Option), `Seqs` (filter, findIndex), `Strings`
(trim, split, join), `Templates` (the persona template catalog), `Wizard` (the
question table and `PersonaCreator`), `CanvasCodec` (how a canvas section is stored
as newline-separated text and loaded back), `DragReorder` (`getDragAfterElement` and
the move it drives) and `Dashboard` (records, demonstration data, canvas templates,
statistics and `DashboardManager`).

Some of what the code does is easy to miss on a first reading; the model does
what the code does:

- `generatePersona` keeps empty comma-separated segments: `"a,,b"` gives three
  goals, the middle one empty (`Wizard.SplitListKeepsEmptySegments`). An empty
  template list comes back as one empty item (`Wizard.EmptyListBecomesOneBlank`).
- Editing a canvas item does not reject empty text. The empty item is kept in the
  editor and disappears at the save (`Dashboard.BlankEditSavesAsDelete`).
- The item counter on the canvas grid drops only empty lines (`filter(Boolean)`),
  while the editor drops blank ones (`filter(item => item.trim())`). A line of
  spaces is counted but not shown (`CanvasCodec.WhitespaceLineCounted`).
- Opening a canvas by an id that no stored canvas has fails in the page before the
  editor is rebuilt. `Dashboard.OpenCanvas` returns None there, and
  `OpenCanvasModal` leaves the editor as it was.
- Saving without a name prompt while no stored canvas is open (`currentCanvasId`
  null) puts a new "New Canvas" in front every time. The save never records the
  new canvas's id as the open one (`Dashboard.SaveCanvas`, `AddCanvasItem`).
- A dragover only moves the item in the editor. Nothing is saved until the next
  save.

## Model

| member | source | states |
|---|---|---|
| Seqs.Filter | dashboard.js:302 | the result is an in-order subsequence of the input holding exactly the elements that pass the test, never longer than the input |
| Seqs.FilterCounts | dashboard.js:604 | each passing element is kept exactly as often as the input has it, each failing one not at all |
| Seqs.FilterConcat | dashboard.js:569-571 | filtering a concatenation is the concatenation of the filtered parts |
| Seqs.FilterKeepsAll | dashboard.js:920 | when every element passes, filter returns the input unchanged |
| Seqs.FilterMissesOne | dashboard.js:920 | when some element fails, filter returns fewer elements than the input |
| Seqs.FilterWeakerKeepsMore | dashboard.js:708 | a test implied by another keeps at least as many elements |
| Seqs.FilterOfSubsequence | dashboard.js:920 | filtering a subsequence keeps no more elements than filtering the whole |
| Seqs.FindIndex | dashboard.js:576 | None exactly when no element has the key; otherwise the first position whose element has it |
| Strings.TrimStart | script.js:278 | a suffix of the input, preceded only by white space, not starting with white space |
| Strings.TrimEnd | script.js:278 | a prefix of the input, followed only by white space, not ending with white space |
| Strings.Trim | script.js:278 | neither end of the result is white space; the result is empty exactly when the input is all white space |
| Strings.TrimAddsNothing | script.js:278 | a character absent from the input is absent from its trim |
| Strings.TrimAfterWhitespace | script.js:278 | leading white space does not change the trimmed text |
| Strings.TrimOfTrimmed | script.js:278 | text whose ends are not white space is its own trim |
| Strings.TrimIdempotent | dashboard.js:570 | trimming twice is trimming once |
| Strings.MapTrim | script.js:278 | as many pieces as the input, each one trimmed |
| Strings.MapTrimOfTrimmed | script.js:278 | trimming a list of already trimmed pieces changes nothing |
| Strings.MapTrimConcat | script.js:278 | trimming each piece of a concatenation is the concatenation of the trimmed parts |
| Strings.Split | script.js:278 | one piece more than the separator occurs, no piece holds the separator, and joining the pieces with it gives the input back |
| Strings.Join | script.js:337 | `Array.prototype.join`; no contract of its own: `Strings.JoinLength`, `JoinContainsItems`, `JoinCharSource` and `Split`'s round trip state it |
| Strings.JoinLength | script.js:337 | the joined string has the items' characters plus one separator between each two neighbours |
| Strings.SplitWithoutSeparator | script.js:278 | text without the separator splits into one piece, the text itself |
| Strings.JoinContainsItems | script.js:337 | every character of an item appears in the joined string |
| Strings.JoinCharSource | script.js:337 | a joined character that is not in the separator comes from some item |
| Strings.SplitAfterPrefix | script.js:278 | a separator-free prefix is glued to the first piece of what follows |
| Strings.PaddedTrim | script.js:278 | trimming ignores the blank that `join(', ')` puts before every item but the first |
| Strings.SplitAfterSeparator | script.js:278 | a leading separator gives an empty first piece |
| Strings.SplitJoin | script.js:337-338 | splitting on `d` what was joined with `d` plus a padding gives the first item and every later item behind the padding |
| Strings.SplitJoinExact | dashboard.js:572 | split on a one-character separator undoes a join with it when no item holds the separator |
| Templates.FindTemplate | script.js:120-121 | a found template is in the named category and has the name; None for a known category means no template there has the name |
| Templates.FirstNamed | script.js:121 | `find` by name: a found template is in the list and has the name, and no template before it has the name; None means no template has it |
| Templates.CatalogShape | templates.js:1-90 | exactly the categories business and consumer, two templates each |
| Templates.CatalogWellFormed | templates.js:1-90 | every built-in template has industry, age range, role and decision making non-empty and three trimmed, comma-free, non-empty goals and challenges |
| Templates.LookupByNameExact | script.js:120-121 | names are distinct within each category, and looking a template up by its own name in its category returns that template |
| Wizard.Position | script.js:400-425 | each step's place in the question chain, which lists it there |
| Wizard.QuestionChain | script.js:400-425 | each step's `next` is the step after it in the chain; only behaviour has none |
| Wizard.Question | script.js:400-425 | the question texts of the table; no contract of its own: `Wizard.SixAnswersFinish` and `Wizard.ConverseAsks` state that the dialogue asks them in the chain's order |
| Wizard.Next | script.js:400-425 | the step after the given one, one position further on; none exactly after behaviour |
| Wizard.NextAdvances | script.js:262-266 | `next` moves exactly one position on; it is null exactly at behaviour |
| Wizard.SplitList | script.js:278-279 | one piece per comma-separated segment (commas plus one), each trimmed and comma-free |
| Wizard.SplitListKeepsEmptySegments | script.js:278 | `"x,,y"` gives three pieces: x trimmed, an empty one, y trimmed |
| Wizard.GeneratePersona | script.js:273-285 | builds the persona record; no contract of its own: `Wizard.PersonaFromAnswers` states its fields |
| Wizard.PersonaFromAnswers | script.js:273-285 | the persona holds industry, role, age and decision making as answered; goals and challenges have one trimmed, comma-free piece per comma-separated segment, and an answer without a comma is a single item, its trim |
| Wizard.Answer | script.js:258-271 | outside a dialogue nothing changes and there is no reply; inside, the answer is stored under the current step, then either the next step's question is asked, or at the last step the dialogue stops with the completion message and the persona built from all six answers; every step before the current one stays answered |
| Wizard.Converse | script.js:258-271 | feeding answers one by one keeps every step before the current one answered and gives one reply per answer |
| Wizard.SixAnswersFinish | script.js:251-282 | after `start()`, six answers get the next five questions in order and then the completion message with the persona whose fields are the six answers, goals and challenges split and trimmed; the dialogue is over |
| Wizard.ConverseFinishes | script.js:258-271 | from any step of a running dialogue, one answer per remaining step ends it with every step answered and the persona built from the stored answers as the last reply |
| Wizard.ConverseStores | script.js:261 | each remaining step ends up holding the answer given at it, and answers stored before are kept |
| Wizard.ConverseAsks | script.js:262-266 | each reply but the last is the question of the step after the one answered |
| Wizard.IdleIgnoresAnswers | script.js:259 | once the dialogue has finished, any answers change nothing and each gets no reply |
| Wizard.TemplateResponses | script.js:333-340 | `loadTemplate` answers every step |
| Wizard.JoinThenSplitList | script.js:332-341 | a non-empty list of comma-free items joined with ", " and split back gives each item trimmed, in order |
| Wizard.EmptyListBecomesOneBlank | script.js:337 | an empty list comes back as one empty item |
| Wizard.JoinThenSplitListExact | script.js:332-341 | for trimmed, comma-free items the join and split round trip is exact |
| Wizard.TemplatePersona | script.js:332-341 | the persona `loadTemplate` builds has the template's fields, "Professional" and "Data-driven" where role or decision making is missing or empty, and the goal and challenge lists unchanged |
| Wizard.CatalogPersonasExact | script.js:332-341 | every built-in template yields exactly its own defaults, with no fallback |
| Wizard.PersonaCreator.constructor | script.js:245-249 | initial step, no answers, no dialogue running |
| Wizard.PersonaCreator.Start | script.js:251-256 | a fresh dialogue at the first step with no answers, whatever came before; returns the first question |
| Wizard.PersonaCreator.ProcessAnswer | script.js:258-271 | the new state and the reply are those of `Answer` on the old state |
| Wizard.PersonaCreator.LoadTemplate | script.js:332-342 | replaces the answers with the template's, keeps step and dialogue flag, and returns the persona built from them |
| Wizard.PersonaCreator.Reset | script.js:344-348 | initial step, no answers, no dialogue running |
| CanvasCodec.Decode | dashboard.js:302 | the loaded items are an in-order subsequence of the text's lines, each non-blank and without a line break; every non-blank line is loaded, as often as the text has it, and nothing else |
| CanvasCodec.Clean | dashboard.js:569-571 | the saved items are an in-order subsequence of the trimmed items, each non-empty and trimmed |
| CanvasCodec.NonBlankIsNonEmpty | dashboard.js:708 | a line that is not blank is not empty |
| CanvasCodec.CleanOfPlain | dashboard.js:569-571 | trimmed, non-empty, newline-free items are saved unchanged |
| CanvasCodec.CleanIdempotent | dashboard.js:569-571 | cleaning twice is cleaning once |
| CanvasCodec.CleanConcat | dashboard.js:569-571 | cleaning a concatenation cleans each part |
| CanvasCodec.CleanSingle | dashboard.js:569-571 | a non-blank item is kept, trimmed |
| CanvasCodec.CleanBlank | dashboard.js:569-571 | a blank item is dropped |
| CanvasCodec.Encode | dashboard.js:569-572 | the stored section text; no contract of its own: `CanvasCodec.EncodeOneLinePerItem`, `DecodeEncode` and `LineCountOfEncode` state what it stores |
| CanvasCodec.EncodeOneLinePerItem | dashboard.js:569-572 | a save writes one line per kept item: split on newlines the stored text gives the kept items back, and nothing is stored when nothing was kept |
| CanvasCodec.LineCount | dashboard.js:708 | a section counts at most one item per line, and an empty section none |
| CanvasCodec.DecodeEncode | dashboard.js:302 | loading what a save stored gives the trimmed non-empty items in order, when no item holds a line break |
| CanvasCodec.CleanKeepsChars | dashboard.js:570 | every character of a saved item comes from one original item |
| CanvasCodec.RoundTrip | dashboard.js:302 | plain items survive a save and a reload exactly |
| CanvasCodec.EncodeDecodeEncode | dashboard.js:572 | saving, reloading and saving again stores the same text |
| CanvasCodec.BlankEditDeletes | dashboard.js:569-572 | an item edited to blank text is stored as if it were removed |
| CanvasCodec.LineCountOfEncode | dashboard.js:706-709 | the grid counts exactly the items a save kept |
| CanvasCodec.DecodeWithinLineCount | dashboard.js:706-709 | the grid never counts fewer items than the editor loads |
| CanvasCodec.WhitespaceLineCounted | dashboard.js:708 | a line of one space is counted but not loaded |
| CanvasCodec.CleanNonEmptyIff | dashboard.js:570-571 | a save keeps an item exactly when some item is non-blank |
| CanvasCodec.EncodeNonBlankIff | dashboard.js:931-933 | the stored section is non-blank exactly when the save kept an item |
| CanvasCodec.DecodeNonEmptyIff | dashboard.js:302 | a text loads to at least one item exactly when it is non-blank |
| CanvasCodec.ReloadKeepsCompleteness | dashboard.js:931-933 | a section is non-blank after a load and a save exactly when it was before |
| CanvasCodec.CleanKeepsNonBlank | dashboard.js:570-571 | a list whose first item is non-blank saves at least one item |
| CanvasCodec.CanonicalText | dashboard.js:302 | a text whose lines are all plain items is stored again unchanged after a load and a save |
| DragReorder.Closest | dashboard.js:432-445 | the reduce picks None exactly when no item's middle is below the pointer; otherwise an item below it, no farther than any other below it, and the first among equally near ones |
| DragReorder.DragAfter | dashboard.js:432-445 | the chosen item is one of the section's items |
| DragReorder.DragAfterUnique | dashboard.js:436-444 | an item below the pointer, with none nearer and none equally near before it, is the one chosen |
| DragReorder.DragAfterInLayout | dashboard.js:432-445 | with items laid out top to bottom, the dragged item goes before the first item whose middle is below the pointer, or to the end |
| DragReorder.InsertDragged | dashboard.js:418-429 | `insertBefore` puts the item just before the target and keeps the others in order; `appendChild` puts it last; the multiset grows by the item; in both cases the item sits at its landing position and taking it out gives the section back |
| DragReorder.Without | dashboard.js:418-429 | the dragged item leaves its old place: one element fewer, the multiset loses it, the items before it and after it keep their order |
| DragReorder.MoveWithin | dashboard.js:418-429 | a move inside one section keeps its items as a multiset; the dragged item lands before the item `getDragAfterElement` picks, or last, and taking it out again leaves the other items in their old order |
| DragReorder.MoveAcross | dashboard.js:418-429 | a move between sections takes the item out of the source, whose other items keep their order, and puts it in the target before the item `getDragAfterElement` picks, or last, the target's own items keeping their order; the items of both stay together as a multiset |
| DragReorder.DragFirstBelowThird | dashboard.js:418-429 | dragging the first of four items below the third one's middle lands it between the third and the fourth |
| Dashboard.AllSectionsListed | dashboard.js:623-662 | the nine sections are listed once each |
| Dashboard.FindById | dashboard.js:576 | `findIndex` by id is None exactly when no canvas has the id, and stops at the first one that has it |
| Dashboard.LoadStoredData | dashboard.js:74-88 | the stored data or else the demonstration data; canvases unchanged; every persona keeps its id and fields and gets a creation time: an existing one is kept, a missing one is the clock reading taken for that persona |
| Dashboard.Stamp | dashboard.js:82-85 | a persona keeps its id and fields; an existing creation time is kept, a missing one becomes the current time |
| Dashboard.ReloadIsStable | dashboard.js:74-88 | loading data that was loaded before changes nothing, whatever the clock readings are |
| Dashboard.EmptyEditor | dashboard.js:246-287 | a new canvas opens with every section empty |
| Dashboard.LoadEditor | dashboard.js:289-317 | every section is the decoded stored section, or empty when the content lacks it |
| Dashboard.EditorContent | dashboard.js:567-573 | the saved content has every section, each the encoded items of that section |
| Dashboard.OpenCanvas | dashboard.js:246-287 | no id opens an empty editor; an unknown id fails; a known id loads the first canvas with that id |
| Dashboard.SaveCanvas | dashboard.js:556-600 | an aborted prompt or an open canvas that is no longer stored changes nothing; an open stored canvas is replaced in place under its id with the new name, content and date, every other canvas unchanged; with no open canvas a new one goes in front |
| Dashboard.SaveThenReopen | dashboard.js:567-583 | saving an open stored canvas and opening it again shows every section cleaned |
| Dashboard.CleanEditor | dashboard.js:569-571 | every section of the editor cleaned |
| Dashboard.RemoveId | dashboard.js:604 | the records without the id, in order, each as often as before |
| Dashboard.RemoveMissingId | dashboard.js:604 | removing an id no record has changes nothing |
| Dashboard.RemoveIdIdempotent | dashboard.js:616 | removing the same id twice removes no more than once |
| Dashboard.DeleteConfirmed | dashboard.js:602-608 | the list changes only when the deletion is confirmed, and then loses the records with the id |
| Dashboard.Duplicate | dashboard.js:795-809 | an unknown id changes nothing; otherwise a copy of the first canvas with the id, under a new id, named with " (Copy)" and dated today, goes in front |
| Dashboard.NewPersona | dashboard.js:959-973 | the new persona goes in front with the payload's fields, the payload's id or else the generated one, and a fresh creation time |
| Dashboard.CountCanvasItems | dashboard.js:706-709 | the grid's count for a canvas is never below the number of items the editor shows when it is opened |
| Dashboard.IsCanvasComplete | dashboard.js:931-933 | every stored section is non-blank; no contract of its own: `Dashboard.CompleteIffEverySectionShows` and `SavedCompleteIff` state what it means |
| Dashboard.CompleteIffEverySectionShows | dashboard.js:931-933 | a canvas is complete exactly when opening it shows at least one item in every stored section |
| Dashboard.CountCoversLoaded | dashboard.js:706-709 | the grid's count is at least the number of items the editor loads |
| Dashboard.CountOfSaved | dashboard.js:706-709 | for a canvas saved from the editor, the grid counts exactly the items the save kept |
| Dashboard.SavedCompleteIff | dashboard.js:931-933 | a canvas saved from the editor is complete exactly when every section kept an item |
| Dashboard.ReopenKeepsCompleteness | dashboard.js:931-933 | opening a canvas with all nine sections and saving it again keeps it complete or incomplete as it was |
| Dashboard.UpdateStats | dashboard.js:916-929 | the persona and canvas counts; the completed count is at most the canvas count and equals it exactly when every canvas is complete |
| Dashboard.InitializeStats | dashboard.js:664-675 | the persona and canvas counts, and their sum as projects |
| Dashboard.DeleteKeepsCompletedBound | dashboard.js:916-929 | deleting canvases never raises the completed count |
| Dashboard.InsertByCreated | dashboard.js:182-183 | inserting into a newest-first list keeps it newest first and adds exactly the one persona |
| Dashboard.SortByCreated | dashboard.js:182-183 | the sorted copy is newest first and a permutation of the personas |
| Dashboard.SortIsStable | dashboard.js:182-183 | the sort is stable: personas created at the same time come out in the order they went in |
| Dashboard.InsertKeepsTies | dashboard.js:182-183 | an inserted persona goes in front of those it ties with, and the other ties keep their order |
| Dashboard.AllTiedUnchanged | dashboard.js:182-183 | personas that all share one creation time are left in their order |
| Dashboard.RecentPersonas | dashboard.js:182-188 | at most five personas, newest first, all drawn from the list |
| Dashboard.RecentKeepsTieOrder | dashboard.js:182-188 | among personas created at the same time, the recent list shows the ones stored first, in their stored order |
| Dashboard.MockRecentInStoredOrder | dashboard.js:74-88 | with nothing stored and the three clock readings equal (the load happens within one millisecond), the recent list shows the three demonstration personas in their stored order, ids 1, 2 and 3 |
| Dashboard.MockRecentWhenClockTicks | dashboard.js:74-88 | with nothing stored and rising clock readings, the recent list shows the demonstration personas in reverse order, ids 3, 2 and 1 |
| Dashboard.RecentOfRising | dashboard.js:182-188 | at most five personas created in strictly rising order are all listed, last created first |
| Dashboard.SortRisingReverses | dashboard.js:182-183 | personas created in strictly rising order are sorted into reverse order |
| Dashboard.InsertOldest | dashboard.js:182-183 | a persona older than all the sorted ones goes at the end |
| Dashboard.RecentAreNewest | dashboard.js:182-188 | no persona left out of the recent list is newer than one in it |
| Dashboard.FilledIsComplete | dashboard.js:931-933 | a canvas whose sections all start with a non-white-space character is complete |
| Dashboard.MockCanvasesComplete | dashboard.js:8-57 | the three demonstration canvases are complete |
| Dashboard.MockStats | dashboard.js:916-929 | with nothing stored the statistics are three personas, three canvases, three complete |
| Dashboard.TemplateSavesComplete | dashboard.js:772-779 | a built-in template applied and then saved gives a complete canvas |
| Dashboard.AddItem | dashboard.js:483-496 | the prompt's text, as typed, goes at the end exactly when its trim is non-empty |
| Dashboard.AddThenSave | dashboard.js:483-496 | an added item is stored trimmed after the items the section already kept |
| Dashboard.DeleteItem | dashboard.js:471-481 | when confirmed the item goes and the others keep their order; otherwise nothing changes |
| Dashboard.BlankEditSavesAsDelete | dashboard.js:447-469 | editing an item to blank text is saved as if it were deleted |
| Dashboard.DragItem | dashboard.js:405-430 | sections other than source and target are unchanged, and the moved items are kept as a multiset; the dragged item lands before the item `getDragAfterElement` picks in the target section, or last, and taking it out leaves the target's other items, and the source's, in their old order |
| Dashboard.DashboardManager.constructor | dashboard.js:60-72 | the stored data loaded, no canvas open, an empty editor |
| Dashboard.DashboardManager.OpenCanvasModal | dashboard.js:246-287 | records the id; the editor becomes the opened canvas, or stays as it was when the id is unknown; the data is unchanged |
| Dashboard.DashboardManager.ApplyTemplate | dashboard.js:772-779 | the editor holds the template's sections, no canvas is open, the data is unchanged |
| Dashboard.DashboardManager.SaveCurrentCanvas | dashboard.js:556-600 | the canvases become `SaveCanvas` of the old list with the editor's content; everything else is unchanged |
| Dashboard.DashboardManager.DeleteCanvas | dashboard.js:602-608 | the canvases become `DeleteConfirmed` of the old list; everything else is unchanged |
| Dashboard.DashboardManager.DeletePersona | dashboard.js:614-621 | the personas become `DeleteConfirmed` of the old list; everything else is unchanged |
| Dashboard.DashboardManager.DuplicateCanvas | dashboard.js:795-809 | the canvases become `Duplicate` of the old list; everything else is unchanged |
| Dashboard.DashboardManager.AddNewPersona | dashboard.js:959-973 | the personas become `NewPersona` of the old list; everything else is unchanged |
| Dashboard.DashboardManager.AddCanvasItem | dashboard.js:483-496 | the section gets the item when its trim is non-empty, and only then is the canvas saved without a prompt |
| Dashboard.DashboardManager.EditCanvasItem | dashboard.js:447-469 | the item becomes the typed text and the canvas is saved without a prompt |
| Dashboard.DashboardManager.DeleteCanvasItem | dashboard.js:471-481 | when confirmed the item goes and the canvas is saved without a prompt; otherwise nothing changes |
| Dashboard.DashboardManager.DragOver | dashboard.js:418-429 | the editor becomes `DragItem` of the old one; the data and the open id are unchanged |

## Left out

- Page plumbing is not modelled. This covers the DOM, rendering, modals, tabs, the
  navigation and the HTML the records are shown with. The chat window, the typing
  indicator, the simulated AI answers, the export buttons and the timers are also out.
- Storage is not modelled. `localStorage`, `JSON.parse` and `JSON.stringify`, the
  `storage` event and the URL hand-off between pages are left out. Stored data is an
  `Option<DashboardData>` given to the loader, and `saveData` is not modelled. A
  malformed stored string, which makes the page throw, is not represented.
- The clock, `confirm` and `prompt` are parameters (`now`, `clock`, `newId`, `today`,
  `confirmed`, `answer`). `loadStoredData` reads the clock once per persona; its
  `clock(i)` is the reading taken for the persona at index `i`.
- Dates are modelled as integers. `createdAt` is an ISO string in the source; the
  model uses its millisecond value, and a missing one counts as 0, as
  `new Date(p.createdAt || 0)` does.
- Dashboard.SortByCreated: its own contract states only newest first and a
  permutation. Stability, which `Array.prototype.sort` guarantees, is proved as the
  separate lemma `Dashboard.SortIsStable`.
- Ids are integers. `Number(id)`, non-numeric ids and the falsiness of id 0 in
  `openCanvasModal` and `saveCurrentCanvas` are not modelled; an absent id is None.
- DragReorder.Closest: the midpoints are given as integers. Fractional pixel
  positions are not represented.
- Some legacy handlers are not modelled: the older `saveCanvas`, which writes a
  `currentCanvas` snapshot that nothing reads, `editItem` and `setupCanvasSystem`,
  and the event listeners that are registered twice. Of `setupPersonaListeners`
  only the `addNewPersona` call is modelled; the rest is the storage event and the
  URL hand-off.
- Item text is a plain string. `createCanvasItem` puts it into HTML, and typing into
  `contenteditable` items is left out.
- `displayPersona` only renders. The persona `processAnswer` displays is returned
  inside the `Finished` reply instead. The source's `loadTemplate` returns nothing:
  it calls `generatePersona`, which displays the persona, and drops the message it
  returns; `PersonaCreator.LoadTemplate`'s `shown` result stands for that display.
- Strings.Trim: the contract states only that the result is trimmed and when it is
  empty. That no character is added is the separate lemma
  `Strings.TrimAddsNothing`.
- Templates.FindTemplate: for a category the catalog lacks, the source throws
  (`personaTemplates[activeCategory]` is undefined); the model returns None. The
  page's category buttons only ever pass `business` or `consumer`.

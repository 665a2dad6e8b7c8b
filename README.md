# ID card app: a Dafny model

This project models the app-owned logic of the Flipper Zero "ID card" app
(`id_card_v2.c`). The app keeps a five-field record: name, email, tel, addr
and notes. It shows the record on a card screen, edits it through a chain of
text-input scenes, and stores it in a key/value file.

The model has four parts.

- **Scenes** (`scenes.dfy`): the nine scenes, the scene-manager events, the
  menu indices and custom event values, and the transition table that the
  scenes' `on_event` handlers implement.
- **Record and file** (`records.dfy`, `store.dfy`):
  - The record and its fields.
  - What `save_data` writes: a header, then five pairs in a fixed order.
  - What `load_data` does with a file that opens: each field is overwritten
    exactly when its key is read.
  - The round trip: loading what a save wrote restores the record.
- **Card layout** (`layout.dfy`): the widget elements `id_card_scene_on_enter`
  adds, stated as a function of the record. Empty fields are skipped, rows are
  10 apart from y = 20 on, and the notes get a scroll box 5 above their label.
- **The app object** (`app.dfy`, with the pure session model in `flow.dfy`):
  - A class whose fields are the five strings, the shared input buffer, and
    the scene most recently requested from the scene manager.
  - One method per `on_event` handler, plus `load_data`, `save_data`, the
    menu callback and the card scene's `on_enter`. Each method updates the
    fields in place.
  - The handler table is a dispatch method. Its contract ties each handler to
    the transition table and to the record function `Flow.Handle`.
  - `Flow` chains these steps into the setup session: five confirmations from
    the name prompt reach the greeting scene and save exactly the five texts.

Host calls are replaced by what they are asked to do:
- `scene_manager_next_scene` sets `requested`.
- The FlipperFormat writes are returned as a sequence of entries.
- A file that opens for reading is an `Option` of a key-to-value map.
- The widget calls of the card scene are returned as a sequence of elements.
- Whether the file opens for writing is a boolean parameter.

## Model

| member | source | states |
|---|---|---|
| Scenes.SceneId | id_card_v2.c:14-25 | The position of each scene in the scene enum, which indexes the handler tables. It is below the scene count 9. |
| Scenes.SceneAt | id_card_v2.c:14-25 | A table index names a scene exactly when it is below the scene count 9, and the scene it names has that index. |
| Scenes.SceneTableIndex | id_card_v2.c:391-401 | Each scene's slot in the handler table leads back to that scene. |
| Scenes.Transition | id_card_v2.c:123-372 | The transition table of the nine `on_event` handlers: the scene each requests for an event, or none when the event is not consumed. Only custom events are consumed, and no handler requests a scene earlier in the scene enum than its own. Only back navigation, which is left out, returns to an earlier scene. |
| Scenes.InputScenesConsumeOnlySave | id_card_v2.c:230-335 | An input scene consumes an event if and only if it is the custom save event 5. When it does, it requests the next scene of the chain Name, Email, Tel, Addr, Notes, Greeting. |
| Scenes.DisplayScenesConsumeNothing | id_card_v2.c:205-209 | The card, greeting and about scenes request no scene for any event. |
| Scenes.MenuTarget | id_card_v2.c:108-121 | The scene a menu item leads to (ID Card, Setup's name prompt, About). An index leads somewhere exactly when it is below 3. |
| Scenes.MenuRoutes | id_card_v2.c:108-143 | Menu items 0 and 1 reach the same scene as the main menu's custom events 0 and 1. Item 2 (About) requests About, although custom event 2 is not consumed by the main menu. |
| Records.Set | id_card_v2.c:233 | Setting a field gives it the new value and leaves the other four fields as they were. |
| Records.RecordExtensionality | id_card_v2.c:39-43 | Two records that agree on all five fields are equal. |
| Store.Key | id_card_v2.c:71-98 | The key under which each field is written and read: "Name", "Email", "Tel", "Addr", "Notes". |
| Store.KeysDistinct | id_card_v2.c:71-75 | The five file keys are pairwise distinct. |
| Store.SaveLog | id_card_v2.c:67-79 | The writes of a save that opens: six entries, the header "ID Data" version 1 first and only there, every later entry a key/value pair. |
| Store.SaveLogOrder | id_card_v2.c:69-76 | A save writes six entries. The header "ID Data" version 1 comes first, then, for the i-th field of the order Name, Email, Tel, Addr, Notes, that field's key and current value. |
| Store.Contents | id_card_v2.c:69-76 | Every key that a written pair carries is in the file's content. |
| Store.ContentsFirst | id_card_v2.c:85-100 | A key that no earlier pair carries reads the value of its own pair. |
| Store.ContentsKeys | id_card_v2.c:85-100 | Every key in the file's content comes from a pair that was written, with the value read back. |
| Store.Merge | id_card_v2.c:81-101 | A file that does not open leaves the record unchanged. Otherwise each field takes the file's value when its key is present and keeps its prior value when it is absent. |
| Store.LoadAfterSave | id_card_v2.c:67-101 | Loading what a save wrote restores all five fields, whatever the record held before. |
| Store.MergeIdempotent | id_card_v2.c:81-101 | Loading the same file twice gives the same record as loading it once. |
| Store.PartialFile | id_card_v2.c:86-100 | A file holding only Name and Email overwrites those two fields and keeps Tel, Addr and Notes. |
| Layout.Label | id_card_v2.c:169-197 | The caption shown left of each field: "Name:", "Email:", "Tel:", "Addr:", "Notes:". |
| Layout.CardLayout | id_card_v2.c:160-200 | The elements the card scene adds for a record: the title, the rows of the non-empty line fields, then the notes part. Its properties are stated by the Layout lemmas below. |
| Layout.Count | id_card_v2.c:166-193 | The number of non-empty fields among the first k line fields is at most k. |
| Layout.Lines | id_card_v2.c:168-193 | The lines hold two elements, a label and a value, per non-empty line field. |
| Layout.CardLine | id_card_v2.c:168-194 | One if-block of the card layout: adding the row of field k (when it is non-empty) and advancing y by 10 only then extends the layout of the first k fields to that of the first k + 1 fields. |
| Layout.CardEnd | id_card_v2.c:196-200 | Adding the notes label and scroll box (when the notes are non-empty) after the four lines completes the card. |
| Layout.LinesPrefix | id_card_v2.c:166-193 | Rows already laid out keep their places when later fields are added. |
| Layout.RowAt | id_card_v2.c:166-193 | Non-empty line field i has its label at position 2c and its value at 2c + 1, both at y = 20 + 10c, where c counts the non-empty fields before it. |
| Layout.LineLabels | id_card_v2.c:168-193 | Every element in the label column of the lines is the label of a non-empty line field. |
| Layout.LinesAreText | id_card_v2.c:168-193 | The four lines contain only string elements, never a scroll box. |
| Layout.CardRowPlacement | id_card_v2.c:162-193 | On the card, non-empty line field i has its label at (0, 20 + 10c) and its value at (26, 20 + 10c), right after the title and the c earlier rows. |
| Layout.CardOmitsEmptyLine | id_card_v2.c:168-193 | An empty field among name, email, tel and addr puts no label on the card. |
| Layout.CardShape | id_card_v2.c:162-200 | The title "ID Card" at (90, 5) in the primary font comes first. The card holds the title, two elements per non-empty line field, and two more when the notes are non-empty. |
| Layout.CardNotes | id_card_v2.c:196-200 | Non-empty notes end the card with the label "Notes:" at the next row's y and a 100-by-5 scroll box at y - 5. Empty notes leave no scroll box on the card. |
| Flow.InputField | id_card_v2.c:230-335 | A scene fills in a field exactly when it is an input scene. |
| Flow.Handle | id_card_v2.c:230-335 | On the save event an input scene sets its own field to the buffer and leaves the other four fields unchanged. Any other event or scene leaves the record unchanged. |
| Flow.Saves | id_card_v2.c:326-335 | The one step that writes the file: the save event reaching the notes scene. |
| Flow.Opened | id_card_v2.c:85-100 | What loading finds in the file: the key/value content of what was written, or nothing when there is no file. |
| Flow.Step | id_card_v2.c:123-372 | One event of a session: the record changes as `Flow.Handle` says, the notes step rewrites the file when it opens, the requested scene becomes current, and entering the card scene loads the file into the record (id_card_v2.c:164). An event that no handler consumes, Back included, leaves the scene where it is, since back navigation is left out. |
| Flow.OpenCardLoads | id_card_v2.c:129-164 | Opening the card from the main menu after a save of a record shows that record, whatever was held before; with no file the record stays as it was. |
| Flow.Confirm | id_card_v2.c:215-335 | A session of save events, one per confirmed text, each delivered with that text in the input buffer. |
| Flow.ConfirmOutsideInputs | id_card_v2.c:348-352 | Once the chain has left the input scenes, further confirmations change nothing: the main menu, card, greeting and about handlers (id_card_v2.c:123-143, 205-209, 348-352, 368-372) consume no save event. |
| Flow.SetupChain | id_card_v2.c:230-335 | From the name prompt, five confirmed texts reach the greeting scene with exactly those texts in the record. The file then holds them when it opens and is untouched when it does not. |
| Flow.SetupSteps | id_card_v2.c:230-335 | Step by step from the name prompt: each confirmed text lands in the current scene's field and the next prompt becomes current. After the fifth, the greeting scene holds all five texts, and the file holds them when it opens. |
| Flow.NotesSaveIncludesNotes | id_card_v2.c:326-335 | What the notes step saves already holds the notes just entered, with the other four fields as they were. |
| IdApp.App.constructor | id_card_v2.c:435-470 | A new app holds the empty record merged with the file, and no scene has been requested. |
| IdApp.App.LoadData | id_card_v2.c:81-106 | The fields after loading are the old fields merged with the file. |
| IdApp.App.SaveData | id_card_v2.c:67-79 | Nothing is written when the file does not open. Otherwise the save log of the current fields is written, and reading it back gives the current fields. |
| IdApp.App.MenuCallback | id_card_v2.c:108-121 | A known menu index requests its target scene; any other index requests nothing. |
| IdApp.App.MainMenuOnEvent | id_card_v2.c:123-143 | Custom event 0 requests the card and custom event 1 requests the name prompt, both consumed. Any other event is not consumed and requests nothing. |
| IdApp.App.CardSceneOnEnter | id_card_v2.c:160-203 | The fields are loaded from the file, and the elements added are exactly the card layout of the loaded record. |
| IdApp.App.CardSceneOnEvent | id_card_v2.c:205-209 | The card scene consumes no event. |
| IdApp.App.InputNameOnEvent | id_card_v2.c:230-238 | On the save event, name becomes the buffer, the email prompt is requested, and the event is consumed. Any other event changes nothing and is not consumed. |
| IdApp.App.InputEmailOnEvent | id_card_v2.c:254-262 | On the save event, email becomes the buffer and the tel prompt is requested. Any other event changes nothing and is not consumed. |
| IdApp.App.InputTelOnEvent | id_card_v2.c:278-286 | On the save event, tel becomes the buffer and the address prompt is requested. Any other event changes nothing and is not consumed. |
| IdApp.App.InputAddrOnEvent | id_card_v2.c:302-310 | On the save event, addr becomes the buffer and the notes prompt is requested. Any other event changes nothing and is not consumed. |
| IdApp.App.InputNotesOnEvent | id_card_v2.c:326-335 | On the save event, notes becomes the buffer, the record including the new notes is saved, and the greeting is requested. Any other event changes nothing and writes nothing. |
| IdApp.App.GreetingOnEvent | id_card_v2.c:348-352 | The greeting scene consumes no event. |
| IdApp.App.AboutOnEvent | id_card_v2.c:368-372 | The about scene consumes no event. |
| IdApp.App.ConfirmText | id_card_v2.c:215-335 | Putting a text in the buffer and delivering the save event to an input scene leaves the app where one `Flow.Step` leads. Its fields are the step's record, the scene it requested is the step's scene, and what it writes is what the step puts in the file. |
| IdApp.SetupSession | id_card_v2.c:108-335 | A session on the app object: "Setup" is chosen and five texts are confirmed. The app ends with the greeting requested and exactly those texts in its record. When the file opens it holds their save log. Entering the card scene then shows the card of those texts, read back from the file when it opens. |
| IdApp.App.OnEvent | id_card_v2.c:391-401 | Dispatching through the handler table consumes an event exactly when the transition table has an entry for it, and requests that entry. The record changes as `Flow.Handle` says. Only the notes step writes the file. |

## Left out

- Widget, submenu and text-input internals, view switching and rendering. They are host-library code. The card scene's element alignment (always left/centre) is not recorded.
- How the text-input widget fills or truncates the shared buffer (FIELD_SIZE 64, NUL termination). The buffer is modelled as an arbitrary string.
- `id_text_input_callback`, which only forwards the save event 5 to the scene manager. The model delivers that event to the handlers directly.
- The scene-manager stack and back navigation (`id_scene_custom_callback`, `id_scene_back_event_callback`). Every handler leaves Back unconsumed, and the scene manager then returns to the previous scene. Only the scene each handler requests is recorded, not the stack that results, so the model never returns to a scene it has left.
- The `on_enter` and `on_exit` handlers other than the card scene's `on_enter`. Besides resetting widgets and adding static text (prompts, "Saved!", the About text), the main menu's `on_enter` registers `id_menu_callback` for its three items, and each input scene's `on_enter` binds the shared buffer to the text-input widget with minimum length 0, its result callback, and the widget's clear-default-text flag set. The model replaces these registrations by calling `MenuCallback` and the `on_event` handlers directly, with an arbitrary buffer. The app never clears that buffer itself.
- FlipperFormat parsing, escaping and the storage driver. A file that opens is abstracted as a key-to-value map. How the library searches the file for a key is not modelled: every key present in the map reads, and a key the file repeats reads its first value.
- Storage failures other than the file not opening, such as a failing individual write or read.
- `app_free` and the `id_app` entry point: resource plumbing. The constructor models only what `app_alloc` does to the record: empty strings, then one load.
- IdApp.App.MenuCallback: the "ID Card" and "Setup" items are modelled as going straight to the main menu's `on_event`. The main menu is the current scene whenever its submenu fires. The scene manager's delivery of the custom event is not modelled.

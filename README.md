# Composition core of the Zime input method engine

This project models the composition core of the Zime input method engine, written in Python for IBus.

- **Context.** A buffer of keyword segments with a cursor. The parser fills the segments. A candidate model turns them into preedit fragments and candidate lists.
- **Engine.** It turns key events into edits of that buffer. It owns the Caps Lock, Num Lock and hotkey filter and the punctuation overlay, which cycles through alternative forms. It also owns the fallback key handling the parser defers to: cursor keys, paging, digit selection, Backspace editing and commit.
- **Schema chooser.** A menu in front of the engine. It lists the configured schemas, most recently used first, and opens the chosen one.

Everything the core pushes to the host framework is one `Ui.Frontend.trace` of events. Most methods state exactly which events they append, in order. The exceptions are listed under "## Left out": an event the parser hands back to the engine's fallback, and a key the chooser passes to the engine. For those the contract says only that the trace grows. Some collaborators cannot be seen from the core: the candidate model, the parsers and the settings store. They enter as function-valued constants: `ModelLogic`, `ParserClass`, `Store.configOf` and `Frontend.candidateIndex`. The current time enters as the parameter `now`. Python exceptions become `Outcome.Raise` with the exception's type.

Modules:

- `Base`: Option, the exceptions, `u''.join`, Python subscripts.
- `Keys`: key symbols, modifier bits and key events.
- `Ui`: the frontend trace and the highlighted-span loop of `update_ui`.
- `ZimeCore`: `engine/stylo/zimecore.py`.
- `ZimeEngine`: the `Engine` class of `engine/stylo/zimeengine.py`.
- `Chooser`: the `SchemaChooser` class of `engine/stylo/zimeengine.py`.

## Model

| member | source | states |
|---|---|---|
| ZimeCore.OpenSchema | engine/stylo/zimecore.py:13-17 | The schema's parser name is present exactly when the configuration has `Parser`. Auto-prompt is on exactly when `AutoPrompt` is the string `yes`. |
| ZimeCore.Schema.ConfigValue | engine/stylo/zimecore.py:26-27 | The stored value when the key is configured, `None` exactly when it is not. |
| ZimeCore.Schema.ConfigCharSequence | engine/stylo/zimecore.py:28-32 | A missing value stays `None`. A value with both a leading `[` and a trailing `]` loses exactly those two characters. Any other value comes back unchanged. |
| ZimeCore.BracketRoundTrip | engine/stylo/zimecore.py:28-32 | A sequence stored as `[` + s + `]` reads back as s. |
| ZimeCore.ParserRegistry.Register | engine/stylo/zimecore.py:36-38 | The name then denotes the class; every other name keeps its class, or stays absent. |
| ZimeCore.ParserRegistry.GetParserClass | engine/stylo/zimecore.py:39-41 | Returns the registered class exactly when the name is present. A missing name, or no name at all, raises KeyError. |
| ZimeCore.ParserRegistry.Create | engine/stylo/zimecore.py:42-46 | Raises KeyError exactly when the schema's parser name is not registered. Otherwise it returns a fresh parser of that class, bound to the schema, with an empty buffer. |
| ZimeCore.Context.constructor | engine/stylo/zimecore.py:49-63 | A new context is in the reset state: `[""]`, cursor 0, `[""]`, `[None]`, `[]`, `""`. It satisfies the buffer invariant. |
| ZimeCore.Context.Clear | engine/stylo/zimecore.py:54-66 | Leaves the reset state, whatever the state before, so a second call changes nothing further. `is_empty()` then holds and the preedit is `""`. The refresh shows an empty preedit, empty aux text and no candidates. |
| ZimeCore.CanonicalView | engine/stylo/zimecore.py:54-66 | The reset state shows an empty preedit with the span `[0, 0)`, empty aux text and no candidates. |
| ZimeCore.Context.IsEmpty | engine/stylo/zimecore.py:67-68 | True exactly when the keywords are `[]` or `[""]`. Then the keywords join to `""`. The reset state is empty. |
| ZimeCore.Context.UpdateKeywords | engine/stylo/zimecore.py:69-72 | Puts the cursor on the normalised last segment before the model runs. The buffer then holds the model's update of exactly that state: its keywords, preedit, candidates, selection and aux text. The buffer invariant still holds. Appends one refresh. |
| ZimeCore.Pick | engine/stylo/zimecore.py:74 | Subscripting `None` raises TypeError, and an index outside `[-n, n)` raises IndexError. Otherwise the result is the choice of the candidate at that index, and a negative index `i` denotes the candidate at `n + i`. |
| ZimeCore.Context.Select | engine/stylo/zimecore.py:73-77 | Raises exactly when the subscript does, with the same exception and no change. Otherwise the cursor moves to the normalised `cursor + consumed` before the model's select. The buffer then holds that select's result, including the segmentation it writes, and one refresh follows. The cursor is still on a segment. |
| ZimeCore.Normalize | engine/stylo/zimecore.py:78-83 | The cursor is always a valid segment index. Without the auto-prompt pull-back it is `pos mod n`, Python's floor modulo. With auto-prompt on, more than one segment and an empty last segment, it is never the last index. It only moves to `n - 2` from `n - 1`. |
| ZimeCore.NormalizeIdempotent | engine/stylo/zimecore.py:78-83 | Normalising a normalised position changes nothing. |
| ZimeCore.EndOfThreeSegments | engine/stylo/zimecore.py:78-86 | `set_cursor(-1)` on three segments lands on the last one. Under auto-prompt with an empty last segment it lands on the middle one. |
| ZimeCore.RightStaysOnTypedSegments | engine/stylo/zimecore.py:87-89 | On `["ni", "hao", ""]` with auto-prompt, moving right from position 0 or 1 stays within {0, 1}. |
| ZimeCore.Context.SetCursorAt | engine/stylo/zimecore.py:78-83 | Only the cursor changes, and it becomes the normalised position. |
| ZimeCore.Context.SetCursor | engine/stylo/zimecore.py:84-86 | The cursor becomes the normalised position, followed by one refresh. |
| ZimeCore.Context.MoveCursor | engine/stylo/zimecore.py:87-89 | The cursor becomes the normalised `cursor + offset`, followed by one refresh. |
| ZimeCore.Context.GetPreedit | engine/stylo/zimecore.py:90-91 | The joined preedit has the summed length of all fragments and holds every fragment at the offset where its span starts, so it is exactly the concatenation. |
| Ui.FragmentsInPlace | engine/stylo/zimecore.py:90-91 | In `u''.join(parts)`, part k occupies the characters from the summed length of the parts before it, for its own length. |
| ZimeCore.Context.GetAuxString | engine/stylo/zimecore.py:92-98 | A non-empty override wins. Otherwise it is the segment at the cursor, when that is not the last segment or auto-prompt is on. Otherwise `""`. |
| ZimeCore.Context.GetCandidates | engine/stylo/zimecore.py:99-103 | `None` when the cursor is past the computed lists, else the list at the cursor. |
| ZimeCore.Context.Refresh | engine/stylo/zimeengine.py:157-166 | The body of the engine's `update_ui`, which the context calls back; the model places it in `Context`. Appends the preedit with the span of the fragment at the cursor, then the aux string, then the candidates. |
| Ui.HighlightSpan | engine/stylo/zimeengine.py:158-163 | The loop's `start` is the summed length of the fragments before the cursor, and `end = start + len(fragment)`. So `0 <= start <= end <= len(preedit)`, and the span covers exactly the fragment at the cursor. |
| ZimeEngine.Screen | engine/stylo/zimeengine.py:47-57 | Caps Lock rejects. Otherwise the event is rejected exactly when a Control, Alt, Super, Hyper or Meta bit remains once Num Lock is cleared. A passed mask carries none of those bits. |
| ZimeEngine.NumLockIgnored | engine/stylo/zimeengine.py:50-51 | Whether Num Lock is on or off never changes the result of the test. |
| ZimeEngine.Cycle | engine/stylo/zimeengine.py:62 | Each press advances the form by one, wrapping at the number of forms. The position always names a form. |
| ZimeEngine.CycleIsOffset | engine/stylo/zimeengine.py:60-65 | k presses of the overlay key advance the form to `(rep + k) mod len(forms)`. |
| ZimeEngine.FullCycleReturns | engine/stylo/zimeengine.py:60-65 | As many presses as there are forms return to the form shown before, so three presses on three forms return to form 0. |
| ZimeEngine.BackspaceEdit | engine/stylo/zimeengine.py:118-127 | A non-empty last segment is cleared and the length is kept. An empty last segment deletes the segment before it. Only `[""]` cannot be edited. The last segment is always the empty open one afterwards. |
| ZimeEngine.BackspaceDropsClosedSegment | engine/stylo/zimeengine.py:122-127 | `["ni", "hao", ""]` becomes `["ni", ""]`. |
| ZimeEngine.Engine.constructor | engine/stylo/zimeengine.py:35-45 | Builds a fresh model and context on the frontend with no overlay and satisfies the engine invariant. The first refresh shows an empty composition. |
| ZimeEngine.Engine.Open | engine/stylo/zimeengine.py:35-45 | Raises KeyError, before anything is shown, exactly when the schema's parser is not registered. Otherwise it returns a fresh valid engine on the opened schema. |
| ZimeEngine.Engine.UpdateUi | engine/stylo/zimeengine.py:157-166 | Appends the context's view. The body lives in `ZimeCore.Context.Refresh`. |
| ZimeEngine.Engine.ProcessKeyEvent | engine/stylo/zimeengine.py:46-78 | Masked keys return false with no change. A repeated overlay key advances the form by one and shows it. Any other press closes the overlay, showing the cleared preedit and then the committed form unless the key is Escape or Backspace. Escape, Backspace, Space and Return end there. Everything else reaches the parser with the Num-Lock-free mask, whose reject, accept or edit is carried out; an edit leaves the model's update of the new keywords, and none of the three changes what the model learned. After a reject, accept or edit, an overlay the key closed stays closed, and an overlay the key did not reach is as it was. |
| ZimeEngine.Engine.Overlay | engine/stylo/zimeengine.py:58-77 | Skipped for Shift keys, releases or no overlay. For the same key it advances and shows the next form. For any other key it resets to no overlay, clears the preedit and commits the form except on Escape and Backspace. It reports the event done unless the key must still go to the parser. |
| ZimeEngine.Engine.Dispatch | engine/stylo/zimeengine.py:78 | A rejected event returns false and an accepted one true, both without touching the context. An edit installs `closed + [open]` as the keywords, puts the cursor on the normalised last segment and refreshes. The buffer then holds the model's update of that state. None of the three touches the overlay or what the model learned. |
| ZimeEngine.Engine.Judge | engine/stylo/zimeengine.py:79-84 | Returns whether the key is coined. It commits the key's character exactly when the key is coined and its mask, the release bit included, is zero. |
| ZimeEngine.Engine.Process | engine/stylo/zimeengine.py:85-136 | With nothing typed: punctuation, otherwise the key's own character. While composing: a release returns true. Cursor keys move the cursor and refresh, and nothing else in the buffer changes. Paging keys always return true but page only when there are candidates. A digit selects only when there are candidates, and the buffer then holds the model's select; a failed subscript raises. Backspace edits, the buffer then holds the model's update of the edited keywords, and one refresh follows. Space and Return commit. Any other key returns true and commits first if it is punctuation. |
| ZimeEngine.Engine.Navigate | engine/stylo/zimeengine.py:92-103 | Home goes to 0 and End or Escape to -1. Left moves by -1, and Right or Tab by +1. The position is normalised, followed by one refresh. |
| ZimeEngine.Engine.Page | engine/stylo/zimeengine.py:104-112 | Appends a page turn in the key's direction only when the candidate list is non-empty. |
| ZimeEngine.Engine.Digit | engine/stylo/zimeengine.py:113-117 | Without candidates nothing happens. Otherwise it behaves as `select` of the frontend's index for the digit: the cursor advances by the choice's consumed segments and the buffer holds the model's select. A raised exception propagates. |
| ZimeEngine.Engine.Backspace | engine/stylo/zimeengine.py:118-129 | Installs the Backspace edit of the keywords and normalises the cursor onto the last segment. The buffer then holds the model's update of the edited keywords. One refresh follows, and it returns true. On `[""]` it falls back to `__judge`. |
| ZimeEngine.Engine.HandlePunct | engine/stylo/zimeengine.py:137-151 | Triggers exactly when the punctuation answer is truthy; otherwise nothing changes. A list enters the overlay on form 0 with the event's key and shows that form. A string is committed. With `commit` set, the composition is committed first. |
| ZimeEngine.Engine.Commit | engine/stylo/zimeengine.py:152-156 | Commits the preedit, has the model learn the composition as it was, then clears the context and the parser buffer. The context is empty afterwards. |
| Chooser.Tabulate | engine/stylo/zimeengine.py:180-182 | The table the loop builds: each further record overwrites its key's entry. Its properties are stated by the three lemmas below. |
| Chooser.TabulateFromRecords | engine/stylo/zimeengine.py:180-182 | Every entry of the table is a `(key, time)` pair that occurs among the records. |
| Chooser.TabulateKeys | engine/stylo/zimeengine.py:180-182 | The table's keys are exactly the keys of the last-used records. |
| Chooser.TabulateLastWins | engine/stylo/zimeengine.py:180-182 | A key's entry is the time of its last record. |
| Chooser.LastUsedTable | engine/stylo/zimeengine.py:180-182 | The loop builds exactly the last-wins table. |
| Chooser.Store.UpdateLastUsed | engine/stylo/zimeengine.py:196-197 | The table then reads the new time for the key and the old time for every other key. The schema list is untouched. |
| Chooser.TabulateRestamp | engine/stylo/zimeengine.py:196-197 | Rewriting the records of a present key updates exactly that key of the table. |
| Chooser.LastUsedTime | engine/stylo/zimeengine.py:183 | The table's time for the item's key, 0 when the key has no record. |
| Chooser.SortByRecency | engine/stylo/zimeengine.py:183-184 | The result is a permutation of the stored schemas. |
| Chooser.SortIsOrdered | engine/stylo/zimeengine.py:183-184 | The result is ordered by last-used time, non-increasing. The time of a schema with no record is 0. |
| Chooser.InsertKeepsOrder | engine/stylo/zimeengine.py:184 | Placing an item before the first item used no later than it keeps the list ordered. |
| Chooser.SortIsStable | engine/stylo/zimeengine.py:184 | For each time, the schemas used at that time keep their store order. |
| Chooser.NeverUsedKeepsOrder | engine/stylo/zimeengine.py:183-184 | With no last-used records the menu is in store order. |
| Chooser.RecentlyChosenFirst | engine/stylo/zimeengine.py:183-184 | A schema stamped later than every recorded time, and later than 0, heads the next sorted list. |
| Chooser.Menu | engine/stylo/zimeengine.py:184 | One entry per item. `Chooser.MenuAt` states what each entry is. |
| Chooser.MenuAt | engine/stylo/zimeengine.py:184 | Entry i of the menu is item i with its pair order swapped to `(display, key)`. |
| Chooser.MenuIsPermutation | engine/stylo/zimeengine.py:184 | The menu holds the same `(display, key)` entries as the store, with the same multiplicities. |
| Chooser.IndexOf | engine/stylo/zimeengine.py:189 | The first position holding the name. |
| Chooser.ResolveChoice | engine/stylo/zimeengine.py:186-191 | An exactly matching non-empty name gives its first index. Otherwise a non-empty list gives 0, and an empty list gives -1. |
| Chooser.FirstMatchIsEntry | engine/stylo/zimeengine.py:234-238 | Choosing the non-empty key of a menu entry opens that key. |
| Chooser.SchemaChooser.constructor | engine/stylo/zimeengine.py:169-172 | After reset and loading, the menu is active, there is no engine, and the list is the stored schemas sorted by recency. |
| Chooser.SchemaChooser.Start | engine/stylo/zimeengine.py:169-173 | The initial choice applies the choice rule to the loaded list. With no schema, it shows the status, stays reset and leaves the last-used records untouched. Otherwise it stamps the chosen key with `now` and opens its schema. On success the engine's context is in its reset state with no overlay, and the trace shows exactly the empty composition. An unregistered parser raises KeyError and shows nothing. The stored schema list is never changed. |
| Chooser.SchemaChooser.Reset | engine/stylo/zimeengine.py:174-177 | Active, empty list, no engine. |
| Chooser.SchemaChooser.LoadSchemaList | engine/stylo/zimeengine.py:178-184 | The list becomes the stored schemas as menu entries, most recently used first. |
| Chooser.SchemaChooser.Choose | engine/stylo/zimeengine.py:185-200 | It applies the choice rule to the current list, and with nothing to choose shows 無方案 and resets. Otherwise it stamps the key with `now`, closes and empties the menu, and opens the schema. On success the fresh engine shows an empty composition. On KeyError the old engine is kept and nothing is shown. |
| Chooser.SchemaChooser.Activate | engine/stylo/zimeengine.py:201-205 | Opens the menu on a freshly loaded list and shows 方案選單 and the list. |
| Chooser.SchemaChooser.MenuKey | engine/stylo/zimeengine.py:213-240 | The open menu's keys. Shift and hotkey masks return false, and releases return true. Escape closes the menu and refreshes the engine if there is one. Paging keys page. A digit inside the list opens its entry's schema. Every other key is swallowed. Only that digit changes the store or the chooser's engine; no key changes the old engine's state. |
| Chooser.SchemaChooser.OpenEntry | engine/stylo/zimeengine.py:234-238 | Chooses the key of the entry the digit points at: the menu closes and empties, the key is stamped with `now`, and its schema opens as `choose` opens it; on KeyError the old engine stays untouched and nothing is shown. |
| Chooser.SchemaChooser.ProcessKeyEvent | engine/stylo/zimeengine.py:206-240 | With the menu closed, Control+` opens it without touching the engine or the store, and any other key goes to the engine. With the menu open, no key but a digit that opens a schema changes the engine or the store. Shift and hotkey masks return false and releases true, and Escape closes the menu and refreshes the engine if there is one. Paging keys page. A digit opens the schema its entry resolves to only when its index is inside the list, as `choose` does: the stored schema list is unchanged and the new engine starts from the reset context with no overlay. Every other key is swallowed. |

## Left out

- The bootstrap in `engine/stylo/zimeengine.py:16-32` is not modelled. It is environment variables, paths, directory creation and opening the database: I/O.
- `engine/zime.py` is not part of this model. The frontend is the event trace plus the `candidateIndex` answer. Paging does not change what `candidateIndex` answers, because the lookup table behind it is not visible.
- The answers of `page_up` and `page_down` are not modelled, because every path of the core returns true whatever they answer.
- The candidate model, the parsers and the settings database (`zimemodel`, `zimeparser`, `zimedb`) are not part of this model.
  - `Model.update`, `Model.select`, `Parser.process` and `Parser.check_punct` are given functions. The model and `process` see the whole context as a `ZimeCore.Snapshot`, and `process` and `check_punct` also see the parser's own buffer.
  - `Model.learn` only records the composition it was given.
  - `Parser.process` answers one of four reactions: reject, accept, replace the keywords, or defer. A real parser could also act after the fallback returns; that is not captured.
  - The model may rewrite the keywords, the preedit, the candidates, the selection and the aux text. `ModelLogic.Sound` assumes that what it writes leaves at least one segment, one preedit fragment per segment, and the cursor on a segment. `update_ui` relies on this.
  - `Model.update` and `Model.select` are assumed not to move the cursor: `ZimeCore.Model.Update` and `ZimeCore.Model.Select` write everything but the cursor, because the core itself sets the cursor just before each call.
- `Store.UpdateLastUsed` treats `update_setting` as an upsert of one record per key, since `zimedb` is not visible.
- A schema's configuration is read into a map when it is opened. It is not re-read from the database on every lookup.
- `time.time()` and `float()` are not modelled. Last-used times are integers, and the current time is the parameter `now`.
- The `print` in `update_ui` is left out because it is output only. `unichr` in `get_char` is the given function `decode`.
- `KeyEvent.coined` is an input flag of the event, because nothing in the core defines it.
- The `kwd`, `cand` and `sugg` fields that `__reset` sets are left out, because the core never reads them.
- The `len(k) < 1` guard of the Backspace branch is left out: the context invariant keeps at least one segment. The `len(k) < 2` fallback is kept in `ZimeEngine.Engine.Backspace`, although `__process` reaches Backspace only when the context is not empty.
- The class-level parser dictionary is an explicit `ParserRegistry` object that is passed to whoever opens a schema.
- Some paths the source does not defend are excluded by preconditions:
  - Delegating to a missing engine once Escape has closed the menu with no engine is excluded by the precondition `active || engine != null`.
  - An empty keyword list is excluded by the context invariant.
- ZimeEngine.Engine.ProcessKeyEvent: for an event the parser defers, it states only the engine invariant and a growing trace. `ZimeEngine.Engine.Process` states what the fallback does.
- ZimeEngine.Engine.Dispatch: for a deferred event, it states only the engine invariant and a growing trace, for the same reason.
- Chooser.SchemaChooser.ProcessKeyEvent: for a key delegated to the engine, it states that the chooser's own fields and the store are unchanged, the trace only grows, and a masked key returns false. The engine's own contract covers the rest.

# AceEditor bookkeeping core

A Dafny model of the state machine inside the JavaFX `AceEditor` control. The
control wraps the Ace code editor, which runs in an embedded web page. The
model covers four parts:

- **Buffer-until-ready configuration.** Until the page's document is ready
  (`loaded` is false), the control stores options, pending content and
  completion word lists in fields. After that, each setter sends a script
  call instead. The document-ready listener sets `loaded`, shows the pending
  content and replays the caches.
- **The shortcut registry.** It is an insertion-ordered map (`LinkedHashMap`)
  from action name to key combination. It has put, remove, the reserved name
  "change", and a first-match lookup over it.
- **The handler registry.** It keeps one handler list per name. New handlers
  go to the front. Dispatch runs the list in order and stops as soon as the
  event is consumed. That is right after the first handler that consumes a
  fresh event, or after the first handler for an event already consumed.
- **The change gate.** Key-press sets the `keyPressed` flag and key-release
  clears it. The flag guards the "change" notification on key-typed.

The modules are:

- `Wrappers`: `Option`.
- `Script`: the themes, the option values, and one `Command` constructor per
  call into the page. That is each script call, plus `SetText`, which stands
  for the DOM call `setTextContent` on the "editor" element. `ScriptState` reads the script context as the option and
  completion tables that the calls overwrite by name.
- `HashOrder`: iteration over a `HashMap`'s key set. `KeyOrder` may return
  any permutation of the keys, and `IsKeyOrder` says which sequences qualify.
- `Shortcuts`: the ordered shortcut map, kept as a sequence of bindings.
- `Handlers`: handler lists, `Ran` (which handlers a dispatch runs), and the
  `Dispatch` loop.
- `Replay`: the command sequences of `setContentInWebview` and of the
  document-ready listener. It also proves what they leave in the script
  context, whatever order the hash maps give their keys in.
- `Editor`: the class `AceEditor`, with the source's fields, its setters,
  its listeners as methods, and the lemmas about the change gate.

The outside world is represented as follows:

- Every call into the page is appended to the field `trace`. These are the script calls, plus the DOM call that sets the editor element's text.
- Every handler call is appended to the field `fired`.
- `KeyCombination.match` is a function value passed to the constructor.
- The `ace.emmet` system property is a constructor parameter.
- A handler is seen only through whether it consumes its event.

The model follows the code where a reader might expect otherwise. When the
document becomes ready with no content pending, only `initEditor()` is sent,
and the cached options are not replayed. `Replay.ReadyHead` and `Replay.ReadyEffect` state this
case explicitly.

## Model

| member | source | states |
|---|---|---|
| Script.ThemePath | src/main/java/be/nabu/jfx/control/ace/AceEditor.java:34-48 | Only DEFAULT has no path. Every other theme's path lies under ace/theme/. |
| Editor.AceEditor.constructor | src/main/java/be/nabu/jfx/control/ace/AceEditor.java:85-119 | Afterwards nothing is loaded or pending. The six default shortcuts are bound in call order. "save" and "close" each hold one consuming handler. The fifteen modes are mapped. The theme is Monokai dark. The options hold the theme path, plus Emmet exactly when it is switched on. Nothing has reached the script context. |
| Editor.AceEditor.Configure | src/main/java/be/nabu/jfx/control/ace/AceEditor.java:86-118 | The constructor's calls give the default shortcuts, handlers, modes, theme and options, and send no script call before load. |
| Editor.AceEditor.BindDefaultKeys | src/main/java/be/nabu/jfx/control/ace/AceEditor.java:86-91 | The six setKeyCombination calls leave the shortcut map equal to the default bindings in call order. |
| Editor.AceEditor.BindNext | src/main/java/be/nabu/jfx/control/ace/AceEditor.java:86-91 | Binding the next name of a map with no repeated names extends the bound prefix by exactly that binding. |
| Editor.AceEditor.SubscribeDefaults | src/main/java/be/nabu/jfx/control/ace/AceEditor.java:95-96 | "save" and "close" each end up with the single consuming handler. |
| Editor.AceEditor.MapDefaultModes | src/main/java/be/nabu/jfx/control/ace/AceEditor.java:98-112 | The fifteen setMode calls give exactly the default content-type-to-mode map. |
| Editor.AceEditor.ApplyDefaultSettings | src/main/java/be/nabu/jfx/control/ace/AceEditor.java:114-118 | The theme becomes Monokai dark. The options gain its path, and gain Emmet only when it is switched on. |
| Editor.DefaultKeysDistinct | src/main/java/be/nabu/jfx/control/ace/AceEditor.java:86-91 | The default shortcuts bind no name twice. |
| Editor.DefaultKeysNames | src/main/java/be/nabu/jfx/control/ace/AceEditor.java:86-91 | The default shortcuts bind copy, paste, save, closeAll, close and fullScreen in that order, and never "change". |
| Editor.CloseAllTestedBeforeClose | src/main/java/be/nabu/jfx/control/ace/AceEditor.java:86-91 | With the default shortcuts, an event that Control+Shift+W matches never resolves to "close". |
| Editor.AceEditor.SetOption | src/main/java/be/nabu/jfx/control/ace/AceEditor.java:153-158 | The key is always cached with its value. A setOption call is appended to the trace if and only if the page is loaded. |
| Editor.AceEditor.SetWrap | src/main/java/be/nabu/jfx/control/ace/AceEditor.java:120-122 | Sets the "wrap" option to the flag. |
| Editor.AceEditor.SetShowWhitespace | src/main/java/be/nabu/jfx/control/ace/AceEditor.java:129-131 | Sets the "showInvisibles" option to the flag. |
| Editor.AceEditor.SetEmmet | src/main/java/be/nabu/jfx/control/ace/AceEditor.java:132-134 | Sets the "enableEmmet" option to the flag. |
| Editor.AceEditor.SetLiveAutocompletion | src/main/java/be/nabu/jfx/control/ace/AceEditor.java:135-137 | Sets the "enableLiveAutocompletion" option to the flag. |
| Editor.AceEditor.SetTabSize | src/main/java/be/nabu/jfx/control/ace/AceEditor.java:138-140 | Sets the "tabSize" option to the number. |
| Editor.AceEditor.SetSoftTabs | src/main/java/be/nabu/jfx/control/ace/AceEditor.java:141-143 | Sets the "useSoftTabs" option to the flag. |
| Editor.AceEditor.SetReadOnly | src/main/java/be/nabu/jfx/control/ace/AceEditor.java:144-146 | Sets the "readOnly" option to the flag. |
| Editor.AceEditor.SetTheme | src/main/java/be/nabu/jfx/control/ace/AceEditor.java:147-152 | The theme is always recorded. The quoted path is set as the "theme" option only when the theme has a path. Otherwise the options and the trace stay as they were. |
| Editor.AceEditor.SetMode | src/main/java/be/nabu/jfx/control/ace/AceEditor.java:159-161 | The content type is mapped to the mode, and every other mapping is kept. |
| Editor.AceEditor.SetKeyCombination | src/main/java/be/nabu/jfx/control/ace/AceEditor.java:162-172 | "change" is refused with an illegal-argument outcome and leaves the map alone. An absent combination removes the binding. A present one is put, so a new name goes to the end and a bound name keeps its place. The map never binds a name twice and never binds "change". |
| Editor.AceEditor.Subscribe | src/main/java/be/nabu/jfx/control/ace/AceEditor.java:174-179 | The handler map becomes the one `Subscribed` describes: the handler is in front of the name's list, and no other list changes. |
| Editor.AceEditor.Append | src/main/java/be/nabu/jfx/control/ace/AceEditor.java:190-195 | Once loaded, the text is pasted. Before that, nothing is sent and nothing is buffered. |
| Editor.AceEditor.AddStartsWith | src/main/java/be/nabu/jfx/control/ace/AceEditor.java:197-205 | Once loaded, the list is sent and the cache is left alone. Before that, it is cached under its name and nothing is sent. |
| Editor.AceEditor.AddContains | src/main/java/be/nabu/jfx/control/ace/AceEditor.java:207-215 | The same for the contains lists. |
| Editor.AceEditor.SetContent | src/main/java/be/nabu/jfx/control/ace/AceEditor.java:327-335 | Once loaded, the content commands are sent and the pending pair is untouched. Before that, nothing is sent and only the latest pair is kept. |
| Editor.AceEditor.SetContentInWebview | src/main/java/be/nabu/jfx/control/ace/AceEditor.java:384-409 | Appends exactly the content command sequence to the trace. |
| Editor.AceEditor.Trigger | src/main/java/be/nabu/jfx/control/ace/AceEditor.java:72-83 | The handlers of the name run with a new action event, up to and including the first consumer. An absent or empty list runs nothing. |
| Editor.AceEditor.FireChanged | src/main/java/be/nabu/jfx/control/ace/AceEditor.java:311-321 | The "change" handlers run with the given event, as `RanFor` says. A fresh event runs them up to and including the first consumer. An event that arrives already consumed runs only the first handler. An absent or empty list runs nothing. |
| Editor.AceEditor.KeyPressed | src/main/java/be/nabu/jfx/control/ace/AceEditor.java:270-288 | Sets `keyPressed`. Runs the handlers of the first matching shortcut, in insertion order, and runs nothing when no shortcut matches. |
| Editor.AceEditor.KeyReleased | src/main/java/be/nabu/jfx/control/ace/AceEditor.java:289-294 | Clears `keyPressed`. |
| Editor.AceEditor.KeyTyped | src/main/java/be/nabu/jfx/control/ace/AceEditor.java:295-303 | The "change" handlers run exactly when a key is down, the character is non-null and non-empty, and Control is up. Otherwise nothing runs. |
| Editor.ReleaseClosesGate | src/main/java/be/nabu/jfx/control/ace/AceEditor.java:289-300 | After a release with no later press, no typed character notifies "change". |
| Editor.PressOpensGate | src/main/java/be/nabu/jfx/control/ace/AceEditor.java:270-300 | After a press with no later release, a typed character notifies "change" if and only if it is non-empty and Control is up. |
| Editor.PressedAfterAppend | src/main/java/be/nabu/jfx/control/ace/AceEditor.java:270-294 | Running two sequences of listener calls one after the other leaves the flag as running their concatenation does. |
| Editor.ChangeGate | src/main/java/be/nabu/jfx/control/ace/AceEditor.java:298 | The gate is closed when no key is down, when Control is down, and when the typed character is null or empty. |
| Editor.Step | src/main/java/be/nabu/jfx/control/ace/AceEditor.java:273-292 | A press sets the flag, a release clears it, and a typed character leaves it alone. |
| Editor.AceEditor.RunKeys | src/main/java/be/nabu/jfx/control/ace/AceEditor.java:270-303 | Running a sequence of key actions through the class's three listeners leaves `keyPressed` where `PressedAfter` says. This ties the gate lemmas to the listener methods. It states nothing about which handlers fire; each listener's own contract does. |
| Editor.AceEditor.DocumentReady | src/main/java/be/nabu/jfx/control/ace/AceEditor.java:244-266 | The page becomes loaded. A pending pair is cleared and a missing one is kept as it was. The option and completion caches are unchanged. The trace grows by the ready segment: the content and every cached option in some key order, or only initEditor; then every startsWith list and then every contains list, each in some key order. |
| Editor.AceEditor.ShowContent | src/main/java/be/nabu/jfx/control/ace/AceEditor.java:247-258 | Sets `loaded`. With content pending, it sends the content and then every cached option. Without, it sends only initEditor. |
| Editor.AceEditor.ShowPending | src/main/java/be/nabu/jfx/control/ace/AceEditor.java:248-254 | The content is applied, the pending pair is cleared to none, and then every cached option is sent in a key order. |
| Editor.AceEditor.ReplayOptions | src/main/java/be/nabu/jfx/control/ace/AceEditor.java:252-254 | Sends one setOption per cached key, in a key order of the map, and leaves the cache unchanged. |
| Editor.AceEditor.ReplayCompletions | src/main/java/be/nabu/jfx/control/ace/AceEditor.java:259-264 | Sends every startsWith list and then every contains list, and leaves both caches unchanged. |
| Editor.AceEditor.ReplayStartsWith | src/main/java/be/nabu/jfx/control/ace/AceEditor.java:259-261 | Sends one startsWith registration per cached name, in a key order. |
| Editor.AceEditor.ReplayContains | src/main/java/be/nabu/jfx/control/ace/AceEditor.java:262-264 | Sends one contains registration per cached name, in a key order. |
| Replay.ModeOf | src/main/java/be/nabu/jfx/control/ace/AceEditor.java:405-406 | A content type that is none, or that the modes do not map, gives no mode. A mode found is one of the mapped modes. |
| Replay.OptionCommands | src/main/java/be/nabu/jfx/control/ace/AceEditor.java:252-254 | The option replay sends no more commands than the order lists keys. `OptionCommandsSent` and `OptionReplaySends` say which commands. |
| Replay.OptionCommandsSent | src/main/java/be/nabu/jfx/control/ace/AceEditor.java:252-254 | Each command of the option replay is a setOption of a listed key, with the value the cache holds for that key. |
| Replay.OptionReplaySends | src/main/java/be/nabu/jfx/control/ace/AceEditor.java:252-254 | Every cached option whose key the order lists appears in the replay as a setOption with its cached value. |
| Replay.CompletionCommands | src/main/java/be/nabu/jfx/control/ace/AceEditor.java:259-264 | A completion replay sends no more registrations than the order lists names. `CompletionCommandsSent` and `CompletionReplaySends` say which. |
| Replay.CompletionCommandsSent | src/main/java/be/nabu/jfx/control/ace/AceEditor.java:259-264 | Each registration of a completion replay is of that kind, for a listed name, with the list the cache holds for that name. |
| Replay.CompletionReplaySends | src/main/java/be/nabu/jfx/control/ace/AceEditor.java:259-264 | Every cached completion list whose name the order lists appears in the replay as a registration of its kind with its cached words. |
| Replay.ReadyHead | src/main/java/be/nabu/jfx/control/ace/AceEditor.java:247-258 | The first half of the ready listener always initialises the editor. It registers no completion list, and sends no option when no content was pending. |
| Replay.ReadySegment | src/main/java/be/nabu/jfx/control/ace/AceEditor.java:244-266 | In the whole ready segment, every startsWith registration comes before every contains registration. Each registration names an entry of its own cache. |
| Replay.ContentCommands | src/main/java/be/nabu/jfx/control/ace/AceEditor.java:384-409 | The content sequence has between three and five commands. |
| Replay.ContentCommandsShape | src/main/java/be/nabu/jfx/control/ace/AceEditor.java:384-409 | It starts with resetDiv, the text and initEditor. After them come only a theme and a mode, and the theme comes first. |
| Replay.ContentCommandsPresence | src/main/java/be/nabu/jfx/control/ace/AceEditor.java:401-408 | The theme is set if and only if it has a path. The mode is set if and only if the content type is mapped to one. |
| Replay.ContentCommandsInert | src/main/java/be/nabu/jfx/control/ace/AceEditor.java:384-409 | The content sequence holds no setOption and no completion registration, so, as `ScriptState` reads the page, it changes no option and no completion list. |
| Replay.OptionCommandsEffect | src/main/java/be/nabu/jfx/control/ace/AceEditor.java:252-254 | Sending the options in a given order leaves the script context with those cached options whose keys the order lists. |
| Replay.CompletionCommandsEffect | src/main/java/be/nabu/jfx/control/ace/AceEditor.java:259-264 | The same for a kind of completion list. |
| Replay.PendingEffect | src/main/java/be/nabu/jfx/control/ace/AceEditor.java:248-254 | With content pending, the replay in any key order leaves the script context holding every cached option. |
| Replay.ReadyHeadEffect | src/main/java/be/nabu/jfx/control/ace/AceEditor.java:247-258 | The first half of the listener sets every cached option when content was pending, and sets nothing otherwise. |
| Replay.ReadyEffect | src/main/java/be/nabu/jfx/control/ace/AceEditor.java:244-266 | After the listener, the script context holds every cached startsWith and contains list. It holds every cached option exactly when content was pending. Otherwise its options are as before, as `ScriptState` reads the page. |
| Replay.ReadyOrderIrrelevant | src/main/java/be/nabu/jfx/control/ace/AceEditor.java:244-266 | Any two key orders of the three hash maps leave the script context in the same state. |
| HashOrder.KeyOrder | src/main/java/be/nabu/jfx/control/ace/AceEditor.java:67-69 | A `keySet()` walk visits each key of the map exactly once, as a multiset. |
| HashOrder.KeyOrderMembers | src/main/java/be/nabu/jfx/control/ace/AceEditor.java:67-69 | A key order holds exactly the map's keys. |
| HashOrder.KeyOrderDistinct | src/main/java/be/nabu/jfx/control/ace/AceEditor.java:67-69 | A key order never lists a key twice. |
| Shortcuts.Get | src/main/java/be/nabu/jfx/control/ace/AceEditor.java:62 | A lookup finds nothing exactly when the name is unbound. What it finds is a binding of that name. |
| Shortcuts.GetAt | src/main/java/be/nabu/jfx/control/ace/AceEditor.java:62 | In a map without repeated names, each binding is what its name looks up. |
| Shortcuts.Put | src/main/java/be/nabu/jfx/control/ace/AceEditor.java:170 | A new name goes to the end of the names and a bound name keeps its place. No name becomes repeated. |
| Shortcuts.PutNew | src/main/java/be/nabu/jfx/control/ace/AceEditor.java:170 | Putting an unbound name appends its binding. |
| Shortcuts.PutLookup | src/main/java/be/nabu/jfx/control/ace/AceEditor.java:170 | After a put, the name looks up the new combination and every other name looks up its old one. |
| Shortcuts.PutNext | src/main/java/be/nabu/jfx/control/ace/AceEditor.java:86-91 | Putting the next binding of a map without repeated names onto its prefix gives the next prefix. |
| Shortcuts.RemoveNames | src/main/java/be/nabu/jfx/control/ace/AceEditor.java:167 | After removal, the name is unbound, every other name stays bound, and no name is repeated. |
| Shortcuts.RemoveLookup | src/main/java/be/nabu/jfx/control/ace/AceEditor.java:167 | After removal, the name looks up nothing and every other name looks up its old combination. |
| Shortcuts.RemoveUnbound | src/main/java/be/nabu/jfx/control/ace/AceEditor.java:167 | Removing an unbound name changes nothing. |
| Shortcuts.RemoveAt | src/main/java/be/nabu/jfx/control/ace/AceEditor.java:167 | Removing a bound name takes out exactly its binding and keeps the others in order. |
| Shortcuts.Remove | src/main/java/be/nabu/jfx/control/ace/AceEditor.java:167 | Removal never lengthens the map. `RemoveLength` gives the exact change. |
| Shortcuts.RemoveLength | src/main/java/be/nabu/jfx/control/ace/AceEditor.java:167 | Removal shortens the map by one binding when the name is bound, and keeps its length otherwise. |
| Shortcuts.GetMatch | src/main/java/be/nabu/jfx/control/ace/AceEditor.java:181-188 | The loop returns the first name in insertion order whose combination matches, or none. |
| Shortcuts.FirstMatch | src/main/java/be/nabu/jfx/control/ace/AceEditor.java:181-188 | A name found belongs to a binding whose combination matches the event. |
| Shortcuts.FirstMatchAt | src/main/java/be/nabu/jfx/control/ace/AceEditor.java:181-188 | A matching binding with no match before it is the one found. |
| Shortcuts.FirstMatchNone | src/main/java/be/nabu/jfx/control/ace/AceEditor.java:181-188 | Nothing is found if and only if no combination matches. |
| Shortcuts.EarlierBindingWins | src/main/java/be/nabu/jfx/control/ace/AceEditor.java:181-188 | When an earlier binding matches, a later binding's name is never the result. |
| Handlers.Subscribed | src/main/java/be/nabu/jfx/control/ace/AceEditor.java:174-179 | The name gains a list if it had none. The new list is the handler followed by the old list. Every other name's list is unchanged. |
| Handlers.HandlersOf | src/main/java/be/nabu/jfx/control/ace/AceEditor.java:74-75 | The list a dispatch runs is non-empty exactly when the name has a non-empty list, and it is then that list. An absent list reads as empty. |
| Handlers.LatestSubscribedFirst | src/main/java/be/nabu/jfx/control/ace/AceEditor.java:174-179 | After a run of subscriptions, the list is their reverse followed by the old list, so the latest runs first. Other names are untouched. |
| Handlers.LatestConsumerShadows | src/main/java/be/nabu/jfx/control/ace/AceEditor.java:174-179 | When the handler subscribed last consumes, it is the only one that runs. |
| Handlers.Ran | src/main/java/be/nabu/jfx/control/ace/AceEditor.java:76-81 | The handlers run form a prefix of the list. No handler in it but the last consumes, and the run ends early only at a consumer. |
| Handlers.RanIsDetermined | src/main/java/be/nabu/jfx/control/ace/AceEditor.java:76-81 | Those three facts determine the handlers that run. |
| Handlers.RanFor | src/main/java/be/nabu/jfx/control/ace/AceEditor.java:311-321 | The handlers run form a prefix of the list. An event already consumed runs at most the first handler, and a fresh event runs exactly `Ran`. |
| Handlers.Dispatch | src/main/java/be/nabu/jfx/control/ace/AceEditor.java:72-83 | The dispatch loop tests the event's consumed flag after each handler, and runs exactly `RanFor`: `Ran` of the list for a fresh event, and only the first handler for an event that arrives consumed. |

## Left out

- Editor.AceEditor.SetKeyCombination: the source refuses "change" by reference equality (`==` on strings). The model compares by value, so a "change" string that is not the interned constant, which the source would bind, is refused here.
- Editor.AceEditor.SetMode: it takes a content type that is a string. The source's `HashMap` also accepts a null key, and a mode registered under null would then apply to content without a type. That case is not modelled. A null mode is not modelled either. The source would map the content type to null, which `setContentInWebview` treats as unmapped.
- Editor.AceEditor.SetTheme: a null theme, which throws in the source, is not modelled. The `theme` field starts as `Default` where the source has null. Nothing reads it before the constructor's setTheme call.
- Editor.AceEditor.AddStartsWith: before load, the source caches the caller's `List` object itself. The ready listener sends whatever that list holds at that time, so a caller who changes the list later changes what is sent. The model caches the words as a value, as they were at the call. A null list, which throws in the source once loaded, is not modelled either.
- Editor.AceEditor.AddContains: the same sharing of the caller's list is not modelled, and neither is a null list.
- Editor.AceEditor.SetKeyCombination: names are strings, so a null name cannot be written. The source's `LinkedHashMap` would bind null, and `Shortcuts.GetMatch` would then return null for it.
- Shortcuts.GetMatch: a binding under a null name is not modelled. When it matches, the source returns null, which the key-press listener reads as "no match", so later matching bindings never run.
- Shortcuts.GetMatch: key events and combinations keep only Control and Shift. `KeyCodeCombination` also requires every modifier it does not name (Alt, Meta) to be up, so in the source Ctrl+Alt+S does not match Ctrl+S. In the model those two events are one value, so no matcher can tell them apart.
- Editor.AceEditor.Append: the text is a string, so `append(null)`, which sends a null paste to the page, is not modelled.
- The WebView itself is not modelled: its lazy synchronized creation, page loading, the context-menu and JavaScript flags, and `getWebView`. These are GUI plumbing. The model starts each listener as a method called on the editor.
- The load-worker state listener is not modelled. Its body is commented out, so it does nothing.
- `setContentInWebview`'s wait for the "editor" element, which sleeps in a loop, is not modelled. It is a timing workaround. The model keeps only the command sequence.
- `CopyHandler` and `PasteHandler` are not modelled. They drive the system clipboard and the page, and the constructor does not subscribe them. A handler is modelled only by whether it consumes its event. `PasteHandler` consumes its event and then fires "change" with it; `Editor.AceEditor.FireChanged` covers that call through its `alreadyConsumed` parameter.
- Handlers.Dispatch: `Trigger`, `KeyPressed` and `KeyTyped` dispatch a fresh event. A key event that some other part of the GUI toolkit consumed before it reached these listeners is not modelled.
- `getContent` and `requestFocus` are not modelled. They are calls into the page's script, whose behaviour is not visible here.
- The `ace.emmet` system property is not read. The constructor takes the flag as a parameter.
- `KeyCombination.match` is not defined here. The GUI toolkit decides it, and the model takes it as a function given to the constructor.
- Replay.ContentCommandsInert: `ScriptState` assumes that resetDiv, the text, initEditor, setTheme and setMode leave the page's options and completion lists alone. The page's script is not visible. The source sets the theme again after every initEditor, which suggests initEditor may reset the editor's settings. `Replay.ReadyEffect`'s "options as before" when no content was pending depends on this assumption. The trace-level facts, `ContentCommandsShape` and `OptionReplaySends`, do not.
- The text of the script strings is not modelled. `ScriptState` assumes that the page's `setOption` and completion registration keep the last value given per name, since that script code is not visible.
- Replay.OptionCommands: it sends nothing for a key the map lacks, where the source would send a null value. The listener only walks the map's own keys, so this case never arises. The same holds for CompletionCommands.
- The order in which a `HashMap` walks its keys is left open, so the model proves only facts that hold for every order.

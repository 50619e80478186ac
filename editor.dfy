/**
 * The editor widget's bookkeeping: settings buffered until the page's document
 * is ready, the shortcut and handler registries, the key listeners and the
 * change notification. Script calls are recorded in `trace`, handler calls in
 * `fired`.
 */
module Editor {
  import opened Wrappers
  import opened Script
  import opened HashOrder
  import opened Shortcuts
  import opened Handlers
  import opened Replay

  const Copy := "copy"
  const Paste := "paste"
  const Save := "save"
  const Close := "close"
  const CloseAll := "closeAll"
  const Change := "change"
  const FullScreen := "fullScreen"

  /** The shortcuts the constructor binds, in the order it binds them. */
  function DefaultKeys(): seq<Binding>
  {
    [ Binding(Copy, KeyCombo(C, true, false)),
      Binding(Paste, KeyCombo(V, true, false)),
      Binding(Save, KeyCombo(S, true, false)),
      Binding(CloseAll, KeyCombo(W, true, true)),
      Binding(Close, KeyCombo(W, true, false)),
      Binding(FullScreen, KeyCombo(F11, false, false)) ]
  }

  /** The constructor's shortcuts bind no name twice. */
  lemma DefaultKeysDistinct()
    ensures Distinct(DefaultKeys())
  {
    DistinctByNames(DefaultKeys());
  }

  /** The constructor's shortcuts bind these names, in this order, and so never "change". */
  lemma DefaultKeysNames()
    ensures Names(DefaultKeys()) == [Copy, Paste, Save, CloseAll, Close, FullScreen]
    ensures Change !in Names(DefaultKeys())
  {
    var d := DefaultKeys();
    NameAt(d, 0);
    NameAt(d, 1);
    NameAt(d, 2);
    NameAt(d, 3);
    NameAt(d, 4);
    NameAt(d, 5);
  }

  /** The content types the constructor gives a syntax mode. */
  function DefaultModes(): map<string, string>
  {
    map[
      "application/javascript" := "javascript",
      "application/x-javascript" := "javascript",
      "text/html" := "html",
      "text/xml" := "xml",
      "application/xml" := "xml",
      "text/x-glue" := "python",
      "text/x-eglue" := "python",
      "text/x-gcss" := "css",
      "text/css" := "css",
      "text/x-markdown" := "markdown",
      "application/x-sql" := "sql",
      "text/sql" := "sql",
      "text/x-template" := "html",
      "text/x-sass" := "sass",
      "text/x-scss" := "scss"
    ]
  }

  /** The options the constructor caches: the Monokai dark theme, and Emmet when it is switched on. */
  function DefaultOptions(enableEmmet: bool): map<string, OptionValue>
  {
    map["theme" := TextValue(Quoted("ace/theme/monokai-dark"))]
    + (if enableEmmet then map["enableEmmet" := BoolValue(true)] else map[])
  }

  /** The event a handler is given: a fresh action event, or the key event itself. */
  datatype Event = ActionEvent | KeyPressEvent(key: KeyEvent) | KeyTypedEvent(key: KeyEvent)

  /** One call of a handler with an event. */
  datatype Invocation = Invocation(handler: Handler, event: Event)

  function Invocations(hs: seq<Handler>, event: Event): seq<Invocation>
  {
    seq(|hs|, i requires 0 <= i < |hs| => Invocation(hs[i], event))
  }

  /** How setKeyCombination ends: normally, or with an IllegalArgumentException. */
  datatype Outcome = Done | IllegalArgument(message: string)

  /** The test of the key-typed listener: a key is down, a character was typed, and Control is up. */
  function ChangeGate(pressed: bool, e: KeyEvent): (open: bool)
    ensures !pressed ==> !open
    ensures e.controlDown ==> !open
    ensures e.character.None? || e.character == Some("") ==> !open
  {
    pressed && e.character.Some? && |e.character.value| > 0 && !e.controlDown
  }

  class AceEditor {
    const matches: Matcher
    var loaded: bool
    var contentType: Option<string>
    var content: Option<string>
    var keys: seq<Binding>
    var handlers: map<string, seq<Handler>>
    var modes: map<string, string>
    var keyPressed: bool
    var options: map<string, OptionValue>
    var startsWith: map<string, seq<string>>
    var contains: map<string, seq<string>>
    var theme: AceTheme
    var trace: seq<Command>
    var fired: seq<Invocation>

    /**
     * The shortcut map has no repeated name and never binds "change"; nothing
     * reaches the script context before the document is ready; and once it is,
     * no content is pending any more.
     */
    ghost predicate Valid()
      reads this`keys, this`loaded, this`trace, this`content
    {
      && Distinct(keys)
      && Change !in Names(keys)
      && (!loaded ==> trace == [])
      && (loaded ==> content == None)
    }

    /** setOption's effect: cached always, sent to the script only once loaded. */
    twostate predicate OptionSet(key: string, value: OptionValue)
      reads this
    {
      && options == old(options)[key := value]
      && trace == old(trace) + (if loaded then [Command.SetOption(key, value)] else [])
    }

    constructor (matches: Matcher, enableEmmet: bool)
      ensures Valid() && this.matches == matches
      ensures !loaded && !keyPressed && contentType == None && content == None
      ensures keys == DefaultKeys()
      ensures handlers == map[Save := [ConsumeHandler], Close := [ConsumeHandler]]
      ensures modes == DefaultModes()
      ensures theme == MonokaiDark
      ensures options == DefaultOptions(enableEmmet)
      ensures startsWith == map[] && contains == map[]
      ensures trace == [] && fired == []
    {
      this.matches := matches;
      loaded, contentType, content := false, None, None;
      keys, handlers, modes := [], map[], map[];
      keyPressed := false;
      options, startsWith, contains := map[], map[], map[];
      theme := Default;
      trace, fired := [], [];
      new;
      Configure(enableEmmet);
    }

    /** The constructor's calls: the default shortcuts, handlers and modes, then the theme and Emmet. */
    method Configure(enableEmmet: bool)
      requires Valid() && !loaded && keys == [] && handlers == map[] && modes == map[] && options == map[]
      modifies this`keys, this`handlers, this`modes, this`options, this`trace, this`theme
      ensures Valid() && trace == old(trace)
      ensures keys == DefaultKeys()
      ensures handlers == map[Save := [ConsumeHandler], Close := [ConsumeHandler]]
      ensures modes == DefaultModes()
      ensures theme == MonokaiDark
      ensures options == DefaultOptions(enableEmmet)
    {
      BindDefaultKeys();
      SubscribeDefaults();
      MapDefaultModes();
      ApplyDefaultSettings(enableEmmet);
    }

    /** The constructor's last calls: the Monokai dark theme, then Emmet when it is switched on. */
    method ApplyDefaultSettings(enableEmmet: bool)
      requires Valid() && !loaded && options == map[]
      modifies this`options, this`trace, this`theme
      ensures Valid() && theme == MonokaiDark && trace == old(trace)
      ensures options == DefaultOptions(enableEmmet)
    {
      SetTheme(MonokaiDark);
      if enableEmmet {
        SetEmmet(true);
      }
    }

    /** The constructor's six setKeyCombination calls; each binds a name not yet bound, so it goes to the end. */
    method BindDefaultKeys()
      requires Valid() && keys == []
      modifies this`keys
      ensures Valid() && keys == DefaultKeys()
    {
      ghost var d := DefaultKeys();
      DefaultKeysDistinct();
      DefaultKeysNames();
      var r := BindNext(d, 0, Copy, KeyCombo(C, true, false));
      r := BindNext(d, 1, Paste, KeyCombo(V, true, false));
      r := BindNext(d, 2, Save, KeyCombo(S, true, false));
      r := BindNext(d, 3, CloseAll, KeyCombo(W, true, true));
      r := BindNext(d, 4, Close, KeyCombo(W, true, false));
      r := BindNext(d, 5, FullScreen, KeyCombo(F11, false, false));
      assert d[..6] == d;
    }

    /** One of those calls: it binds the next binding of `d` after the prefix bound so far. */
    method BindNext(ghost d: seq<Binding>, i: nat, name: string, combo: KeyCombo) returns (r: Outcome)
      requires Valid() && Distinct(d) && Change !in Names(d)
      requires i < |d| && d[i] == Binding(name, combo) && keys == d[..i]
      modifies this`keys
      ensures Valid() && keys == d[..i + 1]
    {
      PutNext(d, i);
      PrefixDistinct(d, i + 1);
      r := SetKeyCombination(name, Some(combo));
    }

    /** The constructor's two subscriptions: saving and closing are consumed so they do not reach the parent. */
    method SubscribeDefaults()
      requires handlers == map[]
      modifies this`handlers
      ensures handlers == map[Save := [ConsumeHandler], Close := [ConsumeHandler]]
    {
      Subscribe(Save, ConsumeHandler);
      assert [ConsumeHandler] + [] == [ConsumeHandler];
      ghost var saved := handlers;
      assert saved == map[Save := [ConsumeHandler]];
      assert |Close| != |Save|;
      Subscribe(Close, ConsumeHandler);
      assert handlers == saved[Close := [ConsumeHandler] + []];
    }

    /** The constructor's fifteen setMode calls. */
    method MapDefaultModes()
      requires modes == map[]
      modifies this`modes
      ensures modes == DefaultModes()
    {
      SetMode("application/javascript", "javascript");
      SetMode("application/x-javascript", "javascript");
      SetMode("text/html", "html");
      SetMode("text/xml", "xml");
      SetMode("application/xml", "xml");
      SetMode("text/x-glue", "python");
      SetMode("text/x-eglue", "python");
      SetMode("text/x-gcss", "css");
      SetMode("text/css", "css");
      SetMode("text/x-markdown", "markdown");
      SetMode("application/x-sql", "sql");
      SetMode("text/sql", "sql");
      SetMode("text/x-template", "html");
      SetMode("text/x-sass", "sass");
      SetMode("text/x-scss", "scss");
    }

    method SetOption(key: string, value: OptionValue)
      requires Valid()
      modifies this`options, this`trace
      ensures Valid() && OptionSet(key, value)
    {
      options := options[key := value];
      if loaded {
        trace := trace + [Command.SetOption(key, value)];
      }
    }

    method SetWrap(wrapping: bool)
      requires Valid()
      modifies this`options, this`trace
      ensures Valid() && OptionSet("wrap", BoolValue(wrapping))
    {
      SetOption("wrap", BoolValue(wrapping));
    }

    method SetShowWhitespace(showWhitespace: bool)
      requires Valid()
      modifies this`options, this`trace
      ensures Valid() && OptionSet("showInvisibles", BoolValue(showWhitespace))
    {
      SetOption("showInvisibles", BoolValue(showWhitespace));
    }

    method SetEmmet(enableEmmet: bool)
      requires Valid()
      modifies this`options, this`trace
      ensures Valid() && OptionSet("enableEmmet", BoolValue(enableEmmet))
    {
      SetOption("enableEmmet", BoolValue(enableEmmet));
    }

    method SetLiveAutocompletion(autocompletion: bool)
      requires Valid()
      modifies this`options, this`trace
      ensures Valid() && OptionSet("enableLiveAutocompletion", BoolValue(autocompletion))
    {
      SetOption("enableLiveAutocompletion", BoolValue(autocompletion));
    }

    method SetTabSize(tabSize: int)
      requires Valid()
      modifies this`options, this`trace
      ensures Valid() && OptionSet("tabSize", IntValue(tabSize))
    {
      SetOption("tabSize", IntValue(tabSize));
    }

    method SetSoftTabs(softTabs: bool)
      requires Valid()
      modifies this`options, this`trace
      ensures Valid() && OptionSet("useSoftTabs", BoolValue(softTabs))
    {
      SetOption("useSoftTabs", BoolValue(softTabs));
    }

    method SetReadOnly(readOnly: bool)
      requires Valid()
      modifies this`options, this`trace
      ensures Valid() && OptionSet("readOnly", BoolValue(readOnly))
    {
      SetOption("readOnly", BoolValue(readOnly));
    }

    /** The theme is always recorded; the "theme" option is set only for a theme with a path. */
    method SetTheme(t: AceTheme)
      requires Valid()
      modifies this`options, this`trace, this`theme
      ensures Valid() && theme == t
      ensures ThemePath(t).Some? ==> OptionSet("theme", TextValue(Quoted(ThemePath(t).value)))
      ensures ThemePath(t).None? ==> options == old(options) && trace == old(trace)
    {
      var path := ThemePath(t);
      if path.Some? {
        SetOption("theme", TextValue(Quoted(path.value)));
      }
      theme := t;
    }

    method SetMode(contentType: string, mode: string)
      modifies this`modes
      ensures modes == old(modes)[contentType := mode]
    {
      modes := modes[contentType := mode];
    }

    /**
     * Refuses "change", which is the absence of a shortcut; an absent
     * combination removes the binding, a present one binds or rebinds it.
     */
    method SetKeyCombination(name: string, combo: Option<KeyCombo>) returns (r: Outcome)
      requires Valid()
      modifies this`keys
      ensures Valid()
      ensures name == Change ==> r.IllegalArgument? && keys == old(keys)
      ensures name != Change ==> r == Done
      ensures name != Change && combo.None? ==> keys == Remove(old(keys), name)
      ensures name != Change && combo.Some? ==> keys == Put(old(keys), name, combo.value)
    {
      if name == Change {
        return IllegalArgument("Can not set a key combination on change, it is the absence of a key combination");
      }
      if combo.None? {
        RemoveNames(keys, name);
        keys := Remove(keys, name);
      } else {
        keys := Put(keys, name, combo.value);
      }
      r := Done;
    }

    method Subscribe(name: string, h: Handler)
      modifies this`handlers
      ensures handlers == Subscribed(old(handlers), name, h)
    {
      if name !in handlers {
        handlers := handlers[name := []];
      }
      handlers := handlers[name := [h] + handlers[name]];
    }

    /** Pastes text into the editor once loaded; before that it is dropped, not buffered. */
    method Append(text: string)
      requires Valid()
      modifies this`trace
      ensures Valid()
      ensures trace == old(trace) + (if loaded then [PasteValue(text)] else [])
    {
      if loaded {
        trace := trace + [PasteValue(text)];
      }
    }

    method AddStartsWith(name: string, values: seq<string>)
      requires Valid()
      modifies this`trace, this`startsWith
      ensures Valid()
      ensures loaded ==> trace == old(trace) + [SetCompletions(StartsWith, name, values)] && startsWith == old(startsWith)
      ensures !loaded ==> trace == old(trace) && startsWith == old(startsWith)[name := values]
    {
      if loaded {
        trace := trace + [SetCompletions(StartsWith, name, values)];
      } else {
        startsWith := startsWith[name := values];
      }
    }

    method AddContains(name: string, values: seq<string>)
      requires Valid()
      modifies this`trace, this`contains
      ensures Valid()
      ensures loaded ==> trace == old(trace) + [SetCompletions(Contains, name, values)] && contains == old(contains)
      ensures !loaded ==> trace == old(trace) && contains == old(contains)[name := values]
    {
      if loaded {
        trace := trace + [SetCompletions(Contains, name, values)];
      } else {
        contains := contains[name := values];
      }
    }

    /** Once loaded the content goes to the page at once; before, only the latest pair is kept. */
    method SetContent(contentType: Option<string>, text: Option<string>)
      requires Valid()
      modifies this`trace, this`contentType, this`content
      ensures Valid()
      ensures loaded ==> trace == old(trace) + ContentCommands(contentType, text, theme, modes)
                         && this.contentType == old(this.contentType) && content == old(content)
      ensures !loaded ==> trace == old(trace) && this.contentType == contentType && content == text
    {
      if loaded {
        SetContentInWebview(contentType, text);
      } else {
        this.contentType := contentType;
        content := text;
      }
    }

    method SetContentInWebview(contentType: Option<string>, text: Option<string>)
      modifies this`trace
      ensures trace == old(trace) + ContentCommands(contentType, text, theme, modes)
    {
      trace := trace + [ResetDiv, SetText(text), InitEditor];
      var path := ThemePath(theme);
      if path.Some? {
        trace := trace + [Command.SetTheme(path.value)];
      }
      var mode := ModeOf(modes, contentType);
      if mode.Some? {
        trace := trace + [Command.SetMode(mode.value)];
      }
    }

    /** Runs the handlers of `name` with a new action event. */
    method Trigger(name: string)
      modifies this`fired
      ensures fired == old(fired) + Invocations(Ran(HandlersOf(handlers, name)), ActionEvent)
    {
      if name in handlers && handlers[name] != [] {
        var ran := Dispatch(handlers[name], false);
        fired := fired + Invocations(ran, ActionEvent);
      }
    }

    /**
     * Runs the "change" handlers with `event`, which may arrive already
     * consumed; then only the first handler runs.
     */
    method FireChanged(event: Event, alreadyConsumed: bool)
      modifies this`fired
      ensures fired == old(fired) + Invocations(RanFor(HandlersOf(handlers, Change), alreadyConsumed), event)
    {
      if Change in handlers && handlers[Change] != [] {
        var ran := Dispatch(handlers[Change], alreadyConsumed);
        fired := fired + Invocations(ran, event);
      }
    }

    /** The key-pressed listener: note the press, then run the handlers of the first matching shortcut. */
    method KeyPressed(e: KeyEvent)
      modifies this`keyPressed, this`fired
      ensures keyPressed
      ensures fired == old(fired) + match FirstMatch(keys, matches, e)
                                    case None => []
                                    case Some(n) => Invocations(Ran(HandlersOf(handlers, n)), KeyPressEvent(e))
    {
      keyPressed := true;
      var m := GetMatch(keys, matches, e);
      if m.Some? {
        if m.value in handlers && handlers[m.value] != [] {
          var ran := Dispatch(handlers[m.value], false);
          fired := fired + Invocations(ran, KeyPressEvent(e));
        }
      }
    }

    /** The key-released listener. */
    method KeyReleased(e: KeyEvent)
      modifies this`keyPressed
      ensures !keyPressed
    {
      keyPressed := false;
    }

    /**
     * Runs listener calls in order; the flag ends where the key actions leave
     * it. Only `keyPressed` is tied to the actions here: which handlers the
     * calls fire is what each listener's own contract states.
     */
    method RunKeys(acts: seq<KeyAction>)
      modifies this`keyPressed, this`fired
      ensures keyPressed == PressedAfter(old(keyPressed), acts)
    {
      var i := 0;
      while i < |acts|
        invariant 0 <= i <= |acts|
        invariant PressedAfter(old(keyPressed), acts) == PressedAfter(keyPressed, acts[i..])
      {
        assert acts[i..][1..] == acts[i + 1..];
        match acts[i] {
          case Pressed(e) => KeyPressed(e);
          case Released(e) => KeyReleased(e);
          case Typed(e) => KeyTyped(e);
        }
        i := i + 1;
      }
    }

    /** The key-typed listener: notify "change" only when the gate is open. */
    method KeyTyped(e: KeyEvent)
      modifies this`fired
      ensures fired == old(fired) + if ChangeGate(keyPressed, e)
                                    then Invocations(Ran(HandlersOf(handlers, Change)), KeyTypedEvent(e))
                                    else []
    {
      if keyPressed && e.character.Some? && |e.character.value| > 0 && !e.controlDown {
        FireChanged(KeyTypedEvent(e), false);
      }
    }

    /**
     * The document-ready listener. The ghost results are the orders in which
     * the three hash maps happened to give their keys.
     */
    method DocumentReady() returns (ghost optionOrder: seq<string>, ghost startsWithOrder: seq<string>, ghost containsOrder: seq<string>)
      requires Valid()
      modifies this`loaded, this`contentType, this`content, this`options, this`trace, this`startsWith, this`contains
      ensures Valid() && loaded && content == None
      ensures contentType == if old(content).Some? then None else old(contentType)
      ensures options == old(options) && startsWith == old(startsWith) && contains == old(contains)
      ensures old(content).Some? ==> IsKeyOrder(optionOrder, options.Keys)
      ensures IsKeyOrder(startsWithOrder, startsWith.Keys) && IsKeyOrder(containsOrder, contains.Keys)
      ensures trace == old(trace) + ReadySegment(old(contentType), old(content), theme, modes, options,
                                                 startsWith, contains, optionOrder, startsWithOrder, containsOrder)
    {
      optionOrder := ShowContent();
      startsWithOrder, containsOrder := ReplayCompletions();
      AppendAssoc(old(trace), ReadyHead(old(contentType), old(content), theme, modes, options, optionOrder),
                  CompletionCommands(StartsWith, startsWithOrder, startsWith), CompletionCommands(Contains, containsOrder, contains));
    }

    /**
     * The first half of the ready listener: the page is marked loaded; pending
     * content goes to it, the pending fields are cleared and every cached
     * option is sent; without pending content the editor is only initialised.
     */
    method ShowContent() returns (ghost order: seq<string>)
      requires Valid()
      modifies this`loaded, this`contentType, this`content, this`options, this`trace
      ensures Valid() && loaded && content == None && options == old(options)
      ensures contentType == if old(content).Some? then None else old(contentType)
      ensures old(content).Some? ==> IsKeyOrder(order, options.Keys)
      ensures trace == old(trace) + ReadyHead(old(contentType), old(content), theme, modes, options, order)
    {
      loaded := true;
      order := [];
      if content.Some? {
        order := ShowPending();
      } else {
        trace := trace + [InitEditor];
      }
    }

    /** Pending content goes to the page, the pending fields are cleared and every cached option is sent. */
    method ShowPending() returns (ghost order: seq<string>)
      requires Distinct(keys) && Change !in Names(keys) && loaded && content.Some?
      modifies this`contentType, this`content, this`options, this`trace
      ensures Valid() && contentType == None && content == None && options == old(options)
      ensures IsKeyOrder(order, options.Keys)
      ensures trace == old(trace) + ContentCommands(old(contentType), old(content), theme, modes) + OptionCommands(order, options)
    {
      SetContentInWebview(contentType, content);
      contentType := None;
      content := None;
      order := ReplayOptions();
    }

    /** The ready listener's walk over the cached options, each sent through setOption. */
    method ReplayOptions() returns (ghost order: seq<string>)
      requires Valid() && loaded
      modifies this`options, this`trace
      ensures Valid() && options == old(options)
      ensures IsKeyOrder(order, options.Keys)
      ensures trace == old(trace) + OptionCommands(order, options)
    {
      var walk := KeyOrder(options.Keys);
      KeyOrderMembers(walk, options.Keys);
      var i := 0;
      while i < |walk|
        invariant 0 <= i <= |walk|
        invariant Valid() && loaded && options == old(options)
        invariant trace == old(trace) + OptionCommands(walk[..i], options)
      {
        assert walk[..i + 1][..i] == walk[..i];
        UpdateSame(options, walk[i]);
        SetOption(walk[i], options[walk[i]]);
        i := i + 1;
      }
      assert walk[..|walk|] == walk;
      order := walk;
    }

    /** The second half of the ready listener: the cached startsWith lists, then the cached contains lists. */
    method ReplayCompletions() returns (ghost startsWithOrder: seq<string>, ghost containsOrder: seq<string>)
      requires Valid() && loaded
      modifies this`startsWith, this`contains, this`trace
      ensures Valid() && startsWith == old(startsWith) && contains == old(contains)
      ensures IsKeyOrder(startsWithOrder, startsWith.Keys) && IsKeyOrder(containsOrder, contains.Keys)
      ensures trace == old(trace) + CompletionCommands(StartsWith, startsWithOrder, startsWith)
                                  + CompletionCommands(Contains, containsOrder, contains)
    {
      startsWithOrder := ReplayStartsWith();
      containsOrder := ReplayContains();
    }

    /** The ready listener's walk over the cached startsWith lists, each sent through addStartsWith. */
    method ReplayStartsWith() returns (ghost order: seq<string>)
      requires Valid() && loaded
      modifies this`startsWith, this`trace
      ensures Valid() && startsWith == old(startsWith)
      ensures IsKeyOrder(order, startsWith.Keys)
      ensures trace == old(trace) + CompletionCommands(StartsWith, order, startsWith)
    {
      var walk := KeyOrder(startsWith.Keys);
      KeyOrderMembers(walk, startsWith.Keys);
      var i := 0;
      while i < |walk|
        invariant 0 <= i <= |walk|
        invariant Valid() && loaded && startsWith == old(startsWith)
        invariant trace == old(trace) + CompletionCommands(StartsWith, walk[..i], startsWith)
      {
        assert walk[..i + 1][..i] == walk[..i];
        AddStartsWith(walk[i], startsWith[walk[i]]);
        i := i + 1;
      }
      assert walk[..|walk|] == walk;
      order := walk;
    }

    /** The ready listener's walk over the cached contains lists, each sent through addContains. */
    method ReplayContains() returns (ghost order: seq<string>)
      requires Valid() && loaded
      modifies this`contains, this`trace
      ensures Valid() && contains == old(contains)
      ensures IsKeyOrder(order, contains.Keys)
      ensures trace == old(trace) + CompletionCommands(Contains, order, contains)
    {
      var walk := KeyOrder(contains.Keys);
      KeyOrderMembers(walk, contains.Keys);
      var i := 0;
      while i < |walk|
        invariant 0 <= i <= |walk|
        invariant Valid() && loaded && contains == old(contains)
        invariant trace == old(trace) + CompletionCommands(Contains, walk[..i], contains)
      {
        assert walk[..i + 1][..i] == walk[..i];
        AddContains(walk[i], contains[walk[i]]);
        i := i + 1;
      }
      assert walk[..|walk|] == walk;
      order := walk;
    }
  }

  /** With the constructor's shortcuts, "close" is never chosen for an event that "closeAll" matches. */
  lemma CloseAllTestedBeforeClose(matches: Matcher, e: KeyEvent)
    requires matches(KeyCombo(W, true, true), e)
    ensures FirstMatch(DefaultKeys(), matches, e) != Some(Close)
  {
    EarlierBindingWins(DefaultKeys(), matches, e, 3, 4);
  }

  /** Key presses, releases and typed characters, as the three listeners see them. */
  datatype KeyAction = Pressed(key: KeyEvent) | Released(key: KeyEvent) | Typed(key: KeyEvent)

  /** The `keyPressed` flag after one listener call. */
  function Step(pressed: bool, a: KeyAction): (r: bool)
    ensures a.Pressed? ==> r
    ensures a.Released? ==> !r
    ensures a.Typed? ==> r == pressed
  {
    match a
    case Pressed(_) => true
    case Released(_) => false
    case Typed(_) => pressed
  }

  /** The `keyPressed` flag after a run of listener calls. */
  function PressedAfter(pressed: bool, acts: seq<KeyAction>): bool
    decreases acts
  {
    if acts == [] then pressed else PressedAfter(Step(pressed, acts[0]), acts[1..])
  }

  lemma {:induction false} PressedAfterAppend(pressed: bool, a: seq<KeyAction>, b: seq<KeyAction>)
    ensures PressedAfter(pressed, a + b) == PressedAfter(PressedAfter(pressed, a), b)
    decreases a
  {
    if a == [] {
      assert a + b == b;
    } else {
      assert (a + b)[1..] == a[1..] + b;
      PressedAfterAppend(Step(pressed, a[0]), a[1..], b);
    }
  }

  lemma {:induction false} PressedAfterWithout(pressed: bool, acts: seq<KeyAction>)
    requires forall i :: 0 <= i < |acts| ==> (if pressed then !acts[i].Released? else !acts[i].Pressed?)
    ensures PressedAfter(pressed, acts) == pressed
    decreases acts
  {
    if acts != [] {
      PressedAfterWithout(pressed, acts[1..]);
    }
  }

  /** After a release and no later press, typed characters never notify "change". */
  lemma ReleaseClosesGate(pressed: bool, before: seq<KeyAction>, r: KeyEvent, after: seq<KeyAction>, e: KeyEvent)
    requires forall i :: 0 <= i < |after| ==> !after[i].Pressed?
    ensures !ChangeGate(PressedAfter(pressed, before + [Released(r)] + after), e)
  {
    PressedAfterAppend(pressed, before + [Released(r)], after);
    PressedAfterAppend(pressed, before, [Released(r)]);
    PressedAfterWithout(false, after);
  }

  /**
   * After a press and no later release, a typed character notifies "change"
   * exactly when it is non-empty and Control is up.
   */
  lemma PressOpensGate(pressed: bool, before: seq<KeyAction>, p: KeyEvent, after: seq<KeyAction>, e: KeyEvent)
    requires forall i :: 0 <= i < |after| ==> !after[i].Released?
    ensures ChangeGate(PressedAfter(pressed, before + [Pressed(p)] + after), e)
        <==> e.character.Some? && |e.character.value| > 0 && !e.controlDown
  {
    PressedAfterAppend(pressed, before + [Pressed(p)], after);
    PressedAfterAppend(pressed, before, [Pressed(p)]);
    PressedAfterWithout(true, after);
  }
}

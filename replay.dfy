/**
 * The command sequences the editor emits when content is applied and when the
 * page signals that its document is ready, and what they leave behind in the
 * script context whichever order the hash maps are walked in.
 */
module Replay {
  import opened Wrappers
  import opened Script
  import opened HashOrder

  /** The syntax mode registered for a content type; a null content type has none. */
  function ModeOf(modes: map<string, string>, contentType: Option<string>): (r: Option<string>)
    ensures contentType.None? ==> r.None?
    ensures r.Some? ==> r.value in modes.Values
    ensures contentType.Some? && r.None? ==> contentType.value !in modes
  {
    if contentType.Some? && contentType.value in modes then Some(modes[contentType.value]) else None
  }

  /**
   * setContentInWebview: reset the editor element, put the text in it,
   * initialise the editor, then the theme if it has a path and the mode if
   * the content type has one.
   */
  function ContentCommands(contentType: Option<string>, text: Option<string>, theme: AceTheme, modes: map<string, string>): (cs: seq<Command>)
    ensures 3 <= |cs| <= 5
  {
    [ResetDiv, SetText(text), InitEditor]
    + (match ThemePath(theme) case Some(p) => [SetTheme(p)] case None => [])
    + (match ModeOf(modes, contentType) case Some(m) => [SetMode(m)] case None => [])
  }

  /**
   * The content commands start with the reset, the text and initEditor; after
   * them come only a theme and a mode, the theme first.
   */
  lemma ContentCommandsShape(contentType: Option<string>, text: Option<string>, theme: AceTheme, modes: map<string, string>)
    ensures var cs := ContentCommands(contentType, text, theme, modes);
      && cs[..3] == [ResetDiv, SetText(text), InitEditor]
      && (forall c :: c in cs[3..] ==> c.SetTheme? || c.SetMode?)
      && (forall i, j :: 0 <= i < |cs| && 0 <= j < |cs| && cs[i].SetMode? && cs[j].SetTheme? ==> j < i)
  {
  }

  /** The theme is set exactly when it has a path, and the mode exactly when the content type has one. */
  lemma ContentCommandsPresence(contentType: Option<string>, text: Option<string>, theme: AceTheme, modes: map<string, string>)
    ensures var cs := ContentCommands(contentType, text, theme, modes);
      && (forall p :: SetTheme(p) in cs <==> ThemePath(theme) == Some(p))
      && (forall m :: SetMode(m) in cs <==> ModeOf(modes, contentType) == Some(m))
  {
  }

  /** One SetOption per key, in the order given; the map is read with get, so a key it lacks sends nothing. */
  function OptionCommands(order: seq<string>, options: map<string, OptionValue>): (cs: seq<Command>)
    ensures |cs| <= |order|
  {
    if order == [] then []
    else
      var k := order[|order| - 1];
      OptionCommands(order[..|order| - 1], options) + (if k in options then [SetOption(k, options[k])] else [])
  }

  /** One completion registration per name, in the order given. */
  function CompletionCommands(kind: CompletionKind, order: seq<string>, lists: map<string, seq<string>>): (cs: seq<Command>)
    ensures |cs| <= |order|
  {
    if order == [] then []
    else
      var k := order[|order| - 1];
      CompletionCommands(kind, order[..|order| - 1], lists) + (if k in lists then [SetCompletions(kind, k, lists[k])] else [])
  }

  /** Every command of the option replay sets a listed key to the value the map holds for it. */
  lemma {:induction false} OptionCommandsSent(order: seq<string>, options: map<string, OptionValue>)
    ensures forall c :: c in OptionCommands(order, options) ==>
              c.SetOption? && c.key in order && c.key in options && options[c.key] == c.value
  {
    if order != [] {
      OptionCommandsSent(order[..|order| - 1], options);
    }
  }

  /** Every command of a completion replay registers a listed name of that kind with the list the map holds for it. */
  lemma {:induction false} CompletionCommandsSent(kind: CompletionKind, order: seq<string>, lists: map<string, seq<string>>)
    ensures forall c :: c in CompletionCommands(kind, order, lists) ==>
              c.SetCompletions? && c.kind == kind && c.name in order && c.name in lists && lists[c.name] == c.words
  {
    if order != [] {
      CompletionCommandsSent(kind, order[..|order| - 1], lists);
    }
  }

  /** Every cached option whose key the order lists is sent, with its cached value. */
  lemma {:induction false} OptionReplaySends(order: seq<string>, options: map<string, OptionValue>, k: string)
    requires k in options && k in order
    ensures SetOption(k, options[k]) in OptionCommands(order, options)
  {
    var n := |order| - 1;
    if order[n] != k {
      assert k in order[..n] by {
        assert order == order[..n] + [order[n]];
      }
      OptionReplaySends(order[..n], options, k);
    }
  }

  /** Every cached completion list whose name the order lists is registered, with its cached words. */
  lemma {:induction false} CompletionReplaySends(kind: CompletionKind, order: seq<string>, lists: map<string, seq<string>>, k: string)
    requires k in lists && k in order
    ensures SetCompletions(kind, k, lists[k]) in CompletionCommands(kind, order, lists)
  {
    var n := |order| - 1;
    if order[n] != k {
      assert k in order[..n] by {
        assert order == order[..n] + [order[n]];
      }
      CompletionReplaySends(kind, order[..n], lists, k);
    }
  }

  /** The entries of `m` whose keys occur in `order`. */
  function Restricted<V>(m: map<string, V>, order: seq<string>): map<string, V>
  {
    map k | k in m && k in order :: m[k]
  }

  /**
   * The first part of the document-ready listener's commands: with content
   * pending, the content and then every cached option; without, only
   * initEditor.
   */
  function ReadyHead(contentType: Option<string>, content: Option<string>, theme: AceTheme,
                     modes: map<string, string>, options: map<string, OptionValue>, optionOrder: seq<string>): (r: seq<Command>)
    ensures InitEditor in r
    ensures forall c :: c in r ==> !c.SetCompletions?
    ensures content.None? ==> forall c :: c in r ==> !c.SetOption?
  {
    if content.Some? then
      OptionCommandsSent(optionOrder, options);
      ContentCommands(contentType, content, theme, modes) + OptionCommands(optionOrder, options)
    else [InitEditor]
  }

  /** All of the document-ready listener's commands: the head, then the startsWith and the contains completion lists. */
  function ReadySegment(contentType: Option<string>, content: Option<string>, theme: AceTheme,
                        modes: map<string, string>, options: map<string, OptionValue>,
                        startsWith: map<string, seq<string>>, contains: map<string, seq<string>>,
                        optionOrder: seq<string>, startsWithOrder: seq<string>, containsOrder: seq<string>): (r: seq<Command>)
    ensures forall i, j ::
              (0 <= i < |r| && 0 <= j < |r| && r[i].SetCompletions? && r[j].SetCompletions?
               && r[i].kind.StartsWith? && r[j].kind.Contains?) ==> i < j
    ensures forall c :: c in r && c.SetCompletions? ==> c.name in (if c.kind.StartsWith? then startsWith else contains)
  {
    CompletionCommandsSent(StartsWith, startsWithOrder, startsWith);
    CompletionCommandsSent(Contains, containsOrder, contains);
    ReadyHead(contentType, content, theme, modes, options, optionOrder)
    + CompletionCommands(StartsWith, startsWithOrder, startsWith)
    + CompletionCommands(Contains, containsOrder, contains)
  }

  lemma {:induction false} InertCommands(st: ScriptState, cs: seq<Command>)
    requires forall i :: 0 <= i < |cs| ==> !cs[i].SetOption? && !cs[i].SetCompletions?
    ensures ApplyAll(st, cs) == st
  {
    if cs != [] {
      InertCommands(st, cs[..|cs| - 1]);
    }
  }

  lemma RestrictedSnoc<V>(m: map<string, V>, order: seq<string>)
    requires order != []
    ensures var k := order[|order| - 1];
      Restricted(m, order) == if k in m then Restricted(m, order[..|order| - 1])[k := m[k]]
                              else Restricted(m, order[..|order| - 1])
  {
    var n := |order| - 1;
    assert order == order[..n] + [order[n]];
    forall k ensures k in order <==> k in order[..n] || k == order[n] {
    }
  }

  lemma UpdateSame<V>(m: map<string, V>, k: string)
    requires k in m
    ensures m[k := m[k]] == m
  {
  }

  lemma UnionUpdate<V>(a: map<string, V>, b: map<string, V>, k: string, v: V)
    ensures (a + b)[k := v] == a + b[k := v]
  {
  }

  /** Sending the options in `order` leaves the script context with those of them the map holds. */
  lemma {:induction false} OptionCommandsEffect(st: ScriptState, order: seq<string>, options: map<string, OptionValue>)
    ensures ApplyAll(st, OptionCommands(order, options)) == st.(options := st.options + Restricted(options, order))
  {
    if order != [] {
      var n := |order| - 1;
      var k := order[n];
      var pre := OptionCommands(order[..n], options);
      OptionCommandsEffect(st, order[..n], options);
      RestrictedSnoc(options, order);
      var r := Restricted(options, order[..n]);
      if k in options {
        ApplyAllSnoc(st, pre, SetOption(k, options[k]));
        var mid := st.(options := st.options + r);
        assert Apply(mid, SetOption(k, options[k])) == st.(options := (st.options + r)[k := options[k]]);
        UnionUpdate(st.options, r, k, options[k]);
      } else {
        assert pre + [] == pre;
      }
    }
  }

  /** Sending the completion lists in `order` leaves the script context with those of them the map holds. */
  lemma {:induction false} CompletionCommandsEffect(st: ScriptState, kind: CompletionKind, order: seq<string>, lists: map<string, seq<string>>)
    ensures ApplyAll(st, CompletionCommands(kind, order, lists))
         == WithCompletions(st, kind, Completions(st, kind) + Restricted(lists, order))
  {
    if order != [] {
      var n := |order| - 1;
      var k := order[n];
      var pre := CompletionCommands(kind, order[..n], lists);
      CompletionCommandsEffect(st, kind, order[..n], lists);
      RestrictedSnoc(lists, order);
      var r := Restricted(lists, order[..n]);
      if k in lists {
        ApplyAllSnoc(st, pre, SetCompletions(kind, k, lists[k]));
        ApplyCompletions(st, kind, Completions(st, kind) + r, k, lists[k]);
        UnionUpdate(Completions(st, kind), r, k, lists[k]);
      } else {
        assert pre + [] == pre;
      }
    }
  }

  /** Restricting a map to one of its key orders gives the whole map. */
  lemma RestrictedToKeyOrder<V>(m: map<string, V>, order: seq<string>)
    requires IsKeyOrder(order, m.Keys)
    ensures Restricted(m, order) == m
  {
    KeyOrderMembers(order, m.Keys);
  }

  /** The content commands leave the options and completion lists of the script context alone. */
  lemma ContentCommandsInert(st: ScriptState, contentType: Option<string>, text: Option<string>, theme: AceTheme, modes: map<string, string>)
    ensures ApplyAll(st, ContentCommands(contentType, text, theme, modes)) == st
  {
    var cs := ContentCommands(contentType, text, theme, modes);
    forall i | 0 <= i < |cs| ensures !cs[i].SetOption? && !cs[i].SetCompletions? {
    }
    InertCommands(st, cs);
  }

  /** Showing pending content and then sending the options in a key order sets every cached option, and nothing else. */
  lemma PendingEffect(st: ScriptState, contentType: Option<string>, content: Option<string>, theme: AceTheme,
                      modes: map<string, string>, options: map<string, OptionValue>, optionOrder: seq<string>)
    requires IsKeyOrder(optionOrder, options.Keys)
    ensures ApplyAll(st, ContentCommands(contentType, content, theme, modes) + OptionCommands(optionOrder, options))
         == st.(options := st.options + options)
  {
    var cc := ContentCommands(contentType, content, theme, modes);
    ApplyAllAppend(st, cc, OptionCommands(optionOrder, options));
    ContentCommandsInert(st, contentType, content, theme, modes);
    OptionCommandsEffect(st, optionOrder, options);
    RestrictedToKeyOrder(options, optionOrder);
  }

  /** The head of the ready replay sets every cached option when content was pending, and nothing else. */
  lemma ReadyHeadEffect(st: ScriptState, contentType: Option<string>, content: Option<string>, theme: AceTheme,
                        modes: map<string, string>, options: map<string, OptionValue>, optionOrder: seq<string>)
    requires content.Some? ==> IsKeyOrder(optionOrder, options.Keys)
    ensures ApplyAll(st, ReadyHead(contentType, content, theme, modes, options, optionOrder))
         == st.(options := if content.Some? then st.options + options else st.options)
  {
    if content.Some? {
      PendingEffect(st, contentType, content, theme, modes, options, optionOrder);
    } else {
      InertCommands(st, [InitEditor]);
    }
  }

  /**
   * After the ready replay the script context holds every cached completion
   * list and, when content was pending, every cached option; when no content
   * was pending the options are left as they were.
   */
  lemma ReadyEffect(st: ScriptState, contentType: Option<string>, content: Option<string>, theme: AceTheme,
                    modes: map<string, string>, options: map<string, OptionValue>,
                    startsWith: map<string, seq<string>>, contains: map<string, seq<string>>,
                    optionOrder: seq<string>, startsWithOrder: seq<string>, containsOrder: seq<string>)
    requires content.Some? ==> IsKeyOrder(optionOrder, options.Keys)
    requires IsKeyOrder(startsWithOrder, startsWith.Keys) && IsKeyOrder(containsOrder, contains.Keys)
    ensures ApplyAll(st, ReadySegment(contentType, content, theme, modes, options, startsWith, contains,
                                      optionOrder, startsWithOrder, containsOrder))
         == ScriptState(if content.Some? then st.options + options else st.options,
                        st.startsWith + startsWith, st.contains + contains)
  {
    var head := ReadyHead(contentType, content, theme, modes, options, optionOrder);
    var sw := CompletionCommands(StartsWith, startsWithOrder, startsWith);
    var ct := CompletionCommands(Contains, containsOrder, contains);
    ApplyAllAppend(st, head + sw, ct);
    ApplyAllAppend(st, head, sw);
    ReadyHeadEffect(st, contentType, content, theme, modes, options, optionOrder);
    var st1 := st.(options := if content.Some? then st.options + options else st.options);
    CompletionCommandsEffect(st1, StartsWith, startsWithOrder, startsWith);
    RestrictedToKeyOrder(startsWith, startsWithOrder);
    var st2 := st1.(startsWith := st.startsWith + startsWith);
    CompletionCommandsEffect(st2, Contains, containsOrder, contains);
    RestrictedToKeyOrder(contains, containsOrder);
  }

  /** Which order the hash maps give their keys in makes no difference to the result. */
  lemma ReadyOrderIrrelevant(st: ScriptState, contentType: Option<string>, content: Option<string>, theme: AceTheme,
                             modes: map<string, string>, options: map<string, OptionValue>,
                             startsWith: map<string, seq<string>>, contains: map<string, seq<string>>,
                             o1: seq<string>, s1: seq<string>, c1: seq<string>,
                             o2: seq<string>, s2: seq<string>, c2: seq<string>)
    requires content.Some? ==> IsKeyOrder(o1, options.Keys) && IsKeyOrder(o2, options.Keys)
    requires IsKeyOrder(s1, startsWith.Keys) && IsKeyOrder(c1, contains.Keys)
    requires IsKeyOrder(s2, startsWith.Keys) && IsKeyOrder(c2, contains.Keys)
    ensures ApplyAll(st, ReadySegment(contentType, content, theme, modes, options, startsWith, contains, o1, s1, c1))
         == ApplyAll(st, ReadySegment(contentType, content, theme, modes, options, startsWith, contains, o2, s2, c2))
  {
    ReadyEffect(st, contentType, content, theme, modes, options, startsWith, contains, o1, s1, c1);
    ReadyEffect(st, contentType, content, theme, modes, options, startsWith, contains, o2, s2, c2);
  }
}

/**
 * What the editor sends into the embedded page's script context: the bundled
 * themes, the values an editor option can take, and one constructor per call
 * into the page: each script call (instead of its concatenated text), plus
 * SetText, which sets the editor element's text through the DOM.
 */
module Script {
  import opened Wrappers

  /** The themes the editor offers; DEFAULT has no path. */
  datatype AceTheme = Default | Twilight | MonokaiDark

  /** Only DEFAULT lacks a path; every other theme lives under ace/theme/. */
  function ThemePath(t: AceTheme): (p: Option<string>)
    ensures p.None? <==> t == Default
    ensures p.Some? ==> |p.value| > 10 && p.value[..10] == "ace/theme/"
  {
    match t
    case Default => None
    case Twilight => Some("ace/theme/twilight")
    case MonokaiDark => Some("ace/theme/monokai-dark")
  }

  /** The values the option setters pass (a boolean, an int, or script text). */
  datatype OptionValue = BoolValue(b: bool) | IntValue(n: int) | TextValue(s: string)

  /** A path wrapped in double quotes, so that the script receives a string literal. */
  function Quoted(s: string): string
  {
    ['"'] + s + ['"']
  }

  /** The two kinds of completion word lists. */
  datatype CompletionKind = StartsWith | Contains

  datatype Command =
    | ResetDiv                      // resetDiv()
    | SetText(text: Option<string>) // DOM call: setTextContent on the "editor" element
    | InitEditor                    // initEditor()
    | SetTheme(path: string)        // editor.setTheme(path)
    | SetMode(mode: string)         // editor.getSession().setMode('ace/mode/' + mode)
    | SetOption(key: string, value: OptionValue)
    | PasteValue(pasted: string)    // window.pasteValue(pasted)
    | SetCompletions(kind: CompletionKind, name: string, words: seq<string>)

  /**
   * The option and completion tables a script context keyed by name holds:
   * each SetOption or SetCompletions call overwrites the entry of its name.
   */
  datatype ScriptState = ScriptState(
    options: map<string, OptionValue>,
    startsWith: map<string, seq<string>>,
    contains: map<string, seq<string>>)

  function Apply(st: ScriptState, c: Command): ScriptState
  {
    match c
    case SetOption(k, v) => st.(options := st.options[k := v])
    case SetCompletions(StartsWith, n, w) => st.(startsWith := st.startsWith[n := w])
    case SetCompletions(Contains, n, w) => st.(contains := st.contains[n := w])
    case _ => st
  }

  /** The completion lists of one kind the script context holds. */
  function Completions(st: ScriptState, kind: CompletionKind): map<string, seq<string>>
  {
    match kind
    case StartsWith => st.startsWith
    case Contains => st.contains
  }

  /** The script context with the completion lists of one kind replaced and everything else kept. */
  function WithCompletions(st: ScriptState, kind: CompletionKind, m: map<string, seq<string>>): (r: ScriptState)
    ensures Completions(r, kind) == m && r.options == st.options
    ensures kind.StartsWith? ==> r.contains == st.contains
    ensures kind.Contains? ==> r.startsWith == st.startsWith
  {
    match kind
    case StartsWith => st.(startsWith := m)
    case Contains => st.(contains := m)
  }

  /** The state after running the commands `cs` in order. */
  function ApplyAll(st: ScriptState, cs: seq<Command>): ScriptState
  {
    if cs == [] then st else Apply(ApplyAll(st, cs[..|cs| - 1]), cs[|cs| - 1])
  }

  lemma {:induction false} ApplyAllAppend(st: ScriptState, a: seq<Command>, b: seq<Command>)
    ensures ApplyAll(st, a + b) == ApplyAll(ApplyAll(st, a), b)
  {
    if b == [] {
      assert a + b == a;
    } else {
      var n := |b| - 1;
      assert (a + b)[..|a + b| - 1] == a + b[..n];
      ApplyAllAppend(st, a, b[..n]);
    }
  }

  /** A completion registration overwrites one entry of the lists of its kind. */
  lemma ApplyCompletions(st: ScriptState, kind: CompletionKind, m: map<string, seq<string>>, k: string, w: seq<string>)
    ensures Apply(WithCompletions(st, kind, m), SetCompletions(kind, k, w)) == WithCompletions(st, kind, m[k := w])
  {
  }

  /** Running one more command applies it to the state the others leave. */
  lemma ApplyAllSnoc(st: ScriptState, cs: seq<Command>, c: Command)
    ensures ApplyAll(st, cs + [c]) == Apply(ApplyAll(st, cs), c)
  {
    assert (cs + [c])[..|cs|] == cs;
  }

  lemma AppendAssoc(a: seq<Command>, b: seq<Command>, c: seq<Command>, d: seq<Command>)
    ensures a + b + c + d == a + (b + c + d)
  {
  }
}

/**
 * The shortcut registry: an insertion-ordered map (a Java LinkedHashMap) from
 * action name to key combination, and the first-match lookup over it.
 */
module Shortcuts {
  import opened Wrappers

  datatype KeyCode = C | V | S | W | F11 | OtherKey(name: string)

  /** A key code and the modifiers it is declared with. */
  datatype KeyCombo = KeyCombo(code: KeyCode, control: bool, shift: bool)

  /** A key event: its code, the character it types (null on press and release) and its modifiers. */
  datatype KeyEvent = KeyEvent(code: KeyCode, character: Option<string>, controlDown: bool, shiftDown: bool)

  /** Whether a combination matches an event; the GUI toolkit decides, so the model takes it as given. */
  type Matcher = (KeyCombo, KeyEvent) -> bool

  datatype Binding = Binding(name: string, combo: KeyCombo)

  /** The bound names in insertion order. */
  function Names(ks: seq<Binding>): (ns: seq<string>)
    ensures |ns| == |ks|
  {
    if ks == [] then [] else [ks[0].name] + Names(ks[1..])
  }

  /** No name is bound twice, as in any map. */
  predicate Distinct(ks: seq<Binding>)
  {
    ks == [] || (ks[0].name !in Names(ks[1..]) && Distinct(ks[1..]))
  }

  lemma {:induction false} NameAt(ks: seq<Binding>, i: nat)
    requires i < |ks|
    ensures |Names(ks)| == |ks| && Names(ks)[i] == ks[i].name
  {
    if i > 0 {
      NameAt(ks[1..], i - 1);
    } else if |ks| > 1 {
      NameAt(ks[1..], 0);
    }
  }

  function Get(ks: seq<Binding>, name: string): (r: Option<KeyCombo>)
    ensures r.None? <==> name !in Names(ks)
    ensures r.Some? ==> Binding(name, r.value) in ks
  {
    if ks == [] then None
    else if ks[0].name == name then Some(ks[0].combo)
    else Get(ks[1..], name)
  }

  /** In a map without repeated names, each binding is what its name looks up. */
  lemma {:induction false} GetAt(ks: seq<Binding>, i: nat)
    requires Distinct(ks) && i < |ks|
    ensures Get(ks, ks[i].name) == Some(ks[i].combo)
  {
    if i > 0 {
      NameAt(ks[1..], i - 1);
      GetAt(ks[1..], i - 1);
    }
  }

  /** Where `name` is bound. */
  function Position(ks: seq<Binding>, name: string): (i: nat)
    requires name in Names(ks)
    ensures i < |ks| && ks[i].name == name
    ensures forall j :: 0 <= j < i ==> ks[j].name != name
  {
    if ks[0].name == name then 0
    else 1 + Position(ks[1..], name)
  }

  /**
   * LinkedHashMap.put: a new name goes to the end, a name already bound keeps
   * its place.
   */
  function Put(ks: seq<Binding>, name: string, combo: KeyCombo): (r: seq<Binding>)
    ensures Names(r) == if name in Names(ks) then Names(ks) else Names(ks) + [name]
    ensures Distinct(ks) ==> Distinct(r)
  {
    if ks == [] then [Binding(name, combo)]
    else if ks[0].name == name then
      var r := [Binding(name, combo)] + ks[1..];
      assert r[1..] == ks[1..];
      r
    else
      var r := [ks[0]] + Put(ks[1..], name, combo);
      assert r[1..] == Put(ks[1..], name, combo);
      r
  }

  /** Putting a name not yet bound appends its binding at the end. */
  lemma {:induction false} PutNew(ks: seq<Binding>, name: string, combo: KeyCombo)
    requires name !in Names(ks)
    ensures Put(ks, name, combo) == ks + [Binding(name, combo)]
  {
    if ks != [] {
      PutNew(ks[1..], name, combo);
      assert ks == [ks[0]] + ks[1..];
    }
  }

  /** Bindings whose names differ pairwise form a map without repeated names. */
  lemma {:induction false} DistinctByNames(ks: seq<Binding>)
    requires forall i, j :: 0 <= i < j < |ks| ==> ks[i].name != ks[j].name
    ensures Distinct(ks)
  {
    if ks != [] {
      DistinctByNames(ks[1..]);
      if ks[0].name in Names(ks[1..]) {
        var j :| 0 <= j < |Names(ks[1..])| && Names(ks[1..])[j] == ks[0].name;
        NameAt(ks[1..], j);
        assert false;
      }
    }
  }

  /** A prefix of a map without repeated names has none either, and binds only names the map binds. */
  lemma {:induction false} PrefixDistinct(ks: seq<Binding>, i: nat)
    requires Distinct(ks) && i <= |ks|
    ensures Distinct(ks[..i])
    ensures forall n :: n in Names(ks[..i]) ==> n in Names(ks)
  {
    if i > 0 {
      PrefixDistinct(ks[1..], i - 1);
      assert ks[..i][1..] == ks[1..][..i - 1];
    }
  }

  /** Putting the next binding of a map without repeated names onto its prefix extends the prefix by it. */
  lemma {:induction false} PutNext(ks: seq<Binding>, i: nat)
    requires Distinct(ks) && i < |ks|
    ensures Put(ks[..i], ks[i].name, ks[i].combo) == ks[..i + 1]
  {
    if ks[i].name in Names(ks[..i]) {
      var j := Position(ks[..i], ks[i].name);
      assert ks[j].name == ks[i].name;
      NotDistinct(ks, j, i);
    }
    PutNew(ks[..i], ks[i].name, ks[i].combo);
    assert ks[..i] + [ks[i]] == ks[..i + 1];
  }

  /** Two bindings of one name contradict Distinct. */
  lemma {:induction false} NotDistinct(ks: seq<Binding>, j: nat, i: nat)
    requires j < i < |ks| && ks[j].name == ks[i].name
    ensures !Distinct(ks)
  {
    if j == 0 {
      NameAt(ks[1..], i - 1);
    } else {
      NotDistinct(ks[1..], j - 1, i - 1);
    }
  }

  /** After put, `name` looks up the new combination and every other name its old one. */
  lemma {:induction false} PutLookup(ks: seq<Binding>, name: string, combo: KeyCombo, n: string)
    ensures Get(Put(ks, name, combo), n) == if n == name then Some(combo) else Get(ks, n)
  {
    if ks != [] && ks[0].name != name {
      var r := [ks[0]] + Put(ks[1..], name, combo);
      assert r[1..] == Put(ks[1..], name, combo);
      PutLookup(ks[1..], name, combo, n);
    }
  }

  /** LinkedHashMap.remove: the binding of `name` goes, the others keep their order. */
  function Remove(ks: seq<Binding>, name: string): (r: seq<Binding>)
    ensures |r| <= |ks|
  {
    if ks == [] then []
    else if ks[0].name == name then ks[1..]
    else [ks[0]] + Remove(ks[1..], name)
  }

  /** Removal drops one binding when `name` is bound, and none otherwise. */
  lemma {:induction false} RemoveLength(ks: seq<Binding>, name: string)
    ensures |Remove(ks, name)| == if name in Names(ks) then |ks| - 1 else |ks|
  {
    if ks != [] && ks[0].name != name {
      RemoveLength(ks[1..], name);
    }
  }

  /** Removal unbinds `name`, keeps every other name bound, and binds no name twice. */
  lemma {:induction false} RemoveNames(ks: seq<Binding>, name: string)
    requires Distinct(ks)
    ensures Distinct(Remove(ks, name))
    ensures forall n :: n in Names(Remove(ks, name)) <==> n in Names(ks) && n != name
  {
    if ks != [] && ks[0].name != name {
      var rest := Remove(ks[1..], name);
      RemoveNames(ks[1..], name);
      assert ([ks[0]] + rest)[1..] == rest;
    }
  }

  /** After removal `name` is unbound and every other name keeps its combination. */
  lemma {:induction false} RemoveLookup(ks: seq<Binding>, name: string, n: string)
    requires Distinct(ks)
    ensures Get(Remove(ks, name), n) == if n == name then None else Get(ks, n)
  {
    if ks != [] && ks[0].name != name {
      var rest := Remove(ks[1..], name);
      assert ([ks[0]] + rest)[1..] == rest;
      RemoveLookup(ks[1..], name, n);
    }
  }

  /** Removing an unbound name changes nothing. */
  lemma {:induction false} RemoveUnbound(ks: seq<Binding>, name: string)
    requires Distinct(ks) && name !in Names(ks)
    ensures Remove(ks, name) == ks
  {
    if ks != [] {
      RemoveUnbound(ks[1..], name);
    }
  }

  /** Removing a bound name takes out exactly its binding and keeps the rest in order. */
  lemma {:induction false} RemoveAt(ks: seq<Binding>, name: string, i: nat)
    requires Distinct(ks) && i < |ks| && ks[i].name == name
    ensures Remove(ks, name) == ks[..i] + ks[i + 1..]
  {
    if i > 0 {
      var tail := ks[1..];
      NameAt(tail, i - 1);
      assert ks[0].name != name;
      RemoveAt(tail, name, i - 1);
      assert Remove(ks, name) == [ks[0]] + (tail[..i - 1] + tail[i..]);
      assert ks[..i] == [ks[0]] + tail[..i - 1];
      assert ks[i + 1..] == tail[i..];
    }
  }

  /** The first name, in insertion order, whose combination matches `e`. */
  function FirstMatch(ks: seq<Binding>, matches: Matcher, e: KeyEvent): (r: Option<string>)
    ensures r.Some? ==> exists i :: 0 <= i < |ks| && ks[i].name == r.value && matches(ks[i].combo, e)
  {
    if ks == [] then None
    else if matches(ks[0].combo, e) then Some(ks[0].name)
    else FirstMatch(ks[1..], matches, e)
  }

  /** The loop of getMatch over the key set, returning at the first match. */
  method GetMatch(ks: seq<Binding>, matches: Matcher, e: KeyEvent) returns (r: Option<string>)
    ensures r == FirstMatch(ks, matches, e)
  {
    var i := 0;
    while i < |ks|
      invariant 0 <= i <= |ks|
      invariant FirstMatch(ks, matches, e) == FirstMatch(ks[i..], matches, e)
    {
      if matches(ks[i].combo, e) {
        return Some(ks[i].name);
      }
      assert ks[i..][1..] == ks[i + 1..];
      i := i + 1;
    }
    return None;
  }

  /** The binding at `i` is found when it matches and none before it does. */
  lemma {:induction false} FirstMatchAt(ks: seq<Binding>, matches: Matcher, e: KeyEvent, i: nat)
    requires i < |ks| && matches(ks[i].combo, e)
    requires forall j :: 0 <= j < i ==> !matches(ks[j].combo, e)
    ensures FirstMatch(ks, matches, e) == Some(ks[i].name)
  {
    if i > 0 {
      FirstMatchAt(ks[1..], matches, e, i - 1);
    }
  }

  /** The lookup finds nothing exactly when no combination matches. */
  lemma {:induction false} FirstMatchNone(ks: seq<Binding>, matches: Matcher, e: KeyEvent)
    ensures FirstMatch(ks, matches, e) == None <==> forall i :: 0 <= i < |ks| ==> !matches(ks[i].combo, e)
  {
    if ks != [] {
      FirstMatchNone(ks[1..], matches, e);
      assert forall i :: 1 <= i < |ks| ==> ks[i] == ks[1..][i - 1];
    }
  }

  /** A binding made earlier wins over every later one whenever it matches. */
  lemma {:induction false} EarlierBindingWins(ks: seq<Binding>, matches: Matcher, e: KeyEvent, i: nat, j: nat)
    requires Distinct(ks)
    requires i < j < |ks| && matches(ks[i].combo, e)
    ensures FirstMatch(ks, matches, e) != Some(ks[j].name)
  {
    if matches(ks[0].combo, e) {
      NameAt(ks[1..], j - 1);
    } else {
      EarlierBindingWins(ks[1..], matches, e, i - 1, j - 1);
    }
  }
}

/**
 * Keyboard shortcuts: a fixed, ordered table of named key specifications,
 * a registry of listeners per name, and a key-down handler that fires the
 * listeners of the first specification the key event satisfies. A held
 * Option (Command) key stands in for a required Control key.
 */
module Shortcuts {
  import opened Wrappers
  import Registry

  /** Key code of the Option/Command key. */
  const OPTION_KEYCODE: int := 91

  /** One property a specification lists, with the value it requires. */
  datatype Prop = KeyCode(code: int) | CtrlKey(held: bool) | ShiftKey(held: bool)

  /** A named shortcut and the properties an event must carry to trigger it. */
  datatype KeySpec = KeySpec(name: string, props: seq<Prop>)

  /** `EVENTS`, in declaration order: the order the key-down handler tries them in. */
  const EVENTS: seq<KeySpec> := [
    KeySpec("redo", [KeyCode(89), CtrlKey(true)]),
    KeySpec("undo", [KeyCode(90), CtrlKey(true)]),
    KeySpec("delete", [KeyCode(8)]),
    KeySpec("cut", [KeyCode(88), CtrlKey(true)]),
    KeySpec("copy", [KeyCode(67), CtrlKey(true)]),
    KeySpec("paste", [KeyCode(86), CtrlKey(true)])
  ]

  /** The parts of a `KeyboardEvent` the handlers read; the target's `nodeName` may be missing. */
  datatype KeyEvent = KeyEvent(keyCode: int, ctrlKey: bool, shiftKey: bool, target: Option<string>)

  /** A registered listener, known only by its identity. */
  datatype Listener = Listener(id: nat)

  /** The function `on` returns: it removes `listener` from the list of `name`. */
  datatype Unsubscriber = Unsubscriber(name: string, listener: Listener)

  const UNKNOWN_SHORTCUT := "Ask to listen for a non existing shortcut"

  /** `EVENTS[name]` is defined. */
  predicate Known(name: string)
    ensures Known(name) ==> name in {"redo", "undo", "delete", "cut", "copy", "paste"}
  {
    exists k :: 0 <= k < |EVENTS| && EVENTS[k].name == name
  }

  /** The event carries exactly the value the property lists. */
  predicate Carries(p: Prop, ev: KeyEvent) {
    match p
    case KeyCode(c) => ev.keyCode == c
    case CtrlKey(b) => ev.ctrlKey == b
    case ShiftKey(b) => ev.shiftKey == b
  }

  /** A property is satisfied when carried, and a required Control key also while Option is held. */
  predicate Satisfies(p: Prop, ev: KeyEvent, optionHeld: bool)
    ensures Carries(p, ev) ==> Satisfies(p, ev, optionHeld)
    ensures !optionHeld || !p.CtrlKey? ==> (Satisfies(p, ev, optionHeld) <==> Carries(p, ev))
  {
    Carries(p, ev) || (p.CtrlKey? && p.held && optionHeld)
  }

  /** Every listed property is satisfied; properties the specification does not list are ignored. */
  predicate Matches(spec: KeySpec, ev: KeyEvent, optionHeld: bool)
    ensures !optionHeld ==> (Matches(spec, ev, optionHeld) <==> forall q :: 0 <= q < |spec.props| ==> Carries(spec.props[q], ev))
  {
    forall q :: 0 <= q < |spec.props| ==> Satisfies(spec.props[q], ev, optionHeld)
  }

  /** Index of the first specification from `k` on that the event matches. */
  function FirstMatchFrom(ev: KeyEvent, optionHeld: bool, k: nat): (r: Option<nat>)
    requires k <= |EVENTS|
    ensures r.Some? ==> k <= r.value < |EVENTS| && Matches(EVENTS[r.value], ev, optionHeld)
    ensures forall j :: k <= j < |EVENTS| && (r.None? || j < r.value) ==> !Matches(EVENTS[j], ev, optionHeld)
    decreases |EVENTS| - k
  {
    if k == |EVENTS| then None
    else if Matches(EVENTS[k], ev, optionHeld) then Some(k)
    else FirstMatchFrom(ev, optionHeld, k + 1)
  }

  /** The specification the key-down handler acts on, if any. */
  function FirstMatch(ev: KeyEvent, optionHeld: bool): Option<nat> {
    FirstMatchFrom(ev, optionHeld, 0)
  }

  /** `listeners.get(name) || []`. */
  function ListenersOf(m: map<string, seq<Listener>>, name: string): seq<Listener> {
    if name in m then m[name] else []
  }

  /** The default action is cancelled except for `delete` typed into a text field. */
  predicate PreventsDefault(name: string, target: Option<string>)
    ensures name != "delete" || target.None? ==> PreventsDefault(name, target)
    ensures target == Some("INPUT") || target == Some("TEXTAREA") ==> (PreventsDefault(name, target) <==> name != "delete")
  {
    name != "delete" || !(target == Some("INPUT") || target == Some("TEXTAREA"))
  }

  /** The `areSpecsPassing` loop: every listed property is checked, none may fail. */
  method SpecPasses(spec: KeySpec, ev: KeyEvent, optionHeld: bool) returns (passing: bool)
    ensures passing <==> Matches(spec, ev, optionHeld)
  {
    passing := true;
    var q := 0;
    while q < |spec.props|
      invariant 0 <= q <= |spec.props|
      invariant passing <==> forall i :: 0 <= i < q ==> Satisfies(spec.props[i], ev, optionHeld)
    {
      var prop := spec.props[q];
      if !Carries(prop, ev) && !(prop.CtrlKey? && prop.held && optionHeld) {
        passing := false;
      }
      q := q + 1;
    }
  }

  class Shortcut {
    var listeners: map<string, seq<Listener>>
    var isOptionPressed: bool

    /** Lists exist only for names of the table. */
    ghost predicate Valid()
      reads this
    {
      forall name :: name in listeners ==> Known(name)
    }

    constructor()
      ensures Valid() && listeners == map[] && !isOptionPressed
    {
      listeners := map[];
      isOptionPressed := false;
    }

    /**
     * Registers `listener` for the shortcut `name`: an unknown name is an
     * error and registers nothing; otherwise the listener is appended to the
     * name's list, which is created when absent.
     */
    method On(name: string, listener: Listener) returns (r: Result<Unsubscriber, string>)
      requires Valid()
      modifies this`listeners
      ensures Valid()
      ensures !Known(name) ==> r == Failure(UNKNOWN_SHORTCUT) && listeners == old(listeners)
      ensures Known(name) ==> r == Success(Unsubscriber(name, listener)) &&
                              listeners == old(listeners)[name := ListenersOf(old(listeners), name) + [listener]]
    {
      if !Known(name) {
        return Failure(UNKNOWN_SHORTCUT);
      }
      if name !in listeners {
        listeners := listeners[name := []];
      }
      listeners := listeners[name := listeners[name] + [listener]];
      return Success(Unsubscriber(name, listener));
    }

    /** Runs an unsubscriber: the first registration of its listener under its name goes. */
    method Unsubscribe(u: Unsubscriber)
      requires Valid() && u.name in listeners
      modifies this`listeners
      ensures Valid()
      ensures listeners == old(listeners)[u.name := Registry.RemoveFirst(old(listeners)[u.name], u.listener)]
    {
      var list := listeners[u.name];
      var listenerIndex := Registry.IndexOf(list, u.listener);
      if listenerIndex != -1 {
        listeners := listeners[u.name := list[..listenerIndex] + list[listenerIndex + 1..]];
      }
    }

    /** Releasing Option clears the flag; other keys leave it alone. */
    method OnKeyUp(ev: KeyEvent)
      modifies this`isOptionPressed
      ensures isOptionPressed == (ev.keyCode != OPTION_KEYCODE && old(isOptionPressed))
    {
      if ev.keyCode == OPTION_KEYCODE {
        isOptionPressed := false;
      }
    }

    /**
     * Pressing a key: Option sets the flag; then the specifications are
     * tried in table order and the first one the event matches calls all
     * of its listeners in registration order (returned as `fired`) and
     * decides whether the default action is cancelled.
     */
    method OnKeyDown(ev: KeyEvent) returns (fired: seq<Listener>, preventDefault: bool)
      modifies this`isOptionPressed
      ensures isOptionPressed == (ev.keyCode == OPTION_KEYCODE || old(isOptionPressed))
      ensures FirstMatch(ev, isOptionPressed).None? ==> fired == [] && !preventDefault
      ensures FirstMatch(ev, isOptionPressed).Some? ==>
                var name := EVENTS[FirstMatch(ev, isOptionPressed).value].name;
                fired == ListenersOf(listeners, name) && preventDefault == PreventsDefault(name, ev.target)
    {
      if ev.keyCode == OPTION_KEYCODE {
        isOptionPressed := true;
      }
      var optionHeld := isOptionPressed;
      var k := 0;
      while k < |EVENTS|
        invariant 0 <= k <= |EVENTS|
        invariant FirstMatch(ev, optionHeld) == FirstMatchFrom(ev, optionHeld, k)
        modifies {}
      {
        var spec := EVENTS[k];
        var passing := SpecPasses(spec, ev, optionHeld);
        if passing {
          var list := ListenersOf(listeners, spec.name);
          fired := [];
          var listenerIndex := 0;
          while listenerIndex < |list|
            invariant 0 <= listenerIndex <= |list|
            invariant fired == list[..listenerIndex]
            modifies {}
          {
            fired := fired + [list[listenerIndex]];
            listenerIndex := listenerIndex + 1;
          }
          preventDefault := PreventsDefault(spec.name, ev.target);
          return;
        }
        k := k + 1;
      }
      fired, preventDefault := [], false;
    }
  }

  // ---------------------------------------------------------------------
  // Properties of the table and the matcher

  /** The table's names are exactly the six shortcuts; in particular `zoomin` and `zoomout` are not among them. */
  lemma KnownNames(name: string)
    ensures Known(name) <==> name in {"redo", "undo", "delete", "cut", "copy", "paste"}
    ensures !Known("zoomin") && !Known("zoomout")
  {
    if name in {"redo", "undo", "delete", "cut", "copy", "paste"} {
      var k := if name == "redo" then 0 else if name == "undo" then 1 else if name == "delete" then 2
               else if name == "cut" then 3 else if name == "copy" then 4 else 5;
      assert EVENTS[k].name == name;
    }
  }

  /** Every specification lists a distinct key code first, so an event matches at most one of them. */
  lemma MatchIsUnique(ev: KeyEvent, optionHeld: bool, i: nat, j: nat)
    requires i < |EVENTS| && j < |EVENTS|
    requires Matches(EVENTS[i], ev, optionHeld) && Matches(EVENTS[j], ev, optionHeld)
    ensures i == j
  {
    assert Satisfies(EVENTS[i].props[0], ev, optionHeld);
    assert Satisfies(EVENTS[j].props[0], ev, optionHeld);
  }

  /** The first match is therefore the only one: any matching specification is the one that fires. */
  lemma FirstMatchIsTheMatch(ev: KeyEvent, optionHeld: bool, j: nat)
    requires j < |EVENTS|
    ensures Matches(EVENTS[j], ev, optionHeld) <==> FirstMatch(ev, optionHeld) == Some(j)
  {
    var r := FirstMatch(ev, optionHeld);
    if Matches(EVENTS[j], ev, optionHeld) && r.Some? {
      MatchIsUnique(ev, optionHeld, j, r.value);
    }
  }

  /**
   * While Option is held, every shortcut fires for an event exactly as it
   * would with Control pressed and Option released.
   */
  lemma OptionStandsInForCtrl(ev: KeyEvent, k: nat)
    requires k < |EVENTS|
    ensures Matches(EVENTS[k], ev, true) <==> Matches(EVENTS[k], ev.(ctrlKey := true), false)
  {
    var spec := EVENTS[k];
    forall q | 0 <= q < |spec.props|
      ensures Satisfies(spec.props[q], ev, true) <==> Satisfies(spec.props[q], ev.(ctrlKey := true), false)
    {
      assert spec.props[q] != CtrlKey(false);
    }
  }

  /** Backspace is `delete` whatever modifiers are held, and nothing else is. */
  lemma DeleteMatchesAnyBackspace(ev: KeyEvent, optionHeld: bool)
    ensures FirstMatch(ev, optionHeld) == Some(2) <==> ev.keyCode == 8
    ensures EVENTS[2].name == "delete"
  {
    var spec := EVENTS[2];
    assert spec.props == [KeyCode(8)];
    if ev.keyCode != 8 {
      assert !Satisfies(spec.props[0], ev, optionHeld);
    }
    FirstMatchIsTheMatch(ev, optionHeld, 2);
  }

  /** With neither Control nor Option held, only `delete` can fire. */
  lemma PlainKeysOnlyDelete(ev: KeyEvent)
    requires !ev.ctrlKey
    ensures FirstMatch(ev, false).Some? ==> FirstMatch(ev, false) == Some(2)
  {
    forall k | 0 <= k < |EVENTS| && k != 2
      ensures !Matches(EVENTS[k], ev, false)
    {
      assert !Satisfies(EVENTS[k].props[1], ev, false);
    }
  }

  /**
   * A shortcut that fires lets the default action through only for
   * backspace on a text input or text area.
   */
  lemma DefaultKeptOnlyForTextDeletion(ev: KeyEvent, optionHeld: bool)
    requires FirstMatch(ev, optionHeld).Some?
    ensures !PreventsDefault(EVENTS[FirstMatch(ev, optionHeld).value].name, ev.target) <==>
            ev.keyCode == 8 && ev.target in {Some("INPUT"), Some("TEXTAREA")}
  {
    var k := FirstMatch(ev, optionHeld).value;
    DeleteMatchesAnyBackspace(ev, optionHeld);
    assert EVENTS[k].name == "delete" <==> k == 2;
  }

  /**
   * Unsubscribing right after subscribing a listener that was not yet
   * registered under that name restores every name's list of listeners.
   */
  lemma UnsubscribeUndoesOn(m: map<string, seq<Listener>>, name: string, l: Listener, other: string)
    requires l !in ListenersOf(m, name)
    ensures var added := m[name := ListenersOf(m, name) + [l]];
            ListenersOf(added[name := Registry.RemoveFirst(added[name], l)], other) == ListenersOf(m, other)
  {
    Registry.RemoveAfterAppend(ListenersOf(m, name), l);
  }
}

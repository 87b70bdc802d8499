/**
 * The global keyboard handler (`keyboardHandler.ts`): a key press is
 * normalised to text such as `ctrl+shift+k`, compared with every configured
 * shortcut's keys treating `cmd+` and `ctrl+` alike, and the first matching
 * shortcut's registered action runs.
 *
 * The DOM is a parameter: the event's key and modifier flags, whether the
 * platform is a Mac, and the event target's tag and editability. A handler
 * is identified by a `Handler` value; running it is the caller's business.
 */
module Keyboard {
  import opened Wrappers
  import opened Ascii
  import opened Shortcuts

  datatype KeyEvent = KeyEvent(key: string, ctrlKey: bool, metaKey: bool, altKey: bool, shiftKey: bool)

  datatype EventTarget = EventTarget(tagName: string, isContentEditable: bool)

  /** The identity of a registered action handler. */
  datatype Handler = Handler(id: nat)

  // ---------------------------------------------------------------------------
  // normalizeKey

  /** The key's name: lower-cased, with the space bar as `space` and Escape as `esc`. */
  function KeyName(key: string): (name: string)
    ensures ToLower(key) == " " ==> name == "space"
    ensures ToLower(key) == "escape" ==> name == "esc"
    ensures ToLower(key) != " " && ToLower(key) != "escape" ==> name == ToLower(key)
  {
    var k := ToLower(key);
    if k == " " then "space" else if k == "escape" then "esc" else k
  }

  /** The modifier parts, in the fixed order ctrl or cmd, alt, shift. */
  function Modifiers(e: KeyEvent, isMac: bool): seq<string>
  {
    (if e.ctrlKey && !isMac then ["ctrl"] else [])
      + (if e.metaKey && isMac then ["cmd"] else [])
      + (if e.altKey then ["alt"] else [])
      + (if e.shiftKey then ["shift"] else [])
  }

  /** The text `normalizeKey` produces: the modifiers, then the key name, joined by `+`. */
  function NormalizedKey(e: KeyEvent, isMac: bool): string
  {
    Join(Modifiers(e, isMac) + [KeyName(e.key)], "+")
  }

  /** `normalizeKey`: the parts are pushed one by one, then joined. */
  method NormalizeKey(e: KeyEvent, isMac: bool) returns (key: string)
    ensures key == NormalizedKey(e, isMac)
  {
    var parts: seq<string> := [];
    if e.ctrlKey && !isMac {
      parts := parts + ["ctrl"];
    }
    if e.metaKey && isMac {
      parts := parts + ["cmd"];
    }
    if e.altKey {
      parts := parts + ["alt"];
    }
    if e.shiftKey {
      parts := parts + ["shift"];
    }
    var name := ToLower(e.key);
    if name == " " {
      name := "space";
    }
    if name == "escape" {
      name := "esc";
    }
    assert name == KeyName(e.key);
    parts := parts + [name];
    assert parts == Modifiers(e, isMac) + [KeyName(e.key)];
    key := Join(parts, "+");
  }

  /** `ctrl` and `cmd` never both appear: which one is used depends on the platform alone. */
  lemma ModifiersByPlatform(e: KeyEvent, isMac: bool)
    ensures "ctrl" in Modifiers(e, isMac) <==> e.ctrlKey && !isMac
    ensures "cmd" in Modifiers(e, isMac) <==> e.metaKey && isMac
    ensures !("ctrl" in Modifiers(e, isMac) && "cmd" in Modifiers(e, isMac))
    ensures |Modifiers(e, isMac)| <= 3
  {
  }

  /** On a Mac the Control key is ignored; elsewhere the Meta key is. */
  lemma IgnoredModifier(e: KeyEvent)
    ensures NormalizedKey(e.(ctrlKey := true), true) == NormalizedKey(e.(ctrlKey := false), true)
    ensures NormalizedKey(e.(metaKey := true), false) == NormalizedKey(e.(metaKey := false), false)
  {
  }

  lemma JoinCons(first: string, rest: seq<string>)
    requires rest != []
    ensures Join([first] + rest, "+") == first + "+" + Join(rest, "+")
  {
    assert ([first] + rest)[1..] == rest;
  }

  // ---------------------------------------------------------------------------
  // matchesKey

  /** `k.replace(/^(cmd|ctrl)\+/, "mod+")`: one leading `cmd+` or `ctrl+` becomes `mod+`. */
  function Canonical(k: string): string
  {
    if StartsWith(k, "cmd+") then "mod+" + k[4..]
    else if StartsWith(k, "ctrl+") then "mod+" + k[5..]
    else k
  }

  /** `matchesKey`. */
  predicate MatchesKey(shortcutKey: string, pressedKey: string)
  {
    Canonical(shortcutKey) == Canonical(pressedKey)
  }

  /** The text after a leading `cmd+`, `ctrl+` or `mod+`, if there is one. */
  function ModTail(k: string): Option<string>
  {
    if StartsWith(k, "cmd+") || StartsWith(k, "mod+") then Some(k[4..])
    else if StartsWith(k, "ctrl+") then Some(k[5..])
    else None
  }

  lemma CanonicalForms(k: string)
    ensures ModTail(k).Some? ==> Canonical(k) == "mod+" + ModTail(k).value
    ensures ModTail(k).None? ==> Canonical(k) == k && !StartsWith(k, "mod+")
    ensures StartsWith(Canonical(k), "mod+") <==> ModTail(k).Some?
  {
    if StartsWith(k, "mod+") {
      assert k == "mod+" + k[4..];
    }
  }

  lemma ModPrefixCancel(x: string, y: string)
    requires "mod+" + x == "mod+" + y
    ensures x == y
  {
    assert x == ("mod+" + x)[4..];
    assert y == ("mod+" + y)[4..];
  }

  /**
   * Two key texts match exactly when they are equal, or both carry a
   * leading `cmd+`, `ctrl+` or `mod+` followed by the same text.
   */
  lemma MatchesKeyIff(a: string, b: string)
    ensures MatchesKey(a, b) <==>
      (ModTail(a).None? && ModTail(b).None? && a == b) || (ModTail(a).Some? && ModTail(a) == ModTail(b))
  {
    CanonicalForms(a);
    CanonicalForms(b);
    if MatchesKey(a, b) && ModTail(a).Some? && ModTail(b).Some? {
      ModPrefixCancel(ModTail(a).value, ModTail(b).value);
    }
  }

  /** Matching is an equivalence: reflexive, symmetric and transitive. */
  lemma MatchesKeyEquivalence(a: string, b: string, c: string)
    ensures MatchesKey(a, a)
    ensures MatchesKey(a, b) ==> MatchesKey(b, a)
    ensures MatchesKey(a, b) && MatchesKey(b, c) ==> MatchesKey(a, c)
  {
  }

  /** The text after the platform modifier, for a press with alt and shift flags as given. */
  function AfterPlatformModifier(key: string, altKey: bool, shiftKey: bool): string
  {
    Join((if altKey then ["alt"] else []) + (if shiftKey then ["shift"] else []) + [KeyName(key)], "+")
  }

  lemma PlatformModifierText(key: string, altKey: bool, shiftKey: bool, isMac: bool)
    ensures NormalizedKey(KeyEvent(key, !isMac, isMac, altKey, shiftKey), isMac)
         == (if isMac then "cmd" else "ctrl") + "+" + AfterPlatformModifier(key, altKey, shiftKey)
  {
    var others: seq<string> := (if altKey then ["alt"] else []) + (if shiftKey then ["shift"] else []);
    var rest := others + [KeyName(key)];
    var e := KeyEvent(key, !isMac, isMac, altKey, shiftKey);
    var first := if isMac then "cmd" else "ctrl";
    assert Modifiers(e, isMac) == [first] + others;
    assert Modifiers(e, isMac) + [KeyName(key)] == [first] + rest;
    JoinCons(first, rest);
  }

  /**
   * A shortcut pressed with Control elsewhere and with Command on a Mac
   * gives key texts that match each other.
   */
  lemma CrossPlatformMatch(key: string, altKey: bool, shiftKey: bool)
    ensures MatchesKey(NormalizedKey(KeyEvent(key, true, false, altKey, shiftKey), false),
                       NormalizedKey(KeyEvent(key, false, true, altKey, shiftKey), true))
  {
    PlatformModifierText(key, altKey, shiftKey, false);
    PlatformModifierText(key, altKey, shiftKey, true);
    var tail := AfterPlatformModifier(key, altKey, shiftKey);
    var c := "ctrl" + "+" + tail;
    var m := "cmd" + "+" + tail;
    assert c[..5] == "ctrl+" && c[5..] == tail && c[1] == 't';
    assert m[..4] == "cmd+" && m[4..] == tail;
    assert !StartsWith(c, "cmd+") by {
      assert "cmd+"[1] == 'm';
    }
    assert Canonical(c) == "mod+" + tail;
    assert Canonical(m) == "mod+" + tail;
  }

  // ---------------------------------------------------------------------------
  // Dispatch

  /** Typing into a text field or an editable element never triggers a shortcut. */
  predicate IsEditable(t: EventTarget)
  {
    t.tagName == "INPUT" || t.tagName == "TEXTAREA" || t.isContentEditable
  }

  /** `shortcut.keys.some((k) => matchesKey(k, key))`. */
  predicate AnyKeyMatches(s: Shortcut, pressed: string)
  {
    exists k :: k in s.keys && MatchesKey(k, pressed)
  }

  /** `shortcuts.find(...)`: the first shortcut in list order with a matching key. */
  function FirstMatch(shortcuts: seq<Shortcut>, pressed: string): (r: Option<Shortcut>)
    ensures r.Some? ==> exists k :: 0 <= k < |shortcuts| && shortcuts[k] == r.value && AnyKeyMatches(r.value, pressed)
                                    && forall j :: 0 <= j < k ==> !AnyKeyMatches(shortcuts[j], pressed)
    ensures r.None? <==> forall k :: 0 <= k < |shortcuts| ==> !AnyKeyMatches(shortcuts[k], pressed)
  {
    if shortcuts == [] then None
    else if AnyKeyMatches(shortcuts[0], pressed) then Some(shortcuts[0])
    else
      var r := FirstMatch(shortcuts[1..], pressed);
      if r.Some? then
        var k :| 0 <= k < |shortcuts[1..]| && shortcuts[1..][k] == r.value && AnyKeyMatches(r.value, pressed)
                 && forall j :: 0 <= j < k ==> !AnyKeyMatches(shortcuts[1..][j], pressed);
        assert shortcuts[k + 1] == r.value;
        r
      else r
  }

  /**
   * What a key press does: nothing, no shortcut matched, or a shortcut
   * matched (the default action is prevented) and its handler, if any, runs.
   */
  datatype KeyOutcome = Ignored | Unmatched | Matched(shortcut: Shortcut, handler: Option<Handler>)

  /** The keydown listener's decision for the pressed key text. */
  function Dispatch(enabled: bool, shortcuts: seq<Shortcut>, handlers: map<string, Handler>,
                    target: EventTarget, pressed: string): KeyOutcome
  {
    if !enabled || IsEditable(target) then Ignored
    else match FirstMatch(shortcuts, pressed)
      case None => Unmatched
      case Some(s) => Matched(s, if s.action in handlers then Some(handlers[s.action]) else None)
  }

  /**
   * A press is ignored exactly when the handler is disabled or the target is
   * editable; otherwise the first shortcut with a matching key is chosen, and
   * the handler registered for its action, if any, runs.
   */
  lemma DispatchFacts(enabled: bool, shortcuts: seq<Shortcut>, handlers: map<string, Handler>,
                      target: EventTarget, pressed: string)
    ensures var out := Dispatch(enabled, shortcuts, handlers, target, pressed);
      && (out.Ignored? <==> !enabled || IsEditable(target))
      && (out.Unmatched? <==> enabled && !IsEditable(target)
                              && forall k :: 0 <= k < |shortcuts| ==> !AnyKeyMatches(shortcuts[k], pressed))
      && (out.Matched? ==> (exists k :: 0 <= k < |shortcuts| && shortcuts[k] == out.shortcut
                                       && AnyKeyMatches(out.shortcut, pressed)
                                       && forall j :: 0 <= j < k ==> !AnyKeyMatches(shortcuts[j], pressed))
                           && (out.handler.Some? <==> out.shortcut.action in handlers)
                           && (out.handler.Some? ==> out.handler.value == handlers[out.shortcut.action]))
  {
  }

  /**
   * Handlers decide only what runs, never which shortcut matches: after an
   * action is unregistered its keys are still consumed, but nothing runs.
   */
  lemma UnregisteredActionStillConsumesKey(enabled: bool, shortcuts: seq<Shortcut>, handlers: map<string, Handler>,
                                           target: EventTarget, pressed: string, action: string)
    requires Dispatch(enabled, shortcuts, handlers, target, pressed).Matched?
    requires Dispatch(enabled, shortcuts, handlers, target, pressed).shortcut.action == action
    ensures Dispatch(enabled, shortcuts, handlers - {action}, target, pressed)
         == Matched(Dispatch(enabled, shortcuts, handlers, target, pressed).shortcut, None)
  {
  }

  // ---------------------------------------------------------------------------
  // The handler object

  class KeyboardHandler {
    var actionHandlers: map<string, Handler>
    var shortcuts: seq<Shortcut>
    var enabled: bool

    /** Subscribing to the shortcuts store delivers its current state at once. */
    constructor(store: ShortcutsState)
      ensures actionHandlers == map[] && shortcuts == store.shortcuts && enabled == store.enabled
    {
      actionHandlers := map[];
      shortcuts := store.shortcuts;
      enabled := store.enabled;
    }

    /** The store subscription: every new store state replaces the copy kept here. */
    method OnShortcutsChanged(store: ShortcutsState)
      modifies this
      ensures shortcuts == store.shortcuts && enabled == store.enabled
      ensures actionHandlers == old(actionHandlers)
    {
      shortcuts := store.shortcuts;
      enabled := store.enabled;
    }

    /** The keydown listener. */
    method OnKeyDown(e: KeyEvent, isMac: bool, target: EventTarget) returns (outcome: KeyOutcome)
      ensures outcome == Dispatch(enabled, shortcuts, actionHandlers, target, NormalizedKey(e, isMac))
    {
      if !enabled {
        return Ignored;
      }
      if target.tagName == "INPUT" || target.tagName == "TEXTAREA" || target.isContentEditable {
        return Ignored;
      }
      var key := NormalizeKey(e, isMac);
      var matched := FirstMatch(shortcuts, key);
      if matched.None? {
        return Unmatched;
      }
      var action := matched.value.action;
      if action in actionHandlers {
        outcome := Matched(matched.value, Some(actionHandlers[action]));
      } else {
        outcome := Matched(matched.value, None);
      }
    }

    /** `registerAction`: the action's handler is set, replacing any earlier one. */
    method RegisterAction(action: string, handler: Handler)
      modifies this
      ensures actionHandlers == old(actionHandlers)[action := handler]
      ensures shortcuts == old(shortcuts) && enabled == old(enabled)
    {
      actionHandlers := actionHandlers[action := handler];
    }

    /** `unregisterAction`: only that action's handler is removed. */
    method UnregisterAction(action: string)
      modifies this
      ensures actionHandlers == old(actionHandlers) - {action}
      ensures shortcuts == old(shortcuts) && enabled == old(enabled)
    {
      actionHandlers := actionHandlers - {action};
    }

    /** `getShortcutKeys`: the keys of the first shortcut bound to `action`, or none. */
    function GetShortcutKeys(action: string): (keys: seq<string>)
      reads this
      ensures (forall k :: 0 <= k < |shortcuts| ==> shortcuts[k].action != action) ==> keys == []
      ensures forall k :: (0 <= k < |shortcuts| && shortcuts[k].action == action
                           && forall j :: 0 <= j < k ==> shortcuts[j].action != action) ==> keys == shortcuts[k].keys
    {
      match FindByAction(shortcuts, action)
      case None => []
      case Some(s) => s.keys
    }

    /** `destroy`: every handler is dropped. */
    method Destroy()
      modifies this
      ensures actionHandlers == map[]
      ensures shortcuts == old(shortcuts) && enabled == old(enabled)
    {
      actionHandlers := map[];
    }
  }
}

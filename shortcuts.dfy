/**
 * The shortcuts store (`shortcutsStore.ts`): the configured keyboard
 * shortcuts and a global enable flag. Every operation maps a state to a new
 * state; the configuration file's list is a parameter.
 */
module Shortcuts {
  import opened Wrappers

  datatype Shortcut = Shortcut(id: string, name: string, keys: seq<string>, description: string, action: string)

  datatype ShortcutsState = ShortcutsState(shortcuts: seq<Shortcut>, enabled: bool)

  /** `loadShortcuts` (and the store's initial value): the configured list, enabled. */
  function LoadShortcuts(config: seq<Shortcut>): (st: ShortcutsState)
    ensures st.shortcuts == config && st.enabled
  {
    ShortcutsState(config, true)
  }

  /** One element of `updateShortcut`'s `map`. */
  function WithKeysIfId(s: Shortcut, id: string, keys: seq<string>): Shortcut
  {
    if s.id == id then s.(keys := keys) else s
  }

  /** `updateShortcut(id, keys)`: every shortcut with that id gets the new keys. */
  function UpdateShortcut(st: ShortcutsState, id: string, keys: seq<string>): (r: ShortcutsState)
    ensures r.enabled == st.enabled && |r.shortcuts| == |st.shortcuts|
    ensures forall i :: 0 <= i < |st.shortcuts| ==>
      var (before, after) := (st.shortcuts[i], r.shortcuts[i]);
      && after.id == before.id && after.name == before.name && after.description == before.description
      && after.action == before.action
      && after.keys == (if before.id == id then keys else before.keys)
  {
    st.(shortcuts := seq(|st.shortcuts|, i requires 0 <= i < |st.shortcuts| => WithKeysIfId(st.shortcuts[i], id, keys)))
  }

  /** An id no shortcut carries changes nothing. */
  lemma UpdateUnknownId(st: ShortcutsState, id: string, keys: seq<string>)
    requires forall i :: 0 <= i < |st.shortcuts| ==> st.shortcuts[i].id != id
    ensures UpdateShortcut(st, id, keys) == st
  {
    var r := UpdateShortcut(st, id, keys);
    assert r.shortcuts == st.shortcuts;
  }

  /** The last update of an id wins, so repeating an update changes nothing more. */
  lemma UpdateShortcutTwice(st: ShortcutsState, id: string, keys1: seq<string>, keys2: seq<string>)
    ensures UpdateShortcut(UpdateShortcut(st, id, keys1), id, keys2) == UpdateShortcut(st, id, keys2)
  {
    var a := UpdateShortcut(UpdateShortcut(st, id, keys1), id, keys2);
    var b := UpdateShortcut(st, id, keys2);
    assert a.shortcuts == b.shortcuts;
  }

  /** Updates of different ids commute. */
  lemma UpdateShortcutCommutes(st: ShortcutsState, id1: string, keys1: seq<string>, id2: string, keys2: seq<string>)
    requires id1 != id2
    ensures UpdateShortcut(UpdateShortcut(st, id1, keys1), id2, keys2)
         == UpdateShortcut(UpdateShortcut(st, id2, keys2), id1, keys1)
  {
    var a := UpdateShortcut(UpdateShortcut(st, id1, keys1), id2, keys2);
    var b := UpdateShortcut(UpdateShortcut(st, id2, keys2), id1, keys1);
    assert a.shortcuts == b.shortcuts;
  }

  /** `toggleEnabled`. */
  function ToggleEnabled(st: ShortcutsState): (r: ShortcutsState)
    ensures r.enabled == !st.enabled && r.shortcuts == st.shortcuts
  {
    st.(enabled := !st.enabled)
  }

  /** Toggling twice restores the state. */
  lemma ToggleTwice(st: ShortcutsState)
    ensures ToggleEnabled(ToggleEnabled(st)) == st
  {
  }

  /**
   * `shortcuts.find((s) => s.action === action)`: the first shortcut bound to
   * `action`. `getShortcutByAction` applies it to the store's list.
   */
  function FindByAction(shortcuts: seq<Shortcut>, action: string): (r: Option<Shortcut>)
    ensures r.Some? ==> exists k :: 0 <= k < |shortcuts| && shortcuts[k] == r.value && r.value.action == action
                                    && forall j :: 0 <= j < k ==> shortcuts[j].action != action
    ensures r.None? <==> forall k :: 0 <= k < |shortcuts| ==> shortcuts[k].action != action
  {
    if shortcuts == [] then None
    else if shortcuts[0].action == action then Some(shortcuts[0])
    else
      var r := FindByAction(shortcuts[1..], action);
      if r.Some? then
        var k :| 0 <= k < |shortcuts[1..]| && shortcuts[1..][k] == r.value && r.value.action == action
                 && forall j :: 0 <= j < k ==> shortcuts[1..][j].action != action;
        assert shortcuts[k + 1] == r.value;
        r
      else r
  }

  /**
   * After `updateShortcut`, looking up an action finds the shortcut at the
   * same place, carrying the new keys if its id was the one updated.
   */
  lemma {:induction false} FindAfterUpdate(shortcuts: seq<Shortcut>, id: string, keys: seq<string>, action: string)
    ensures var updated := seq(|shortcuts|, i requires 0 <= i < |shortcuts| => WithKeysIfId(shortcuts[i], id, keys));
      FindByAction(updated, action) == (match FindByAction(shortcuts, action)
                                        case None => None
                                        case Some(s) => Some(WithKeysIfId(s, id, keys)))
    decreases |shortcuts|
  {
    var updated := seq(|shortcuts|, i requires 0 <= i < |shortcuts| => WithKeysIfId(shortcuts[i], id, keys));
    if shortcuts != [] {
      var tail := shortcuts[1..];
      assert updated[1..] == seq(|tail|, i requires 0 <= i < |tail| => WithKeysIfId(tail[i], id, keys));
      FindAfterUpdate(tail, id, keys, action);
    }
  }
}

/**
 * The global IME-switcher shortcut recogniser of the daemon
 * (bus/ibusimpl.c): the switcher key table set through the
 * GlobalShortcutKeys property, and the key filter that reports a hit
 * when a switcher binding is pressed, or when all of its modifiers have
 * been released after a press.
 */
module Shortcut {
  import opened Common

  type Mask = bv32
  type Keyval = bv32

  // Bits of IBusModifierType.
  const ShiftMask: Mask := 0x1
  const LockMask: Mask := 0x2
  const ControlMask: Mask := 0x4
  const Mod1Mask: Mask := 0x8
  const Mod4Mask: Mask := 0x40
  const SuperMask: Mask := 0x400_0000
  const HyperMask: Mask := 0x800_0000
  const MetaMask: Mask := 0x1000_0000
  const ReleaseMask: Mask := 0x4000_0000
  /** IBUS_MODIFIER_FILTER: the modifier mask without Lock, Mod2, the
      pointer-button bits and the handled/forward bits. */
  const ModifierFilter: Mask := 0x5C00_00ED

  // Modifier keysyms.
  const KeyShiftL: Keyval := 0xffe1
  const KeyShiftR: Keyval := 0xffe2
  const KeyControlL: Keyval := 0xffe3
  const KeyControlR: Keyval := 0xffe4
  const KeyCapsLock: Keyval := 0xffe5
  const KeyMetaL: Keyval := 0xffe7
  const KeyMetaR: Keyval := 0xffe8
  const KeyAltL: Keyval := 0xffe9
  const KeyAltR: Keyval := 0xffea
  const KeySuperL: Keyval := 0xffeb
  const KeySuperR: Keyval := 0xffec
  const KeyHyperL: Keyval := 0xffed
  const KeyHyperR: Keyval := 0xffee

  /** IBusBusGlobalBindingType as carried in the first field of the
      GlobalShortcutKeys property. */
  const BindingTypeAny: bv8 := 0
  const BindingTypeImeSwitcher: bv8 := 1

  /** The keysyms of the modifier keys the recogniser knows: the block
      Shift_L .. Hyper_R of the keysym table except Shift_Lock. */
  predicate IsModifierKeysym(k: Keyval)
  {
    0xffe1 <= k <= 0xffee && k != 0xffe6
  }

  /** The modifier bit that a modifier key sets, or 0 for any other key. */
  function KeyvalToModifier(keyval: Keyval): (m: Mask)
    ensures m != 0 <==> IsModifierKeysym(keyval)
    ensures keyval == KeySuperL || keyval == KeySuperR ==> m == Mod4Mask
  {
    if keyval == KeyControlL || keyval == KeyControlR then ControlMask
    else if keyval == KeyShiftL || keyval == KeyShiftR then ShiftMask
    else if keyval == KeyCapsLock then LockMask
    else if keyval == KeyAltL || keyval == KeyAltR then Mod1Mask
    else if keyval == KeyMetaL || keyval == KeyMetaR then MetaMask
    else if keyval == KeySuperL || keyval == KeySuperR then Mod4Mask
    else if keyval == KeyHyperL || keyval == KeyHyperR then HyperMask
    else 0
  }

  /** The modifiers the recogniser compares with a binding: Super is
      folded into Mod4 (toolkits report either), then only the filtered
      modifier bits are kept and the release bit is dropped. */
  function NormaliseModifiers(state: Mask): (m: Mask)
    ensures m & ReleaseMask == 0
    ensures m & SuperMask == 0
    ensures m & !ModifierFilter == 0
    ensures state & SuperMask != 0 ==> m & Mod4Mask != 0
    ensures state & SuperMask == 0 ==> m == state & ModifierFilter & !ReleaseMask
  {
    var folded := if state & SuperMask != 0 then (state & !SuperMask) | Mod4Mask else state;
    folded & (ModifierFilter & !ReleaseMask)
  }

  /** One entry of the switcher key table. A non-zero keycode marks the
      backward direction of the switcher. */
  datatype KeyBinding = KeyBinding(keyval: Keyval, keycode: bv32, state: Mask)

  /** The payload of the GlobalShortcutKeyResponded signal. */
  datatype Response = Response(bindingType: bv8, keyval: Keyval, keycode: bv32,
                               state: Mask, isBackward: bool)

  /** What one scan of the key table decides: whether the event hits,
      the new binding state, and the direction of the entry the scan
      stopped at. */
  datatype Outcome = Outcome(hit: bool, bindingState: Mask, isBackward: bool)

  /** The pending binding state once the key keyval is released with
      the given modifiers still held: what remains of the binding. */
  function AfterRelease(bs: Mask, modifiers: Mask, keyval: Keyval): Mask
  {
    bs & modifiers & !KeyvalToModifier(keyval)
  }

  /** A modifier key sets a single bit, and one that survives the
      modifier filter (or is Lock). */
  lemma KeyvalToModifierBits(keyval: Keyval)
    ensures var m := KeyvalToModifier(keyval);
            m & (m - 1) == 0 && m & !(ModifierFilter | LockMask) == 0
  {
  }

  /** What remains of a binding after a release lies within the pending
      binding state and the modifiers still held, without the released
      modifier. */
  lemma AfterReleaseShrinks(bs: Mask, modifiers: Mask, keyval: Keyval)
    ensures var nb := AfterRelease(bs, modifiers, keyval);
            nb & !bs == 0 && nb & !modifiers == 0 && nb & KeyvalToModifier(keyval) == 0
  {
  }

  /** What one live entry k of the table decides for an event with the
      given keyval, normalised modifiers and press/release flag, when the
      pending binding state is bs; None lets the scan go on to the next
      entry. */
  function Decide(k: KeyBinding, keyval: Keyval, modifiers: Mask, isPressed: bool, bs: Mask): Option<Outcome>
  {
    if keyval == k.keyval && modifiers == k.state then
      if modifiers != 0 && !isPressed && bs != 0 then
        // the trigger key is released while its modifiers are still held
        Some(Outcome(false, bs, k.keycode != 0))
      else
        Some(Outcome(true, if modifiers != 0 && isPressed then k.state else bs, k.keycode != 0))
    else if bs != 0 && !isPressed then
      var nb := AfterRelease(bs, modifiers, keyval);
      Some(Outcome(nb == 0, nb, k.keycode != 0))
    else
      None
  }

  /** The scan of the key table from entry i on. The table ends at its
      first entry whose keyval is 0. */
  function Scan(keys: seq<KeyBinding>, i: nat, keyval: Keyval, modifiers: Mask,
                isPressed: bool, bs: Mask): Outcome
    decreases |keys| - i
  {
    if i >= |keys| || keys[i].keyval == 0 then Outcome(false, bs, false)
    else
      match Decide(keys[i], keyval, modifiers, isPressed, bs)
      case Some(o) => o
      case None => Scan(keys, i + 1, keyval, modifiers, isPressed, bs)
  }

  /** True when entry j of the table is live and matches the event. */
  predicate Matches(keys: seq<KeyBinding>, j: nat, keyval: Keyval, modifiers: Mask)
    requires j < |keys|
  {
    keys[j].keyval != 0 && keyval == keys[j].keyval && modifiers == keys[j].state
  }

  /** Pressing a binding that has modifiers, when it is the first live
      entry the event matches, is a hit and records the binding's
      modifiers as the pending binding state. */
  lemma {:induction false} PressRecordsBinding(keys: seq<KeyBinding>, i: nat, j: nat,
                                               keyval: Keyval, modifiers: Mask, bs: Mask)
    requires i <= j < |keys|
    requires Matches(keys, j, keyval, modifiers) && modifiers != 0
    requires forall k :: i <= k < j ==> keys[k].keyval != 0 && !Matches(keys, k, keyval, modifiers)
    ensures Scan(keys, i, keyval, modifiers, true, bs)
            == Outcome(true, keys[j].state, keys[j].keycode != 0)
    decreases j - i
  {
    if i < j {
      PressRecordsBinding(keys, i + 1, j, keyval, modifiers, bs);
    }
  }

  /** While a binding is pending, a release is decided by the first
      entry alone: releasing the trigger key with its modifiers held is
      never a hit, releasing a trigger key without modifiers is a hit,
      and both keep the pending state; releasing anything else clears the
      released modifier and the modifiers no longer held, and hits
      exactly when nothing of the binding remains. */
  lemma ReleaseWhilePending(keys: seq<KeyBinding>, keyval: Keyval, modifiers: Mask, bs: Mask)
    requires |keys| > 0 && keys[0].keyval != 0 && bs != 0
    ensures var o := Scan(keys, 0, keyval, modifiers, false, bs);
            if Matches(keys, 0, keyval, modifiers) then
              (modifiers != 0 ==> !o.hit && o.bindingState == bs) &&
              (modifiers == 0 ==> o.hit && o.bindingState == bs)
            else
              o.bindingState == AfterRelease(bs, modifiers, keyval)
              && (o.hit <==> o.bindingState == 0)
  {
  }

  /** A release never records a binding: the pending state is either
      kept or reduced to what remains of it, so its bits only shrink. */
  lemma {:induction false} ReleaseOnlyShrinks(keys: seq<KeyBinding>, i: nat, keyval: Keyval,
                                              modifiers: Mask, bs: Mask)
    ensures var o := Scan(keys, i, keyval, modifiers, false, bs);
            o.bindingState == bs || o.bindingState == AfterRelease(bs, modifiers, keyval)
    decreases |keys| - i
  {
    if i < |keys| && keys[i].keyval != 0 {
      var k := keys[i];
      if !(keyval == k.keyval && modifiers == k.state) && bs == 0 {
        ReleaseOnlyShrinks(keys, i + 1, keyval, modifiers, bs);
      }
    }
  }

  /** An event that matches no live entry of the table, with no binding
      pending, is not a hit and leaves the state alone. */
  lemma {:induction false} NoMatchNoHit(keys: seq<KeyBinding>, i: nat, keyval: Keyval,
                                        modifiers: Mask, isPressed: bool)
    requires forall k :: i <= k < |keys| ==> !Matches(keys, k, keyval, modifiers)
    ensures Scan(keys, i, keyval, modifiers, isPressed, 0) == Outcome(false, 0, false)
    decreases |keys| - i
  {
    if i < |keys| && keys[i].keyval != 0 {
      assert !Matches(keys, i, keyval, modifiers);
      NoMatchNoHit(keys, i + 1, keyval, modifiers, isPressed);
    }
  }

  /** The test of one live entry of the table in the key filter's loop:
      whether it decides the event (stop), and if so whether it hits, the
      new binding state and the entry's direction. */
  method TestEntry(k: KeyBinding, keyval: Keyval, modifiers: Mask, isPressed: bool, bs: Mask)
    returns (stop: bool, hit: bool, bindingState: Mask, isBackward: bool)
    ensures var d := Decide(k, keyval, modifiers, isPressed, bs);
            stop == d.Some? && (stop ==> d.value == Outcome(hit, bindingState, isBackward))
  {
    stop, hit, bindingState := false, false, bs;
    var bindState := k.state;
    isBackward := k.keycode != 0;
    if keyval == k.keyval && modifiers == bindState {
      stop := true;
      if modifiers != 0 {
        if isPressed {
          bindingState := bindState;
        } else if bindingState != 0 {
          return;
        }
      }
      hit := true;
    } else if bindingState != 0 && !isPressed {
      stop := true;
      bindingState := AfterRelease(bindingState, modifiers, keyval);
      if bindingState == 0 {
        hit := true;
      }
      assert Decide(k, keyval, modifiers, isPressed, bs) == Some(Outcome(hit, bindingState, isBackward));
    } else {
      assert Decide(k, keyval, modifiers, isPressed, bs) == None;
    }
  }

  /** The loop of the key filter: walks the table until an entry decides
      the event, and returns whether it hits, the new binding state and
      the direction of the entry it stopped at. */
  method ScanKeys(keys: seq<KeyBinding>, keyval: Keyval, modifiers: Mask, isPressed: bool, bs: Mask)
    returns (hit: bool, bindingState: Mask, isBackward: bool)
    ensures var o := Scan(keys, 0, keyval, modifiers, isPressed, bs);
            hit == o.hit && bindingState == o.bindingState && (hit ==> isBackward == o.isBackward)
  {
    hit := false;
    bindingState := bs;
    isBackward := false;
    var i := 0;
    while i < |keys| && keys[i].keyval != 0
      invariant 0 <= i <= |keys|
      invariant !hit && bindingState == bs
      invariant Scan(keys, 0, keyval, modifiers, isPressed, bs)
                == Scan(keys, i, keyval, modifiers, isPressed, bs)
      decreases |keys| - i
    {
      var stop, h, nb, backward := TestEntry(keys[i], keyval, modifiers, isPressed, bs);
      if stop {
        hit, bindingState, isBackward := h, nb, backward;
        return;
      }
      i := i + 1;
    }
  }

  /**
   * The recogniser's state: the switcher key table (NULL until the
   * GlobalShortcutKeys property is set) and the pending binding state,
   * which the daemon keeps in a function-static variable.
   */
  class Switcher {
    var imeSwitcherKeys: Option<seq<KeyBinding>>
    var bindingState: Mask

    constructor ()
      ensures imeSwitcherKeys == None && bindingState == 0
    {
      imeSwitcherKeys := None;
      bindingState := 0;
    }

    /** Sets the GlobalShortcutKeys property: an empty key list is
        refused; a list for the IME switcher replaces the table; a list
        for any other binding type is accepted and dropped. */
    method SetGlobalShortcutKeys(bindingType: bv8, keys: seq<KeyBinding>) returns (ok: bool)
      modifies this`imeSwitcherKeys
      ensures ok <==> |keys| > 0
      ensures imeSwitcherKeys == (if ok && bindingType == BindingTypeImeSwitcher
                                  then Some(keys) else old(imeSwitcherKeys))
    {
      if |keys| == 0 {
        return false;
      }
      if bindingType == BindingTypeImeSwitcher {
        imeSwitcherKeys := Some(keys);
      }
      ok := true;
    }

    /** Filters one key event against the switcher table. Returns
        whether it hits, and the GlobalShortcutKeyResponded payload
        emitted on a hit. */
    method ProcessKeyEvent(keyval: Keyval, keycode: bv32, state: Mask)
      returns (hit: bool, response: Option<Response>)
      modifies this`bindingState
      ensures imeSwitcherKeys.None? ==>
                !hit && response == None && bindingState == old(bindingState)
      ensures imeSwitcherKeys.Some? ==>
                var o := Scan(imeSwitcherKeys.value, 0, keyval, NormaliseModifiers(state),
                              state & ReleaseMask == 0, old(bindingState));
                hit == o.hit && bindingState == o.bindingState
                && response == (if hit then Some(Response(BindingTypeImeSwitcher, keyval,
                                                          keycode, state, o.isBackward))
                                else None)
    {
      hit := false;
      response := None;
      if imeSwitcherKeys.None? {
        return;
      }
      var isBackward;
      hit, bindingState, isBackward := ScanKeys(imeSwitcherKeys.value, keyval, NormaliseModifiers(state),
                                                state & ReleaseMask == 0, bindingState);
      if hit {
        response := Some(Response(BindingTypeImeSwitcher, keyval, keycode, state, isBackward));
      }
    }
  }
}

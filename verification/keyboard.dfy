/**
 * The modifier and shortcut matcher of src/keyboard/mod.rs.
 *
 * A `Modifier` names either one side of a modifier key pair (`LeftCtrl`)
 * or both sides (`AnyCtrl`). A `Shortcut` is a list of modifiers and one
 * key; `IsTriggered` decides whether a set of pressed keys fires it.
 */
module Keyboard {
  import opened Keycodes

  datatype Modifier =
    | AnyAlt | LeftAlt | RightAlt
    | AnyCtrl | LeftCtrl | RightCtrl
    | AnyShift | LeftShift | RightShift
    | AnyMeta | LeftMeta | RightMeta

  /**
   * `Modifier::is_modifier`: whether pressing `key` satisfies `m`.
   * The shift arms use the variants `KeyLeftShift` and `KeyRightShift`.
   */
  predicate IsModifier(m: Modifier, key: Key)
    ensures IsModifier(m, key) ==> key in ModifierKeys
  {
    match m
    case AnyAlt => key == KeyLeftAlt || key == KeyRightAlt
    case LeftAlt => key == KeyLeftAlt
    case RightAlt => key == KeyRightAlt
    case AnyCtrl => key == KeyLeftCtrl || key == KeyRightCtrl
    case LeftCtrl => key == KeyLeftCtrl
    case RightCtrl => key == KeyRightCtrl
    case AnyMeta => key == KeyLeftMeta || key == KeyRightMeta
    case LeftMeta => key == KeyLeftMeta
    case RightMeta => key == KeyRightMeta
    case AnyShift => key == KeyLeftShift || key == KeyRightShift
    case LeftShift => key == KeyLeftShift
    case RightShift => key == KeyRightShift
  }

  /** The eight physical modifier keys. */
  const ModifierKeys: set<Key> :=
    {KeyLeftAlt, KeyRightAlt, KeyLeftCtrl, KeyRightCtrl,
     KeyLeftShift, KeyRightShift, KeyLeftMeta, KeyRightMeta}

  /** The side-specific modifiers that make up a generic one. */
  function Sides(m: Modifier): (r: (Modifier, Modifier))
    requires m in {AnyAlt, AnyCtrl, AnyShift, AnyMeta}
  {
    match m
    case AnyAlt => (LeftAlt, RightAlt)
    case AnyCtrl => (LeftCtrl, RightCtrl)
    case AnyShift => (LeftShift, RightShift)
    case AnyMeta => (LeftMeta, RightMeta)
  }

  /** A generic modifier accepts a key exactly when one of its two sides does. */
  lemma AnyIsEitherSide(m: Modifier, key: Key)
    requires m in {AnyAlt, AnyCtrl, AnyShift, AnyMeta}
    ensures IsModifier(m, key) <==> IsModifier(Sides(m).0, key) || IsModifier(Sides(m).1, key)
  {
  }

  /**
   * Each side-specific modifier is satisfied by exactly one key, and the
   * left and right sides of a pair never accept the same key.
   */
  lemma SideSpecificIsOneKey(m: Modifier, key: Key)
    requires m in {AnyAlt, AnyCtrl, AnyShift, AnyMeta}
    ensures !(IsModifier(Sides(m).0, key) && IsModifier(Sides(m).1, key))
    ensures exists l: Key :: IsModifier(Sides(m).0, l) && forall k: Key :: IsModifier(Sides(m).0, k) ==> k == l
    ensures exists r: Key :: IsModifier(Sides(m).1, r) && forall k: Key :: IsModifier(Sides(m).1, k) ==> k == r
  {
    match m
    case AnyAlt => assert IsModifier(LeftAlt, KeyLeftAlt) && IsModifier(RightAlt, KeyRightAlt);
    case AnyCtrl => assert IsModifier(LeftCtrl, KeyLeftCtrl) && IsModifier(RightCtrl, KeyRightCtrl);
    case AnyShift => assert IsModifier(LeftShift, KeyLeftShift) && IsModifier(RightShift, KeyRightShift);
    case AnyMeta => assert IsModifier(LeftMeta, KeyLeftMeta) && IsModifier(RightMeta, KeyRightMeta);
  }

  /** Only the eight modifier keys satisfy any modifier, and each of them satisfies one. */
  lemma OnlyModifierKeysSatisfy(key: Key)
    ensures (exists m: Modifier :: IsModifier(m, key)) <==> key in ModifierKeys
  {
    if key in ModifierKeys {
      var m :=
        if key == KeyLeftAlt then LeftAlt else if key == KeyRightAlt then RightAlt
        else if key == KeyLeftCtrl then LeftCtrl else if key == KeyRightCtrl then RightCtrl
        else if key == KeyLeftShift then LeftShift else if key == KeyRightShift then RightShift
        else if key == KeyLeftMeta then LeftMeta else RightMeta;
      assert IsModifier(m, key);
    }
  }

  datatype Shortcut = Shortcut(modifiers: seq<Modifier>, key: Key)

  /** `active_keys.iter().any(|key| modifier.is_modifier(*key))`. */
  predicate AnyHeld(m: Modifier, activeKeys: set<Key>)
  {
    exists k :: k in activeKeys && IsModifier(m, k)
  }

  /**
   * `Shortcut::is_triggered`, as the code is written: the `for` loop over
   * the modifiers returns `false` when the first modifier is not held and
   * leaves the loop with `break` when it is, so later modifiers are never
   * looked at; then the key must be pressed.
   */
  predicate IsTriggered(s: Shortcut, activeKeys: set<Key>)
    ensures IsTriggered(s, activeKeys) ==> s.key in activeKeys
    ensures IsTriggered(s, activeKeys) && s.modifiers != [] ==>
      exists k :: k in activeKeys && k in ModifierKeys
  {
    && (s.modifiers == [] || AnyHeld(s.modifiers[0], activeKeys))
    && s.key in activeKeys
  }

  /** A shortcut only fires while its key is pressed. */
  lemma TriggeredNeedsKey(s: Shortcut, activeKeys: set<Key>)
    ensures IsTriggered(s, activeKeys) ==> s.key in activeKeys
  {
  }

  /** A shortcut without modifiers fires exactly when its key is pressed. */
  lemma BareTriggeredIffKey(s: Shortcut, activeKeys: set<Key>)
    requires s.modifiers == []
    ensures IsTriggered(s, activeKeys) <==> s.key in activeKeys
  {
  }

  /**
   * With modifiers, a shortcut fires exactly when some pressed key satisfies
   * the first modifier and the key is pressed.
   */
  lemma FirstModifierDecides(s: Shortcut, activeKeys: set<Key>)
    requires s.modifiers != []
    ensures IsTriggered(s, activeKeys) <==>
      (exists k :: k in activeKeys && IsModifier(s.modifiers[0], k)) && s.key in activeKeys
  {
  }

  /** Modifiers after the first never change the outcome. */
  lemma LaterModifiersIgnored(m: Modifier, rest: seq<Modifier>, rest': seq<Modifier>, key: Key, activeKeys: set<Key>)
    ensures IsTriggered(Shortcut([m] + rest, key), activeKeys) == IsTriggered(Shortcut([m] + rest', key), activeKeys)
  {
  }

  /** Pressing more keys never stops a shortcut from firing. */
  lemma TriggeredMonotone(s: Shortcut, a: set<Key>, b: set<Key>)
    requires a <= b
    ensures IsTriggered(s, a) ==> IsTriggered(s, b)
  {
    if IsTriggered(s, a) && s.modifiers != [] {
      var k :| k in a && IsModifier(s.modifiers[0], k);
      assert k in b;
    }
  }

  /** `[AnyCtrl]`+`KeyP` fires on the right control key; `[LeftCtrl]`+`KeyP` does not. */
  lemma CtrlExamples()
    ensures IsTriggered(Shortcut([AnyCtrl], KeyP), {KeyRightCtrl, KeyP})
    ensures !IsTriggered(Shortcut([LeftCtrl], KeyP), {KeyRightCtrl, KeyP})
  {
    assert IsModifier(AnyCtrl, KeyRightCtrl);
  }

  /**
   * As written, the order of the modifiers decides the match and a required
   * modifier may be missing: `[AnyCtrl, AnyAlt]`+`KeyP` fires with only the
   * left control key and `KeyP` pressed, `[AnyAlt, AnyCtrl]`+`KeyP` does not.
   */
  lemma ModifierOrderMatters()
    ensures IsTriggered(Shortcut([AnyCtrl, AnyAlt], KeyP), {KeyLeftCtrl, KeyP})
    ensures !IsTriggered(Shortcut([AnyAlt, AnyCtrl], KeyP), {KeyLeftCtrl, KeyP})
    ensures !AnyHeld(AnyAlt, {KeyLeftCtrl, KeyP})
  {
    assert IsModifier(AnyCtrl, KeyLeftCtrl);
  }

  /**
   * The loop with `continue` where the code has `break`: every modifier of
   * the list, in order, must be satisfied by some pressed key.
   */
  predicate AllModifiersHeld(modifiers: seq<Modifier>, activeKeys: set<Key>)
  {
    modifiers == [] || (AnyHeld(modifiers[0], activeKeys) && AllModifiersHeld(modifiers[1..], activeKeys))
  }

  /** `is_triggered` with every modifier checked. */
  predicate IsTriggeredAll(s: Shortcut, activeKeys: set<Key>)
  {
    AllModifiersHeld(s.modifiers, activeKeys) && s.key in activeKeys
  }

  /** The corrected loop accepts exactly when each listed modifier is held. */
  lemma {:induction false} AllModifiersHeldIff(modifiers: seq<Modifier>, activeKeys: set<Key>)
    ensures AllModifiersHeld(modifiers, activeKeys) <==> forall m :: m in modifiers ==> AnyHeld(m, activeKeys)
  {
    if modifiers != [] {
      AllModifiersHeldIff(modifiers[1..], activeKeys);
      assert forall m :: m in modifiers <==> m == modifiers[0] || m in modifiers[1..];
    }
  }

  /** With every modifier checked, the order and repetition of modifiers do not matter. */
  lemma IsTriggeredAllIgnoresOrder(s: Shortcut, s': Shortcut, activeKeys: set<Key>)
    requires s.key == s'.key
    requires forall m :: m in s.modifiers <==> m in s'.modifiers
    ensures IsTriggeredAll(s, activeKeys) == IsTriggeredAll(s', activeKeys)
  {
    AllModifiersHeldIff(s.modifiers, activeKeys);
    AllModifiersHeldIff(s'.modifiers, activeKeys);
  }

  /** The corrected matcher is stricter than the code as written, and also monotone. */
  lemma IsTriggeredAllRefines(s: Shortcut, a: set<Key>, b: set<Key>)
    requires a <= b
    ensures IsTriggeredAll(s, a) ==> IsTriggered(s, a)
    ensures IsTriggeredAll(s, a) ==> IsTriggeredAll(s, b)
  {
    AllModifiersHeldIff(s.modifiers, a);
    AllModifiersHeldIff(s.modifiers, b);
    if IsTriggeredAll(s, a) {
      forall m | m in s.modifiers ensures AnyHeld(m, b) {
        var k :| k in a && IsModifier(m, k);
        assert k in b;
      }
    }
  }

  /** The corrected matcher rejects the counterexample of `ModifierOrderMatters`. */
  lemma IsTriggeredAllNeedsEveryModifier()
    ensures !IsTriggeredAll(Shortcut([AnyCtrl, AnyAlt], KeyP), {KeyLeftCtrl, KeyP})
    ensures IsTriggeredAll(Shortcut([AnyCtrl, AnyAlt], KeyP), {KeyLeftCtrl, KeyRightAlt, KeyP})
  {
    var held := {KeyLeftCtrl, KeyRightAlt, KeyP};
    assert !AnyHeld(AnyAlt, {KeyLeftCtrl, KeyP});
    assert !AllModifiersHeld([AnyAlt], {KeyLeftCtrl, KeyP});
    assert IsModifier(AnyCtrl, KeyLeftCtrl) && IsModifier(AnyAlt, KeyRightAlt);
    assert [AnyCtrl, AnyAlt][1..] == [AnyAlt];
    assert [AnyAlt][1..] == [];
    assert AllModifiersHeld([AnyAlt], held);
  }
}

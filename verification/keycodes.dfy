/**
 * The key code table of src/keyboard/keycodes.rs.
 *
 * `Key` is a `#[repr(u16)]` enum of 520 variants whose discriminants are
 * the Linux input-event key codes, with gaps between the blocks. A variant
 * is modelled by its discriminant; the set of variants is the union of the
 * contiguous blocks of discriminants, each one commented with the first and
 * last variant of the block. `TryFromPrimitive` (derived by num_enum) is the
 * decoder from a raw `u16` to a `Key`.
 */
module Keycodes {
  import opened Wrappers

  /** Rust's `u16`. */
  type u16 = x: int | 0 <= x < 0x1_0000

  /** The discriminant of the last variant, `KeyMax`. */
  const KeyMaxCode: int := 0x2ff

  /** `c` is the discriminant of some variant of `Key`. */
  predicate IsKeyCode(c: int)
  {
    || 0 <= c <= 83          // KeyReserved .. KeyKpDot
    || 85 <= c <= 194        // KeyZenkakuhankaku .. KeyF24
    || 200 <= c <= 248       // KeyPlayCd .. KeyMicMute
    || 0x100 <= c <= 0x109   // Btn0 .. Btn9
    || 0x110 <= c <= 0x117   // BtnLeft .. BtnTask
    || 0x120 <= c <= 0x12b   // BtnTrigger .. BtnBase6
    || 0x12f <= c <= 0x13e   // BtnDead .. BtnThumbR
    || 0x140 <= c <= 0x148   // BtnToolPen .. BtnToolQuintTap
    || 0x14a <= c <= 0x151   // BtnTouch .. BtnGearUp
    || 0x160 <= c <= 0x1ba   // KeyOk .. KeyImages
    || 0x1c0 <= c <= 0x1c3   // KeyDelEol .. KeyDelLine
    || 0x1d0 <= c <= 0x1e4   // KeyFn .. KeyFnB
    || 0x1f1 <= c <= 0x1fa   // KeyBrlDot1 .. KeyBrlDot10
    || 0x200 <= c <= 0x20b   // KeyNumeric0 .. KeyNumericPound
    || 0x210 <= c <= 0x21e   // KeyCameraFocus .. KeyLightsToggle
    || 0x220 <= c <= 0x223   // BtnDpadUp .. BtnDpadRight
    || c == 0x230            // KeyAlsToggle
    || 0x240 <= c <= 0x246   // KeyButtonConfig .. KeyVoiceCommand
    || 0x250 <= c <= 0x251   // KeyBrightnessMin .. KeyBrightnessMax
    || 0x260 <= c <= 0x265   // KeyKbdinputassistPrev .. KeyKbdinputassistCancel
    || 0x2c0 <= c <= 0x2e7   // BtnTriggerHappy1 .. BtnTriggerHappy40
    || c == KeyMaxCode       // KeyMax
  }

  /** A variant of the enum, identified by its discriminant. */
  type Key = c: u16 | IsKeyCode(c) witness 0

  // The variants the rest of the model names.
  const KeyReserved: Key := 0
  const Key1: Key := 2
  const Key2: Key := 3
  const Key3: Key := 4
  const Key4: Key := 5
  const Key5: Key := 6
  const Key6: Key := 7
  const Key7: Key := 8
  const Key8: Key := 9
  const Key9: Key := 10
  const Key0: Key := 11
  const KeyQ: Key := 16
  const KeyW: Key := 17
  const KeyE: Key := 18
  const KeyR: Key := 19
  const KeyT: Key := 20
  const KeyY: Key := 21
  const KeyU: Key := 22
  const KeyI: Key := 23
  const KeyO: Key := 24
  const KeyP: Key := 25
  const KeyLeftCtrl: Key := 29
  const KeyA: Key := 30
  const KeyS: Key := 31
  const KeyD: Key := 32
  const KeyF: Key := 33
  const KeyG: Key := 34
  const KeyH: Key := 35
  const KeyJ: Key := 36
  const KeyK: Key := 37
  const KeyL: Key := 38
  const KeyLeftShift: Key := 42
  const KeyZ: Key := 44
  const KeyX: Key := 45
  const KeyC: Key := 46
  const KeyV: Key := 47
  const KeyB: Key := 48
  const KeyN: Key := 49
  const KeyM: Key := 50
  const KeyRightShift: Key := 54
  const KeyLeftAlt: Key := 56
  const KeyKp7: Key := 71
  const KeyKp0: Key := 82
  const KeyRightCtrl: Key := 97
  const KeyRightAlt: Key := 100
  const KeyLeftMeta: Key := 125
  const KeyRightMeta: Key := 126
  const KeyKpAsterisk: Key := 55
  const KeyKpDot: Key := 83
  const KeyKpJpComma: Key := 95
  const KeyKpEnter: Key := 96
  const KeyKpSlash: Key := 98
  const KeyKpEqual: Key := 117
  const KeyKpPlusMinus: Key := 118
  const KeyKpComma: Key := 121
  const KeyKpLeftParen: Key := 179
  const KeyKpRightParen: Key := 180
  const KeyMax: Key := KeyMaxCode

  /** The derived `TryFrom<u16>`: the variant with discriminant `raw`, if any. */
  function TryFromPrimitive(raw: u16): (r: Option<Key>)
    ensures r.Some? ==> r.value == raw && raw <= KeyMaxCode
    ensures r.None? ==> !IsKeyCode(raw)
  {
    if IsKeyCode(raw) then Some(raw) else None
  }

  /** `key as u16`: the discriminant of a variant. */
  function ToPrimitive(key: Key): (raw: u16)
    ensures IsKeyCode(raw) && raw <= KeyMaxCode
  {
    key
  }

  /** Decoding a discriminant gives back the variant it came from. */
  lemma DecodeEncode(key: Key)
    ensures TryFromPrimitive(ToPrimitive(key)) == Some(key)
  {
  }

  /** A successful decode is undone by encoding: the decoder invents no codes. */
  lemma EncodeDecode(raw: u16)
    ensures TryFromPrimitive(raw).Some? ==> ToPrimitive(TryFromPrimitive(raw).value) == raw
    ensures TryFromPrimitive(raw).None? <==> !IsKeyCode(raw)
  {
  }

  /** Distinct variants have distinct discriminants. */
  lemma EncodeInjective(a: Key, b: Key)
    ensures ToPrimitive(a) == ToPrimitive(b) ==> a == b
  {
  }

  /** Every discriminant is at most that of `KeyMax`, so no code above 0x2ff decodes. */
  lemma CodesBounded(raw: u16, key: Key)
    ensures TryFromPrimitive(raw).Some? ==> raw <= KeyMaxCode
    ensures ToPrimitive(key) <= ToPrimitive(KeyMax)
  {
    assert IsKeyCode(key);
  }

  /** The gaps of the table do not decode: 84, 195 to 199, 249 to 255, 0x2e8 to 0x2fe. */
  lemma DecodeRejectsGaps(raw: u16)
    requires raw == 84 || 195 <= raw <= 199 || 249 <= raw <= 255 || 0x2e8 <= raw < KeyMaxCode
    ensures TryFromPrimitive(raw) == None
  {
  }

  /** `Key::is_ascii_alpha_numeric`: the ten digit keys and the 26 letter keys. */
  predicate IsAsciiAlphaNumeric(key: Key)
    ensures IsAsciiAlphaNumeric(key) ==> Key1 <= key <= KeyM
  {
    || key == Key0 || key == Key1 || key == Key2 || key == Key3 || key == Key4
    || key == Key5 || key == Key6 || key == Key7 || key == Key8 || key == Key9
    || key == KeyA || key == KeyB || key == KeyC || key == KeyD || key == KeyE
    || key == KeyF || key == KeyG || key == KeyH || key == KeyI || key == KeyJ
    || key == KeyK || key == KeyL || key == KeyM || key == KeyN || key == KeyO
    || key == KeyP || key == KeyQ || key == KeyR || key == KeyS || key == KeyT
    || key == KeyU || key == KeyV || key == KeyW || key == KeyX || key == KeyY
    || key == KeyZ
  }

  /**
   * The alphanumeric keys are exactly the digit row (codes 2 to 11) and the
   * letter runs of the three letter rows (16 to 25, 30 to 38, 44 to 50).
   */
  lemma AlphaNumericIsKeyboardRows(key: Key)
    ensures IsAsciiAlphaNumeric(key) <==>
      2 <= key <= 11 || 16 <= key <= 25 || 30 <= key <= 38 || 44 <= key <= 50
  {
  }

  /** No keypad key (digits included) and no modifier key is alphanumeric. */
  lemma AlphaNumericExcludesKeypadAndModifiers(key: Key)
    requires || KeyKp7 <= key <= KeyKpDot
             || key in {KeyKpAsterisk, KeyKpJpComma, KeyKpEnter, KeyKpSlash, KeyKpEqual,
                        KeyKpPlusMinus, KeyKpComma, KeyKpLeftParen, KeyKpRightParen}
             || key in {KeyLeftCtrl, KeyRightCtrl, KeyLeftShift, KeyRightShift,
                        KeyLeftAlt, KeyRightAlt, KeyLeftMeta, KeyRightMeta}
    ensures !IsAsciiAlphaNumeric(key)
  {
  }

  /** The number of discriminants in `[lo, hi)`. */
  function CountKeyCodes(lo: int, hi: int): (n: nat)
    ensures n <= if lo < hi then hi - lo else 0
    decreases hi - lo
  {
    if lo >= hi then 0 else (if IsKeyCode(lo) then 1 else 0) + CountKeyCodes(lo + 1, hi)
  }

  lemma {:induction false} CountFull(lo: int, hi: int)
    requires lo <= hi
    requires forall c :: lo <= c < hi ==> IsKeyCode(c)
    ensures CountKeyCodes(lo, hi) == hi - lo
    decreases hi - lo
  {
    if lo < hi {
      CountFull(lo + 1, hi);
    }
  }

  lemma {:induction false} CountEmpty(lo: int, hi: int)
    requires forall c :: lo <= c < hi ==> !IsKeyCode(c)
    ensures CountKeyCodes(lo, hi) == 0
    decreases hi - lo
  {
    if lo < hi {
      CountEmpty(lo + 1, hi);
    }
  }

  /** Counting over `[lo, hi)` and `[hi, top)` adds up to counting over `[lo, top)`. */
  lemma {:induction false} CountSplit(lo: int, hi: int, top: int)
    requires lo <= hi <= top
    ensures CountKeyCodes(lo, top) == CountKeyCodes(lo, hi) + CountKeyCodes(hi, top)
    decreases hi - lo
  {
    if lo < hi {
      CountSplit(lo + 1, hi, top);
    }
  }

  /** Codes 0x0 to 0xff, the blocks from `KeyReserved` to `KeyMicMute`, hold 243 variants. */
  lemma CountBlockKeyReserved()
    ensures CountKeyCodes(0x0, 0x100) == 243
  {
    CountEmpty(0xf9, 0x100);
    CountSplit(0xf9, 0x100, 0x100);
    CountFull(0xc8, 0xf9);
    CountSplit(0xc8, 0xf9, 0x100);
    CountEmpty(0xc3, 0xc8);
    CountSplit(0xc3, 0xc8, 0x100);
    CountFull(0x55, 0xc3);
    CountSplit(0x55, 0xc3, 0x100);
    CountEmpty(0x54, 0x55);
    CountSplit(0x54, 0x55, 0x100);
    CountFull(0x0, 0x54);
    CountSplit(0x0, 0x54, 0x100);
  }

  /** Codes 0x100 to 0x12e, the blocks from `Btn0` to `BtnBase6`, hold 30 variants. */
  lemma CountBlockBtn0()
    ensures CountKeyCodes(0x100, 0x12f) == 30
  {
    CountEmpty(0x12c, 0x12f);
    CountSplit(0x12c, 0x12f, 0x12f);
    CountFull(0x120, 0x12c);
    CountSplit(0x120, 0x12c, 0x12f);
    CountEmpty(0x118, 0x120);
    CountSplit(0x118, 0x120, 0x12f);
    CountFull(0x110, 0x118);
    CountSplit(0x110, 0x118, 0x12f);
    CountEmpty(0x10a, 0x110);
    CountSplit(0x10a, 0x110, 0x12f);
    CountFull(0x100, 0x10a);
    CountSplit(0x100, 0x10a, 0x12f);
  }

  /** Codes 0x12f to 0x15f, the blocks from `BtnDead` to `BtnGearUp`, hold 33 variants. */
  lemma CountBlockBtnDead()
    ensures CountKeyCodes(0x12f, 0x160) == 33
  {
    CountEmpty(0x152, 0x160);
    CountSplit(0x152, 0x160, 0x160);
    CountFull(0x14a, 0x152);
    CountSplit(0x14a, 0x152, 0x160);
    CountEmpty(0x149, 0x14a);
    CountSplit(0x149, 0x14a, 0x160);
    CountFull(0x140, 0x149);
    CountSplit(0x140, 0x149, 0x160);
    CountEmpty(0x13f, 0x140);
    CountSplit(0x13f, 0x140, 0x160);
    CountFull(0x12f, 0x13f);
    CountSplit(0x12f, 0x13f, 0x160);
  }

  /** Codes 0x160 to 0x1f0, the blocks from `KeyOk` to `KeyFnB`, hold 116 variants. */
  lemma CountBlockKeyOk()
    ensures CountKeyCodes(0x160, 0x1f1) == 116
  {
    CountEmpty(0x1e5, 0x1f1);
    CountSplit(0x1e5, 0x1f1, 0x1f1);
    CountFull(0x1d0, 0x1e5);
    CountSplit(0x1d0, 0x1e5, 0x1f1);
    CountEmpty(0x1c4, 0x1d0);
    CountSplit(0x1c4, 0x1d0, 0x1f1);
    CountFull(0x1c0, 0x1c4);
    CountSplit(0x1c0, 0x1c4, 0x1f1);
    CountEmpty(0x1bb, 0x1c0);
    CountSplit(0x1bb, 0x1c0, 0x1f1);
    CountFull(0x160, 0x1bb);
    CountSplit(0x160, 0x1bb, 0x1f1);
  }

  /** Codes 0x1f1 to 0x21f, the blocks from `KeyBrlDot1` to `KeyLightsToggle`, hold 37 variants. */
  lemma CountBlockKeyBrlDot1()
    ensures CountKeyCodes(0x1f1, 0x220) == 37
  {
    CountEmpty(0x21f, 0x220);
    CountSplit(0x21f, 0x220, 0x220);
    CountFull(0x210, 0x21f);
    CountSplit(0x210, 0x21f, 0x220);
    CountEmpty(0x20c, 0x210);
    CountSplit(0x20c, 0x210, 0x220);
    CountFull(0x200, 0x20c);
    CountSplit(0x200, 0x20c, 0x220);
    CountEmpty(0x1fb, 0x200);
    CountSplit(0x1fb, 0x200, 0x220);
    CountFull(0x1f1, 0x1fb);
    CountSplit(0x1f1, 0x1fb, 0x220);
  }

  /** Codes 0x220 to 0x24f, the blocks from `BtnDpadUp` to `KeyVoiceCommand`, hold 12 variants. */
  lemma CountBlockBtnDpadUp()
    ensures CountKeyCodes(0x220, 0x250) == 12
  {
    CountEmpty(0x247, 0x250);
    CountSplit(0x247, 0x250, 0x250);
    CountFull(0x240, 0x247);
    CountSplit(0x240, 0x247, 0x250);
    CountEmpty(0x231, 0x240);
    CountSplit(0x231, 0x240, 0x250);
    CountFull(0x230, 0x231);
    CountSplit(0x230, 0x231, 0x250);
    CountEmpty(0x224, 0x230);
    CountSplit(0x224, 0x230, 0x250);
    CountFull(0x220, 0x224);
    CountSplit(0x220, 0x224, 0x250);
  }

  /** Codes 0x250 to 0x2fe, the blocks from `KeyBrightnessMin` to `BtnTriggerHappy40`, hold 48 variants. */
  lemma CountBlockKeyBrightnessMin()
    ensures CountKeyCodes(0x250, 0x2ff) == 48
  {
    CountEmpty(0x2e8, 0x2ff);
    CountSplit(0x2e8, 0x2ff, 0x2ff);
    CountFull(0x2c0, 0x2e8);
    CountSplit(0x2c0, 0x2e8, 0x2ff);
    CountEmpty(0x266, 0x2c0);
    CountSplit(0x266, 0x2c0, 0x2ff);
    CountFull(0x260, 0x266);
    CountSplit(0x260, 0x266, 0x2ff);
    CountEmpty(0x252, 0x260);
    CountSplit(0x252, 0x260, 0x2ff);
    CountFull(0x250, 0x252);
    CountSplit(0x250, 0x252, 0x2ff);
  }

  /** Codes 0x2ff to 0x2ff, the blocks from `KeyMax` to `KeyMax`, hold 1 variants. */
  lemma CountBlockKeyMax()
    ensures CountKeyCodes(0x2ff, 0x300) == 1
  {
    CountFull(0x2ff, 0x300);
    CountSplit(0x2ff, 0x300, 0x300);
  }

  /**
   * The blocks of `IsKeyCode` hold exactly 520 codes of the whole `u16`
   * range, one for each variant of the enum.
   */
  lemma KeyTableHas520Codes()
    ensures CountKeyCodes(0, 0x1_0000) == 520
  {
    CountEmpty(0x300, 0x1_0000);
    CountBlockKeyMax();
    CountSplit(0x2ff, 0x300, 0x1_0000);
    CountBlockKeyBrightnessMin();
    CountSplit(0x250, 0x2ff, 0x1_0000);
    CountBlockBtnDpadUp();
    CountSplit(0x220, 0x250, 0x1_0000);
    CountBlockKeyBrlDot1();
    CountSplit(0x1f1, 0x220, 0x1_0000);
    CountBlockKeyOk();
    CountSplit(0x160, 0x1f1, 0x1_0000);
    CountBlockBtnDead();
    CountSplit(0x12f, 0x160, 0x1_0000);
    CountBlockBtn0();
    CountSplit(0x100, 0x12f, 0x1_0000);
    CountBlockKeyReserved();
    CountSplit(0x0, 0x100, 0x1_0000);
  }
}

# shortcutd in Dafny

shortcutd is a privileged daemon that reads keyboard devices and lets
unprivileged programs register global keyboard shortcuts over D-Bus
(service `nl.icewind.shortcutd`). A client calls `Register("<Ctrl>-KeyP")`
on `/register`, gets back an object path, and receives `Triggered` signals
from that path when the shortcut is pressed and released. Shortcuts without
modifiers can be used to spy on typing, so the daemon allows at most three
of them.

This project models four pieces of the daemon and proves properties of them:

- `keycodes.dfy`, module `Keycodes`: the `Key` enum of input-event key codes.
  A key is its `u16` discriminant. The enum's 520 variants form 22
  contiguous blocks of codes. The module covers the derived decoder
  `TryFromPrimitive` and the classifier `is_ascii_alpha_numeric`.
- `keyboard.dfy`, module `Keyboard`: `Modifier`, `Modifier::is_modifier`,
  `Shortcut` and `Shortcut::is_triggered`.
- `register.dfy`, module `ShortcutServer`: the zbus daemon. It covers
  `Register::register` with its `bare_count` quota of `MAX_BARE = 3`, the
  class `Register` with its invariant, and the event loop of `main`. That
  loop turns each listener event into `Triggered(pressed)` when a signal
  object is served at the event's path.
- `legacy.dfy`, module `LegacyServer`: the older dbus-crate daemon. It covers
  the `Register` method closure, the `MutateTree` slot, and the loop of
  `main`. Each turn of that loop drains the new-shortcut channel into the
  `signals` map and the D-Bus tree. It then drains the listener's channel and
  sends a message for each shortcut whose path has a signal.
- `wrappers.dfy`, module `Wrappers`: `Option` and `Result`.

Notes on how the model follows the code:

- `is_triggered` is modelled as written. Its `for` loop returns `false` when
  the first modifier is not held. When that modifier is held, the loop leaves
  through `break`. So only the first modifier is ever checked. The function
  never checks that only the listed modifiers are pressed: extra pressed
  modifiers and keys never block a match. See "## Findings" for the
  corrected loop.
- The shift arms of `is_modifier` (src/keyboard/mod.rs:34-36) name
  `Key::KeyLeftshift` and `Key::KeyRightshift`. The enum has no such
  variants: it spells them `KeyLeftShift` (code 42) and `KeyRightShift`
  (code 54). The model uses those two keys.
- The parser, `identifier()` and the text form of a shortcut come from the
  evdev_shortcut crate. Each class receives them as function values that the
  model knows nothing about. Whether the D-Bus object server accepts a new
  object is a parameter of `ShortcutServer.ObjectServer.At`.
- The registration server uses `Keyboard.Shortcut` in place of the crate's
  `Shortcut`. The quota only looks at whether the modifier list is empty,
  and at equality between bare shortcuts, which is equality of their keys.

## Model

| member | source | states |
|---|---|---|
| Keycodes.TryFromPrimitive | src/keyboard/keycodes.rs:4-6 | The derived `try_from` accepts a raw `u16` only when it is the code of a variant, at most `KeyMax` = 0x2ff, and returns that variant; any other raw value is refused. |
| Keycodes.ToPrimitive | src/keyboard/keycodes.rs:5-6 | `key as u16` is the variant's code, which lies in the table and is at most 0x2ff. |
| Keycodes.DecodeEncode | src/keyboard/keycodes.rs:4-6 | Decoding the discriminant of any variant gives back that variant. |
| Keycodes.EncodeDecode | src/keyboard/keycodes.rs:4-526 | Decoding succeeds exactly on the discriminants of the table, and a decoded key encodes back to the raw code. |
| Keycodes.EncodeInjective | src/keyboard/keycodes.rs:7-526 | Distinct variants have distinct codes. |
| Keycodes.CodesBounded | src/keyboard/keycodes.rs:526 | No code above `KeyMax` = 0x2ff decodes, and every key's code is at most that of `KeyMax`. |
| Keycodes.DecodeRejectsGaps | src/keyboard/keycodes.rs:90-526 | The gaps 84, 195-199, 249-255 and 0x2e8-0x2fe do not decode. |
| Keycodes.KeyTableHas520Codes | src/keyboard/keycodes.rs:7-526 | Counting code by code over the whole `u16` range, the table holds exactly 520 codes, one per variant. |
| Keycodes.IsAsciiAlphaNumeric | src/keyboard/keycodes.rs:530-570 | Every key `is_ascii_alpha_numeric` accepts has a code between `Key1` (2) and `KeyM` (50). |
| Keycodes.AlphaNumericIsKeyboardRows | src/keyboard/keycodes.rs:530-570 | `is_ascii_alpha_numeric` holds exactly for codes 2-11 (digits) and 16-25, 30-38, 44-50 (letters). |
| Keycodes.AlphaNumericExcludesKeypadAndModifiers | src/keyboard/keycodes.rs:530-570 | The keypad keys (`KeyKp7` to `KeyKpDot`, codes 71-83, and `KeyKpAsterisk`, `KeyKpJpComma`, `KeyKpEnter`, `KeyKpSlash`, `KeyKpEqual`, `KeyKpPlusMinus`, `KeyKpComma`, `KeyKpLeftParen`, `KeyKpRightParen`) and the eight modifier keys are not alphanumeric, although keypad digits carry digit labels. |
| Keyboard.IsModifier | src/keyboard/mod.rs:23-38 | Only one of the eight modifier keys can satisfy a modifier. |
| Keyboard.AnyIsEitherSide | src/keyboard/mod.rs:23-38 | `AnyX` accepts a key exactly when `LeftX` or `RightX` accepts it. |
| Keyboard.SideSpecificIsOneKey | src/keyboard/mod.rs:25-36 | `LeftX` and `RightX` each accept exactly one key, and never the same key. |
| Keyboard.OnlyModifierKeysSatisfy | src/keyboard/mod.rs:23-38 | A key satisfies some modifier if and only if it is one of the eight modifier keys. |
| Keyboard.IsTriggered | src/keyboard/mod.rs:48-58 | A shortcut fires only while its key is pressed and, when it lists modifiers, while some modifier key is pressed too. |
| Keyboard.TriggeredNeedsKey | src/keyboard/mod.rs:57 | A shortcut fires only while its key is pressed. |
| Keyboard.BareTriggeredIffKey | src/keyboard/mod.rs:48-58 | A shortcut without modifiers fires exactly when its key is pressed. |
| Keyboard.FirstModifierDecides | src/keyboard/mod.rs:49-57 | With modifiers, a shortcut fires exactly when some pressed key satisfies the first modifier and the key is pressed. |
| Keyboard.LaterModifiersIgnored | src/keyboard/mod.rs:49-55 | Modifiers after the first never change the outcome. |
| Keyboard.TriggeredMonotone | src/keyboard/mod.rs:48-58 | A shortcut that fires for a set of pressed keys also fires for every larger set. |
| Keyboard.CtrlExamples | src/keyboard/mod.rs:28-57 | `[AnyCtrl]`+`KeyP` fires on `{KeyRightCtrl, KeyP}`; `[LeftCtrl]`+`KeyP` does not. |
| Keyboard.ModifierOrderMatters | src/keyboard/mod.rs:49-55 | As written, `[AnyCtrl, AnyAlt]`+`KeyP` fires with no Alt key pressed, while `[AnyAlt, AnyCtrl]`+`KeyP` does not fire on the same keys. |
| Keyboard.AllModifiersHeldIff | src/keyboard/mod.rs:49-55 | The corrected loop accepts exactly when every listed modifier is satisfied by some pressed key. |
| Keyboard.IsTriggeredAllIgnoresOrder | src/keyboard/mod.rs:48-58 | With every modifier checked, the order and repetition of the modifiers do not affect the match. |
| Keyboard.IsTriggeredAllRefines | src/keyboard/mod.rs:48-58 | The corrected matcher fires only where the code as written fires, and it is monotone in the pressed keys. |
| Keyboard.IsTriggeredAllNeedsEveryModifier | src/keyboard/mod.rs:49-55 | The corrected matcher rejects the counterexample and fires once an Alt key is also pressed. |
| ShortcutServer.QuotaMessageText | server/src/server.rs:27-31 | The quota error text, formatted with `MAX_BARE`, is "Only 3 shortcuts without modifiers are allowed". |
| ShortcutServer.RegisterStep | server/src/server.rs:24-44 | `register` succeeds exactly when the shortcut parses and is not a new bare shortcut beyond the quota. On success it adds the shortcut to the listener and replies `"/" + identifier`; on failure the listener and count stay as they were. The count grows by at most one. |
| ShortcutServer.RegisterMalformed | server/src/server.rs:24-44 | A parse failure replies `InvalidArgs("Malformed shortcut")` and leaves the listener and `bare_count` unchanged. |
| ShortcutServer.RegisterOverQuota | server/src/server.rs:26-32 | A new bare shortcut with `bare_count >= 3` is refused with the quota error, and nothing changes. |
| ShortcutServer.RegisterNewBare | server/src/server.rs:26-37 | A new bare shortcut with `bare_count < 3` is added, `bare_count` grows by exactly one, and the reply is `"/" + identifier`. |
| ShortcutServer.ReRegisterIdempotent | server/src/server.rs:26-42 | Registering a shortcut the listener already has succeeds with its path and changes nothing. |
| ShortcutServer.RegisterWithModifier | server/src/server.rs:26-42 | A shortcut with a modifier is always added and answered with its path, and `bare_count` is unchanged. |
| ShortcutServer.RegisterPreservesQuota | server/src/server.rs:24-44 | Every call keeps `bare_count` equal to the number of bare shortcuts in the listener and at most 3. |
| ShortcutServer.InitialQuotaInvariant | server/src/server.rs:66-69 | The initial state (an empty listener with `bare_count: 0`) satisfies the invariant. |
| ShortcutServer.QuotaInvariantReachable | server/src/server.rs:15-69 | From a state that satisfies the invariant, every sequence of registrations keeps it and never removes a shortcut. |
| ShortcutServer.QuotaScenario | server/src/server.rs:19-46 | Three distinct bare shortcuts are accepted and a fourth is refused. A shortcut with a modifier is still accepted, and re-registering a bare one succeeds with the count at 3. |
| ShortcutServer.ObjectServer.At | server/src/server.rs:38-40 | Attaching a signal object adds its path when the object server accepts it and otherwise changes nothing. |
| ShortcutServer.ObjectServer.constructor | server/src/server.rs:70-84 | The object server starts without any `ShortcutSignal` interface. `/register` serves the `Register` interface, which the model does not track. |
| ShortcutServer.Register.constructor | server/src/server.rs:66-69 | The registration object starts with an empty listener and `bare_count` 0, satisfying the invariant. |
| ShortcutServer.Register.Register | server/src/server.rs:19-46 | `register` keeps the invariant and produces the listener, count and reply of `RegisterStep`. On success the path is added to the served paths when the attach is accepted; otherwise the served paths are unchanged. The reply is the path either way. |
| ShortcutServer.Notify | server/src/server.rs:87-99 | An event gives a signal exactly when `"/" + identifier` is served; the signal is sent from a served path, with `pressed` true exactly for `Pressed`. |
| ShortcutServer.Notifications | server/src/server.rs:87-100 | The loop emits at most one signal per event. |
| ShortcutServer.NotificationsAppend | server/src/server.rs:87-100 | Handling two batches of events in turn emits the signals of both, in order. |
| ShortcutServer.NotifyIff | server/src/server.rs:87-99 | An event is signalled exactly when a signal object is served at `"/" + identifier`, with `pressed == (state == Pressed)`. |
| ShortcutServer.NotificationsSound | server/src/server.rs:87-100 | Every emitted signal comes from a served path, and there are no more signals than events. |
| ShortcutServer.NotificationsAllServed | server/src/server.rs:87-100 | When every event's path is served, each event gives its own `Triggered` signal, in order. |
| ShortcutServer.NotificationsNoneServed | server/src/server.rs:87-100 | Events whose paths are not served emit nothing. |
| ShortcutServer.ServeEvents | server/src/server.rs:87-100 | The event loop emits exactly `Notifications` of the events it reads. |
| LegacyServer.AddObject | src/server.rs:122-129 | After `tree.add`, the path holds the added object. A tree holds one object per path, so an object already at that path is replaced. |
| LegacyServer.MutateTree.constructor | src/server.rs:56-62 | After `new`, the tree slot holds an empty tree. |
| LegacyServer.MutateTree.Mutate | src/server.rs:30-33 | `mutate_tree(f)` leaves `Some(f(old tree))` in the slot. |
| LegacyServer.InsertSignals | src/server.rs:117-120 | Draining keeps every path of `signals`, and every entry either keeps its earlier signal or is one of the signals created in this drain. |
| LegacyServer.AddObjects | src/server.rs:117-130 | Draining keeps every path of the tree and leaves an object at the path of each queued shortcut. |
| LegacyServer.Routed | src/server.rs:132-144 | Draining the listener's channel sends at most one message per event. |
| LegacyServer.InsertSignalsKeys | src/server.rs:117-120 | Draining the new-shortcut queue adds exactly the paths `"/" + identifier` of the queued shortcuts to the keys of `signals`. |
| LegacyServer.InsertSignalsLastWins | src/server.rs:117-120 | A path is mapped to the signal of the last queued shortcut with that path, so later inserts overwrite earlier ones. |
| LegacyServer.InsertSignalsKeepsOthers | src/server.rs:117-120 | Paths of no queued shortcut keep their entry, or stay absent. |
| LegacyServer.AddObjectsKeepsOthers | src/server.rs:117-130 | Objects at paths of no queued shortcut, such as `/register`, are left as they were. |
| LegacyServer.DrainKeepsTreeAndSignalsInStep | src/server.rs:117-130 | Because both are updated at the same path with the same signal, a tree holding the object of every entry of `signals` keeps doing so after a drain, replaced objects included. |
| LegacyServer.RoutedSound | src/server.rs:132-144 | Each sent message comes from a path that has a signal and uses that signal, and no event is sent twice. |
| LegacyServer.RoutedAppend | src/server.rs:132-144 | Routing two batches in turn sends the messages of both, in order. |
| LegacyServer.RoutedOne | src/server.rs:132-144 | An event is sent, with the shortcut's text, if and only if its path is a key of `signals`. Otherwise it is dropped. |
| LegacyServer.RoutedAllKnown | src/server.rs:132-144 | When every event's path has a signal, every event is sent, in order. |
| LegacyServer.Daemon.constructor | src/server.rs:72-109 | Before the loop, the tree holds the register object at `/register` and the root object at `/`, and the map, queues and listener are empty. |
| LegacyServer.Daemon.Register | src/server.rs:89-102 | The `Register` closure keeps the daemon's invariant and either replies `"/" + identifier`, adds the shortcut to the listener and queues it, or replies `invalid_arg("Malformed shortcut")` with nothing added or queued. |
| LegacyServer.Daemon.Trigger | src/server.rs:74 | The listener's channel receives a triggered shortcut at its end; the invariant is kept. |
| LegacyServer.Daemon.DrainNewShortcuts | src/server.rs:117-130 | The new-shortcut queue ends empty. Each queued shortcut gets a fresh signal in `signals` under its path and an object holding that signal in the tree. The invariant is kept: every signal is below the count, and the tree holds the object of every entry of `signals`. |
| LegacyServer.Daemon.DrainTriggered | src/server.rs:132-144 | The listener's queue ends empty, and the sent messages grow by `Routed` of the drained events. The invariant is kept. |
| LegacyServer.Daemon.Turn | src/server.rs:114-144 | One loop turn drains the new shortcuts completely before the triggered ones, so triggers are routed with the updated `signals`. Both queues end empty. The signal count grows by the number of new shortcuts, each of which gets its object in the tree, and the invariant is kept. |
| LegacyServer.RegisteredBeforeTurnIsRouted | src/server.rs:92-144 | A shortcut queued by `Register` before a turn is routed in that turn, from the path `Register` replied with. |

## Findings

| source | as written | input that shows it | evidently intended | confidence | as-written member | corrected member |
|---|---|---|---|---|---|---|
| src/keyboard/mod.rs:49-55 | The `for` loop `break`s as soon as the first modifier is held, so later modifiers are never checked and their order decides the match. | `[AnyCtrl, AnyAlt]`+`KeyP` fires with only `{KeyLeftCtrl, KeyP}` pressed, and `[AnyAlt, AnyCtrl]`+`KeyP` does not. | Every listed modifier must be held (`continue` in place of `break`), so the order of modifiers does not matter. | medium, not executed | Keyboard.ModifierOrderMatters | Keyboard.IsTriggeredAllIgnoresOrder |

## Left out

- `ShortcutListener` (device reader threads, the pressed-key set, press/release edge detection) is not part of this model. Its code is in no file of the core. In the model it is a set of shortcuts, and its event stream is an input sequence.
- The derived `Display` and `FromStr` of `Key` (parse_display) are not modelled. Over an abstract injective naming of the variants, the parse/print round trip would hold by construction and so would add nothing, and no property of the core depends on key names.
- The shortcut text grammar, `Display` of a shortcut and `identifier()` live in the evdev_shortcut crate. They are function parameters, so no parse/format round trip is claimed. The crate's equality of shortcuts by modifier set is not modelled; `Keyboard.Shortcut` compares modifier lists.
- D-Bus and zbus are out: connections, name requests, `Factory`, introspection, `start_receive` and `tree.handle` dispatch, and errors from reading the method argument (`m.msg.read1()`). Also out: zbus's lookup of an interface by type, which the model reduces to the set of paths with a `ShortcutSignal`, and the `.unwrap()` panics on sending.
- Concurrency is out. The `Arc<Mutex<…>>` slot, the mpsc channels and the async runtime become plain fields and sequences, and the model does not explore interleavings between the loop and the listener threads.
- Device discovery (`glob`), `Device::open`, logging (`tracing`, `eprintln!`) and the 50 ms timeout of `connection.process` are I/O and are left out.
- A signal of the legacy daemon is represented by the number of signals created before it. An object of its tree is represented by its kind (the register object, the root, or a signal object with its signal). Their D-Bus contents (introspection data, the `Register` method's signature, the `"Triggered"` signal with no arguments) are not modelled.
- src/main.rs, the client library and the example programs are not part of this model.
- LegacyServer.MutateTree.Mutate: requires the slot to hold a tree. The source panics on `unwrap()` of an empty slot. Every reachable state has a tree, as the constructor and `Mutate` show, so the panic path is not modelled.

/**
 * The registration service of server/src/server.rs.
 *
 * `Register` keeps the listener's set of shortcuts and `bare_count`, the
 * number of registered shortcuts without modifiers, which it caps at
 * `MAX_BARE`. The shortcut parser and `identifier()` belong to the
 * evdev_shortcut crate and are given to the model as functions it knows
 * nothing about; the D-Bus object server is modelled by the set of paths at
 * which a `ShortcutSignal` interface is served.
 */
module ShortcutServer {
  import opened Wrappers
  import opened Keyboard

  /** `MAX_BARE`. */
  const MaxBare: nat := 3

  /** `fdo::Error::InvalidArgs`. */
  datatype Error = InvalidArgs(message: string)

  const MalformedShortcut: string := "Malformed shortcut"

  /** The decimal text of `n`, as `format!("{}", n)` writes it. */
  function Decimal(n: nat): (r: string)
    decreases n
  {
    if n < 10 then [('0' as int + n) as char] else Decimal(n / 10) + Decimal(n % 10)
  }

  /** `format!("Only {} shortcuts without modifiers are allowed", MAX_BARE)`. */
  function QuotaMessage(): (r: string)
  {
    "Only " + Decimal(MaxBare) + " shortcuts without modifiers are allowed"
  }

  lemma QuotaMessageText()
    ensures QuotaMessage() == "Only 3 shortcuts without modifiers are allowed"
  {
  }

  /** `shortcut.modifiers.is_empty()`. */
  predicate IsBare(s: Shortcut)
  {
    s.modifiers == []
  }

  /** `format!("/{}", shortcut.identifier())`: the object path of a shortcut's signal. */
  function ShortcutPath(s: Shortcut, identifier: Shortcut -> string): (path: string)
  {
    "/" + identifier(s)
  }

  /** The registered shortcuts that have no modifiers. */
  function BareShortcuts(listener: set<Shortcut>): (r: set<Shortcut>)
  {
    set s | s in listener && IsBare(s)
  }

  /** `bare_count` counts the bare shortcuts of the listener and stays within the quota. */
  predicate QuotaInvariant(listener: set<Shortcut>, bareCount: nat)
  {
    bareCount == |BareShortcuts(listener)| && bareCount <= MaxBare
  }

  /** The state after a call of `register` and its reply. */
  datatype Registration = Registration(listener: set<Shortcut>, bareCount: nat, reply: Result<string, Error>)

  /**
   * `Register::register` on the outcome `parsed` of `shortcut.parse()`: a new
   * bare shortcut needs room in the quota and takes one place of it; every
   * accepted shortcut is added to the listener and answered with its path.
   */
  function RegisterStep(listener: set<Shortcut>, bareCount: nat, parsed: Option<Shortcut>,
                        identifier: Shortcut -> string): (o: Registration)
    ensures o.reply.Ok? <==>
      parsed.Some? && !(IsBare(parsed.value) && parsed.value !in listener && bareCount >= MaxBare)
    ensures o.reply.Ok? ==>
      o.reply.value == "/" + identifier(parsed.value) && o.listener == listener + {parsed.value}
    ensures o.reply.Err? ==> o.listener == listener && o.bareCount == bareCount
    ensures bareCount <= o.bareCount <= bareCount + 1
  {
    match parsed
    case None => Registration(listener, bareCount, Err(InvalidArgs(MalformedShortcut)))
    case Some(s) =>
      if IsBare(s) && s !in listener && bareCount >= MaxBare then
        Registration(listener, bareCount, Err(InvalidArgs(QuotaMessage())))
      else
        var count := if IsBare(s) && s !in listener then bareCount + 1 else bareCount;
        Registration(listener + {s}, count, Ok(ShortcutPath(s, identifier)))
  }

  /** A malformed shortcut is refused and nothing changes. */
  lemma RegisterMalformed(listener: set<Shortcut>, bareCount: nat, identifier: Shortcut -> string)
    ensures RegisterStep(listener, bareCount, None, identifier)
         == Registration(listener, bareCount, Err(InvalidArgs("Malformed shortcut")))
  {
  }

  /** A new bare shortcut beyond the quota is refused and nothing changes. */
  lemma RegisterOverQuota(listener: set<Shortcut>, bareCount: nat, s: Shortcut, identifier: Shortcut -> string)
    requires IsBare(s) && s !in listener && bareCount >= MaxBare
    ensures RegisterStep(listener, bareCount, Some(s), identifier)
         == Registration(listener, bareCount, Err(InvalidArgs("Only 3 shortcuts without modifiers are allowed")))
  {
    QuotaMessageText();
  }

  /** A new bare shortcut within the quota is added and takes exactly one place of it. */
  lemma RegisterNewBare(listener: set<Shortcut>, bareCount: nat, s: Shortcut, identifier: Shortcut -> string)
    requires IsBare(s) && s !in listener && bareCount < MaxBare
    ensures var o := RegisterStep(listener, bareCount, Some(s), identifier);
      o.reply == Ok("/" + identifier(s)) && o.bareCount == bareCount + 1 && o.listener == listener + {s}
  {
  }

  /** Registering a shortcut the listener already has succeeds and changes nothing. */
  lemma ReRegisterIdempotent(listener: set<Shortcut>, bareCount: nat, s: Shortcut, identifier: Shortcut -> string)
    requires s in listener
    ensures RegisterStep(listener, bareCount, Some(s), identifier)
         == Registration(listener, bareCount, Ok("/" + identifier(s)))
  {
  }

  /** A shortcut with a modifier is always accepted and never touches the quota. */
  lemma RegisterWithModifier(listener: set<Shortcut>, bareCount: nat, s: Shortcut, identifier: Shortcut -> string)
    requires !IsBare(s)
    ensures RegisterStep(listener, bareCount, Some(s), identifier)
         == Registration(listener + {s}, bareCount, Ok("/" + identifier(s)))
  {
  }

  /** Every call of `register` keeps `bare_count` equal to the number of bare shortcuts, at most three. */
  lemma RegisterPreservesQuota(listener: set<Shortcut>, bareCount: nat, parsed: Option<Shortcut>,
                               identifier: Shortcut -> string)
    requires QuotaInvariant(listener, bareCount)
    ensures var o := RegisterStep(listener, bareCount, parsed, identifier);
      QuotaInvariant(o.listener, o.bareCount)
  {
    if parsed.Some? {
      var s := parsed.value;
      if s in listener {
        assert listener + {s} == listener;
      } else if IsBare(s) {
        assert BareShortcuts(listener + {s}) == BareShortcuts(listener) + {s};
      } else {
        assert BareShortcuts(listener + {s}) == BareShortcuts(listener);
      }
    }
  }

  /** The listener and `bare_count` after a sequence of calls of `register`. */
  function RegisterAll(listener: set<Shortcut>, bareCount: nat, requests: seq<Option<Shortcut>>,
                       identifier: Shortcut -> string): (r: (set<Shortcut>, nat))
    decreases |requests|
  {
    if requests == [] then (listener, bareCount)
    else
      var o := RegisterStep(listener, bareCount, requests[0], identifier);
      RegisterAll(o.listener, o.bareCount, requests[1..], identifier)
  }

  /**
   * From the state `main` builds (an empty listener, `bare_count: 0`), no
   * sequence of registrations can break the quota invariant.
   */
  lemma {:induction false} QuotaInvariantReachable(listener: set<Shortcut>, bareCount: nat,
                                                   requests: seq<Option<Shortcut>>, identifier: Shortcut -> string)
    requires QuotaInvariant(listener, bareCount)
    ensures var r := RegisterAll(listener, bareCount, requests, identifier);
      QuotaInvariant(r.0, r.1) && listener <= r.0
    decreases |requests|
  {
    if requests != [] {
      var o := RegisterStep(listener, bareCount, requests[0], identifier);
      RegisterPreservesQuota(listener, bareCount, requests[0], identifier);
      QuotaInvariantReachable(o.listener, o.bareCount, requests[1..], identifier);
    }
  }

  /** The initial state satisfies the invariant. */
  lemma InitialQuotaInvariant()
    ensures QuotaInvariant({}, 0)
  {
    assert BareShortcuts({}) == {};
  }

  /**
   * Three distinct bare shortcuts are accepted, a fourth is refused, a
   * shortcut with a modifier is still accepted and a bare shortcut already
   * registered is accepted again without taking a place.
   */
  lemma QuotaScenario(a: Shortcut, b: Shortcut, c: Shortcut, d: Shortcut, m: Shortcut, identifier: Shortcut -> string)
    requires IsBare(a) && IsBare(b) && IsBare(c) && IsBare(d) && !IsBare(m)
    requires a != b && a != c && a != d && b != c && b != d && c != d
    ensures var r1 := RegisterStep({}, 0, Some(a), identifier);
      var r2 := RegisterStep(r1.listener, r1.bareCount, Some(b), identifier);
      var r3 := RegisterStep(r2.listener, r2.bareCount, Some(c), identifier);
      var r4 := RegisterStep(r3.listener, r3.bareCount, Some(d), identifier);
      var r5 := RegisterStep(r4.listener, r4.bareCount, Some(m), identifier);
      var r6 := RegisterStep(r5.listener, r5.bareCount, Some(a), identifier);
      && r1.reply.Ok? && r2.reply.Ok? && r3.reply.Ok?
      && r4.reply == Err(InvalidArgs("Only 3 shortcuts without modifiers are allowed"))
      && r5.reply.Ok? && r6.reply.Ok? && r6.bareCount == 3
      && r6.listener == {a, b, c, m}
  {
    QuotaMessageText();
  }

  /** The paths at which the D-Bus object server serves a `ShortcutSignal` interface. */
  class ObjectServer {
    var signalPaths: set<string>

    constructor ()
      ensures signalPaths == {}
    {
      signalPaths := {};
    }

    /**
     * `server.at(path, ShortcutSignal)`; `accepted` is whether the object
     * server took the interface, which the model does not decide.
     */
    method At(path: string, accepted: bool)
      modifies this
      ensures signalPaths == if accepted then old(signalPaths) + {path} else old(signalPaths)
    {
      if accepted {
        signalPaths := signalPaths + {path};
      }
    }
  }

  /** The object served at `/register`. */
  class Register {
    const parse: string -> Option<Shortcut>
    const identifier: Shortcut -> string
    var listener: set<Shortcut>
    var bareCount: nat

    ghost predicate Valid()
      reads this
    {
      QuotaInvariant(listener, bareCount)
    }

    /** `Register { listener, bare_count: 0 }` in `main`, with a fresh listener. */
    constructor (parse: string -> Option<Shortcut>, identifier: Shortcut -> string)
      ensures Valid()
      ensures this.parse == parse && this.identifier == identifier
      ensures listener == {} && bareCount == 0
    {
      this.parse := parse;
      this.identifier := identifier;
      listener := {};
      bareCount := 0;
      InitialQuotaInvariant();
    }

    /**
     * `register(shortcut)`: parse, check the quota, add to the listener and
     * attach a `ShortcutSignal` at the shortcut's path. A failed attach is
     * only logged: the reply is the path all the same.
     */
    method Register(shortcut: string, server: ObjectServer, attachAccepted: bool)
      returns (reply: Result<string, Error>)
      requires Valid()
      modifies this, server
      ensures Valid()
      ensures Registration(listener, bareCount, reply)
           == RegisterStep(old(listener), old(bareCount), parse(shortcut), identifier)
      ensures server.signalPaths
           == if reply.Ok? && attachAccepted then old(server.signalPaths) + {reply.value}
              else old(server.signalPaths)
    {
      RegisterPreservesQuota(listener, bareCount, parse(shortcut), identifier);
      match parse(shortcut)
      case None =>
        reply := Err(InvalidArgs(MalformedShortcut));
      case Some(s) =>
        if IsBare(s) && s !in listener {
          if bareCount >= MaxBare {
            reply := Err(InvalidArgs(QuotaMessage()));
            return;
          }
          bareCount := bareCount + 1;
        }
        listener := listener + {s};
        var path := ShortcutPath(s, identifier);
        server.At(path, attachAccepted);
        reply := Ok(path);
    }
  }

  datatype ShortcutState = Pressed | Released

  /** An event of the listener's stream: a shortcut went down or up. */
  datatype ShortcutEvent = ShortcutEvent(shortcut: Shortcut, state: ShortcutState)

  /** The `Triggered(pressed)` signal, emitted from the object at `path`. */
  datatype Signal = Triggered(path: string, pressed: bool)

  /**
   * One turn of `main`'s event loop: the signal emitted for `event`, if a
   * `ShortcutSignal` interface is served at the shortcut's path.
   */
  function Notify(event: ShortcutEvent, signalPaths: set<string>, identifier: Shortcut -> string): (r: Option<Signal>)
    ensures r.Some? <==> "/" + identifier(event.shortcut) in signalPaths
    ensures r.Some? ==> r.value.path in signalPaths && (r.value.pressed <==> event.state == Pressed)
  {
    var path := ShortcutPath(event.shortcut, identifier);
    if path in signalPaths then Some(Triggered(path, event.state == Pressed)) else None
  }

  /** The signals emitted for a sequence of events, in order. */
  function Notifications(events: seq<ShortcutEvent>, signalPaths: set<string>, identifier: Shortcut -> string)
    : (r: seq<Signal>)
    ensures |r| <= |events|
    decreases |events|
  {
    if events == [] then []
    else
      var last := events[|events| - 1];
      Notifications(events[..|events| - 1], signalPaths, identifier)
      + match Notify(last, signalPaths, identifier) case Some(sig) => [sig] case None => []
  }

  /** An event is signalled exactly when its path is served, with `pressed` true exactly for `Pressed`. */
  lemma NotifyIff(event: ShortcutEvent, signalPaths: set<string>, identifier: Shortcut -> string)
    ensures Notify(event, signalPaths, identifier).Some? <==> "/" + identifier(event.shortcut) in signalPaths
    ensures Notify(event, signalPaths, identifier).Some? ==>
      Notify(event, signalPaths, identifier).value
        == Triggered("/" + identifier(event.shortcut), event.state == Pressed)
  {
  }

  /** Handling two batches of events in turn emits the signals of both, in order. */
  lemma {:induction false} NotificationsAppend(a: seq<ShortcutEvent>, b: seq<ShortcutEvent>, signalPaths: set<string>,
                                              identifier: Shortcut -> string)
    ensures Notifications(a + b, signalPaths, identifier)
         == Notifications(a, signalPaths, identifier) + Notifications(b, signalPaths, identifier)
    decreases |b|
  {
    if b != [] {
      var n := |b| - 1;
      assert (a + b)[..|a + b| - 1] == a + b[..n];
      assert (a + b)[|a + b| - 1] == b[n];
      NotificationsAppend(a, b[..n], signalPaths, identifier);
    } else {
      assert a + b == a;
    }
  }

  /** Every emitted signal comes from a served path, and there are no more signals than events. */
  lemma {:induction false} NotificationsSound(events: seq<ShortcutEvent>, signalPaths: set<string>,
                                             identifier: Shortcut -> string)
    ensures var r := Notifications(events, signalPaths, identifier);
      |r| <= |events| && forall i :: 0 <= i < |r| ==> r[i].path in signalPaths
    decreases |events|
  {
    if events != [] {
      NotificationsSound(events[..|events| - 1], signalPaths, identifier);
    }
  }

  /** When every event's path is served, each event gives its own signal, in order. */
  lemma {:induction false} NotificationsAllServed(events: seq<ShortcutEvent>, signalPaths: set<string>,
                                                 identifier: Shortcut -> string)
    requires forall i :: 0 <= i < |events| ==> ShortcutPath(events[i].shortcut, identifier) in signalPaths
    ensures var r := Notifications(events, signalPaths, identifier);
      |r| == |events| &&
      forall i :: 0 <= i < |events| ==>
        r[i] == Triggered(ShortcutPath(events[i].shortcut, identifier), events[i].state == Pressed)
    decreases |events|
  {
    if events != [] {
      NotificationsAllServed(events[..|events| - 1], signalPaths, identifier);
    }
  }

  /** Events whose paths are not served are dropped without a trace. */
  lemma {:induction false} NotificationsNoneServed(events: seq<ShortcutEvent>, signalPaths: set<string>,
                                                  identifier: Shortcut -> string)
    requires forall i :: 0 <= i < |events| ==> ShortcutPath(events[i].shortcut, identifier) !in signalPaths
    ensures Notifications(events, signalPaths, identifier) == []
    decreases |events|
  {
    if events != [] {
      NotificationsNoneServed(events[..|events| - 1], signalPaths, identifier);
    }
  }

  /** `main`'s `while let Some(event) = shortcut_events.next()` loop over a finite prefix of the stream. */
  method ServeEvents(server: ObjectServer, identifier: Shortcut -> string, events: seq<ShortcutEvent>)
    returns (emitted: seq<Signal>)
    ensures emitted == Notifications(events, server.signalPaths, identifier)
  {
    emitted := [];
    var i := 0;
    while i < |events|
      invariant 0 <= i <= |events|
      invariant emitted == Notifications(events[..i], server.signalPaths, identifier)
    {
      var path := ShortcutPath(events[i].shortcut, identifier);
      if path in server.signalPaths {
        emitted := emitted + [Triggered(path, events[i].state == Pressed)];
      }
      assert events[..i + 1][..i] == events[..i];
      i := i + 1;
    }
    assert events[..i] == events;
  }
}

/**
 * The dispatch loop of src/server.rs, the dbus-crate version of the daemon.
 *
 * The `Register` method closure parses the shortcut, adds it to the
 * listener and queues it on a channel. Each turn of `main`'s loop first
 * drains that channel, creating a `Triggered` signal per shortcut, storing
 * it in the `signals` map under the shortcut's object path and adding an
 * object at that path to the D-Bus tree; then it drains the listener's
 * channel, sending a message for each shortcut whose path has a signal.
 * The parser, `identifier()` and the text form of a shortcut are given to
 * the model as functions it knows nothing about; a signal object is known
 * by the number of signals created before it.
 */
module LegacyServer {
  import opened Wrappers
  import opened Keyboard

  const Interface: string := "nl.icewind.shortcutd"

  /** `MethodErr::invalid_arg`. */
  datatype MethodErr = InvalidArg(message: string)

  /**
   * An object of the tree: `/register` with the `Register` method, the
   * introspectable root `/`, or a shortcut's object holding its signal.
   */
  datatype TreeObject = RegisterObject | RootObject | SignalObject(signal: nat)

  /** The D-Bus object tree, keyed by object path. */
  datatype Tree = Tree(objects: map<string, TreeObject>)

  /**
   * `tree.add(factory.object_path(path, ()) ...)`: the tree holds one object
   * per path, so adding at a path it already has replaces that object.
   */
  function AddObject(tree: Tree, path: string, obj: TreeObject): (r: Tree)
    ensures path in r.objects && r.objects[path] == obj
  {
    Tree(tree.objects[path := obj])
  }

  /** `MutateTree`: a shared slot holding the tree while no one is rebuilding it. */
  class MutateTree {
    var tree: Option<Tree>

    /** `MutateTree::new(factory, ())`: the slot holds an empty tree. */
    constructor ()
      ensures tree == Some(Tree(map[]))
    {
      tree := Some(Tree(map[]));
    }

    /** `mutate_tree(f)`: take the tree out of the slot and put `f` of it back. */
    method Mutate(f: Tree -> Tree)
      requires tree.Some?
      modifies this
      ensures tree == Some(f(old(tree).value))
    {
      var taken := tree.value;
      tree := None;
      tree := Some(f(taken));
    }
  }

  /** A signal message: the signal object, the path and interface it is sent from, and its text argument. */
  datatype Message = Message(signal: nat, path: string, iface: string, body: string)

  /** `format!("/{}", shortcut.identifier())`. */
  function ShortcutPath(s: Shortcut, identifier: Shortcut -> string): (path: string)
  {
    "/" + identifier(s)
  }

  /**
   * The `signals` map after draining `queue`: the shortcut at position `i`
   * gets signal number `first + i` under its path, later entries overwriting
   * earlier ones.
   */
  function InsertSignals(signals: map<string, nat>, queue: seq<Shortcut>, first: nat,
                         identifier: Shortcut -> string): (r: map<string, nat>)
    ensures signals.Keys <= r.Keys
    ensures forall p :: p in r ==> (p in signals && r[p] == signals[p]) || first <= r[p] < first + |queue|
    decreases |queue|
  {
    if queue == [] then signals
    else
      var n := |queue| - 1;
      InsertSignals(signals, queue[..n], first, identifier)[ShortcutPath(queue[n], identifier) := first + n]
  }

  /**
   * The tree after draining `queue`: the shortcut at position `i` gets an
   * object holding signal `first + i` at its path, in order.
   */
  function AddObjects(tree: Tree, queue: seq<Shortcut>, first: nat, identifier: Shortcut -> string): (r: Tree)
    ensures tree.objects.Keys <= r.objects.Keys
    ensures forall i :: 0 <= i < |queue| ==> ShortcutPath(queue[i], identifier) in r.objects
    decreases |queue|
  {
    if queue == [] then tree
    else
      var n := |queue| - 1;
      AddObject(AddObjects(tree, queue[..n], first, identifier), ShortcutPath(queue[n], identifier),
                SignalObject(first + n))
  }

  /** The messages sent while draining the listener's channel `events`, in order. */
  function Routed(events: seq<Shortcut>, signals: map<string, nat>, identifier: Shortcut -> string,
                  display: Shortcut -> string): (r: seq<Message>)
    ensures |r| <= |events|
    decreases |events|
  {
    if events == [] then []
    else
      var n := |events| - 1;
      var path := ShortcutPath(events[n], identifier);
      Routed(events[..n], signals, identifier, display)
      + if path in signals then [Message(signals[path], path, Interface, display(events[n]))] else []
  }

  /** Draining adds exactly the paths of the queued shortcuts to the keys of `signals`. */
  lemma {:induction false} InsertSignalsKeys(signals: map<string, nat>, queue: seq<Shortcut>, first: nat,
                                            identifier: Shortcut -> string)
    ensures InsertSignals(signals, queue, first, identifier).Keys
         == signals.Keys + set s | s in queue :: ShortcutPath(s, identifier)
    decreases |queue|
  {
    if queue != [] {
      var n := |queue| - 1;
      InsertSignalsKeys(signals, queue[..n], first, identifier);
      assert forall s :: s in queue <==> s in queue[..n] || s == queue[n];
    }
  }

  /** A path gets the signal of the last queued shortcut with that path; other paths keep theirs. */
  lemma {:induction false} InsertSignalsLastWins(signals: map<string, nat>, queue: seq<Shortcut>, first: nat,
                                                identifier: Shortcut -> string, j: nat)
    requires j < |queue|
    requires forall k :: j < k < |queue| ==> ShortcutPath(queue[k], identifier) != ShortcutPath(queue[j], identifier)
    ensures var r := InsertSignals(signals, queue, first, identifier);
      ShortcutPath(queue[j], identifier) in r && r[ShortcutPath(queue[j], identifier)] == first + j
    decreases |queue|
  {
    var n := |queue| - 1;
    if j < n {
      InsertSignalsLastWins(signals, queue[..n], first, identifier, j);
    }
  }

  /** Paths of no queued shortcut are left as they were. */
  lemma {:induction false} InsertSignalsKeepsOthers(signals: map<string, nat>, queue: seq<Shortcut>, first: nat,
                                                   identifier: Shortcut -> string, path: string)
    requires forall k :: 0 <= k < |queue| ==> ShortcutPath(queue[k], identifier) != path
    ensures var r := InsertSignals(signals, queue, first, identifier);
      (path in r <==> path in signals) && (path in signals ==> r[path] == signals[path])
    decreases |queue|
  {
    if queue != [] {
      InsertSignalsKeepsOthers(signals, queue[..|queue| - 1], first, identifier, path);
    }
  }

  /**
   * Objects at paths of no queued shortcut, such as `/register` while no
   * shortcut's path is `/register`, are left as they were.
   */
  lemma {:induction false} AddObjectsKeepsOthers(tree: Tree, queue: seq<Shortcut>, first: nat,
                                                identifier: Shortcut -> string, path: string)
    requires forall k :: 0 <= k < |queue| ==> ShortcutPath(queue[k], identifier) != path
    ensures var r := AddObjects(tree, queue, first, identifier);
      (path in r.objects <==> path in tree.objects) && (path in tree.objects ==> r.objects[path] == tree.objects[path])
    decreases |queue|
  {
    if queue != [] {
      AddObjectsKeepsOthers(tree, queue[..|queue| - 1], first, identifier, path);
    }
  }

  /** Every path of `signals` holds, in the tree, the object of its signal. */
  ghost predicate TreeHoldsSignals(tree: Tree, signals: map<string, nat>)
  {
    forall p :: p in signals ==> p in tree.objects && tree.objects[p] == SignalObject(signals[p])
  }

  /**
   * Draining a queue updates the tree and the `signals` map at the same paths
   * with the same signals, so a tree that holds every signal keeps holding
   * them, replaced objects included.
   */
  lemma {:induction false} DrainKeepsTreeAndSignalsInStep(tree: Tree, signals: map<string, nat>, queue: seq<Shortcut>,
                                                         first: nat, identifier: Shortcut -> string)
    requires TreeHoldsSignals(tree, signals)
    ensures TreeHoldsSignals(AddObjects(tree, queue, first, identifier), InsertSignals(signals, queue, first, identifier))
    decreases |queue|
  {
    if queue != [] {
      DrainKeepsTreeAndSignalsInStep(tree, signals, queue[..|queue| - 1], first, identifier);
    }
  }

  /** Each message is sent from a path that has a signal, with that signal, and no event gives two. */
  lemma {:induction false} RoutedSound(events: seq<Shortcut>, signals: map<string, nat>,
                                      identifier: Shortcut -> string, display: Shortcut -> string)
    ensures var r := Routed(events, signals, identifier, display);
      |r| <= |events| &&
      forall i :: 0 <= i < |r| ==>
        r[i].path in signals && r[i].signal == signals[r[i].path] && r[i].iface == Interface
    decreases |events|
  {
    if events != [] {
      RoutedSound(events[..|events| - 1], signals, identifier, display);
    }
  }

  /** Routing two batches of events one after the other sends the messages of both, in order. */
  lemma {:induction false} RoutedAppend(a: seq<Shortcut>, b: seq<Shortcut>, signals: map<string, nat>,
                                       identifier: Shortcut -> string, display: Shortcut -> string)
    ensures Routed(a + b, signals, identifier, display)
         == Routed(a, signals, identifier, display) + Routed(b, signals, identifier, display)
    decreases |b|
  {
    if b != [] {
      var n := |b| - 1;
      assert (a + b)[..|a + b| - 1] == a + b[..n];
      assert (a + b)[|a + b| - 1] == b[n];
      RoutedAppend(a, b[..n], signals, identifier, display);
    } else {
      assert a + b == a;
    }
  }

  /** An event whose path has a signal is sent as a message carrying the shortcut's text; any other is dropped. */
  lemma RoutedOne(s: Shortcut, signals: map<string, nat>, identifier: Shortcut -> string,
                  display: Shortcut -> string)
    ensures var path := "/" + identifier(s);
      Routed([s], signals, identifier, display)
        == if path in signals then [Message(signals[path], path, Interface, display(s))] else []
  {
    assert [s][..0] == [];
  }

  /** When every event's path has a signal, every event is sent, in order. */
  lemma {:induction false} RoutedAllKnown(events: seq<Shortcut>, signals: map<string, nat>,
                                         identifier: Shortcut -> string, display: Shortcut -> string)
    requires forall i :: 0 <= i < |events| ==> ShortcutPath(events[i], identifier) in signals
    ensures var r := Routed(events, signals, identifier, display);
      |r| == |events| &&
      forall i :: 0 <= i < |events| ==>
        r[i].path == ShortcutPath(events[i], identifier) && r[i].body == display(events[i])
    decreases |events|
  {
    if events != [] {
      RoutedAllKnown(events[..|events| - 1], signals, identifier, display);
    }
  }

  /** The state of `main` in src/server.rs. */
  class Daemon {
    const parse: string -> Option<Shortcut>
    const identifier: Shortcut -> string
    const display: Shortcut -> string
    const mtree: MutateTree
    /** The shortcuts added to the listener. */
    var listener: set<Shortcut>
    /** The `new_shortcut` channel, oldest first. */
    var newShortcuts: seq<Shortcut>
    /** The listener's channel of triggered shortcuts, oldest first. */
    var triggered: seq<Shortcut>
    /** The `signals` map from object path to signal. */
    var signals: map<string, nat>
    /** How many signal objects have been created. */
    var signalCount: nat
    /** The messages sent on the connection. */
    var sent: seq<Message>

    ghost predicate Valid()
      reads this, mtree
    {
      && mtree.tree.Some?
      && (forall p :: p in signals ==> signals[p] < signalCount)
      && TreeHoldsSignals(mtree.tree.value, signals)
    }

    /** `main` up to its loop: the tree holds `/register` and `/`, everything else is empty. */
    constructor (parse: string -> Option<Shortcut>, identifier: Shortcut -> string, display: Shortcut -> string)
      ensures Valid() && fresh(mtree)
      ensures this.parse == parse && this.identifier == identifier && this.display == display
      ensures mtree.tree == Some(Tree(map["/register" := RegisterObject, "/" := RootObject]))
      ensures listener == {} && newShortcuts == [] && triggered == []
      ensures signals == map[] && signalCount == 0 && sent == []
    {
      this.parse := parse;
      this.identifier := identifier;
      this.display := display;
      var t := new MutateTree();
      mtree := t;
      listener, newShortcuts, triggered := {}, [], [];
      signals, signalCount, sent := map[], 0, [];
      new;
      mtree.Mutate(tree => AddObject(AddObject(tree, "/register", RegisterObject), "/", RootObject));
      assert map[]["/register" := RegisterObject]["/" := RootObject]
          == map["/register" := RegisterObject, "/" := RootObject];
    }

    /** The `Register` method closure. */
    method Register(shortcut: string) returns (reply: Result<string, MethodErr>)
      requires Valid()
      modifies this
      ensures Valid()
      ensures parse(shortcut).None? ==>
        reply == Err(InvalidArg("Malformed shortcut"))
        && listener == old(listener) && newShortcuts == old(newShortcuts)
      ensures parse(shortcut).Some? ==>
        var s := parse(shortcut).value;
        reply == Ok("/" + identifier(s))
        && listener == old(listener) + {s} && newShortcuts == old(newShortcuts) + [s]
      ensures triggered == old(triggered) && signals == old(signals)
      ensures signalCount == old(signalCount) && sent == old(sent)
    {
      match parse(shortcut)
      case None =>
        reply := Err(InvalidArg("Malformed shortcut"));
      case Some(s) =>
        listener := listener + {s};
        newShortcuts := newShortcuts + [s];
        reply := Ok(ShortcutPath(s, identifier));
    }

    /** The listener thread sending a triggered shortcut on its channel. */
    method Trigger(s: Shortcut)
      requires Valid()
      modifies this
      ensures Valid()
      ensures triggered == old(triggered) + [s]
      ensures listener == old(listener) && newShortcuts == old(newShortcuts)
      ensures signals == old(signals) && signalCount == old(signalCount) && sent == old(sent)
    {
      triggered := triggered + [s];
    }

    /** `while let Ok(shortcut) = new_shortcut_rx.try_recv()`. */
    method DrainNewShortcuts()
      requires Valid()
      modifies this, mtree
      ensures Valid()
      ensures newShortcuts == []
      ensures signals == InsertSignals(old(signals), old(newShortcuts), old(signalCount), identifier)
      ensures signalCount == old(signalCount) + |old(newShortcuts)|
      ensures mtree.tree == Some(AddObjects(old(mtree.tree).value, old(newShortcuts), old(signalCount), identifier))
      ensures listener == old(listener) && triggered == old(triggered) && sent == old(sent)
    {
      ghost var queue := newShortcuts;
      ghost var signals0 := signals;
      ghost var tree0 := mtree.tree.value;
      ghost var i := 0;
      while newShortcuts != []
        invariant 0 <= i <= |queue| && newShortcuts == queue[i..]
        invariant signalCount == old(signalCount) + i
        invariant signals == InsertSignals(signals0, queue[..i], old(signalCount), identifier)
        invariant mtree.tree == Some(AddObjects(tree0, queue[..i], old(signalCount), identifier))
        invariant listener == old(listener) && triggered == old(triggered) && sent == old(sent)
        decreases |newShortcuts|
      {
        var s := newShortcuts[0];
        newShortcuts := newShortcuts[1..];
        var path := ShortcutPath(s, identifier);
        var signal := signalCount;
        signalCount := signalCount + 1;
        signals := signals[path := signal];
        mtree.Mutate(tree => AddObject(tree, path, SignalObject(signal)));
        assert queue[..i + 1][..i] == queue[..i];
        i := i + 1;
      }
      assert queue[..i] == queue;
      DrainKeepsTreeAndSignalsInStep(tree0, signals0, queue, old(signalCount), identifier);
    }

    /** `while let Ok(shortcut) = rx.try_recv()`. */
    method DrainTriggered()
      requires Valid()
      modifies this
      ensures Valid()
      ensures triggered == []
      ensures sent == old(sent) + Routed(old(triggered), signals, identifier, display)
      ensures listener == old(listener) && newShortcuts == old(newShortcuts)
      ensures signals == old(signals) && signalCount == old(signalCount)
    {
      ghost var events := triggered;
      ghost var i := 0;
      while triggered != []
        invariant 0 <= i <= |events| && triggered == events[i..]
        invariant sent == old(sent) + Routed(events[..i], signals, identifier, display)
        invariant listener == old(listener) && newShortcuts == old(newShortcuts)
        invariant signals == old(signals) && signalCount == old(signalCount)
        decreases |triggered|
      {
        var s := triggered[0];
        triggered := triggered[1..];
        var path := ShortcutPath(s, identifier);
        if path in signals {
          sent := sent + [Message(signals[path], path, Interface, display(s))];
        }
        assert events[..i + 1][..i] == events[..i];
        i := i + 1;
      }
      assert events[..i] == events;
    }

    /** One turn of the loop after `connection.process`: new shortcuts first, then triggered ones. */
    method Turn()
      requires Valid()
      modifies this, mtree
      ensures Valid()
      ensures newShortcuts == [] && triggered == []
      ensures signals == InsertSignals(old(signals), old(newShortcuts), old(signalCount), identifier)
      ensures signalCount == old(signalCount) + |old(newShortcuts)|
      ensures mtree.tree == Some(AddObjects(old(mtree.tree).value, old(newShortcuts), old(signalCount), identifier))
      ensures sent == old(sent) + Routed(old(triggered), signals, identifier, display)
      ensures listener == old(listener)
    {
      DrainNewShortcuts();
      DrainTriggered();
    }
  }

  /**
   * Because each turn drains the new shortcuts before the triggered ones, a
   * shortcut registered before a turn has its signal when its trigger is
   * routed in that turn: the message goes out from the path `Register`
   * answered with.
   */
  lemma RegisteredBeforeTurnIsRouted(signals: map<string, nat>, queue: seq<Shortcut>, first: nat,
                                     identifier: Shortcut -> string, display: Shortcut -> string, s: Shortcut)
    requires s in queue
    ensures var after := InsertSignals(signals, queue, first, identifier);
      var r := Routed([s], after, identifier, display);
      |r| == 1 && r[0].path == "/" + identifier(s) && r[0].body == display(s)
  {
    InsertSignalsKeys(signals, queue, first, identifier);
    RoutedOne(s, InsertSignals(signals, queue, first, identifier), identifier, display);
  }
}

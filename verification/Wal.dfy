/** The append-only event store and its live subscriptions (internal/wal/wal.go).
    A run's file is a sequence of records, each readable or corrupt. */
module Wal {
  import opened Runtime

  datatype Record = Readable(event: Event) | Corrupt

  predicate Clean(file: seq<Record>) {
    forall i | 0 <= i < |file| :: file[i].Readable?
  }

  function ValidPrefix(file: seq<Record>): seq<Event> {
    if file == [] || file[0].Corrupt? then [] else [file[0].event] + ValidPrefix(file[1..])
  }

  // Appended records are read back exactly when no corrupt record precedes them.
  lemma {:induction false} AppendVisible(file: seq<Record>, e: Event)
    ensures ValidPrefix(file + [Readable(e)]) == if Clean(file) then ValidPrefix(file) + [e] else ValidPrefix(file)
    ensures Clean(file) <==> |ValidPrefix(file)| == |file|
  {
    if file != [] {
      assert (file + [Readable(e)])[1..] == file[1..] + [Readable(e)];
      AppendVisible(file[1..], e);
      assert Clean(file) <==> file[0].Readable? && Clean(file[1..]) by {
        if file[0].Readable? && Clean(file[1..]) {
          assert forall i | 1 <= i < |file| :: file[i] == file[1..][i - 1];
        }
      }
      PrefixLength(file[1..]);
    }
  }

  lemma {:induction false} PrefixLength(file: seq<Record>)
    ensures |ValidPrefix(file)| <= |file|
  {
    if file != [] && file[0].Readable? { PrefixLength(file[1..]); }
  }

  // ---- One subscriber ----

  // Where the delivery goroutine stands: about to fetch, offering an event on
  // the channel, or returned.
  datatype Stage = Fetching | Offering(event: Event) | Stopped

  // `start` is the log position the subscription began at.
  datatype SubView = SubView(start: nat, delivered: seq<Event>, stage: Stage, pending: seq<Event>, closed: bool)

  function InFlight(v: SubView): seq<Event> {
    if v.stage.Offering? then [v.stage.event] else []
  }

  function Enqueued(v: SubView, e: Event): SubView {
    if v.closed then v else v.(pending := v.pending + [e])
  }

  function Fetched(v: SubView): SubView {
    if v.pending == [] then v.(stage := Stopped)
    else v.(stage := Offering(v.pending[0]), pending := v.pending[1..])
  }

  function Sent(v: SubView): SubView
    requires v.stage.Offering?
  {
    v.(delivered := v.delivered + [v.stage.event], stage := Fetching)
  }

  class Subscriber {
    const runId: string
    const id: nat
    var pending: seq<Event>
    var closed: bool
    var stage: Stage
    ghost var delivered: seq<Event>
    ghost const start: nat

    ghost function View(): SubView
      reads this
    {
      SubView(start, delivered, stage, pending, closed)
    }

    constructor (runId: string, id: nat, ghost start: nat)
      ensures this.runId == runId && this.id == id
      ensures View() == SubView(start, [], Fetching, [], false)
    {
      this.runId, this.id, this.start := runId, id, start;
      pending, closed, stage, delivered := [], false, Fetching, [];
    }

    method Enqueue(e: Event)
      modifies this`pending
      ensures View() == Enqueued(old(View()), e)
      ensures pending == if closed then old(pending) else old(pending) + [e]
    {
      if closed { return; }
      pending := pending + [e];
    }

    // One turn of the goroutine's loop head, once `next` stops waiting.
    method Next() returns (event: Option<Event>)
      requires stage.Fetching? && (pending != [] || closed)
      modifies this`stage, this`pending
      ensures View() == Fetched(old(View()))
      ensures event.Some? <==> old(pending) != []
      ensures event.Some? ==> stage == Offering(event.value) && [event.value] + pending == old(pending)
      ensures event.None? ==> stage.Stopped? && pending == []
    {
      if pending == [] {
        stage := Stopped;
        return None;
      }
      event := Some(pending[0]);
      stage := Offering(pending[0]);
      pending := pending[1..];
    }

    // The consumer takes the offered event from the channel.
    method Send() returns (event: Event)
      requires stage.Offering?
      modifies this`stage, this`delivered
      ensures View() == Sent(old(View())) && old(stage) == Offering(event)
      ensures delivered == old(delivered) + [event] && stage.Fetching?
    {
      event := stage.event;
      delivered := delivered + [event];
      stage := Fetching;
    }

    // The select takes the closed channel instead: the offered event is dropped.
    method Quit()
      requires stage.Offering? && closed
      modifies this`stage
      ensures View() == old(View()).(stage := Stopped)
    {
      stage := Stopped;
    }

    method Close()
      modifies this`closed
      ensures View() == old(View()).(closed := true)
    {
      closed := true;
    }
  }

  // ---- A run's log together with its subscribers ----

  datatype Feed = Feed(log: seq<Event>, subs: map<nat, SubView>)

  datatype Action =
    | Append(event: Event)
    | Subscribe(id: nat, afterSeq: nat)
    | Next(id: nat)
    | Send(id: nat)
    | Quit(id: nat)
    | Close(id: nat)
    | Remove(id: nat)

  function After(log: seq<Event>, afterSeq: nat): seq<Event> {
    if log == [] then []
    else if log[0].seqNo <= afterSeq then After(log[1..], afterSeq)
    else [log[0]] + After(log[1..], afterSeq)
  }

  function Start(log: seq<Event>, afterSeq: nat): nat {
    if afterSeq <= |log| then afterSeq else |log|
  }

  predicate Enabled(f: Feed, a: Action) {
    match a
    case Append(e) => e.seqNo == |f.log| + 1
    case Subscribe(id, _) => id !in f.subs && f.log != []
    case Next(id) => id in f.subs && f.subs[id].stage.Fetching? && (f.subs[id].pending != [] || f.subs[id].closed)
    case Send(id) => id in f.subs && f.subs[id].stage.Offering?
    case Quit(id) => id in f.subs && f.subs[id].stage.Offering? && f.subs[id].closed
    case Close(id) => id in f.subs
    case Remove(id) => id in f.subs && f.subs[id].stage.Stopped?
  }

  function EnqueuedAll(subs: map<nat, SubView>, e: Event): map<nat, SubView> {
    map id | id in subs :: Enqueued(subs[id], e)
  }

  function Act(f: Feed, a: Action): Feed
    requires Enabled(f, a)
  {
    match a
    case Append(e) => Feed(f.log + [e], EnqueuedAll(f.subs, e))
    case Subscribe(id, afterSeq) =>
      f.(subs := f.subs[id := SubView(Start(f.log, afterSeq), [], Fetching, After(f.log, afterSeq), false)])
    case Next(id) => f.(subs := f.subs[id := Fetched(f.subs[id])])
    case Send(id) => f.(subs := f.subs[id := Sent(f.subs[id])])
    case Quit(id) => f.(subs := f.subs[id := f.subs[id].(stage := Stopped)])
    case Close(id) => f.(subs := f.subs[id := f.subs[id].(closed := true)])
    case Remove(id) => f.(subs := f.subs - {id})
  }

  // Any interleaving; actions that are not enabled where they stand do nothing.
  function Perform(f: Feed, actions: seq<Action>): Feed
    decreases |actions|
  {
    if actions == [] then f
    else Perform(if Enabled(f, actions[0]) then Act(f, actions[0]) else f, actions[1..])
  }

  ghost predicate Sequenced(log: seq<Event>) {
    forall i | 0 <= i < |log| :: log[i].seqNo == i + 1
  }

  /** An open subscriber has delivered, is offering, or still queues exactly the
      log from its start, in order; a closed one has delivered a prefix of that. */
  ghost predicate Follows(v: SubView, log: seq<Event>) {
    && v.start <= |log|
    && (!v.closed ==> !v.stage.Stopped? && v.delivered + InFlight(v) + v.pending == log[v.start..])
    && (v.closed && !v.stage.Stopped? ==> v.delivered + InFlight(v) + v.pending <= log[v.start..])
    && v.delivered <= log[v.start..]
  }

  ghost predicate FeedInv(f: Feed) {
    Sequenced(f.log) && forall id | id in f.subs :: Follows(f.subs[id], f.log)
  }

  lemma {:induction false} AfterIsSuffix(log: seq<Event>, k: nat, afterSeq: nat)
    requires Sequenced(log) && k <= |log|
    ensures After(log[k..], afterSeq) == log[if k <= Start(log, afterSeq) then Start(log, afterSeq) else k..]
    decreases |log| - k
  {
    if k < |log| {
      AfterIsSuffix(log, k + 1, afterSeq);
      assert log[k..][1..] == log[k + 1..];
      assert log[k..] == [log[k]] + log[k + 1..];
    }
  }

  lemma EnqueueFollows(v: SubView, log: seq<Event>, e: Event)
    requires Follows(v, log)
    ensures Follows(Enqueued(v, e), log + [e])
  {
    assert (log + [e])[v.start..] == log[v.start..] + [e];
    if !v.closed {
      assert v.delivered + InFlight(v) + (v.pending + [e]) == (v.delivered + InFlight(v) + v.pending) + [e];
    }
  }

  lemma FetchFollows(v: SubView, log: seq<Event>)
    requires Follows(v, log) && v.stage.Fetching? && (v.pending != [] || v.closed)
    ensures Follows(Fetched(v), log)
  {
    if v.pending != [] {
      assert v.delivered + [] + v.pending == v.delivered + [v.pending[0]] + v.pending[1..];
    }
  }

  lemma SendFollows(v: SubView, log: seq<Event>)
    requires Follows(v, log) && v.stage.Offering?
    ensures Follows(Sent(v), log)
  {
    var rest := v.delivered + [v.stage.event];
    assert rest + [] + v.pending == v.delivered + [v.stage.event] + v.pending;
    assert rest <= rest + v.pending <= log[v.start..];
  }

  lemma ActKeepsInv(f: Feed, a: Action)
    requires FeedInv(f) && Enabled(f, a)
    ensures FeedInv(Act(f, a))
  {
    match a {
      case Append(e) =>
        forall id | id in f.subs ensures Follows(Enqueued(f.subs[id], e), f.log + [e]) {
          EnqueueFollows(f.subs[id], f.log, e);
        }
      case Subscribe(id, afterSeq) =>
        AfterIsSuffix(f.log, 0, afterSeq);
        assert f.log[0..] == f.log;
      case Next(id) => FetchFollows(f.subs[id], f.log);
      case Send(id) => SendFollows(f.subs[id], f.log);
      case Quit(id) =>
      case Close(id) =>
      case Remove(id) =>
    }
  }

  /** Exactly-once, in-order delivery under every interleaving of appends,
      subscriptions, deliveries and closes. */
  lemma {:induction false} SubscriptionExactlyOnce(f: Feed, actions: seq<Action>)
    requires FeedInv(f)
    ensures FeedInv(Perform(f, actions))
    ensures f.log <= Perform(f, actions).log
    decreases |actions|
  {
    if actions != [] {
      var g := if Enabled(f, actions[0]) then Act(f, actions[0]) else f;
      if Enabled(f, actions[0]) { ActKeepsInv(f, actions[0]); }
      SubscriptionExactlyOnce(g, actions[1..]);
    }
  }

  /** A subscriber that asked for everything after `afterSeq` while the log was at
      least that long holds, once its queue and channel are empty, exactly the
      events numbered afterSeq + 1 up to the end of the log. */
  lemma DrainedSubscriberHasSuffix(f: Feed, id: nat, afterSeq: nat, actions: seq<Action>)
    requires FeedInv(f) && id !in f.subs && f.log != [] && afterSeq <= |f.log|
    requires forall a | a in actions :: a != Remove(id)
    ensures var g := Perform(Act(f, Action.Subscribe(id, afterSeq)), actions);
            id in g.subs && g.subs[id].start == afterSeq <= |g.log| &&
            (!g.subs[id].closed && g.subs[id].stage.Fetching? && g.subs[id].pending == [] ==>
              g.subs[id].delivered == g.log[afterSeq..])
  {
    var g := Act(f, Action.Subscribe(id, afterSeq));
    ActKeepsInv(f, Action.Subscribe(id, afterSeq));
    SubscriptionExactlyOnce(g, actions);
    StartIsFixed(g, id, actions);
  }

  lemma {:induction false} StartIsFixed(f: Feed, id: nat, actions: seq<Action>)
    requires id in f.subs && forall a | a in actions :: a != Remove(id)
    ensures id in Perform(f, actions).subs && Perform(f, actions).subs[id].start == f.subs[id].start
    decreases |actions|
  {
    if actions != [] {
      var g := if Enabled(f, actions[0]) then Act(f, actions[0]) else f;
      assert actions[0] in actions && forall a | a in actions[1..] :: a in actions;
      StartIsFixed(g, id, actions[1..]);
    }
  }

  // ---- The store ----

  // Subscribers of all runs are kept in one map: their ids are unique store-wide.
  class Store {
    var files: map<string, seq<Record>>
    var subscribers: map<nat, Subscriber>
    var nextSubID: nat

    constructor (files: map<string, seq<Record>>)
      requires forall r | r in files :: Sequenced(ValidPrefix(files[r]))
      ensures Valid() && this.files == files && subscribers == map[]
    {
      this.files := files;
      subscribers, nextSubID := map[], 0;
    }

    function File(runId: string): seq<Record>
      reads this`files
    {
      if runId in files then files[runId] else []
    }

    function Log(runId: string): seq<Event>
      reads this`files
    {
      ValidPrefix(File(runId))
    }

    ghost predicate Valid()
      reads this`files, this`subscribers, this`nextSubID
    {
      && (forall r | r in files :: Sequenced(ValidPrefix(files[r])))
      && (forall id | id in subscribers :: subscribers[id].id == id <= nextSubID)
    }

    ghost function ViewsOf(runId: string): map<nat, SubView>
      reads this`subscribers, subscribers.Values
    {
      map id | id in subscribers && subscribers[id].runId == runId :: subscribers[id].View()
    }

    ghost function FeedOf(runId: string): Feed
      reads this`files, this`subscribers, subscribers.Values
    {
      Feed(Log(runId), ViewsOf(runId))
    }

    method ScanLocked(runId: string) returns (events: seq<Event>, corrupt: bool)
      ensures events == Log(runId)
      ensures corrupt <==> !Clean(File(runId))
    {
      events, corrupt := [], false;
      var file := if runId in files then files[runId] else [];
      for i := 0 to |file|
        invariant Clean(file[..i])
        invariant events + ValidPrefix(file[i..]) == ValidPrefix(file)
      {
        assert file[i..][0] == file[i] && file[i..][1..] == file[i + 1..];
        if file[i].Corrupt? {
          corrupt := true;
          return;
        }
        events := events + [file[i].event];
      }
      assert file[..|file|] == file && file[|file|..] == [];
    }

    // The event goes to the file with the next sequence number, and to every
    // open subscriber of the run.
    method Append(e: Event) returns (stored: Event)
      requires Valid()
      modifies this`files, subscribers.Values
      ensures Valid()
      ensures stored == e.(seqNo := |old(Log(e.runId))| + 1)
      ensures files == old(files)[e.runId := old(File(e.runId)) + [Readable(stored)]]
      ensures Clean(old(File(e.runId))) ==> FeedOf(e.runId) == Act(old(FeedOf(e.runId)), Action.Append(stored))
      ensures forall r | r != e.runId :: FeedOf(r) == old(FeedOf(r))
    {
      var runId := e.runId;
      var events, _ := ScanLocked(runId);
      stored := e.(seqNo := |events| + 1);
      files := files[runId := (if runId in files then files[runId] else []) + [Readable(stored)]];
      AppendVisible(old(File(runId)), stored);
      assert Sequenced(ValidPrefix(files[runId]));
      BroadcastLocked(stored);
    }

    method BroadcastLocked(e: Event)
      requires Valid()
      modifies subscribers.Values
      ensures ViewsOf(e.runId) == EnqueuedAll(old(ViewsOf(e.runId)), e)
      ensures forall r | r != e.runId :: ViewsOf(r) == old(ViewsOf(r))
    {
      var rest := subscribers.Keys;
      while rest != {}
        invariant rest <= subscribers.Keys
        invariant forall id | id in subscribers ::
          subscribers[id].View() == if subscribers[id].runId == e.runId && id !in rest
                                    then Enqueued(old(subscribers[id].View()), e) else old(subscribers[id].View())
        decreases |rest|
      {
        var id :| id in rest;
        if subscribers[id].runId == e.runId {
          subscribers[id].Enqueue(e);
        }
        rest := rest - {id};
      }
    }

    method List(runId: string) returns (events: seq<Event>, corrupt: bool)
      ensures events == Log(runId)
      ensures corrupt <==> !Clean(File(runId))
    {
      events, corrupt := ScanLocked(runId);
    }

    method Subscribe(runId: string, afterSeq: nat) returns (sub: Option<Subscriber>)
      requires Valid()
      modifies this`subscribers, this`nextSubID
      ensures Valid()
      ensures sub.None? <==> Log(runId) == []
      ensures sub.None? ==> unchanged(this)
      ensures sub.Some? ==> fresh(sub.value) && sub.value.runId == runId && sub.value.id !in old(subscribers)
      ensures sub.Some? ==> subscribers == old(subscribers)[sub.value.id := sub.value]
      ensures sub.Some? ==> Enabled(old(FeedOf(runId)), Action.Subscribe(sub.value.id, afterSeq))
      ensures sub.Some? ==> FeedOf(runId) == Act(old(FeedOf(runId)), Action.Subscribe(sub.value.id, afterSeq))
      ensures forall r | r != runId :: FeedOf(r) == old(FeedOf(r))
    {
      hide ValidPrefix, After, Clean, FeedOf;
      var events, _ := ScanLocked(runId);
      if |events| == 0 { return None; }
      nextSubID := nextSubID + 1;
      var s := ReplayFrom(runId, nextSubID, events, afterSeq);
      subscribers := subscribers[s.id := s];
      Registered(this, s.id);
      sub := Some(s);
    }

    static method ReplayFrom(runId: string, id: nat, events: seq<Event>, afterSeq: nat) returns (s: Subscriber)
      ensures fresh(s) && s.runId == runId && s.id == id
      ensures s.View() == SubView(Start(events, afterSeq), [], Fetching, After(events, afterSeq), false)
    {
      s := new Subscriber(runId, id, Start(events, afterSeq));
      for i := 0 to |events|
        invariant s.View() == SubView(Start(events, afterSeq), [], Fetching, s.pending, false)
        invariant s.pending + After(events[i..], afterSeq) == After(events, afterSeq)
      {
        assert events[i..][0] == events[i] && events[i..][1..] == events[i + 1..];
        if events[i].seqNo > afterSeq {
          s.pending := s.pending + [events[i]];
        }
      }
    }

    // The deferred clean-up of a returned delivery goroutine.
    method RemoveSubscriber(runId: string, id: nat)
      requires Valid() && Enabled(FeedOf(runId), Action.Remove(id))
      modifies this`subscribers
      ensures Valid() && subscribers == old(subscribers) - {id}
      ensures FeedOf(runId) == Act(old(FeedOf(runId)), Action.Remove(id))
      ensures forall r | r != runId :: FeedOf(r) == old(FeedOf(r))
    {
      subscribers := subscribers - {id};
    }
  }

  // ---- Subscribers as part of the store ----

  twostate lemma Registered(store: Store, new id: nat)
    requires store.files == old(store.files) && id in store.subscribers && id !in old(store.subscribers)
    requires store.subscribers == old(store.subscribers)[id := store.subscribers[id]]
    requires forall q | q in old(store.subscribers) :: store.subscribers[q].View() == old(store.subscribers[q].View())
    ensures var sub := store.subscribers[id]; var r := sub.runId; var feed := old(store.FeedOf(r));
      && id !in feed.subs && feed.log == old(store.Log(r))
      && store.FeedOf(r) == feed.(subs := feed.subs[id := sub.View()])
    ensures forall r | r != store.subscribers[id].runId :: store.FeedOf(r) == old(store.FeedOf(r))
  {
    hide ValidPrefix;
    var sub := store.subscribers[id];
    var r := sub.runId;
    assert store.ViewsOf(r) == old(store.ViewsOf(r))[id := sub.View()];
    forall q | q != r ensures store.FeedOf(q) == old(store.FeedOf(q)) {
      assert store.ViewsOf(q) == old(store.ViewsOf(q));
    }
  }

  // A registered subscriber about to take a step of the protocol.
  ghost predicate CanMove(store: Store, a: Action)
    reads store, store.subscribers.Values
  {
    && store.Valid() && (a.Next? || a.Send? || a.Quit? || a.Close?) && a.id in store.subscribers
    && Enabled(store.FeedOf(store.subscribers[a.id].runId), a)
  }

  /** A step of one subscriber is the step of the protocol on its run's feed, and no
      other run notices it. */
  twostate lemma SubscriberActs(store: Store, new a: Action)
    requires old(CanMove(store, a))
    requires store.files == old(store.files) && store.subscribers == old(store.subscribers)
    requires store.subscribers[a.id].View() == Act(old(store.FeedOf(store.subscribers[a.id].runId)), a).subs[a.id]
    requires forall id | id in store.subscribers && id != a.id :: store.subscribers[id].View() == old(store.subscribers[id].View())
    ensures a.id in store.subscribers
    ensures var r := store.subscribers[a.id].runId;
      && !a.Append? && Enabled(old(store.FeedOf(r)), a)
      && store.FeedOf(r) == Act(old(store.FeedOf(r)), a)
      && forall q | q != r :: store.FeedOf(q) == old(store.FeedOf(q))
  {
    var r := store.subscribers[a.id].runId;
    var after := Act(old(store.FeedOf(r)), a);
    assert after.subs.Keys == old(store.FeedOf(r)).subs.Keys;
    assert store.ViewsOf(r) == after.subs;
    forall q | q != r ensures store.FeedOf(q) == old(store.FeedOf(q)) {
      assert store.ViewsOf(q) == old(store.ViewsOf(q));
    }
  }
}

/**
 * The response-completion tracker: `onFinished(msg, listener)` calls `listener`
 * once the message (a request or a response) has finished, whichever way it
 * finishes.
 *
 * Listeners registered on an unfinished message are queued on one record kept
 * on the message (`msg.__onFinished`). That record is wired once, to a race
 * between the message's `end`/`finish` events and its socket's `error`/`close`
 * events. The socket race is attached when the socket is known. The first event
 * of either race cancels both races and drains the queue, in order.
 *
 * Node's event emitters, sockets and the `setImmediate` scheduler are not part
 * of this model. The handlers this tracker attaches are a set of values, events
 * are explicit `Emit` and `AssignSocket` steps, deferred calls are a queue
 * that `RunDeferred` works off, and listener invocations are appended to a log.
 */
module OnFinished {
  import opened Wrappers

  /** Identity of a listener function passed to `onFinished`. */
  type Listener = nat

  type SocketId = nat

  /** The socket of a message, with the stream flags `isFinished` reads. */
  datatype Socket = Socket(id: SocketId, writable: bool, readable: bool)

  /** The message fields `isFinished` reads, by the kind of message. */
  datatype Shape =
    | Outgoing(finished: bool)                                 // `msg.finished` is a boolean
    | Incoming(complete: bool, upgrade: bool, readable: bool)  // `msg.complete` is a boolean
    | Unrecognised                                             // neither

  /** `isFinished(msg)`: `Some(b)` for a boolean answer, `None` for `undefined`. */
  function IsFinished(shape: Shape, socket: Option<Socket>): (r: Option<bool>)
    ensures r.None? <==> shape.Unrecognised?
    ensures shape.Outgoing? ==>
              (r == Some(true) <==> shape.finished || (socket.Some? && !socket.value.writable))
    ensures shape.Incoming? ==>
              (r == Some(true) <==> shape.upgrade || socket.None? || !socket.value.readable ||
                                    (shape.complete && !shape.readable))
  {
    match shape
    case Outgoing(finished) =>
      Some(finished || (socket.Some? && !socket.value.writable))
    case Incoming(complete, upgrade, readable) =>
      Some(upgrade || socket.None? || !socket.value.readable || (complete && !readable))
    case Unrecognised =>
      None
  }

  // ---------------------------------------------------------------------------
  // `first` and `listener`

  datatype Emitter = MessageEmitter | SocketEmitter(socket: SocketId)

  datatype Event = End | Finish | Error | Close

  /** A function this tracker has attached to an emitter. */
  datatype Handler =
    /** The `listener(event, callback)` made by call `race` of `first` for its `slot`-th pair. */
    | RaceHandler(race: nat, slot: nat, ee: Emitter, event: Event)
    /** The `onSocket` of the record `record`, waiting on the message's 'socket' event. */
    | SocketWatch(record: nat)

  /** `listener(event, done)`: the error handed on is the first argument for 'error', else null. */
  function ListenerError(event: Event, arg1: string): (err: Option<string>)
    ensures err.Some? <==> event == Error
    ensures err.Some? ==> err.value == arg1
  {
    if event == Error then Some(arg1) else None
  }

  /** A member of `first`'s argument: `[ee, ...events]`, or anything else. */
  datatype Member = Member(ee: Emitter, events: seq<Event>) | Malformed

  /** `first`'s argument: an array of members, or not an array. */
  datatype Stuff = Members(members: seq<Member>) | NotAnArray

  const NotAnArrayError := "arg must be an array of [ee, events...] arrays"
  const MalformedMemberError := "each array member must be [ee, events...]"

  /** A member `first` accepts: an array `[ee, event, ...]` of length at least 2. */
  predicate WellFormed(m: Member)
  {
    m.Member? && |m.events| >= 1
  }

  /** How many members, from the start, `first` accepts before it throws. */
  function AcceptedPrefix(ms: seq<Member>): (n: nat)
    ensures n <= |ms|
    ensures forall i :: 0 <= i < n ==> WellFormed(ms[i])
    ensures n < |ms| ==> !WellFormed(ms[n])
  {
    if ms == [] || !WellFormed(ms[0]) then 0 else 1 + AcceptedPrefix(ms[1..])
  }

  /** `AcceptedPrefix` is the one index before which every member is accepted and at which none is. */
  lemma {:induction false} AcceptedPrefixIs(ms: seq<Member>, n: nat)
    requires n <= |ms|
    requires forall k | 0 <= k < n :: WellFormed(ms[k])
    requires n < |ms| ==> !WellFormed(ms[n])
    ensures AcceptedPrefix(ms) == n
  {
    if n > 0 {
      AcceptedPrefixIs(ms[1..], n - 1);
    }
  }

  /** The (emitter, event) pairs of one member, in order. */
  function PairsOf(m: Member): seq<(Emitter, Event)>
  {
    match m
    case Malformed => []
    case Member(ee, events) => seq(|events|, j requires 0 <= j < |events| => (ee, events[j]))
  }

  /** The (emitter, event) pairs of the first `n` members, in order. */
  function Pairs(ms: seq<Member>, n: nat): seq<(Emitter, Event)>
    requires n <= |ms|
  {
    if n == 0 then [] else Pairs(ms, n - 1) + PairsOf(ms[n - 1])
  }

  /**
   * The inner loop of `first`: `ee.on(event, listener(event, callback))` for each
   * event of member `m` in turn, each pushed onto `cleanups`.
   */
  method SubscribeMember(race: nat, cleanups: seq<Handler>, ghost done: seq<(Emitter, Event)>, m: Member)
    returns (cleanups': seq<Handler>)
    requires WellFormed(m) && cleanups == Subscriptions(race, done)
    ensures cleanups' == Subscriptions(race, done + PairsOf(m))
  {
    cleanups' := cleanups;
    ghost var pairs := done;
    var ee := m.ee;
    var events := m.events;
    var j := 0;
    while j < |events|
      invariant 0 <= j <= |events|
      invariant pairs == done + PairsOf(m)[..j]
      invariant cleanups' == Subscriptions(race, pairs)
    {
      var event := events[j];
      var fn := RaceHandler(race, |cleanups'|, ee, event);
      SubscriptionsSnoc(race, pairs, (ee, event));
      PairsOfStep(m, j);
      pairs := pairs + [(ee, event)];
      cleanups' := cleanups' + [fn];
      j := j + 1;
    }
    assert PairsOf(m)[..j] == PairsOf(m);
  }

  /** The handlers call `race` of `first` attaches: one per pair, in order. */
  function Subscriptions(race: nat, pairs: seq<(Emitter, Event)>): (hs: seq<Handler>)
    ensures |hs| == |pairs|
  {
    if pairs == [] then []
    else Subscriptions(race, pairs[..|pairs| - 1]) + [RaceHandler(race, |pairs| - 1, pairs[|pairs| - 1].0, pairs[|pairs| - 1].1)]
  }

  lemma PairsOfStep(m: Member, j: nat)
    requires m.Member? && j < |m.events|
    ensures PairsOf(m)[..j + 1] == PairsOf(m)[..j] + [(m.ee, m.events[j])]
  {
    assert PairsOf(m)[..j + 1] == PairsOf(m)[..j] + [(m.ee, m.events[j])];
  }

  lemma SubscriptionsSnoc(race: nat, pairs: seq<(Emitter, Event)>, p: (Emitter, Event))
    ensures Subscriptions(race, pairs + [p]) == Subscriptions(race, pairs) + [RaceHandler(race, |pairs|, p.0, p.1)]
  {
    assert (pairs + [p])[..|pairs|] == pairs;
  }

  /**
   * `first(stuff, done)`, as call number `race`. `subscribed` lists the handlers it
   * attached, in order. On success `result` holds the cleanup list that `cancel`
   * removes. A malformed member throws only after the members before it were
   * subscribed, and those handlers stay attached.
   */
  method First(stuff: Stuff, race: nat) returns (result: Result<seq<Handler>, string>, subscribed: seq<Handler>)
    ensures stuff.NotAnArray? ==> result == Failure(NotAnArrayError) && subscribed == []
    ensures stuff.Members? ==>
              var n := AcceptedPrefix(stuff.members);
              && subscribed == Subscriptions(race, Pairs(stuff.members, n))
              && (result.Success? <==> n == |stuff.members|)
              && (result.Success? ==> result.value == subscribed)
              && (result.Failure? ==> result.error == MalformedMemberError)
  {
    if stuff.NotAnArray? {
      return Failure(NotAnArrayError), [];
    }
    var ms := stuff.members;
    var cleanups: seq<Handler> := [];
    ghost var pairs: seq<(Emitter, Event)> := [];
    var i := 0;
    while i < |ms|
      invariant 0 <= i <= |ms|
      invariant forall k | 0 <= k < i :: WellFormed(ms[k])
      invariant pairs == Pairs(ms, i)
      invariant cleanups == Subscriptions(race, pairs)
    {
      var arr := ms[i];
      if !WellFormed(arr) {
        AcceptedPrefixIs(ms, i);
        return Failure(MalformedMemberError), cleanups;
      }
      cleanups := SubscribeMember(race, cleanups, pairs, arr);
      pairs := pairs + PairsOf(arr);
      i := i + 1;
    }
    AcceptedPrefixIs(ms, i);
    return Success(cleanups), cleanups;
  }

  /** The two handlers of a race on `ee` for events `e0` then `e1`. */
  function RacePair(race: nat, ee: Emitter, e0: Event, e1: Event): seq<Handler>
  {
    [RaceHandler(race, 0, ee, e0), RaceHandler(race, 1, ee, e1)]
  }

  /**
   * `first([[ee, e0, e1]], done)`, the form of both of the tracker's calls, as
   * call number `race`: it accepts its argument and subscribes `e0` then `e1`.
   */
  method FirstPair(race: nat, ee: Emitter, e0: Event, e1: Event) returns (subscribed: seq<Handler>)
    ensures subscribed == RacePair(race, ee, e0, e1)
  {
    var result;
    result, subscribed := First(Members([Member(ee, [e0, e1])]), race);
    PairSubscriptions(race, ee, e0, e1);
  }

  /** A one-member `first` call subscribes that member's two events, in order. */
  lemma PairSubscriptions(race: nat, ee: Emitter, e0: Event, e1: Event)
    ensures var ms := [Member(ee, [e0, e1])];
            AcceptedPrefix(ms) == 1 && Subscriptions(race, Pairs(ms, 1)) == RacePair(race, ee, e0, e1)
  {
    var ms := [Member(ee, [e0, e1])];
    var ps := PairsOf(ms[0]);
    assert Pairs(ms, 1) == ps == [(ee, e0), (ee, e1)];
    assert ps[..1] == [(ee, e0)];
  }

  // ---------------------------------------------------------------------------
  // Calls to listeners

  /** A call `listener(err, msg)`; `err` is `None` for null. */
  datatype Call = Call(listener: Listener, err: Option<string>)

  function Listeners(calls: seq<Call>): (ls: seq<Listener>)
  {
    seq(|calls|, i requires 0 <= i < |calls| => calls[i].listener)
  }

  /** The calls that draining `queue` with `err` makes, in queue order. */
  function CallsOf(queue: seq<Listener>, err: Option<string>): (cs: seq<Call>)
  {
    seq(|queue|, i requires 0 <= i < |queue| => Call(queue[i], err))
  }

  /** Draining a queue calls each queued listener exactly once, in order, with the same error. */
  lemma DrainCallsEachOnce(queue: seq<Listener>, err: Option<string>)
    ensures Listeners(CallsOf(queue, err)) == queue
    ensures forall i :: 0 <= i < |queue| ==> CallsOf(queue, err)[i].err == err
  {
    assert Listeners(CallsOf(queue, err)) == queue;
  }

  lemma ListenersAppend(a: seq<Call>, b: seq<Call>)
    ensures Listeners(a + b) == Listeners(a) + Listeners(b)
  {
    assert Listeners(a + b) == Listeners(a) + Listeners(b);
  }

  // ---------------------------------------------------------------------------
  // The tracked message

  /** A call of `first` made by the tracker: the record it serves and its cleanup list. */
  datatype Race = Race(record: nat, cleanups: seq<Handler>)

  /**
   * One `attachListener` wiring: the queue of the `createListener` function, and the
   * `finished`, `eeMsg` and `eeSocket` variables of `attachFinishedListener` (races
   * are named by their index). `queue` is `None` once the record has fired.
   */
  datatype Record = Record(queue: Option<seq<Listener>>, finished: bool, eeMsg: nat, eeSocket: nat)

  /** Record `i` is finished exactly when fired, is live exactly when `current`, and names two races made for it. */
  ghost predicate RecordOk(records: seq<Record>, races: seq<Race>, current: Option<nat>, i: nat)
    requires i < |records|
  {
    var r := records[i];
    && (r.finished <==> r.queue.None?)
    && (r.queue.Some? <==> current == Some(i))
    && r.eeMsg < |races| && races[r.eeMsg].record == i
    && r.eeSocket < |races| && races[r.eeSocket].record == i
  }

  /** An attached race handler is in the cleanup list of a race of the live record. */
  ghost predicate HandlerOk(records: seq<Record>, races: seq<Race>, current: Option<nat>, h: Handler)
  {
    match h
    case SocketWatch(i) => i < |records|
    case RaceHandler(k, slot, _, _) =>
      && k < |races|
      && slot < |races[k].cleanups|
      && races[k].cleanups[slot] == h
      && races[k].record < |records|
      && current == Some(races[k].record)
      && (k == records[races[k].record].eeMsg || k == records[races[k].record].eeSocket)
  }

  /**
   * Record `i` races 'end'/'finish' on the message, and either waits for the
   * socket or races 'error'/'close' on one socket.
   */
  ghost predicate Wired(records: seq<Record>, races: seq<Race>, handlers: set<Handler>, i: nat)
  {
    && i < |records|
    && var r := records[i];
    && r.eeMsg < |races| && r.eeSocket < |races|
    && races[r.eeMsg].cleanups == RacePair(r.eeMsg, MessageEmitter, End, Finish)
    && RaceHandler(r.eeMsg, 0, MessageEmitter, End) in handlers
    && RaceHandler(r.eeMsg, 1, MessageEmitter, Finish) in handlers
    && (r.eeSocket == r.eeMsg <==> SocketWatch(i) in handlers)
    && (r.eeSocket != r.eeMsg ==>
          && |races[r.eeSocket].cleanups| == 2
          && races[r.eeSocket].cleanups[0].RaceHandler?
          && races[r.eeSocket].cleanups[0].ee.SocketEmitter?
          && var ee := races[r.eeSocket].cleanups[0].ee;
             && races[r.eeSocket].cleanups == RacePair(r.eeSocket, ee, Error, Close)
             && RaceHandler(r.eeSocket, 0, ee, Error) in handlers
             && RaceHandler(r.eeSocket, 1, ee, Close) in handlers)
  }

  /**
   * The tracker's state invariant: at most one live record, which is
   * `msg.__onFinished`; every attached race handler belongs to that record (no
   * handler outlives its record); and the live record is wired to both races.
   */
  ghost predicate Coherent(current: Option<nat>, records: seq<Record>, races: seq<Race>, handlers: set<Handler>)
  {
    && (current.Some? ==> Wired(records, races, handlers, current.value))
    && (forall i | 0 <= i < |records| :: RecordOk(records, races, current, i))
    && (forall k | 0 <= k < |races| :: races[k].record < |records|)
    && (forall h | h in handlers :: HandlerOk(records, races, current, h))
  }

  /** The queue of the live record, or nothing. */
  ghost function LiveQueue(records: seq<Record>, current: Option<nat>): seq<Listener>
  {
    if current.Some? && current.value < |records| && records[current.value].queue.Some?
    then records[current.value].queue.value
    else []
  }

  /** The handlers of both races of record `i`. */
  ghost function RaceHandlersOf(records: seq<Record>, races: seq<Race>, i: nat): set<Handler>
    requires i < |records| && records[i].eeMsg < |races| && records[i].eeSocket < |races|
  {
    (set h | h in races[records[i].eeMsg].cleanups) + (set h | h in races[records[i].eeSocket].cleanups)
  }

  /** Some attached handler listens for `event` on `ee`. */
  ghost predicate Listening(handlers: set<Handler>, ee: Emitter, event: Event)
  {
    exists h :: h in handlers && h.RaceHandler? && h.ee == ee && h.event == event
  }

  /**
   * What the live record waits for: 'end' and 'finish' on the message and, once
   * its socket race is attached, 'error' and 'close' on that socket.
   */
  ghost predicate Subscribed(current: Option<nat>, records: seq<Record>, races: seq<Race>, ee: Emitter, event: Event)
  {
    && current.Some? && current.value < |records|
    && var r := records[current.value];
       || (ee == MessageEmitter && (event == End || event == Finish))
       || (&& r.eeSocket != r.eeMsg && r.eeSocket < |races| && |races[r.eeSocket].cleanups| > 0
           && races[r.eeSocket].cleanups[0].RaceHandler?
           && (event == Error || event == Close) && ee == races[r.eeSocket].cleanups[0].ee)
  }

  /**
   * The wiring of a fresh record: it waits for 'end' and 'finish' on the message
   * and, with the socket known, for 'error' and 'close' on it, else for the socket.
   */
  ghost predicate Awaits(current: Option<nat>, records: seq<Record>, races: seq<Race>,
                         handlers: set<Handler>, socket: Option<Socket>)
  {
    && Subscribed(current, records, races, MessageEmitter, End)
    && Subscribed(current, records, races, MessageEmitter, Finish)
    && (socket.Some? ==>
          Subscribed(current, records, races, SocketEmitter(socket.value.id), Error) &&
          Subscribed(current, records, races, SocketEmitter(socket.value.id), Close))
    && (socket.None? ==> current.Some? && SocketWatch(current.value) in handlers)
  }

  /** The handlers attached for an event are exactly the live record's subscriptions. */
  lemma {:induction false} ListeningIsSubscribed(current: Option<nat>, records: seq<Record>, races: seq<Race>,
                                                handlers: set<Handler>, ee: Emitter, event: Event)
    requires Coherent(current, records, races, handlers)
    ensures Listening(handlers, ee, event) <==> Subscribed(current, records, races, ee, event)
  {
    if Listening(handlers, ee, event) {
      var h :| h in handlers && h.RaceHandler? && h.ee == ee && h.event == event;
      assert HandlerOk(records, races, current, h);
      var rid := races[h.race].record;
      assert Wired(records, races, handlers, rid);
    }
    if Subscribed(current, records, races, ee, event) {
      var r := records[current.value];
      assert Wired(records, races, handlers, current.value);
      if ee == MessageEmitter && (event == End || event == Finish) {
        var h := RaceHandler(r.eeMsg, if event == End then 0 else 1, MessageEmitter, event);
        assert h in handlers;
      } else {
        var e := races[r.eeSocket].cleanups[0].ee;
        var h := RaceHandler(r.eeSocket, if event == Error then 0 else 1, e, event);
        assert h in handlers;
      }
    }
  }

  /**
   * At most one attached handler listens for an event on an emitter, so Node's
   * emit, which calls every listener of the event, calls one of the tracker's.
   */
  lemma OneHandlerPerEvent(current: Option<nat>, records: seq<Record>, races: seq<Race>,
                           handlers: set<Handler>, h1: Handler, h2: Handler)
    requires Coherent(current, records, races, handlers)
    requires h1 in handlers && h1.RaceHandler? && h2 in handlers && h2.RaceHandler?
    requires h1.ee == h2.ee && h1.event == h2.event
    ensures h1 == h2
  {
    assert HandlerOk(records, races, current, h1) && HandlerOk(records, races, current, h2);
    var rid := current.value;
    assert Wired(records, races, handlers, rid);
  }

  /** Queueing a listener on the live record keeps the invariant and extends the live queue. */
  lemma AppendKeepsCoherent(current: Option<nat>, records: seq<Record>, races: seq<Race>,
                            handlers: set<Handler>, l: Listener)
    requires Coherent(current, records, races, handlers) && current.Some?
    requires current.value < |records| && records[current.value].queue.Some?
    ensures var rid := current.value;
            var records' := records[rid := records[rid].(queue := Some(records[rid].queue.value + [l]))];
            && Coherent(current, records', races, handlers)
            && LiveQueue(records', current) == LiveQueue(records, current) + [l]
  {
    var rid := current.value;
    var records' := records[rid := records[rid].(queue := Some(records[rid].queue.value + [l]))];
    assert RecordOk(records, races, current, rid);
    forall i | 0 <= i < |records'| ensures RecordOk(records', races, current, i) {
      assert RecordOk(records, races, current, i);
    }
    forall h | h in handlers ensures HandlerOk(records', races, current, h) {
      assert HandlerOk(records, races, current, h);
    }
    assert Wired(records, races, handlers, rid);
  }

  /**
   * A fresh record, wired by `attachFinishedListener` while no record is live,
   * becomes the live record with an empty queue and keeps the invariant. It waits
   * on the message and, when the socket `sid` is known, on that socket, else for
   * the socket to be assigned.
   */
  lemma WireNewRecord(records: seq<Record>, races: seq<Race>, handlers: set<Handler>,
                      records': seq<Record>, races': seq<Race>, handlers': set<Handler>, sid: Option<SocketId>)
    requires Coherent(None, records, races, handlers)
    requires var rid, k := |records|, |races|;
             && |records'| == rid + 1 && records'[..rid] == records
             && records'[rid] == Record(Some([]), false, k, if sid.Some? then k + 1 else k)
             && (sid.Some? ==>
                   && races' == races + [Race(rid, RacePair(k, MessageEmitter, End, Finish)),
                                         Race(rid, RacePair(k + 1, SocketEmitter(sid.value), Error, Close))]
                   && handlers' == (handlers - {SocketWatch(rid)})
                                     + {RaceHandler(k, 0, MessageEmitter, End), RaceHandler(k, 1, MessageEmitter, Finish)}
                                     + {RaceHandler(k + 1, 0, SocketEmitter(sid.value), Error),
                                        RaceHandler(k + 1, 1, SocketEmitter(sid.value), Close)})
             && (sid.None? ==>
                   && races' == races + [Race(rid, RacePair(k, MessageEmitter, End, Finish))]
                   && handlers' == handlers
                                     + {RaceHandler(k, 0, MessageEmitter, End), RaceHandler(k, 1, MessageEmitter, Finish)}
                                     + {SocketWatch(rid)})
    ensures Coherent(Some(|records|), records', races', handlers')
    ensures LiveQueue(records', Some(|records|)) == []
    ensures Subscribed(Some(|records|), records', races', MessageEmitter, End)
    ensures Subscribed(Some(|records|), records', races', MessageEmitter, Finish)
    ensures sid.Some? ==> Subscribed(Some(|records|), records', races', SocketEmitter(sid.value), Error)
    ensures sid.Some? ==> Subscribed(Some(|records|), records', races', SocketEmitter(sid.value), Close)
    ensures sid.None? ==> SocketWatch(|records|) in handlers'
  {
    var rid := |records|;
    assert SocketWatch(rid) !in handlers;
    forall i | 0 <= i < |records'| ensures RecordOk(records', races', Some(rid), i) {
      if i < rid {
        assert records'[i] == records[i];
        assert RecordOk(records, races, None, i);
      }
    }
    forall h | h in handlers' ensures HandlerOk(records', races', Some(rid), h) {
      if h in handlers {
        assert HandlerOk(records, races, None, h);
        if h.SocketWatch? {
          assert h.record < |records|;
        }
      }
    }
  }

  /** Every registered listener has been called, is scheduled, or is queued, exactly once. */
  ghost predicate Conserved(registered: seq<Listener>, log: seq<Call>, pending: seq<Call>,
                            records: seq<Record>, current: Option<nat>)
  {
    multiset(registered) == multiset(Listeners(log)) + multiset(Listeners(pending)) + multiset(LiveQueue(records, current))
  }

  /**
   * The live record finishing with `err`: both races cancelled, the queue drained
   * into the log. No record is live afterwards, no race handler stays attached,
   * and every listener is still accounted for exactly once.
   */
  lemma FinishKeepsCoherent(rid: nat, records: seq<Record>, races: seq<Race>, handlers: set<Handler>,
                            registered: seq<Listener>, log: seq<Call>, pending: seq<Call>, err: Option<string>)
    requires Coherent(Some(rid), records, races, handlers)
    requires Conserved(registered, log, pending, records, Some(rid))
    ensures rid < |records| && records[rid].queue.Some?
    ensures var records' := records[rid := records[rid].(queue := None, finished := true)];
            var handlers' := handlers - RaceHandlersOf(records, races, rid);
            && Coherent(None, records', races, handlers')
            && (forall h | h in handlers' :: h.SocketWatch?)
            && Conserved(registered, log + CallsOf(records[rid].queue.value, err), pending, records', None)
  {
    assert Wired(records, races, handlers, rid);
    assert RecordOk(records, races, Some(rid), rid);
    var records' := records[rid := records[rid].(queue := None, finished := true)];
    var handlers' := handlers - RaceHandlersOf(records, races, rid);
    forall i | 0 <= i < |records'| ensures RecordOk(records', races, None, i) {
      assert RecordOk(records, races, Some(rid), i);
    }
    forall h | h in handlers' ensures HandlerOk(records', races, None, h) && h.SocketWatch? {
      assert HandlerOk(records, races, Some(rid), h);
    }
    var queue := records[rid].queue.value;
    DrainCallsEachOnce(queue, err);
    ListenersAppend(log, CallsOf(queue, err));
  }

  /**
   * The 'socket' event reaching the watch of record `i`. Only the live record
   * attaches a socket race; a finished one only stops watching.
   */
  lemma SocketWatchFires(current: Option<nat>, records: seq<Record>, races: seq<Race>,
                         handlers: set<Handler>, i: nat, sid: SocketId)
    requires Coherent(current, records, races, handlers) && SocketWatch(i) in handlers
    ensures i < |records|
    ensures (!records[i].finished && records[i].eeMsg == records[i].eeSocket) <==> current == Some(i)
    ensures current != Some(i) ==> Coherent(current, records, races, handlers - {SocketWatch(i)})
    ensures current == Some(i) ==>
              var k := |races|;
              && Coherent(current, records[i := records[i].(eeSocket := k)],
                          races + [Race(i, RacePair(k, SocketEmitter(sid), Error, Close))],
                          (handlers - {SocketWatch(i)})
                            + {RaceHandler(k, 0, SocketEmitter(sid), Error), RaceHandler(k, 1, SocketEmitter(sid), Close)})
              && LiveQueue(records[i := records[i].(eeSocket := k)], current) == LiveQueue(records, current)
  {
    assert HandlerOk(records, races, current, SocketWatch(i));
    assert RecordOk(records, races, current, i);
    if current.Some? {
      assert Wired(records, races, handlers, current.value);
    }
    if current != Some(i) {
      var handlers' := handlers - {SocketWatch(i)};
      forall h | h in handlers' ensures HandlerOk(records, races, current, h) {
        assert HandlerOk(records, races, current, h);
      }
    } else {
      var k := |races|;
      var records' := records[i := records[i].(eeSocket := k)];
      var races' := races + [Race(i, RacePair(k, SocketEmitter(sid), Error, Close))];
      var handlers' := (handlers - {SocketWatch(i)})
                         + {RaceHandler(k, 0, SocketEmitter(sid), Error), RaceHandler(k, 1, SocketEmitter(sid), Close)};
      forall j | 0 <= j < |records'| ensures RecordOk(records', races', current, j) {
        assert RecordOk(records, races, current, j);
      }
      forall h | h in handlers' ensures HandlerOk(records', races', current, h) {
        if h in handlers {
          assert HandlerOk(records, races, current, h);
        }
      }
    }
  }

  class Message {
    /** The fields `isFinished` reads; the transport changes them as the message progresses. */
    var shape: Shape
    /** `msg.socket`. */
    var socket: Option<Socket>
    /** `msg.__onFinished`: the record in use, by index. */
    var current: Option<nat>
    /** Every record ever created for this message, by index. */
    var records: seq<Record>
    /** Every `first` call made for this message, by index. */
    var races: seq<Race>
    /** The handlers the tracker has attached and not yet removed. */
    var handlers: set<Handler>
    /** Calls scheduled with `setImmediate`, oldest first. */
    var pending: seq<Call>
    /** Listener calls made so far, in order. */
    var log: seq<Call>
    /** Every listener passed to `OnFinished`, in order. */
    ghost var registered: seq<Listener>

    /**
     * The tracker's invariant, and every registered listener has been called,
     * is scheduled, or is queued, exactly once.
     */
    ghost predicate Valid()
      reads this
    {
      && Coherent(current, records, races, handlers)
      && Conserved(registered, log, pending, records, current)
    }

    constructor (shape: Shape, socket: Option<Socket>)
      ensures Valid()
      ensures this.shape == shape && this.socket == socket
      ensures current == None && records == [] && races == [] && handlers == {}
      ensures pending == [] && log == [] && registered == []
    {
      this.shape := shape;
      this.socket := socket;
      current := None;
      records := [];
      races := [];
      handlers := {};
      pending := [];
      log := [];
      registered := [];
    }

    /** `onFinished(msg, listener)`: returns the message itself. */
    method OnFinished(listener: Listener) returns (m: Message)
      requires Valid()
      modifies this`records, this`current, this`races, this`handlers, this`registered, this`pending
      ensures Valid()
      ensures m == this
      ensures registered == old(registered) + [listener]
      ensures old(IsFinished(shape, socket)) != Some(false) ==>
                && pending == old(pending) + [Call(listener, None)]
                && current == old(current) && records == old(records)
                && races == old(races) && handlers == old(handlers)
      ensures old(IsFinished(shape, socket)) == Some(false) ==>
                && pending == old(pending)
                && current.Some?
                && LiveQueue(records, current) == old(LiveQueue(records, current)) + [listener]
                && Subscribed(current, records, races, MessageEmitter, End)
                && Subscribed(current, records, races, MessageEmitter, Finish)
      ensures old(IsFinished(shape, socket)) == Some(false) && old(current).Some? ==>
                current == old(current) && races == old(races) && handlers == old(handlers)
      ensures old(IsFinished(shape, socket)) == Some(false) && old(current).None? ==>
                && Awaits(current, records, races, handlers, socket)
                && old(handlers) <= handlers && |records| == |old(records)| + 1 && records[..|old(records)|] == old(records)
    {
      if IsFinished(shape, socket) != Some(false) {
        Defer(listener);
      } else {
        AttachListener(listener);
      }
      return this;
    }

    /** `setImmediate(listener, null, msg)`: the call is scheduled, not made. */
    method Defer(listener: Listener)
      requires Valid()
      modifies this`registered, this`pending
      ensures Valid()
      ensures registered == old(registered) + [listener]
      ensures pending == old(pending) + [Call(listener, None)]
    {
      registered := registered + [listener];
      pending := pending + [Call(listener, None)];
      ListenersAppend(old(pending), [Call(listener, None)]);
    }

    /** `attachListener(msg, listener)`: queues on the live record, creating and wiring one if there is none. */
    method AttachListener(listener: Listener)
      requires Valid()
      modifies this`records, this`current, this`races, this`handlers, this`registered
      ensures Valid()
      ensures registered == old(registered) + [listener]
      ensures current.Some? && LiveQueue(records, current) == old(LiveQueue(records, current)) + [listener]
      ensures Subscribed(current, records, races, MessageEmitter, End)
      ensures Subscribed(current, records, races, MessageEmitter, Finish)
      ensures old(current).Some? ==> current == old(current) && races == old(races) && handlers == old(handlers)
      ensures old(current).None? ==>
                && Awaits(current, records, races, handlers, socket)
                && old(handlers) <= handlers && |records| == |old(records)| + 1 && records[..|old(records)|] == old(records)
    {
      assert current.Some? ==> RecordOk(records, races, current, current.value);
      if current.None? || records[current.value].queue.None? {
        AttachNewRecord();
      }
      Push(listener);
    }

    /** `attached.queue.push(listener)` on the live record. */
    method Push(listener: Listener)
      requires Valid() && current.Some?
      modifies this`records, this`registered
      ensures Valid()
      ensures registered == old(registered) + [listener]
      ensures LiveQueue(records, current) == old(LiveQueue(records, current)) + [listener]
      ensures records == old(records)[current.value := old(records[current.value]).(queue := Some(old(LiveQueue(records, current)) + [listener]))]
      ensures forall ee, event :: Subscribed(current, records, races, ee, event) == old(Subscribed(current, records, races, ee, event))
      ensures Awaits(current, records, races, handlers, socket) == old(Awaits(current, records, races, handlers, socket))
    {
      var rid := current.value;
      assert RecordOk(records, races, current, rid);
      AppendKeepsCoherent(current, records, races, handlers, listener);
      registered := registered + [listener];
      records := records[rid := records[rid].(queue := Some(records[rid].queue.value + [listener]))];
    }

    /**
     * `msg.__onFinished = createListener(msg)` with an empty queue, then
     * `attachFinishedListener(msg, attached)`.
     */
    method AttachNewRecord()
      requires Valid() && current.None?
      modifies this`records, this`current, this`races, this`handlers
      ensures Valid()
      ensures current == Some(|old(records)|) && LiveQueue(records, current) == []
      ensures Awaits(current, records, races, handlers, socket)
      ensures old(handlers) <= handlers && |records| == |old(records)| + 1 && records[..|old(records)|] == old(records)
    {
      var rid := |records|;
      records := records + [Record(Some([]), false, 0, 0)];
      current := Some(rid);
      AttachFinishedListener(rid);
      WireNewRecord(old(records), old(races), old(handlers), records, races, handlers,
                    if socket.Some? then Some(socket.value.id) else None);
    }

    /**
     * `attachFinishedListener(msg, record)`: races the message's 'end' and 'finish'
     * against its socket's 'error' and 'close'. The socket race is attached now if
     * the socket is known, and otherwise when the socket is assigned.
     */
    method AttachFinishedListener(rid: nat)
      requires rid < |records| && !records[rid].finished
      modifies this`records, this`races, this`handlers
      ensures var k := |old(races)|;
              old(socket).Some? ==>
                && races == old(races) + [Race(rid, RacePair(k, MessageEmitter, End, Finish)),
                                          Race(rid, RacePair(k + 1, SocketEmitter(old(socket).value.id), Error, Close))]
                && handlers == (old(handlers) - {SocketWatch(rid)})
                                 + {RaceHandler(k, 0, MessageEmitter, End), RaceHandler(k, 1, MessageEmitter, Finish)}
                                 + {RaceHandler(k + 1, 0, SocketEmitter(old(socket).value.id), Error),
                                    RaceHandler(k + 1, 1, SocketEmitter(old(socket).value.id), Close)}
                && records == old(records)[rid := old(records[rid]).(eeMsg := k, eeSocket := k + 1)]
      ensures var k := |old(races)|;
              old(socket).None? ==>
                && races == old(races) + [Race(rid, RacePair(k, MessageEmitter, End, Finish))]
                && handlers == old(handlers)
                                 + {RaceHandler(k, 0, MessageEmitter, End), RaceHandler(k, 1, MessageEmitter, Finish)}
                                 + {SocketWatch(rid)}
                && records == old(records)[rid := old(records[rid]).(eeMsg := k, eeSocket := k)]
    {
      var k := |races|;
      var subscribed := FirstPair(k, MessageEmitter, End, Finish);
      races := races + [Race(rid, subscribed)];
      handlers := handlers + (set h | h in subscribed);
      records := records[rid := records[rid].(eeMsg := k, eeSocket := k)];
      if socket.Some? {
        OnSocket(rid, socket.value);
      } else {
        handlers := handlers + {SocketWatch(rid)};
      }
    }

    /**
     * `onSocket(socket)` of record `rid`: stops watching for the socket, then
     * attaches the socket race unless the record has finished or already has one.
     */
    method OnSocket(rid: nat, s: Socket)
      requires rid < |records|
      modifies this`records, this`races, this`handlers
      ensures var k := |old(races)|;
              var attach := !old(records[rid].finished) && old(records[rid].eeMsg == records[rid].eeSocket);
              && (attach ==>
                    && races == old(races) + [Race(rid, RacePair(k, SocketEmitter(s.id), Error, Close))]
                    && handlers == (old(handlers) - {SocketWatch(rid)})
                                     + {RaceHandler(k, 0, SocketEmitter(s.id), Error), RaceHandler(k, 1, SocketEmitter(s.id), Close)}
                    && records == old(records)[rid := old(records[rid]).(eeSocket := k)])
              && (!attach ==>
                    races == old(races) && handlers == old(handlers) - {SocketWatch(rid)} && records == old(records))
    {
      handlers := handlers - {SocketWatch(rid)};
      if records[rid].finished {
        return;
      }
      if records[rid].eeMsg != records[rid].eeSocket {
        return;
      }
      var k := |races|;
      var subscribed := FirstPair(k, SocketEmitter(s.id), Error, Close);
      races := races + [Race(rid, subscribed)];
      handlers := handlers + (set h | h in subscribed);
      records := records[rid := records[rid].(eeSocket := k)];
    }

    /**
     * `ee.emit(event, arg1)` for a race event. Node calls every handler attached
     * for the event; the tracker has at most one attached for each race event
     * (`OneHandlerPerEvent`).
     */
    method Emit(ee: Emitter, event: Event, arg1: string)
      requires Valid()
      modifies this`handlers, this`records, this`current, this`log
      ensures Valid()
      ensures old(Subscribed(current, records, races, ee, event)) ==>
                var rid := old(current).value;
                && log == old(log) + CallsOf(old(LiveQueue(records, current)), ListenerError(event, arg1))
                && current.None?
                && records == old(records)[rid := old(records[rid]).(queue := None, finished := true)]
                && handlers == old(handlers) - RaceHandlersOf(old(records), old(races), rid)
      ensures !old(Subscribed(current, records, races, ee, event)) ==>
                log == old(log) && current == old(current) && records == old(records) && handlers == old(handlers)
    {
      ListeningIsSubscribed(current, records, races, handlers, ee, event);
      if h :| h in handlers && h.RaceHandler? && h.ee == ee && h.event == event {
        assert HandlerOk(records, races, current, h);
        // listener(event, callback): the error it passes on
        var err := ListenerError(h.event, arg1);
        RaceCallback(h.race, err);
      }
    }

    /** `callback` of race `k`: `cleanup()`, then `done(err, ...)`, which is the record's `onFinish`. */
    method RaceCallback(k: nat, err: Option<string>)
      requires Valid()
      requires k < |races| && current == Some(races[k].record)
      requires k == records[races[k].record].eeMsg || k == records[races[k].record].eeSocket
      modifies this`handlers, this`records, this`current, this`log
      ensures Valid()
      ensures var rid := old(current).value;
              && log == old(log) + CallsOf(old(LiveQueue(records, current)), err)
              && current.None?
              && records == old(records)[rid := old(records[rid]).(queue := None, finished := true)]
              && handlers == old(handlers) - RaceHandlersOf(old(records), old(races), rid)
    {
      var rid := races[k].record;
      FinishKeepsCoherent(rid, records, races, handlers, registered, log, pending, err);
      ghost var records' := records[rid := records[rid].(queue := None, finished := true)];
      ghost var log' := log + CallsOf(records[rid].queue.value, err);
      ghost var both := RaceHandlersOf(records, races, rid);
      ghost var handlers' := handlers - both;
      assert (set x | x in races[k].cleanups) <= both;
      Cancel(k);
      ghost var cancelled := handlers;
      OnFinish(rid, err);
      assert handlers == handlers' by {
        assert handlers == cancelled - both;
      }
      assert records == records' && log == log';
    }

    /** `onFinish(error)` of record `rid`: cancels both races, marks it finished, fires the record. */
    method OnFinish(rid: nat, err: Option<string>)
      requires rid < |records| && records[rid].eeMsg < |races| && records[rid].eeSocket < |races|
      modifies this`handlers, this`records, this`current, this`log
      ensures handlers == old(handlers) - RaceHandlersOf(old(records), races, rid)
      ensures current == if old(current) == Some(rid) then None else old(current)
      ensures old(records[rid].queue).None? ==>
                records == old(records)[rid := old(records[rid]).(finished := true)] && log == old(log)
      ensures old(records[rid].queue).Some? ==>
                && records == old(records)[rid := old(records[rid]).(finished := true, queue := None)]
                && log == old(log) + CallsOf(old(records[rid].queue.value), err)
    {
      Cancel(records[rid].eeMsg);
      Cancel(records[rid].eeSocket);
      records := records[rid := records[rid].(finished := true)];
      Fire(rid, err);
    }

    /** `thunk.cancel()` of race `k`: removes each handler of its cleanup list. */
    method Cancel(k: nat)
      requires k < |races|
      modifies this`handlers
      ensures handlers == old(handlers) - (set h | h in races[k].cleanups)
    {
      var cleanups := races[k].cleanups;
      for i := 0 to |cleanups|
        modifies this`handlers
        invariant handlers == old(handlers) - (set j | 0 <= j < i :: cleanups[j])
      {
        handlers := handlers - {cleanups[i]};
      }
      assert (set j | 0 <= j < |cleanups| :: cleanups[j]) == (set h | h in cleanups);
    }

    /**
     * The record's function from `createListener`, called with `err`: it clears
     * `msg.__onFinished` if that is still this record. Then, once only, it nulls
     * the queue and calls every queued listener, in order.
     */
    method Fire(rid: nat, err: Option<string>)
      requires rid < |records|
      modifies this`current, this`records, this`log
      ensures current == if old(current) == Some(rid) then None else old(current)
      ensures old(records[rid].queue).None? ==> records == old(records) && log == old(log)
      ensures old(records[rid].queue).Some? ==>
                && records == old(records)[rid := old(records[rid]).(queue := None)]
                && log == old(log) + CallsOf(old(records[rid].queue.value), err)
    {
      if current == Some(rid) {
        current := None;
      }
      if records[rid].queue.None? {
        return;
      }
      var queue := records[rid].queue.value;
      records := records[rid := records[rid].(queue := None)];
      for i := 0 to |queue|
        modifies this`log
        invariant log == old(log) + CallsOf(queue[..i], err)
      {
        assert CallsOf(queue[..i + 1], err) == CallsOf(queue[..i], err) + [Call(queue[i], err)];
        log := log + [Call(queue[i], err)];
      }
      assert queue[..|queue|] == queue;
    }

    /**
     * The transport assigns socket `s` and emits 'socket': every record still
     * waiting for it stops waiting. The live record gets its socket race, unless
     * it already has one.
     */
    method AssignSocket(s: Socket)
      requires Valid()
      modifies this`socket, this`records, this`races, this`handlers
      ensures Valid()
      ensures socket == Some(s)
      ensures forall h | h in handlers :: !h.SocketWatch?
      ensures LiveQueue(records, current) == old(LiveQueue(records, current))
      ensures old(current).Some? && old(records[current.value].eeSocket == records[current.value].eeMsg) ==>
                Subscribed(current, records, races, SocketEmitter(s.id), Error) &&
                Subscribed(current, records, races, SocketEmitter(s.id), Close)
      ensures !(old(current).Some? && old(records[current.value].eeSocket == records[current.value].eeMsg)) ==>
                records == old(records) && races == old(races)
    {
      socket := Some(s);
      // the 'socket' listeners attached when the event is emitted
      var watches := SocketWatches(handlers);
      ghost var attach := current.Some? && records[current.value].eeSocket == records[current.value].eeMsg;
      assert current.Some? ==> (attach <==> SocketWatch(current.value) in handlers) by {
        if current.Some? {
          assert Wired(records, races, handlers, current.value);
        }
      }
      while watches != {}
        invariant Valid()
        invariant watches == SocketWatches(handlers)
        invariant socket == Some(s)
        invariant LiveQueue(records, current) == old(LiveQueue(records, current))
        invariant attach ==>
                    || SocketWatch(current.value) in handlers
                    || (Subscribed(current, records, races, SocketEmitter(s.id), Error) &&
                        Subscribed(current, records, races, SocketEmitter(s.id), Close))
        invariant !attach ==>
                    && (current.Some? ==> SocketWatch(current.value) !in handlers)
                    && records == old(records) && races == old(races)
        decreases watches
      {
        var w :| w in watches;
        assert w == SocketWatch(w.record) && w in handlers;
        assert !attach ==> current != Some(w.record);
        ghost var live := current == Some(w.record);
        ghost var before := handlers;
        DeliverSocket(w.record, s);
        if !live {
          assert handlers == before - {w};
        }
        watches := watches - {w};
      }
      assert forall h | h in handlers && h.SocketWatch? :: h in watches;
    }

    /** The 'socket' listeners among the attached handlers. */
    static function SocketWatches(hs: set<Handler>): set<Handler>
    {
      set h | h in hs && h.SocketWatch?
    }

    /** The 'socket' event reaching the `onSocket` of record `i`. */
    method DeliverSocket(i: nat, s: Socket)
      requires Valid() && SocketWatch(i) in handlers
      modifies this`records, this`races, this`handlers
      ensures Valid()
      ensures LiveQueue(records, current) == old(LiveQueue(records, current))
      ensures SocketWatches(handlers) == SocketWatches(old(handlers)) - {SocketWatch(i)}
      ensures current == Some(i) ==>
                && old(records[i].eeSocket == records[i].eeMsg)
                && Subscribed(current, records, races, SocketEmitter(s.id), Error)
                && Subscribed(current, records, races, SocketEmitter(s.id), Close)
      ensures current != Some(i) ==>
                records == old(records) && races == old(races) && handlers == old(handlers) - {SocketWatch(i)}
    {
      SocketWatchFires(current, records, races, handlers, i, s.id);
      OnSocket(i, s);
    }

    /** The scheduler runs the oldest call deferred by `onFinished`. */
    method RunDeferred()
      requires Valid()
      modifies this`pending, this`log
      ensures Valid()
      ensures old(pending) == [] ==> pending == [] && log == old(log)
      ensures old(pending) != [] ==> pending == old(pending)[1..] && log == old(log) + [old(pending)[0]]
    {
      if pending != [] {
        var call := pending[0];
        pending := pending[1..];
        log := log + [call];
        ListenersAppend(old(log), [call]);
        assert old(pending) == [call] + pending;
        ListenersAppend([call], pending);
      }
    }
  }
}

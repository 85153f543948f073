/**
 The in-memory events broker: two registries of handlers, delivery that turns every failure into a record, and bounded
 retries of those records. The oracle gives the outcome of each call of a handler in turn. Publications and retry runs
 do not overlap; a handler may take any time.
 */
module EventsBroker {
  import opened OrderedMaps
  import opened Wrappers

  datatype Event = Event(eventId: string, occurredAt: int, name: string, payload: string)

  datatype Config = Config(retries: Option<int>, disabled: bool)

  datatype Handler = Named(id: string, config: Config, eventName: string) | Universal(id: string, config: Config)

  datatype Reply = Reply(error: Option<string>, latency: nat)

  type Oracle = nat -> Reply

  // One call of a handler: a delivery of its own, or the retry of a failed record.
  datatype Call = Call(handler: Handler, event: Event, session: string, retryOf: Option<nat>, error: Option<string>)

  datatype Record = Record(
    id: nat,
    event: Event,
    eventOccurredAt: int,
    handlerId: string,
    handlerMaxRetries: int,
    session: string,
    retries: int,
    lastError: string,
    lastTryAt: int,
    processed: bool)

  datatype Registry = Registry(universal: seq<Handler>, named: OrderedMap<string, seq<Handler>>)

  datatype State = State(now: int, ids: nat, registry: Registry, records: OrderedMap<nat, Record>, calls: seq<Call>)

  datatype RegistrationError = AlreadyRegistered(id: string)

  datatype Step =
    | Publish(event: Event, session: string)
    | RetryFailedEvents
    | RegisterEventHandler(handler: Handler)
    | RegisterUniversalEventHandler(handler: Handler)
    | Clear
    | Elapse(ms: nat)

  const Init := State(0, 0, Registry([], Empty()), Empty(), [])

  // ----- The registry -----

  // JavaScript's find: the first handler with that id.
  function FindId(handlers: seq<Handler>, id: string): Option<Handler> {
    if handlers == [] then None
    else if handlers[0].id == id then Some(handlers[0])
    else FindId(handlers[1..], id)
  }

  function ListOf(registry: Registry, name: string): seq<Handler> {
    if name in registry.named.at then registry.named.at[name] else []
  }

  // Whom a publication of that name reaches, in order.
  function Audience(registry: Registry, name: string): seq<Handler> {
    registry.universal + ListOf(registry, name)
  }

  // Whom a retry looks for: first among the handlers of the event, then among the universal ones.
  function FindHandler(registry: Registry, name: string, id: string): Option<Handler> {
    var found := FindId(ListOf(registry, name), id);
    if found.Some? then found else FindId(registry.universal, id)
  }

  predicate InLists(registry: Registry, names: seq<string>, id: string) {
    names != [] && (FindId(ListOf(registry, names[0]), id).Some? || InLists(registry, names[1..], id))
  }

  predicate Taken(registry: Registry, id: string) {
    FindId(registry.universal, id).Some? || InLists(registry, registry.named.keys, id)
  }

  function RegisterNamed(registry: Registry, handler: Handler): Result<Registry, RegistrationError>
    requires handler.Named?
  {
    if handler.config.disabled then Success(registry)
    else if Taken(registry, handler.id) then Failure(AlreadyRegistered(handler.id))
    else
      var list := ListOf(registry, handler.eventName) + [handler];
      Success(registry.(named := registry.named.Set(handler.eventName, list)))
  }

  function RegisterUniversal(registry: Registry, handler: Handler): Result<Registry, RegistrationError>
    requires handler.Universal?
  {
    if handler.config.disabled then Success(registry)
    else if Taken(registry, handler.id) then Failure(AlreadyRegistered(handler.id))
    else Success(registry.(universal := registry.universal + [handler]))
  }

  ghost predicate Distinct(handlers: seq<Handler>) {
    forall i, j :: 0 <= i < j < |handlers| ==> handlers[i].id != handlers[j].id
  }

  ghost predicate Apart(a: seq<Handler>, b: seq<Handler>) {
    forall g, h :: g in a && h in b ==> g.id != h.id
  }

  ghost predicate OwnList(universal: seq<Handler>, name: string, list: seq<Handler>) {
    && Distinct(list) && Apart(universal, list)
    && forall h :: h in list ==> h.Named? && h.eventName == name && !h.config.disabled
  }

  /** No id is registered twice, each list holds handlers of its own event, and nothing disabled is registered. */
  ghost predicate Consistent(registry: Registry) {
    && registry.named.Valid()
    && Distinct(registry.universal)
    && (forall h :: h in registry.universal ==> h.Universal? && !h.config.disabled)
    && (forall name :: name in registry.named.at ==> OwnList(registry.universal, name, registry.named.at[name]))
    && (forall a, b :: a in registry.named.at && b in registry.named.at && a != b ==>
          Apart(registry.named.at[a], registry.named.at[b]))
  }

  ghost predicate Registered(registry: Registry, handler: Handler) {
    handler in registry.universal || exists name :: name in registry.named.at && handler in registry.named.at[name]
  }

  lemma {:induction false} FindIdFinds(handlers: seq<Handler>, id: string)
    ensures var found := FindId(handlers, id);
            && (found.Some? ==> found.value in handlers && found.value.id == id)
            && (found.None? ==> forall h :: h in handlers ==> h.id != id)
  {
    if handlers != [] {
      assert handlers == [handlers[0]] + handlers[1..];
      FindIdFinds(handlers[1..], id);
    }
  }

  lemma {:induction false} InListsFinds(registry: Registry, names: seq<string>, id: string)
    ensures InLists(registry, names, id) <==>
            exists name, h :: name in names && h in ListOf(registry, name) && h.id == id
  {
    if names != [] {
      assert names == [names[0]] + names[1..];
      FindIdFinds(ListOf(registry, names[0]), id);
      InListsFinds(registry, names[1..], id);
    }
  }

  /** An id is refused exactly when some registered handler, of any event or of all, already has it. */
  lemma {:induction false} TakenIff(registry: Registry, id: string)
    requires Consistent(registry)
    ensures Taken(registry, id) <==> exists h :: Registered(registry, h) && h.id == id
  {
    FindIdFinds(registry.universal, id);
    InListsFinds(registry, registry.named.keys, id);
    if h :| Registered(registry, h) && h.id == id {
      if h !in registry.universal {
        var name :| name in registry.named.at && h in registry.named.at[name];
        assert name in registry.named.keys && h in ListOf(registry, name);
      }
    }
    if InLists(registry, registry.named.keys, id) {
      var name, h :| name in registry.named.keys && h in ListOf(registry, name) && h.id == id;
      assert Registered(registry, h);
    } else if FindId(registry.universal, id).Some? {
      assert Registered(registry, FindId(registry.universal, id).value);
    }
  }

  /** A retry finds exactly the handler of that id that a publication of the same event would reach. */
  lemma {:induction false} FindsAudience(registry: Registry, name: string, id: string, handler: Handler)
    requires Consistent(registry)
    ensures FindHandler(registry, name, id) == Some(handler) <==> handler in Audience(registry, name) && handler.id == id
    ensures handler in Audience(registry, name) <==>
            Registered(registry, handler) && (handler.Universal? || handler.eventName == name)
  {
    FindIdFinds(ListOf(registry, name), id);
    FindIdFinds(registry.universal, id);
  }

  /** Registered handlers with one id are one handler. */
  lemma {:induction false} OneHandlerPerId(registry: Registry, g: Handler, h: Handler)
    requires Consistent(registry) && Registered(registry, g) && Registered(registry, h) && g.id == h.id
    ensures g == h
  {
  }

  ghost predicate Unused(registry: Registry, id: string) {
    forall h :: Registered(registry, h) ==> h.id != id
  }

  lemma {:induction false} PushDistinct(handlers: seq<Handler>, other: seq<Handler>, last: Handler)
    requires Distinct(handlers) && forall h :: h in handlers ==> h.id != last.id
    requires Apart(other, handlers) && forall h :: h in other ==> h.id != last.id
    ensures Distinct(handlers + [last]) && Apart(other, handlers + [last]) && Apart(handlers + [last], other)
  {
    assert forall h :: h in handlers + [last] <==> h in handlers || h == last;
  }

  lemma {:induction false} UnusedList(registry: Registry, name: string, id: string)
    requires Unused(registry, id)
    ensures forall h :: h in ListOf(registry, name) ==> h.id != id
    ensures forall h :: h in registry.universal ==> h.id != id
  {
    forall h | h in ListOf(registry, name) ensures h.id != id {
      assert Registered(registry, h);
    }
    forall h | h in registry.universal ensures h.id != id {
      assert Registered(registry, h);
    }
  }

  lemma {:induction false} JoinsOwnList(registry: Registry, handler: Handler)
    requires Consistent(registry) && handler.Named? && !handler.config.disabled && Unused(registry, handler.id)
    ensures OwnList(registry.universal, handler.eventName, ListOf(registry, handler.eventName) + [handler])
  {
    hide Distinct, Apart, Registered, Unused;
    var name, before := handler.eventName, ListOf(registry, handler.eventName);
    EmptyApart(registry.universal);
    UnusedList(registry, name, handler.id);
    PushDistinct(before, registry.universal, handler);
    assert forall h :: h in before + [handler] <==> h in before || h == handler;
  }

  lemma {:induction false} JoinsApart(registry: Registry, handler: Handler, other: string)
    requires Consistent(registry) && handler.Named? && Unused(registry, handler.id)
    requires other in registry.named.at && other != handler.eventName
    ensures var list := ListOf(registry, handler.eventName) + [handler];
            Apart(list, registry.named.at[other]) && Apart(registry.named.at[other], list)
  {
    hide Distinct, Apart, Registered, Unused;
    var name, before := handler.eventName, ListOf(registry, handler.eventName);
    UnusedList(registry, name, handler.id);
    UnusedList(registry, other, handler.id);
    EmptyApart(registry.named.at[other]);
    if name in registry.named.at {
      assert OwnList(registry.universal, name, before);
    }
    PushDistinct(before, registry.named.at[other], handler);
  }

  lemma {:induction false} NamedConsistent(registry: Registry, handler: Handler)
    requires Consistent(registry) && handler.Named? && !handler.config.disabled && Unused(registry, handler.id)
    ensures var list := ListOf(registry, handler.eventName) + [handler];
            Consistent(registry.(named := registry.named.Set(handler.eventName, list)))
  {
    hide Distinct, Apart, OwnList, Unused, ListOf;
    var list := ListOf(registry, handler.eventName) + [handler];
    JoinsOwnList(registry, handler);
    forall other | other in registry.named.at && other != handler.eventName
      ensures Apart(list, registry.named.at[other]) && Apart(registry.named.at[other], list)
    {
      JoinsApart(registry, handler, other);
    }
  }

  lemma {:induction false} UniversalConsistent(registry: Registry, handler: Handler)
    requires Consistent(registry) && handler.Universal? && !handler.config.disabled && Unused(registry, handler.id)
    ensures Consistent(registry.(universal := registry.universal + [handler]))
  {
    hide Distinct, Apart, Registered, Unused;
    var universal := registry.universal + [handler];
    assert Apart([], registry.universal) by { EmptyApart(registry.universal); }
    UnusedList(registry, "", handler.id);
    PushDistinct(registry.universal, [], handler);
    forall name | name in registry.named.at ensures Apart(universal, registry.named.at[name]) {
      UnusedList(registry, name, handler.id);
      ApartSwap(registry.universal, registry.named.at[name]);
      PushDistinct(registry.universal, registry.named.at[name], handler);
    }
    assert forall h :: h in universal <==> h in registry.universal || h == handler;
  }

  lemma {:induction false} EmptyApart(handlers: seq<Handler>)
    ensures Distinct([]) && Apart([], handlers) && Apart(handlers, [])
  {
  }

  lemma {:induction false} ApartSwap(a: seq<Handler>, b: seq<Handler>)
    ensures Apart(a, b) <==> Apart(b, a)
  {
  }

  lemma {:induction false} RegisteredAfter(registry: Registry, handler: Handler, h: Handler)
    requires Consistent(registry)
    ensures handler.Universal? ==>
              (Registered(registry.(universal := registry.universal + [handler]), h)
               <==> Registered(registry, h) || h == handler)
    ensures handler.Named? ==>
              var list := ListOf(registry, handler.eventName) + [handler];
              (Registered(registry.(named := registry.named.Set(handler.eventName, list)), h)
               <==> Registered(registry, h) || h == handler)
  {
    hide Consistent;
    if handler.Named? {
      var name, list := handler.eventName, ListOf(registry, handler.eventName) + [handler];
      var at := registry.named.at[name := list];
      assert name in at && handler in at[name];
      forall other | other in registry.named.at && h in registry.named.at[other] ensures other in at && h in at[other] {
      }
    }
  }

  // Handlers are only added, at the end of their list.
  ghost predicate Grows(registry: Registry, registry': Registry) {
    registry.universal <= registry'.universal && forall name: string :: ListOf(registry, name) <= ListOf(registry', name)
  }

  // What registering leaves: refused for an id in use, ignored when disabled, and otherwise one more handler.
  ghost predicate RegisteredOne(registry: Registry, handler: Handler, r: Result<Registry, RegistrationError>) {
    && (r.Failure? <==> !handler.config.disabled && !Unused(registry, handler.id))
    && (r.Failure? ==> r.error.id == handler.id)
    && (r.Success? ==>
         && Consistent(r.value)
         && Grows(registry, r.value)
         && forall h :: Registered(r.value, h) <==> Registered(registry, h) || (h == handler && !handler.config.disabled))
  }

  lemma {:induction false} RegisterConsistent(registry: Registry, handler: Handler)
    requires Consistent(registry)
    ensures RegisteredOne(registry, handler,
              if handler.Named? then RegisterNamed(registry, handler) else RegisterUniversal(registry, handler))
  {
    hide Distinct, Apart, Registered, Consistent, Taken;
    TakenIff(registry, handler.id);
    if !handler.config.disabled && !Taken(registry, handler.id) {
      if handler.Named? {
        NamedConsistent(registry, handler);
      } else {
        UniversalConsistent(registry, handler);
      }
      forall h { RegisteredAfter(registry, handler, h); }
    }
  }

  // ----- Deliveries and retries -----

  function MaxRetries(handler: Handler): int {
    if handler.config.retries.Some? then handler.config.retries.value else 0
  }

  function Handle(o: Oracle, s: State, handler: Handler, event: Event, session: string, retryOf: Option<nat>): State {
    var reply := o(|s.calls|);
    s.(now := s.now + reply.latency, calls := s.calls + [Call(handler, event, session, retryOf, reply.error)])
  }

  function SaveFailure(s: State, handler: Handler, event: Event, session: string, error: string): State {
    var record := Record(s.ids, event, event.occurredAt, handler.id, MaxRetries(handler), session, 0, error, s.now, false);
    s.(ids := s.ids + 1, records := s.records.Set(record.id, record))
  }

  function DeliverOne(o: Oracle, s: State, handler: Handler, event: Event, session: string): State {
    var error, s1 := o(|s.calls|).error, Handle(o, s, handler, event, session, None);
    if error.None? then s1 else SaveFailure(s1, handler, event, session, error.value)
  }

  function DeliverTo(o: Oracle, s: State, handlers: seq<Handler>, event: Event, session: string): State {
    if handlers == [] then s
    else DeliverOne(o, DeliverTo(o, s, handlers[..|handlers| - 1], event, session), handlers[|handlers| - 1],
                    event, session)
  }

  predicate MayRetry(record: Record) {
    !record.processed && record.retries < record.handlerMaxRetries
  }

  function ToRetry(records: map<nat, Record>, keys: seq<nat>): seq<nat> {
    if keys == [] then []
    else
      var last := keys[|keys| - 1];
      ToRetry(records, keys[..|keys| - 1]) + if last in records && MayRetry(records[last]) then [last] else []
  }

  lemma {:induction false} ToRetryNone(records: map<nat, Record>)
    ensures ToRetry(records, []) == []
  {
  }

  lemma {:induction false} ToRetryPush(records: map<nat, Record>, keys: seq<nat>, last: nat)
    ensures ToRetry(records, keys + [last])
            == if last in records && MayRetry(records[last]) then ToRetry(records, keys) + [last]
               else ToRetry(records, keys)
  {
    assert (keys + [last])[..|keys|] == keys;
    assert ToRetry(records, keys) + [] == ToRetry(records, keys);
  }

  function FinderOf(registry: Registry, record: Record): Option<Handler> {
    FindHandler(registry, record.event.name, record.handlerId)
  }

  // The record after one more try, begun at `now`.
  function Retried(record: Record, error: Option<string>, now: int): Record {
    var tried := record.(lastTryAt := now, retries := record.retries + 1);
    if error.None? then tried.(processed := true) else tried.(lastError := error.value)
  }

  function RetryOne(o: Oracle, s: State, id: nat): State {
    if id !in s.records.at then s
    else
      var record := s.records.at[id];
      var handler := FinderOf(s.registry, record);
      if handler.None? then s
      else
        var s1 := Handle(o, s, handler.value, record.event, record.session, Some(id));
        s1.(records := s1.records.Set(id, Retried(record, o(|s.calls|).error, s.now)))
  }

  function RetryAll(o: Oracle, s: State, ids: seq<nat>): State {
    if ids == [] then s else RetryOne(o, RetryAll(o, s, ids[..|ids| - 1]), ids[|ids| - 1])
  }

  function Next(o: Oracle, s: State, step: Step): State {
    match step
    case Publish(event, session) => DeliverTo(o, s, Audience(s.registry, event.name), event, session)
    case RetryFailedEvents => RetryAll(o, s, ToRetry(s.records.at, s.records.keys))
    case RegisterEventHandler(handler) =>
      if handler.Named? then s.(registry := Kept(s.registry, RegisterNamed(s.registry, handler))) else s
    case RegisterUniversalEventHandler(handler) =>
      if handler.Universal? then s.(registry := Kept(s.registry, RegisterUniversal(s.registry, handler))) else s
    case Clear => s.(registry := Registry([], Empty()))
    case Elapse(ms) => s.(now := s.now + ms)
  }

  function Kept(registry: Registry, r: Result<Registry, RegistrationError>): Registry {
    if r.Success? then r.value else registry
  }

  function Run(o: Oracle, s: State, steps: seq<Step>): State
    decreases |steps|
  {
    if steps == [] then s else Run(o, Next(o, s, steps[0]), steps[1..])
  }

  // ----- What is kept -----

  // What a call or a record is a delivery of.
  datatype Delivery = Delivery(event: Event, handlerId: string, maxRetries: int, session: string)

  // The delivery that failed in this call, if any.
  function FailedIn(call: Call): seq<Delivery> {
    if call.retryOf.None? && call.error.Some?
    then [Delivery(call.event, call.handler.id, MaxRetries(call.handler), call.session)] else []
  }

  // The deliveries that failed, in the order they were made.
  function Failures(calls: seq<Call>): seq<Delivery> {
    if calls == [] then [] else Failures(calls[..|calls| - 1]) + FailedIn(calls[|calls| - 1])
  }

  function Origin(record: Record): Delivery {
    Delivery(record.event, record.handlerId, record.handlerMaxRetries, record.session)
  }

  function Origins(records: map<nat, Record>, keys: seq<nat>): seq<Delivery>
    requires forall id :: id in keys ==> id in records
  {
    if keys == [] then []
    else
      assert forall id :: id in keys[..|keys| - 1] ==> id in keys;
      Origins(records, keys[..|keys| - 1]) + [Origin(records[keys[|keys| - 1]])]
  }

  // The outcomes of the retries of one record, in order.
  function History(calls: seq<Call>, id: nat): seq<Option<string>> {
    if calls == [] then []
    else
      var last := calls[|calls| - 1];
      History(calls[..|calls| - 1], id) + if last.retryOf == Some(id) then [last.error] else []
  }

  /** A record tells how often it was retried, at most its maximum, and that nothing followed a success. */
  ghost predicate Lawful(record: Record, history: seq<Option<string>>) {
    && record.retries == |history|
    && (history != [] ==> |history| <= record.handlerMaxRetries)
    && (record.processed <==> history != [] && history[|history| - 1].None?)
    && (forall i :: 0 <= i < |history| - 1 ==> history[i].Some?)
    && (history != [] && history[|history| - 1].Some? ==> history[|history| - 1] == Some(record.lastError))
    && record.eventOccurredAt == record.event.occurredAt
  }

  ghost predicate RecordAccounted(s: State, id: nat) {
    if id in s.records.at
    then id < s.ids && s.records.at[id].id == id && Lawful(s.records.at[id], History(s.calls, id))
    else History(s.calls, id) == []
  }

  /** The records are, in order, the deliveries that failed; and each is lawful. */
  ghost predicate Accounted(s: State) {
    && s.records.Valid()
    && Failures(s.calls) == Origins(s.records.at, s.records.keys)
    && forall id: nat :: RecordAccounted(s, id)
  }

  lemma {:induction false} CallPush(calls: seq<Call>, last: Call, id: nat)
    ensures History(calls + [last], id) == History(calls, id) + if last.retryOf == Some(id) then [last.error] else []
    ensures Failures(calls + [last]) == Failures(calls) + FailedIn(last)
  {
    assert (calls + [last])[..|calls|] == calls;
  }

  lemma {:induction false} OriginsSame(records: map<nat, Record>, records': map<nat, Record>, keys: seq<nat>)
    requires forall id :: id in keys ==> id in records && id in records' && Origin(records[id]) == Origin(records'[id])
    ensures Origins(records, keys) == Origins(records', keys)
  {
    if keys != [] {
      var before, last := keys[..|keys| - 1], keys[|keys| - 1];
      assert keys == before + [last];
      OriginsSame(records, records', before);
    }
  }

  lemma {:induction false} OriginsPush(records: map<nat, Record>, keys: seq<nat>, last: nat)
    requires last in records && forall id :: id in keys ==> id in records
    ensures Origins(records, keys + [last]) == Origins(records, keys) + [Origin(records[last])]
  {
    assert (keys + [last])[..|keys|] == keys;
  }

  lemma {:induction false} DeliverOneRecord(o: Oracle, s: State, handler: Handler, event: Event, session: string, id: nat)
    requires Accounted(s)
    ensures RecordAccounted(DeliverOne(o, s, handler, event, session), id)
  {
    hide History, Failures, Origins;
    assert RecordAccounted(s, id) && RecordAccounted(s, s.ids);
    CallPush(s.calls, Call(handler, event, session, None, o(|s.calls|).error), id);
    assert History(s.calls, id) + [] == History(s.calls, id);
  }

  lemma {:induction false} DeliverOneOrigins(o: Oracle, s: State, handler: Handler, event: Event, session: string)
    requires Accounted(s)
    ensures var s' := DeliverOne(o, s, handler, event, session);
            s'.records.Valid() && Failures(s'.calls) == Origins(s'.records.at, s'.records.keys)
  {
    hide History, Failures, Origins, Lawful;
    var s' := DeliverOne(o, s, handler, event, session);
    CallPush(s.calls, Call(handler, event, session, None, o(|s.calls|).error), 0);
    assert Failures(s.calls) + [] == Failures(s.calls);
    if o(|s.calls|).error.Some? {
      assert RecordAccounted(s, s.ids);
      OriginsPush(s'.records.at, s.records.keys, s.ids);
      OriginsSame(s.records.at, s'.records.at, s.records.keys);
    }
  }

  lemma {:induction false} DeliverOneAccounted(o: Oracle, s: State, handler: Handler, event: Event, session: string)
    requires Accounted(s)
    ensures Accounted(DeliverOne(o, s, handler, event, session))
  {
    hide History, Failures, Origins, RecordAccounted, DeliverOne;
    DeliverOneOrigins(o, s, handler, event, session);
    forall id: nat ensures RecordAccounted(DeliverOne(o, s, handler, event, session), id) {
      DeliverOneRecord(o, s, handler, event, session, id);
    }
  }

  // The calls a publication makes: one for each handler, in order, with the outcomes the handlers give.
  function FreshCalls(o: Oracle, first: nat, handlers: seq<Handler>, event: Event, session: string): (r: seq<Call>)
    ensures |r| == |handlers|
  {
    if handlers == [] then []
    else
      FreshCalls(o, first, handlers[..|handlers| - 1], event, session)
      + [Call(handlers[|handlers| - 1], event, session, None, o(first + |handlers| - 1).error)]
  }

  lemma {:induction false} DeliverOneCalls(o: Oracle, s: State, handler: Handler, event: Event, session: string)
    ensures var s' := DeliverOne(o, s, handler, event, session);
            && s'.registry == s.registry
            && s'.calls == s.calls + [Call(handler, event, session, None, o(|s.calls|).error)]
  {
  }

  ghost predicate CalledEach(o: Oracle, s: State, s': State, handlers: seq<Handler>, event: Event, session: string) {
    && s'.registry == s.registry
    && s'.calls == s.calls + FreshCalls(o, |s.calls|, handlers, event, session)
  }

  lemma {:induction false} CalledLast(o: Oracle, s: State, s1: State, handlers: seq<Handler>, event: Event, session: string)
    requires handlers != [] && CalledEach(o, s, s1, handlers[..|handlers| - 1], event, session)
    ensures CalledEach(o, s, DeliverOne(o, s1, handlers[|handlers| - 1], event, session), handlers, event, session)
  {
    hide DeliverOne;
    DeliverOneCalls(o, s1, handlers[|handlers| - 1], event, session);
  }

  /** A publication calls each handler once and keeps account: those that fail leave one record each, in order. */
  lemma {:induction false} DeliverToAccounted(o: Oracle, s: State, handlers: seq<Handler>, event: Event, session: string)
    requires Accounted(s)
    ensures Accounted(DeliverTo(o, s, handlers, event, session))
    ensures CalledEach(o, s, DeliverTo(o, s, handlers, event, session), handlers, event, session)
    decreases |handlers|
  {
    hide Accounted, DeliverOne;
    if handlers == [] {
      assert s.calls + [] == s.calls;
    } else {
      hide CalledEach;
      var before, last := handlers[..|handlers| - 1], handlers[|handlers| - 1];
      DeliverToAccounted(o, s, before, event, session);
      var s1 := DeliverTo(o, s, before, event, session);
      DeliverOneAccounted(o, s1, last, event, session);
      CalledLast(o, s, s1, handlers, event, session);
    }
  }

  // ----- Retry runs -----

  lemma {:induction false} RetriedLawful(record: Record, history: seq<Option<string>>, error: Option<string>, now: int)
    requires Lawful(record, history) && MayRetry(record)
    ensures Lawful(Retried(record, error, now), history + [error])
    ensures Origin(Retried(record, error, now)) == Origin(record) && Retried(record, error, now).id == record.id
  {
  }

  // One more retry of a record: its history grows by one outcome, and the record says so.
  ghost predicate TriedOnce(s: State, s': State, id: nat)
    requires id in s.records.at
  {
    var before, after := History(s.calls, id), History(s'.calls, id);
    && after != [] && before == after[..|after| - 1]
    && id in s'.records.at
    && s'.records.at[id] == Retried(s.records.at[id], after[|after| - 1], s'.records.at[id].lastTryAt)
  }

  ghost predicate LeftAlone(s: State, s': State, id: nat) {
    s'.records.Get(id) == s.records.Get(id) && History(s'.calls, id) == History(s.calls, id)
  }

  // Whether a retry of that record would find a handler.
  predicate Reachable(s: State, id: nat) {
    id in s.records.at && FinderOf(s.registry, s.records.at[id]).Some?
  }

  lemma {:induction false} RetryOneTurn(o: Oracle, s: State, id: nat, other: nat)
    ensures if other == id && Reachable(s, id) then TriedOnce(s, RetryOne(o, s, id), id)
            else LeftAlone(s, RetryOne(o, s, id), other)
  {
    hide History, FinderOf;
    if Reachable(s, id) {
      var record, error := s.records.at[id], o(|s.calls|).error;
      CallPush(s.calls, Call(FinderOf(s.registry, record).value, record.event, record.session, Some(id), error), other);
    }
  }

  lemma {:induction false} RetryOneRecord(o: Oracle, s: State, id: nat, other: nat)
    requires Accounted(s) && id in s.records.at && MayRetry(s.records.at[id])
    ensures RecordAccounted(RetryOne(o, s, id), other)
  {
    hide History, FinderOf, Retried, Lawful, MayRetry;
    assert RecordAccounted(s, id) && RecordAccounted(s, other);
    var record, error := s.records.at[id], o(|s.calls|).error;
    if FinderOf(s.registry, record).Some? {
      var call := Call(FinderOf(s.registry, record).value, record.event, record.session, Some(id), error);
      CallPush(s.calls, call, other);
      assert RetryOne(o, s, id).calls == s.calls + [call];
      if other == id {
        RetriedLawful(record, History(s.calls, id), error, s.now);
        assert History(s.calls + [call], id) == History(s.calls, id) + [error];
        assert RetryOne(o, s, id).records.at[id] == Retried(record, error, s.now);
      } else {
        assert History(s.calls, other) + [] == History(s.calls, other);
      }
    }
  }

  lemma {:induction false} RetryOneOrigins(o: Oracle, s: State, id: nat)
    requires Accounted(s) && id in s.records.at
    ensures var s' := RetryOne(o, s, id);
            s'.records.Valid() && Failures(s'.calls) == Origins(s'.records.at, s'.records.keys)
  {
    hide History, Failures, Origins, FinderOf, Lawful;
    var record, error := s.records.at[id], o(|s.calls|).error;
    if FinderOf(s.registry, record).Some? {
      var call := Call(FinderOf(s.registry, record).value, record.event, record.session, Some(id), error);
      CallPush(s.calls, call, id);
      OriginsSame(s.records.at, RetryOne(o, s, id).records.at, s.records.keys);
    }
  }

  lemma {:induction false} RetryOneAccounted(o: Oracle, s: State, id: nat)
    requires Accounted(s) && id in s.records.at && MayRetry(s.records.at[id])
    ensures Accounted(RetryOne(o, s, id))
  {
    hide History, Failures, Origins, RecordAccounted, RetryOne, MayRetry;
    RetryOneOrigins(o, s, id);
    forall other: nat ensures RecordAccounted(RetryOne(o, s, id), other) {
      RetryOneRecord(o, s, id, other);
    }
  }

  // A call that retries a record, by a handler that a publication of the same event would reach now.
  ghost predicate Warranted(s: State, call: Call) {
    && call.retryOf.Some? && call.retryOf.value in s.records.at
    && var record := s.records.at[call.retryOf.value];
    && call.event == record.event && call.session == record.session
    && call.handler in Audience(s.registry, record.event.name) && call.handler.id == record.handlerId
  }

  /** What a retry run over `ids` does: each of them whose handler is found is tried once, and nothing else happens. */
  ghost predicate RetriedAll(s: State, s': State, ids: seq<nat>) {
    && s'.registry == s.registry && s'.records.keys == s.records.keys && s'.ids == s.ids
    && (forall id: nat :: if id in ids && Reachable(s, id) then TriedOnce(s, s', id) else LeftAlone(s, s', id))
    && s.calls <= s'.calls && forall i :: |s.calls| <= i < |s'.calls| ==> Warranted(s, s'.calls[i])
  }

  lemma {:induction false} TurnWarranted(o: Oracle, s: State, id: nat)
    requires Consistent(s.registry) && id in s.records.keys && id in s.records.at
    ensures var s' := RetryOne(o, s, id);
            && s'.registry == s.registry && s'.records.keys == s.records.keys && s'.ids == s.ids
            && if Reachable(s, id)
               then |s'.calls| == |s.calls| + 1 && s.calls <= s'.calls && Warranted(s, s'.calls[|s.calls|])
               else s' == s
  {
    hide Consistent, FindHandler, Retried;
    var record := s.records.at[id];
    if FinderOf(s.registry, record).Some? {
      FindsAudience(s.registry, record.event.name, record.handlerId, FinderOf(s.registry, record).value);
    }
  }

  lemma {:induction false} SameOrigin(s: State, s': State, ids: seq<nat>, id: nat)
    requires RetriedAll(s, s', ids) && id in s'.records.at
    ensures id in s.records.at && Origin(s.records.at[id]) == Origin(s'.records.at[id])
  {
    hide History;
    assert if id in ids && Reachable(s, id) then TriedOnce(s, s', id) else LeftAlone(s, s', id);
    assert s'.records.Get(id).Some?;
  }

  lemma {:induction false} WarrantedBefore(s: State, s': State, ids: seq<nat>, call: Call)
    requires RetriedAll(s, s', ids) && Warranted(s', call)
    ensures Warranted(s, call)
  {
    SameOrigin(s, s', ids, call.retryOf.value);
  }

  lemma {:induction false} TurnTried(s: State, s1: State, s2: State, before: seq<nat>, last: nat, id: nat)
    requires RetriedAll(s, s1, before) && last !in before
    requires if id == last && Reachable(s1, last) then TriedOnce(s1, s2, last) else LeftAlone(s1, s2, id)
    ensures if id in before + [last] && Reachable(s, id) then TriedOnce(s, s2, id) else LeftAlone(s, s2, id)
  {
    hide History, Retried, FinderOf;
    assert if id in before && Reachable(s, id) then TriedOnce(s, s1, id) else LeftAlone(s, s1, id);
    assert LeftAlone(s, s1, last);
    assert s1.records.Get(last) == s.records.Get(last);
  }

  lemma {:induction false} RetriedNext(o: Oracle, s: State, s1: State, before: seq<nat>, last: nat)
    requires Consistent(s.registry) && s.records.Valid() && last in s.records.at
    requires RetriedAll(s, s1, before) && last !in before
    ensures RetriedAll(s, RetryOne(o, s1, last), before + [last])
  {
    hide History, RetryOne, TriedOnce, LeftAlone, FinderOf, Warranted, Consistent;
    var s2 := RetryOne(o, s1, last);
    StillThere(s, s1, before, last);
    TurnWarranted(o, s1, last);
    forall id: nat
      ensures if id in before + [last] && Reachable(s, id) then TriedOnce(s, s2, id) else LeftAlone(s, s2, id)
    {
      RetryOneTurn(o, s1, last, id);
      TurnTried(s, s1, s2, before, last, id);
    }
    forall i | |s.calls| <= i < |s2.calls| ensures Warranted(s, s2.calls[i]) {
      if i < |s1.calls| {
        assert s2.calls[i] == s1.calls[i];
      } else {
        WarrantedBefore(s, s1, before, s2.calls[i]);
      }
    }
  }

  lemma {:induction false} StillThere(s: State, s1: State, before: seq<nat>, id: nat)
    requires RetriedAll(s, s1, before) && id !in before && id in s.records.at
    ensures id in s1.records.at && s1.records.at[id] == s.records.at[id]
  {
    hide History;
    assert LeftAlone(s, s1, id);
    assert s1.records.Get(id) == s.records.Get(id);
  }

  // Distinct records, each of which may be retried.
  ghost predicate Snapshot(records: map<nat, Record>, ids: seq<nat>) {
    ids == [] ||
    var before, last := ids[..|ids| - 1], ids[|ids| - 1];
    Snapshot(records, before) && last !in before && last in records && MayRetry(records[last])
  }

  lemma {:induction false} ToRetryIsSnapshot(records: map<nat, Record>, keys: seq<nat>)
    requires forall i, j :: 0 <= i < j < |keys| ==> keys[i] != keys[j]
    ensures Snapshot(records, ToRetry(records, keys))
    ensures forall id :: id in ToRetry(records, keys) <==> id in keys && id in records && MayRetry(records[id])
  {
    if keys != [] {
      hide MayRetry;
      var before, last := keys[..|keys| - 1], keys[|keys| - 1];
      assert keys == before + [last];
      ToRetryIsSnapshot(records, before);
      var earlier, ids := ToRetry(records, before), ToRetry(records, keys);
      assert ids != earlier ==> ids[..|ids| - 1] == earlier;
    }
  }

  lemma {:induction false} RetryAllAccounted(o: Oracle, s: State, ids: seq<nat>)
    requires Accounted(s) && Consistent(s.registry) && Snapshot(s.records.at, ids)
    ensures Accounted(RetryAll(o, s, ids)) && RetriedAll(s, RetryAll(o, s, ids), ids)
    decreases |ids|
  {
    if ids == [] {
    } else {
      hide Consistent, RetryOne, Accounted, RetriedAll, MayRetry;
      var before, last := ids[..|ids| - 1], ids[|ids| - 1];
      assert ids == before + [last];
      RetryAllAccounted(o, s, before);
      var s1 := RetryAll(o, s, before);
      StillThere(s, s1, before, last);
      RetryOneAccounted(o, s1, last);
      RecordsValid(s);
      RetriedNext(o, s, s1, before, last);
    }
  }

  lemma {:induction false} RecordsValid(s: State)
    requires Accounted(s)
    ensures s.records.Valid()
  {
  }

  // ----- Whole runs -----

  /** Every record accounts for a failed delivery, and no id is registered twice. */
  ghost predicate Good(s: State) {
    Accounted(s) && Consistent(s.registry)
  }

  lemma {:induction false} InitGood()
    ensures Good(Init)
  {
  }

  lemma {:induction false} SameRecordsAccounted(s: State, s': State)
    requires Accounted(s) && s'.records == s.records && s'.calls == s.calls && s'.ids == s.ids
    ensures Accounted(s')
  {
    hide Lawful, History, Failures, Origins;
    forall id: nat ensures RecordAccounted(s', id) {
      assert RecordAccounted(s, id);
    }
  }

  lemma {:induction false} StepGood(o: Oracle, s: State, step: Step)
    requires Good(s)
    ensures Good(Next(o, s, step))
  {
    hide Accounted, Consistent, RegisterNamed, RegisterUniversal, DeliverTo, RetryAll, ToRetry;
    match step
    case Publish(event, session) =>
      DeliverToAccounted(o, s, Audience(s.registry, event.name), event, session);
    case RetryFailedEvents =>
      RetryAccounted(o, s);
    case RegisterEventHandler(handler) =>
      RegisterConsistent(s.registry, handler);
      SameRecordsAccounted(s, Next(o, s, step));
    case RegisterUniversalEventHandler(handler) =>
      RegisterConsistent(s.registry, handler);
      SameRecordsAccounted(s, Next(o, s, step));
    case Clear =>
      EmptyConsistent();
      SameRecordsAccounted(s, Next(o, s, step));
    case Elapse(ms) =>
      SameRecordsAccounted(s, Next(o, s, step));
  }

  lemma {:induction false} EmptyConsistent()
    ensures Consistent(Registry([], Empty()))
  {
  }

  /** A retry run tries each record that may be retried, and whose handler is registered, exactly once. */
  lemma {:induction false} RetryAccounted(o: Oracle, s: State)
    requires Good(s)
    ensures var ids := ToRetry(s.records.at, s.records.keys);
            && Accounted(Next(o, s, RetryFailedEvents))
            && RetriedAll(s, Next(o, s, RetryFailedEvents), ids)
            && forall id :: id in ids <==> id in s.records.at && MayRetry(s.records.at[id])
  {
    hide Consistent, RetryAll, RetriedAll, MayRetry;
    RecordsValid(s);
    ToRetryIsSnapshot(s.records.at, s.records.keys);
    RetryAllAccounted(o, s, ToRetry(s.records.at, s.records.keys));
  }

  /** Publications, retries, registrations and clears, in any order, keep account of every failed delivery. */
  lemma {:induction false} RunGood(o: Oracle, s: State, steps: seq<Step>)
    requires Good(s)
    ensures Good(Run(o, s, steps))
    decreases |steps|
  {
    hide Good, Next;
    if steps != [] {
      StepGood(o, s, steps[0]);
      RunGood(o, Next(o, s, steps[0]), steps[1..]);
    }
  }

  // ----- What a record tells of its time -----

  /** A failed delivery is dated when its handler has thrown, a retry when its handler is called again. */
  lemma {:induction false} TryDated(o: Oracle, s: State, handler: Handler, event: Event, session: string, id: nat)
    ensures var s', reply := DeliverOne(o, s, handler, event, session), o(|s.calls|);
            reply.error.Some? ==>
              && s.ids in s'.records.at
              && s'.records.at[s.ids].lastTryAt == s.now + reply.latency == s'.now
              && s'.records.at[s.ids].lastError == reply.error.value
    ensures Reachable(s, id) ==>
              var s', reply := RetryOne(o, s, id), o(|s.calls|);
              && s'.now == s.now + reply.latency && id in s'.records.at && s'.records.at[id].lastTryAt == s.now
  {
  }

  // No record is dated ahead of the clock.
  ghost predicate Dated(s: State) {
    forall id :: id in s.records.at ==> s.records.at[id].lastTryAt <= s.now
  }

  lemma {:induction false} DeliverDated(o: Oracle, s: State, handlers: seq<Handler>, event: Event, session: string)
    requires Dated(s)
    ensures var s' := DeliverTo(o, s, handlers, event, session); Dated(s') && s.now <= s'.now
    decreases |handlers|
  {
    if handlers != [] {
      DeliverDated(o, s, handlers[..|handlers| - 1], event, session);
    }
  }

  lemma {:induction false} RetryDated(o: Oracle, s: State, ids: seq<nat>)
    requires Dated(s)
    ensures var s' := RetryAll(o, s, ids); Dated(s') && s.now <= s'.now
    decreases |ids|
  {
    if ids != [] {
      hide FinderOf;
      RetryDated(o, s, ids[..|ids| - 1]);
    }
  }

  /** In every run the clock never goes back, and no record is dated ahead of it. */
  lemma {:induction false} RunDated(o: Oracle, s: State, steps: seq<Step>)
    requires Dated(s)
    ensures Dated(Run(o, s, steps)) && s.now <= Run(o, s, steps).now
    decreases |steps|
  {
    if steps != [] {
      hide DeliverTo, RetryAll, ToRetry, RegisterNamed, RegisterUniversal;
      var step := steps[0];
      match step {
        case Publish(event, session) => DeliverDated(o, s, Audience(s.registry, event.name), event, session);
        case RetryFailedEvents => RetryDated(o, s, ToRetry(s.records.at, s.records.keys));
        case _ =>
      }
      RunDated(o, Next(o, s, step), steps[1..]);
    }
  }

  // ----- Whose failure a record is -----

  // That this call failed and left that record: the handler, and the retries it allows, none where it says nothing.
  ghost predicate Left(call: Call, record: Record) {
    && call.retryOf.None? && call.error.Some?
    && record.event == call.event && record.session == call.session && record.handlerId == call.handler.id
    && record.handlerMaxRetries == (match call.handler.config.retries case Some(n) => n case None => 0)
  }

  lemma {:induction false} InFailures(calls: seq<Call>, d: Delivery) returns (call: Call)
    requires d in Failures(calls)
    ensures call in calls && FailedIn(call) == [d]
  {
    var before, last := calls[..|calls| - 1], calls[|calls| - 1];
    if d in Failures(before) {
      call := InFailures(before, d);
    } else {
      call := last;
    }
  }

  lemma {:induction false} InOrigins(records: map<nat, Record>, keys: seq<nat>, id: nat)
    requires (forall k :: k in keys ==> k in records) && id in keys
    ensures Origin(records[id]) in Origins(records, keys)
  {
    var before, last := keys[..|keys| - 1], keys[|keys| - 1];
    assert keys == before + [last];
    if id in before {
      InOrigins(records, before, id);
    }
  }

  /**
   In every run each record stems from a first call that failed, and its retries never pass what that call's handler
   allows in its configuration: none, if it says nothing.
   */
  lemma {:induction false} RecordStems(o: Oracle, steps: seq<Step>, id: nat) returns (call: Call)
    requires id in Run(o, Init, steps).records.at
    ensures var s := Run(o, Init, steps);
            && call in s.calls && Left(call, s.records.at[id])
            && |History(s.calls, id)|
               <= (match call.handler.config.retries case Some(n) => if n < 0 then 0 else n case None => 0)
  {
    hide Run, Failures, Origins, History, Consistent;
    var s := Run(o, Init, steps);
    InitGood();
    RunGood(o, Init, steps);
    assert RecordAccounted(s, id);
    InOrigins(s.records.at, s.records.keys, id);
    call := InFailures(s.calls, Origin(s.records.at[id]));
  }

  // ----- Retried to the end -----

  function RetryRuns(steps: seq<Step>): nat {
    if steps == [] then 0 else (if steps[0].RetryFailedEvents? then 1 else 0) + RetryRuns(steps[1..])
  }

  // The retries after `runs` retry runs that all failed.
  function Spent(retries: int, most: int, runs: nat): int {
    if most <= retries then retries else if retries + runs <= most then retries + runs else most
  }

  lemma {:induction false} FindIdGrows(list: seq<Handler>, longer: seq<Handler>, id: string)
    requires list <= longer && FindId(list, id).Some?
    ensures FindId(longer, id).Some?
  {
    FindIdFinds(list, id);
    FindIdFinds(longer, id);
  }

  lemma {:induction false} StillFound(registry: Registry, registry': Registry, record: Record)
    requires Grows(registry, registry') && FinderOf(registry, record).Some?
    ensures FinderOf(registry', record).Some?
  {
    hide FindId;
    var list, list' := ListOf(registry, record.event.name), ListOf(registry', record.event.name);
    assert list <= list';
    if FindId(list, record.handlerId).Some? {
      FindIdGrows(list, list', record.handlerId);
    } else {
      FindIdGrows(registry.universal, registry'.universal, record.handlerId);
    }
  }

  lemma {:induction false} StepGrows(o: Oracle, s: State, step: Step)
    requires Good(s) && !step.Clear?
    ensures Grows(s.registry, Next(o, s, step).registry)
  {
    hide Accounted, Consistent, RegisterNamed, RegisterUniversal, DeliverTo, RetryAll, ToRetry, History, ListOf;
    match step
    case Publish(event, session) =>
      DeliverToAccounted(o, s, Audience(s.registry, event.name), event, session);
    case RetryFailedEvents => RetryAccounted(o, s);
    case RegisterEventHandler(handler) => RegisterConsistent(s.registry, handler);
    case RegisterUniversalEventHandler(handler) => RegisterConsistent(s.registry, handler);
    case Elapse(ms) =>
  }

  // What a step does to a record whose handler is found: a retry run tries it once more, if it may; nothing else does.
  lemma {:induction false} StepRecord(o: Oracle, s: State, step: Step, id: nat)
    requires Good(s) && Reachable(s, id)
    ensures var s' := Next(o, s, step);
            if step.RetryFailedEvents? && MayRetry(s.records.at[id]) then TriedOnce(s, s', id)
            else s'.records.Get(id) == s.records.Get(id)
  {
    hide RecordAccounted, Consistent, RegisterNamed, RegisterUniversal, DeliverTo, RetryAll, ToRetry, History, MayRetry,
         Retried, FinderOf;
    RecordsValid(s);
    match step
    case Publish(event, session) => DeliverKeeps(o, s, Audience(s.registry, event.name), event, session);
    case RetryFailedEvents =>
      RetryAccounted(o, s);
      var ids := ToRetry(s.records.at, s.records.keys);
      assert if id in ids && Reachable(s, id) then TriedOnce(s, Next(o, s, step), id) else LeftAlone(s, Next(o, s, step), id);
    case _ =>
  }

  // One step, seen from the record: it succeeded, or its retries are what the step spent.
  lemma {:induction false} StepSpent(o: Oracle, s: State, step: Step, id: nat)
    requires Good(s) && Reachable(s, id) && !step.Clear?
    ensures var s' := Next(o, s, step);
            && Reachable(s', id)
            && var r, r' := s.records.at[id], s'.records.at[id];
               && r'.handlerMaxRetries == r.handlerMaxRetries
               && (r.processed ==> r'.processed)
               && (r'.processed || r'.retries == Spent(r.retries, r.handlerMaxRetries, RetryRuns([step])))
  {
    hide History, FinderOf, Next, Good, Grows;
    StepGrows(o, s, step);
    StepRecord(o, s, step, id);
    assert [step][1..] == [];
    var s' := Next(o, s, step);
    assert s.records.Get(id).Some? && s'.records.Get(id).Some?;
    var r, r' := s.records.at[id], s'.records.at[id];
    assert FinderOf(s.registry, r') == FinderOf(s.registry, r) by { SameFinder(s.registry, r, r'); }
    StillFound(s.registry, s'.registry, r');
  }

  lemma {:induction false} SameFinder(registry: Registry, r: Record, r': Record)
    requires r'.event == r.event && r'.handlerId == r.handlerId
    ensures FinderOf(registry, r') == FinderOf(registry, r)
  {
  }

  /**
   As long as its handler stays registered, a record has either succeeded or been retried once by every retry run, until
   its maximum is reached and no further.
   */
  lemma {:induction false} RetriedUnlessDone(o: Oracle, s: State, steps: seq<Step>, id: nat)
    requires Good(s) && Reachable(s, id) && forall step :: step in steps ==> !step.Clear?
    ensures var s' := Run(o, s, steps);
            && Reachable(s', id)
            && var r, r' := s.records.at[id], s'.records.at[id];
               && r'.handlerMaxRetries == r.handlerMaxRetries
               && (r.processed ==> r'.processed)
               && (r'.processed || r'.retries == Spent(r.retries, r.handlerMaxRetries, RetryRuns(steps)))
    decreases |steps|
  {
    hide Next, Good, Reachable, Spent;
    assert Reachable(s, id) ==> id in s.records.at by { ReachableIn(s, id); }
    if steps == [] {
      assert Spent(s.records.at[id].retries, s.records.at[id].handlerMaxRetries, 0) == s.records.at[id].retries
        by { SpentNone(s.records.at[id]); }
    } else {
      var step, rest := steps[0], steps[1..];
      var s1 := Next(o, s, step);
      StepSpent(o, s, step, id);
      StepGood(o, s, step);
      RetriedUnlessDone(o, s1, rest, id);
      ReachableIn(s1, id);
      ReachableIn(Run(o, s, steps), id);
      assert [step][1..] == [];
      SpentOn(s.records.at[id].retries, s.records.at[id].handlerMaxRetries, RetryRuns([step]), RetryRuns(rest));
    }
  }

  lemma {:induction false} ReachableIn(s: State, id: nat)
    requires Reachable(s, id)
    ensures id in s.records.at
  {
  }

  lemma {:induction false} SpentNone(r: Record)
    ensures Spent(r.retries, r.handlerMaxRetries, 0) == r.retries
  {
  }

  lemma {:induction false} SpentOn(retries: int, most: int, runs: nat, more: nat)
    ensures Spent(Spent(retries, most, runs), most, more) == Spent(retries, most, runs + more)
  {
  }

  /**
   A failed delivery whose handler stays registered and always fails is retried exactly as often as that handler allows,
   once enough retry runs have come.
   */
  lemma {:induction false} RetriedToMaximum(o: Oracle, before: seq<Step>, after: seq<Step>, id: nat) returns (call: Call)
    requires Reachable(Run(o, Init, before), id) && forall step :: step in after ==> !step.Clear?
    requires var s := Run(o, Run(o, Init, before), after);
             None !in History(s.calls, id) && RetryRuns(after) >= Run(o, Init, before).records.at[id].handlerMaxRetries
    ensures var s0 := Run(o, Init, before);
            var s := Run(o, s0, after);
            && call in s0.calls && id in s0.records.at && Left(call, s0.records.at[id])
            && |History(s.calls, id)|
               == (match call.handler.config.retries case Some(n) => if n < 0 then 0 else n case None => 0)
  {
    hide Run, History, RetryRuns, FinderOf, Good;
    var s0 := Run(o, Init, before);
    var s := Run(o, s0, after);
    call := RecordStems(o, before, id);
    InitGood();
    RunGood(o, Init, before);
    RunGood(o, s0, after);
    RetriedUnlessDone(o, s0, after, id);
    HistoryTold(s0, id);
    HistoryTold(s, id);
  }

  lemma {:induction false} HistoryTold(s: State, id: nat)
    requires Good(s) && id in s.records.at
    ensures var r, history := s.records.at[id], History(s.calls, id);
            && r.retries == |history| && (history != [] ==> |history| <= r.handlerMaxRetries)
            && (r.processed <==> None in history)
  {
    hide History;
    assert RecordAccounted(s, id);
  }

  /** In every run, the failed records are exactly the deliveries that failed, one record for each, in order. */
  lemma {:induction false} RecordsAreFailures(o: Oracle, steps: seq<Step>)
    ensures var s := Run(o, Init, steps);
            s.records.Valid() && Origins(s.records.at, s.records.keys) == Failures(s.calls)
  {
    InitGood();
    RunGood(o, Init, steps);
  }

  /**
   In every run, a failed delivery is retried at most as often as its handler allowed when it failed, and never once a
   retry has succeeded.
   */
  lemma {:induction false} BoundedRetries(o: Oracle, steps: seq<Step>, id: nat)
    ensures var s := Run(o, Init, steps);
            var history := History(s.calls, id);
            && (history != [] ==> id in s.records.at && |history| <= s.records.at[id].handlerMaxRetries)
            && (forall i :: 0 <= i < |history| - 1 ==> history[i].Some?)
            && (id in s.records.at ==>
                 s.records.at[id].retries == |history| && (s.records.at[id].processed <==> None in history))
  {
    hide Run, Failures, Origins, History, Consistent;
    InitGood();
    RunGood(o, Init, steps);
    assert RecordAccounted(Run(o, Init, steps), id);
  }

  lemma {:induction false} Associative<T>(a: seq<T>, b: seq<T>, c: seq<T>)
    ensures (a + b) + c == a + (b + c)
  {
  }

  lemma {:induction false} FailuresAppend(a: seq<Call>, b: seq<Call>)
    ensures Failures(a + b) == Failures(a) + Failures(b)
    decreases |b|
  {
    if b == [] {
      assert a + b == a && Failures(a) + [] == Failures(a);
    } else {
      hide Failures, History, FailedIn;
      var before, last := b[..|b| - 1], b[|b| - 1];
      FailuresAppend(a, before);
      Associative(a, before, [last]);
      Associative(Failures(a), Failures(before), FailedIn(last));
      assert b == before + [last];
      CallPush(before, last, 0);
      CallPush(a + before, last, 0);
    }
  }

  /**
   A publication calls every handler it reaches once, universal handlers first; each call succeeds or leaves exactly
   one record, and the registry and the earlier records stay as they were.
   */
  lemma {:induction false} PublishLeaves(o: Oracle, s: State, event: Event, session: string)
    requires Good(s)
    ensures var s' := Next(o, s, Publish(event, session));
            var calls := FreshCalls(o, |s.calls|, Audience(s.registry, event.name), event, session);
            && s'.registry == s.registry && s'.calls == s.calls + calls
            && s'.records.Valid()
            && Origins(s'.records.at, s'.records.keys) == Failures(s.calls) + Failures(calls)
            && s.records.keys <= s'.records.keys
            && forall id :: id in s.records.keys ==> s'.records.Get(id) == s.records.Get(id)
  {
    hide RecordAccounted, DeliverTo, FreshCalls, Failures, Origins;
    var handlers := Audience(s.registry, event.name);
    DeliverToAccounted(o, s, handlers, event, session);
    FailuresAppend(s.calls, FreshCalls(o, |s.calls|, handlers, event, session));
    DeliverKeeps(o, s, handlers, event, session);
  }

  lemma {:induction false} FreshCallsAt(o: Oracle, first: nat, handlers: seq<Handler>, event: Event, session: string, i: nat)
    requires i < |handlers|
    ensures FreshCalls(o, first, handlers, event, session)[i]
            == Call(handlers[i], event, session, None, o(first + i).error)
    decreases |handlers|
  {
    if i < |handlers| - 1 {
      FreshCallsAt(o, first, handlers[..|handlers| - 1], event, session, i);
    }
  }

  lemma {:induction false} OwnKinds(registry: Registry, name: string)
    requires Consistent(registry)
    ensures forall i :: 0 <= i < |registry.universal| ==> registry.universal[i].Universal?
    ensures var list := ListOf(registry, name);
            forall i :: 0 <= i < |list| ==> list[i].Named? && list[i].eventName == name
  {
  }

  // The calls to these handlers and then to those, one by one, from the `first` reply on.
  ghost predicate CallsInOrder(o: Oracle, calls: seq<Call>, first: nat, universal: seq<Handler>, named: seq<Handler>,
                               event: Event, session: string) {
    && |calls| == |universal| + |named|
    && (forall i :: 0 <= i < |universal| ==>
          universal[i].Universal? && calls[i] == Call(universal[i], event, session, None, o(first + i).error))
    && (forall i :: 0 <= i < |named| ==>
          && named[i].Named? && named[i].eventName == event.name
          && calls[|universal| + i] == Call(named[i], event, session, None, o(first + |universal| + i).error))
  }

  lemma {:induction false} FreshInOrder(o: Oracle, first: nat, registry: Registry, event: Event, session: string)
    requires Consistent(registry)
    ensures CallsInOrder(o, FreshCalls(o, first, Audience(registry, event.name), event, session), first,
                         registry.universal, ListOf(registry, event.name), event, session)
  {
    hide FreshCalls, Consistent;
    OwnKinds(registry, event.name);
    var universal, named := registry.universal, ListOf(registry, event.name);
    forall i | 0 <= i < |universal|
      ensures FreshCalls(o, first, universal + named, event, session)[i]
              == Call(universal[i], event, session, None, o(first + i).error)
    {
      FreshCallsAt(o, first, universal + named, event, session, i);
    }
    forall i | 0 <= i < |named|
      ensures FreshCalls(o, first, universal + named, event, session)[|universal| + i]
              == Call(named[i], event, session, None, o(first + |universal| + i).error)
    {
      FreshCallsAt(o, first, universal + named, event, session, |universal| + i);
    }
  }

  /**
   Call by call: a publication calls the universal handlers in the order they were registered, then those of the event's
   name in theirs, each with the event and session and once.
   */
  lemma {:induction false} PublishOrder(o: Oracle, s: State, event: Event, session: string)
    requires Good(s)
    ensures var s' := Next(o, s, Publish(event, session));
            && s.calls <= s'.calls
            && CallsInOrder(o, s'.calls[|s.calls|..], |s.calls|, s.registry.universal, ListOf(s.registry, event.name),
                            event, session)
  {
    hide Next, FreshCalls, Failures, Origins, Consistent, CallsInOrder, Audience, ListOf, History;
    PublishLeaves(o, s, event, session);
    FreshInOrder(o, |s.calls|, s.registry, event, session);
  }

  lemma {:induction false} DeliverKeeps(o: Oracle, s: State, handlers: seq<Handler>, event: Event, session: string)
    requires Accounted(s)
    ensures var s' := DeliverTo(o, s, handlers, event, session);
            && s.records.keys <= s'.records.keys
            && forall id :: id in s.records.keys ==> s'.records.Get(id) == s.records.Get(id)
    decreases |handlers|
  {
    if handlers != [] {
      hide DeliverOne, Accounted;
      DeliverKeeps(o, s, handlers[..|handlers| - 1], event, session);
      DeliverToAccounted(o, s, handlers[..|handlers| - 1], event, session);
      DeliverOneKeeps(o, DeliverTo(o, s, handlers[..|handlers| - 1], event, session), handlers[|handlers| - 1], event, session);
    }
  }

  lemma {:induction false} DeliverOneKeeps(o: Oracle, s: State, handler: Handler, event: Event, session: string)
    requires Accounted(s)
    ensures var s' := DeliverOne(o, s, handler, event, session);
            && s.records.keys <= s'.records.keys
            && forall id :: id in s.records.keys ==> s'.records.Get(id) == s.records.Get(id)
  {
    assert RecordAccounted(s, s.ids);
  }

  // ----- The code itself -----

  /** The clock, the generator of ids and the handlers, as the broker sees them. */
  class Surroundings {
    const oracle: Oracle
    var now: int
    var ids: nat
    var calls: seq<Call>

    constructor (oracle: Oracle, now: int)
      ensures this.oracle == oracle && this.now == now && ids == 0 && calls == []
    {
      this.oracle, this.now, ids, calls := oracle, now, 0, [];
    }

    method RandomUuid() returns (id: nat)
      modifies this`ids
      ensures id == old(ids) && ids == old(ids) + 1
    {
      id, ids := ids, ids + 1;
    }

    method Handle(handler: Handler, event: Event, session: string, retryOf: Option<nat>) returns (error: Option<string>)
      modifies this`now, this`calls
      ensures error == oracle(|old(calls)|).error && now == old(now) + oracle(|old(calls)|).latency
      ensures calls == old(calls) + [Call(handler, event, session, retryOf, error)]
    {
      var reply := oracle(|calls|);
      now, error := now + reply.latency, reply.error;
      calls := calls + [Call(handler, event, session, retryOf, error)];
    }
  }

  class FailedEvent {
    const id: nat
    const event: Event
    const eventOccurredAt: int
    const handlerId: string
    const handlerMaxRetries: int
    const session: string
    var retries: int
    var lastError: string
    var lastTryAt: int
    var processed: bool

    constructor (id: nat, event: Event, eventOccurredAt: int, handlerId: string, handlerMaxRetries: int, session: string,
                 retries: int, lastError: string, lastTryAt: int, processed: bool)
      ensures Value() == Record(id, event, eventOccurredAt, handlerId, handlerMaxRetries, session,
                                retries, lastError, lastTryAt, processed)
    {
      this.id, this.event, this.eventOccurredAt := id, event, eventOccurredAt;
      this.handlerId, this.handlerMaxRetries, this.session := handlerId, handlerMaxRetries, session;
      this.retries, this.lastError, this.lastTryAt, this.processed := retries, lastError, lastTryAt, processed;
    }

    function Value(): Record
      reads this
    {
      Record(id, event, eventOccurredAt, handlerId, handlerMaxRetries, session, retries, lastError, lastTryAt, processed)
    }
  }

  class InMemoryFailedEventsRepository {
    var map_: OrderedMap<nat, FailedEvent>
    ghost var contents: OrderedMap<nat, Record>

    constructor ()
      ensures Valid() && map_ == Empty() && contents == Empty()
    {
      map_, contents := Empty(), Empty();
    }

    ghost predicate Keyed()
      reads this
    {
      && map_.Valid() && contents.keys == map_.keys && contents.at.Keys == map_.at.Keys
      && forall id :: id in map_.at ==> map_.at[id].id == id
    }

    // `contents` tells what every stored record holds, but for `data`, which is being changed where it stands.
    ghost predicate ValidBut(data: FailedEvent)
      reads this, map_.at.Values
    {
      Keyed() && forall id :: id in map_.at && id != data.id ==> contents.at[id] == map_.at[id].Value()
    }

    ghost predicate Valid()
      reads this, map_.at.Values
    {
      Keyed() && forall id :: id in map_.at ==> contents.at[id] == map_.at[id].Value()
    }

    ghost predicate Holds(data: FailedEvent)
      reads this, map_.at.Values
    {
      Valid() && data.id in map_.at && map_.at[data.id] == data
    }

    method Save(data: FailedEvent)
      requires ValidBut(data)
      modifies this
      ensures Valid() && map_ == old(map_).Set(data.id, data)
      ensures contents == old(contents).Set(data.id, data.Value())
    {
      map_, contents := map_.Set(data.id, data), contents.Set(data.id, data.Value());
    }

    lemma {:induction false} StoredValues()
      requires Valid()
      ensures contents.keys == map_.keys
    {
    }

    lemma {:induction false} StoredValue(id: nat)
      requires Valid() && id in map_.keys
      ensures id in map_.at && id in contents.at && contents.at[id] == map_.at[id].Value()
    {
    }

    /** The records that may still be retried, themselves and not copies, in the order they were first saved. */
    method FindAllUnsuccessfulWithRetriesLessThanMax() returns (list: seq<FailedEvent>)
      requires Valid()
      ensures ObjectsOf(map_.at, ToRetry(contents.at, contents.keys), list)
    {
      hide ToRetry, ObjectsOf, Valid, Keyed;
      var keys := map_.keys;
      list := [];
      StoredValues();
      ToRetryNone(contents.at);
      ObjectsNone(map_.at);
      for i := 0 to |keys|
        invariant ObjectsOf(map_.at, ToRetry(contents.at, keys[..i]), list)
      {
        ToRetryPush(contents.at, keys[..i], keys[i]);
        assert keys[..i] + [keys[i]] == keys[..i + 1];
        StoredValue(keys[i]);
        var failed := map_.at[keys[i]];
        if !failed.processed && failed.retries < failed.handlerMaxRetries {
          ObjectsPush(map_.at, ToRetry(contents.at, keys[..i]), list, keys[i]);
          list := list + [failed];
        }
      }
      assert keys[..|keys|] == keys;
    }
  }

  // The objects stored under those ids, in order.
  ghost predicate ObjectsOf(at: map<nat, FailedEvent>, ids: seq<nat>, list: seq<FailedEvent>) {
    |list| == |ids| && forall i :: 0 <= i < |ids| ==> ids[i] in at && list[i] == at[ids[i]]
  }

  lemma {:induction false} ObjectsNone(at: map<nat, FailedEvent>)
    ensures ObjectsOf(at, [], [])
  {
  }

  lemma {:induction false} ObjectsPush(at: map<nat, FailedEvent>, ids: seq<nat>, list: seq<FailedEvent>, id: nat)
    requires ObjectsOf(at, ids, list) && id in at
    ensures ObjectsOf(at, ids + [id], list + [at[id]])
  {
  }

  // The state after a delivery, part by part.
  lemma {:induction false} DeliverOneIs(o: Oracle, s: State, s': State, handler: Handler, event: Event, session: string)
    requires var reply := o(|s.calls|);
             && s'.now == s.now + reply.latency && s'.registry == s.registry
             && s'.calls == s.calls + [Call(handler, event, session, None, reply.error)]
             && (reply.error.None? ==> s'.ids == s.ids && s'.records == s.records)
             && (reply.error.Some? ==>
                   var failed := Record(s.ids, event, event.occurredAt, handler.id, MaxRetries(handler), session,
                                        0, reply.error.value, s'.now, false);
                   s'.ids == s.ids + 1 && s'.records == s.records.Set(s.ids, failed))
    ensures s' == DeliverOne(o, s, handler, event, session)
  {
    hide MaxRetries;
  }

  lemma {:induction false} RetryAllNone(o: Oracle, s: State, ids: seq<nat>)
    ensures RetryAll(o, s, ids[..0]) == s
  {
  }

  lemma {:induction false} RetryAllNext(o: Oracle, s: State, ids: seq<nat>, i: nat)
    requires i < |ids|
    ensures RetryAll(o, s, ids[..i + 1]) == RetryOne(o, RetryAll(o, s, ids[..i]), ids[i])
  {
    hide RetryOne;
    assert ids[..i + 1][..i] == ids[..i];
  }

  lemma {:induction false} RetryOneIs(o: Oracle, s: State, id: nat, handler: Handler)
    requires id in s.records.at && FinderOf(s.registry, s.records.at[id]) == Some(handler)
    ensures var reply, record := o(|s.calls|), s.records.at[id];
            RetryOne(o, s, id)
            == State(s.now + reply.latency, s.ids, s.registry,
                     s.records.Set(id, Retried(record, reply.error, s.now)),
                     s.calls + [Call(handler, record.event, record.session, Some(id), reply.error)])
  {
    hide FinderOf, Retried;
  }

  lemma {:induction false} RetryOneNot(o: Oracle, s: State, id: nat)
    requires id in s.records.at && FinderOf(s.registry, s.records.at[id]) == None
    ensures RetryOne(o, s, id) == s
  {
  }

  class InMemoryEventsBroker {
    var universalEventHandlers: seq<Handler>
    var eventHandlers: OrderedMap<string, seq<Handler>>
    const failedEventsRepository: InMemoryFailedEventsRepository
    const env: Surroundings

    constructor (failedEventsRepository: InMemoryFailedEventsRepository, env: Surroundings)
      ensures this.failedEventsRepository == failedEventsRepository && this.env == env
      ensures Handlers() == Registry([], Empty())
    {
      this.failedEventsRepository, this.env := failedEventsRepository, env;
      universalEventHandlers, eventHandlers := [], Empty();
    }

    ghost function Handlers(): Registry
      reads this
    {
      Registry(universalEventHandlers, eventHandlers)
    }

    ghost function Abs(): State
      reads this, env, failedEventsRepository
    {
      State(env.now, env.ids, Handlers(), failedEventsRepository.contents, env.calls)
    }

    method SaveFailedEvent(handler: Handler, event: Event, session: string, error: string)
      requires failedEventsRepository.Valid()
      modifies env`ids, failedEventsRepository
      ensures failedEventsRepository.Valid() && env.ids == old(env.ids) + 1
      ensures var failed := Record(old(env.ids), event, event.occurredAt, handler.id, MaxRetries(handler), session,
                                   0, error, env.now, false);
              failedEventsRepository.contents == old(failedEventsRepository.contents).Set(failed.id, failed)
      ensures fresh(failedEventsRepository.map_.at.Values - old(failedEventsRepository.map_.at.Values))
    {
      var id := env.RandomUuid();
      var retries := if handler.config.retries.Some? then handler.config.retries.value else 0;
      var failed := new FailedEvent(id, event, event.occurredAt, handler.id, retries, session, 0, error, env.now, false);
      failedEventsRepository.Save(failed);
    }

    // Calls the handler; what it throws becomes a saved record.
    method HandleOrSave(handler: Handler, event: Event, session: string) returns (error: Option<string>)
      requires failedEventsRepository.Valid()
      modifies env, failedEventsRepository
      ensures failedEventsRepository.Valid()
      ensures error == env.oracle(|old(env.calls)|).error && env.now == old(env.now) + env.oracle(|old(env.calls)|).latency
      ensures env.calls == old(env.calls) + [Call(handler, event, session, None, error)]
      ensures error.None? ==> env.ids == old(env.ids) && failedEventsRepository.contents == old(failedEventsRepository.contents)
      ensures error.Some? ==>
                var failed := Record(old(env.ids), event, event.occurredAt, handler.id, MaxRetries(handler), session,
                                     0, error.value, env.now, false);
                && env.ids == old(env.ids) + 1
                && failedEventsRepository.contents == old(failedEventsRepository.contents).Set(failed.id, failed)
      ensures fresh(failedEventsRepository.map_.at.Values - old(failedEventsRepository.map_.at.Values))
    {
      error := env.Handle(handler, event, session, None);
      if error.Some? {
        SaveFailedEvent(handler, event, session, error.value);
      }
    }

    method Deliver(handler: Handler, event: Event, session: string)
      requires failedEventsRepository.Valid()
      modifies env, failedEventsRepository
      ensures failedEventsRepository.Valid()
      ensures Abs() == DeliverOne(env.oracle, old(Abs()), handler, event, session)
      ensures fresh(failedEventsRepository.map_.at.Values - old(failedEventsRepository.map_.at.Values))
    {
      hide MaxRetries, DeliverOne;
      ghost var s := Abs();
      var error := HandleOrSave(handler, event, session);
      DeliverOneIs(env.oracle, s, Abs(), handler, event, session);
    }

    method DeliverToEach(handlers: seq<Handler>, event: Event, session: string)
      requires failedEventsRepository.Valid()
      modifies env, failedEventsRepository
      ensures failedEventsRepository.Valid()
      ensures Abs() == DeliverTo(env.oracle, old(Abs()), handlers, event, session)
      ensures fresh(failedEventsRepository.map_.at.Values - old(failedEventsRepository.map_.at.Values))
    {
      hide DeliverOne;
      for i := 0 to |handlers|
        invariant failedEventsRepository.Valid()
        invariant Abs() == DeliverTo(env.oracle, old(Abs()), handlers[..i], event, session)
        invariant fresh(failedEventsRepository.map_.at.Values - old(failedEventsRepository.map_.at.Values))
      {
        assert handlers[..i + 1][..i] == handlers[..i];
        Deliver(handlers[i], event, session);
      }
      assert handlers[..|handlers|] == handlers;
    }

    /** Universal handlers first, then those of the event; what fails is saved. */
    method Publish(event: Event, session: string)
      requires failedEventsRepository.Valid()
      modifies env, failedEventsRepository
      ensures failedEventsRepository.Valid()
      ensures Abs() == Next(env.oracle, old(Abs()), Step.Publish(event, session))
      ensures fresh(failedEventsRepository.map_.at.Values - old(failedEventsRepository.map_.at.Values))
    {
      hide DeliverTo;
      ghost var s := Abs();
      DeliverToEach(universalEventHandlers, event, session);
      assert s.registry == Handlers();
      if event.name in eventHandlers.at {
        DeliverToEach(eventHandlers.at[event.name], event, session);
      } else {
        assert Audience(s.registry, event.name) == universalEventHandlers;
      }
      DeliverToBoth(env.oracle, s, universalEventHandlers, ListOf(s.registry, event.name), event, session);
    }

    // Calls the handler again and changes the record where it stands.
    method HandleAgain(handler: Handler, failed: FailedEvent)
      modifies env`now, env`calls, failed
      ensures var reply := env.oracle(|old(env.calls)|);
              && failed.Value() == Retried(old(failed.Value()), reply.error, old(env.now))
              && env.now == old(env.now) + reply.latency
              && env.calls == old(env.calls)
                              + [Call(handler, failed.event, failed.session, Some(failed.id), reply.error)]
    {
      failed.lastTryAt := env.now;
      failed.retries := failed.retries + 1;
      var error := env.Handle(handler, failed.event, failed.session, Some(failed.id));
      if error.None? {
        failed.processed := true;
      } else {
        failed.lastError := error.value;
      }
    }

    method HandleAndSave(handler: Handler, failed: FailedEvent)
      requires failedEventsRepository.Holds(failed)
      modifies env`now, env`calls, failedEventsRepository, failed
      ensures failedEventsRepository.Valid() && failedEventsRepository.map_ == old(failedEventsRepository.map_)
      ensures var reply := env.oracle(|old(env.calls)|);
              && failedEventsRepository.contents
                 == old(failedEventsRepository.contents).Set(failed.id,
                      Retried(old(failedEventsRepository.contents).at[failed.id], reply.error, old(env.now)))
              && env.now == old(env.now) + reply.latency
              && env.calls == old(env.calls)
                              + [Call(handler, failed.event, failed.session, Some(failed.id), reply.error)]
    {
      hide Retried;
      HandleAgain(handler, failed);
      SetSame(failedEventsRepository.map_, failed.id);
      failedEventsRepository.Save(failed);
    }

    // One turn of a retry run.
    method Retry(failed: FailedEvent)
      requires failedEventsRepository.Holds(failed)
      modifies env`now, env`calls, failedEventsRepository, failed
      ensures failedEventsRepository.Valid() && failedEventsRepository.map_ == old(failedEventsRepository.map_)
      ensures Abs() == RetryOne(env.oracle, old(Abs()), failed.id)
    {
      hide FindHandler, Retried, RetryOne;
      ghost var s := Abs();
      assert s.records.at[failed.id] == failed.Value();
      var handler := FindHandler(Registry(universalEventHandlers, eventHandlers), failed.event.name, failed.handlerId);
      if handler.None? {
        RetryOneNot(env.oracle, s, failed.id);
        return;
      }
      RetryOneIs(env.oracle, s, failed.id, handler.value);
      HandleAndSave(handler.value, failed);
    }

    /** Every record that may be retried when the run begins gets one turn. */
    method RetryFailedEvents()
      requires failedEventsRepository.Valid()
      modifies env, failedEventsRepository, failedEventsRepository.map_.at.Values
      ensures failedEventsRepository.Valid() && failedEventsRepository.map_ == old(failedEventsRepository.map_)
      ensures Abs() == Next(env.oracle, old(Abs()), Step.RetryFailedEvents)
    {
      hide RetryOne, ToRetry, RetryAll;
      var list := failedEventsRepository.FindAllUnsuccessfulWithRetriesLessThanMax();
      ghost var s := Abs();
      ghost var ids := ToRetry(s.records.at, s.records.keys);
      RetryAllNone(env.oracle, s, ids);
      for i := 0 to |list|
        invariant failedEventsRepository.Valid() && failedEventsRepository.map_ == old(failedEventsRepository.map_)
        invariant Abs() == RetryAll(env.oracle, s, ids[..i])
      {
        RetryAllNext(env.oracle, s, ids, i);
        Retry(list[i]);
      }
      assert ids[..|list|] == ids;
    }

    method RegisterEventHandler(handler: Handler) returns (error: Option<RegistrationError>)
      requires handler.Named?
      modifies this
      ensures var r := RegisterNamed(old(Handlers()), handler);
              && (error.Some? <==> r.Failure?) && (error.Some? ==> error.value == r.error)
              && Handlers() == Kept(old(Handlers()), r)
    {
      if handler.config.disabled {
        return None;
      }
      if Taken(Registry(universalEventHandlers, eventHandlers), handler.id) {
        return Some(AlreadyRegistered(handler.id));
      }
      if handler.eventName !in eventHandlers.at {
        eventHandlers := eventHandlers.Set(handler.eventName, []);
      }
      eventHandlers := eventHandlers.Set(handler.eventName, eventHandlers.at[handler.eventName] + [handler]);
      return None;
    }

    method RegisterUniversalEventHandler(handler: Handler) returns (error: Option<RegistrationError>)
      requires handler.Universal?
      modifies this
      ensures var r := RegisterUniversal(old(Handlers()), handler);
              && (error.Some? <==> r.Failure?) && (error.Some? ==> error.value == r.error)
              && Handlers() == Kept(old(Handlers()), r)
    {
      if handler.config.disabled {
        return None;
      }
      if Taken(Registry(universalEventHandlers, eventHandlers), handler.id) {
        return Some(AlreadyRegistered(handler.id));
      }
      universalEventHandlers := universalEventHandlers + [handler];
      return None;
    }

    method Clear()
      modifies this
      ensures Handlers() == Registry([], Empty())
    {
      eventHandlers := Empty();
      universalEventHandlers := [];
    }
  }

  lemma {:induction false} DeliverToBoth(o: Oracle, s: State, a: seq<Handler>, b: seq<Handler>, event: Event,
                                         session: string)
    ensures DeliverTo(o, s, a + b, event, session) == DeliverTo(o, DeliverTo(o, s, a, event, session), b, event, session)
    decreases |b|
  {
    hide DeliverOne;
    if b == [] {
      assert a + b == a;
    } else {
      assert (a + b)[..|a + b| - 1] == a + b[..|b| - 1];
      DeliverToBoth(o, s, a, b[..|b| - 1], event, session);
    }
  }
}

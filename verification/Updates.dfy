/** The subscription coordinator as a state machine: one command at a time changes the published
    snapshot and the store, while any number of updates are in flight between their commands. */
module Updates {
  import opened Wrappers
  import opened Text
  import opened Sequences
  import opened RuntimeModel
  import opened Identity
  import opened Subscriptions
  import opened NodePool

  const MINUTE := 60_000_000_000
  const MIN_INTERVAL := 5 * MINUTE
  const MAX_RETRY := 30 * MINUTE

  /** What the coordinator was created with. */
  datatype Options = Options(codec: Codec, defaultInterval: int)

  /** `url` is the normalised address, absent when normalisation or validation refuses it. */
  datatype AddRequest = AddRequest(
    id: string, name: string, url: Option<string>, enabled: bool, autoUpdate: bool, interval: int, headers: map<string, string>)

  /** Response headers; a missing header is empty, zero or absent. */
  datatype Response = Response(
    etag: string, lastModified: string, traffic: Option<Traffic>, links: Links, suggestedInterval: int)

  datatype Fetch =
    | FetchFailed(cause: string)
    | NotModified(response: Response)
    | Unparsable(cause: string)
    | Fetched(response: Response, nodes: seq<Node>, nodesHash: string, endpoints: seq<string>)

  datatype Error =
    NotFound | AlreadyExists | NameRequired | IntervalTooShort | InvalidUrl | StoreFailed | UpdateFailed(cause: string)

  /******* Records *******/

  function NewItem(options: Options, req: AddRequest, generated: string, now: int): Subscription
    requires req.url.Some?
  {
    var id := if TrimSpace(req.id) == "" then generated else req.id;
    var name := TrimSpace(if TrimSpace(req.name) == "" then id else req.name);
    Subscription(id, name, req.url.value, req.enabled, req.autoUpdate, RequestedInterval(options, req), req.headers,
                 StatusIdle, StageIdle, [], NO_VALIDATORS, "", "", 0, now, NO_TRAFFIC, [], NO_LINKS)
  }

  function RequestedInterval(options: Options, req: AddRequest): int {
    if req.interval <= 0 then options.defaultInterval else req.interval
  }

  datatype Change = Rename(name: string) | Configure(enabled: bool, interval: int, now: int) | SetEnabled(on: bool)

  function Changed(item: Subscription, change: Change): Subscription {
    match change
    case Rename(name) => item.(name := TrimSpace(name))
    case Configure(enabled, interval, now) =>
      item.(autoUpdate := enabled, interval := if interval > 0 then interval else item.interval,
            nextUpdateAt := if enabled then now else item.nextUpdateAt)
    case SetEnabled(on) => item.(enabled := on)
  }

  function Refusal(change: Change): Option<Error> {
    match change
    case Rename(name) => if TrimSpace(name) == "" then Some(NameRequired) else None
    case Configure(enabled, interval, _) => if enabled && interval < MIN_INTERVAL then Some(IntervalTooShort) else None
    case SetEnabled(_) => None
  }

  function OrElse(a: string, b: string): string { if a != "" then a else b }

  function MergedLinks(before: Links, given: Links): Links {
    Links(if given.expiresAt != 0 then given.expiresAt else before.expiresAt, OrElse(given.title, before.title),
          OrElse(given.webPage, before.webPage), OrElse(given.support, before.support), OrElse(given.movedTo, before.movedTo))
  }

  /** Headers override only what the server provides; a suggested interval must reach the minimum. */
  function WithHeaders(item: Subscription, r: Response): Subscription {
    item.(
      traffic := if r.traffic.Some? then r.traffic.value else item.traffic,
      links := MergedLinks(item.links, r.links),
      interval := if r.suggestedInterval >= MIN_INTERVAL then r.suggestedInterval else item.interval)
  }

  /** A retry comes after an eighth of the interval, but not before one minute and not after thirty, and
      within a fifth of the interval exactly when the interval reaches the minimum. */
  function FailureDelay(interval: int): (delay: int)
    requires interval >= 0
    ensures MINUTE <= delay <= MAX_RETRY
    ensures 8 * MINUTE <= interval <= 8 * MAX_RETRY ==> 8 * delay <= interval < 8 * (delay + 1)
    ensures (interval < 8 * MINUTE ==> delay == MINUTE) && (interval > 8 * MAX_RETRY ==> delay == MAX_RETRY)
    ensures 5 * delay <= interval <==> interval >= MIN_INTERVAL
  {
    var delay := interval / 8;
    if delay < MINUTE then MINUTE else if delay > MAX_RETRY then MAX_RETRY else delay
  }

  /** The record an update commits, from the copy taken when it began. */
  function Finished(options: Options, copy: Subscription, fetch: Fetch, now: int): Subscription {
    match fetch
    case FetchFailed(cause) => FailedItem(copy, "fetch", cause, now)
    case Unparsable(cause) => FailedItem(copy, "parse", cause, now)
    case NotModified(r) =>
      var v := Validators(copy.validators.nodesHash, OrElse(r.etag, copy.validators.etag),
                          OrElse(r.lastModified, copy.validators.lastModified));
      Succeeded(WithHeaders(copy.(validators := v), r), now)
    case Fetched(r, nodes, nodesHash, endpoints) =>
      var item := copy.(nodes := WithSource(options.codec, nodes, copy.id), endpoints := endpoints,
                        validators := Validators(nodesHash, r.etag, r.lastModified));
      Succeeded(WithHeaders(item, r), now)
  }

  function Succeeded(item: Subscription, now: int): Subscription {
    item.(status := StatusReady, stage := StageComplete, errorCode := "", error := "",
          updatedAt := now, nextUpdateAt := now + item.interval)
  }

  /** Go's integer division rounds toward zero; a record's interval is never negative. */
  function FailedItem(item: Subscription, code: string, cause: string, now: int): Subscription {
    var delay := if item.interval < 0 then MINUTE else FailureDelay(item.interval);
    item.(status := StatusFailed, stage := StageFailed, errorCode := code, error := cause,
          updatedAt := now, nextUpdateAt := now + delay)
  }

  /** `Load` on one record: an interrupted update is idle again, and identities are recomputed. */
  function Recovered(codec: Codec, item: Subscription): Subscription {
    var idle := if item.status.StatusUpdating? then item.(status := StatusIdle, stage := StageIdle) else item;
    idle.(nodes := WithSource(codec, item.nodes, item.id))
  }

  function RecoveredAll(codec: Codec, stored: Snapshot): Snapshot {
    MapWithout(Recovering(codec), stored, "")
  }

  function Recovering(codec: Codec): Subscription -> Subscription {
    (item: Subscription) => Recovered(codec, item)
  }

  /** `f` on every value, leaving out one key. */
  function MapWithout<V>(f: V -> V, m: map<string, V>, key: string): map<string, V> {
    map k | k in m && k != key :: f(m[k])
  }

  /******* The state machine *******/

  /** `items` is the published snapshot; `flying` holds, for each update in flight, the copy it took
      when it began; `touched` remembers which subscriptions were added, removed or modified since
      their last update began. */
  datatype System = System(items: Snapshot, stored: Snapshot, flying: Snapshot, touched: set<string>)

  datatype Event =
    | Add(req: AddRequest, generated: string, now: int, storeOk: bool)
    | Remove(id: string, storeOk: bool)
    | Modify(id: string, change: Change, storeOk: bool)
    | Begin(id: string)
    | SetStage(id: string, stage: Stage)
    | Finish(id: string, fetch: Fetch, now: int, storeOk: bool)
    | Reload

  /** A stored command: the record goes to the store and to the next snapshot. */
  function PutItem(s: System, item: Subscription): System {
    s.(items := s.items[item.id := item], stored := s.stored[item.id := item], touched := s.touched + {item.id})
  }

  function DropItem(s: System, id: string): System {
    s.(items := s.items - {id}, stored := s.stored - {id}, touched := s.touched + {id})
  }

  function AsUpdating(item: Subscription): Subscription {
    item.(status := StatusUpdating, stage := StageFetching, error := "")
  }

  /** The beginning of an update: publishes the entry as updating and keeps a copy. */
  function TakeOff(s: System, id: string): System
    requires id in s.items
  {
    s.(items := s.items[id := AsUpdating(s.items[id])], flying := s.flying[id := s.items[id]], touched := s.touched - {id})
  }

  function AtStage(item: Subscription, stage: Stage): Subscription { item.(stage := stage) }

  /** The end of an update: its record replaces the current one, in the snapshot and in the store; when
      it cannot be stored, the copy taken at the beginning is published again. */
  function Land(s: System, id: string, item: Subscription, storeOk: bool): System
    requires id in s.flying
  {
    if storeOk then
      System(s.items[item.id := item], s.stored[item.id := item], s.flying - {id}, s.touched)
    else
      System(s.items[item.id := s.flying[id]], s.stored, s.flying - {id}, s.touched)
  }

  function DoAdd(options: Options, s: System, req: AddRequest, generated: string, now: int, storeOk: bool): (System, Option<Error>) {
    if req.url.None? then (s, Some(InvalidUrl))
    else if RequestedInterval(options, req) < MIN_INTERVAL then (s, Some(IntervalTooShort))
    else AddItem(s, NewItem(options, req, generated, now), storeOk)
  }

  function AddItem(s: System, item: Subscription, storeOk: bool): (System, Option<Error>) {
    if item.id in s.items then (s, Some(AlreadyExists))
    else if !storeOk then (s, Some(StoreFailed))
    else (PutItem(s, item), None)
  }

  function DoRemove(s: System, id: string, storeOk: bool): (System, Option<Error>) {
    if id !in s.items then (s, Some(NotFound))
    else if !storeOk then (s, Some(StoreFailed))
    else (DropItem(s, id), None)
  }

  function DoModify(s: System, id: string, change: Change, storeOk: bool): (System, Option<Error>) {
    if Refusal(change).Some? then (s, Refusal(change))
    else if id !in s.items then (s, Some(NotFound))
    else if !storeOk then (s, Some(StoreFailed))
    else (PutItem(s, Changed(s.items[id], change)), None)
  }

  /** A second update of the same subscription joins the one in flight. */
  function DoBegin(s: System, id: string): (System, Option<Error>) {
    if id in s.flying then (s, None)
    else if id !in s.items then (s, Some(NotFound))
    else (TakeOff(s, id), None)
  }

  /** Stages are reported by updates in flight. */
  function DoStage(s: System, id: string, stage: Stage): System {
    if id in s.flying && id in s.items then s.(items := s.items[id := AtStage(s.items[id], stage)]) else s
  }

  function DoFinish(options: Options, s: System, id: string, fetch: Fetch, now: int, storeOk: bool): System {
    if id in s.flying then Land(s, id, Finished(options, s.flying[id], fetch, now), storeOk) else s
  }

  function DoReload(options: Options, s: System): System {
    System(RecoveredAll(options.codec, s.stored), s.stored, map[], {})
  }

  function Step(options: Options, s: System, e: Event): System {
    match e
    case Add(req, generated, now, storeOk) => DoAdd(options, s, req, generated, now, storeOk).0
    case Remove(id, storeOk) => DoRemove(s, id, storeOk).0
    case Modify(id, change, storeOk) => DoModify(s, id, change, storeOk).0
    case Begin(id) => DoBegin(s, id).0
    case SetStage(id, stage) => DoStage(s, id, stage)
    case Finish(id, fetch, now, storeOk) => DoFinish(options, s, id, fetch, now, storeOk)
    case Reload => DoReload(options, s)
  }

  function Run(options: Options, s: System, events: seq<Event>): System {
    if events == [] then s else Step(options, Run(options, s, events[..|events| - 1]), events[|events| - 1])
  }

  const EMPTY := System(map[], map[], map[], {})

  /** Generated identifiers are not blank. */
  predicate Possible(e: Event) {
    e.Add? ==> TrimSpace(e.generated) != ""
  }

  /******* Records stay sound *******/

  predicate IntervalOk(item: Subscription) {
    item.interval > 0 && (item.autoUpdate ==> item.interval >= MIN_INTERVAL)
  }

  ghost predicate RecordOk(codec: Codec, id: string, item: Subscription) {
    id != "" && ProfileOk(codec, id, item) && IntervalOk(item)
  }

  ghost predicate RecordsOk(codec: Codec, m: Snapshot) {
    forall id :: id in m ==> RecordOk(codec, id, m[id])
  }

  ghost predicate AllOk(codec: Codec, s: System) {
    RecordsOk(codec, s.items) && RecordsOk(codec, s.stored) && RecordsOk(codec, s.flying)
  }

  lemma NoNodes(codec: Codec, id: string)
    ensures WithSource(codec, [], id) == []
  {
    WithSourceFixed(codec, [], id);
  }

  lemma NewItemOk(options: Options, req: AddRequest, generated: string, now: int)
    requires req.url.Some? && RequestedInterval(options, req) >= MIN_INTERVAL && TrimSpace(generated) != ""
    ensures var item := NewItem(options, req, generated, now); RecordOk(options.codec, item.id, item)
  {
    NoNodes(options.codec, NewItem(options, req, generated, now).id);
    assert TrimSpace("") == "";
  }

  lemma ChangedOk(codec: Codec, id: string, item: Subscription, change: Change)
    requires RecordOk(codec, id, item) && Refusal(change).None?
    ensures RecordOk(codec, id, Changed(item, change))
  {
  }

  lemma FinishedFields(options: Options, copy: Subscription, fetch: Fetch, now: int)
    ensures var item := Finished(options, copy, fetch, now);
            && item.id == copy.id && !item.status.StatusUpdating? && item.autoUpdate == copy.autoUpdate
            && (item.interval == copy.interval || item.interval >= MIN_INTERVAL)
            && item.nodes == if fetch.Fetched? then WithSource(options.codec, fetch.nodes, copy.id) else copy.nodes
  {
  }

  lemma ProfileOkOf(codec: Codec, id: string, item: Subscription, nodes: seq<Node>)
    requires item.id == id && (item.nodes == WithSource(codec, nodes, id) || (item.nodes == nodes && WithSource(codec, nodes, id) == nodes))
    ensures ProfileOk(codec, id, item)
  {
    WithSourceIdempotent(codec, nodes, id);
  }

  lemma FinishedProfile(options: Options, copy: Subscription, fetch: Fetch, now: int)
    requires ProfileOk(options.codec, copy.id, copy)
    ensures ProfileOk(options.codec, copy.id, Finished(options, copy, fetch, now))
  {
    FinishedFields(options, copy, fetch, now);
    ProfileOkOf(options.codec, copy.id, Finished(options, copy, fetch, now), if fetch.Fetched? then fetch.nodes else copy.nodes);
  }

  lemma FinishedOk(options: Options, id: string, copy: Subscription, fetch: Fetch, now: int)
    requires RecordOk(options.codec, id, copy)
    ensures RecordOk(options.codec, id, Finished(options, copy, fetch, now))
  {
    FinishedFields(options, copy, fetch, now);
    FinishedProfile(options, copy, fetch, now);
  }

  lemma RecoveredOk(codec: Codec, id: string, item: Subscription)
    requires RecordOk(codec, id, item)
    ensures RecordOk(codec, id, Recovered(codec, item)) && Recovered(codec, item).nodes == item.nodes
    ensures !Recovered(codec, item).status.StatusUpdating?
  {
  }

  lemma PutOk(codec: Codec, s: System, item: Subscription)
    requires AllOk(codec, s) && RecordOk(codec, item.id, item)
    ensures AllOk(codec, PutItem(s, item))
  {
  }

  lemma TakeOffOk(codec: Codec, s: System, id: string)
    requires AllOk(codec, s) && id in s.items
    ensures AllOk(codec, TakeOff(s, id))
  {
  }

  lemma LandOk(codec: Codec, s: System, id: string, item: Subscription, storeOk: bool)
    requires AllOk(codec, s) && id in s.flying && RecordOk(codec, id, item)
    ensures AllOk(codec, Land(s, id, item, storeOk))
  {
    PutRecord(codec, s.items, id, if storeOk then item else s.flying[id]);
    PutRecord(codec, s.stored, id, item);
  }

  lemma PutRecord(codec: Codec, m: Snapshot, id: string, item: Subscription)
    requires RecordsOk(codec, m) && RecordOk(codec, id, item)
    ensures RecordsOk(codec, m[id := item])
  {
  }

  lemma AddOk(options: Options, s: System, req: AddRequest, generated: string, now: int, storeOk: bool)
    requires AllOk(options.codec, s) && TrimSpace(generated) != ""
    ensures AllOk(options.codec, DoAdd(options, s, req, generated, now, storeOk).0)
  {
    if req.url.Some? && RequestedInterval(options, req) >= MIN_INTERVAL {
      NewItemOk(options, req, generated, now);
      AddItemOk(options.codec, s, NewItem(options, req, generated, now), storeOk);
    }
  }

  lemma AddItemOk(codec: Codec, s: System, item: Subscription, storeOk: bool)
    requires AllOk(codec, s) && RecordOk(codec, item.id, item)
    ensures AllOk(codec, AddItem(s, item, storeOk).0)
  {
    PutOk(codec, s, item);
  }

  lemma ModifyOk(codec: Codec, s: System, id: string, change: Change, storeOk: bool)
    requires AllOk(codec, s)
    ensures AllOk(codec, DoModify(s, id, change, storeOk).0)
  {
    if Refusal(change).None? && id in s.items {
      ChangedOk(codec, id, s.items[id], change);
      PutOk(codec, s, Changed(s.items[id], change));
    }
  }

  lemma StageOk(codec: Codec, s: System, id: string, stage: Stage)
    requires AllOk(codec, s)
    ensures AllOk(codec, DoStage(s, id, stage))
  {
  }

  lemma FinishOk(options: Options, s: System, id: string, fetch: Fetch, now: int, storeOk: bool)
    requires AllOk(options.codec, s)
    ensures AllOk(options.codec, DoFinish(options, s, id, fetch, now, storeOk))
  {
    if id in s.flying {
      FinishedOk(options, id, s.flying[id], fetch, now);
      LandOk(options.codec, s, id, Finished(options, s.flying[id], fetch, now), storeOk);
    }
  }

  lemma StepOk(options: Options, s: System, e: Event)
    requires AllOk(options.codec, s) && Possible(e)
    ensures AllOk(options.codec, Step(options, s, e))
  {
    match e {
      case Add(req, generated, now, storeOk) => AddOk(options, s, req, generated, now, storeOk);
      case Modify(id, change, storeOk) => ModifyOk(options.codec, s, id, change, storeOk);
      case Begin(id) =>
        if id in s.items {
          TakeOffOk(options.codec, s, id);
        }
      case SetStage(id, stage) => StageOk(options.codec, s, id, stage);
      case Finish(id, fetch, now, storeOk) => FinishOk(options, s, id, fetch, now, storeOk);
      case Reload => ReloadOk(options, s);
      case Remove(_, _) =>
    }
  }

  lemma ReloadOk(options: Options, s: System)
    requires RecordsOk(options.codec, s.stored)
    ensures AllOk(options.codec, DoReload(options, s))
  {
    forall id | id in s.stored ensures RecordOk(options.codec, id, Recovered(options.codec, s.stored[id])) {
      RecoveredOk(options.codec, id, s.stored[id]);
    }
  }

  /** In every reachable state, snapshot, store and the copies in flight hold only records filed under
      their own non-empty ID, with nodes that `WithSource` leaves alone, and with an interval of at
      least five minutes where updates are automatic. */
  lemma {:induction false} RunOk(options: Options, s: System, events: seq<Event>)
    requires AllOk(options.codec, s) && forall e :: e in events ==> Possible(e)
    ensures AllOk(options.codec, Run(options, s, events))
  {
    if events != [] {
      RunOk(options, s, events[..|events| - 1]);
      StepOk(options, Run(options, s, events[..|events| - 1]), events[|events| - 1]);
    }
  }

  /******* No stuck updates *******/

  /** An entry is updating only while an update of it is in flight, and no update started from an
      entry that was updating. */
  predicate NoStuck(s: System) {
    && (forall id :: id in s.items && s.items[id].status.StatusUpdating? ==> id in s.flying)
    && (forall id :: id in s.flying ==> !s.flying[id].status.StatusUpdating? && s.flying[id].id == id)
    && (forall id :: id in s.items ==> s.items[id].id == id)
    && (forall id :: id in s.stored ==> s.stored[id].id == id)
  }

  lemma PutNoStuck(s: System, item: Subscription)
    requires NoStuck(s) && (item.status.StatusUpdating? ==> item.id in s.flying)
    ensures NoStuck(PutItem(s, item))
  {
  }

  lemma TakeOffNoStuck(s: System, id: string)
    requires NoStuck(s) && id in s.items && id !in s.flying
    ensures NoStuck(TakeOff(s, id))
  {
  }

  lemma LandNoStuck(s: System, id: string, item: Subscription, storeOk: bool)
    requires NoStuck(s) && id in s.flying && item.id == id && !item.status.StatusUpdating?
    ensures var t := Land(s, id, item, storeOk);
            NoStuck(t) && id !in t.flying && id in t.items && !t.items[id].status.StatusUpdating?
  {
  }

  lemma ChangedStatus(item: Subscription, change: Change)
    ensures Changed(item, change).status == item.status && Changed(item, change).id == item.id
  {
  }

  lemma RecoveredStatus(codec: Codec, item: Subscription)
    ensures !Recovered(codec, item).status.StatusUpdating? && Recovered(codec, item).id == item.id
  {
  }

  lemma ReloadNoStuck(options: Options, s: System)
    requires NoStuck(s)
    ensures NoStuck(DoReload(options, s))
  {
    forall id | id in s.stored
      ensures !Recovered(options.codec, s.stored[id]).status.StatusUpdating? && Recovered(options.codec, s.stored[id]).id == id
    {
      RecoveredStatus(options.codec, s.stored[id]);
    }
  }

  lemma NewItemStatus(options: Options, req: AddRequest, generated: string, now: int)
    requires req.url.Some?
    ensures NewItem(options, req, generated, now).status == StatusIdle
  {
  }

  lemma AddNoStuck(options: Options, s: System, req: AddRequest, generated: string, now: int, storeOk: bool)
    requires NoStuck(s)
    ensures NoStuck(DoAdd(options, s, req, generated, now, storeOk).0)
  {
    if req.url.Some? && RequestedInterval(options, req) >= MIN_INTERVAL {
      NewItemStatus(options, req, generated, now);
      AddItemNoStuck(s, NewItem(options, req, generated, now), storeOk);
    }
  }

  lemma AddItemNoStuck(s: System, item: Subscription, storeOk: bool)
    requires NoStuck(s) && item.status == StatusIdle
    ensures NoStuck(AddItem(s, item, storeOk).0)
  {
    PutNoStuck(s, item);
  }

  lemma ModifyNoStuck(s: System, id: string, change: Change, storeOk: bool)
    requires NoStuck(s)
    ensures NoStuck(DoModify(s, id, change, storeOk).0)
  {
    if id in s.items {
      ChangedStatus(s.items[id], change);
      PutNoStuck(s, Changed(s.items[id], change));
    }
  }

  lemma BeginNoStuck(s: System, id: string)
    requires NoStuck(s)
    ensures NoStuck(DoBegin(s, id).0)
  {
    if id in s.items && id !in s.flying {
      TakeOffNoStuck(s, id);
    }
  }

  lemma StageNoStuck(s: System, id: string, stage: Stage)
    requires NoStuck(s)
    ensures NoStuck(DoStage(s, id, stage))
  {
  }

  lemma RemoveNoStuck(s: System, id: string, storeOk: bool)
    requires NoStuck(s)
    ensures NoStuck(DoRemove(s, id, storeOk).0)
  {
  }

  /** An entry is updating only while an update of it is in flight, after every command. */
  lemma StepNoStuck(options: Options, s: System, e: Event)
    requires NoStuck(s)
    ensures NoStuck(Step(options, s, e))
  {
    match e {
      case Add(req, generated, now, storeOk) => AddNoStuck(options, s, req, generated, now, storeOk);
      case Remove(id, storeOk) => RemoveNoStuck(s, id, storeOk);
      case Modify(id, change, storeOk) => ModifyNoStuck(s, id, change, storeOk);
      case Begin(id) => BeginNoStuck(s, id);
      case SetStage(id, stage) => StageNoStuck(s, id, stage);
      case Finish(id, fetch, now, storeOk) =>
        if id in s.flying {
          FinishedNotUpdating(options, s, id, fetch, now, storeOk);
        }
      case Reload => ReloadNoStuck(options, s);
    }
  }

  /** However an update ends, its entry is not updating afterwards. */
  lemma FinishedNotUpdating(options: Options, s: System, id: string, fetch: Fetch, now: int, storeOk: bool)
    requires NoStuck(s) && id in s.flying
    ensures var t := DoFinish(options, s, id, fetch, now, storeOk);
            NoStuck(t) && id !in t.flying && id in t.items && !t.items[id].status.StatusUpdating?
  {
    FinishedFields(options, s.flying[id], fetch, now);
    LandNoStuck(s, id, Finished(options, s.flying[id], fetch, now), storeOk);
  }

  lemma {:induction false} RunNoStuck(options: Options, s: System, events: seq<Event>)
    requires NoStuck(s)
    ensures NoStuck(Run(options, s, events))
  {
    if events != [] {
      RunNoStuck(options, s, events[..|events| - 1]);
      StepNoStuck(options, Run(options, s, events[..|events| - 1]), events[|events| - 1]);
    }
  }

  /******* Snapshot and store *******/

  /** What is the same in snapshot and store: all but status, stage and error text. */
  function Core(item: Subscription): Subscription {
    item.(status := StatusIdle, stage := StageIdle, error := "")
  }

  ghost predicate Agree(a: Snapshot, b: Snapshot) {
    a.Keys == b.Keys && forall id :: id in a ==> Core(a[id]) == Core(b[id])
  }

  ghost predicate InAgreement(s: System) { Agree(s.items, s.stored) }

  /** The update's copy is still what the store holds. */
  predicate CopyStored(s: System, id: string) {
    id in s.flying && id in s.stored && Core(s.stored[id]) == Core(s.flying[id])
  }

  /** The commit of an update in flight that cannot be stored. */
  predicate Unstored(s: System, e: Event) {
    e.Finish? && !e.storeOk && e.id in s.flying
  }

  lemma PutAgree(s: System, item: Subscription)
    requires Agree(s.items, s.stored)
    ensures Agree(PutItem(s, item).items, PutItem(s, item).stored)
  {
  }

  lemma DropAgree(s: System, id: string)
    requires Agree(s.items, s.stored)
    ensures Agree(DropItem(s, id).items, DropItem(s, id).stored)
  {
  }

  lemma TransientCore(item: Subscription, stage: Stage)
    ensures Core(AsUpdating(item)) == Core(item) && Core(AtStage(item, stage)) == Core(item)
  {
  }

  /** Publishing a record that differs only in what is not compared. */
  lemma PublishAgree(items: Snapshot, stored: Snapshot, id: string, item: Subscription)
    requires Agree(items, stored) && id in items && Core(item) == Core(items[id])
    ensures Agree(items[id := item], stored)
  {
  }

  lemma UnstoredAgree(s: System, id: string)
    requires Agree(s.items, s.stored) && id in s.flying
    ensures Agree(s.items[id := s.flying[id]], s.stored) <==> CopyStored(s, id)
  {
    var next := s.items[id := s.flying[id]];
    if Agree(next, s.stored) {
      assert id in next;
    }
    if CopyStored(s, id) {
      assert next.Keys == s.stored.Keys;
    }
  }

  lemma FinishAgree(options: Options, s: System, id: string, fetch: Fetch, now: int, storeOk: bool)
    requires NoStuck(s) && Agree(s.items, s.stored) && id in s.flying
    ensures InAgreement(DoFinish(options, s, id, fetch, now, storeOk)) <==> (!storeOk ==> CopyStored(s, id))
  {
    var item := Finished(options, s.flying[id], fetch, now);
    FinishedFields(options, s.flying[id], fetch, now);
    UnstoredAgree(s, id);
    PutAgree(s, item);
  }

  lemma RecoveredCore(codec: Codec, item: Subscription)
    requires WithSource(codec, item.nodes, item.id) == item.nodes
    ensures Core(Recovered(codec, item)) == Core(item)
  {
  }

  lemma ReloadAgree(options: Options, s: System)
    requires RecordsOk(options.codec, s.stored)
    ensures Agree(DoReload(options, s).items, s.stored)
  {
    forall id | id in s.stored ensures Core(Recovered(options.codec, s.stored[id])) == Core(s.stored[id]) {
      RecoveredCore(options.codec, s.stored[id]);
    }
  }

  lemma AddItemAgree(s: System, item: Subscription, storeOk: bool)
    requires InAgreement(s)
    ensures InAgreement(AddItem(s, item, storeOk).0)
  {
    PutAgree(s, item);
  }

  lemma AddAgree(options: Options, s: System, req: AddRequest, generated: string, now: int, storeOk: bool)
    requires InAgreement(s)
    ensures InAgreement(DoAdd(options, s, req, generated, now, storeOk).0)
  {
    if req.url.Some? && RequestedInterval(options, req) >= MIN_INTERVAL {
      AddItemAgree(s, NewItem(options, req, generated, now), storeOk);
    }
  }

  lemma RemoveAgree(s: System, id: string, storeOk: bool)
    requires InAgreement(s)
    ensures InAgreement(DoRemove(s, id, storeOk).0)
  {
    DropAgree(s, id);
  }

  lemma ModifyAgree(s: System, id: string, change: Change, storeOk: bool)
    requires InAgreement(s)
    ensures InAgreement(DoModify(s, id, change, storeOk).0)
  {
    if id in s.items {
      PutAgree(s, Changed(s.items[id], change));
    }
  }

  lemma BeginAgree(s: System, id: string)
    requires InAgreement(s)
    ensures InAgreement(DoBegin(s, id).0)
  {
    if id in s.items {
      TransientCore(s.items[id], StageIdle);
      PublishAgree(s.items, s.stored, id, AsUpdating(s.items[id]));
    }
  }

  lemma StageAgree(s: System, id: string, stage: Stage)
    requires InAgreement(s)
    ensures InAgreement(DoStage(s, id, stage))
  {
    if id in s.items {
      TransientCore(s.items[id], stage);
      PublishAgree(s.items, s.stored, id, AtStage(s.items[id], stage));
    }
  }

  /** Every command keeps snapshot and store in agreement, except that a commit that cannot be stored
      does so exactly when the store still holds the copy that is published again. */
  lemma StepAgree(options: Options, s: System, e: Event)
    requires RecordsOk(options.codec, s.stored) && NoStuck(s) && InAgreement(s)
    ensures InAgreement(Step(options, s, e)) <==> (Unstored(s, e) ==> CopyStored(s, e.id))
  {
    match e {
      case Add(req, generated, now, storeOk) => AddAgree(options, s, req, generated, now, storeOk);
      case Remove(id, storeOk) => RemoveAgree(s, id, storeOk);
      case Modify(id, change, storeOk) => ModifyAgree(s, id, change, storeOk);
      case Begin(id) => BeginAgree(s, id);
      case SetStage(id, stage) => StageAgree(s, id, stage);
      case Finish(id, fetch, now, storeOk) =>
        if id in s.flying {
          FinishAgree(options, s, id, fetch, now, storeOk);
        }
      case Reload => ReloadAgree(options, s);
    }
  }
}

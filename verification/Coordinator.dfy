/** The coordinator: the object that executes subscription commands one at a time against the store and
    publishes the next snapshot. Every method is proved to make exactly the step that `Updates`
    describes. */
module Coordinator {
  import opened Wrappers
  import opened Text
  import opened Sequences
  import opened RuntimeModel
  import opened Validation
  import opened Identity
  import opened Subscriptions
  import opened Store
  import opened NodePool
  import opened Updates
  import opened Interleavings

  /** What a command prepared: the state to publish, the one to publish instead if the store refuses,
      and what to store. */
  datatype Mutation = Mutation(next: Snapshot, failure: Option<Snapshot>, persist: Option<TxOp>)

  method MergeLinks(before: Links, given: Links) returns (links: Links)
    ensures links == MergedLinks(before, given)
  {
    links := before;
    if given.expiresAt != 0 {
      links := links.(expiresAt := given.expiresAt);
    }
    if given.title != "" {
      links := links.(title := given.title);
    }
    if given.webPage != "" {
      links := links.(webPage := given.webPage);
    }
    if given.support != "" {
      links := links.(support := given.support);
    }
    if given.movedTo != "" {
      links := links.(movedTo := given.movedTo);
    }
  }

  method ApplyHeaderMetadata(before: Subscription, r: Response) returns (item: Subscription)
    ensures item == WithHeaders(before, r)
  {
    item := before;
    if r.traffic.Some? {
      item := item.(traffic := r.traffic.value);
    }
    var links := MergeLinks(item.links, r.links);
    item := item.(links := links);
    if r.suggestedInterval >= MIN_INTERVAL {
      item := item.(interval := r.suggestedInterval);
    }
  }

  method FinishNotModified(copy: Subscription, r: Response, now: int) returns (item: Subscription)
    ensures forall options :: item == Finished(options, copy, NotModified(r), now)
  {
    item := copy.(status := StatusReady, stage := StageComplete, error := "", errorCode := "");
    if r.etag != "" {
      item := item.(validators := item.validators.(etag := r.etag));
    }
    if r.lastModified != "" {
      item := item.(validators := item.validators.(lastModified := r.lastModified));
    }
    item := ApplyHeaderMetadata(item, r);
    item := item.(updatedAt := now);
    item := item.(nextUpdateAt := now + item.interval);
  }

  method FinishFetched(options: Options, copy: Subscription, fetch: Fetch, now: int) returns (item: Subscription)
    requires fetch.Fetched?
    ensures item == Finished(options, copy, fetch, now)
  {
    var nodes := ComputeWithSource(options.codec, fetch.nodes, copy.id);
    item := copy.(nodes := nodes);
    item := item.(endpoints := fetch.endpoints);
    item := item.(validators := Validators(fetch.nodesHash, fetch.response.etag, fetch.response.lastModified));
    item := item.(status := StatusReady, stage := StageComplete, error := "", errorCode := "");
    item := ApplyHeaderMetadata(item, fetch.response);
    item := item.(updatedAt := now);
    item := item.(nextUpdateAt := now + item.interval);
  }

  class SubscriptionManager {
    const options: Options
    const store: MemoryStore
    var current: Snapshot
    /** The updates in flight and the copy each of them works on. */
    var flying: Snapshot
    ghost var touched: set<string>

    ghost predicate Valid()
      reads this, store
    {
      store.Valid() && Profiled(options.codec, current) && Profiled(options.codec, flying)
    }

    ghost function State(): System
      reads this, store
    {
      System(current, Contents(store.items), flying, touched)
    }

    constructor (options: Options, store: MemoryStore)
      requires store.Valid()
      ensures Valid() && State() == System(map[], Contents(store.items), map[], {})
      ensures this.store == store && this.options == options
    {
      this.options, this.store := options, store;
      current, flying, touched := map[], map[], {};
    }

    /** One round of the coordinator loop, after the command was built: store, then publish. */
    method Apply(mutation: Mutation, storeOk: bool) returns (ok: bool)
      requires store.Valid() && mutation.persist != Some(Abort)
      modifies this`current, store
      ensures store.Valid()
      ensures ok <==> mutation.persist.None? || storeOk
      ensures current == if ok then mutation.next else if mutation.failure.Some? then mutation.failure.value else old(current)
      ensures Contents(store.items) ==
              if ok && mutation.persist.Some? then ApplyItem(old(Contents(store.items)), mutation.persist.value)
              else old(Contents(store.items))
    {
      ok := true;
      if mutation.persist.Some? {
        var script := if storeOk then [mutation.persist.value] else [mutation.persist.value, Abort];
        ok := store.Update(false, script);
        OneOperation(old(Contents(store.items)), mutation.persist.value);
      }
      if ok {
        current := mutation.next;
      } else if mutation.failure.Some? {
        current := mutation.failure.value;
      }
    }

    /** `Load`: every stored record with an ID, no longer updating, under recomputed identities. */
    method Load()
      requires Valid()
      modifies this
      ensures Valid() && State() == DoReload(options, old(State()))
    {
      var stored := store.Load();
      var items: Snapshot := map[];
      for i := 0 to |stored|
        invariant items == RecoveredAll(options.codec, Contents(stored[..i]))
      {
        RecoveredPrefix(options.codec, stored, i);
        var item := stored[i];
        if item.id == "" {
          continue;
        }
        if item.status.StatusUpdating? {
          item := item.(status := StatusIdle, stage := StageIdle);
        }
        var nodes := ComputeWithSource(options.codec, item.nodes, item.id);
        item := item.(nodes := nodes);
        items := items[item.id := item];
      }
      assert stored[..|stored|] == stored;
      RecoveredProfiled(options.codec, Contents(stored));
      current, flying, touched := items, map[], {};
    }

    method AddRequest(req: AddRequest, generated: string, now: int, storeOk: bool) returns (error: Option<Error>)
      requires Valid()
      modifies this`current, this`touched, store
      ensures Valid() && (State(), error) == DoAdd(options, old(State()), req, generated, now, storeOk)
    {
      var id := req.id;
      if TrimSpace(id) == "" {
        id := generated;
      }
      if req.url.None? {
        return Some(InvalidUrl);
      }
      var name := req.name;
      if TrimSpace(name) == "" {
        name := id;
      }
      var interval := req.interval;
      if interval <= 0 {
        interval := options.defaultInterval;
      }
      if interval < MIN_INTERVAL {
        return Some(IntervalTooShort);
      }
      var item := Subscription(id, TrimSpace(name), req.url.value, req.enabled, req.autoUpdate, interval, req.headers,
                               StatusIdle, StageIdle, [], NO_VALIDATORS, "", "", 0, now, NO_TRAFFIC, [], NO_LINKS);
      assert item == NewItem(options, req, generated, now);
      NoNodes(options.codec, id);
      error := Insert(item, storeOk);
    }

    method Insert(item: Subscription, storeOk: bool) returns (error: Option<Error>)
      requires Valid() && ProfileOk(options.codec, item.id, item)
      modifies this`current, this`touched, store
      ensures Valid() && (State(), error) == AddItem(old(State()), item, storeOk)
    {
      if item.id in current {
        return Some(AlreadyExists);
      }
      ProfiledPut(options.codec, current, item.id, item);
      var ok := PutEntry(item.id, item, storeOk);
      return if ok then None else Some(StoreFailed);
    }

    /** A command that stores a record and publishes it. */
    method PutEntry(id: string, item: Subscription, storeOk: bool) returns (ok: bool)
      requires store.Valid() && item.id == id
      modifies this`current, this`touched, store
      ensures store.Valid() && ok == storeOk
      ensures State() == if ok then PutItem(old(State()), item) else old(State())
    {
      ok := Apply(Mutation(current[id := item], None, Some(Put(item))), storeOk);
      if ok {
        touched := touched + {id};
      }
    }

    method Remove(id: string, storeOk: bool) returns (error: Option<Error>)
      requires Valid()
      modifies this`current, this`touched, store
      ensures Valid() && (State(), error) == DoRemove(old(State()), id, storeOk)
    {
      if id !in current {
        return Some(NotFound);
      }
      var ok := DropEntry(id, storeOk);
      return if ok then None else Some(StoreFailed);
    }

    method DropEntry(id: string, storeOk: bool) returns (ok: bool)
      requires store.Valid()
      modifies this`current, this`touched, store
      ensures store.Valid() && ok == storeOk
      ensures State() == if ok then DropItem(old(State()), id) else old(State())
    {
      ok := Apply(Mutation(current - {id}, None, Some(Delete(id))), storeOk);
      if ok {
        touched := touched + {id};
      }
    }

    /** `Rename`, `ConfigureUpdates` and `SetEnabled`: check the arguments, then change the entry. */
    method ModifyEntry(id: string, change: Change, storeOk: bool) returns (error: Option<Error>)
      requires Valid()
      modifies this`current, this`touched, store
      ensures Valid() && (State(), error) == DoModify(old(State()), id, change, storeOk)
    {
      var refusal := CheckChange(change);
      if refusal.Some? {
        return refusal;
      }
      if id !in current {
        return Some(NotFound);
      }
      var item := ChangeItem(current[id], change);
      ChangedProfile(options.codec, id, current[id], change);
      ProfiledPut(options.codec, current, id, item);
      var ok := PutEntry(id, item, storeOk);
      return if ok then None else Some(StoreFailed);
    }

    method BeginUpdate(id: string) returns (error: Option<Error>)
      requires Valid()
      modifies this, store
      ensures Valid() && (State(), error) == DoBegin(old(State()), id)
    {
      if id in flying {
        return None;
      }
      if id !in current {
        return Some(NotFound);
      }
      ProfiledPut(options.codec, current, id, AsUpdating(current[id]));
      ProfiledPut(options.codec, flying, id, current[id]);
      ClaimEntry(id);
      return None;
    }

    /** Keeps a copy of the entry and publishes it as updating; nothing is stored. */
    method ClaimEntry(id: string)
      requires store.Valid() && id in current
      modifies this, store
      ensures store.Valid() && State() == TakeOff(old(State()), id)
    {
      var item := current[id];
      flying, touched := flying[id := item], touched - {id};
      item := item.(status := StatusUpdating, stage := StageFetching, error := "");
      var ok := Apply(Mutation(current[id := item], None, None), true);
    }

    method ReportStage(id: string, stage: Stage)
      requires Valid()
      modifies this`current, store
      ensures Valid() && State() == DoStage(old(State()), id, stage)
    {
      if id !in flying || id !in current {
        return;
      }
      var item := current[id];
      item := item.(stage := stage);
      var ok := Apply(Mutation(current[id := item], None, None), true);
    }

    /** The rest of an update after its document was fetched or not: compute the record, commit it. */
    method FinishUpdate(id: string, fetch: Fetch, now: int, storeOk: bool) returns (error: Option<Error>)
      requires Valid() && id in flying
      modifies this`current, this`flying, store
      ensures Valid() && State() == DoFinish(options, old(State()), id, fetch, now, storeOk)
      ensures error.None? <==> Succeeds(fetch) && storeOk
    {
      var item, cause := ComputeFinished(options, flying[id], fetch, now);
      var ok := Commit(id, item, storeOk);
      if cause.Some? {
        return cause;
      }
      return if ok then None else Some(StoreFailed);
    }

    method Commit(id: string, finished: Subscription, storeOk: bool) returns (ok: bool)
      requires Valid() && id in flying && ProfileOk(options.codec, id, finished)
      modifies this`current, this`flying, store
      ensures Valid() && State() == Land(old(State()), id, finished, storeOk)
      ensures ok == storeOk
    {
      var item := finished;
      var nodes := ComputeWithSource(options.codec, item.nodes, item.id);
      item := item.(nodes := nodes);
      ProfiledPut(options.codec, current, id, item);
      ProfiledPut(options.codec, current, id, flying[id]);
      ok := ReplaceEntry(id, item, storeOk);
    }

    /** Stores and publishes the finished record, or publishes the copy again. */
    method ReplaceEntry(id: string, item: Subscription, storeOk: bool) returns (ok: bool)
      requires store.Valid() && id in flying && item.id == id
      modifies this`current, this`flying, store
      ensures store.Valid() && ok == storeOk && State() == Land(old(State()), id, item, storeOk)
    {
      var persisted := flying[id];
      ok := Apply(Mutation(current[item.id := item], Some(current[item.id := persisted]), Some(Put(item))), storeOk);
      flying := flying - {id};
    }

    /** `updateDue`: the subscriptions whose update is started now. */
    method DueUpdates(now: int) returns (due: seq<string>)
      ensures NoDup(due) && forall id :: id in due <==>
                id in current && current[id].enabled && current[id].autoUpdate && current[id].nextUpdateAt <= now
      ensures forall id :: id in due <==> id in current && Due(current[id], now)
    {
      var ids := Enumerate(current.Keys);
      due := [];
      for i := 0 to |ids|
        invariant NoDup(due)
        invariant forall id :: id in due <==> id in ids[..i] && id in current && Due(current[id], now)
      {
        TakeStep(ids, i);
        AppendMembers(ids[..i], ids[i]);
        NoDupPrefix(ids[..i + 1], ids);
        NoDupAppend(ids[..i], ids[i]);
        assert ids[i] in ids;
        var item := current[ids[i]];
        if item.enabled && item.autoUpdate && item.nextUpdateAt <= now {
          NoDupAppend(due, ids[i]);
          AppendMembers(due, ids[i]);
          due := due + [ids[i]];
        }
      }
      assert ids[..|ids|] == ids;
    }

    /******* Serving commands *******/

    method Serve(e: Event)
      requires Valid()
      modifies this, store
      ensures Valid() && State() == Step(options, old(State()), e)
    {
      match e {
        case Add(req, generated, now, storeOk) =>
          var error := AddRequest(req, generated, now, storeOk);
        case Remove(id, storeOk) =>
          var error := Remove(id, storeOk);
        case Modify(id, change, storeOk) =>
          var error := ModifyEntry(id, change, storeOk);
        case Begin(id) =>
          var error := BeginUpdate(id);
        case SetStage(id, stage) =>
          ReportStage(id, stage);
        case Finish(id, fetch, now, storeOk) =>
          if id in flying {
            var error := FinishUpdate(id, fetch, now, storeOk);
          }
        case Reload =>
          Load();
      }
    }

    /** Any interleaving of commands makes the run that `Interleavings` reasons about. */
    method ServeAll(events: seq<Event>)
      requires Valid()
      modifies this, store
      ensures Valid() && State() == Run(options, old(State()), events)
    {
      for i := 0 to |events|
        invariant Valid() && State() == Run(options, old(State()), events[..i])
      {
        assert events[..i + 1][..i] == events[..i];
        Serve(events[i]);
      }
      assert events[..|events|] == events;
    }
  }

  method CheckChange(change: Change) returns (refusal: Option<Error>)
    ensures refusal == Refusal(change)
  {
    match change {
      case Rename(name) =>
        if TrimSpace(name) == "" {
          return Some(NameRequired);
        }
      case Configure(enabled, interval, _) =>
        if enabled && interval < MIN_INTERVAL {
          return Some(IntervalTooShort);
        }
      case SetEnabled(_) =>
    }
    return None;
  }

  method ChangeItem(before: Subscription, change: Change) returns (item: Subscription)
    ensures item == Changed(before, change)
  {
    item := before;
    match change {
      case Rename(name) =>
        item := item.(name := TrimSpace(name));
      case Configure(enabled, interval, now) =>
        item := item.(autoUpdate := enabled);
        if interval > 0 {
          item := item.(interval := interval);
        }
        if enabled {
          item := item.(nextUpdateAt := now);
        }
      case SetEnabled(on) =>
        item := item.(enabled := on);
    }
  }

  method ComputeFinished(options: Options, copy: Subscription, fetch: Fetch, now: int)
    returns (item: Subscription, cause: Option<Error>)
    requires ProfileOk(options.codec, copy.id, copy)
    ensures item == Finished(options, copy, fetch, now)
    ensures cause.None? <==> Succeeds(fetch)
    ensures ProfileOk(options.codec, copy.id, item)
  {
    match fetch {
      case FetchFailed(text) =>
        item := FailUpdate(copy, "fetch", text, now);
        cause := Some(UpdateFailed(text));
      case Unparsable(text) =>
        item := FailUpdate(copy, "parse", text, now);
        cause := Some(UpdateFailed(text));
      case NotModified(r) =>
        item := FinishNotModified(copy, r, now);
        cause := None;
      case Fetched(_, _, _, _) =>
        item := FinishFetched(options, copy, fetch, now);
        cause := None;
    }
    FinishedProfile(options, copy, fetch, now);
  }

  method FailUpdate(copy: Subscription, code: string, cause: string, now: int) returns (item: Subscription)
    ensures item == FailedItem(copy, code, cause, now)
  {
    item := copy.(status := StatusFailed, stage := StageFailed, errorCode := code, error := cause);
    item := item.(updatedAt := now);
    var delay := RetryDelay(item.interval);
    item := item.(nextUpdateAt := now + delay);
  }

  method RetryDelay(interval: int) returns (delay: int)
    ensures delay == if interval < 0 then MINUTE else FailureDelay(interval)
  {
    delay := interval / 8;
    if delay < MINUTE {
      return MINUTE;
    }
    if delay > MAX_RETRY {
      return MAX_RETRY;
    }
  }

  lemma ProfiledPut(codec: Codec, m: Snapshot, id: string, item: Subscription)
    requires Profiled(codec, m) && ProfileOk(codec, id, item)
    ensures Profiled(codec, m[id := item])
  {
  }

  lemma ChangedProfile(codec: Codec, id: string, item: Subscription, change: Change)
    requires ProfileOk(codec, id, item)
    ensures ProfileOk(codec, id, Changed(item, change))
  {
  }

  lemma RecoveredProfiled(codec: Codec, stored: map<string, Subscription>)
    requires forall id :: id in stored ==> stored[id].id == id
    ensures Profiled(codec, RecoveredAll(codec, stored))
  {
    forall id | id in stored ensures ProfileOk(codec, id, Recovered(codec, stored[id])) {
      WithSourceIdempotent(codec, stored[id].nodes, id);
    }
  }

  lemma RecoveredPrefix(codec: Codec, stored: seq<Subscription>, i: nat)
    requires i < |stored|
    ensures var before, after := RecoveredAll(codec, Contents(stored[..i])), RecoveredAll(codec, Contents(stored[..i + 1]));
            after == if stored[i].id == "" then before else before[stored[i].id := Recovered(codec, stored[i])]
  {
    assert stored[..i + 1][..i] == stored[..i];
    RecoveredWith(codec, Contents(stored[..i]), stored[i]);
  }

  lemma RecoveredWith(codec: Codec, m: Snapshot, item: Subscription)
    ensures RecoveredAll(codec, m[item.id := item]) ==
            if item.id == "" then RecoveredAll(codec, m) else RecoveredAll(codec, m)[item.id := Recovered(codec, item)]
  {
    KeepIfInsert(Recovering(codec), m, item.id, item, "");
  }

  lemma KeepIfInsert<V>(f: V -> V, m: map<string, V>, k: string, v: V, without: string)
    ensures MapWithout(f, m[k := v], without) ==
            if k == without then MapWithout(f, m, without) else MapWithout(f, m, without)[k := f(v)]
  {
  }

  lemma OneOperation(m: map<string, Subscription>, op: TxOp)
    ensures RunItems(m, [op]) == ApplyItem(m, op)
  {
    assert [op][..0] == [];
  }
}

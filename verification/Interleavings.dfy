/** What holds over every interleaving of coordinator commands and updates in flight: agreement of
    snapshot and store, recovery after a restart, scheduling, and the pools that are published. */
module Interleavings {
  import opened Wrappers
  import opened Text
  import opened Sequences
  import opened RuntimeModel
  import opened Identity
  import opened Subscriptions
  import opened NodePool
  import opened Updates
  import Commitments

  /******* Agreement over runs *******/

  /** An update whose subscription was not touched since it began holds the stored copy. */
  ghost predicate Tracked(s: System) {
    forall id :: id in s.flying && id !in s.touched ==> CopyStored(s, id)
  }

  /** A commit fails to be stored only when its subscription was not touched since the update began. */
  predicate Careful(s: System, e: Event) {
    Unstored(s, e) ==> e.id !in s.touched
  }

  ghost predicate CarefulRun(options: Options, s: System, events: seq<Event>) {
    events == [] ||
    (CarefulRun(options, s, events[..|events| - 1])
     && Careful(Run(options, s, events[..|events| - 1]), events[|events| - 1]))
  }

  lemma PutTracked(s: System, item: Subscription)
    requires Tracked(s)
    ensures Tracked(PutItem(s, item))
  {
    var t := PutItem(s, item);
    forall id | id in t.flying && id !in t.touched ensures CopyStored(t, id) {
      assert CopyStored(s, id);
    }
  }

  lemma DropTracked(s: System, id: string)
    requires Tracked(s)
    ensures Tracked(DropItem(s, id))
  {
    var t := DropItem(s, id);
    forall x | x in t.flying && x !in t.touched ensures CopyStored(t, x) {
      assert CopyStored(s, x);
    }
  }

  lemma TakeOffTracked(s: System, id: string)
    requires Tracked(s) && InAgreement(s) && id in s.items
    ensures Tracked(TakeOff(s, id))
  {
    var t := TakeOff(s, id);
    forall x | x in t.flying && x !in t.touched ensures CopyStored(t, x) {
      if x != id {
        assert CopyStored(s, x);
      }
    }
  }

  lemma LandTracked(s: System, id: string, item: Subscription, storeOk: bool)
    requires Tracked(s) && id in s.flying && item.id == id
    ensures Tracked(Land(s, id, item, storeOk))
  {
    var t := Land(s, id, item, storeOk);
    forall x | x in t.flying && x !in t.touched ensures CopyStored(t, x) {
      assert CopyStored(s, x);
    }
  }

  lemma AddItemTracked(s: System, item: Subscription, storeOk: bool)
    requires Tracked(s)
    ensures Tracked(AddItem(s, item, storeOk).0)
  {
    PutTracked(s, item);
  }

  lemma AddTracked(options: Options, s: System, req: AddRequest, generated: string, now: int, storeOk: bool)
    requires Tracked(s)
    ensures Tracked(DoAdd(options, s, req, generated, now, storeOk).0)
  {
    if req.url.Some? && RequestedInterval(options, req) >= MIN_INTERVAL {
      AddItemTracked(s, NewItem(options, req, generated, now), storeOk);
    }
  }

  lemma ModifyTracked(s: System, id: string, change: Change, storeOk: bool)
    requires Tracked(s)
    ensures Tracked(DoModify(s, id, change, storeOk).0)
  {
    if id in s.items {
      PutTracked(s, Changed(s.items[id], change));
    }
  }

  lemma StageTracked(s: System, id: string, stage: Stage)
    requires Tracked(s)
    ensures Tracked(DoStage(s, id, stage))
  {
    var t := DoStage(s, id, stage);
    forall x | x in t.flying && x !in t.touched ensures CopyStored(t, x) {
      assert CopyStored(s, x);
    }
  }

  lemma StepTracked(options: Options, s: System, e: Event)
    requires Tracked(s) && InAgreement(s) && NoStuck(s)
    ensures Tracked(Step(options, s, e))
  {
    match e {
      case Add(req, generated, now, storeOk) => AddTracked(options, s, req, generated, now, storeOk);
      case Remove(id, storeOk) => DropTracked(s, id);
      case Modify(id, change, storeOk) => ModifyTracked(s, id, change, storeOk);
      case Begin(id) =>
        if id in s.items {
          TakeOffTracked(s, id);
        }
      case SetStage(id, stage) => StageTracked(s, id, stage);
      case Finish(id, fetch, now, storeOk) =>
        if id in s.flying {
          FinishedFields(options, s.flying[id], fetch, now);
          LandTracked(s, id, Finished(options, s.flying[id], fetch, now), storeOk);
        }
      case Reload =>
    }
  }

  ghost predicate SystemOk(options: Options, s: System) {
    AllOk(options.codec, s) && NoStuck(s)
  }

  ghost predicate Coherent(s: System) {
    InAgreement(s) && Tracked(s)
  }

  lemma {:induction false} RunSound(options: Options, s: System, events: seq<Event>)
    requires SystemOk(options, s) && forall e :: e in events ==> Possible(e)
    ensures SystemOk(options, Run(options, s, events))
  {
    RunOk(options, s, events);
    RunNoStuck(options, s, events);
  }

  /** In every interleaving whose unstored commits are of untouched subscriptions, snapshot and store
      hold the same IDs and agree on everything but status, stage and error text. */
  lemma {:induction false} RunCoherent(options: Options, s: System, events: seq<Event>)
    requires SystemOk(options, s) && Coherent(s) && CarefulRun(options, s, events)
    requires forall e :: e in events ==> Possible(e)
    ensures Coherent(Run(options, s, events))
  {
    if events != [] {
      var init, last := events[..|events| - 1], events[|events| - 1];
      var before := Run(options, s, init);
      RunCoherent(options, s, init);
      RunSound(options, s, init);
      StepAgree(options, before, last);
      StepTracked(options, before, last);
    }
  }

  lemma EmptySound(options: Options)
    ensures SystemOk(options, EMPTY) && Coherent(EMPTY)
  {
  }

  /******* The end of an update *******/

  lemma StepLanded(options: Options, s: System, e: Event, id: string)
    requires id !in s.flying && !(e.Begin? && e.id == id)
    ensures id !in Step(options, s, e).flying
  {
  }

  lemma {:induction false} RunLanded(options: Options, s: System, events: seq<Event>, id: string)
    requires id !in s.flying && Begin(id) !in events
    ensures id !in Run(options, s, events).flying
  {
    if events != [] {
      RunLanded(options, s, events[..|events| - 1], id);
      StepLanded(options, Run(options, s, events[..|events| - 1]), events[|events| - 1], id);
    }
  }

  /** However an update ends, its entry is not updating then or at any later point, until another
      update of it begins. */
  lemma UpdateEnds(options: Options, s: System, id: string, fetch: Fetch, now: int, storeOk: bool, events: seq<Event>)
    requires NoStuck(s) && id in s.flying && Begin(id) !in events
    ensures var t := Run(options, DoFinish(options, s, id, fetch, now, storeOk), events);
            id !in t.flying && (id in t.items ==> !t.items[id].status.StatusUpdating?)
  {
    FinishedNotUpdating(options, s, id, fetch, now, storeOk);
    RunNoStuck(options, DoFinish(options, s, id, fetch, now, storeOk), events);
    RunLanded(options, DoFinish(options, s, id, fetch, now, storeOk), events, id);
  }

  /******* What the end of an update brings back *******/

  /** The end of an update publishes the name from its beginning; stored, it overwrites the new name in
      the store as well, and not stored, it leaves snapshot and store apart. */
  lemma RenameDuringUpdate(options: Options, s: System, id: string, fetch: Fetch, now: int, storeOk: bool)
    requires NoStuck(s) && InAgreement(s) && id in s.items && id in s.flying && s.flying[id].name != s.items[id].name
    ensures var t := DoFinish(options, s, id, fetch, now, storeOk);
            && id in t.items && t.items[id].name == s.flying[id].name
            && id in t.stored && t.stored[id].name == (if storeOk then s.flying[id].name else s.items[id].name)
            && (InAgreement(t) <==> storeOk)
  {
    FinishedFields(options, s.flying[id], fetch, now);
    FinishedKeeps(options, s.flying[id], fetch, now, Named(s.flying[id].name));
    NamesDiffer(s.flying[id], s.stored[id]);
    NamesDiffer(s.items[id], s.stored[id]);
    FinishAgree(options, s, id, fetch, now, storeOk);
  }

  lemma NamesDiffer(a: Subscription, b: Subscription)
    ensures a.name != b.name ==> Core(a) != Core(b)
  {
  }

  /** What a change sets: the name, whether the subscription is enabled, whether updates are automatic,
      and how long apart they are. */
  datatype Setting = Named(name: string) | Enabled(on: bool) | Automatic(auto: bool) | Every(interval: int)

  predicate Has(item: Subscription, setting: Setting) {
    match setting
    case Named(name) => item.name == name
    case Enabled(on) => item.enabled == on
    case Automatic(auto) => item.autoUpdate == auto
    case Every(interval) => item.interval == interval
  }

  /** The change may set this to something else. */
  predicate Sets(change: Change, setting: Setting) {
    match change
    case Rename(_) => setting.Named?
    case SetEnabled(_) => setting.Enabled?
    case Configure(_, interval, _) => setting.Automatic? || (setting.Every? && interval > 0)
  }

  /** The provider suggests an interval that will be taken. */
  predicate Suggests(fetch: Fetch) {
    (fetch.NotModified? || fetch.Fetched?) && fetch.response.suggestedInterval >= MIN_INTERVAL
  }

  /** The command removes the subscription, or is one that may set this: a change of it, or, for the
      interval, the end of an update whose response suggests one. */
  predicate Touches(e: Event, id: string, setting: Setting) {
    || (e.Remove? && e.id == id)
    || (e.Modify? && e.id == id && Sets(e.change, setting))
    || (e.Finish? && e.id == id && setting.Every? && Suggests(e.fetch))
  }

  predicate Holds(m: Snapshot, id: string, setting: Setting) {
    id in m && Has(m[id], setting)
  }

  predicate HeldEverywhere(s: System, id: string, setting: Setting) {
    && Holds(s.items, id, setting) && Holds(s.stored, id, setting)
    && (id in s.flying ==> Has(s.flying[id], setting))
  }

  lemma FinishedKeeps(options: Options, copy: Subscription, fetch: Fetch, now: int, setting: Setting)
    requires !(setting.Every? && Suggests(fetch))
    ensures Has(Finished(options, copy, fetch, now), setting) == Has(copy, setting)
  {
  }

  lemma ChangedKeeps(item: Subscription, change: Change, setting: Setting)
    requires Has(item, setting) && !Sets(change, setting)
    ensures Has(Changed(item, change), setting)
  {
  }

  lemma RecoveredKeeps(codec: Codec, item: Subscription, setting: Setting)
    requires Has(item, setting)
    ensures Has(Recovered(codec, item), setting)
  {
  }

  lemma PutHeld(s: System, item: Subscription, id: string, setting: Setting)
    requires HeldEverywhere(s, id, setting) && (item.id == id ==> Has(item, setting))
    ensures HeldEverywhere(PutItem(s, item), id, setting)
  {
  }

  lemma AddItemHeld(s: System, item: Subscription, storeOk: bool, id: string, setting: Setting)
    requires HeldEverywhere(s, id, setting)
    ensures HeldEverywhere(AddItem(s, item, storeOk).0, id, setting)
  {
    if item.id !in s.items {
      PutHeld(s, item, id, setting);
    }
  }

  lemma AddHeld(options: Options, s: System, req: AddRequest, generated: string, now: int, storeOk: bool, id: string, setting: Setting)
    requires HeldEverywhere(s, id, setting)
    requires req.url.Some? ==> HeldEverywhere(AddItem(s, NewItem(options, req, generated, now), storeOk).0, id, setting)
    ensures HeldEverywhere(DoAdd(options, s, req, generated, now, storeOk).0, id, setting)
  {
  }

  lemma ModifyHeld(s: System, other: string, change: Change, storeOk: bool, id: string, setting: Setting)
    requires NoStuck(s) && HeldEverywhere(s, id, setting) && !(other == id && Sets(change, setting))
    ensures HeldEverywhere(DoModify(s, other, change, storeOk).0, id, setting)
  {
    if other in s.items {
      ChangedStatus(s.items[other], change);
      if other == id {
        ChangedKeeps(s.items[id], change, setting);
      }
      PutHeld(s, Changed(s.items[other], change), id, setting);
    }
  }

  lemma TransientKeeps(item: Subscription, stage: Stage, setting: Setting)
    requires Has(item, setting)
    ensures Has(AsUpdating(item), setting) && Has(AtStage(item, stage), setting)
  {
  }

  lemma BeginHeld(s: System, other: string, id: string, setting: Setting)
    requires HeldEverywhere(s, id, setting)
    ensures HeldEverywhere(DoBegin(s, other).0, id, setting)
  {
    TransientKeeps(s.items[id], StageIdle, setting);
  }

  lemma StageHeld(s: System, other: string, stage: Stage, id: string, setting: Setting)
    requires HeldEverywhere(s, id, setting)
    ensures HeldEverywhere(DoStage(s, other, stage), id, setting)
  {
    TransientKeeps(s.items[id], stage, setting);
  }

  lemma LandHeld(s: System, other: string, item: Subscription, storeOk: bool, id: string, setting: Setting)
    requires HeldEverywhere(s, id, setting) && other in s.flying && item.id == other && (other == id ==> Has(item, setting))
    ensures HeldEverywhere(Land(s, other, item, storeOk), id, setting)
  {
  }

  lemma FinishHeld(options: Options, s: System, e: Event, id: string, setting: Setting)
    requires NoStuck(s) && HeldEverywhere(s, id, setting) && e.Finish? && !Touches(e, id, setting)
    ensures HeldEverywhere(DoFinish(options, s, e.id, e.fetch, e.now, e.storeOk), id, setting)
  {
    if e.id in s.flying {
      FinishedFields(options, s.flying[e.id], e.fetch, e.now);
      if e.id == id {
        FinishedKeeps(options, s.flying[id], e.fetch, e.now, setting);
      }
      LandHeld(s, e.id, Finished(options, s.flying[e.id], e.fetch, e.now), e.storeOk, id, setting);
    }
  }

  lemma StepHeld(options: Options, s: System, e: Event, id: string, setting: Setting)
    requires NoStuck(s) && HeldEverywhere(s, id, setting) && id != "" && !Touches(e, id, setting)
    ensures HeldEverywhere(Step(options, s, e), id, setting)
  {
    match e {
      case Add(req, generated, now, storeOk) =>
        if req.url.Some? {
          AddItemHeld(s, NewItem(options, req, generated, now), storeOk, id, setting);
        }
        AddHeld(options, s, req, generated, now, storeOk, id, setting);
      case Modify(other, change, storeOk) => ModifyHeld(s, other, change, storeOk, id, setting);
      case Begin(other) => BeginHeld(s, other, id, setting);
      case SetStage(other, stage) => StageHeld(s, other, stage, id, setting);
      case Finish(_, _, _, _) => FinishHeld(options, s, e, id, setting);
      case Reload => RecoveredKeeps(options.codec, s.stored[id], setting);
      case Remove(_, _) =>
    }
  }

  lemma {:induction false} RunHeld(options: Options, s: System, events: seq<Event>, id: string, setting: Setting)
    requires NoStuck(s) && HeldEverywhere(s, id, setting) && id != ""
    requires forall e :: e in events ==> !Touches(e, id, setting)
    ensures HeldEverywhere(Run(options, s, events), id, setting)
  {
    if events != [] {
      RunNoStuck(options, s, events[..|events| - 1]);
      RunHeld(options, s, events[..|events| - 1], id, setting);
      StepHeld(options, Run(options, s, events[..|events| - 1]), events[|events| - 1], id, setting);
    }
  }

  /** The setting stays, in snapshot and store, in every later run that does not touch it. */
  ghost predicate Survives(options: Options, s: System, id: string, setting: Setting) {
    forall events :: (forall e :: e in events ==> !Touches(e, id, setting)) ==>
      Holds(Run(options, s, events).items, id, setting) && Holds(Run(options, s, events).stored, id, setting)
  }

  lemma LandingLoses(options: Options, s: System, id: string, setting: Setting)
    requires NoStuck(s) && id in s.flying && !Has(s.flying[id], setting)
    ensures !Holds(Run(options, s, [Finish(id, FetchFailed(""), 0, true)]).items, id, setting)
  {
    var landing := Finish(id, FetchFailed(""), 0, true);
    FinishedFields(options, s.flying[id], FetchFailed(""), 0);
    FinishedKeeps(options, s.flying[id], FetchFailed(""), 0, setting);
    assert [landing][..0] == [];
  }

  /** A rename, a switch or a configured interval survives every later run that does not touch it again,
      exactly when no update is in flight that began before it and will write the old value back. */
  lemma SettingSurvives(options: Options, s: System, id: string, setting: Setting)
    requires NoStuck(s) && id != "" && Holds(s.items, id, setting) && Holds(s.stored, id, setting)
    ensures Survives(options, s, id, setting) <==> (id in s.flying ==> Has(s.flying[id], setting))
  {
    if id in s.flying && !Has(s.flying[id], setting) {
      var landing := Finish(id, FetchFailed(""), 0, true);
      LandingLoses(options, s, id, setting);
      assert !Touches(landing, id, setting);
      assert forall e :: e in [landing] ==> !Touches(e, id, setting);
    } else {
      forall events | forall e :: e in events ==> !Touches(e, id, setting)
        ensures Holds(Run(options, s, events).items, id, setting) && Holds(Run(options, s, events).stored, id, setting)
      {
        RunHeld(options, s, events, id, setting);
      }
    }
  }

  lemma FinishAppears(options: Options, s: System, e: Event, id: string)
    requires NoStuck(s) && id !in s.items && e.Finish?
    ensures id in DoFinish(options, s, e.id, e.fetch, e.now, e.storeOk).items <==> e.id == id && id in s.flying
  {
    if e.id in s.flying {
      FinishedFields(options, s.flying[e.id], e.fetch, e.now);
    }
  }

  /** The command adds `id`, if it succeeds. */
  ghost predicate Adds(options: Options, e: Event, id: string) {
    e.Add? && e.req.url.Some? && NewItem(options, e.req, e.generated, e.now).id == id
  }

  predicate Gone(s: System, id: string) {
    id !in s.items && id !in s.stored && id !in s.flying
  }

  lemma PutGone(s: System, item: Subscription, id: string)
    requires Gone(s, id) && item.id != id
    ensures Gone(PutItem(s, item), id)
  {
  }

  lemma AddGone(options: Options, s: System, req: AddRequest, generated: string, now: int, storeOk: bool, id: string)
    requires Gone(s, id) && (req.url.Some? ==> Gone(AddItem(s, NewItem(options, req, generated, now), storeOk).0, id))
    ensures Gone(DoAdd(options, s, req, generated, now, storeOk).0, id)
  {
  }

  lemma AddItemGone(s: System, item: Subscription, storeOk: bool, id: string)
    requires Gone(s, id) && item.id != id
    ensures Gone(AddItem(s, item, storeOk).0, id)
  {
    PutGone(s, item, id);
  }

  lemma ModifyGone(s: System, e: Event, id: string)
    requires NoStuck(s) && Gone(s, id) && e.Modify?
    ensures Gone(DoModify(s, e.id, e.change, e.storeOk).0, id)
  {
    if e.id in s.items {
      ChangedStatus(s.items[e.id], e.change);
      PutGone(s, Changed(s.items[e.id], e.change), id);
    }
  }

  lemma FinishGone(options: Options, s: System, e: Event, id: string)
    requires NoStuck(s) && Gone(s, id) && e.Finish?
    ensures Gone(DoFinish(options, s, e.id, e.fetch, e.now, e.storeOk), id)
  {
    if e.id in s.flying {
      FinishedFields(options, s.flying[e.id], e.fetch, e.now);
    }
  }

  lemma StepGone(options: Options, s: System, e: Event, id: string)
    requires NoStuck(s) && Gone(s, id) && !Adds(options, e, id)
    ensures Gone(Step(options, s, e), id)
  {
    if e.Add? {
      if e.req.url.Some? {
        AddItemGone(s, NewItem(options, e.req, e.generated, e.now), e.storeOk, id);
      }
      AddGone(options, s, e.req, e.generated, e.now, e.storeOk, id);
    } else if e.Modify? {
      ModifyGone(s, e, id);
    } else if e.Finish? {
      FinishGone(options, s, e, id);
    }
  }

  lemma {:induction false} RunGone(options: Options, s: System, events: seq<Event>, id: string)
    requires NoStuck(s) && Gone(s, id) && forall e :: e in events ==> !Adds(options, e, id)
    ensures Gone(Run(options, s, events), id)
  {
    if events != [] {
      RunNoStuck(options, s, events[..|events| - 1]);
      RunGone(options, s, events[..|events| - 1], id);
      StepGone(options, Run(options, s, events[..|events| - 1]), events[|events| - 1], id);
    }
  }

  ghost predicate StaysAway(options: Options, s: System, id: string) {
    forall events :: (forall e :: e in events ==> !Adds(options, e, id)) ==> id !in Run(options, s, events).items
  }

  /** A removed subscription stays removed in every later run that does not add it again, exactly when
      no update of it was in flight. */
  lemma RemovedForGood(options: Options, s: System, id: string)
    requires NoStuck(s) && id !in s.items && id !in s.stored
    ensures StaysAway(options, s, id) <==> id !in s.flying
  {
    if id in s.flying {
      var landing := Finish(id, FetchFailed(""), 0, true);
      FinishAppears(options, s, landing, id);
      assert [landing][..0] == [];
      assert id in Run(options, s, [landing]).items;
      assert !Adds(options, landing, id);
    } else {
      forall events | forall e :: e in events ==> !Adds(options, e, id) ensures id !in Run(options, s, events).items {
        RunGone(options, s, events, id);
      }
    }
  }

  /******* Recovery *******/

  /** A restart rebuilds the snapshot up to status, stage and error text; nothing is updating, and
      recomputing the identities changes no profile. */
  lemma RestartRecovers(options: Options, s: System)
    requires SystemOk(options, s) && InAgreement(s)
    ensures var items := DoReload(options, s).items;
            && items.Keys == s.items.Keys
            && forall id :: id in items ==>
                 Core(items[id]) == Core(s.items[id]) && !items[id].status.StatusUpdating? && items[id].nodes == s.stored[id].nodes
  {
    ReloadAgree(options, s);
    forall id | id in s.stored
      ensures !Recovered(options.codec, s.stored[id]).status.StatusUpdating?
      ensures Recovered(options.codec, s.stored[id]).nodes == s.stored[id].nodes && id != ""
    {
      RecoveredOk(options.codec, id, s.stored[id]);
    }
  }

  /******* Scheduling *******/

  /** When the scheduler starts an update. */
  predicate Due(item: Subscription, now: int) {
    item.enabled && item.autoUpdate && item.nextUpdateAt <= now
  }

  predicate Succeeds(fetch: Fetch) { fetch.NotModified? || fetch.Fetched? }

  lemma FinishedSchedule(options: Options, copy: Subscription, fetch: Fetch, now: int)
    requires IntervalOk(copy)
    ensures var item := Finished(options, copy, fetch, now);
            var delay := item.nextUpdateAt - now;
            && item.autoUpdate == copy.autoUpdate
            && (Succeeds(fetch) ==> delay == item.interval)
            && (Succeeds(fetch) && item.autoUpdate ==> delay >= MIN_INTERVAL)
            && (!Succeeds(fetch) ==> MINUTE <= delay <= MAX_RETRY)
            && (!Succeeds(fetch) && item.autoUpdate ==> 5 * delay <= item.interval)
  {
  }

  predicate SameSlot(a: Subscription, b: Subscription) {
    a.autoUpdate == b.autoUpdate && a.nextUpdateAt == b.nextUpdateAt
  }

  /** `item`'s schedule, in the snapshot and in the store. */
  predicate Scheduled(s: System, id: string, item: Subscription) {
    && id in s.items && SameSlot(s.items[id], item)
    && id in s.stored && SameSlot(s.stored[id], item)
  }

  predicate Reschedules(e: Event, id: string) {
    || (e.Finish? && e.id == id)
    || (e.Remove? && e.id == id)
    || (e.Modify? && e.id == id && e.change.Configure?)
  }

  lemma PutScheduled(s: System, put: Subscription, id: string, item: Subscription)
    requires Scheduled(s, id, item) && (put.id == id ==> SameSlot(put, item))
    ensures Scheduled(PutItem(s, put), id, item)
  {
  }

  lemma ModifyScheduled(s: System, e: Event, id: string, item: Subscription)
    requires NoStuck(s) && Scheduled(s, id, item) && e.Modify? && !Reschedules(e, id)
    ensures Scheduled(DoModify(s, e.id, e.change, e.storeOk).0, id, item)
  {
    if e.id in s.items {
      ChangedStatus(s.items[e.id], e.change);
      PutScheduled(s, Changed(s.items[e.id], e.change), id, item);
    }
  }

  lemma AddItemScheduled(s: System, added: Subscription, storeOk: bool, id: string, item: Subscription)
    requires Scheduled(s, id, item)
    ensures Scheduled(AddItem(s, added, storeOk).0, id, item)
  {
    if added.id !in s.items {
      PutScheduled(s, added, id, item);
    }
  }

  lemma AddScheduled(options: Options, s: System, e: Event, id: string, item: Subscription)
    requires Scheduled(s, id, item) && e.Add?
    ensures Scheduled(DoAdd(options, s, e.req, e.generated, e.now, e.storeOk).0, id, item)
  {
    if e.req.url.Some? && RequestedInterval(options, e.req) >= MIN_INTERVAL {
      AddItemScheduled(s, NewItem(options, e.req, e.generated, e.now), e.storeOk, id, item);
    }
  }

  lemma RecoveredSlot(codec: Codec, item: Subscription)
    ensures SameSlot(Recovered(codec, item), item)
  {
  }

  lemma LandScheduled(s: System, landing: string, landed: Subscription, storeOk: bool, id: string, item: Subscription)
    requires Scheduled(s, id, item) && landing in s.flying && landed.id == landing && landing != id
    ensures Scheduled(Land(s, landing, landed, storeOk), id, item)
  {
  }

  lemma StepScheduled(options: Options, s: System, e: Event, id: string, item: Subscription)
    requires NoStuck(s) && Scheduled(s, id, item) && id != "" && !Reschedules(e, id)
    ensures Scheduled(Step(options, s, e), id, item)
  {
    match e {
      case Add(_, _, _, _) => AddScheduled(options, s, e, id, item);
      case Modify(_, _, _) => ModifyScheduled(s, e, id, item);
      case Finish(other, fetch, now, storeOk) =>
        if other in s.flying {
          FinishedFields(options, s.flying[other], fetch, now);
          LandScheduled(s, other, Finished(options, s.flying[other], fetch, now), storeOk, id, item);
        }
      case Reload => RecoveredSlot(options.codec, s.stored[id]);
      case _ =>
    }
  }

  lemma {:induction false} RunScheduled(options: Options, s: System, events: seq<Event>, id: string, item: Subscription)
    requires NoStuck(s) && Scheduled(s, id, item) && id != ""
    requires forall e :: e in events ==> !Reschedules(e, id)
    ensures Scheduled(Run(options, s, events), id, item)
  {
    if events != [] {
      RunNoStuck(options, s, events[..|events| - 1]);
      RunScheduled(options, s, events[..|events| - 1], id, item);
      StepScheduled(options, Run(options, s, events[..|events| - 1]), events[|events| - 1], id, item);
    }
  }

  lemma LandedSchedule(s: System, id: string, item: Subscription)
    requires id in s.flying && item.id == id
    ensures Scheduled(Land(s, id, item, true), id, item)
  {
  }

  /** The least and the most time between the end of a stored update and the next scheduled one. */
  function Soonest(fetch: Fetch): int {
    if Succeeds(fetch) then MIN_INTERVAL else MINUTE
  }

  function Latest(options: Options, copy: Subscription, fetch: Fetch, now: int): int {
    if Succeeds(fetch) then Finished(options, copy, fetch, now).interval
    else if copy.interval / 5 < MAX_RETRY then copy.interval / 5
    else MAX_RETRY
  }

  /** After a stored update, whatever happens except another update, reconfiguration or removal of the
      subscription: it is not due for at least five minutes after a success and one after a failure,
      and, while enabled and automatic, it is due one interval after a success, and within half an hour
      and a fifth of the interval after a failure. */
  lemma UpdateDefers(options: Options, s: System, id: string, fetch: Fetch, now: int, events: seq<Event>, later: int)
    requires SystemOk(options, s) && id in s.flying && forall e :: e in events ==> !Reschedules(e, id)
    ensures var t := Run(options, DoFinish(options, s, id, fetch, now, true), events);
            && id in t.items
            && (later < now + Soonest(fetch) ==> !Due(t.items[id], later))
            && (t.items[id].enabled && t.items[id].autoUpdate && later >= now + Latest(options, s.flying[id], fetch, now) ==>
                  Due(t.items[id], later))
  {
    var item := Finished(options, s.flying[id], fetch, now);
    FinishedFields(options, s.flying[id], fetch, now);
    FinishedSchedule(options, s.flying[id], fetch, now);
    FinishedNotUpdating(options, s, id, fetch, now, true);
    LandedSchedule(s, id, item);
    RunScheduled(options, Land(s, id, item, true), events, id, item);
  }

  /******* Published pools *******/

  /** Whatever was done to the subscriptions, the pool handed to the runtime has distinct hexadecimal
      IDs in strictly ascending order. */
  lemma ReachablePool(options: Options, events: seq<Event>, order: seq<string>)
    requires Sound(options.codec) && forall e :: e in events ==> Possible(e)
    requires IterationOrder(Run(options, EMPTY, events).items, order)
    ensures var nodes := PoolNodes(Run(options, EMPTY, events).items, order);
            StrictlySorted(nodes) && Commitments.HexPool(nodes)
  {
    EmptySound(options);
    RunOk(options, EMPTY, events);
    PoolWellFormed(options.codec, Run(options, EMPTY, events).items, order);
  }
}

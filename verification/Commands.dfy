/** What each coordinator command does to the snapshot and the store, field by field, which error it ends
    with, and how long its effect lasts in later interleavings. */
module Commands {
  import opened Wrappers
  import opened Text
  import opened RuntimeModel
  import opened Identity
  import opened Subscriptions
  import opened NodePool
  import opened Updates
  import opened Interleavings

  /** The record replaces its entry in the snapshot and in the store, and nothing else changes. */
  predicate Stores(s: System, t: System, id: string, item: Subscription) {
    && item.id == id && t.items == s.items[id := item] && t.stored == s.stored[id := item]
    && t.flying == s.flying && t.touched == s.touched + {id}
  }

  /******* Adding *******/

  function AddedId(req: AddRequest, generated: string): string {
    if Blank(req.id) then generated else req.id
  }

  function AddedName(req: AddRequest, generated: string): string {
    TrimSpace(if Blank(req.name) then AddedId(req, generated) else req.name)
  }

  function AddedInterval(options: Options, req: AddRequest): int {
    if req.interval > 0 then req.interval else options.defaultInterval
  }

  /** The record of a request: what was asked for, nothing fetched yet, and due at once. */
  predicate Requested(options: Options, req: AddRequest, generated: string, now: int, item: Subscription) {
    && Some(item.url) == req.url && item.name == AddedName(req, generated) && item.headers == req.headers
    && item.enabled == req.enabled && item.autoUpdate == req.autoUpdate && item.interval == AddedInterval(options, req)
    && item.status == StatusIdle && item.stage == StageIdle && item.nextUpdateAt == now
    && item.nodes == [] && item.endpoints == [] && item.validators == Validators("", "", "") && item.errorCode == item.error == ""
    && item.updatedAt == 0 && item.traffic == Traffic(0, 0, 0) && item.links == Links(0, "", "", "", "")
  }

  lemma AddedRecord(options: Options, req: AddRequest, generated: string, now: int)
    requires req.url.Some?
    ensures var item := NewItem(options, req, generated, now);
            item.id == AddedId(req, generated) && Requested(options, req, generated, now, item)
    ensures RequestedInterval(options, req) == AddedInterval(options, req)
  {
    BlankIsTrimmed(req.id);
    BlankIsTrimmed(req.name);
  }

  lemma Inserted(s: System, item: Subscription, storeOk: bool)
    ensures var (t, error) := AddItem(s, item, storeOk);
            && error == (if item.id in s.items then Some(AlreadyExists) else if !storeOk then Some(StoreFailed) else None)
            && (error.Some? ==> t == s)
            && (error.None? ==> item.id in t.items && t.items[item.id] == item && Stores(s, t, item.id, item))
  {
  }

  lemma AddStep(options: Options, s: System, req: AddRequest, generated: string, now: int, storeOk: bool)
    ensures DoAdd(options, s, req, generated, now, storeOk) ==
            if req.url.None? then (s, Some(InvalidUrl))
            else if AddedInterval(options, req) < 5 * 60 * 1_000_000_000 then (s, Some(IntervalTooShort))
            else AddItem(s, NewItem(options, req, generated, now), storeOk)
  {
  }

  lemma AddEnds(options: Options, s: System, req: AddRequest, generated: string, now: int, storeOk: bool, id: string, item: Subscription)
    requires item.id == id && Requested(options, req, generated, now, item)
    ensures var (t, error) := AddItem(s, item, storeOk);
            && error == (if id in s.items then Some(AlreadyExists) else if !storeOk then Some(StoreFailed) else None)
            && (error.Some? ==> t == s)
            && (error.None? ==> id in t.items && Stores(s, t, id, t.items[id]) && Requested(options, req, generated, now, t.items[id]))
  {
    Inserted(s, item, storeOk);
  }

  /** Adding ends with the first error that applies, or stores and publishes the requested record. */
  lemma AddOutcome(options: Options, s: System, req: AddRequest, generated: string, now: int, storeOk: bool)
    ensures var id := AddedId(req, generated);
            var (t, error) := DoAdd(options, s, req, generated, now, storeOk);
            && error == (if req.url.None? then Some(InvalidUrl)
                         else if AddedInterval(options, req) < 5 * 60 * 1_000_000_000 then Some(IntervalTooShort)
                         else if id in s.items then Some(AlreadyExists)
                         else if !storeOk then Some(StoreFailed) else None)
            && (error.Some? ==> t == s)
            && (error.None? ==> id in t.items && Stores(s, t, id, t.items[id]) && Requested(options, req, generated, now, t.items[id]))
  {
    AddStep(options, s, req, generated, now, storeOk);
    if req.url.Some? {
      AddedRecord(options, req, generated, now);
      AddEnds(options, s, req, generated, now, storeOk, AddedId(req, generated), NewItem(options, req, generated, now));
    }
  }

  /******* Changing and removing *******/

  function Missing(s: System, id: string, storeOk: bool): Option<Error> {
    if id !in s.items then Some(NotFound) else if !storeOk then Some(StoreFailed) else None
  }

  /** A rename is refused for a blank name; otherwise it stores the trimmed name and changes nothing else. */
  lemma RenameOutcome(s: System, id: string, name: string, storeOk: bool)
    requires forall x :: x in s.items ==> s.items[x].id == x
    ensures var (t, error) := DoModify(s, id, Rename(name), storeOk);
            && error == (if Blank(name) then Some(NameRequired) else Missing(s, id, storeOk))
            && (error.Some? ==> t == s)
            && (error.None? ==> id in t.items && Stores(s, t, id, t.items[id]) && t.items[id].name == TrimSpace(name)
                                && t.items[id].(name := s.items[id].name) == s.items[id])
  {
    BlankIsTrimmed(name);
  }

  /** A switch is stored and changes nothing else. */
  lemma SetEnabledOutcome(s: System, id: string, on: bool, storeOk: bool)
    requires forall x :: x in s.items ==> s.items[x].id == x
    ensures var (t, error) := DoModify(s, id, SetEnabled(on), storeOk);
            && error == Missing(s, id, storeOk) && (error.Some? ==> t == s)
            && (error.None? ==> id in t.items && Stores(s, t, id, t.items[id]) && t.items[id].enabled == on
                                && t.items[id].(enabled := s.items[id].enabled) == s.items[id])
  {
  }

  /** Turning automatic updates on needs an interval of five minutes and makes the next update due at once; a
      positive interval is kept, and nothing else changes. */
  lemma ConfigureOutcome(s: System, id: string, on: bool, interval: int, now: int, storeOk: bool)
    requires forall x :: x in s.items ==> s.items[x].id == x
    ensures var (t, error) := DoModify(s, id, Configure(on, interval, now), storeOk);
            && error == (if on && interval < 5 * 60 * 1_000_000_000 then Some(IntervalTooShort) else Missing(s, id, storeOk))
            && (error.Some? ==> t == s)
            && (error.None? ==>
                  var before := s.items[id];
                  && id in t.items && Stores(s, t, id, t.items[id]) && t.items[id].autoUpdate == on
                  && t.items[id].interval == (if interval > 0 then interval else before.interval)
                  && t.items[id].nextUpdateAt == (if on then now else before.nextUpdateAt)
                  && t.items[id].(autoUpdate := before.autoUpdate, interval := before.interval,
                                  nextUpdateAt := before.nextUpdateAt) == before)
  {
  }

  /** Removing takes the entry out of the snapshot and out of the store, and nothing else. */
  lemma RemoveOutcome(s: System, id: string, storeOk: bool)
    ensures var (t, error) := DoRemove(s, id, storeOk);
            && error == Missing(s, id, storeOk) && (error.Some? ==> t == s)
            && (error.None? ==>
                  && id !in t.items && id !in t.stored && t.flying == s.flying && t.touched == s.touched + {id}
                  && (forall x :: x != id ==> (x in t.items <==> x in s.items) && (x in t.stored <==> x in s.stored))
                  && (forall x :: x in t.items ==> t.items[x] == s.items[x])
                  && forall x :: x in t.stored ==> t.stored[x] == s.stored[x])
  {
  }

  /******* How long a command's effect lasts *******/

  predicate AddSets(options: Options, req: AddRequest, generated: string, setting: Setting) {
    match setting
    case Named(name) => name == AddedName(req, generated)
    case Enabled(on) => on == req.enabled
    case Automatic(auto) => auto == req.autoUpdate
    case Every(interval) => interval == AddedInterval(options, req)
  }

  /** What a successful addition sets holds in the snapshot and in the store in every later run that does not
      touch it, exactly when no update from an earlier life of the ID is in flight with another value. */
  lemma AddLasts(options: Options, s: System, req: AddRequest, generated: string, now: int, setting: Setting)
    requires NoStuck(s) && AddedId(req, generated) != "" && AddSets(options, req, generated, setting)
    requires DoAdd(options, s, req, generated, now, true).1.None?
    ensures var id := AddedId(req, generated);
            Survives(options, DoAdd(options, s, req, generated, now, true).0, id, setting) <==>
            (id in s.flying ==> Has(s.flying[id], setting))
  {
    AddOutcome(options, s, req, generated, now, true);
    AddNoStuck(options, s, req, generated, now, true);
    SettingSurvives(options, DoAdd(options, s, req, generated, now, true).0, AddedId(req, generated), setting);
  }

  predicate ChangeSets(change: Change, setting: Setting) {
    match change
    case Rename(name) => setting == Named(TrimSpace(name))
    case SetEnabled(on) => setting == Enabled(on)
    case Configure(on, interval, _) => setting == Automatic(on) || (interval > 0 && setting == Every(interval))
  }

  lemma ChangeHolds(s: System, id: string, change: Change, setting: Setting)
    requires forall x :: x in s.items ==> s.items[x].id == x
    requires ChangeSets(change, setting) && DoModify(s, id, change, true).1.None?
    ensures var t := DoModify(s, id, change, true).0;
            Holds(t.items, id, setting) && Holds(t.stored, id, setting) && t.flying == s.flying
  {
    match change {
      case Rename(name) => RenameOutcome(s, id, name, true);
      case SetEnabled(on) => SetEnabledOutcome(s, id, on, true);
      case Configure(on, interval, now) => ConfigureOutcome(s, id, on, interval, now, true);
    }
  }

  /** The same for a successful change. */
  lemma ChangeLasts(options: Options, s: System, id: string, change: Change, setting: Setting)
    requires NoStuck(s) && id != "" && ChangeSets(change, setting) && DoModify(s, id, change, true).1.None?
    ensures Survives(options, DoModify(s, id, change, true).0, id, setting) <==> (id in s.flying ==> Has(s.flying[id], setting))
  {
    ChangeHolds(s, id, change, setting);
    ModifyNoStuck(s, id, change, true);
    SettingSurvives(options, DoModify(s, id, change, true).0, id, setting);
  }

  /** A successful removal lasts, in every later run that does not add the ID again, exactly when no update of
      it is in flight. */
  lemma RemovalLasts(options: Options, s: System, id: string)
    requires NoStuck(s) && DoRemove(s, id, true).1.None?
    ensures StaysAway(options, DoRemove(s, id, true).0, id) <==> id !in s.flying
  {
    RemoveOutcome(s, id, true);
    RemoveNoStuck(s, id, true);
    RemovedForGood(options, DoRemove(s, id, true).0, id);
  }

  /******* Updates *******/

  /** An update that begins keeps a copy of the entry and publishes it as being fetched; the store stays. A
      second one joins it. */
  lemma BeginOutcome(s: System, id: string)
    ensures var (t, error) := DoBegin(s, id);
            && error == (if id in s.flying || id in s.items then None else Some(NotFound))
            && (id in s.flying || error.Some? ==> t == s)
            && (id !in s.flying && error.None? ==>
                  && id in t.items && t.items == s.items[id := t.items[id]] && t.stored == s.stored
                  && t.flying == s.flying[id := s.items[id]] && t.touched == s.touched - {id}
                  && t.items[id].status == StatusUpdating && t.items[id].stage == StageFetching && t.items[id].error == ""
                  && t.items[id].(status := s.items[id].status, stage := s.items[id].stage, error := s.items[id].error) == s.items[id])
  {
  }

  /** A stage is published for an entry that is being updated, and only that. */
  lemma StageOutcome(s: System, id: string, stage: Stage)
    ensures var t := DoStage(s, id, stage);
            && t == s.(items := t.items) && t.items.Keys == s.items.Keys
            && (id in s.flying && id in s.items ==> t.items[id].stage == stage)
            && forall x :: x in s.items ==>
                 && t.items[x].(stage := s.items[x].stage) == s.items[x]
                 && (x != id || x !in s.flying ==> t.items[x] == s.items[x])
  {
  }

  /** What no update changes. */
  predicate SameRequest(copy: Subscription, item: Subscription) {
    && item.id == copy.id && item.name == copy.name && item.url == copy.url && item.headers == copy.headers
    && item.enabled == copy.enabled && item.autoUpdate == copy.autoUpdate
  }

  /** What only a new document changes. */
  predicate SameDocument(copy: Subscription, item: Subscription) {
    && item.nodes == copy.nodes && item.endpoints == copy.endpoints && item.validators.nodesHash == copy.validators.nodesHash
  }

  /** What only response headers change. */
  predicate SameHeaders(copy: Subscription, item: Subscription) {
    && item.traffic == copy.traffic && item.links == copy.links && item.interval == copy.interval && item.validators == copy.validators
  }

  /** The headers that were sent replace what was known; a suggested interval counts from five minutes on. */
  predicate TakesHeaders(copy: Subscription, r: Response, item: Subscription) {
    && item.traffic == (match r.traffic case Some(traffic) => traffic case None => copy.traffic)
    && item.links.expiresAt == (if r.links.expiresAt != 0 then r.links.expiresAt else copy.links.expiresAt)
    && item.links.title == (if r.links.title != "" then r.links.title else copy.links.title)
    && item.links.webPage == (if r.links.webPage != "" then r.links.webPage else copy.links.webPage)
    && item.links.support == (if r.links.support != "" then r.links.support else copy.links.support)
    && item.links.movedTo == (if r.links.movedTo != "" then r.links.movedTo else copy.links.movedTo)
    && item.interval == (if r.suggestedInterval >= 5 * 60 * 1_000_000_000 then r.suggestedInterval else copy.interval)
  }

  predicate Fails(copy: Subscription, code: string, cause: string, now: int, item: Subscription) {
    && item.status == StatusFailed && item.stage == StageFailed && item.errorCode == code && item.error == cause
    && SameDocument(copy, item) && SameHeaders(copy, item)
    && item.nextUpdateAt == now + if copy.interval < 0 then MINUTE else FailureDelay(copy.interval)
  }

  predicate Completes(copy: Subscription, r: Response, now: int, item: Subscription) {
    && item.status == StatusReady && item.stage == StageComplete && item.errorCode == item.error == ""
    && TakesHeaders(copy, r, item) && item.nextUpdateAt == now + item.interval
  }

  /** The record that an update ends with, by what was fetched. */
  predicate EndsWith(options: Options, copy: Subscription, fetch: Fetch, now: int, item: Subscription) {
    && SameRequest(copy, item) && item.updatedAt == now
    && match fetch
       case FetchFailed(cause) => Fails(copy, "fetch", cause, now, item)
       case Unparsable(cause) => Fails(copy, "parse", cause, now, item)
       case NotModified(r) =>
         && Completes(copy, r, now, item) && SameDocument(copy, item)
         && item.validators.etag == (if r.etag != "" then r.etag else copy.validators.etag)
         && item.validators.lastModified == (if r.lastModified != "" then r.lastModified else copy.validators.lastModified)
       case Fetched(r, nodes, nodesHash, endpoints) =>
         && Completes(copy, r, now, item) && item.validators == Validators(nodesHash, r.etag, r.lastModified)
         && item.endpoints == endpoints && item.nodes == WithSource(options.codec, nodes, copy.id)
  }

  lemma FailureFields(copy: Subscription, code: string, cause: string, now: int)
    ensures var item := FailedItem(copy, code, cause, now);
            SameRequest(copy, item) && item.updatedAt == now && Fails(copy, code, cause, now, item)
  {
  }

  /** A completed update of `copy`, whose document part is that of `item`. */
  lemma SuccessFields(copy: Subscription, item: Subscription, r: Response, now: int)
    requires SameRequest(copy, item) && item.traffic == copy.traffic && item.links == copy.links && item.interval == copy.interval
    ensures var after := Succeeded(WithHeaders(item, r), now);
            && SameRequest(copy, after) && after.updatedAt == now && Completes(copy, r, now, after)
            && after.validators == item.validators && after.nodes == item.nodes && after.endpoints == item.endpoints
  {
  }

  lemma EndRecord(options: Options, copy: Subscription, fetch: Fetch, now: int)
    ensures EndsWith(options, copy, fetch, now, Finished(options, copy, fetch, now))
  {
    match fetch {
      case FetchFailed(cause) => FailureFields(copy, "fetch", cause, now);
      case Unparsable(cause) => FailureFields(copy, "parse", cause, now);
      case NotModified(r) =>
        var v := Validators(copy.validators.nodesHash, OrElse(r.etag, copy.validators.etag),
                            OrElse(r.lastModified, copy.validators.lastModified));
        SuccessFields(copy, copy.(validators := v), r, now);
      case Fetched(r, nodes, nodesHash, endpoints) =>
        SuccessFields(copy, copy.(nodes := WithSource(options.codec, nodes, copy.id), endpoints := endpoints,
                                  validators := Validators(nodesHash, r.etag, r.lastModified)), r, now);
    }
  }

  /** The end of an update replaces the entry, in the snapshot and in the store, by the record above, made from
      the copy taken at the beginning; when it cannot be stored, the copy is published again. */
  lemma FinishOutcome(options: Options, s: System, id: string, fetch: Fetch, now: int, storeOk: bool)
    requires id in s.flying && s.flying[id].id == id
    ensures var t := DoFinish(options, s, id, fetch, now, storeOk);
            && t.flying == s.flying - {id} && t.touched == s.touched
            && id in t.items && t.items == s.items[id := t.items[id]]
            && (storeOk ==> EndsWith(options, s.flying[id], fetch, now, t.items[id]) && t.stored == s.stored[id := t.items[id]])
            && (!storeOk ==> t.items[id] == s.flying[id] && t.stored == s.stored)
  {
    EndRecord(options, s.flying[id], fetch, now);
  }

  /** Loading publishes exactly the stored records that have an ID, under recomputed identities, with an
      interrupted update idle again; no update is in flight, and the store stays. */
  lemma ReloadOutcome(options: Options, s: System)
    ensures var t := DoReload(options, s);
            && t.stored == s.stored && t.flying == map[] && t.touched == {}
            && (forall id :: id in t.items <==> id in s.stored && id != "")
            && forall id :: id in t.items ==>
                 && t.items[id].nodes == WithSource(options.codec, s.stored[id].nodes, s.stored[id].id)
                 && (s.stored[id].status != StatusUpdating ==> t.items[id].(nodes := s.stored[id].nodes) == s.stored[id])
                 && (s.stored[id].status == StatusUpdating ==>
                       t.items[id].(nodes := s.stored[id].nodes) == s.stored[id].(status := StatusIdle, stage := StageIdle))
  {
  }
}

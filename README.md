# OpenCTI publisher manager and outcome domain, in Dafny

This project models two parts of the OpenCTI platform's notification
pipeline and proves properties of the model.

**The publisher manager** (`publisherManager.ts`) is a background worker.
It takes a cluster-wide lock, starts a consumer on the notification stream,
and hands each delivered batch of stream events to a handler. For each
event, the handler:

- looks up the event's trigger (notification rule);
- expands a `live` event into one dispatch per target, or passes a `digest`
  event on as one dispatch;
- for every outcome the recipient has configured, groups the notified items
  by trigger name into a `content` list;
- issues one action per outcome: an in-platform notification, a mail, a
  webhook call, or nothing.

Around the handler sits a small lifecycle: `start`, `status`, `shutdown`,
and the lock / poll / `finally` cycle of `notificationHandler`.

**The outcome domain** (`outcome-domain.ts`) manages Outcome entities. An
Outcome is a delivery-connector choice together with its JSON
configuration:

- `addOutcome` checks the connector and the configuration against the
  connector's JSON Schema;
- `outcomeEdit` rewrites `authorized_members` edits into view grants;
- `outcomeDelete` removes an entity;
- `getOutcomes` merges store matches with the static outcomes;
- `usableOutcomes` lists store and static outcomes stably sorted by name.

## How the model is organised

- `wrappers.dfy`, `json.dfy`: `Option` (JavaScript `undefined`, and `??` as
  `GetOr`), `Result` (a value or the error thrown), and parsed JSON values.
- `pairs.dfy`: building a dictionary from key/value pairs, as `new Map(...)`
  does. Every key is bound, and the last pair for a key wins. `R.fromPairs`
  behaves the same except that it never binds `__proto__`;
  `Dispatch.AttributeMap` removes that key.
- `outcome_types.dfy`, `notification_types.dfy`: the records: Outcome,
  trigger, user, data item, stream event, and content group.
- `content.dfy`: the `generatedContent` grouping. `GroupedContent` is its
  specification. `BuildContent` is the source's loop, which updates the
  dictionary in place; it is proved to produce `GroupedContent`.
  `BuildContentAsWritten` is the same loop on a real plain object, which
  throws for trigger names it inherits from `Object.prototype` (see
  "Findings").
- `dispatch.dfy`: the publisher as values.
  - `OutcomeAction` gives the action of one outcome.
  - `DispatchJob` runs the outcome loop of one `processNotificationEvent`.
  - `Route` and `RunCalls` route a batch.
  - `HandleBatch` is the whole handler.
  - A `Run` holds the effects issued and whether the work completed without
    throwing.
- `publisher.dfy`: class `Manager` holds the closure state of
  `initPublisherManager`: `running`, `shutdown`, `isSmtpActive`, the
  scheduler, the stream processor and the lock. It also holds the sequence
  of issued `effects` and a ghost `log` of lifecycle events.
  - The handler's loops are methods, proved against the `dispatch.dfy`
    functions.
  - `NotificationHandler` is proved to add exactly `HandlerLog` to the log.
  - The class invariant `Valid` says that the lock is released between
    handler runs. It also says that batches are handled, and the processor
    started, only under the lock, and that the effects are exactly those of
    the logged batches.
- `outcome_domain.dfy`: the pure rules (the add gate, the edit rewrite, the
  static filter, and JavaScript string order with a stable sort), and class
  `OutcomeStore`, which holds the entity map and the messages published on
  the Outcome bus topics.

Where the code and its design description disagree, the model follows the
code:

- A synchronous exception in the outcome loop aborts the rest of the batch.
  Such exceptions come from `JSON.parse` of a configuration, from
  `ejs.render`, from `JSON.parse` of a rendered webhook body, or from reading
  an event in the shape its trigger type does not match. They are not
  isolated per outcome. They leave `processNotificationEvent`, and the
  single `try` of `publisherStreamHandler` catches them, so the remaining
  events of that batch are not processed.
  - Effects already issued stay issued.
  - Only the asynchronous send failures (`.catch` on `addNotification`,
    `sendMail` and `axios`) are isolated. Those are not modelled: sends are
    fire-and-forget.
- `running` is set when the lock is acquired and is never reset to false.
  Once any cycle has started, `status()` reports `running: true` for good.
- The `finally` block shuts down the stream processor whenever one was ever
  assigned, even in a run that did not get the lock. A processor left from
  an earlier run is shut down again.

## Model

| member | source | states |
|---|---|---|
| Pairs.FromPairs | opencti-platform/opencti-graphql/src/manager/publisherManager.ts:40-42 | the map built from a pair list binds exactly the keys that occur in the list |
| Pairs.FromPairsLastWins | opencti-platform/opencti-graphql/src/manager/publisherManager.ts:40-42 | a key is bound to the value of its last occurrence in the pair list |
| Pairs.FromPairsKeepsUnshadowed | opencti-platform/opencti-graphql/src/manager/publisherManager.ts:99-100 | pairs appended after a key's last occurrence change neither whether it is bound nor its value |
| Content.Names | opencti-platform/opencti-graphql/src/manager/publisherManager.ts:55-58 | there are at most as many known names as items |
| Content.Dedup | opencti-platform/opencti-graphql/src/manager/publisherManager.ts:59-63 | the titles are exactly the names seen, each once |
| Content.GroupedContent | opencti-platform/opencti-graphql/src/manager/publisherManager.ts:52-66 | no items give no groups; the lemmas below state the rest of its meaning |
| Content.BuildContent | opencti-platform/opencti-graphql/src/manager/publisherManager.ts:52-66 | the in-place grouping loop followed by `Object.entries` yields exactly the `GroupedContent` specification: one group per distinct known name in first-seen order, each holding that name's events in item order |
| Content.BuildContentAsWritten | opencti-platform/opencti-graphql/src/manager/publisherManager.ts:52-66 | the grouping loop on a plain object throws exactly when some item of a known trigger has a name the object inherits; otherwise it yields exactly `GroupedContent` |
| Content.HitsMeaning | opencti-platform/opencti-graphql/src/manager/publisherManager.ts:57-60 | the recursive "an inherited name is met" predicate holds exactly when some item of a known trigger has an inherited name |
| Content.SeenNameNotInherited | opencti-platform/opencti-graphql/src/manager/publisherManager.ts:59-60 | while no inherited name has been met, a name already filed is not inherited, so the "already filed" branch never sees one |
| Content.PrototypeNameThrows | opencti-platform/opencti-graphql/src/manager/publisherManager.ts:57-60 | one item of a trigger named `constructor`: the loop as written throws, while the intended grouping is one group holding its event |
| Content.FileSeenName | opencti-platform/opencti-graphql/src/manager/publisherManager.ts:57-60 | for an item whose name already has a group, appending its event to that group keeps the dictionary equal to the grouping of the items seen so far |
| Content.FileNewName | opencti-platform/opencti-graphql/src/manager/publisherManager.ts:57-63 | for an item whose name is new, opening a one-event group and appending the name to the key order keeps the dictionary equal to the grouping of the items seen so far |
| Content.FileUnknown | opencti-platform/opencti-graphql/src/manager/publisherManager.ts:56-57 | an item whose notification id is unknown leaves the dictionary equal to the grouping of the items seen so far |
| Content.EntriesAreContent | opencti-platform/opencti-graphql/src/manager/publisherManager.ts:66 | once every item is filed, the entries of the dictionary in key order are the content list |
| Content.UnseenTitleHasNoEvents | opencti-platform/opencti-graphql/src/manager/publisherManager.ts:59-63 | a name that is not a title of the items has no events among them |
| Content.ContentTitlesDistinct | opencti-platform/opencti-graphql/src/manager/publisherManager.ts:53-66 | no two groups share a title, and a name is a group title exactly when some item has a known notification id with that name |
| Content.ContentAppendSeen | opencti-platform/opencti-graphql/src/manager/publisherManager.ts:59-60 | a later item whose name already has a group appends its event to the end of that group and leaves every other group unchanged |
| Content.ContentAppendNew | opencti-platform/opencti-graphql/src/manager/publisherManager.ts:61-63 | an item with a known, not yet seen name adds one last group holding just its event |
| Content.UnknownItemDropped | opencti-platform/opencti-graphql/src/manager/publisherManager.ts:56-57 | an item whose notification id is unknown changes nothing, wherever it sits in the list |
| Content.ContentCountsKnownItems | opencti-platform/opencti-graphql/src/manager/publisherManager.ts:53-66 | the number of events over all groups equals the number of items whose notification id is known |
| Content.SingleItem | opencti-platform/opencti-graphql/src/manager/publisherManager.ts:53-66 | a single known item gives one group, titled with its trigger name and holding its `{operation, message, instance_id}` event |
| Content.TwoNames | opencti-platform/opencti-graphql/src/manager/publisherManager.ts:53-66 | two known items of different names give two groups in item order |
| Content.MergeExample | opencti-platform/opencti-graphql/src/manager/publisherManager.ts:53-66 | items a1, b, a2 where a1 and a2 share a name give two groups: a1's name first, holding both events in item order, then b's |
| Dispatch.BackgroundColor | opencti-platform/opencti-graphql/src/manager/publisherManager.ts:68 | the dark background without its first character; `0a1929` when the setting is absent; empty for an empty setting |
| Dispatch.AttributeMap | opencti-platform/opencti-graphql/src/manager/publisherManager.ts:99-100 | an absent list gives the empty map; otherwise the map's keys are exactly the attributes of the list other than `__proto__`, which a plain object never takes as its own key |
| Dispatch.AttributeMapLastWins | opencti-platform/opencti-graphql/src/manager/publisherManager.ts:99-100 | of duplicate attributes, the later entry's value is the one sent; an entry for `__proto__` is not sent |
| Dispatch.OutcomeAction | opencti-platform/opencti-graphql/src/manager/publisherManager.ts:72-107 | the action is an in-platform notification exactly for the UI connector, and that notification carries the trigger name, trigger type, user id, content and `is_read` false; a mail only for the email connector, from the platform address to the user's address; a webhook call only for the webhook connector, with the configuration's url and verb and the maps of its params and headers; nothing exactly for an unknown outcome or another connector id; a throw only on the email or webhook path |
| Dispatch.OutcomeActionSends | opencti-platform/opencti-graphql/src/manager/publisherManager.ts:86-103 | an email outcome whose configuration parses and whose title and template render sends exactly one mail, from the platform address to the user's address, with the rendered title as subject and the rendered template as body. A webhook outcome whose configuration parses, whose template renders and whose rendering parses as JSON makes exactly one call, with the configuration's url and verb, the maps of its params and headers, and the parsed rendering as body. The outcome throws exactly when, on the email or the webhook path, one of those parses or renderings fails |
| Dispatch.DispatchOutcomes | opencti-platform/opencti-graphql/src/manager/publisherManager.ts:49-107 | the outcome loop issues at most one effect per outcome id |
| Dispatch.DispatchJob | opencti-platform/opencti-graphql/src/manager/publisherManager.ts:27-109 | an unknown notification id gives no effect and no exception |
| Dispatch.NothingWithoutTriggerOrOutcomes | opencti-platform/opencti-graphql/src/manager/publisherManager.ts:43-48 | an unknown notification id, or a user without an `outcomes` list, gives no effect and no exception |
| Dispatch.DispatchAbortSticky | opencti-platform/opencti-graphql/src/manager/publisherManager.ts:49-107 | once an outcome has thrown, the later outcome ids of the list change nothing |
| Dispatch.RunActionsMeaning | opencti-platform/opencti-graphql/src/manager/publisherManager.ts:49-107 | performing a list of actions completes exactly when none of them throws, and then issues the emitted effects in order |
| Dispatch.DispatchRunsActions | opencti-platform/opencti-graphql/src/manager/publisherManager.ts:49-51 | the outcome loop performs the actions of the user's outcome ids in list order |
| Dispatch.DispatchIsOneActionPerOutcome | opencti-platform/opencti-graphql/src/manager/publisherManager.ts:48-108 | one action per outcome id, in list order: the loop completes exactly when no outcome throws, and then its effects are those of the emitting outcomes, in order |
| Dispatch.StepFacts | opencti-platform/opencti-graphql/src/manager/publisherManager.ts:72-107 | one action after a run either throws (and the run stops), does nothing, or appends its one effect |
| Dispatch.DispatchEffectsShaped | opencti-platform/opencti-graphql/src/manager/publisherManager.ts:66-90 | every in-platform notification of one dispatch carries the trigger name and type, the user id, the same content for every outcome, and `is_read` false; every mail goes from the platform address to the user's address |
| Dispatch.LiveCalls | opencti-platform/opencti-graphql/src/manager/publisherManager.ts:111-118 | a live event gives one job per target, and never the malformed call; a digest-shaped event read as live is malformed |
| Dispatch.DigestCalls | opencti-platform/opencti-graphql/src/manager/publisherManager.ts:120-123 | one call: the job of the digest's notification id, target and data for a digest event, the malformed call for a live-shaped one |
| Dispatch.EventCalls | opencti-platform/opencti-graphql/src/manager/publisherManager.ts:130-144 | an event whose notification id is unknown, or whose trigger is neither live nor digest, gives no call |
| Dispatch.EventCallsForItsTrigger | opencti-platform/opencti-graphql/src/manager/publisherManager.ts:130-144 | every job an event asks for is for the event's own notification id |
| Dispatch.RouteOnlyKnownTriggers | opencti-platform/opencti-graphql/src/manager/publisherManager.ts:130-144 | every job of a batch is for a notification id known to the trigger cache |
| Dispatch.Then | opencti-platform/opencti-graphql/src/manager/publisherManager.ts:125-148 | a thrown run absorbs every later call, a call completes only a completed run, and a call never takes back effects already issued |
| Dispatch.MalformedAborts | opencti-platform/opencti-graphql/src/manager/publisherManager.ts:125-147 | a malformed event anywhere among the calls makes the run throw |
| Dispatch.HandleBatch | opencti-platform/opencti-graphql/src/manager/publisherManager.ts:125-148 | a batch that routes to no call issues nothing and completes |
| Dispatch.RouteConcat | opencti-platform/opencti-graphql/src/manager/publisherManager.ts:130-144 | the calls of a concatenated batch are the calls of the first part followed by those of the second |
| Dispatch.RunCallsConcat | opencti-platform/opencti-graphql/src/manager/publisherManager.ts:130-144 | running two lists of calls in turn is running their concatenation |
| Dispatch.ThenChain | opencti-platform/opencti-graphql/src/manager/publisherManager.ts:130-144 | one more call after two chained runs is the same as chaining the first run with the second run followed by that call |
| Dispatch.BatchInDeliveryOrder | opencti-platform/opencti-graphql/src/manager/publisherManager.ts:130-144 | a batch `a + b` issues the effects of `a` and then, unless `a` threw, those of `b` |
| Dispatch.UnknownEventSkipped | opencti-platform/opencti-graphql/src/manager/publisherManager.ts:133-134 | an event whose notification id is not a known trigger can be removed from a batch without changing its outcome |
| Dispatch.RouteOneEvent | opencti-platform/opencti-graphql/src/manager/publisherManager.ts:111-142 | a live trigger's event gives one call per target, in target order, each with a one-item data list built from the event's notification id and instance and the target's type and message; a digest trigger's event gives one call with its target and data unchanged; any other trigger type gives no call |
| Dispatch.AbortSkipsRestOfBatch | opencti-platform/opencti-graphql/src/manager/publisherManager.ts:125-147 | after an exception in a batch, the later events of the batch change nothing |
| Publisher.FirstEnd | opencti-platform/opencti-graphql/src/manager/publisherManager.ts:172 | the index found is in range and, if it is a tick, that tick ends the poll loop |
| Publisher.FirstEndIsFirst | opencti-platform/opencti-graphql/src/manager/publisherManager.ts:172 | no tick before that index ends the loop |
| Publisher.FirstEndAtMost | opencti-platform/opencti-graphql/src/manager/publisherManager.ts:172 | any tick that ends the loop is at or after that index |
| Publisher.Consumed | opencti-platform/opencti-graphql/src/manager/publisherManager.ts:172-174 | one run of the poll loop uses no more ticks than are given |
| Publisher.TickLog | opencti-platform/opencti-graphql/src/manager/publisherManager.ts:172-174 | the ticks of the poll loop log only handled batches, at most one per tick |
| Publisher.TickBatch | opencti-platform/opencti-graphql/src/manager/publisherManager.ts:172-174 | one tick logs at most one handled batch |
| Publisher.LogEffectsConcat | opencti-platform/opencti-graphql/src/manager/publisherManager.ts:125-148 | the effects of a concatenated log are the effects of its parts, in order |
| Publisher.LogEffectsNone | opencti-platform/opencti-graphql/src/manager/publisherManager.ts:163-185 | lifecycle events other than handled batches issue no effect |
| Publisher.UnderLockSnoc | opencti-platform/opencti-graphql/src/manager/publisherManager.ts:163-185 | appending an event keeps the lock discipline when a batch or a processor start comes only while the lock is held, and only acquisition and release change whether the lock is held |
| Publisher.AppendBatches | opencti-platform/opencti-graphql/src/manager/publisherManager.ts:172-174 | batches handled while the lock is held keep it held and keep the discipline |
| Publisher.HandlerLog | opencti-platform/opencti-graphql/src/manager/publisherManager.ts:162-186 | with the lock, the run logs acquisition and processor start first and processor stop and lock release last; without it, at most one event, and never an acquisition, a start or a release |
| Publisher.SessionDiscipline | opencti-platform/opencti-graphql/src/manager/publisherManager.ts:166-185 | a session's log, whatever batches it holds, keeps batch handling and processor start inside the locked span and ends with the lock released |
| Publisher.HandlerLogDiscipline | opencti-platform/opencti-graphql/src/manager/publisherManager.ts:163-185 | every handler run, whatever the lock outcome, leaves the lock released and handles batches and starts the processor only while holding the lock |
| Publisher.HandlerLogAcquires | opencti-platform/opencti-graphql/src/manager/publisherManager.ts:166-171 | a handler run acquires the lock and starts the stream processor exactly when the lock is granted |
| Publisher.SessionLog | opencti-platform/opencti-graphql/src/manager/publisherManager.ts:166-185 | a run with the lock logs acquisition, processor start, the polled batches, processor stop and lock release, in that order |
| Publisher.Manager.constructor | opencti-platform/opencti-graphql/src/manager/publisherManager.ts:150-156 | a new manager is not running, has no shutdown flag, no scheduler, no processor and no lock, has issued nothing, and is valid |
| Publisher.Manager.PerformOutcome | opencti-platform/opencti-graphql/src/manager/publisherManager.ts:50-107 | one turn of the outcome loop, building the content with the grouping loop, performs the outcome's action and issues its effect, if any |
| Publisher.Manager.OutcomeTurn | opencti-platform/opencti-graphql/src/manager/publisherManager.ts:49-107 | one turn of the outcome loop takes the run one outcome further and reports whether that outcome threw |
| Publisher.Manager.ProcessNotificationEvent | opencti-platform/opencti-graphql/src/manager/publisherManager.ts:27-109 | the loop issues exactly the effects of `DispatchJob`, and reports whether it completed without an exception |
| Publisher.Manager.ProcessLive | opencti-platform/opencti-graphql/src/manager/publisherManager.ts:111-118 | the target loop issues exactly the effects of one dispatch per target, in order, stopping at the first exception |
| Publisher.Manager.ProcessDigest | opencti-platform/opencti-graphql/src/manager/publisherManager.ts:120-123 | issues exactly the effects of one dispatch with the digest's target and data |
| Publisher.Manager.HandleStreamEvent | opencti-platform/opencti-graphql/src/manager/publisherManager.ts:131-143 | one event issues exactly the effects of the calls it routes to |
| Publisher.Manager.PublisherStreamHandler | opencti-platform/opencti-graphql/src/manager/publisherManager.ts:125-148 | the batch loop issues exactly the effects of `HandleBatch`, and reports whether it completed without an exception |
| Publisher.Manager.Start | opencti-platform/opencti-graphql/src/manager/publisherManager.ts:188-193 | records the one mail-server probe and arms the scheduler |
| Publisher.Manager.Status | opencti-platform/opencti-graphql/src/manager/publisherManager.ts:194-201 | reports the manager id, the enable flag and the probe result, and, for a valid manager, `running` exactly when some run has acquired the lock |
| Publisher.Manager.Shutdown | opencti-platform/opencti-graphql/src/manager/publisherManager.ts:202-207 | raises the shutdown flag, clears the scheduler, and answers true |
| Publisher.Manager.Poll | opencti-platform/opencti-graphql/src/manager/publisherManager.ts:172-174 | the loop runs while the shutdown flag is down and the processor is alive: it goes through exactly `Consumed` ticks, logs and issues the batches of those ticks, leaves the shutdown flag raised exactly when it was raised before or by the last tick, and clears the scheduler exactly when the loop raised the flag |
| Publisher.Manager.Wait | opencti-platform/opencti-graphql/src/manager/publisherManager.ts:172-174 | one turn of the poll loop adds that tick's batch to the log and its effects to the effects, takes the tick's shutdown flag and liveness, and clears the scheduler exactly when the tick shuts down |
| Publisher.Manager.PollTick | opencti-platform/opencti-graphql/src/manager/publisherManager.ts:172-174 | one wait handles the batch delivered, applies a requested shutdown, and reads the processor's liveness |
| Publisher.Manager.Acquire | opencti-platform/opencti-graphql/src/manager/publisherManager.ts:166-171 | taking the lock sets `running`, assigns and starts the processor, and logs acquisition then start |
| Publisher.Manager.Release | opencti-platform/opencti-graphql/src/manager/publisherManager.ts:182-185 | the `finally` block stops the processor and then releases the lock, restoring the class invariant |
| Publisher.Manager.Serve | opencti-platform/opencti-graphql/src/manager/publisherManager.ts:172-185 | with the lock held, a poll followed by the `finally` block logs the polled batches, then processor stop and lock release; the scheduler is cleared exactly when the poll raised the shutdown flag |
| Publisher.Manager.Session | opencti-platform/opencti-graphql/src/manager/publisherManager.ts:166-185 | a run with the lock logs acquisition, start, the polled batches, stop and release, keeps the class invariant, and clears the scheduler exactly when the run raised the shutdown flag |
| Publisher.Manager.Locked | opencti-platform/opencti-graphql/src/manager/publisherManager.ts:164-185 | a run that gets the lock adds exactly its `HandlerLog` to the log and exactly that log's effects to the effects, and clears the scheduler exactly when it raised the shutdown flag |
| Publisher.Manager.StopStale | opencti-platform/opencti-graphql/src/manager/publisherManager.ts:176-185 | a run without the lock shuts down a processor left from an earlier run, and logs and issues nothing else |
| Publisher.Manager.NotificationHandler | opencti-platform/opencti-graphql/src/manager/publisherManager.ts:162-186 | one handler run adds exactly `HandlerLog` for its lock outcome, issues exactly that log's effects, sets `running` exactly when the lock is acquired, leaves the shutdown flag and the scheduler alone without the lock, with the lock clears the scheduler exactly when the run raised the shutdown flag, and keeps the class invariant |
| Publisher.RunCallsAbortSticky | opencti-platform/opencti-graphql/src/manager/publisherManager.ts:113-117 | once a target's dispatch has thrown, the later targets change nothing |
| Publisher.BatchAbortSticky | opencti-platform/opencti-graphql/src/manager/publisherManager.ts:130-147 | once an event of a batch has thrown, the later events change nothing |
| Publisher.EventRunCases | opencti-platform/opencti-graphql/src/manager/publisherManager.ts:133-143 | an unknown event runs nothing; a live or digest trigger runs its path, or throws when the event has the other shape; any other trigger type runs nothing |
| OutcomeDomain.CheckAdd | opencti-platform/opencti-graphql/src/modules/outcome/outcome-domain.ts:19-28 | the add is refused as an invalid connector exactly when the connector is missing or has no schema; it passes exactly when the schema parses and compiles and the parsed configuration satisfies it; an unparsable schema is reported as malformed JSON with the schema text, a schema that does not compile as an invalid schema with the schema text, an unparsable configuration as malformed JSON with the configuration text, and a configuration the schema rejects as an invalid configuration with the configuration text |
| OutcomeDomain.OutcomeStore.AddOutcome | opencti-platform/opencti-graphql/src/modules/outcome/outcome-domain.ts:18-32 | on a refused check nothing changes and the check's error is returned; otherwise the store gains exactly one entity, holding the input's fields, no `built_in` field, the SETTINGS authority and the timestamps, and that entity is published once |
| OutcomeDomain.RewriteItem | opencti-platform/opencti-graphql/src/modules/outcome/outcome-domain.ts:39-45 | an item keeps its key and length; each `authorized_members` value becomes `{id, access_right: view}` in place, and the values of other keys are unchanged |
| OutcomeDomain.RewriteEdits | opencti-platform/opencti-graphql/src/modules/outcome/outcome-domain.ts:39-45 | the rewritten input keeps the length and key order of the input, and every item of another key passes through unchanged |
| OutcomeDomain.RewriteGrantsView | opencti-platform/opencti-graphql/src/modules/outcome/outcome-domain.ts:41-43 | every member id of an `authorized_members` item is granted the view access right, at its own position |
| OutcomeDomain.RewriteRestores | opencti-platform/opencti-graphql/src/modules/outcome/outcome-domain.ts:39-45 | taking the access rights off the rewritten input gives the input back |
| OutcomeDomain.RewriteConcat | opencti-platform/opencti-graphql/src/modules/outcome/outcome-domain.ts:39-45 | rewriting a concatenation is concatenating the rewrites |
| OutcomeDomain.OutcomeStore.OutcomeEdit | opencti-platform/opencti-graphql/src/modules/outcome/outcome-domain.ts:38-48 | an unknown id fails and changes nothing; otherwise the entity is replaced by the update of the rewritten input, which is published and returned |
| OutcomeDomain.OutcomeStore.OutcomeDelete | opencti-platform/opencti-graphql/src/modules/outcome/outcome-domain.ts:50-54 | an unknown id fails and changes nothing; otherwise exactly that entity is removed, the removed entity is published, and the given id is returned |
| OutcomeDomain.StaticMatches | opencti-platform/opencti-graphql/src/modules/outcome/outcome-domain.ts:62 | keeps exactly the static outcomes whose id is asked for |
| OutcomeDomain.StaticMatchesConcat | opencti-platform/opencti-graphql/src/modules/outcome/outcome-domain.ts:62 | the filter keeps the static list's order |
| OutcomeDomain.OutcomeStore.GetOutcomes | opencti-platform/opencti-graphql/src/modules/outcome/outcome-domain.ts:60-64 | the store matches come first, then exactly the static outcomes asked for, in static-list order; every result has an id asked for; every stored outcome asked for is included; every result is a stored or a static outcome |
| OutcomeDomain.StringLessIrreflexive | opencti-platform/opencti-graphql/src/modules/outcome/outcome-domain.ts:69-70 | no name is less than itself |
| OutcomeDomain.StringLessTransitive | opencti-platform/opencti-graphql/src/modules/outcome/outcome-domain.ts:69-70 | string order is transitive |
| OutcomeDomain.StringLessTotal | opencti-platform/opencti-graphql/src/modules/outcome/outcome-domain.ts:69-71 | of two names, one is less or they are equal, so the comparator's 0 means equal names |
| OutcomeDomain.NotLessTransitive | opencti-platform/opencti-graphql/src/modules/outcome/outcome-domain.ts:68-72 | "not less than" is transitive |
| OutcomeDomain.InsertPermutes | opencti-platform/opencti-graphql/src/modules/outcome/outcome-domain.ts:68-72 | inserting adds exactly the inserted outcome |
| OutcomeDomain.SortPermutes | opencti-platform/opencti-graphql/src/modules/outcome/outcome-domain.ts:68-72 | the sort is a permutation of its input |
| OutcomeDomain.InsertSorted | opencti-platform/opencti-graphql/src/modules/outcome/outcome-domain.ts:68-72 | inserting into a name-sorted list keeps it sorted |
| OutcomeDomain.SortSorted | opencti-platform/opencti-graphql/src/modules/outcome/outcome-domain.ts:68-72 | the sort's result is non-decreasing by name |
| OutcomeDomain.NamedCons | opencti-platform/opencti-graphql/src/modules/outcome/outcome-domain.ts:68-72 | the outcomes of a name in `[y] + t` are y, if it has that name, followed by those of t |
| OutcomeDomain.InsertNamed | opencti-platform/opencti-graphql/src/modules/outcome/outcome-domain.ts:68-72 | an inserted outcome comes ahead of the outcomes that share its name |
| OutcomeDomain.SortStable | opencti-platform/opencti-graphql/src/modules/outcome/outcome-domain.ts:68-72 | the sort is stable: the outcomes of each name keep their input order |
| OutcomeDomain.ListedAll | opencti-platform/opencti-graphql/src/modules/outcome/outcome-domain.ts:67-68 | every stored and every static outcome is in the list to be sorted |
| OutcomeDomain.OutcomeStore.UsableOutcomes | opencti-platform/opencti-graphql/src/modules/outcome/outcome-domain.ts:66-73 | the result is non-decreasing by name under JavaScript string order, is a permutation of the stored outcomes followed by the static ones, and contains every stored and every static outcome |
| OutcomeDomain.UsableOutcomesStable | opencti-platform/opencti-graphql/src/modules/outcome/outcome-domain.ts:68-72 | outcomes of the same name keep the stored-then-static order |

## Left out

- I/O and foreign code become parameters or abstract values:
  - the Redis lock becomes a `LockOutcome` parameter (granted, contended, or failed);
  - the stream processor and the wait loop become a sequence of `Tick`s, each saying which batch was delivered, whether `shutdown()` was called, and whether the processor still runs;
  - the settings, outcome and trigger caches become a `Catalogue`. One `Catalogue` serves a whole batch, while the source reads the caches again in every `processNotificationEvent` call, between awaits. So a cache change in the middle of a batch is not modelled, and neither is a cache read that throws and so aborts the rest of the batch;
  - `getBaseUrl`, `ejs.render`, `JSON.parse`, Ajv compilation and validation, `smtpIsAlive` and `booleanConf` become parameters;
  - `addNotification`, `sendMail` and `axios` become `Effect` values.
- Timers and concurrency are not modelled: the `setIntervalAsync` scheduler, cross-process contention for the lock, and the re-entry of `notificationHandler` while an earlier run is still waiting. Each handler run is modelled on its own.
- `logApp` logging is left out.
- The asynchronous failure of a send is left out. The source catches it and logs it, and it affects nothing else.
- Publisher.Manager.NotificationHandler: assumes `streamProcessor.shutdown()` does not throw. In the source such an exception would skip `lock.unlock()`.
- Publisher.Manager.NotificationHandler: requires that, when the lock is granted, some tick ends the poll loop. An unbounded wait is not modelled.
- Publisher.Manager.Poll: requires the processor to be running at the first check of the loop condition, straight after `start('live')`. A processor that is already dead there, so that the loop does not run at all, is not modelled.
- Publisher.Manager.NotificationHandler: assumes `createStreamProcessor` and `start('live')` do not throw. Only the lock outcome can end a run before polling.
- Content.BuildContent: groups a trigger name that a plain object inherits from `Object.prototype` (`constructor`, `toString`, `__proto__`, …) like any other; the source throws there. `BuildContentAsWritten` models the throw (see "Findings").
- Content.BuildContent: assumes no notification name is an integer-like string. `Object.entries` lists such keys first in numeric order, not in insertion order.
- OutcomeDomain.StringLess: compares Dafny characters. JavaScript compares UTF-16 code units, and the two orders differ only for characters outside the Basic Multilingual Plane.
- OutcomeDomain.OutcomeStore.AddOutcome:
  - the id `createEntity` generates is a parameter, required to be fresh;
  - the two `now()` timestamps are parameters;
  - the entity is what `createEntity` stores, without the internal fields the database layer adds.
- OutcomeDomain.OutcomeStore.OutcomeEdit: `updateAttribute` is a parameter function on the entity and the rewritten input. The model states only that its result replaces the entity and is published.
- OutcomeDomain.OutcomeStore.GetOutcomes: the database's answer to `internalFindByIds` is a parameter. It is required to be each stored outcome with a requested id, once, in some order.
- OutcomeDomain.OutcomeStore.UsableOutcomes: the database's answer to `listAllEntities` is a parameter. It is required to be each stored outcome, once, in some order.
- User access filtering in `internalFindByIds`, `listAllEntities`, `storeLoadById` and `deleteElementById` is not modelled. The store answers every query.
- `outcomeGet` and `outcomesFind` are left out. They pass straight through to the database layer and contain no rules of their own.
- `BUILTIN_OUTCOMES_CONNECTORS`, `STATIC_OUTCOMES` and the UI, email and webhook connector ids come from outcome-statics.ts, which is not part of this model. They are constants of the store, or fields of the publisher's environment.
- The front-end screens, the seed migration with its templates, module registration, the GraphQL resolvers and the STIX converter are not part of this model.

## Findings

| source | as written | input that shows it | evidently intended | confidence | as-written member | corrected member |
|---|---|---|---|---|---|---|
| opencti-platform/opencti-graphql/src/manager/publisherManager.ts:52-60 | `generatedContent` is a plain `{}`, and `generatedContent[notificationName]` is truthy for a name the object inherits, so line 60 spreads an inherited function (or, for `__proto__`, the prototype) and throws a TypeError, which aborts the rest of the batch | a user with one outcome and one data item whose trigger is named `constructor` | the item is grouped under `constructor` like any other name, as with a `Map` or an object without a prototype | not executed; follows from JavaScript object semantics | Content.BuildContentAsWritten, Content.PrototypeNameThrows | Content.BuildContent, Content.GroupedContent |

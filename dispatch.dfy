/**
 * What the publisher does with a batch of notification stream events
 * (publisherManager.ts), stated as values: the `processNotificationEvent`
 * calls a batch routes to, the action each outcome of a user selects, and
 * the trace of outbound effects (in-platform notifications, mails, webhook
 * calls) that results.
 *
 * Template rendering (`ejs.render`) and `JSON.parse` are opaque functions of
 * the environment; `None` stands for the exception they throw. Such an
 * exception is synchronous: it leaves `processNotificationEvent`, the live
 * or digest path that called it and the batch loop, and is caught by the
 * handler's `try`, so the rest of the batch is not processed. A `Run`
 * records the effects issued and whether the work `completed` without that
 * exception.
 */
module Dispatch {
  import opened Wrappers
  import opened JsonValues
  import opened OutcomeTypes
  import opened NotificationTypes
  import opened Content
  import Pairs

  const DocUri: string := "https://filigran.notion.site/OpenCTI-Public-Knowledge-Base-d411e5e477734c59887dad3649f20518"
  const DefaultDarkBackground: string := "#0a1929"
  /**
   * The one key a plain JavaScript object cannot take as its own by
   * assignment: storing a string under it changes nothing.
   */
  const ProtoKey: string := "__proto__"

  /** One `{attribute, value}` entry of a webhook's `headers` or `params`. */
  datatype Attribute = Attribute(attribute: string, value: string)

  /** OUTCOME_CONNECTOR_EMAIL_INTERFACE */
  datatype EmailConfig = EmailConfig(title: string, template: string)

  /** OUTCOME_CONNECTOR_WEBHOOK_INTERFACE */
  datatype WebhookConfig = WebhookConfig(
    url: string,
    template: string,
    verb: string,
    params: Option<seq<Attribute>>,
    headers: Option<seq<Attribute>>)

  /** The object templates are rendered against. */
  datatype TemplateData = TemplateData(
    content: seq<ContentGroup>,
    notification: Trigger,
    settings: Settings,
    user: NotificationUser,
    data: seq<DataItem>,
    docUri: string,
    platformUri: string,
    backgroundColor: string)

  /** The ids of the three built-in connectors, compared in this order. */
  datatype ConnectorIds = ConnectorIds(ui: string, email: string, webhook: string)

  /** What the publisher calls but does not define. */
  datatype Env = Env(
    connectors: ConnectorIds,
    baseUrl: string,                                      // getBaseUrl()
    render: (string, TemplateData) -> Option<string>,      // ejs.render
    parseEmail: string -> Option<EmailConfig>,             // JSON.parse of an email configuration
    parseWebhook: string -> Option<WebhookConfig>,         // JSON.parse of a webhook configuration
    parseJson: string -> Option<Json>)                     // JSON.parse of a rendered webhook body

  /** The caches read for one batch: settings, outcomes and notification rules. */
  datatype Catalogue = Catalogue(settings: Settings, outcomes: seq<Outcome>, triggers: seq<Trigger>)

  /** Outbound work, issued and not awaited. */
  datatype Effect =
    | NotificationCreated(name: string, notificationType: string, userId: string,
                          content: seq<ContentGroup>, isRead: bool)        // addNotification
    | MailSent(from: string, to: string, subject: string, html: string)  // sendMail
    | WebhookCalled(url: string, verb: string, params: map<string, string>,
                    headers: map<string, string>, body: Json)           // axios

  /** What one outcome of a user does: nothing, one effect, or throw. */
  datatype Action = NoAction | Emit(effect: Effect) | Abort

  /** The effects issued so far, and whether no exception has been thrown. */
  datatype Run = Run(effects: seq<Effect>, completed: bool)

  /** One call of `processNotificationEvent`: a notification id, a recipient and the items to notify. */
  datatype Job = Job(notificationId: string, user: NotificationUser, data: seq<DataItem>)

  /**
   * A call the batch handler makes: process a job, or read an event in the
   * shape its trigger type does not match (a property access on `undefined`
   * that throws).
   */
  datatype Call = Process(job: Job) | Malformed

  function Lookup<K, V>(m: map<K, V>, k: K): Option<V> {
    if k in m then Some(m[k]) else None
  }

  // ---------------------------------------------------------------------------
  // Small derivations
  // ---------------------------------------------------------------------------

  /** The dark theme background, or the default one when unset, without its leading character. */
  function BackgroundColor(settings: Settings): (color: string)
    ensures settings.darkBackground.None? ==> color == "0a1929"
    ensures settings.darkBackground.Some? && settings.darkBackground.value != [] ==>
      [settings.darkBackground.value[0]] + color == settings.darkBackground.value
    ensures settings.darkBackground == Some("") ==> color == ""
  {
    var theme := settings.darkBackground.GetOr(DefaultDarkBackground);
    if theme == [] then [] else theme[1..]
  }

  /** The map of a webhook's `headers` or `params` list: each attribute bound to its value, an absent list giving the empty map. */
  function AttributeMap(attributes: Option<seq<Attribute>>): (m: map<string, string>)
    ensures attributes.None? ==> m == map[]
    ensures ProtoKey !in m
    ensures attributes.Some? ==>
      forall k :: k in m <==> k != ProtoKey && exists i :: 0 <= i < |attributes.value| && attributes.value[i].attribute == k
  {
    var list := attributes.GetOr([]);
    var pairs := seq(|list|, i requires 0 <= i < |list| => (list[i].attribute, list[i].value));
    assert forall i :: 0 <= i < |list| ==> pairs[i].0 == list[i].attribute;
    Pairs.FromPairs(pairs) - {ProtoKey}
  }

  /** Of two entries with the same attribute, the later one wins; an entry for `__proto__` is dropped. */
  lemma AttributeMapLastWins(list: seq<Attribute>, i: nat)
    requires i < |list|
    requires forall j :: i < j < |list| ==> list[j].attribute != list[i].attribute
    ensures list[i].attribute != ProtoKey ==>
      list[i].attribute in AttributeMap(Some(list)) && AttributeMap(Some(list))[list[i].attribute] == list[i].value
    ensures list[i].attribute == ProtoKey ==> list[i].attribute !in AttributeMap(Some(list))
  {
    var pairs := seq(|list|, k requires 0 <= k < |list| => (list[k].attribute, list[k].value));
    Pairs.FromPairsLastWins(pairs, i);
  }

  // ---------------------------------------------------------------------------
  // One outcome
  // ---------------------------------------------------------------------------

  function TemplateDataFor(env: Env, settings: Settings, notification: Trigger, job: Job,
                           content: seq<ContentGroup>): TemplateData {
    TemplateData(content, notification, settings, job.user, job.data, DocUri, env.baseUrl, BackgroundColor(settings))
  }

  /** The outcome takes the email branch: its connector is the email one and not the UI one. */
  predicate EmailPath(env: Env, outcome: Option<Outcome>) {
    outcome.Some? && outcome.value.connectorId == env.connectors.email && outcome.value.connectorId != env.connectors.ui
  }

  /** The outcome takes the webhook branch: its connector is the webhook one and neither of the two before it. */
  predicate WebhookPath(env: Env, outcome: Option<Outcome>) {
    && outcome.Some? && outcome.value.connectorId == env.connectors.webhook
    && outcome.value.connectorId != env.connectors.ui && outcome.value.connectorId != env.connectors.email
  }

  /** An email configuration that parses, with a title and a template that both render. */
  predicate MailRenders(env: Env, configuration: string, templateData: TemplateData) {
    && env.parseEmail(configuration).Some?
    && env.render(env.parseEmail(configuration).value.title, templateData).Some?
    && env.render(env.parseEmail(configuration).value.template, templateData).Some?
  }

  /** A webhook configuration that parses, with a template that renders to parsable JSON. */
  predicate WebhookRenders(env: Env, configuration: string, templateData: TemplateData) {
    && env.parseWebhook(configuration).Some?
    && env.render(env.parseWebhook(configuration).value.template, templateData).Some?
    && env.parseJson(env.render(env.parseWebhook(configuration).value.template, templateData).value).Some?
  }

  /**
   * The branch on the outcome's connector id. The outcome is `None` when the
   * user's outcome id is not in the outcome cache; its connector id is then
   * `undefined` and matches no connector.
   */
  function OutcomeAction(env: Env, settings: Settings, notification: Trigger, job: Job,
                         content: seq<ContentGroup>, outcome: Option<Outcome>): (a: Action)
    ensures (a.Emit? && a.effect.NotificationCreated?) <==>
      (outcome.Some? && outcome.value.connectorId == env.connectors.ui)
    ensures a.Emit? && a.effect.NotificationCreated? ==>
      a.effect == NotificationCreated(notification.name, notification.triggerType, job.user.userId, content, false)
    ensures a.Emit? && a.effect.MailSent? ==>
      && outcome.Some? && outcome.value.connectorId == env.connectors.email != env.connectors.ui
      && a.effect.from == settings.platformEmail && a.effect.to == job.user.userEmail
    ensures a.Emit? && a.effect.WebhookCalled? ==>
      && outcome.Some? && outcome.value.connectorId == env.connectors.webhook
      && outcome.value.connectorId != env.connectors.ui && outcome.value.connectorId != env.connectors.email
      && env.parseWebhook(outcome.value.configuration).Some?
      && var config := env.parseWebhook(outcome.value.configuration).value;
         && a.effect.url == config.url && a.effect.verb == config.verb
         && a.effect.params == AttributeMap(config.params) && a.effect.headers == AttributeMap(config.headers)
    ensures a == NoAction <==>
      (outcome.None? || outcome.value.connectorId !in {env.connectors.ui, env.connectors.email, env.connectors.webhook})
    ensures a == Abort ==>
      outcome.Some? && outcome.value.connectorId != env.connectors.ui
      && outcome.value.connectorId in {env.connectors.email, env.connectors.webhook}
  {
    var connectorId := if outcome.Some? then Some(outcome.value.connectorId) else None;
    var configuration := if outcome.Some? then outcome.value.configuration else "{}";
    var templateData := TemplateDataFor(env, settings, notification, job, content);
    if connectorId == Some(env.connectors.ui) then
      Emit(NotificationCreated(notification.name, notification.triggerType, job.user.userId, content, false))
    else if connectorId == Some(env.connectors.email) then
      match env.parseEmail(configuration)
      case None => Abort
      case Some(config) =>
        match (env.render(config.title, templateData), env.render(config.template, templateData))
        case (Some(title), Some(html)) => Emit(MailSent(settings.platformEmail, job.user.userEmail, title, html))
        case _ => Abort
    else if connectorId == Some(env.connectors.webhook) then
      match env.parseWebhook(configuration)
      case None => Abort
      case Some(config) =>
        match env.render(config.template, templateData)
        case None => Abort
        case Some(rendered) =>
          match env.parseJson(rendered)
          case None => Abort
          case Some(body) =>
            Emit(WebhookCalled(config.url, config.verb, AttributeMap(config.params), AttributeMap(config.headers), body))
    else
      NoAction
  }

  /**
   * The two sending branches in full: an email or webhook outcome whose
   * configuration parses and renders issues its mail or call with the
   * rendered values, and the outcome throws exactly when one of those steps
   * fails.
   */
  lemma OutcomeActionSends(env: Env, settings: Settings, notification: Trigger, job: Job,
                           content: seq<ContentGroup>, outcome: Option<Outcome>)
    ensures var templateData := TemplateDataFor(env, settings, notification, job, content);
      EmailPath(env, outcome) && MailRenders(env, outcome.value.configuration, templateData) ==>
        var config := env.parseEmail(outcome.value.configuration).value;
        OutcomeAction(env, settings, notification, job, content, outcome) == Emit(MailSent(settings.platformEmail, job.user.userEmail,
                           env.render(config.title, templateData).value, env.render(config.template, templateData).value))
    ensures var templateData := TemplateDataFor(env, settings, notification, job, content);
      WebhookPath(env, outcome) && WebhookRenders(env, outcome.value.configuration, templateData) ==>
        var config := env.parseWebhook(outcome.value.configuration).value;
        OutcomeAction(env, settings, notification, job, content, outcome) == Emit(WebhookCalled(config.url, config.verb, AttributeMap(config.params), AttributeMap(config.headers),
                                env.parseJson(env.render(config.template, templateData).value).value))
    ensures var templateData := TemplateDataFor(env, settings, notification, job, content);
      OutcomeAction(env, settings, notification, job, content, outcome) == Abort <==>
        || (EmailPath(env, outcome) && !MailRenders(env, outcome.value.configuration, templateData))
        || (WebhookPath(env, outcome) && !WebhookRenders(env, outcome.value.configuration, templateData))
  {
  }

  // ---------------------------------------------------------------------------
  // One processNotificationEvent call
  // ---------------------------------------------------------------------------

  /** The action of one of the user's outcome ids. */
  function ActionFor(env: Env, cat: Catalogue, notification: Trigger, job: Job, outcomeId: string): Action {
    OutcomeAction(env, cat.settings, notification, job, Content.GroupedContent(job.data, TriggerMap(cat.triggers)),
                  Lookup(OutcomeMap(cat.outcomes), outcomeId))
  }

  /** Performing one action after a run: nothing more happens once an exception was thrown. */
  function Step(run: Run, a: Action): Run {
    if !run.completed then run
    else
      match a
      case NoAction => run
      case Emit(e) => Run(run.effects + [e], true)
      case Abort => Run(run.effects, false)
  }

  /** The user's outcome ids; none when the list is absent. */
  function UserOutcomes(user: NotificationUser): seq<string> {
    user.outcomes.GetOr([])
  }

  /** The outcome loop, over the outcome ids in list order. */
  function DispatchOutcomes(env: Env, cat: Catalogue, notification: Trigger, job: Job, outcomeIds: seq<string>): (r: Run)
    ensures |r.effects| <= |outcomeIds|
  {
    if outcomeIds == [] then Run([], true)
    else
      Step(DispatchOutcomes(env, cat, notification, job, outcomeIds[..|outcomeIds| - 1]),
           ActionFor(env, cat, notification, job, outcomeIds[|outcomeIds| - 1]))
  }

  /** `processNotificationEvent`: nothing at all for an unknown notification id. */
  function DispatchJob(env: Env, cat: Catalogue, job: Job): (r: Run)
    ensures job.notificationId !in TriggerMap(cat.triggers) ==> r == Run([], true)
  {
    var tmap := TriggerMap(cat.triggers);
    if job.notificationId !in tmap then Run([], true)
    else DispatchOutcomes(env, cat, tmap[job.notificationId], job, UserOutcomes(job.user))
  }

  /**
   * `processNotificationEvent` issues nothing, and throws nothing, for an
   * unknown notification id or a user without an `outcomes` list.
   */
  lemma NothingWithoutTriggerOrOutcomes(env: Env, cat: Catalogue, job: Job)
    requires job.notificationId !in TriggerMap(cat.triggers) || job.user.outcomes.None?
    ensures DispatchJob(env, cat, job) == Run([], true)
  {
  }

  /** Once an outcome has thrown, the later outcomes change nothing. */
  lemma {:induction false} DispatchAbortSticky(env: Env, cat: Catalogue, notification: Trigger, job: Job,
                                               outcomeIds: seq<string>, i: nat)
    requires i <= |outcomeIds|
    requires !DispatchOutcomes(env, cat, notification, job, outcomeIds[..i]).completed
    ensures DispatchOutcomes(env, cat, notification, job, outcomeIds)
         == DispatchOutcomes(env, cat, notification, job, outcomeIds[..i])
  {
    if i < |outcomeIds| {
      var front := outcomeIds[..|outcomeIds| - 1];
      assert front[..i] == outcomeIds[..i];
      DispatchAbortSticky(env, cat, notification, job, front, i);
    } else {
      assert outcomeIds[..i] == outcomeIds;
    }
  }

  /** The effects of a list of actions, in order: one for each `Emit`, none for the others. */
  function Emitted(actions: seq<Action>): seq<Effect> {
    if actions == [] then []
    else
      var last := actions[|actions| - 1];
      Emitted(actions[..|actions| - 1]) + (if last.Emit? then [last.effect] else [])
  }

  /** Performing a list of actions in order, from a run that has neither effects nor an exception. */
  function RunActions(actions: seq<Action>): Run {
    if actions == [] then Run([], true)
    else Step(RunActions(actions[..|actions| - 1]), actions[|actions| - 1])
  }

  /** A list of actions completes exactly when none of them throws, and then issues the emitted effects. */
  lemma {:induction false} RunActionsMeaning(actions: seq<Action>)
    ensures RunActions(actions).completed <==> forall i :: 0 <= i < |actions| ==> actions[i] != Abort
    ensures RunActions(actions).completed ==> RunActions(actions).effects == Emitted(actions)
  {
    if actions != [] {
      var front := actions[..|actions| - 1];
      var a := actions[|actions| - 1];
      RunActionsMeaning(front);
      StepFacts(RunActions(front), a);
      assert forall i :: 0 <= i < |front| ==> front[i] == actions[i];
    }
  }

  /** The action of each outcome id, in list order. */
  function Actions(env: Env, cat: Catalogue, notification: Trigger, job: Job, outcomeIds: seq<string>): seq<Action> {
    seq(|outcomeIds|, i requires 0 <= i < |outcomeIds| => ActionFor(env, cat, notification, job, outcomeIds[i]))
  }

  /** The outcome loop performs the actions of the outcome ids, in order. */
  lemma {:induction false} DispatchRunsActions(env: Env, cat: Catalogue, notification: Trigger, job: Job,
                                               outcomeIds: seq<string>)
    ensures DispatchOutcomes(env, cat, notification, job, outcomeIds) == RunActions(Actions(env, cat, notification, job, outcomeIds))
  {
    if outcomeIds != [] {
      var front := outcomeIds[..|outcomeIds| - 1];
      var actions := Actions(env, cat, notification, job, outcomeIds);
      DispatchRunsActions(env, cat, notification, job, front);
      assert actions[..|actions| - 1] == Actions(env, cat, notification, job, front);
    }
  }

  /**
   * One action per outcome id, in list order: the loop completes exactly
   * when no outcome throws, and then its effects are the emitted actions'
   * effects, in order.
   */
  lemma DispatchIsOneActionPerOutcome(env: Env, cat: Catalogue, notification: Trigger, job: Job,
                                      outcomeIds: seq<string>)
    ensures DispatchOutcomes(env, cat, notification, job, outcomeIds).completed <==>
      forall i :: 0 <= i < |outcomeIds| ==> Actions(env, cat, notification, job, outcomeIds)[i] != Abort
    ensures DispatchOutcomes(env, cat, notification, job, outcomeIds).completed ==>
      DispatchOutcomes(env, cat, notification, job, outcomeIds).effects
        == Emitted(Actions(env, cat, notification, job, outcomeIds))
  {
    DispatchRunsActions(env, cat, notification, job, outcomeIds);
    RunActionsMeaning(Actions(env, cat, notification, job, outcomeIds));
  }

  lemma StepFacts(run: Run, a: Action)
    ensures Step(run, a).completed <==> run.completed && a != Abort
    ensures Step(run, a).completed ==> Step(run, a).effects == run.effects + (if a.Emit? then [a.effect] else [])
    ensures Step(run, a).effects == run.effects || Step(run, a).effects == run.effects + [a.effect]
  {
  }

  /** What every effect of a user's outcome loop looks like, whatever its outcome. */
  ghost predicate ShapedFor(settings: Settings, notification: Trigger, job: Job, content: seq<ContentGroup>, e: Effect) {
    match e
    case NotificationCreated(_, _, _, _, _) =>
      e == NotificationCreated(notification.name, notification.triggerType, job.user.userId, content, false)
    case MailSent(from, to, _, _) => from == settings.platformEmail && to == job.user.userEmail
    case WebhookCalled(_, _, _, _, _) => true
  }

  /**
   * Every in-platform notification of the loop carries the trigger's name
   * and type, the user's id, the same `content` and `is_read` false; every
   * mail goes from the platform address to the user's address.
   */
  lemma {:induction false} DispatchEffectsShaped(env: Env, cat: Catalogue, notification: Trigger, job: Job,
                                                 outcomeIds: seq<string>)
    ensures forall k :: 0 <= k < |DispatchOutcomes(env, cat, notification, job, outcomeIds).effects| ==>
      ShapedFor(cat.settings, notification, job, Content.GroupedContent(job.data, TriggerMap(cat.triggers)),
                DispatchOutcomes(env, cat, notification, job, outcomeIds).effects[k])
  {
    if outcomeIds != [] {
      var content := Content.GroupedContent(job.data, TriggerMap(cat.triggers));
      var front := outcomeIds[..|outcomeIds| - 1];
      var previous := DispatchOutcomes(env, cat, notification, job, front);
      var a := ActionFor(env, cat, notification, job, outcomeIds[|outcomeIds| - 1]);
      DispatchEffectsShaped(env, cat, notification, job, front);
      assert forall k :: 0 <= k < |previous.effects| ==>
        ShapedFor(cat.settings, notification, job, content, previous.effects[k]);
      assert DispatchOutcomes(env, cat, notification, job, outcomeIds) == Step(previous, a);
      StepFacts(previous, a);
      var effects := Step(previous, a).effects;
      forall k | 0 <= k < |effects|
        ensures ShapedFor(cat.settings, notification, job, content, effects[k])
      {
        if k >= |previous.effects| {
          assert effects == previous.effects + [a.effect];
          var outcome := Lookup(OutcomeMap(cat.outcomes), outcomeIds[|outcomeIds| - 1]);
          assert a == OutcomeAction(env, cat.settings, notification, job, content, outcome);
          assert a.Emit? && effects[k] == a.effect;
          assert ShapedFor(cat.settings, notification, job, content, a.effect);
        } else {
          assert effects[k] == previous.effects[k];
          assert ShapedFor(cat.settings, notification, job, content, previous.effects[k]);
        }
      }
    }
  }

  // ---------------------------------------------------------------------------
  // Routing a batch
  // ---------------------------------------------------------------------------

  /** `processLiveNotificationEvent`: one call per target, in target order, each with a one-item `data`. */
  function LiveCalls(e: StreamEvent): (calls: seq<Call>)
    ensures e.LiveEvent? ==> |calls| == |e.targets| && Malformed !in calls
    ensures e.DigestEvent? ==> calls == [Malformed]
  {
    match e
    case LiveEvent(_, targets, _) => seq(|targets|, i requires 0 <= i < |targets| => Process(LiveJob(e, targets[i])))
    case DigestEvent(_, _, _) => [Malformed]
  }

  /** The job of one target of a live event: the target's user and a single item built from the event and the target. */
  function LiveJob(e: StreamEvent, target: Target): Job
    requires e.LiveEvent?
  {
    Job(e.notificationId, target.user, [DataItem(e.notificationId, e.instance, target.targetType, target.message)])
  }

  /** `processDigestNotificationEvent`: one call with the event's target and its data unchanged. */
  function DigestCalls(e: StreamEvent): (calls: seq<Call>)
    ensures |calls| == 1 && (calls[0].Process? <==> e.DigestEvent?)
    ensures e.DigestEvent? ==>
      calls[0].job.notificationId == e.notificationId && calls[0].job.user == e.target && calls[0].job.data == e.data
  {
    match e
    case DigestEvent(notificationId, target, data) => [Process(Job(notificationId, target, data))]
    case LiveEvent(_, _, _) => [Malformed]
  }

  /** The calls one stream event leads to, by the `trigger_type` of its trigger. */
  function EventCalls(tmap: map<string, Trigger>, e: StreamEvent): (calls: seq<Call>)
    ensures e.notificationId !in tmap ==> calls == []
    ensures e.notificationId in tmap && tmap[e.notificationId].triggerType !in {LiveTrigger, DigestTrigger} ==> calls == []
  {
    if e.notificationId !in tmap then []
    else if tmap[e.notificationId].triggerType == LiveTrigger then LiveCalls(e)
    else if tmap[e.notificationId].triggerType == DigestTrigger then DigestCalls(e)
    else []
  }

  /** The calls of a batch, in delivery order. */
  function Route(tmap: map<string, Trigger>, events: seq<StreamEvent>): (calls: seq<Call>)
  {
    if events == [] then []
    else Route(tmap, events[..|events| - 1]) + EventCalls(tmap, events[|events| - 1])
  }

  /** Running one call after a run. */
  function Then(env: Env, cat: Catalogue, run: Run, call: Call): (r: Run)
    ensures !run.completed ==> r == run
    ensures r.completed ==> run.completed
    ensures run.effects <= r.effects
  {
    if !run.completed then run
    else
      match call
      case Malformed => Run(run.effects, false)
      case Process(job) =>
        var d := DispatchJob(env, cat, job);
        Run(run.effects + d.effects, d.completed)
  }

  /** Running a list of calls one after the other. */
  function RunCalls(env: Env, cat: Catalogue, calls: seq<Call>): (r: Run)
  {
    if calls == [] then Run([], true)
    else Then(env, cat, RunCalls(env, cat, calls[..|calls| - 1]), calls[|calls| - 1])
  }

  /** Every job an event asks for is sent to the trigger the event names. */
  lemma EventCallsForItsTrigger(tmap: map<string, Trigger>, e: StreamEvent)
    ensures forall c :: c in EventCalls(tmap, e) && c.Process? ==> c.job.notificationId == e.notificationId
  {
    if e.notificationId in tmap && tmap[e.notificationId].triggerType == LiveTrigger && e.LiveEvent? {
      forall c | c in LiveCalls(e) && c.Process?
        ensures c.job.notificationId == e.notificationId
      {
        var i :| 0 <= i < |LiveCalls(e)| && LiveCalls(e)[i] == c;
      }
    }
  }

  /** A batch only ever dispatches jobs of triggers known to the cache. */
  lemma {:induction false} RouteOnlyKnownTriggers(tmap: map<string, Trigger>, events: seq<StreamEvent>)
    ensures forall c :: c in Route(tmap, events) && c.Process? ==> c.job.notificationId in tmap
  {
    if events != [] {
      var e := events[|events| - 1];
      RouteOnlyKnownTriggers(tmap, events[..|events| - 1]);
      EventCallsForItsTrigger(tmap, e);
    }
  }

  /** A malformed event anywhere among the calls makes the run throw. */
  lemma {:induction false} MalformedAborts(env: Env, cat: Catalogue, calls: seq<Call>)
    requires Malformed in calls
    ensures !RunCalls(env, cat, calls).completed
  {
    var last := calls[|calls| - 1];
    if last != Malformed {
      assert Malformed in calls[..|calls| - 1] by {
        var i :| 0 <= i < |calls| && calls[i] == Malformed;
        assert i < |calls| - 1;
        assert calls[..|calls| - 1][i] == Malformed;
      }
      MalformedAborts(env, cat, calls[..|calls| - 1]);
    }
  }

  /** Running `second` after `first`. */
  function Chain(first: Run, second: Run): Run {
    if !first.completed then first else Run(first.effects + second.effects, second.completed)
  }

  /** `publisherStreamHandler` on one batch. */
  function HandleBatch(env: Env, cat: Catalogue, events: seq<StreamEvent>): (r: Run)
    ensures Route(TriggerMap(cat.triggers), events) == [] ==> r == Run([], true)
  {
    RunCalls(env, cat, Route(TriggerMap(cat.triggers), events))
  }

  lemma {:induction false} RouteConcat(tmap: map<string, Trigger>, a: seq<StreamEvent>, b: seq<StreamEvent>)
    ensures Route(tmap, a + b) == Route(tmap, a) + Route(tmap, b)
  {
    if b == [] {
      assert a + b == a;
    } else {
      var front := b[..|b| - 1];
      assert (a + b)[..|a + b| - 1] == a + front;
      RouteConcat(tmap, a, front);
    }
  }

  lemma {:induction false} RunCallsConcat(env: Env, cat: Catalogue, a: seq<Call>, b: seq<Call>)
    ensures RunCalls(env, cat, a + b) == Chain(RunCalls(env, cat, a), RunCalls(env, cat, b))
  {
    if b == [] {
      assert a + b == a;
    } else {
      var front := b[..|b| - 1];
      assert (a + b)[..|a + b| - 1] == a + front;
      RunCallsConcat(env, cat, a, front);
      ThenChain(env, cat, RunCalls(env, cat, a), RunCalls(env, cat, front), b[|b| - 1]);
    }
  }

  lemma ThenChain(env: Env, cat: Catalogue, first: Run, second: Run, call: Call)
    ensures Then(env, cat, Chain(first, second), call) == Chain(first, Then(env, cat, second, call))
  {
    if first.completed && second.completed && call.Process? {
      var d := DispatchJob(env, cat, call.job);
      assert first.effects + second.effects + d.effects == first.effects + (second.effects + d.effects);
    }
  }

  /**
   * Events are handled in delivery order: the batch `a + b` issues the
   * effects of `a` and then, unless `a` threw, those of `b`.
   */
  lemma BatchInDeliveryOrder(env: Env, cat: Catalogue, a: seq<StreamEvent>, b: seq<StreamEvent>)
    ensures HandleBatch(env, cat, a + b) == Chain(HandleBatch(env, cat, a), HandleBatch(env, cat, b))
  {
    var tmap := TriggerMap(cat.triggers);
    RouteConcat(tmap, a, b);
    RunCallsConcat(env, cat, Route(tmap, a), Route(tmap, b));
  }

  /** A stream event whose notification id is not a known trigger is skipped. */
  lemma UnknownEventSkipped(env: Env, cat: Catalogue, before: seq<StreamEvent>, e: StreamEvent, after: seq<StreamEvent>)
    requires e.notificationId !in TriggerMap(cat.triggers)
    ensures HandleBatch(env, cat, before + [e] + after) == HandleBatch(env, cat, before + after)
  {
    var tmap := TriggerMap(cat.triggers);
    RouteConcat(tmap, before + [e], after);
    RouteConcat(tmap, before, [e]);
    RouteConcat(tmap, before, after);
    assert Route(tmap, [e]) == [] by {
      assert [e][..0] == [];
      assert EventCalls(tmap, e) == [];
    }
    assert Route(tmap, before + [e] + after) == Route(tmap, before + after);
  }

  /**
   * The calls one event routes to: a live trigger's event expands per
   * target, a digest trigger's event is one call, any other trigger type
   * gives none.
   */
  lemma RouteOneEvent(tmap: map<string, Trigger>, e: StreamEvent)
    requires e.notificationId in tmap
    ensures var calls := Route(tmap, [e]);
      && (tmap[e.notificationId].triggerType == LiveTrigger && e.LiveEvent? ==>
           && |calls| == |e.targets|
           && forall i :: 0 <= i < |e.targets| ==>
                calls[i] == Process(Job(e.notificationId, e.targets[i].user,
                                        [DataItem(e.notificationId, e.instance, e.targets[i].targetType, e.targets[i].message)])))
      && (tmap[e.notificationId].triggerType == DigestTrigger && e.DigestEvent? ==>
           calls == [Process(Job(e.notificationId, e.target, e.data))])
      && (tmap[e.notificationId].triggerType !in {LiveTrigger, DigestTrigger} ==> calls == [])
  {
    assert [e][..0] == [];
  }

  /** An exception in one event of a batch skips every later event of that batch. */
  lemma AbortSkipsRestOfBatch(env: Env, cat: Catalogue, a: seq<StreamEvent>, b: seq<StreamEvent>)
    requires !HandleBatch(env, cat, a).completed
    ensures HandleBatch(env, cat, a + b) == HandleBatch(env, cat, a)
  {
    BatchInDeliveryOrder(env, cat, a, b);
  }
}

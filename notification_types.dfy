/**
 * The values the publisher reads: notification rules (triggers), the users
 * they target, the items of a notification and the stream events that carry
 * them, and the content the publisher builds from them.
 */
module NotificationTypes {
  import opened Wrappers
  import opened OutcomeTypes
  import Pairs

  const LiveTrigger: string := "live"
  const DigestTrigger: string := "digest"

  /** A notification rule: its id, its display name and its `trigger_type`. */
  datatype Trigger = Trigger(id: string, name: string, triggerType: string)

  /** A recipient; `outcomes` is absent for a live trigger that only feeds a digest. */
  datatype NotificationUser = NotificationUser(
    userId: string,
    userEmail: string,
    outcomes: Option<seq<string>>)

  /** The subject of a change; its `id` may be missing. */
  datatype Instance = Instance(id: Option<string>)

  /** One item of the `data` list given to the dispatcher. */
  datatype DataItem = DataItem(
    notificationId: string,
    instance: Instance,
    itemType: string,
    message: string)

  /** One recipient of a live event, with the operation and message for that recipient. */
  datatype Target = Target(user: NotificationUser, targetType: string, message: string)

  /**
   * A notification stream event. The stream itself does not say which shape
   * an event has: the handler reads it as live or digest according to the
   * trigger it refers to.
   */
  datatype StreamEvent =
    | LiveEvent(notificationId: string, targets: seq<Target>, instance: Instance)
    | DigestEvent(notificationId: string, target: NotificationUser, data: seq<DataItem>)

  /** One event of a content group: `{operation, message, instance_id}`. */
  datatype ContentEvent = ContentEvent(operation: string, message: string, instanceId: Option<string>)

  /** One group of the `content` list: `{title, events}`. */
  datatype ContentGroup = ContentGroup(title: string, events: seq<ContentEvent>)

  /** The platform settings the publisher reads. */
  datatype Settings = Settings(platformEmail: string, darkBackground: Option<string>)

  /** The triggers by internal id; of two with the same id, the later one is kept. */
  function TriggerMap(triggers: seq<Trigger>): map<string, Trigger> {
    Pairs.FromPairs(seq(|triggers|, i requires 0 <= i < |triggers| => (triggers[i].id, triggers[i])))
  }

  /** The outcomes by internal id; of two with the same id, the later one is kept. */
  function OutcomeMap(outcomes: seq<Outcome>): map<string, Outcome> {
    Pairs.FromPairs(seq(|outcomes|, i requires 0 <= i < |outcomes| => (outcomes[i].id, outcomes[i])))
  }
}

/**
 * The shape of a notification preference configuration: a dictionary from
 * category (app) name to the category's settings. Every key of the stored
 * dictionaries may be missing, so each field is an Option; the merge and the
 * filter read some of them unconditionally, and their contracts say which.
 */
module Preferences {
  import opened Wrappers

  /** The three boolean delivery keys of a notification type: "web", "push", "email". */
  datatype Channel = Web | Push | Email

  /** The channel keys in the order the merge visits them. */
  const Channels: seq<Channel> := [Web, Push, Email]

  /** Settings of one notification type: the channel flags it carries, and its "email_cadence". */
  datatype TypeConfig = TypeConfig(channels: map<Channel, bool>, emailCadence: Option<string>)

  /**
   * Settings of one category: "enabled", "core_notification_types" (kept as a
   * set: its element order is not specified) and "notification_types".
   */
  datatype CategoryConfig = CategoryConfig(
    enabled: Option<bool>,
    coreTypes: Option<set<string>>,
    notificationTypes: Option<map<string, TypeConfig>>)

  /** A whole configuration, keyed by category name. */
  type NotificationConfig = map<string, CategoryConfig>

  lemma AllChannelsListed(ch: Channel)
    ensures ch in Channels
  {
  }
}

/**
 * The foreground notification `getNotification` builds from the current
 * configuration. Channel creation and the pending intents that open the app
 * are platform plumbing and are not part of the record.
 */
module Notifications {
  import opened JvmInts
  import opened Settings

  /** `NotificationCompat.PRIORITY_HIGH`. */
  const PriorityHigh: int := 1

  /** A button added with `addAction(icon, title, intent)`. */
  datatype Action = Action(icon: Int32, title: string)

  datatype Notification = Notification(
    title: string,
    text: string,
    bigText: string,
    smallIcon: Int32,
    color: Int32,
    priority: int,
    onlyAlertOnce: bool,
    ongoing: bool,
    actions: seq<Action>)

  /** `getNotification`, as a pure builder over the configuration. */
  function Build(c: Config): (n: Notification)
    ensures n.title == c.title && n.text == c.msg && n.bigText == c.bigMsg
    ensures n.smallIcon == c.icon && n.color == c.iconColor
    ensures n.priority == PriorityHigh && n.ongoing && n.onlyAlertOnce
    ensures |n.actions| == 1 <==> c.hasButtons
    ensures |n.actions| <= 1
    ensures c.hasButtons ==> n.actions[0] == Action(0, c.buttonMsg)
  {
    Notification(
      c.title, c.msg, c.bigMsg, c.icon, c.iconColor, PriorityHigh, true, true,
      if c.hasButtons then [Action(0, c.buttonMsg)] else [])
  }

  /** Two configurations agree on everything a notification shows. */
  predicate ShowSame(c1: Config, c2: Config) {
    && c1.title == c2.title
    && c1.msg == c2.msg
    && c1.bigMsg == c2.bigMsg
    && c1.icon == c2.icon
    && c1.iconColor == c2.iconColor
    && c1.hasButtons == c2.hasButtons
    && (c1.hasButtons ==> c1.buttonMsg == c2.buttonMsg)
  }

  /**
   * The notification is determined by, and determines, the shown fields: the
   * channel name, the wake-lock time and a button label without a button play
   * no part in it.
   */
  lemma BuildShowsExactly(c1: Config, c2: Config)
    ensures Build(c1) == Build(c2) <==> ShowSame(c1, c2)
  {
    if Build(c1) == Build(c2) && c1.hasButtons {
      assert Build(c1).actions[0] == Build(c2).actions[0];
    }
  }
}

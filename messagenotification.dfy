/** The message toast of modern-chat-app/components/MessageNotification.tsx.
    The notification is the parsed socket frame the provider stored. Its
    declared fields are `UserId`, `Content`, `Username` and `Type`, but the
    card reads the lower-case `content` and `username`, so those two may be
    undefined (`None`). The card's one state variable, `isVisible`, is the
    field of `Toast`. The timers' callbacks are returned as flags, not run. */
module MessageNotification {
  import opened Common

  datatype Notification = Notification(userId: string, content: Option<string>, username: Option<string>)

  /** The default `maxLength` of truncateContent. */
  const DEFAULT_MAX_LENGTH: nat := 50

  /** What `undefined + "..."` evaluates to. */
  const UNDEFINED_TRUNCATED: string := "undefined..."

  /** truncateContent (MessageNotification.tsx:58-61). For an undefined
      content, `undefined <= maxLength` is false, so the second branch runs
      and concatenates the undefined substring with "...". */
  function Truncate(content: Option<string>, maxLength: nat): (r: string)
    ensures content.Some? && |content.value| <= maxLength ==> r == content.value
    ensures content.Some? && |content.value| > maxLength ==>
      |r| == maxLength + 3 && r[..maxLength] == content.value[..maxLength] && r[maxLength..] == "..."
    ensures content.None? ==> r == UNDEFINED_TRUNCATED
  {
    match content
    case None => UNDEFINED_TRUNCATED
    case Some(s) => if |s| <= maxLength then s else s[..maxLength] + "..."
  }

  /** A defined content is never shown longer than `maxLength` characters
      plus the ellipsis, and the shown text starts with the first
      min(length, maxLength) characters of the content. */
  lemma TruncateBounds(s: string, maxLength: nat)
    ensures |Truncate(Some(s), maxLength)| <= maxLength + 3
    ensures var n := if |s| <= maxLength then |s| else maxLength;
      n <= |Truncate(Some(s), maxLength)| && Truncate(Some(s), maxLength)[..n] == s[..n]
  {
  }

  /** Truncating an already truncated text changes nothing. */
  lemma TruncateIdempotent(s: string, maxLength: nat)
    ensures Truncate(Some(Truncate(Some(s), maxLength)), maxLength) == Truncate(Some(s), maxLength)
  {
  }

  /** The card's getInitials (MessageNotification.tsx:53-56) returns the
      name it is given: the fallback shows the whole username. */
  function CardInitials(name: Option<string>): (r: Option<string>)
    ensures r == name
  {
    name
  }

  /** What the card shows (MessageNotification.tsx:63-99): nothing without a
      notification; otherwise the username as title and as avatar fallback,
      the content truncated to the default length, and the slide-in state. */
  datatype Card = Card(title: Option<string>, fallback: Option<string>, body: string, visible: bool)

  function Render(n: Option<Notification>, isVisible: bool): (r: Option<Card>)
    ensures r.Some? <==> n.Some?
    ensures n.Some? ==> r.value.fallback == r.value.title == n.value.username && r.value.visible == isVisible
    // the body is the content truncated to the default length
    ensures n.Some? ==> r.value.body == Truncate(n.value.content, DEFAULT_MAX_LENGTH)
    // so a defined content is shown in at most 53 characters
    ensures n.Some? && n.value.content.Some? ==> |r.value.body| <= DEFAULT_MAX_LENGTH + 3
  {
    match n
    case None => None
    case Some(v) =>
      Some(Card(v.username, CardInitials(v.username), Truncate(v.content, DEFAULT_MAX_LENGTH), isVisible))
  }

  class Toast {
    var isVisible: bool

    constructor ()
      ensures !isVisible
    {
      isVisible := false;
    }

    /** The effect on `notification` (MessageNotification.tsx:24-37): a
        notification shows the card and starts the 5-second auto-dismiss
        timer; no notification hides it. */
    method OnNotification(n: Option<Notification>) returns (dismissTimer: bool)
      modifies this
      ensures isVisible == n.Some? && dismissTimer == n.Some?
    {
      isVisible := n.Some?;
      dismissTimer := n.Some?;
    }

    /** handleClose (MessageNotification.tsx:39-44): hide, then tell the
        parent after the 300 ms animation. */
    method HandleClose() returns (closeTimer: bool)
      modifies this
      ensures !isVisible && closeTimer
    {
      isVisible := false;
      closeTimer := true;
    }

    /** handleViewChat (MessageNotification.tsx:46-51): with a notification,
        its UserId goes to onViewChat and the card closes; without one
        nothing happens. */
    method HandleViewChat(n: Option<Notification>) returns (viewed: Option<string>, closeTimer: bool)
      modifies this
      ensures n.None? ==> viewed == None && !closeTimer && isVisible == old(isVisible)
      ensures n.Some? ==> viewed == Some(n.value.userId) && closeTimer && !isVisible
    {
      if n.None? {
        return None, false;
      }
      viewed := Some(n.value.userId);
      closeTimer := HandleClose();
    }
  }
}

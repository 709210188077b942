/**
 * Notification handles (src/viser/_notification_handle.py): five properties whose
 * setters re-send the whole notification when, and only when, the assigned value
 * differs from the stored one under Python's `==`, and removal.
 */
module NotificationHandle {
  import opened ServerMessages

  /** `int | Literal[False]` under Python's `==`, where `False == 0`. */
  function AutoCloseNumber(a: AutoClose): int
  {
    match a
    case Never => 0
    case AfterMs(ms) => ms
  }

  predicate AutoCloseEq(a: AutoClose, b: AutoClose)
  {
    AutoCloseNumber(a) == AutoCloseNumber(b)
  }

  /** The fields of a notification. */
  datatype Notification = Notification(id: string, title: string, body: string, loading: bool,
                                       withCloseButton: bool, autoClose: AutoClose)

  /** `_update_notification`'s message: every field as currently stored. */
  function UpdateMessage(n: Notification): Message
  {
    UpdateNotification(n.id, n.title, n.body, n.loading, n.withCloseButton, n.autoClose)
  }

  /** One property assignment. */
  datatype Assignment =
    | TitleTo(title: string)
    | BodyTo(body: string)
    | LoadingTo(loading: bool)
    | WithCloseButtonTo(withCloseButton: bool)
    | AutoCloseTo(autoClose: AutoClose)

  /** Whether the setter's `==` test finds the value already stored. */
  predicate AlreadyStored(n: Notification, a: Assignment)
  {
    match a
    case TitleTo(t) => t == n.title
    case BodyTo(b) => b == n.body
    case LoadingTo(l) => l == n.loading
    case WithCloseButtonTo(c) => c == n.withCloseButton
    case AutoCloseTo(ac) => AutoCloseEq(ac, n.autoClose)
  }

  function Stored(n: Notification, a: Assignment): Notification
  {
    match a
    case TitleTo(t) => n.(title := t)
    case BodyTo(b) => n.(body := b)
    case LoadingTo(l) => n.(loading := l)
    case WithCloseButtonTo(c) => n.(withCloseButton := c)
    case AutoCloseTo(ac) => n.(autoClose := ac)
  }

  /** A property setter: the new fields and what is queued. */
  function Assign(n: Notification, a: Assignment): (r: (Notification, seq<Message>))
    ensures AlreadyStored(n, a) ==> r == (n, [])
    ensures !AlreadyStored(n, a) ==> r.1 == [UpdateMessage(r.0)]
    ensures r.0.id == n.id
  {
    if AlreadyStored(n, a) then (n, []) else (Stored(n, a), [UpdateMessage(Stored(n, a))])
  }

  /** After a setter the value reads back (up to `==`), and repeating it queues nothing. */
  lemma AssignIsIdempotent(n: Notification, a: Assignment)
    ensures AlreadyStored(Assign(n, a).0, a)
    ensures Assign(Assign(n, a).0, a) == (Assign(n, a).0, [])
  {
  }

  /** `auto_close = 0` on a notification that never closes is a no-op, since `0 == False`. */
  lemma ZeroAutoCloseEqualsNever(n: Notification)
    requires n.autoClose == Never
    ensures Assign(n, AutoCloseTo(AfterMs(0))) == (n, [])
  {
  }

  /**
   * A run of assignments: the final fields and everything queued, in order; at most one
   * message per assignment, each an update of this notification.
   */
  function AssignAll(n: Notification, as_: seq<Assignment>): (r: (Notification, seq<Message>))
    ensures |r.1| <= |as_|
    ensures forall i :: 0 <= i < |r.1| ==> r.1[i].UpdateNotification? && r.1[i].id == n.id
    decreases |as_|
  {
    if |as_| == 0 then (n, [])
    else
      var (m, q) := Assign(n, as_[0]);
      var (final, rest) := AssignAll(m, as_[1..]);
      (final, q + rest)
  }

  /**
   * Whatever was assigned, the last message queued describes the notification as it
   * now is, and when nothing was queued nothing changed.
   */
  lemma {:induction false} LastMessageIsCurrent(n: Notification, as_: seq<Assignment>)
    ensures var (final, q) := AssignAll(n, as_);
      && final.id == n.id
      && (|q| > 0 ==> q[|q| - 1] == UpdateMessage(final))
      && (|q| == 0 ==> final == n)
    decreases |as_|
  {
    if |as_| > 0 {
      var (m, q) := Assign(n, as_[0]);
      LastMessageIsCurrent(m, as_[1..]);
    }
  }

  /** `NotificationHandle`: the fields and the connection messages are queued on. */
  class NotificationHandle {
    const websockInterface: Outbox
    const id: string
    var title: string
    var body: string
    var loading: bool
    var withCloseButton: bool
    var autoClose: AutoClose

    constructor (websockInterface: Outbox, id: string, title: string, body: string)
      ensures this.websockInterface == websockInterface
      ensures State() == Notification(id, title, body, false, true, Never)
    {
      this.websockInterface := websockInterface;
      this.id := id;
      this.title := title;
      this.body := body;
      loading := false;
      withCloseButton := true;
      autoClose := Never;
    }

    function State(): Notification
      reads this
    {
      Notification(id, title, body, loading, withCloseButton, autoClose)
    }

    /** `_update_notification`. */
    method QueueUpdate()
      modifies websockInterface
      ensures websockInterface.queued == old(websockInterface.queued) + [UpdateMessage(State())]
    {
      websockInterface.Queue(UpdateMessage(State()));
    }

    method SetTitle(t: string)
      modifies this, websockInterface
      ensures State() == Assign(old(State()), TitleTo(t)).0
      ensures websockInterface.queued == old(websockInterface.queued) + Assign(old(State()), TitleTo(t)).1
    {
      if t == title {
        return;
      }
      title := t;
      QueueUpdate();
    }

    method SetBody(b: string)
      modifies this, websockInterface
      ensures State() == Assign(old(State()), BodyTo(b)).0
      ensures websockInterface.queued == old(websockInterface.queued) + Assign(old(State()), BodyTo(b)).1
    {
      if b == body {
        return;
      }
      body := b;
      QueueUpdate();
    }

    method SetLoading(l: bool)
      modifies this, websockInterface
      ensures State() == Assign(old(State()), LoadingTo(l)).0
      ensures websockInterface.queued == old(websockInterface.queued) + Assign(old(State()), LoadingTo(l)).1
    {
      if l == loading {
        return;
      }
      loading := l;
      QueueUpdate();
    }

    method SetWithCloseButton(c: bool)
      modifies this, websockInterface
      ensures State() == Assign(old(State()), WithCloseButtonTo(c)).0
      ensures websockInterface.queued == old(websockInterface.queued) + Assign(old(State()), WithCloseButtonTo(c)).1
    {
      if c == withCloseButton {
        return;
      }
      withCloseButton := c;
      QueueUpdate();
    }

    method SetAutoClose(ac: AutoClose)
      modifies this, websockInterface
      ensures State() == Assign(old(State()), AutoCloseTo(ac)).0
      ensures websockInterface.queued == old(websockInterface.queued) + Assign(old(State()), AutoCloseTo(ac)).1
    {
      if AutoCloseEq(ac, autoClose) {
        return;
      }
      autoClose := ac;
      QueueUpdate();
    }

    /** `remove`: one removal message for this id. */
    method Remove()
      modifies websockInterface
      ensures websockInterface.queued == old(websockInterface.queued) + [RemoveNotification(id)]
    {
      websockInterface.Queue(RemoveNotification(id));
    }
  }
}

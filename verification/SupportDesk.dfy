/** The support services as methods that update a conversation in place. */
module SupportDesk {
  import opened Wrappers
  import opened Text
  import opened Support

  class Conversation {
    const wording: Wording

    var status: Status
    var owner: Option<nat>
    var closedAt: Option<int>
    var lastMessageAt: Option<int>
    var preview: string
    var messages: seq<Message>
    var now: int

    function View(): Talk
      reads this
    {
      Talk(status, owner, closedAt, lastMessageAt, preview, messages, now, wording)
    }

    constructor (now: int, wording: Wording)
      ensures View() == Fresh(now, wording) && TalkOk(View())
    {
      this.wording := wording;
      status, owner, closedAt, lastMessageAt, preview, messages := New, None, None, None, "", [];
      this.now := now;
    }

    /** A failed call leaves the conversation as it was: the transaction is rolled back. */
    method Restore(saved: Talk)
      requires saved.wording == wording
      modifies this
      ensures View() == saved
    {
      status, owner, closedAt, lastMessageAt := saved.status, saved.owner, saved.closedAt, saved.lastMessageAt;
      preview, messages, now := saved.preview, saved.messages, saved.now;
    }

    /** `refresh_support_conversation_state`. */
    method RefreshState(m: Message)
      modifies this
      ensures View() == Refresh(old(View()), m)
    {
      var text := Strip(m.text);
      if text == "" && m.attachments > 0 {
        text := wording.filesAttached;
      }
      lastMessageAt := Some(m.createdAt);
      preview := Take(text, PREVIEW_LENGTH);
      if m.fromUser {
        if status == Closed {
          owner := None;
        }
        status := if owner.None? then New else InProgress;
        closedAt := None;
      } else {
        status := InProgress;
        closedAt := None;
        if m.sender.Some? && owner.None? {
          owner := m.sender;
        }
      }
    }

    /** Appends a message and brings the cached view up to date. */
    method LogMessage(m: Message)
      modifies this
      ensures View() == Log(old(View()), m)
    {
      messages := messages + [m];
      RefreshState(m);
    }

    /** Sends to Telegram if the conversation goes there; false when the send raised. */
    method Deliver(d: Delivery) returns (sent: bool)
      ensures sent == !SendFails(View(), d)
    {
      if Channel(messages) != TelegramBot || !d.linked {
        return true;
      }
      sent := d.works;
    }

    /** `create_support_message_from_user` and `create_support_message_from_telegram`. */
    method PostUserMessage(source: Source, user: nat, text: string, attachments: nat, notified: bool)
      returns (refusal: Option<Refusal>)
      requires TalkOk(View())
      modifies this
      ensures TalkOk(View())
      ensures match UserMessage(old(View()), source, user, text, attachments, notified)
        case Err(e) => refusal == Some(e) && View() == old(View())
        case Ok(t) => refusal == None && View() == t
    {
      ghost var before := View();
      StepKeeps(before, UserStep(source, user, text, attachments, notified));
      if source == TelegramBot && Strip(text) == "" && attachments == 0 {
        return Some(EmptyMessage);
      }
      var saved := View();
      var shouldNotify := messages == [] || status == Closed;
      LogMessage(Message(true, Some(user), source, Strip(text), attachments, now));
      if shouldNotify && !notified {
        Restore(saved);
        return Some(SendFailed);
      }
      refusal := None;
    }

    /** `create_support_message_from_admin`. */
    method PostAdminMessage(admin: nat, text: string, attachments: nat, d: Delivery) returns (refusal: Option<Refusal>)
      modifies this
      ensures match AdminMessage(old(View()), admin, text, attachments, d)
        case Err(e) => refusal == Some(e) && View() == old(View())
        case Ok(t) => refusal == None && View() == t
    {
      if Strip(text) == "" && attachments == 0 {
        return Some(EmptyMessage);
      }
      var saved := View();
      LogMessage(Message(false, Some(admin), AdminPanel, Strip(text), attachments, now));
      var sent := Deliver(d);
      if !sent {
        Restore(saved);
        return Some(SendFailed);
      }
      refusal := None;
    }

    /** `assign_support_conversation_to_admin`. */
    method AssignTo(admin: nat)
      modifies this
      ensures View() == Assign(old(View()), admin)
    {
      owner := Some(admin);
      status := InProgress;
      closedAt := None;
    }

    /** `close_support_conversation`. */
    method CloseBy(closer: Option<nat>, d: Delivery) returns (refusal: Option<Refusal>)
      modifies this
      ensures match Close(old(View()), closer, d)
        case Err(e) => refusal == Some(e) && View() == old(View())
        case Ok(t) => refusal == None && View() == t
    {
      if status == Closed {
        return None;
      }
      var saved := View();
      LogMessage(Message(false, closer, AdminPanel, wording.closing, 0, now));
      var sent := Deliver(d);
      if !sent {
        Restore(saved);
        return Some(SendFailed);
      }
      status := Closed;
      closedAt := Some(now);
      refusal := None;
    }

    /** `ensure_support_conversation_admin_access`. */
    method CheckAccess(admin: nat) returns (allowed: bool)
      ensures allowed <==> owner.None? || owner == Some(admin)
    {
      if owner.None? {
        return true;
      }
      allowed := owner.value == admin;
    }

    /** `reply_to_support_conversation`: all or nothing, including the claim. */
    method ReplyBy(admin: nat, text: string, attachments: nat, assign: bool, close: bool, d: Delivery,
                   closing: Delivery)
      returns (refusal: Option<Refusal>)
      requires TalkOk(View())
      modifies this
      ensures TalkOk(View())
      ensures match Reply(old(View()), admin, text, attachments, assign, close, d, closing)
        case Err(e) => refusal == Some(e) && View() == old(View())
        case Ok(t) => refusal == None && View() == t && owner == Some(admin)
    {
      var saved := View();
      ReplyOutcome(saved, admin, text, attachments, assign, close, d, closing);
      if assign || owner.None? {
        AssignTo(admin);
      } else {
        var allowed := CheckAccess(admin);
        if !allowed {
          return Some(NotYours);
        }
      }
      refusal := PostAdminMessage(admin, text, attachments, d);
      if refusal.None? && close {
        refusal := CloseBy(Some(admin), closing);
      }
      if refusal.Some? {
        Restore(saved);
      }
    }
  }

  lemma {:induction false} ReplyOutcome(t: Talk, admin: nat, text: string, n: nat, assign: bool, close: bool,
                                        d: Delivery, closing: Delivery)
    requires TalkOk(t)
    ensures Reply(t, admin, text, n, assign, close, d, closing).Ok? ==>
      var t' := Reply(t, admin, text, n, assign, close, d, closing).value; TalkOk(t') && t'.owner == Some(admin)
  {
    if Reply(t, admin, text, n, assign, close, d, closing).Ok? {
      ReplyKeeps(t, admin, text, n, assign, close, d, closing);
    }
  }
}

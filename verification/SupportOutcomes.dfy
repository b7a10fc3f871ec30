/** What support calls come to, read off from the conversation and the arguments alone. */
module SupportOutcomes {
  import opened Wrappers
  import opened Text
  import opened Support

  // ----- Where an answer goes -----

  /** The user's latest message came from the Telegram bot. */
  ghost predicate LatestFromTelegram(messages: seq<Message>) {
    exists k | 0 <= k < |messages| ::
      messages[k].fromUser && messages[k].source == TelegramBot
      && forall j | k < j < |messages| :: !messages[j].fromUser
  }

  lemma {:induction false} LatestAfter(messages: seq<Message>, m: Message)
    ensures LatestFromTelegram(messages + [m])
      <==> if m.fromUser then m.source == TelegramBot else LatestFromTelegram(messages)
  {
    var all := messages + [m];
    assert all[|messages|] == m && forall k | 0 <= k < |messages| :: all[k] == messages[k];
    if LatestFromTelegram(messages) && !m.fromUser {
      var k :| 0 <= k < |messages| && messages[k].fromUser && messages[k].source == TelegramBot
        && forall j | k < j < |messages| :: !messages[j].fromUser;
      assert all[k] == messages[k] && forall j | k < j < |all| :: !all[j].fromUser;
    }
  }

  lemma {:induction false} ChannelFollowsLatest(messages: seq<Message>)
    ensures Channel(messages) == TelegramBot <==> LatestFromTelegram(messages)
    ensures Channel(messages) == TelegramBot || Channel(messages) == Web
  {
    if messages != [] {
      var front, m := messages[..|messages| - 1], messages[|messages| - 1];
      assert front + [m] == messages;
      ChannelFollowsLatest(front);
      LatestAfter(front, m);
    }
  }

  /** An answer is lost exactly if it goes to a linked Telegram account that cannot be reached. */
  ghost predicate Undelivered(messages: seq<Message>, d: Delivery) {
    LatestFromTelegram(messages) && d.linked && !d.works
  }

  /** Answers do not change where answers go. */
  lemma {:induction false} AnswersKeepChannel(messages: seq<Message>, m: Message)
    requires !m.fromUser
    ensures LatestFromTelegram(messages + [m]) <==> LatestFromTelegram(messages)
  {
    LatestAfter(messages, m);
  }

  // ----- Messages -----

  /** The message is the last one now, and the cached view shows its text, cut to 255 characters, or the notice for
      attachments alone. */
  ghost predicate Appended(t: Talk, t': Talk, m: Message) {
    && t'.messages == t.messages + [m] && t'.lastMessageAt == Some(m.createdAt)
    && t'.now == t.now && t'.wording == t.wording
    && var shown := if Strip(m.text) == "" && m.attachments > 0 then t.wording.filesAttached else Strip(m.text);
       t'.preview == if |shown| <= 255 then shown else shown[..255]
  }

  /** A user's message is refused if it comes from Telegram with nothing in it, or if the team had to be notified of a
      new or reopened conversation and was not. Otherwise it is appended with its text trimmed; a closed conversation
      is reopened without an owner, and a conversation has an owner exactly while it is in progress. */
  lemma {:induction false} UserMessageFollows(t: Talk, source: Source, user: nat, text: string, n: nat, notified: bool)
    ensures var r := UserMessage(t, source, user, text, n, notified);
      var empty := source == TelegramBot && Strip(text) == "" && n == 0;
      var opens := t.messages == [] || t.status == Closed;
      && (r == Err(EmptyMessage) <==> empty) && (r == Err(SendFailed) <==> !empty && opens && !notified)
      && r != Err(NotYours)
      && (r.Ok? ==>
            var t' := r.value;
            && Appended(t, t', Message(true, Some(user), source, Strip(text), n, t.now))
            && t'.owner == (if t.status == Closed then None else t.owner)
            && t'.status == (if t'.owner.Some? then InProgress else New) && t'.closedAt.None?)
  {
  }

  /** An answer is refused if there is nothing in it or it cannot be delivered. Otherwise it is appended with its text
      trimmed, and an ownerless conversation becomes its author's. */
  lemma {:induction false} AdminMessageFollows(t: Talk, admin: nat, text: string, n: nat, d: Delivery)
    ensures var r := AdminMessage(t, admin, text, n, d); var empty := Strip(text) == "" && n == 0;
      && (r == Err(EmptyMessage) <==> empty) && (r == Err(SendFailed) <==> !empty && Undelivered(t.messages, d))
      && r != Err(NotYours)
      && (r.Ok? ==>
            var t' := r.value;
            && Appended(t, t', Message(false, Some(admin), AdminPanel, Strip(text), n, t.now))
            && t'.owner == (if t.owner.Some? then t.owner else Some(admin))
            && t'.status == InProgress && t'.closedAt.None?)
  {
    var m := Message(false, Some(admin), AdminPanel, Strip(text), n, t.now);
    AnswersKeepChannel(t.messages, m);
    ChannelFollowsLatest(t.messages + [m]);
    StripIdempotent(text);
  }

  /** Closing a closed conversation does nothing. Otherwise the closing notice is sent as a message, and if it cannot be
      delivered the conversation stays open. */
  lemma {:induction false} CloseFollows(t: Talk, closer: Option<nat>, d: Delivery)
    ensures var r := Close(t, closer, d);
      if t.status == Closed then r == Ok(t)
      else
        && (r.Err? <==> Undelivered(t.messages, d)) && (r.Err? ==> r.error == SendFailed)
        && (r.Ok? ==>
              var t' := r.value;
              && Appended(t, t', Message(false, closer, AdminPanel, t.wording.closing, 0, t.now))
              && t'.owner == (if t.owner.Some? then t.owner else closer)
              && t'.status == Closed && t'.closedAt == Some(t.now))
  {
    var m := Message(false, closer, AdminPanel, t.wording.closing, 0, t.now);
    AnswersKeepChannel(t.messages, m);
    ChannelFollowsLatest(t.messages + [m]);
  }

  /** The conversation a reply answers: taken over, or already the author's. */
  ghost predicate Claimed(t: Talk, t1: Talk, admin: nat) {
    t1.owner == Some(admin) && t1.messages == t.messages && t1.now == t.now && t1.wording == t.wording
  }

  lemma {:induction false} ReplyClaims(t: Talk, admin: nat, text: string, n: nat, assign: bool, close: bool,
                                       d: Delivery, closing: Delivery) returns (t1: Talk)
    requires assign || t.owner.None? || t.owner.value == admin
    ensures Claimed(t, t1, admin)
    ensures Reply(t, admin, text, n, assign, close, d, closing) ==
      match AdminMessage(t1, admin, text, n, d)
      case Err(refusal) => Err(refusal)
      case Ok(t2) => if close then Close(t2, Some(admin), closing) else Ok(t2)
  {
    t1 := if assign || t.owner.None? then Assign(t, admin) else t;
  }

  /** A reply is refused to anybody but the owner, unless the conversation has none or is taken over; otherwise it is
      refused as its message or its closing notice would be. */
  lemma {:induction false} ReplyRefusedFor(t: Talk, admin: nat, text: string, n: nat, assign: bool, close: bool,
                                           d: Delivery, closing: Delivery)
    ensures var r := Reply(t, admin, text, n, assign, close, d, closing);
      var foreign := !assign && t.owner.Some? && t.owner.value != admin;
      var empty := Strip(text) == "" && n == 0;
      && (r == Err(NotYours) <==> foreign) && (r == Err(EmptyMessage) <==> !foreign && empty)
      && (r == Err(SendFailed) <==>
            !foreign && !empty && (Undelivered(t.messages, d) || (close && Undelivered(t.messages, closing))))
  {
    if assign || t.owner.None? || t.owner.value == admin {
      var t1 := ReplyClaims(t, admin, text, n, assign, close, d, closing);
      AdminMessageFollows(t1, admin, text, n, d);
      var r := AdminMessage(t1, admin, text, n, d);
      if r.Ok? && close {
        AnswersKeepChannel(t.messages, Message(false, Some(admin), AdminPanel, Strip(text), n, t.now));
        CloseFollows(r.value, Some(admin), closing);
      }
    }
  }

  /** An accepted reply leaves its author in charge and appends the answer. */
  lemma {:induction false} ReplyAnswers(t: Talk, admin: nat, text: string, n: nat, assign: bool, d: Delivery,
                                        closing: Delivery)
    requires Reply(t, admin, text, n, assign, false, d, closing).Ok?
    ensures var t' := Reply(t, admin, text, n, assign, false, d, closing).value;
      && Appended(t, t', Message(false, Some(admin), AdminPanel, Strip(text), n, t.now))
      && t'.owner == Some(admin) && t'.status == InProgress && t'.closedAt.None?
  {
    ReplyRefusedFor(t, admin, text, n, assign, false, d, closing);
    var t1 := ReplyClaims(t, admin, text, n, assign, false, d, closing);
    AdminMessageFollows(t1, admin, text, n, d);
  }

  /** A reply that closes appends the closing notice after the answer. */
  lemma {:induction false} ReplyCloses(t: Talk, admin: nat, text: string, n: nat, assign: bool, d: Delivery,
                                       closing: Delivery)
    requires Reply(t, admin, text, n, assign, true, d, closing).Ok?
    ensures var t' := Reply(t, admin, text, n, assign, true, d, closing).value;
      var answer := Message(false, Some(admin), AdminPanel, Strip(text), n, t.now);
      var notice := Message(false, Some(admin), AdminPanel, t.wording.closing, 0, t.now);
      && t'.messages == t.messages + [answer] + [notice] && t'.lastMessageAt == Some(t.now)
      && t'.owner == Some(admin) && t'.status == Closed && t'.closedAt == Some(t.now)
  {
    ReplyRefusedFor(t, admin, text, n, assign, true, d, closing);
    var t1 := ReplyClaims(t, admin, text, n, assign, true, d, closing);
    AdminMessageFollows(t1, admin, text, n, d);
    CloseFollows(AdminMessage(t1, admin, text, n, d).value, Some(admin), closing);
  }

  // ----- Steps of a run -----

  function Settled(t: Talk, r: Result<Talk, Refusal>): Talk {
    if r.Ok? then r.value else t
  }

  /** A step of a run makes its call: what a refused call leaves is what was there. */
  lemma {:induction false} StepsFollow(t: Talk, step: Step)
    ensures match step
      case UserStep(source, user, text, n, notified) =>
        Apply(t, step) == Settled(t, UserMessage(t, source, user, text, n, notified))
      case AdminStep(admin, text, n, d) => Apply(t, step) == Settled(t, AdminMessage(t, admin, text, n, d))
      case AssignStep(admin) => Apply(t, step) == t.(owner := Some(admin), status := InProgress, closedAt := None)
      case CloseStep(closer, d) => Apply(t, step) == Settled(t, Close(t, closer, d))
      case ReplyStep(admin, text, n, assign, close, d, closing) =>
        Apply(t, step) == Settled(t, Reply(t, admin, text, n, assign, close, d, closing))
      case WaitStep(elapsed) => Apply(t, step) == t.(now := t.now + elapsed)
  {
  }
}

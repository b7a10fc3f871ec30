/** The support conversation: status, owner, closing time and a cached view of the last message. */
module Support {
  import opened Wrappers
  import opened Text

  datatype Status = New | InProgress | Closed

  datatype Source = Web | TelegramBot | AdminPanel

  datatype Message = Message(fromUser: bool, sender: Option<nat>, source: Source, text: string, attachments: nat,
    createdAt: int)

  const PREVIEW_LENGTH: nat := 255

  /** The two sentences the service writes itself. */
  datatype Wording = Wording(filesAttached: string, closing: string)

  function ShippedWording(): Wording {
    Wording("Прикреплены файлы", "Диалог закрыт. Если появятся новые вопросы, вы можете открыть его новым сообщением.")
  }

  function Preview(wording: Wording, m: Message): string {
    Take(if Strip(m.text) == "" && m.attachments > 0 then wording.filesAttached else Strip(m.text), PREVIEW_LENGTH)
  }

  datatype Talk = Talk(
    status: Status,
    owner: Option<nat>,
    closedAt: Option<int>,
    lastMessageAt: Option<int>,
    preview: string,
    messages: seq<Message>,
    now: int,
    wording: Wording)

  function Fresh(now: int, wording: Wording): Talk {
    Talk(New, None, None, None, "", [], now, wording)
  }

  // ----- Building blocks -----

  /** `refresh_support_conversation_state` for a message that has just been logged. */
  function Refresh(t: Talk, m: Message): Talk {
    var t1 := t.(lastMessageAt := Some(m.createdAt), preview := Preview(t.wording, m), closedAt := None);
    if m.fromUser then
      var kept := if t.status == Closed then None else t.owner;
      t1.(owner := kept, status := if kept.None? then New else InProgress)
    else
      t1.(status := InProgress, owner := if t.owner.None? then m.sender else t.owner)
  }

  function Log(t: Talk, m: Message): Talk {
    Refresh(t.(messages := t.messages + [m]), m)
  }

  /** The channel of the user's latest message; the web when there is none. */
  function Channel(messages: seq<Message>): Source {
    if messages == [] then Web
    else
      var m := messages[|messages| - 1];
      if m.fromUser then (if m.source == TelegramBot then TelegramBot else Web)
      else Channel(messages[..|messages| - 1])
  }

  /** How the outside answers: is a Telegram account linked, does a send go through. */
  datatype Delivery = Delivery(linked: bool, works: bool)

  /** A send that raises undoes the whole call. */
  predicate SendFails(t: Talk, d: Delivery) {
    Channel(t.messages) == TelegramBot && d.linked && !d.works
  }

  datatype Refusal = EmptyMessage | NotYours | SendFailed

  // ----- Calls -----

  function UserMessage(t: Talk, source: Source, user: nat, text: string, attachments: nat, notified: bool)
    : Result<Talk, Refusal>
  {
    if source == TelegramBot && Strip(text) == "" && attachments == 0 then Err(EmptyMessage)
    else if (t.messages == [] || t.status == Closed) && !notified then Err(SendFailed)
    else Ok(Log(t, Message(true, Some(user), source, Strip(text), attachments, t.now)))
  }

  function AdminMessage(t: Talk, admin: nat, text: string, attachments: nat, d: Delivery): Result<Talk, Refusal> {
    if Strip(text) == "" && attachments == 0 then Err(EmptyMessage)
    else
      var t1 := Log(t, Message(false, Some(admin), AdminPanel, Strip(text), attachments, t.now));
      if SendFails(t1, d) then Err(SendFailed) else Ok(t1)
  }

  function Assign(t: Talk, admin: nat): Talk {
    t.(owner := Some(admin), status := InProgress, closedAt := None)
  }

  function Close(t: Talk, closer: Option<nat>, d: Delivery): Result<Talk, Refusal> {
    if t.status == Closed then Ok(t)
    else
      var t1 := Log(t, Message(false, closer, AdminPanel, t.wording.closing, 0, t.now));
      if SendFails(t1, d) then Err(SendFailed)
      else Ok(t1.(status := Closed, closedAt := Some(t.now)))
  }

  /** `reply_to_support_conversation`: claim or check ownership, answer, perhaps close; all or nothing. */
  function Reply(t: Talk, admin: nat, text: string, attachments: nat, assign: bool, close: bool, d: Delivery,
                 closing: Delivery)
    : Result<Talk, Refusal>
  {
    if !assign && t.owner.Some? && t.owner != Some(admin) then Err(NotYours)
    else
      var t1 := if assign || t.owner.None? then Assign(t, admin) else t;
      match AdminMessage(t1, admin, text, attachments, d)
      case Err(refusal) => Err(refusal)
      case Ok(t2) => if close then Close(t2, Some(admin), closing) else Ok(t2)
  }

  // ----- Runs -----

  datatype Step =
    | UserStep(source: Source, user: nat, text: string, attachments: nat, notified: bool)
    | AdminStep(admin: nat, text: string, attachments: nat, delivery: Delivery)
    | AssignStep(admin: nat)
    | CloseStep(closer: Option<nat>, delivery: Delivery)
    | ReplyStep(admin: nat, text: string, attachments: nat, assign: bool, close: bool, delivery: Delivery,
      closing: Delivery)
    | WaitStep(elapsed: nat)

  function Attempt(t: Talk, step: Step): Result<Talk, Refusal> {
    match step
    case UserStep(source, user, text, n, notified) => UserMessage(t, source, user, text, n, notified)
    case AdminStep(admin, text, n, d) => AdminMessage(t, admin, text, n, d)
    case AssignStep(admin) => Ok(Assign(t, admin))
    case CloseStep(closer, d) => Close(t, closer, d)
    case ReplyStep(admin, text, n, assign, close, d, closing) => Reply(t, admin, text, n, assign, close, d, closing)
    case WaitStep(elapsed) => Ok(t.(now := t.now + elapsed))
  }

  /** A refused call changes nothing. */
  function Apply(t: Talk, step: Step): Talk {
    match Attempt(t, step)
    case Ok(t') => t'
    case Err(_) => t
  }

  /** The conversation after the first `n` steps. */
  function After(t: Talk, steps: seq<Step>, n: nat): Talk
    requires n <= |steps|
  {
    if n == 0 then t else Apply(After(t, steps, n - 1), steps[n - 1])
  }

  // ----- The invariant -----

  ghost predicate CachesLast(t: Talk) {
    if t.messages == [] then t.lastMessageAt.None? && t.preview == ""
    else
      var last := t.messages[|t.messages| - 1];
      && t.lastMessageAt == Some(last.createdAt) && t.preview == Preview(t.wording, last)
      && forall k | 0 <= k < |t.messages| :: t.messages[k].createdAt <= last.createdAt <= t.now
  }

  ghost predicate TalkOk(t: Talk) {
    && (t.status == Closed <==> t.closedAt.Some?)
    && (t.status == New ==> t.owner.None?)
    && (t.status == InProgress ==> t.owner.Some?)
    && CachesLast(t)
  }

  lemma {:induction false} LogCaches(t: Talk, m: Message)
    requires CachesLast(t) && m.createdAt == t.now
    ensures CachesLast(Log(t, m)) && Log(t, m).messages == t.messages + [m]
  {
  }

  lemma {:induction false} AdminMessageKeeps(t: Talk, admin: nat, text: string, n: nat, d: Delivery)
    requires CachesLast(t) && AdminMessage(t, admin, text, n, d).Ok?
    ensures var t' := AdminMessage(t, admin, text, n, d).value;
      && TalkOk(t') && t'.now == t.now && t'.status == InProgress
      && t'.owner == (if t.owner.Some? then t.owner else Some(admin))
  {
    LogCaches(t, Message(false, Some(admin), AdminPanel, Strip(text), n, t.now));
  }

  lemma {:induction false} CloseKeeps(t: Talk, closer: Option<nat>, d: Delivery)
    requires TalkOk(t) && Close(t, closer, d).Ok?
    ensures var t' := Close(t, closer, d).value;
      TalkOk(t') && t'.status == Closed && t'.now == t.now && (t.owner.Some? ==> t'.owner == t.owner)
  {
    LogCaches(t, Message(false, closer, AdminPanel, t.wording.closing, 0, t.now));
  }

  lemma {:induction false} ReplyKeeps(t: Talk, admin: nat, text: string, n: nat, assign: bool, close: bool,
                                      d: Delivery, closing: Delivery)
    requires TalkOk(t) && Reply(t, admin, text, n, assign, close, d, closing).Ok?
    ensures var t' := Reply(t, admin, text, n, assign, close, d, closing).value;
      TalkOk(t') && t'.owner == Some(admin) && t'.status == (if close then Closed else InProgress)
  {
    var t1 := if assign || t.owner.None? then Assign(t, admin) else t;
    AdminMessageKeeps(t1, admin, text, n, d);
    if close {
      CloseKeeps(AdminMessage(t1, admin, text, n, d).value, Some(admin), closing);
    }
  }

  lemma {:induction false} StepKeeps(t: Talk, step: Step)
    requires TalkOk(t)
    ensures TalkOk(Apply(t, step))
  {
    if Attempt(t, step).Ok? {
      match step {
        case UserStep(source, user, text, n, notified) =>
          LogCaches(t, Message(true, Some(user), source, Strip(text), n, t.now));
        case AdminStep(admin, text, n, d) => AdminMessageKeeps(t, admin, text, n, d);
        case AssignStep(admin) =>
        case CloseStep(closer, d) => CloseKeeps(t, closer, d);
        case ReplyStep(admin, text, n, assign, close, d, closing) => ReplyKeeps(t, admin, text, n, assign, close, d,
          closing);
        case WaitStep(elapsed) =>
      }
    }
  }

  /** After every run from a fresh conversation: closed exactly when a closing time is set, nobody owns
      a new one, somebody owns one in progress, and the cached view is that of the latest message. */
  lemma {:induction false} ConversationInvariant(start: int, wording: Wording, steps: seq<Step>, n: nat)
    requires n <= |steps|
    ensures TalkOk(After(Fresh(start, wording), steps, n))
  {
    if n > 0 {
      ConversationInvariant(start, wording, steps, n - 1);
      StepKeeps(After(Fresh(start, wording), steps, n - 1), steps[n - 1]);
    }
  }

  // ----- Ownership epochs -----

  /** Step `i` is a reply by `admin` that was accepted. */
  predicate AcceptedReply(t: Talk, steps: seq<Step>, i: nat, admin: nat)
    requires i < |steps|
  {
    steps[i].ReplyStep? && steps[i].admin == admin && Attempt(After(t, steps, i), steps[i]).Ok?
  }

  predicate ExplicitAssignment(step: Step) {
    step.AssignStep? || (step.ReplyStep? && step.assign)
  }

  /** Step `k` leaves the conversation closed by closing it. */
  predicate Closing(t: Talk, steps: seq<Step>, k: nat)
    requires k < |steps|
  {
    (steps[k].CloseStep? || (steps[k].ReplyStep? && steps[k].close)) && After(t, steps, k + 1).status == Closed
  }

  /** Step `m` is a user message that reopens a closed conversation. */
  predicate Reopening(t: Talk, steps: seq<Step>, m: nat)
    requires m < |steps|
  {
    steps[m].UserStep? && After(t, steps, m).status == Closed && After(t, steps, m + 1).status != Closed
  }

  /** A close and, after it, a reopening user message lie between the two positions. */
  ghost predicate NewEpoch(t: Talk, steps: seq<Step>, i: nat, j: nat)
    requires i <= j <= |steps|
  {
    exists k, m | i <= k < m < j :: Closing(t, steps, k) && Reopening(t, steps, m)
  }

  /** Since the reply at `i`, either a new epoch began or the same admin still owns the
      conversation, and if it is closed then something closed it. */
  ghost predicate SameOwner(t: Talk, steps: seq<Step>, i: nat, n: nat, admin: nat)
    requires i < n <= |steps|
  {
    && After(t, steps, n).owner == Some(admin)
    && (After(t, steps, n).status == Closed ==> exists k | i <= k < n :: Closing(t, steps, k))
  }

  lemma {:induction false} OwnerStep(t: Talk, step: Step, admin: nat)
    requires TalkOk(t) && t.owner == Some(admin) && !ExplicitAssignment(step)
    ensures var t' := Apply(t, step);
      && (t'.owner != Some(admin) ==> step.UserStep? && t.status == Closed && t'.status != Closed)
      && (t'.status == Closed && t.status != Closed ==> step.CloseStep? || (step.ReplyStep? && step.close))
  {
    if Attempt(t, step).Ok? {
      match step {
        case UserStep(source, user, text, n, notified) =>
        case AdminStep(other, text, n, d) => AdminMessageKeeps(t, other, text, n, d);
        case CloseStep(closer, d) => CloseKeeps(t, closer, d);
        case ReplyStep(other, text, n, assign, close, d, closing) => ReplyKeeps(t, other, text, n, assign, close, d,
          closing);
        case WaitStep(elapsed) =>
      }
    }
  }

  lemma {:induction false} OwnerAfterReply(start: int, wording: Wording, steps: seq<Step>, i: nat, admin: nat)
    requires i < |steps| && AcceptedReply(Fresh(start, wording), steps, i, admin)
    ensures SameOwner(Fresh(start, wording), steps, i, i + 1, admin)
  {
    var t, step := Fresh(start, wording), steps[i];
    var before := After(t, steps, i);
    ConversationInvariant(start, wording, steps, i);
    ReplyKeeps(before, step.admin, step.text, step.attachments, step.assign, step.close, step.delivery, step.closing);
    if After(t, steps, i + 1).status == Closed {
      assert Closing(t, steps, i);
    }
  }

  lemma {:induction false} OwnerNext(start: int, wording: Wording, steps: seq<Step>, i: nat, n: nat, admin: nat)
    requires i < n < |steps| && SameOwner(Fresh(start, wording), steps, i, n, admin) && !ExplicitAssignment(steps[n])
    ensures SameOwner(Fresh(start, wording), steps, i, n + 1, admin) || NewEpoch(Fresh(start, wording), steps, i, n + 1)
  {
    var t := Fresh(start, wording);
    var before, after := After(t, steps, n), After(t, steps, n + 1);
    ConversationInvariant(start, wording, steps, n);
    OwnerStep(before, steps[n], admin);
    if after.owner != Some(admin) {
      var k :| i <= k < n && Closing(t, steps, k);
      assert Reopening(t, steps, n);
    } else if after.status == Closed && before.status != Closed {
      assert Closing(t, steps, n);
    }
  }

  lemma {:induction false} EpochLasts(t: Talk, steps: seq<Step>, i: nat, j: nat, n: nat)
    requires i <= j <= n <= |steps| && NewEpoch(t, steps, i, j)
    ensures NewEpoch(t, steps, i, n)
  {
  }

  ghost predicate OwnedOrEpoch(t: Talk, steps: seq<Step>, i: nat, n: nat, admin: nat)
    requires i < n <= |steps|
  {
    SameOwner(t, steps, i, n, admin) || NewEpoch(t, steps, i, n)
  }

  lemma {:induction false} OwnedOrEpochNext(start: int, wording: Wording, steps: seq<Step>, i: nat, n: nat, admin: nat)
    requires i < n < |steps| && OwnedOrEpoch(Fresh(start, wording), steps, i, n, admin) && !ExplicitAssignment(steps[n])
    ensures OwnedOrEpoch(Fresh(start, wording), steps, i, n + 1, admin)
  {
    if NewEpoch(Fresh(start, wording), steps, i, n) {
      EpochLasts(Fresh(start, wording), steps, i, n, n + 1);
    } else {
      OwnerNext(start, wording, steps, i, n, admin);
    }
  }

  lemma {:induction false} OwnerOrEpoch(start: int, wording: Wording, steps: seq<Step>, i: nat, n: nat, admin: nat)
    requires i < n <= |steps| && AcceptedReply(Fresh(start, wording), steps, i, admin)
    requires forall k | i < k < n :: !ExplicitAssignment(steps[k])
    ensures OwnedOrEpoch(Fresh(start, wording), steps, i, n, admin)
  {
    if n == i + 1 {
      OwnerAfterReply(start, wording, steps, i, admin);
    } else {
      OwnerOrEpoch(start, wording, steps, i, n - 1, admin);
      OwnedOrEpochNext(start, wording, steps, i, n - 1, admin);
    }
  }

  /** Ownership epochs: without explicit assignment, accepted replies by two different admins are
      always separated by a close and then a user message that reopens the conversation. */
  lemma {:induction false} RepliesOfTwoAdmins(start: int, wording: Wording, steps: seq<Step>, i: nat, j: nat, a: nat,
                                              b: nat)
    requires i < j < |steps| && a != b
    requires AcceptedReply(Fresh(start, wording), steps, i, a) && AcceptedReply(Fresh(start, wording), steps, j, b)
    requires forall k | i < k <= j :: !ExplicitAssignment(steps[k])
    ensures exists k, m | i <= k < m < j ::
      Closing(Fresh(start, wording), steps, k) && Reopening(Fresh(start, wording), steps, m)
  {
    OwnerOrEpoch(start, wording, steps, i, j, a);
    assert !SameOwner(Fresh(start, wording), steps, i, j, a);
  }
}

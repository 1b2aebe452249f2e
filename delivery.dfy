/** The outside world the engine talks to, reduced to what it observes: the
    chat (every operation the bot performs on it, in order) and the job
    scheduler (every one-shot job it arms). Rendering a message
    (`build_message`) is not part of this model: a message is its status
    header and the stored template it is rendered from. */
module Delivery {

  import opened Common

  /** The header a rendered event message carries. */
  datatype EventStatus = ANNOUNCED | SOON | STARTED | CONFIRMED

  datatype Label =
    | NotifyLabel             // "🔔 Уведомить"
    | ConfirmLabel            // "✅ Подтвердить"
    | IntervalLabel(minutes: int)   // "⏱ {m} мин", or "⏱ В момент события" for 0

  /** An inline button and the callback data it sends back when pressed. */
  datatype Button = Button(caption: Label, data: string)

  /** The reply controls under a message: none, or one button per row. */
  datatype Markup = NoMarkup | Keyboard(buttons: seq<Button>)

  const NOTIFY_ACTION: string := "notify"
  const CONFIRM_ACTION: string := "confirm"
  const NOTIFY_SET_ACTION: string := "notify_set"

  /** Callback data of the "notify" button: `notify:{hash}`. */
  function NotifyData(eventId: string): string {
    NOTIFY_ACTION + ":" + eventId
  }

  /** Callback data of the "confirm" button: `confirm:{hash}`. */
  function ConfirmData(eventId: string): string {
    CONFIRM_ACTION + ":" + eventId
  }

  /** The two default controls of an event message. */
  function ActionKeyboard(eventId: string): Markup {
    Keyboard([Button(NotifyLabel, NotifyData(eventId)), Button(ConfirmLabel, ConfirmData(eventId))])
  }

  /** One operation of the bot on the chat. */
  datatype Outbound =
    | Notification(eventId: string, status: EventStatus, template: string, markup: Markup)
    | PlainMessage(text: string)
    | EditText(messageId: Option<int>, status: EventStatus, template: string)
    | EditMarkup(messageId: Option<int>, markup: Markup)
    | Answer(alert: Option<string>)

  /** A one-shot job armed on the scheduler. */
  datatype Job =
    | AutoStart(eventId: string, runAt: Time)
    | RestoreButtons(eventId: string, messageId: int, runAt: Time)

  /** Whether a platform with this many operations left accepts one more
      (None: it never fails). */
  predicate Accepts(quota: Option<nat>) {
    quota.None? || quota.value > 0
  }

  /** Whether it accepts `n` more. */
  predicate Fits(quota: Option<nat>, n: nat) {
    quota.None? || n <= quota.value
  }

  /** What is left of the quota after `n` accepted operations. */
  function Spend(quota: Option<nat>, n: nat): (q: Option<nat>)
    requires Fits(quota, n)
    ensures q.None? <==> quota.None?
    ensures Fits(q, 1) <==> Fits(quota, n + 1)
  {
    match quota
    case None => None
    case Some(k) => Some(k - n)
  }

  /** Spending in two rounds is spending the sum. */
  lemma SpendTwice(quota: Option<nat>, m: nat, n: nat)
    requires Fits(quota, m) && Fits(Spend(quota, m), n)
    ensures Fits(quota, m + n) && Spend(Spend(quota, m), n) == Spend(quota, m + n)
  {
  }

  /** How many of `n` operations in a row a platform with this quota
      performs before the first one it refuses. */
  function Accepted(quota: Option<nat>, n: nat): (k: nat)
    ensures k <= n
    ensures k == n <==> Fits(quota, n)
    ensures Fits(quota, k)
    ensures k < n ==> !Fits(quota, k + 1)
  {
    if Fits(quota, n) then n else quota.value
  }

  /** The chat: the operations it has accepted, in order, and how many more
      it will accept before one fails with a delivery error. A message's id
      is the position at which the chat accepted it. */
  class Chat {
    var log: seq<Outbound>
    var quota: Option<nat>

    constructor (quota: Option<nat>)
      ensures log == [] && this.quota == quota
    {
      log := [];
      this.quota := quota;
    }

    /** Performs one operation, or raises a delivery error. */
    method Deliver(op: Outbound) returns (ok: bool, messageId: int)
      modifies this
      ensures ok == Accepts(old(quota))
      ensures ok ==> log == old(log) + [op] && quota == Spend(old(quota), 1)
      ensures ok ==> messageId == |old(log)|
      ensures !ok ==> log == old(log) && quota == old(quota)
    {
      messageId := |log|;
      ok := Accepts(quota);
      if ok {
        log := log + [op];
        quota := Spend(quota, 1);
      }
    }
  }

  /** The job scheduler: every job armed so far. */
  class Scheduler {
    var jobs: seq<Job>

    constructor ()
      ensures jobs == []
    {
      jobs := [];
    }

    method AddJob(job: Job)
      modifies this
      ensures jobs == old(jobs) + [job]
    {
      jobs := jobs + [job];
    }
  }
}

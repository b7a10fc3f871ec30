/** The payment services as methods on the payment and history tables. */
module PaymentDesk {
  import opened Wrappers
  import opened Tables
  import opened Billing
  import Backend
  import Services

  class Desk {
    const db: Backend.Database

    var payments: seq<Payment>
    var history: seq<Event>

    function View(): Ledger
      reads this, db
    {
      Ledger(db.View(), payments, history)
    }

    constructor (db: Backend.Database, payments: seq<Payment>, history: seq<Event>)
      ensures this.db == db && this.payments == payments && this.history == history
    {
      this.db := db;
      this.payments := payments;
      this.history := history;
    }

    /** `mark_subscription_payment_paid`: nothing happens twice, and nothing at all for an unknown plan. */
    method MarkPaid(p: nat) returns (accepted: bool)
      requires Sound(View()) && p < |payments|
      modifies this, db
      ensures match Billing.MarkPaid(db.world, old(View()), p)
        case None => !accepted && View() == old(View())
        case Some(l) => accepted && View() == l
    {
      var x := payments[p];
      if x.status == Paid {
        return true;
      }
      x := x.(status := Paid);
      x := x.(providerStatus := Confirmed);
      x := x.(paidAt := Some(db.now));
      accepted := db.ActivatePlan(x.user, x.planCode);
      if accepted {
        payments := payments[p := x];
        LogPaidEvent(p);
      }
    }

    /** The history event of a payment just marked paid. */
    method LogPaidEvent(p: nat)
      requires p < |payments|
      modifies this`history
      ensures history == old(history) + [PaidEvent(old(View()), p, db.CatalogView())]
    {
      var x := payments[p];
      var renewed := PaidBefore(history, x.user, p);
      var k := Services.SubscriptionOf(db.subscriptions, x.user);
      var startsAt, endsAt := 0, 0;
      if k < |db.subscriptions| {
        startsAt, endsAt := db.subscriptions[k].startsAt, db.subscriptions[k].endsAt;
      }
      var kind := if renewed then Renewed else Activated;
      history := history + [Event(x.user, Some(p), kind, x.planCode, startsAt, endsAt)];
    }

    /** `mark_subscription_payment_canceled`. */
    method MarkCanceled(p: nat)
      requires p < |payments|
      modifies this`payments
      ensures View() == Billing.MarkCanceled(old(View()), p)
    {
      var x := payments[p];
      x := x.(status := Canceled);
      if x.providerStatus == Unset {
        x := x.(providerStatus := ProviderCanceled);
      }
      payments := payments[p := x];
    }

    /** `mark_subscription_payment_failed`. */
    method MarkFailed(p: nat)
      requires p < |payments|
      modifies this`payments
      ensures View() == Billing.MarkFailed(old(View()), p)
    {
      payments := payments[p := payments[p].(status := PaymentFailed)];
    }

    /** `confirm_subscription_payment_from_platega`: a refused callback leaves no trace, not even the
        provider status that was stored before the refusal. */
    method ConfirmPayment(callback: Callback) returns (reply: Result<(), CallbackError>)
      requires Sound(View())
      modifies this, db
      ensures match Confirm(db.world, old(View()), callback)
        case Err(error) => reply == Err(error) && View() == old(View())
        case Ok(l) => reply == Ok(()) && View() == l
    {
      if callback.id == "" {
        return Err(EmptyId);
      }
      var p := FindPayment(payments, callback.id);
      if p == |payments| {
        return Err(UnknownPayment);
      }
      if callback.payload.Some? {
        var mismatch := CheckPayload(callback.payload.value, p, payments[p]);
        if mismatch.Some? {
          return Err(mismatch.value);
        }
      }
      var saved := payments;
      payments := payments[p := payments[p].(providerStatus := callback.status)];
      if callback.status == Confirmed {
        var accepted := MarkPaid(p);
        if !accepted {
          payments := saved;
          return Err(UnknownPlan);
        }
      } else if (callback.status == ProviderCanceled || callback.status == Chargebacked)
        && payments[p].status == Awaiting {
        MarkCanceled(p);
      }
      reply := Ok(());
    }

    /** The operator's status endpoint. */
    method OverrideStatus(p: nat, status: PaymentStatus)
      requires Sound(View()) && p < |payments|
      modifies this, db
      ensures View() == Override(db.world, old(View()), p, status)
    {
      match status {
        case Paid => var accepted := MarkPaid(p);
        case Canceled => MarkCanceled(p);
        case Awaiting => MarkFailed(p);
        case PaymentFailed => MarkFailed(p);
      }
    }

    /** `create_subscription_checkout`: the row is stored before the provider is asked. */
    method CreateCheckout(user: nat, code: string, reply: ProviderReply)
      modifies this`payments
      ensures View() == Checkout(old(View()), user, code, reply)
    {
      if HasOpenCheckout(payments, user, code) || Services.FindPlan(code).None? {
        return;
      }
      var p := |payments|;
      payments := payments + [Payment(user, code, Awaiting, None, "", Unset, None)];
      match reply {
        case NotConfigured =>
        case ProviderError =>
          MarkFailed(p);
        case Created(id, url, status) =>
          if FindPayment(payments[..p], id) == p {
            var x := payments[p];
            x := x.(externalId := Some(id));
            x := x.(checkoutUrl := url);
            x := x.(providerStatus := status);
            payments := payments[p := x];
          }
      }
    }
  }
}

/**
 * The payment service's in-memory table, its handlers (create, get by id,
 * list by order, cancel) and the service's own `apiStats` counters, which
 * each handler updates itself: a success path counts a request, a success
 * and its response time; a failure path counts only a failure.
 */
module PaymentService {
  import opened Common
  import opened Stats

  datatype Payment = Payment(
    id: string,
    orderId: string,
    amount: real,
    currency: string,
    paymentMethod: string,
    status: string,
    createdAt: int,
    processedAt: Option<int>)

  const MissingFields: string := "Brak wymaganych pól"
  const PaymentNotFound: string := "Nie znaleziono płatności"
  const CannotCancelCompleted: string := "Nie można anulować zakończonej płatności"

  /** The create handler's check that every required body field is truthy; an amount of 0 fails it. */
  predicate HasRequiredFields(orderId: Option<string>, amount: Option<real>, currency: Option<string>,
                              paymentMethod: Option<string>) {
    Truthy(orderId) && TruthyReal(amount) && Truthy(currency) && Truthy(paymentMethod)
  }

  class Payments {
    var payments: seq<Payment>
    const stats: ApiStats

    /**
      * Only success paths count requests, so the request count equals the
      * success count and the mean is over successful requests alone.
      */
    ghost predicate Valid()
      reads this, stats
    {
      stats.Valid() && stats.totalRequests == stats.successfulRequests
    }

    constructor ()
      ensures Valid() && fresh(stats) && payments == []
      ensures stats.totalRequests == 0 && stats.successfulRequests == 0
      ensures stats.failedRequests == 0 && stats.averageResponseTime == 0.0
    {
      payments := [];
      stats := new ApiStats();
    }

    /** `payments.findIndex(p => p.id === id)`. */
    function IndexOf(id: string): (r: Option<nat>)
      reads this
      ensures r.Some? ==> r.value < |payments| && payments[r.value].id == id
      ensures r.Some? ==> forall j :: 0 <= j < r.value ==> payments[j].id != id
      ensures r.None? <==> forall j :: 0 <= j < |payments| ==> payments[j].id != id
    {
      FindIndex(payments, (p: Payment) => p.id == id)
    }

    /** The payments of one order, in table order. */
    function OfOrder(orderId: string): (r: seq<Payment>)
      reads this
      ensures IsSubsequence(r, payments)
      ensures forall i :: 0 <= i < |r| ==> r[i].orderId == orderId
      ensures forall i :: 0 <= i < |payments| && payments[i].orderId == orderId ==> payments[i] in r
      ensures forall i :: 0 <= i < |payments| ==>
        multiset(r)[payments[i]] == if payments[i].orderId == orderId then multiset(payments)[payments[i]] else 0
    {
      Filter(payments, (p: Payment) => p.orderId == orderId)
    }

    /** The three counter updates of a success path. */
    method RecordSuccess(elapsed: int)
      requires Valid()
      modifies stats
      ensures Valid() && stats.CountedSuccess(elapsed)
    {
      stats.CountSuccess();
      stats.CountRequest(elapsed);
    }

    /**
      * POST /api/payments, `elapsed` ms after the handler started. A body
      * with all required fields appends one pending, unprocessed payment.
      */
    method Create(orderId: Option<string>, amount: Option<real>, currency: Option<string>,
                  paymentMethod: Option<string>, freshId: string, now: int, elapsed: int)
      returns (r: Reply<Payment>)
      requires Valid()
      modifies this, stats
      ensures Valid()
      ensures !HasRequiredFields(orderId, amount, currency, paymentMethod) ==>
        && r == Fail(400, MissingFields) && payments == old(payments)
        && stats.CountedFailure()
      ensures HasRequiredFields(orderId, amount, currency, paymentMethod) ==>
        && r.Ok? && r.status == 201
        && payments == old(payments) + [r.value]
        && r.value == Payment(freshId, orderId.value, amount.value, currency.value, paymentMethod.value,
                              "pending", now, None)
        && stats.CountedSuccess(elapsed)
      ensures HasRequiredFields(orderId, amount, currency, paymentMethod) && old(IndexOf(freshId)).None? ==>
        IndexOf(freshId) == Some(|old(payments)|)
    {
      if !HasRequiredFields(orderId, amount, currency, paymentMethod) {
        stats.CountFailure();
        return Fail(400, MissingFields);
      }
      var payment := Payment(freshId, orderId.value, amount.value, currency.value, paymentMethod.value,
                             "pending", now, None);
      FindIndexAppend(payments, payment, (p: Payment) => p.id == freshId);
      payments := payments + [payment];
      RecordSuccess(elapsed);
      r := Ok(201, payment);
    }

    /** GET /api/payments/:id: the first payment with that id, or 404. */
    method Get(id: string, elapsed: int) returns (r: Reply<Payment>)
      requires Valid()
      modifies stats
      ensures Valid()
      ensures IndexOf(id).None? ==> r == Fail(404, PaymentNotFound) && stats.CountedFailure()
      ensures IndexOf(id).Some? ==> r == Ok(200, payments[IndexOf(id).value]) && stats.CountedSuccess(elapsed)
    {
      var index := IndexOf(id);
      if index.None? {
        stats.CountFailure();
        return Fail(404, PaymentNotFound);
      }
      RecordSuccess(elapsed);
      r := Ok(200, payments[index.value]);
    }

    /** GET /api/payments/order/:orderId: always succeeds. */
    method ListByOrder(orderId: string, elapsed: int) returns (r: seq<Payment>)
      requires Valid()
      modifies stats
      ensures Valid()
      ensures r == OfOrder(orderId) && stats.CountedSuccess(elapsed)
    {
      r := OfOrder(orderId);
      RecordSuccess(elapsed);
    }

    /**
      * POST /api/payments/:id/cancel. A completed payment cannot be
      * cancelled; any other status, failed or cancelled included, becomes
      * 'cancelled'.
      */
    method Cancel(id: string, elapsed: int) returns (r: Reply<Payment>)
      requires Valid()
      modifies this, stats
      ensures Valid()
      ensures old(IndexOf(id)).None? ==>
        r == Fail(404, PaymentNotFound) && payments == old(payments) && stats.CountedFailure()
      ensures old(IndexOf(id)).Some? && old(payments)[old(IndexOf(id)).value].status == "completed" ==>
        r == Fail(400, CannotCancelCompleted) && payments == old(payments) && stats.CountedFailure()
      ensures old(IndexOf(id)).Some? && old(payments)[old(IndexOf(id)).value].status != "completed" ==>
        var i := old(IndexOf(id)).value;
        && payments == old(payments)[i := old(payments)[i].(status := "cancelled")]
        && r == Ok(200, payments[i])
        && stats.CountedSuccess(elapsed)
    {
      var index := IndexOf(id);
      if index.None? {
        stats.CountFailure();
        return Fail(404, PaymentNotFound);
      }
      var i := index.value;
      if payments[i].status == "completed" {
        stats.CountFailure();
        return Fail(400, CannotCancelCompleted);
      }
      payments := payments[i := payments[i].(status := "cancelled")];
      RecordSuccess(elapsed);
      r := Ok(200, payments[i]);
    }
  }
}

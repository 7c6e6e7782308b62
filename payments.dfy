/** Payment processing with retries and gateway fallback (PaymentService),
    over an append-only payment ledger. */
module Payments {
  import opened Common

  /** The gateway written on a payment record. */
  datatype PaymentGateway = RAZORPAY | STRIPE

  datatype PaymentStatus = PENDING | SUCCESS | FAILED

  datatype Payment = Payment(
    id: PaymentId,
    ticketId: TicketId,
    amount: real,
    gateway: PaymentGateway,
    status: PaymentStatus)

  /** The adapter that is actually asked to take the money. Besides the two
      built-in providers, setDefaultGateway accepts any other adapter. */
  datatype GatewayAdapter = RazorpayAdapter | StripeAdapter | OtherAdapter(name: nat)

  /** The providers' answers: `oracle(g, n)` is whether adapter `g` accepts the
      payment attempt numbered `n`, counting every attempt the service has made
      from 0 (so `n` is also the ledger position of that attempt's record). */
  type Oracle = (GatewayAdapter, nat) -> bool

  /** The adapter the retry loop uses on attempt `attempt` (counted from 1)
      when `initial` was current at the call: the first two attempts use
      `initial`, later ones Stripe, because the loop switches only after a
      failed attempt numbered above 1. */
  function AttemptGateway(initial: GatewayAdapter, attempt: int): GatewayAdapter {
    if attempt <= 2 then initial else StripeAdapter
  }

  /** Whether attempt `attempt` of a retry run that starts with `base` records
      in the ledger succeeds. */
  predicate AttemptSucceeds(oracle: Oracle, initial: GatewayAdapter, base: nat, attempt: int)
    requires attempt >= 1
  {
    oracle(AttemptGateway(initial, attempt), base + attempt - 1)
  }

  /** The first attempt numbered `k` to `maxRetries` that succeeds, or 0 when
      none does. */
  function FirstSuccessFrom(oracle: Oracle, initial: GatewayAdapter, base: nat, k: int, maxRetries: int): (r: nat)
    requires k >= 1
    ensures r == 0 || (k <= r <= maxRetries && AttemptSucceeds(oracle, initial, base, r))
    ensures forall j :: k <= j <= maxRetries && (r == 0 || j < r) ==> !AttemptSucceeds(oracle, initial, base, j)
    decreases maxRetries - k
  {
    if k > maxRetries then 0
    else if AttemptSucceeds(oracle, initial, base, k) then k
    else FirstSuccessFrom(oracle, initial, base, k + 1, maxRetries)
  }

  /** The first successful attempt among attempts 1 to `maxRetries`, or 0. */
  function FirstSuccess(oracle: Oracle, initial: GatewayAdapter, base: nat, maxRetries: int): (r: nat)
    ensures r > 0 <==> exists k :: 1 <= k <= maxRetries && AttemptSucceeds(oracle, initial, base, k)
    ensures r > 0 ==> r <= maxRetries && AttemptSucceeds(oracle, initial, base, r)
    ensures forall j :: 1 <= j < r ==> !AttemptSucceeds(oracle, initial, base, j)
  {
    FirstSuccessFrom(oracle, initial, base, 1, maxRetries)
  }

  function Max0(n: int): nat {
    if n < 0 then 0 else n
  }

  /** How many attempts a retry run makes: up to the first success, or all. */
  function AttemptsMade(oracle: Oracle, initial: GatewayAdapter, base: nat, maxRetries: int): nat {
    var first := FirstSuccess(oracle, initial, base, maxRetries);
    if first > 0 then first else Max0(maxRetries)
  }

  /** How many attempts of a retry run fail. */
  function FailedAttempts(oracle: Oracle, initial: GatewayAdapter, base: nat, maxRetries: int): nat {
    var first := FirstSuccess(oracle, initial, base, maxRetries);
    if first > 0 then first - 1 else Max0(maxRetries)
  }

  /** The records a retry run appends: one per attempt, numbered on from
      `base`, all written as Razorpay payments, the last one SUCCESS if the
      run succeeded and every other one FAILED. */
  function RetryRecords(base: nat, ticketId: TicketId, amount: real, made: nat, succeeded: bool): (r: seq<Payment>)
    ensures |r| == made
  {
    seq(made, j requires 0 <= j < made =>
      Payment(base + j, ticketId, amount, RAZORPAY, if succeeded && j == made - 1 then SUCCESS else FAILED))
  }

  /** With no attempt allowed the run fails and writes nothing. */
  lemma NoRetriesNoRecords(oracle: Oracle, initial: GatewayAdapter, base: nat, maxRetries: int)
    requires maxRetries <= 0
    ensures FirstSuccess(oracle, initial, base, maxRetries) == 0
    ensures AttemptsMade(oracle, initial, base, maxRetries) == 0
    ensures FailedAttempts(oracle, initial, base, maxRetries) == 0
  {
  }

  /** The Stripe fallback is installed exactly when attempts 1 and 2 were both
      made and both failed. */
  lemma SwitchedIffFirstTwoFailed(oracle: Oracle, initial: GatewayAdapter, base: nat, maxRetries: int)
    ensures FailedAttempts(oracle, initial, base, maxRetries) >= 2 <==>
      maxRetries >= 2 && !AttemptSucceeds(oracle, initial, base, 1) && !AttemptSucceeds(oracle, initial, base, 2)
  {
  }

  /** A run that fails twice and then succeeds, with three attempts allowed,
      makes exactly three attempts, the last through Stripe. */
  lemma ThirdAttemptSucceeds(initial: GatewayAdapter)
    ensures var oracle: Oracle := (g, n) => n == 2;
      && FirstSuccess(oracle, initial, 0, 3) == 3
      && AttemptsMade(oracle, initial, 0, 3) == 3
      && AttemptGateway(initial, 3) == StripeAdapter
      && RetryRecords(0, 7, 10.0, 3, true) ==
           [Payment(0, 7, 10.0, RAZORPAY, FAILED), Payment(1, 7, 10.0, RAZORPAY, FAILED),
            Payment(2, 7, 10.0, RAZORPAY, SUCCESS)]
  {
  }

  class PaymentService {
    /** The payment ledger (the records of the payment repository). */
    var ledger: seq<Payment>
    /** The adapter the next attempt goes through. */
    var defaultGateway: GatewayAdapter

    /** Each record's id is its ledger position and no record is left
        PENDING between calls. */
    ghost predicate Valid()
      reads this
    {
      forall j :: 0 <= j < |ledger| ==> ledger[j].id == j && ledger[j].status != PENDING
    }

    /** A new service over the payment records `initial` already holds,
        with Razorpay as the current gateway. */
    constructor (initial: seq<Payment>)
      requires forall j :: 0 <= j < |initial| ==> initial[j].id == j && initial[j].status != PENDING
      ensures Valid() && ledger == initial && defaultGateway == RazorpayAdapter
    {
      ledger := initial;
      defaultGateway := RazorpayAdapter;
    }

    /** processPayment: appends one record, written as a Razorpay payment
        whichever adapter is current, asks the current adapter, settles the
        record as SUCCESS or FAILED by its answer, and returns that answer. */
    method ProcessPayment(ticketId: TicketId, amount: real, oracle: Oracle) returns (success: bool)
      requires Valid()
      modifies this
      ensures Valid()
      ensures success == oracle(old(defaultGateway), |old(ledger)|)
      ensures ledger == old(ledger) + [Payment(|old(ledger)|, ticketId, amount, RAZORPAY, if success then SUCCESS else FAILED)]
      ensures defaultGateway == old(defaultGateway)
    {
      var payment := Payment(|ledger|, ticketId, amount, RAZORPAY, PENDING);
      ledger := ledger + [payment];
      success := oracle(defaultGateway, payment.id);
      if success {
        payment := payment.(status := SUCCESS);
      } else {
        payment := payment.(status := FAILED);
      }
      ledger := ledger[payment.id := payment];
    }

    /** processPaymentWithRetry: tries up to `maxRetries` times, stopping at
        the first success; after a failed attempt numbered above 1 the current
        adapter becomes Stripe and stays so after the call. */
    method ProcessPaymentWithRetry(ticketId: TicketId, amount: real, maxRetries: int, oracle: Oracle) returns (ok: bool)
      requires Valid()
      modifies this
      ensures Valid()
      ensures ok == (FirstSuccess(oracle, old(defaultGateway), |old(ledger)|, maxRetries) > 0)
      ensures ledger == old(ledger) + RetryRecords(|old(ledger)|, ticketId, amount,
        AttemptsMade(oracle, old(defaultGateway), |old(ledger)|, maxRetries), ok)
      ensures defaultGateway ==
        if FailedAttempts(oracle, old(defaultGateway), |old(ledger)|, maxRetries) >= 2 then StripeAdapter
        else old(defaultGateway)
    {
      ghost var base, initial := |ledger|, defaultGateway;
      ghost var first := FirstSuccess(oracle, initial, base, maxRetries);
      var attempt := 1;
      while attempt <= maxRetries
        invariant 1 <= attempt <= Max0(maxRetries) + 1
        invariant Valid()
        invariant |ledger| == base + attempt - 1
        invariant ledger == old(ledger) + RetryRecords(base, ticketId, amount, attempt - 1, false)
        invariant forall k :: 1 <= k < attempt ==> !AttemptSucceeds(oracle, initial, base, k)
        invariant defaultGateway == AttemptGateway(initial, attempt)
        decreases maxRetries - attempt
      {
        var success := ProcessPayment(ticketId, amount, oracle);
        assert success == AttemptSucceeds(oracle, initial, base, attempt);
        if success {
          assert first == attempt;
          assert ledger == old(ledger) + RetryRecords(base, ticketId, amount, attempt, true);
          return true;
        }
        assert ledger == old(ledger) + RetryRecords(base, ticketId, amount, attempt, false);
        if attempt > 1 {
          defaultGateway := StripeAdapter;
        }
        attempt := attempt + 1;
      }
      assert first == 0;
      return false;
    }

    /** setDefaultGateway: makes `gateway` the current adapter. */
    method SetDefaultGateway(gateway: GatewayAdapter)
      requires Valid()
      modifies this
      ensures Valid()
      ensures defaultGateway == gateway
      ensures ledger == old(ledger)
    {
      defaultGateway := gateway;
    }
  }
}

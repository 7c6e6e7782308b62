/** The fee calculator and its pricing-rule table (PricingService). */
module Pricing {
  import opened Common
  import opened Tickets

  /** A pricing rule: the flat rate caps the whole session, the hourly rate
      is charged per whole hour. */
  datatype PricingRule = PricingRule(vehicleType: VehicleType, flatRate: real, ratePerHour: real)

  datatype PricingError = NoPricingRule(vehicleType: VehicleType)

  datatype Result<+T> = Success(value: T) | Failure(error: PricingError)

  const SecondsPerHour: int := 3600

  /** The vehicle class whose rule is always consulted: the ticket's own
      class is never looked at. */
  const RuleClass: VehicleType := CAR

  /** Java's long division, which truncates toward zero. */
  function TruncDiv(a: int, b: int): (q: int)
    requires b > 0
    ensures a >= 0 ==> q * b <= a < (q + 1) * b
    ensures a < 0 ==> q * b >= a > (q - 1) * b
  {
    if a >= 0 then a / b else -((-a) / b)
  }

  /** The number of hours billed for a session of `elapsed` seconds:
      `Duration.toHours` (whole hours, truncated), raised to 1 when below 1. */
  function BilledHours(elapsed: int): (h: int)
    ensures h >= 1
    ensures elapsed >= SecondsPerHour ==> h * SecondsPerHour <= elapsed < (h + 1) * SecondsPerHour
    ensures elapsed < 2 * SecondsPerHour ==> h == 1
  {
    var hours := TruncDiv(elapsed, SecondsPerHour);
    if hours < 1 then 1 else hours
  }

  /** Whole hours are monotone in elapsed time. */
  lemma BilledHoursMonotone(e1: int, e2: int)
    requires e1 <= e2
    ensures BilledHours(e1) <= BilledHours(e2)
  {
  }

  /** calculateHourlyFee: billed hours times the hourly rate, so never less
      than one hour's charge, and exactly one hour's charge under two hours. */
  function HourlyFee(elapsed: int, ratePerHour: real): (r: real)
    ensures ratePerHour >= 0.0 ==> r >= ratePerHour
    ensures elapsed < 2 * SecondsPerHour ==> r == ratePerHour
  {
    var h := BilledHours(elapsed);
    assert ratePerHour >= 0.0 ==> h as real * ratePerHour >= 1.0 * ratePerHour;
    h as real * ratePerHour
  }

  function Min(a: real, b: real): (m: real)
    ensures m <= a && m <= b
    ensures m == a || m == b
  {
    if a <= b then a else b
  }

  /** The fee for a session of `elapsed` seconds under `rule`: the smaller of
      the flat rate and the hourly fee. */
  function Fee(rule: PricingRule, elapsed: int): (fee: real)
    ensures fee <= rule.flatRate
    ensures fee <= BilledHours(elapsed) as real * rule.ratePerHour
    ensures fee == rule.flatRate || fee == BilledHours(elapsed) as real * rule.ratePerHour
  {
    Min(rule.flatRate, HourlyFee(elapsed, rule.ratePerHour))
  }

  /** Every session shorter than two hours, including one with a negative
      duration, costs the same as a one-hour session. */
  lemma UnderTwoHoursBilledAsOne(rule: PricingRule, elapsed: int)
    requires elapsed < 2 * SecondsPerHour
    ensures Fee(rule, elapsed) == Min(rule.flatRate, rule.ratePerHour)
  {
  }

  /** With a non-negative hourly rate a longer session never costs less. */
  lemma FeeMonotone(rule: PricingRule, e1: int, e2: int)
    requires rule.ratePerHour >= 0.0
    requires e1 <= e2
    ensures Fee(rule, e1) <= Fee(rule, e2)
  {
    BilledHoursMonotone(e1, e2);
    var h1, h2 := BilledHours(e1) as real, BilledHours(e2) as real;
    assert (h2 - h1) * rule.ratePerHour >= 0.0;
    assert HourlyFee(e1, rule.ratePerHour) == h1 * rule.ratePerHour;
    assert HourlyFee(e2, rule.ratePerHour) == h2 * rule.ratePerHour;
  }

  /** Three example sessions under two rules. */
  lemma WorkedExamples()
    ensures Fee(PricingRule(CAR, 25.0, 60.0), SecondsPerHour) == 25.0
    ensures Fee(PricingRule(EV, 50.0, 18.0), 2 * SecondsPerHour) == 36.0
    ensures Fee(PricingRule(EV, 50.0, 18.0), 2 * SecondsPerHour - 1) == 18.0
  {
  }

  class PricingService {
    /** The pricing-rule table, one rule per vehicle class. */
    var rules: map<VehicleType, PricingRule>

    ghost predicate Valid()
      reads this
    {
      forall v :: v in rules ==> rules[v].vehicleType == v
    }

    constructor (initial: map<VehicleType, PricingRule>)
      requires forall v :: v in initial ==> initial[v].vehicleType == v
      ensures Valid() && rules == initial
    {
      rules := initial;
    }

    /** The fee owed for `ticket` at time `now`: the CAR rule applied to the
        time since entry. Fails when there is no CAR rule. */
    function CalculateFee(ticket: Ticket, now: Instant): (r: Result<real>)
      reads this
      ensures r.Failure? <==> RuleClass !in rules
      ensures r.Failure? ==> r.error == NoPricingRule(CAR)
      ensures r.Success? ==> r.value <= rules[CAR].flatRate
      ensures r.Success? ==> r.value <= BilledHours(now - ticket.entryTime) as real * rules[CAR].ratePerHour
      ensures r.Success? ==>
        r.value == rules[CAR].flatRate || r.value == BilledHours(now - ticket.entryTime) as real * rules[CAR].ratePerHour
    {
      if RuleClass !in rules then Failure(NoPricingRule(RuleClass))
      else Success(Fee(rules[RuleClass], now - ticket.entryTime))
    }

    /** The fee does not depend on the ticket's vehicle class or anything but
        its entry time. */
    lemma FeeIgnoresTicketClass(ticket: Ticket, v: VehicleType, now: Instant)
      ensures CalculateFee(ticket.(vehicleType := v), now) == CalculateFee(ticket, now)
    {
    }

    /** addPricingRule: stores `rule` under its vehicle class. */
    method AddPricingRule(rule: PricingRule)
      requires Valid()
      modifies this
      ensures Valid()
      ensures rules == old(rules)[rule.vehicleType := rule]
    {
      rules := rules[rule.vehicleType := rule];
    }

    /** updatePricingRule: replaces the rule for `rule`'s vehicle class. */
    method UpdatePricingRule(rule: PricingRule)
      requires Valid()
      modifies this
      ensures Valid()
      ensures rules == old(rules)[rule.vehicleType := rule]
    {
      rules := rules[rule.vehicleType := rule];
    }
  }
}

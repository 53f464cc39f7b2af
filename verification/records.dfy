// What one webhook message leaves behind, field by field.

module Records {
  import opened Domain
  import opened Schema
  import opened EventHub
  import opened Webhook

  // ----- numbers as text -----

  // The number a decimal text stands for.
  function Value(s: string): int
    decreases |s|
  {
    if s == "" then 0
    else if s[0] == '-' then -Value(s[1..])
    else 10 * Value(s[..|s| - 1]) + (s[|s| - 1] as int - '0' as int)
  }

  predicate Digits(s: string) {
    s != "" && forall i | 0 <= i < |s| :: '0' <= s[i] <= '9'
  }

  lemma {:induction false} NaturalReadsBack(n: nat)
    ensures Value(Decimal(n)) == n && Digits(Decimal(n))
    ensures |Decimal(n)| > 1 ==> Decimal(n)[0] != '0'
    decreases n
  {
    if n >= 10 {
      NaturalReadsBack(n / 10);
      var d := LastDigit(n);
      hide Value, Digits, Decimal;
      OneDigitMore(Decimal(n / 10), d);
      FirstIsNotZero(n / 10);
    }
  }

  lemma LastDigit(n: nat) returns (d: char)
    requires n >= 10
    ensures Decimal(n) == Decimal(n / 10) + [d] && Decimal(n / 10) != ""
    ensures '0' <= d <= '9' && d as int - '0' as int == n % 10
  {
    d := "0123456789"[n % 10];
  }

  lemma OneDigitMore(s: string, d: char)
    requires Digits(s) && '0' <= d <= '9'
    ensures Digits(s + [d]) && Value(s + [d]) == 10 * Value(s) + (d as int - '0' as int)
  {
    assert (s + [d])[..|s|] == s && (s + [d])[0] == s[0];
  }

  lemma FirstIsNotZero(n: nat)
    requires n > 0 && Decimal(n) != "" && (|Decimal(n)| > 1 ==> Decimal(n)[0] != '0')
    ensures Decimal(n)[0] != '0'
  {
  }

  // A code is printed so that it reads back, without leading zeros.
  lemma DecimalReadsBack(n: int)
    ensures Value(Decimal(n)) == n
    ensures n >= 0 ==> Digits(Decimal(n)) && (|Decimal(n)| > 1 ==> Decimal(n)[0] != '0')
    ensures n < 0 ==> Decimal(n)[0] == '-' && Digits(Decimal(n)[1..])
  {
    if n >= 0 {
      NaturalReadsBack(n);
    } else {
      NaturalReadsBack(-n);
      assert Decimal(n)[1..] == Decimal(-n);
    }
  }

  // ----- one delivery -----

  // The recorded attempt.
  lemma AttemptIs(n: Notification, target: string, r: HttpResult)
    ensures var row := AttemptOf(n, target, r);
      && row.notificationId == n.id && row.destination == target
      && (row.success <==> r.Response? && 200 <= r.code <= 299)
      && (r.Response? ==> row.statusCode == r.code && row.body == r.body && row.error == "")
      && (r.NoResponse? ==> row.statusCode == 0 && row.body == "" && row.error == r.error)
  {
  }

  predicate SaysCode(s: string, code: int) {
    |s| > 5 && s[..5] == "HTTP " && Value(s[5..]) == code && (code >= 0 ==> Digits(s[5..]))
  }

  // The reason says the error, or the code.
  lemma ReasonIs(r: HttpResult)
    ensures r.NoResponse? ==> Reason(r) == r.error
    ensures r.Response? ==> SaysCode(Reason(r), r.code)
  {
    if r.Response? {
      DecimalReadsBack(r.code);
    }
  }

  // The events of delivery k, first two the same whatever the answer.
  lemma EventsAre(n: Notification, ds: seq<Delivery>, attempt: nat, k: nat)
    requires k < |ds|
    ensures var t, d := Traces(n, ds, attempt), ds[k];
      && |t| == 3 * |ds|
      && t[3 * k] == Event(n.id, n.serviceId, d.target, Queued, "Queued", attempt)
      && t[3 * k + 1] == Event(n.id, n.serviceId, d.target, Delivering, "Sending", attempt)
      && var last := t[3 * k + 2];
         && last.notificationId == n.id && last.serviceId == n.serviceId && last.destination == d.target
         && last.attempt == attempt
         && (d.result.Response? && 200 <= d.result.code <= 299 ==> last.status == Delivered && last.message == "OK")
         && (d.result.Response? && !(200 <= d.result.code <= 299) ==>
               last.status == Failed && SaysCode(last.message, d.result.code))
         && (d.result.NoResponse? ==> last.status == Failed && last.message == d.result.error)
  {
    var d := ds[k];
    TraceAt(n, ds, attempt, k);
    ReasonIs(d.result);
    hide Traces, SaysCode, Reason;
    var t := Traces(n, ds, attempt);
    assert t[3 * k..3 * k + 3][0] == t[3 * k];
    assert t[3 * k..3 * k + 3][1] == t[3 * k + 1];
    assert t[3 * k..3 * k + 3][2] == t[3 * k + 2];
  }

  // ----- the message as a whole -----

  // It is acknowledged exactly if every answer was a 2xx or this was the last
  // attempt allowed; otherwise it comes back after the delay of the next attempt.
  lemma VerdictIs(cfg: Config, nm: NotificationMessage, ds: seq<Delivery>)
    ensures var (v, next) := (Verdict(cfg, nm, ds), nm.attemptCount + 1);
      && (v == Acked <==> next >= cfg.maxAttempts
                          || forall i | 0 <= i < |ds| :: ds[i].result.Response? && 200 <= ds[i].result.code <= 299)
      && (v == Acked || v == NakedWithDelay(next))
  {
    NoFailures(ds);
    hide Failures;
  }

  // Only a message that comes back adds an event, of no destination.
  lemma RetryEventIs(n: Notification, ds: seq<Delivery>, attempt: nat)
    ensures MessageTrace(n, ds, attempt, false) == Traces(n, ds, attempt)
    ensures MessageTrace(n, ds, attempt, true)
         == Traces(n, ds, attempt) + [Event(n.id, n.serviceId, "", Retrying, "Retrying", attempt + 1)]
  {
  }

  // The parked letter of a notification that had none, or the insert refused.
  lemma ParkedIs(db: Tables, n: Notification, nm: NotificationMessage, lastErr: string, letterId: Id, now: Time)
    requires forall k :: k in db.letters ==> db.letters[k].notificationId != nm.notificationId
    ensures var after := Parked(Some(db), n, nm, lastErr, Clean, letterId, now);
      && after.Some? && after.value.letters == (
           if letterId in db.letters || n.serviceId !in db.services then db.letters
           else db.letters[letterId :=
             DeadLetter(letterId, nm.notificationId, n.serviceId, n.payload, lastErr, nm.attemptCount, now)])
      && after.value.jobs == db.jobs && after.value.stats == db.stats && after.value.services == db.services
    ensures Parked(Some(db), n, nm, lastErr, LostCall, letterId, now) == Some(db)
  {
  }

  // A notification that has a letter keeps it as it is.
  lemma ParkedOnce(db: Tables, n: Notification, nm: NotificationMessage, lastErr: string, create: Outcome,
                   letterId: Id, now: Time, k: Id)
    requires k in db.letters && db.letters[k].notificationId == nm.notificationId
    ensures Parked(Some(db), n, nm, lastErr, create, letterId, now) == Some(db)
  {
  }
}

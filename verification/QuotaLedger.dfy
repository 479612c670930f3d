/**
 * `QuotaLedger` and `ExternalContextManager._provider`: one durable row per
 * provider that counts attempts before they are made.  The ghost history says
 * what the row stands for: every reservation granted, every fetch begun, and
 * every moment before which nothing may be granted.
 */
module QuotaLedgers {
  import opened Basics

  // ---- the history of grants ----

  function Minute(t: real): int {
    (t / 60.0).Floor
  }

  /** How many of the grants fall into bucket `m` (a month or a minute window). */
  function CountIn(grants: seq<real>, bucket: real -> int, m: int): nat {
    if grants == [] then 0
    else CountIn(grants[..|grants| - 1], bucket, m) + (if bucket(grants[|grants| - 1]) == m then 1 else 0)
  }

  predicate Spaced(grants: seq<real>, interval: real) {
    forall i :: 0 < i < |grants| ==> grants[i] >= grants[i - 1] + interval
  }

  ghost predicate Monotone(bucket: real -> int) {
    forall a, b :: a <= b ==> bucket(a) <= bucket(b)
  }

  /** No month lasts longer than 31 days. */
  ghost predicate ShortMonths(month: real -> int) {
    forall a, b :: a <= b && month(a) == month(b) ==> b - a < 2678400.0
  }

  lemma MinutesAreMonotone(a: real, b: real)
    requires a <= b
    ensures Minute(a) <= Minute(b)
  {
    assert a / 60.0 <= b / 60.0;
  }

  lemma CountSnoc(grants: seq<real>, t: real, bucket: real -> int, m: int)
    ensures CountIn(grants + [t], bucket, m) == CountIn(grants, bucket, m) + (if bucket(t) == m then 1 else 0)
  {
    assert (grants + [t])[..|grants|] == grants;
  }

  lemma {:induction false} NoneBeyond(grants: seq<real>, bucket: real -> int, m: int)
    requires forall i :: 0 <= i < |grants| ==> bucket(grants[i]) < m
    ensures CountIn(grants, bucket, m) == 0
  {
    if grants != [] {
      NoneBeyond(grants[..|grants| - 1], bucket, m);
    }
  }

  lemma {:induction false} SpacedIsSorted(grants: seq<real>, interval: real, i: nat, j: nat)
    requires Spaced(grants, interval) && interval >= 0.0 && i <= j < |grants|
    ensures grants[i] <= grants[j]
  {
    if i < j {
      SpacedIsSorted(grants, interval, i, j - 1);
    }
  }

  /** `n` intervals end to end. */
  function Times(n: nat, interval: real): real {
    if n == 0 then 0.0 else Times(n - 1, interval) + interval
  }

  lemma {:induction false} TimesAtLeast(n: nat, interval: real)
    requires interval >= 300.0
    ensures Times(n, interval) >= n as real * 300.0
  {
    if n > 0 {
      TimesAtLeast(n - 1, interval);
    }
  }

  /** `c` spaced grants in one bucket stretch over at least `c - 1` intervals. */
  lemma {:induction false} Stretch(grants: seq<real>, interval: real, bucket: real -> int, m: int) returns (first: nat, last: nat)
    requires Spaced(grants, interval) && interval >= 0.0 && CountIn(grants, bucket, m) > 0
    ensures first <= last < |grants| && bucket(grants[first]) == m && bucket(grants[last]) == m
    ensures grants[last] >= grants[first] + Times(CountIn(grants, bucket, m) - 1, interval)
  {
    var n := |grants| - 1;
    var front := grants[..n];
    if CountIn(front, bucket, m) == 0 {
      first, last := n, n;
    } else {
      first, last := Stretch(front, interval, bucket, m);
      if bucket(grants[n]) == m {
        SpacedIsSorted(front, interval, last, n - 1);
        last := n;
      }
    }
  }

  /** Spacing alone bounds a month: 300 s apart, a 31-day month holds at most 8928. */
  lemma SpacingBoundsMonth(grants: seq<real>, interval: real, month: real -> int, m: int)
    requires Spaced(grants, interval) && interval >= 300.0 && ShortMonths(month)
    ensures CountIn(grants, month, m) <= 8928
  {
    var c := CountIn(grants, month, m);
    if c > 0 {
      var first, last := Stretch(grants, interval, month, m);
      SpacedIsSorted(grants, interval, first, last);
      TimesAtLeast(c - 1, interval);
    }
  }

  /** The bound is met: a 31-day month holds 8928 grants exactly 300 s apart. */
  lemma {:induction false} SpacingBoundIsTight(n: nat)
    requires n <= 8928
    ensures
      var grants := seq(n, i requires 0 <= i < n => i as real * 300.0);
      Spaced(grants, 300.0) && CountIn(grants, (t: real) => (t / 2678400.0).Floor, 0) == n
  {
    if n > 0 {
      SpacingBoundIsTight(n - 1);
      var grants := seq(n, i requires 0 <= i < n => i as real * 300.0);
      var front := seq(n - 1, i requires 0 <= i < n - 1 => i as real * 300.0);
      assert grants[..n - 1] == front;
      assert 0.0 <= grants[n - 1] / 2678400.0 < 1.0;
    }
  }

  // ---- the row ----

  datatype Status =
    | Never | Reserved | Success | MinuteRateLimited
    | AuthError | PlanError | RateLimited | ProviderError | TransportError | PayloadError | HttpError

  predicate IsFailure(s: Status) {
    s.AuthError? || s.PlanError? || s.RateLimited? || s.ProviderError? || s.TransportError? || s.PayloadError? || s.HttpError?
  }

  /** No failure is behind the wait. */
  predicate Waiting(s: Status) {
    s.Success? || s.Reserved? || s.Never?
  }

  datatype Quota = Quota(month: int, monthAttempts: nat, minute: int, minuteAttempts: nat,
                         nextAllowed: real, failures: nat, status: Status)

  datatype Decision = Allowed | RefreshWait | BackoffWait | MonthlyExhausted | MinuteExhausted

  /** `_normalize_row`: a new month or minute starts its count at zero. */
  function Normalized(row: Option<Quota>, month: int, minute: int): Quota {
    if row.None? then Quota(month, 0, minute, 0, 0.0, 0, Never)
    else
      var q := if row.value.month != month then row.value.(month := month, monthAttempts := 0) else row.value;
      if q.minute != minute then q.(minute := minute, minuteAttempts := 0) else q
  }

  /** The row after one more attempt has been counted. */
  function Counting(q: Quota, now: real, interval: int): Quota {
    q.(monthAttempts := q.monthAttempts + 1, minuteAttempts := q.minuteAttempts + 1,
       nextAllowed := now + interval as real, status := Reserved)
  }

  function Max(a: real, b: real): real {
    if b > a then b else a
  }

  function MaxInt(a: int, b: int): int {
    if b > a then b else a
  }

  function MinInt(a: int, b: int): int {
    if b < a then b else a
  }

  /** 2 ** min(failures - 1, 4). */
  function Doubling(failures: nat): int {
    if failures <= 1 then 1 else if failures == 2 then 2 else if failures == 3 then 4 else if failures == 4 then 8 else 16
  }

  /** How long a failure keeps the provider quiet. */
  function Delay(status: Status, failures: nat, interval: int, retryAfter: Option<int>): int {
    if status.AuthError? || status.PlanError? then 3600
    else if status.RateLimited? then
      MaxInt(60, if retryAfter.Some? && retryAfter.value != 0 then retryAfter.value else interval)
    else MinInt(3600, MaxInt(interval, 300 * Doubling(failures)))
  }

  /** The moment a failure asks to wait for. */
  function Until(now: real, status: Status, failures: nat, interval: int, retryAfter: Option<int>): real {
    now + Delay(status, failures, interval, retryAfter) as real
  }

  /** A Retry-After is honoured exactly for a 429, or when it asks for no more
      than the delay of its status: every other status ignores it. */
  lemma RetryAfterHonouredIff(status: Status, failures: nat, interval: int, retryAfter: int)
    requires IsFailure(status) && retryAfter > 0
    ensures
      Delay(status, failures, interval, Some(retryAfter)) >= retryAfter <==>
      status.RateLimited? || retryAfter <= Delay(status, failures, interval, None)
  {
  }

  /** From the `from`-th grant on, nothing may be granted before `until`. */
  datatype Barrier = Barrier(from: nat, until: real)

  /** The row counts exactly the grants of its own month and minute. */
  ghost predicate Counted(row: Option<Quota>, grants: seq<real>, month: real -> int, clock: real) {
    if row.None? then grants == []
    else
      && row.value.month <= month(clock) && row.value.minute <= Minute(clock)
      && row.value.monthAttempts == CountIn(grants, month, row.value.month)
      && row.value.minuteAttempts == CountIn(grants, Minute, row.value.minute)
      && (forall i :: 0 <= i < |grants| ==> month(grants[i]) <= row.value.month && Minute(grants[i]) <= row.value.minute)
  }

  ghost predicate Bounded(grants: seq<real>, month: real -> int, minuteCap: nat, monthlyCap: nat) {
    && (forall m :: CountIn(grants, month, m) <= monthlyCap)
    && (forall w :: CountIn(grants, Minute, w) <= minuteCap)
  }

  ghost predicate Waited(row: Option<Quota>, grants: seq<real>, barriers: seq<Barrier>, interval: real, clock: real) {
    && Spaced(grants, interval)
    && (forall i :: 0 <= i < |grants| ==> grants[i] <= clock)
    && (row.Some? && grants != [] ==> row.value.nextAllowed >= grants[|grants| - 1] + interval)
    && (row.Some? ==> forall b :: 0 <= b < |barriers| ==> row.value.nextAllowed >= barriers[b].until)
    && (forall b, i :: 0 <= b < |barriers| && barriers[b].from <= i < |grants| ==> grants[i] >= barriers[b].until)
  }

  lemma GrantKeepsBounds(grants: seq<real>, now: real, month: real -> int, minuteCap: nat, monthlyCap: nat)
    requires Bounded(grants, month, minuteCap, monthlyCap)
    requires CountIn(grants, month, month(now)) < monthlyCap && CountIn(grants, Minute, Minute(now)) < minuteCap
    ensures Bounded(grants + [now], month, minuteCap, monthlyCap)
  {
    forall m
      ensures CountIn(grants + [now], month, m) <= monthlyCap && CountIn(grants + [now], Minute, m) <= minuteCap
    {
      CountSnoc(grants, now, month, m);
      CountSnoc(grants, now, Minute, m);
    }
  }

  lemma GrantKeepsWaits(row: Option<Quota>, q: Quota, grants: seq<real>, barriers: seq<Barrier>, interval: real,
                        clock: real, now: real)
    requires Waited(row, grants, barriers, interval, clock) && clock <= now && interval >= 0.0
    requires row.None? ==> grants == [] && barriers == []
    requires (row.Some? ==> row.value.nextAllowed <= now) && q.nextAllowed == now + interval
    ensures Waited(Some(q), grants + [now], barriers, interval, now)
  {
  }

  lemma FailureKeepsWaits(q: Quota, grants: seq<real>, barriers: seq<Barrier>, interval: real, now: real, until: real)
    requires Waited(Some(q), grants, barriers, interval, now) && q.nextAllowed >= until
    ensures Waited(Some(q), grants, barriers + [Barrier(|grants|, until)], interval, now)
  {
  }

  /** What the row already waits for. */
  function Held(before: Option<Quota>): real {
    if before.Some? then before.value.nextAllowed else 0.0
  }

  /** When the next grant waits for a positive Retry-After: it is a 429's, or within
      the delay of its status, or the row already waited that long. */
  predicate Honours(before: Option<Quota>, status: Status, failures: nat, now: real, interval: int, retryAfter: int) {
    || status.RateLimited? || retryAfter <= Delay(status, failures, interval, None)
    || Held(before) >= now + retryAfter as real
  }

  lemma BarrierHonours(before: Option<Quota>, status: Status, failures: nat, now: real, interval: int, retryAfter: int)
    requires IsFailure(status) && retryAfter > 0
    ensures
      Max(Held(before), Until(now, status, failures, interval, Some(retryAfter))) >= now + retryAfter as real <==>
      Honours(before, status, failures, now, interval, retryAfter)
  {
    RetryAfterHonouredIff(status, failures, interval, retryAfter);
  }

  class QuotaLedger {
    const month: real -> int
    const minuteCap: nat
    const monthlyCap: nat
    const interval: int
    var row: Option<Quota>
    ghost var clock: real
    ghost var grants: seq<real>
    ghost var barriers: seq<Barrier>

    /** In every UTC month and minute at most the cap was granted, grants are an
        interval apart, and none came before a failure allowed it. */
    ghost predicate Valid()
      reads this
    {
      && Monotone(month) && minuteCap >= 1 && monthlyCap >= 1 && interval >= 0
      && Counted(row, grants, month, clock) && Bounded(grants, month, minuteCap, monthlyCap)
      && Waited(row, grants, barriers, interval as real, clock) && (row.None? ==> barriers == [])
    }

    constructor (month: real -> int, minuteCap: nat, monthlyCap: nat, interval: int, now: real)
      requires Monotone(month) && minuteCap >= 1 && monthlyCap >= 1 && interval >= 0
      ensures Valid() && grants == [] && clock == now && row.None?
      ensures this.month == month && this.minuteCap == minuteCap && this.monthlyCap == monthlyCap && this.interval == interval
    {
      this.month, this.minuteCap, this.monthlyCap, this.interval := month, minuteCap, monthlyCap, interval;
      row, clock, grants, barriers := None, now, [], [];
    }

    /** Moving the row into the current month and minute keeps its meaning. */
    lemma NormalizedCounts(now: real)
      requires Valid() && clock <= now
      ensures
        var q := Normalized(row, month(now), Minute(now));
        && q.month == month(now) && q.minute == Minute(now)
        && q.monthAttempts == CountIn(grants, month, q.month)
        && q.minuteAttempts == CountIn(grants, Minute, q.minute)
        && (forall i :: 0 <= i < |grants| ==> month(grants[i]) <= q.month && Minute(grants[i]) <= q.minute)
        && (row.Some? ==> q.nextAllowed == row.value.nextAllowed)
    {
      MinutesAreMonotone(clock, now);
      if row.Some? {
        if row.value.month != month(now) {
          NoneBeyond(grants, month, month(now));
        }
        if row.value.minute != Minute(now) {
          NoneBeyond(grants, Minute, Minute(now));
        }
      }
    }

    /** Writing the normalized row, with the next grant no earlier than before. */
    ghost predicate Rewritten(now: real, q: Quota)
      reads this
    {
      var base := Normalized(row, month(now), Minute(now));
      q == base.(nextAllowed := q.nextAllowed, failures := q.failures, status := q.status) && q.nextAllowed >= base.nextAllowed
    }

    method Write(now: real, q: Quota)
      requires Valid() && clock <= now && Rewritten(now, q)
      modifies `row, `clock
      ensures Valid() && row == Some(q) && clock == now
    {
      NormalizedCounts(now);
      row := Some(q);
      clock := now;
    }

    /** One attempt is counted before it is made. */
    method Grant(now: real)
      requires Valid() && clock <= now
      requires
        var q := Normalized(row, month(now), Minute(now));
        q.nextAllowed <= now && q.monthAttempts < monthlyCap && q.minuteAttempts < minuteCap
      modifies `row, `clock, `grants
      ensures Valid() && clock == now && grants == old(grants) + [now]
      ensures
        var q := Normalized(old(row), month(now), Minute(now));
        row == Some(Counting(q, now, interval))
    {
      NormalizedCounts(now);
      var q := Normalized(row, month(now), Minute(now));
      var next := Counting(q, now, interval);
      CountSnoc(grants, now, month, q.month);
      CountSnoc(grants, now, Minute, q.minute);
      GrantKeepsBounds(grants, now, month, minuteCap, monthlyCap);
      GrantKeepsWaits(row, next, grants, barriers, interval as real, clock, now);
      row := Some(next);
      grants := grants + [now];
      clock := now;
    }

    /** `reserve`. */
    method Reserve(now: real) returns (d: Decision)
      requires Valid() && clock <= now
      modifies `row, `clock, `grants
      ensures Valid() && clock == now
      ensures grants == if d.Allowed? then old(grants) + [now] else old(grants)
      ensures
        var q := Normalized(old(row), month(now), Minute(now));
        d == if q.nextAllowed > now then (if Waiting(q.status) then RefreshWait else BackoffWait)
             else if q.monthAttempts >= monthlyCap then MonthlyExhausted
             else if q.minuteAttempts >= minuteCap then MinuteExhausted
             else Allowed
      ensures d.Allowed? ==>
                row == Some(Counting(Normalized(old(row), month(now), Minute(now)), now, interval))
      ensures d.MinuteExhausted? ==> row.Some? && row.value.nextAllowed >= ((Minute(now) + 1) * 60) as real
      ensures interval >= 300 && monthlyCap >= 8928 && ShortMonths(month) ==> !d.MonthlyExhausted?
    {
      var q := Normalized(row, month(now), Minute(now));
      if q.nextAllowed > now {
        d := if Waiting(q.status) then RefreshWait else BackoffWait;
        Write(now, q);
        return;
      }
      if q.monthAttempts >= monthlyCap {
        if interval >= 300 && monthlyCap >= 8928 && ShortMonths(month) {
          MonthHasRoom(now);
        }
        Write(now, q);
        return MonthlyExhausted;
      }
      if q.minuteAttempts >= minuteCap {
        Write(now, q.(nextAllowed := Max(q.nextAllowed, ((q.minute + 1) * 60) as real), status := MinuteRateLimited));
        return MinuteExhausted;
      }
      Grant(now);
      return Allowed;
    }

    /** When the next grant is due, spacing has kept the month below its bound. */
    lemma MonthHasRoom(now: real)
      requires Valid() && clock <= now && interval >= 300 && ShortMonths(month)
      requires Normalized(row, month(now), Minute(now)).nextAllowed <= now
      ensures Normalized(row, month(now), Minute(now)).monthAttempts < 8928
    {
      NormalizedCounts(now);
      var next := grants + [now];
      assert Spaced(next, interval as real);
      SpacingBoundsMonth(next, interval as real, month, month(now));
      CountSnoc(grants, now, month, month(now));
    }

    /** `mark_success`. */
    method MarkSuccess(now: real)
      requires Valid() && clock <= now
      modifies `row, `clock
      ensures Valid() && clock == now && row.Some?
      ensures row.value.status.Success? && row.value.failures == 0 && row.value.nextAllowed >= now + interval as real
    {
      var q := Normalized(row, month(now), Minute(now));
      Write(now, q.(nextAllowed := Max(q.nextAllowed, now + interval as real), failures := 0, status := Success));
    }

    /** `mark_failure`: the backoff becomes a barrier no later grant may precede. */
    method MarkFailure(now: real, status: Status, retryAfter: Option<int>) returns (ok: bool)
      requires Valid() && clock <= now
      modifies `row, `clock, `barriers
      ensures Valid() && ok == IsFailure(status)
      ensures !ok ==> row == old(row) && barriers == old(barriers) && clock == old(clock)
      ensures ok ==> clock == now && row.Some? && row.value.status == status
      ensures ok ==> row.value.failures == Normalized(old(row), month(now), Minute(now)).failures + 1
      ensures ok ==> barriers == old(barriers) +
                       [Barrier(|grants|, Until(now, status, row.value.failures, interval, retryAfter))]
      ensures ok ==> row.value.nextAllowed ==
                       Max(Held(old(row)), Until(now, status, row.value.failures, interval, retryAfter))
      ensures ok && retryAfter.Some? && retryAfter.value > 0 ==>
                (row.value.nextAllowed >= now + retryAfter.value as real <==>
                 Honours(old(row), status, row.value.failures, now, interval, retryAfter.value))
    {
      ok := IsFailure(status);
      if ok {
        BackOff(now, status, retryAfter);
        if retryAfter.Some? && retryAfter.value > 0 {
          BarrierHonours(old(row), status, row.value.failures, now, interval, retryAfter.value);
        }
      }
    }

    method BackOff(now: real, status: Status, retryAfter: Option<int>)
      requires Valid() && clock <= now
      modifies `row, `clock, `barriers
      ensures Valid() && clock == now && row.Some? && row.value.status == status
      ensures row.value.failures == Normalized(old(row), month(now), Minute(now)).failures + 1
      ensures
        var until := Until(now, status, row.value.failures, interval, retryAfter);
        && barriers == old(barriers) + [Barrier(|grants|, until)]
        && row.value.nextAllowed == Max(Held(old(row)), until)
    {
      var q := Normalized(row, month(now), Minute(now));
      var until := Until(now, status, q.failures + 1, interval, retryAfter);
      Write(now, q.(nextAllowed := Max(q.nextAllowed, until), failures := q.failures + 1, status := status));
      FailureKeepsWaits(row.value, grants, barriers, interval as real, now, until);
      barriers := barriers + [Barrier(|grants|, until)];
    }

    /** `status`. */
    method Refresh(now: real)
      requires Valid() && clock <= now
      modifies `row, `clock
      ensures Valid() && clock == now && row == Some(Normalized(old(row), month(now), Minute(now)))
    {
      Write(now, Normalized(row, month(now), Minute(now)));
    }
  }

  // ---- the manager ----

  datatype Fetched = Data | Failed(status: Status, retryAfter: Option<int>)

  class ContextManager {
    const ledger: QuotaLedger
    const refresh: int
    const usable: bool            // enabled, and with a credential
    var fetchedAt: Option<real>
    var savedAt: Option<real>     // the cache file
    var ledgerError: bool
    ghost var fetches: nat

    ghost predicate Valid()
      reads this, ledger
    {
      ledger.Valid() && ledger.interval == refresh && fetches <= |ledger.grants|
    }

    constructor (ledger: QuotaLedger, usable: bool, saved: Option<real>)
      requires ledger.Valid() && ledger.grants == []
      ensures Valid() && this.ledger == ledger && this.usable == usable && fetches == 0
      ensures fetchedAt == saved && savedAt == saved
    {
      this.ledger, this.refresh, this.usable := ledger, ledger.interval, usable;
      fetchedAt, savedAt, ledgerError, fetches := saved, saved, false, 0;
    }

    /** `max(0.0, now - fetched_at) < refresh`. */
    predicate Fresh(now: real)
      reads this
    {
      fetchedAt.Some? && Max(0.0, now - fetchedAt.value) < refresh as real
    }

    /** What a restart may remember: the cache file, if it can be read. */
    predicate Remembered(before: Option<real>)
      reads this
    {
      fetchedAt == before || fetchedAt == savedAt || fetchedAt.None?
    }

    /** `_provider`.  The process may die after the reservation, after the fetch,
        and after the cache is saved; a restart keeps the ledger and the cache
        file.  Whatever happens, no fetch goes out without a reservation of its own. */
    method Provider(now: real) returns (updated: bool)
      requires Valid() && ledger.clock <= now
      modifies this, ledger
      ensures Valid() && ledger.clock <= now
      ensures old(fetches) <= fetches <= old(fetches) + 1
      ensures ledger.grants == old(ledger.grants) || ledger.grants == old(ledger.grants) + [now]
      ensures fetches > old(fetches) ==> ledger.grants == old(ledger.grants) + [now]
      ensures updated ==> fetches == old(fetches) + 1 && fetchedAt == Some(now)
      ensures !updated ==> Remembered(old(fetchedAt))
      ensures savedAt == old(savedAt) || (savedAt == Some(now) && fetches == old(fetches) + 1)
      ensures !usable || old(Fresh(now)) || old(ledgerError) ==>
                !updated && fetches == old(fetches) && ledger.grants == old(ledger.grants)
                && fetchedAt == old(fetchedAt) && savedAt == old(savedAt)
    {
      if !usable {
        return false;
      }
      if Fresh(now) {
        ledger.Refresh(now);
        return false;
      }
      updated := Attempt(now);
    }

    method Attempt(now: real) returns (updated: bool)
      requires Valid() && ledger.clock <= now
      modifies this, ledger
      ensures Valid() && ledger.clock <= now
      ensures old(fetches) <= fetches <= old(fetches) + 1
      ensures ledger.grants == old(ledger.grants) || ledger.grants == old(ledger.grants) + [now]
      ensures fetches > old(fetches) ==> ledger.grants == old(ledger.grants) + [now]
      ensures updated ==> fetches == old(fetches) + 1 && fetchedAt == Some(now)
      ensures !updated ==> Remembered(old(fetchedAt))
      ensures savedAt == old(savedAt) || (savedAt == Some(now) && fetches == old(fetches) + 1)
      ensures old(ledgerError) ==> !updated && fetches == old(fetches) && ledger.grants == old(ledger.grants)
                                   && fetchedAt == old(fetchedAt) && savedAt == old(savedAt)
    {
      var broken: bool := *;
      if ledgerError || broken {
        ledgerError := true;
        return false;
      }
      var decision := ledger.Reserve(now);
      if !decision.Allowed? {
        return false;
      }
      updated := Fetch(now);
    }

    /** The process dies and starts again: the cache is what the file still gives. */
    method Restart()
      modifies `fetchedAt, `ledgerError
      ensures fetchedAt == savedAt || fetchedAt.None?
    {
      var readable: bool := *;
      fetchedAt := if readable then savedAt else None;
      ledgerError := *;
    }

    /** The attempt itself, once a reservation for it has been committed. */
    method Fetch(now: real) returns (updated: bool)
      requires ledger.Valid() && ledger.interval == refresh && ledger.clock == now && fetches < |ledger.grants|
      modifies this, ledger`row, ledger`clock, ledger`barriers
      ensures Valid() && ledger.clock == now && old(fetches) <= fetches <= old(fetches) + 1
      ensures updated ==> fetches == old(fetches) + 1 && fetchedAt == Some(now)
      ensures !updated ==> Remembered(old(fetchedAt))
      ensures savedAt == old(savedAt) || (savedAt == Some(now) && fetches == old(fetches) + 1)
    {
      var dies: bool := *;
      if dies {
        Restart();
        return false;
      }
      fetches := fetches + 1;
      var reply: Fetched := *;
      dies := *;
      if dies {
        Restart();
        return false;
      }
      match reply
      case Data => updated := Keep(now);
      case Failed(status, retryAfter) =>
        var broken: bool := *;
        ledgerError := broken;
        if !broken {
          var marked := ledger.MarkFailure(now, if IsFailure(status) then status else ProviderError, retryAfter);
        }
        return false;
    }

    /** New data is cached, saved if the disk allows it, and the ledger told. */
    method Keep(now: real) returns (updated: bool)
      requires Valid() && ledger.clock == now
      modifies `fetchedAt, `savedAt, `ledgerError, ledger`row, ledger`clock
      ensures Valid() && ledger.clock == now
      ensures updated ==> fetchedAt == Some(now)
      ensures !updated ==> Remembered(old(fetchedAt))
      ensures savedAt == old(savedAt) || savedAt == Some(now)
    {
      fetchedAt := Some(now);
      var saves: bool := *;
      if saves {
        savedAt := Some(now);
      }
      var dies: bool := *;
      if dies {
        Restart();
        return false;
      }
      var broken: bool := *;
      ledgerError := broken;
      if !broken {
        ledger.MarkSuccess(now);
      }
      return true;
    }
  }

  /** A 503 that asks for two hours, on a first failure of a ledger that refreshes
      every 300 s: the next grant is due after 300 s. */
  method UnavailableAsksForTwoHours(month: real -> int, now: real) returns (ledger: QuotaLedger)
    requires Monotone(month) && now >= 0.0
    ensures ledger.Valid() && ledger.row.Some? && ledger.row.value.status.ProviderError?
    ensures ledger.row.value.nextAllowed == now + 300.0 < now + 7200.0
  {
    ledger := new QuotaLedger(month, 28, 9600, 300, now);
    var granted := ledger.Reserve(now);
    var marked := ledger.MarkFailure(now, ProviderError, Some(7200));
  }
}

/** The `EmploymentVerification` record of verification/models.py: its
    fields and defaults, the table that stores it keyed by its unique token,
    and the business-day expiry rule of `is_token_expired`. */
module Models {
  import opened Wrappers
  import opened JsonValues
  import opened Calendar

  /** The three `STATUS_CHOICES`. */
  datatype Status = Pending | Verified | NotVerified

  /** The value stored in the `status` column for each choice. */
  function StatusName(s: Status): (name: string)
    ensures name in {"pending", "verified", "not_verified"}
  {
    match s
    case Pending => "pending"
    case Verified => "verified"
    case NotVerified => "not_verified"
  }

  /** One stored row of the table. */
  datatype VerificationRow = VerificationRow(
    token: string,
    status: Status,
    createdAt: Instant,
    isVerified: bool,
    verifiedAt: Option<Instant>,
    verificationData: Json)

  /** Every row of the table still has the status it was created with. */
  predicate AllPending(rows: map<string, VerificationRow>) {
    forall t :: t in rows ==> rows[t].status == Pending
  }

  /** A freshly created row: `status` defaults to pending, `is_verified` to
      false, `verified_at` to null and `created_at` to the creation instant. */
  function NewRow(token: string, createdAt: Instant, data: Json): VerificationRow {
    VerificationRow(token, Pending, createdAt, false, None, data)
  }

  // ---------------------------------------------------------------------
  // Business-day expiry
  // ---------------------------------------------------------------------

  /** The number of Monday-to-Friday days counted before a token expires. */
  const WorkingDaysToExpiry: nat := 3

  /** How many of the k calendar days after `c` (the days c+1 .. c+k, each at
      the time of day of `c`) fall on Monday to Friday. */
  function BusinessDaysWithin(c: Instant, k: nat): (n: nat)
    ensures n <= k
  {
    if k == 0 then 0
    else BusinessDaysWithin(c, k - 1) + (if IsBusinessDay(AddDays(c, k)) then 1 else 0)
  }

  /** Reference table: the number of calendar days from creation to expiry,
      by the weekday of creation (Monday = 0). Monday and Tuesday reach the
      third working day without a weekend; Saturday and Sunday start counting
      on the coming Monday; Wednesday to Friday skip one weekend. */
  function DaysToExpiry(createdWeekday: int): nat
    requires 0 <= createdWeekday < 7
  {
    match createdWeekday
    case 0 => 3
    case 1 => 3
    case 2 => 5
    case 3 => 5
    case 4 => 5
    case 5 => 4
    case 6 => 3
  }

  /** The instant at which an undecided token created at `c` expires. */
  function ExpirationInstant(c: Instant): Instant {
    AddDays(c, DaysToExpiry(Weekday(c)))
  }

  /** What `is_token_expired` answers for a row at instant `now`. */
  predicate IsExpired(r: VerificationRow, now: Instant) {
    r.verifiedAt.None? && now > ExpirationInstant(r.createdAt)
  }

  /** The working days among the k days after a day of weekday w, counted
      on weekday numbers alone. */
  function WeekdaysAfter(w: int, k: nat): nat {
    if k == 0 then 0
    else WeekdaysAfter(w, k - 1) + (if (w + k) % 7 < 5 then 1 else 0)
  }

  lemma {:induction false} BusinessDaysByWeekday(c: Instant, k: nat)
    ensures BusinessDaysWithin(c, k) == WeekdaysAfter(Weekday(c), k)
  {
    if k > 0 {
      BusinessDaysByWeekday(c, k - 1);
      AddDaysShiftsCalendar(c, k);
    }
  }

  /** The expiry instant is the first instant, stepping one calendar day at
      a time from creation, at which three working days have been counted:
      it lies 3 to 5 whole days after creation, at the same time of day, on
      a weekday, exactly three working days lie in (created, expiry], and
      fewer than three lie in any shorter window. */
  lemma {:induction false} ExpirationIsThirdBusinessDay(c: Instant)
    ensures 3 <= DaysToExpiry(Weekday(c)) <= 5
    ensures BusinessDaysWithin(c, DaysToExpiry(Weekday(c))) == WorkingDaysToExpiry
    ensures forall k: nat :: k < DaysToExpiry(Weekday(c)) ==> BusinessDaysWithin(c, k) < WorkingDaysToExpiry
    ensures IsBusinessDay(ExpirationInstant(c))
    ensures TimeOfDay(ExpirationInstant(c)) == TimeOfDay(c)
    ensures ExpirationInstant(c) > c
  {
    var w := Weekday(c);
    var d := DaysToExpiry(w);
    BusinessDaysByWeekday(c, d);
    BusinessDaysByWeekday(c, d - 1);
    AddDaysShiftsCalendar(c, d);
    CountsBeforeExpiry(w);
    forall k: nat | k < d
      ensures BusinessDaysWithin(c, k) < WorkingDaysToExpiry
    {
      BusinessDaysMonotone(c, k, d - 1);
    }
  }

  lemma CountsBeforeExpiry(w: int)
    requires 0 <= w < 7
    ensures WeekdaysAfter(w, DaysToExpiry(w)) == 3
    ensures WeekdaysAfter(w, DaysToExpiry(w) - 1) == 2
    ensures (w + DaysToExpiry(w)) % 7 < 5
  {
    match w
    case 0 => assert WeekdaysAfter(0, 3) == 3;
    case 1 => assert WeekdaysAfter(1, 3) == 3;
    case 2 => assert WeekdaysAfter(2, 5) == 3;
    case 3 => assert WeekdaysAfter(3, 5) == 3;
    case 4 => assert WeekdaysAfter(4, 5) == 3;
    case 5 => assert WeekdaysAfter(5, 4) == 3;
    case 6 => assert WeekdaysAfter(6, 3) == 3;
  }

  lemma {:induction false} BusinessDaysMonotone(c: Instant, j: nat, k: nat)
    requires j <= k
    ensures BusinessDaysWithin(c, j) <= BusinessDaysWithin(c, k)
    decreases k - j
  {
    if j < k {
      BusinessDaysMonotone(c, j, k - 1);
    }
  }

  /** A token created on a Thursday expires the following Tuesday at the
      same time of day: Friday, Monday and Tuesday are counted, the weekend
      in between is not. */
  lemma ThursdayExpiresNextTuesday(c: Instant)
    requires Weekday(c) == 3
    ensures ExpirationInstant(c) == AddDays(c, 5)
    ensures Weekday(ExpirationInstant(c)) == 1
    ensures TimeOfDay(ExpirationInstant(c)) == TimeOfDay(c)
  {
    AddDaysShiftsCalendar(c, 5);
  }

  /** A decided token (confirmed or denied after a confirmation, so that
      `verified_at` is set) never expires. */
  lemma DecidedTokenNeverExpires(r: VerificationRow, now: Instant)
    requires r.verifiedAt.Some?
    ensures !IsExpired(r, now)
  {
  }

  /** The comparison with `now` is strict: at the expiry instant itself the
      token is still valid, one microsecond later it is expired. */
  lemma ExpiryIsStrict(r: VerificationRow)
    requires r.verifiedAt.None?
    ensures !IsExpired(r, ExpirationInstant(r.createdAt))
    ensures IsExpired(r, ExpirationInstant(r.createdAt) + 1)
  {
  }

  /** Once expired, a token stays expired at every later instant. */
  lemma ExpiryIsMonotone(r: VerificationRow, now: Instant, later: Instant)
    requires IsExpired(r, now) && now <= later
    ensures IsExpired(r, later)
  {
  }

  /** A new row is pending, undecided, and stays valid for at least three
      whole days after its creation. */
  lemma {:induction false} NewRowIsPendingAndValidForThreeDays(token: string, c: Instant, data: Json, now: Instant)
    requires now <= AddDays(c, 3)
    ensures NewRow(token, c, data).status == Pending && !NewRow(token, c, data).isVerified
    ensures !IsExpired(NewRow(token, c, data), now)
  {
    ExpirationIsThirdBusinessDay(c);
  }

  // ---------------------------------------------------------------------
  // The table and the model instance
  // ---------------------------------------------------------------------

  /** The `EmploymentVerification` table: rows keyed by their unique token. */
  class VerificationTable {
    var rows: map<string, VerificationRow>

    /** Every row is stored under its own token. */
    ghost predicate Valid()
      reads this
    {
      forall t :: t in rows ==> rows[t].token == t
    }

    constructor ()
      ensures Valid() && rows == map[]
    {
      rows := map[];
    }

    /** `EmploymentVerification.objects.get(token=token)`: a fresh model
        instance loaded from the row with that token, or `DoesNotExist`
        (None). A missing query parameter matches no row. */
    method Get(token: Option<string>) returns (v: Option<EmploymentVerification>)
      ensures v.None? <==> (token.None? || token.value !in rows)
      ensures v.Some? ==> fresh(v.value) && v.value.Row() == rows[token.value]
    {
      if token.Some? && token.value in rows {
        var instance := new EmploymentVerification.FromRow(rows[token.value]);
        v := Some(instance);
      } else {
        v := None;
      }
    }

    /** `EmploymentVerification.objects.create(token=..., status="pending",
        is_verified=False, verification_data=...)`: inserts a new row, or
        fails on the unique constraint when the token is already stored. */
    method Create(token: string, createdAt: Instant, data: Json) returns (created: bool)
      requires Valid()
      modifies this
      ensures Valid()
      ensures created <==> token !in old(rows)
      ensures rows == if created then old(rows)[token := NewRow(token, createdAt, data)] else old(rows)
    {
      created := token !in rows;
      if created {
        rows := rows[token := NewRow(token, createdAt, data)];
      }
    }
  }

  /** A model instance: the fields of one row, loaded into memory, updated in
      place by the views and written back by `save`. */
  class EmploymentVerification {
    var token: string
    var status: Status
    var createdAt: Instant
    var isVerified: bool
    var verifiedAt: Option<Instant>
    var verificationData: Json

    constructor FromRow(r: VerificationRow)
      ensures Row() == r
    {
      token := r.token;
      status := r.status;
      createdAt := r.createdAt;
      isVerified := r.isVerified;
      verifiedAt := r.verifiedAt;
      verificationData := r.verificationData;
    }

    /** The row these fields would be saved as. */
    function Row(): VerificationRow
      reads this
    {
      VerificationRow(token, status, createdAt, isVerified, verifiedAt, verificationData)
    }

    /** `is_token_expired`: false once `verified_at` is set; otherwise steps
        one calendar day at a time from `created_at` until three Monday to
        Friday days have been counted and compares `now` strictly with the
        instant reached. The clock reading `now` is a parameter. */
    method IsTokenExpired(now: Instant) returns (expired: bool)
      ensures expired == IsExpired(Row(), now)
    {
      if verifiedAt.Some? {
        return false;
      }
      var expirationDate := createdAt;
      var daysCounted := 0;
      ghost var steps: nat := 0;
      ghost var total := DaysToExpiry(Weekday(createdAt));
      ExpirationIsThirdBusinessDay(createdAt);
      while daysCounted < 3
        invariant steps <= total
        invariant expirationDate == AddDays(createdAt, steps)
        invariant daysCounted == BusinessDaysWithin(createdAt, steps)
        decreases total - steps
      {
        expirationDate := expirationDate + MicrosPerDay;
        steps := steps + 1;
        if Weekday(expirationDate) < 5 {
          daysCounted := daysCounted + 1;
        }
      }
      expired := now > expirationDate;
    }

    /** `save`: the override only calls the base save, which writes exactly
        these fields to the row with this token and touches no other row. */
    method Save(db: VerificationTable)
      requires db.Valid()
      modifies db
      ensures db.Valid()
      ensures db.rows == old(db.rows)[token := Row()]
    {
      db.rows := db.rows[token := Row()];
    }
  }
}

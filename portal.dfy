/**
 * The per-client helpers of the client portal page
 * (app/dashboard/portal/page.tsx): a client is a phone number, and its jobs,
 * calls, revenue, invoices, payments and reviews are selections of the
 * dashboard's jobs and calls by exact phone-number match. Also the two
 * display helpers of the page, for phone numbers and call durations.
 */
module Portal {
  import opened Seqs
  import opened Text
  import opened DashboardTypes

  // ---------------------------------------------------------------------------
  // Selections and sums

  /** `getClientJobs`: the client's jobs, in dashboard order. */
  function ClientJobs(jobs: seq<Job>, phone: string): (mine: seq<Job>)
    ensures |mine| <= |jobs|
    ensures forall j {:trigger j in mine} :: j in mine <==> j in jobs && j.phoneNumber == phone
  {
    JobsOf(jobs, phone)
  }

  /** `getClientCalls`: the client's calls, in dashboard order. */
  function ClientCalls(calls: seq<Call>, phone: string): (mine: seq<Call>)
    ensures |mine| <= |calls|
    ensures forall c {:trigger c in mine} :: c in mine <==> c in calls && c.phoneNumber == phone
  {
    CallsOf(calls, phone)
  }

  /** The client's selections take the dashboard lists in order: one more job or call extends them only when it is the client's. */
  lemma ClientSelectionsInOrder(jobs: seq<Job>, j: Job, calls: seq<Call>, c: Call, phone: string)
    ensures ClientJobs([], phone) == [] && ClientCalls([], phone) == []
    ensures ClientJobs(jobs + [j], phone) == ClientJobs(jobs, phone) + if j.phoneNumber == phone then [j] else []
    ensures ClientCalls(calls + [c], phone) == ClientCalls(calls, phone) + if c.phoneNumber == phone then [c] else []
  {
    assert (jobs + [j])[..|jobs|] == jobs;
    CallsOfSnoc(calls, c, phone);
  }

  function Price(j: Job): int {
    j.price
  }

  /** `getClientRevenue`: the prices of the client's jobs, added up from 0. */
  function ClientRevenue(jobs: seq<Job>, phone: string): (total: int)
    ensures ClientJobs(jobs, phone) == [] ==> total == 0
  {
    SumOf(ClientJobs(jobs, phone), Price)
  }

  /** `getClientPayments`: the client's paid jobs, in dashboard order. */
  function ClientPayments(jobs: seq<Job>, phone: string): (paid: seq<Job>)
    ensures |paid| <= |ClientJobs(jobs, phone)|
    ensures forall j {:trigger j in paid} :: j in paid <==> j in jobs && j.phoneNumber == phone && j.paid
  {
    var keep := (j: Job) => j.paid;
    FilterMembershipAll(ClientJobs(jobs, phone), keep);
    Filter(ClientJobs(jobs, phone), keep)
  }

  /** `getClientPaid`: the prices of the client's paid jobs, added up from 0. */
  function ClientPaid(jobs: seq<Job>, phone: string): (total: int)
    ensures ClientPayments(jobs, phone) == [] ==> total == 0
  {
    SumOf(ClientPayments(jobs, phone), Price)
  }

  /** `getClientInvoices`: the client's jobs whose invoice was sent, in dashboard order. */
  function ClientInvoices(jobs: seq<Job>, phone: string): (invoiced: seq<Job>)
    ensures |invoiced| <= |ClientJobs(jobs, phone)|
    ensures forall j {:trigger j in invoiced} :: j in invoiced <==> j in jobs && j.phoneNumber == phone && j.invoiceSent == Some(true)
  {
    var keep := (j: Job) => j.invoiceSent == Some(true);
    FilterMembershipAll(ClientJobs(jobs, phone), keep);
    Filter(ClientJobs(jobs, phone), keep)
  }

  /** `getClientReviews`: the client's jobs that received a review, in dashboard order. */
  function ClientReviews(jobs: seq<Job>, phone: string): (reviewed: seq<Job>)
    ensures |reviewed| <= |ClientJobs(jobs, phone)|
    ensures forall j {:trigger j in reviewed} :: j in reviewed <==> j in jobs && j.phoneNumber == phone && j.reviewReceived == Some(true)
  {
    var keep := (j: Job) => j.reviewReceived == Some(true);
    FilterMembershipAll(ClientJobs(jobs, phone), keep);
    Filter(ClientJobs(jobs, phone), keep)
  }

  /**
   * The payments, invoices and reviews of a client are one filter over the
   * dashboard's jobs: the jobs with the client's number and the flag, in
   * dashboard order.
   */
  lemma FlagListsAreSingleFilters(jobs: seq<Job>, phone: string)
    ensures ClientPayments(jobs, phone) == Filter(jobs, (j: Job) => j.phoneNumber == phone && j.paid)
    ensures ClientInvoices(jobs, phone) == Filter(jobs, (j: Job) => j.phoneNumber == phone && j.invoiceSent == Some(true))
    ensures ClientReviews(jobs, phone) == Filter(jobs, (j: Job) => j.phoneNumber == phone && j.reviewReceived == Some(true))
  {
    var mine := (j: Job) => j.phoneNumber == phone;
    FilterFilter(jobs, mine, (j: Job) => j.paid, (j: Job) => j.phoneNumber == phone && j.paid);
    FilterFilter(jobs, mine, (j: Job) => j.invoiceSent == Some(true),
                 (j: Job) => j.phoneNumber == phone && j.invoiceSent == Some(true));
    FilterFilter(jobs, mine, (j: Job) => j.reviewReceived == Some(true),
                 (j: Job) => j.phoneNumber == phone && j.reviewReceived == Some(true));
  }

  /** The client's revenue is what was paid plus what is still open. */
  lemma RevenueIsPaidPlusOpen(jobs: seq<Job>, phone: string)
    ensures ClientRevenue(jobs, phone)
      == ClientPaid(jobs, phone) + SumOf(Filter(ClientJobs(jobs, phone), (j: Job) => !j.paid), Price)
  {
    SumSplit(ClientJobs(jobs, phone), (j: Job) => j.paid, (j: Job) => !j.paid, Price);
  }

  /** With prices that are not negative, the client never paid more than the revenue, nor less than nothing. */
  lemma PaidAtMostRevenue(jobs: seq<Job>, phone: string)
    requires forall i :: 0 <= i < |jobs| ==> jobs[i].price >= 0
    ensures 0 <= ClientPaid(jobs, phone) <= ClientRevenue(jobs, phone)
  {
    var mine := ClientJobs(jobs, phone);
    forall i | 0 <= i < |mine| ensures Price(mine[i]) >= 0 {
      assert mine[i] in mine;
    }
    SumFilterAtMost(mine, (j: Job) => j.paid, Price);
    var paid := ClientPayments(jobs, phone);
    forall i | 0 <= i < |paid| ensures Price(paid[i]) >= 0 {
      assert paid[i] in paid;
    }
    SumNonNegative(paid, Price);
  }

  /** Revenue is additive over the dashboard's job list. */
  lemma RevenueAppend(a: seq<Job>, b: seq<Job>, phone: string)
    ensures ClientRevenue(a + b, phone) == ClientRevenue(a, phone) + ClientRevenue(b, phone)
  {
    FilterAppend(a, b, (j: Job) => j.phoneNumber == phone);
    SumAppend(ClientJobs(a, phone), ClientJobs(b, phone), Price);
  }

  // ---------------------------------------------------------------------------
  // Call durations

  /** JavaScript's `a % d` for d > 0: the remainder takes the sign of a. */
  function JsRemainder(a: int, d: int): (r: int)
    requires d > 0
    ensures -d < r < d
    ensures a >= 0 ==> r >= 0
    ensures a < 0 ==> r <= 0
    ensures a == d * (if a >= 0 then a / d else -((-a) / d)) + r
  {
    if a >= 0 then a % d else -((-a) % d)
  }

  /**
   * `formatDuration`: the minutes `Math.floor(seconds / 60)`, a colon, then
   * the remainder `seconds % 60` left-padded with '0' to two characters.
   */
  function FormatDuration(seconds: int): (r: string)
    ensures |r| >= 4
  {
    var mins := seconds / 60;
    var secs := JsRemainder(seconds, 60);
    IntToString(mins) + ":" + PadStart(IntToString(secs), 2, '0')
  }

  /** Two digits, with a leading '0' below ten, read back as the number they pad. */
  lemma PaddedSeconds(secs: nat)
    requires secs < 60
    ensures var t := PadStart(IntToString(secs), 2, '0');
      |t| == 2 && AllDigits(t) && ParseNat(t) == secs
  {
    var s := IntToString(secs);
    var t := PadStart(s, 2, '0');
    ParseNatToString(secs);
    if secs < 10 {
      assert t == ['0'] + s;
      assert t[..1] == ['0'];
      assert t[..1][..0] == [];
    } else {
      assert t == s;
    }
  }

  /** A text of the form "m:ss": digits, a colon, then two digits. */
  predicate IsMinutesSeconds(r: string) {
    |r| >= 4 && r[|r| - 3] == ':' && AllDigits(r[..|r| - 3]) && AllDigits(r[|r| - 2..])
  }

  /** The number of seconds a text "m:ss" stands for. */
  function ReadDuration(r: string): int
    requires IsMinutesSeconds(r)
  {
    ParseNat(r[..|r| - 3]) * 60 + ParseNat(r[|r| - 2..])
  }

  /**
   * For a duration that is not negative the text reads back: the part before
   * the last three characters is the minutes, then a colon, then two digits
   * below 60, and minutes * 60 + seconds is the duration.
   */
  lemma FormatDurationReadsBack(seconds: nat)
    ensures IsMinutesSeconds(FormatDuration(seconds))
    ensures var r := FormatDuration(seconds); ParseNat(r[|r| - 2..]) < 60
    ensures ReadDuration(FormatDuration(seconds)) == seconds
  {
    var m := IntToString(seconds / 60);
    var t := PadStart(IntToString(seconds % 60), 2, '0');
    PaddedSeconds(seconds % 60);
    ParseNatToString(seconds / 60);
    assert FormatDuration(seconds) == m + ":" + t;
    SplitAtColon(m, t);
  }

  /** A text ending in a colon and two characters splits back into its two parts. */
  lemma SplitAtColon(m: string, t: string)
    requires |t| == 2
    ensures var r := m + ":" + t;
      && r[|r| - 3] == ':' && r[..|r| - 3] == m && r[|r| - 2..] == t
  {
  }

  /** Durations that are not negative render differently when they differ. */
  lemma FormatDurationInjective(a: nat, b: nat)
    requires FormatDuration(a) == FormatDuration(b)
    ensures a == b
  {
    FormatDurationReadsBack(a);
    FormatDurationReadsBack(b);
  }

  /** 420 seconds show as "7:00", 65 as "1:05"; -5 shows as "-1:-5", since the minutes round down and the remainder keeps the sign. */
  lemma FormatDurationExamples()
    ensures FormatDuration(420) == "7:00"
    ensures FormatDuration(65) == "1:05"
    ensures FormatDuration(-5) == "-1:-5"
  {
    assert IntToString(7) == "7" && IntToString(0) == "0";
    assert PadStart("0", 2, '0') == "00";
    assert IntToString(1) == "1" && IntToString(5) == "5";
    assert PadStart("5", 2, '0') == "05";
    assert IntToString(-1) == "-1" && IntToString(-5) == "-5";
  }

  // ---------------------------------------------------------------------------
  // Phone numbers

  /** Ten decimal digits start at position i of s. */
  predicate DigitRunAt(s: string, i: nat) {
    i + 10 <= |s| && AllDigits(s[i..i + 10])
  }

  /** The leftmost run of ten digits at or after position from, as the regular expression engine finds it. */
  function FirstDigitRun(s: string, from: nat): (r: Option<nat>)
    requires from <= |s|
    ensures r.Some? ==> from <= r.value && DigitRunAt(s, r.value)
    ensures r.Some? ==> forall k :: from <= k < r.value ==> !DigitRunAt(s, k)
    ensures r.None? ==> forall k :: from <= k <= |s| ==> !DigitRunAt(s, k)
    decreases |s| - from
  {
    if from + 10 > |s| then None
    else if DigitRunAt(s, from) then Some(from)
    else FirstDigitRun(s, from + 1)
  }

  /**
   * `formatPhone`: the leftmost run of ten digits d0..d9 is replaced by
   * "(d0d1d2) d3d4d5-d6d7d8d9"; a string without such a run is unchanged.
   */
  function FormatPhone(phone: string): (r: string)
    ensures FirstDigitRun(phone, 0).None? ==> r == phone
    ensures FirstDigitRun(phone, 0).Some? ==> |r| == |phone| + 4
  {
    match FirstDigitRun(phone, 0)
    case None => phone
    case Some(i) =>
      phone[..i] + "(" + phone[i..i + 3] + ") " + phone[i + 3..i + 6] + "-" + phone[i + 6..i + 10] + phone[i + 10..]
  }

  /** A ten-digit number d0..d9 is shown as "(d0d1d2) d3d4d5-d6d7d8d9". */
  lemma FormatTenDigits(phone: string)
    requires |phone| == 10 && AllDigits(phone)
    ensures FormatPhone(phone) == "(" + phone[..3] + ") " + phone[3..6] + "-" + phone[6..]
  {
    assert DigitRunAt(phone, 0) by {
      assert phone[0..10] == phone;
    }
  }

  /** The text changes exactly when it holds a run of ten digits. */
  lemma FormatPhoneChangesIffRun(phone: string)
    ensures FormatPhone(phone) != phone <==> exists k :: 0 <= k <= |phone| && DigitRunAt(phone, k)
  {
    if FirstDigitRun(phone, 0).Some? {
      assert DigitRunAt(phone, FirstDigitRun(phone, 0).value);
    }
  }

  /** Formatting only inserts punctuation: the digits, in order, are those of the input. */
  lemma FormatPhoneKeepsDigits(phone: string)
    ensures Filter(FormatPhone(phone), IsDigit) == Filter(phone, IsDigit)
  {
    match FirstDigitRun(phone, 0)
    case None =>
    case Some(i) =>
      var a, b, c, d, e := phone[..i], phone[i..i + 3], phone[i + 3..i + 6], phone[i + 6..i + 10], phone[i + 10..];
      assert phone == a + b + c + d + e;
      assert FormatPhone(phone) == a + "(" + b + ") " + c + "-" + d + e;
      DigitsOfPunctuated(a, b, c, d, e);
      DigitsOfPieces(a, b, c, d, e);
  }

  /** The digits of the formatted pieces are the digits of the pieces. */
  lemma DigitsOfPunctuated(a: string, b: string, c: string, d: string, e: string)
    ensures Filter(a + "(" + b + ") " + c + "-" + d + e, IsDigit)
      == Filter(a, IsDigit) + Filter(b, IsDigit) + Filter(c, IsDigit) + Filter(d, IsDigit) + Filter(e, IsDigit)
  {
    SkipPunctuation(a, "(", b);
    SkipPunctuation(a + "(" + b, ") ", c);
    SkipPunctuation(a + "(" + b + ") " + c, "-", d);
    FilterAppend(a + "(" + b + ") " + c + "-" + d, e, IsDigit);
  }

  /** The digits of five pieces put together are the digits of each piece, in order. */
  lemma DigitsOfPieces(a: string, b: string, c: string, d: string, e: string)
    ensures Filter(a + b + c + d + e, IsDigit)
      == Filter(a, IsDigit) + Filter(b, IsDigit) + Filter(c, IsDigit) + Filter(d, IsDigit) + Filter(e, IsDigit)
  {
    FilterAppend(a + b + c + d, e, IsDigit);
    FilterAppend(a + b + c, d, IsDigit);
    FilterAppend(a + b, c, IsDigit);
    FilterAppend(a, b, IsDigit);
  }

  /** Text without digits between two pieces leaves no digit of its own. */
  lemma SkipPunctuation(x: string, p: string, y: string)
    requires forall i :: 0 <= i < |p| ==> !IsDigit(p[i])
    ensures Filter(x + p + y, IsDigit) == Filter(x, IsDigit) + Filter(y, IsDigit)
  {
    FilterDropsAll(p, IsDigit);
    FilterAppend(x, p, IsDigit);
    assert Filter(x + p, IsDigit) == Filter(x, IsDigit) + [];
    assert Filter(x, IsDigit) + [] == Filter(x, IsDigit);
    FilterAppend(x + p, y, IsDigit);
  }
}

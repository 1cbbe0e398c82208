/**
 * The live path of the dashboard: turning the rows of the three store
 * queries into jobs, calls and per-caller profiles, and computing the live
 * counters. The grouping of calls and messages into caller profiles is
 * specified by functions (Phones, ProfileOf, GroupProfiles) and carried out
 * step by step, over an insertion-ordered table, by the method BuildProfiles.
 */
module LiveData {
  import opened Seqs
  import opened Text
  import opened DashboardTypes

  /** A row of the jobs query (a job joined with its customer). */
  datatype JobRow = JobRow(
    id: int,
    title: string,
    date: string,
    status: JobStatus,
    clientName: string,
    cleaningTeam: Option<seq<string>>,
    booked: bool,
    paid: bool,
    price: Option<int>,     // None: NULL, or text that does not read as a number
    phoneNumber: string)

  /** A row of the calls query (a call joined with its customer). */
  datatype CallRow = CallRow(
    id: int,
    phoneNumber: string,
    callerName: string,
    date: DateTime,
    durationSeconds: Option<int>,
    audioUrl: Option<string>,
    transcript: Option<string>,
    outcome: Option<CallOutcome>)

  /** A row of the messages query (a message joined with its customer). */
  datatype MessageRow = MessageRow(phoneNumber: string, role: Role, content: string, timestamp: string)

  /**
   * What the store gives the live path: no connection string configured,
   * a query (or the mapping of its rows) that failed, or the rows of the
   * three queries in the order the store returned them.
   */
  datatype StoreReply =
    | Unconfigured
    | QueryFailed
    | Fetched(jobRows: seq<JobRow>, callRows: seq<CallRow>, messageRows: seq<MessageRow>)

  // ---------------------------------------------------------------------------
  // Row mapping

  /** A job row as a Job: missing numbers become 0, a missing team the empty list. */
  function ToJob(row: JobRow): (j: Job)
    ensures j.id == IntToString(row.id) && j.phoneNumber == row.phoneNumber && j.client == row.clientName
    ensures j.title == row.title && j.date == row.date && j.status == row.status
    ensures j.booked == row.booked && j.paid == row.paid
    ensures row.price.None? ==> j.price == 0
    ensures row.price.Some? ==> j.price == row.price.value
    ensures row.cleaningTeam.None? ==> j.cleaningTeam == []
    ensures row.cleaningTeam.Some? ==> j.cleaningTeam == row.cleaningTeam.value
    ensures j.callDurationSeconds == 0
    ensures j.invoiceSent.None? && j.invoiceDate.None? && j.paymentDate.None?
    ensures j.reviewReceived.None? && j.reviewRating.None? && j.reviewText.None?
  {
    Job(IntToString(row.id), row.title, row.date, row.status, row.clientName,
        if row.cleaningTeam.Some? then row.cleaningTeam.value else [],
        0, row.booked, row.paid,
        if row.price.Some? then row.price.value else 0,
        row.phoneNumber, None, None, None, None, None, None)
  }

  /** A call row as a Call: a missing duration becomes 0. */
  function ToCall(row: CallRow): (c: Call)
    ensures c.id == IntToString(row.id) && c.phoneNumber == row.phoneNumber
    ensures c.callerName == row.callerName && c.date == row.date
    ensures c.audioUrl == row.audioUrl && c.transcript == row.transcript && c.outcome == row.outcome
    ensures row.durationSeconds.None? ==> c.durationSeconds == 0
    ensures row.durationSeconds.Some? ==> c.durationSeconds == row.durationSeconds.value
  {
    Call(IntToString(row.id), row.phoneNumber, row.callerName, row.date,
         if row.durationSeconds.Some? then row.durationSeconds.value else 0,
         row.audioUrl, row.transcript, row.outcome)
  }

  /** A message row without its phone number. */
  function ToMessage(row: MessageRow): (m: Message)
    ensures m.role == row.role && m.content == row.content && m.timestamp == row.timestamp
  {
    Message(row.role, row.content, row.timestamp)
  }

  function ToJobs(rows: seq<JobRow>): (jobs: seq<Job>)
    ensures |jobs| == |rows|
    ensures forall i :: 0 <= i < |rows| ==> jobs[i] == ToJob(rows[i])
  {
    seq(|rows|, i requires 0 <= i < |rows| => ToJob(rows[i]))
  }

  function ToCalls(rows: seq<CallRow>): (calls: seq<Call>)
    ensures |calls| == |rows|
    ensures forall i :: 0 <= i < |rows| ==> calls[i] == ToCall(rows[i])
  {
    seq(|rows|, i requires 0 <= i < |rows| => ToCall(rows[i]))
  }

  // ---------------------------------------------------------------------------
  // Specification of the grouping into caller profiles

  /** The phone numbers of the calls, each taken at its first appearance. */
  function Phones(calls: seq<Call>): (ps: seq<string>)
    ensures forall j :: 0 <= j < |calls| ==> calls[j].phoneNumber in ps
    ensures forall i, k :: 0 <= i < k < |ps| ==> ps[i] != ps[k]
    decreases |calls|
  {
    if |calls| == 0 then []
    else
      var init := calls[..|calls| - 1];
      var ps := Phones(init);
      var p := calls[|calls| - 1].phoneNumber;
      assert forall j :: 0 <= j < |init| ==> init[j] == calls[j];
      if p in ps then ps else ps + [p]
  }

  lemma PhonesSnoc(s: seq<Call>, c: Call)
    ensures Phones(s + [c]) == if c.phoneNumber in Phones(s) then Phones(s) else Phones(s) + [c.phoneNumber]
  {
    assert (s + [c])[..|s|] == s;
  }

  /** Phones lists every phone number that has a call, and no other, each exactly once. */
  lemma {:induction false} PhonesAreDistinctCallNumbers(calls: seq<Call>)
    ensures forall p :: p in Phones(calls) <==> CallsOf(calls, p) != []
    ensures forall i, j :: 0 <= i < j < |Phones(calls)| ==> Phones(calls)[i] != Phones(calls)[j]
    decreases |calls|
  {
    if |calls| > 0 {
      var init := calls[..|calls| - 1];
      var c := calls[|calls| - 1];
      PhonesAreDistinctCallNumbers(init);
      assert calls == init + [c];
      forall q ensures CallsOf(calls, q) == CallsOf(init, q) + (if q == c.phoneNumber then [c] else []) {
        CallsOfSnoc(init, c, q);
      }
    }
  }

  /**
   * The position of the latest call: no call is later, and every call
   * before it is strictly earlier (on equal instants the first one seen wins).
   */
  function LatestIndex(calls: seq<Call>): (k: nat)
    requires |calls| > 0
    ensures k < |calls|
    ensures forall j :: 0 <= j < |calls| ==> calls[j].date.instant <= calls[k].date.instant
    ensures forall j :: 0 <= j < k ==> calls[j].date.instant < calls[k].date.instant
    decreases |calls|
  {
    if |calls| == 1 then 0
    else
      var k := LatestIndex(calls[..|calls| - 1]);
      if calls[|calls| - 1].date.instant > calls[k].date.instant then |calls| - 1 else k
  }

  /** Whether a message row was sent from phone number p. */
  function SentFrom(p: string): MessageRow -> bool {
    (row: MessageRow) => row.phoneNumber == p
  }

  /**
   * The messages of phone number p, in input order, without their phone
   * number: the k-th is the k-th row sent from p.
   */
  function MessagesFor(rows: seq<MessageRow>, p: string): (ms: seq<Message>)
    ensures |ms| == |Filter(rows, SentFrom(p))|
    ensures forall k :: 0 <= k < |ms| ==> ms[k] == ToMessage(Filter(rows, SentFrom(p))[k])
    decreases |rows|
  {
    if |rows| == 0 then []
    else
      var last := rows[|rows| - 1];
      MessagesFor(rows[..|rows| - 1], p) + if last.phoneNumber == p then [ToMessage(last)] else []
  }

  /**
   * The profile of phone number p: its calls in input order and their count,
   * the caller name of its first call, the date of its latest call (the
   * first seen on equal instants), and its messages.
   */
  function ProfileOf(calls: seq<Call>, rows: seq<MessageRow>, p: string): (r: CallerProfile)
    requires CallsOf(calls, p) != []
    ensures r.phoneNumber == p && r.calls == CallsOf(calls, p) && r.totalCalls == |r.calls|
    ensures r.callerName == r.calls[0].callerName
    ensures r.lastCallDate == r.calls[LatestIndex(r.calls)].date
    ensures r.messages == MessagesFor(rows, p)
  {
    var mine := CallsOf(calls, p);
    CallerProfile(p, mine[0].callerName, |mine|, MessagesFor(rows, p), mine[LatestIndex(mine)].date, mine)
  }

  /** The profiles of the phone numbers ps, in the order of ps. */
  function ProfilesFor(calls: seq<Call>, rows: seq<MessageRow>, ps: seq<string>): (profiles: seq<CallerProfile>)
    requires forall p :: p in ps ==> CallsOf(calls, p) != []
    ensures |profiles| == |ps|
    ensures forall i :: 0 <= i < |ps| ==> profiles[i] == ProfileOf(calls, rows, ps[i])
    decreases |ps|
  {
    if |ps| == 0 then []
    else ProfilesFor(calls, rows, ps[..|ps| - 1]) + [ProfileOf(calls, rows, ps[|ps| - 1])]
  }

  /** One profile per distinct phone number of the calls, in order of first appearance. */
  function GroupProfiles(calls: seq<Call>, rows: seq<MessageRow>): (profiles: seq<CallerProfile>)
    ensures |profiles| == |Phones(calls)|
    ensures forall i :: 0 <= i < |profiles| ==> profiles[i].phoneNumber == Phones(calls)[i]
    ensures forall i :: 0 <= i < |profiles| ==>
      profiles[i].calls == CallsOf(calls, profiles[i].phoneNumber) && profiles[i].totalCalls == |profiles[i].calls|
  {
    PhonesAreDistinctCallNumbers(calls);
    ProfilesFor(calls, rows, Phones(calls))
  }

  // ---------------------------------------------------------------------------
  // The grouping as the source performs it

  /** A call of another phone number leaves the profile of q unchanged. */
  lemma ProfileAfterOtherCall(s: seq<Call>, c: Call, q: string)
    requires CallsOf(s + [c], q) != [] && q != c.phoneNumber
    ensures CallsOf(s, q) != [] && ProfileOf(s + [c], [], q) == ProfileOf(s, [], q)
  {
    CallsOfSnoc(s, c, q);
    assert CallsOf(s + [c], q) == CallsOf(s, q);
  }

  /** The first call of q seeds its profile with the caller's name and the call's date. */
  lemma ProfileAfterFirstCall(s: seq<Call>, c: Call)
    requires CallsOf(s, c.phoneNumber) == []
    ensures CallsOf(s + [c], c.phoneNumber) == [c]
    ensures ProfileOf(s + [c], [], c.phoneNumber) == CallerProfile(c.phoneNumber, c.callerName, 1, [], c.date, [c])
  {
    CallsOfSnoc(s, c, c.phoneNumber);
  }

  /**
   * A later call of q increments the count, appends the call, and replaces
   * the last call date only when the call is strictly later.
   */
  lemma ProfileAfterLaterCall(s: seq<Call>, c: Call)
    requires CallsOf(s, c.phoneNumber) != []
    ensures CallsOf(s + [c], c.phoneNumber) != []
    ensures var pr := ProfileOf(s, [], c.phoneNumber);
      ProfileOf(s + [c], [], c.phoneNumber)
        == pr.(totalCalls := pr.totalCalls + 1, calls := pr.calls + [c],
               lastCallDate := if c.date.instant > pr.lastCallDate.instant then c.date else pr.lastCallDate)
  {
    var q := c.phoneNumber;
    CallsOfSnoc(s, c, q);
    var mine := CallsOf(s, q);
    assert CallsOf(s + [c], q) == mine + [c];
    assert (mine + [c])[..|mine|] == mine;
    assert LatestIndex(mine + [c])
        == if c.date.instant > mine[LatestIndex(mine)].date.instant then |mine| else LatestIndex(mine);
  }

  /** A message changes only the profile of its own phone number, by appending to its messages. */
  lemma ProfileAfterMessage(calls: seq<Call>, rows: seq<MessageRow>, row: MessageRow, q: string)
    requires CallsOf(calls, q) != []
    ensures var pr := ProfileOf(calls, rows, q);
      ProfileOf(calls, rows + [row], q)
        == if row.phoneNumber == q then pr.(messages := pr.messages + [ToMessage(row)]) else pr
  {
    assert (rows + [row])[..|rows|] == rows;
  }

  /** A new table entry, as the first call of a phone number creates it. */
  function Seed(call: Call): CallerProfile {
    CallerProfile(call.phoneNumber, call.callerName, 0, [], call.date, [])
  }

  /** The entry of a phone number after one more of its calls: the count, the calls and the latest date updated. */
  function Tally(profile: CallerProfile, call: Call): CallerProfile {
    var counted := profile.(totalCalls := profile.totalCalls + 1, calls := profile.calls + [call]);
    if call.date.instant > counted.lastCallDate.instant then counted.(lastCallDate := call.date) else counted
  }

  /** The table after one more call: the entry of its number, created first if missing, is tallied. */
  function Record(table: map<string, CallerProfile>, call: Call): map<string, CallerProfile> {
    var p := call.phoneNumber;
    table[p := Tally(if p in table then table[p] else Seed(call), call)]
  }

  /**
   * The keys in insertion order and the table after the first pass over
   * the calls.
   */
  function Indexed(calls: seq<Call>): (seq<string>, map<string, CallerProfile>)
    decreases |calls|
  {
    if |calls| == 0 then ([], map[])
    else
      var (keys, table) := Indexed(calls[..|calls| - 1]);
      var call := calls[|calls| - 1];
      (if call.phoneNumber in table then keys else keys + [call.phoneNumber], Record(table, call))
  }

  /** The table after one more message: appended to the entry of its number, if there is one. */
  function Attach(table: map<string, CallerProfile>, row: MessageRow): map<string, CallerProfile> {
    var p := row.phoneNumber;
    if p in table then table[p := table[p].(messages := table[p].messages + [ToMessage(row)])] else table
  }

  /** The table after the second pass over the messages. */
  function Attached(table: map<string, CallerProfile>, rows: seq<MessageRow>): map<string, CallerProfile>
    decreases |rows|
  {
    if |rows| == 0 then table else Attach(Attached(table, rows[..|rows| - 1]), rows[|rows| - 1])
  }

  /** The entry of one phone number after one more call. */
  lemma EntryStep(table: map<string, CallerProfile>, seen: seq<Call>, call: Call, p: string)
    requires p in table <==> CallsOf(seen, p) != []
    requires p in table ==> table[p] == ProfileOf(seen, [], p)
    requires p in Record(table, call)
    ensures CallsOf(seen + [call], p) != [] && Record(table, call)[p] == ProfileOf(seen + [call], [], p)
  {
    CallsOfSnoc(seen, call, p);
    if p != call.phoneNumber {
      ProfileAfterOtherCall(seen, call, p);
    } else if CallsOf(seen, p) == [] {
      ProfileAfterFirstCall(seen, call);
    } else {
      ProfileAfterLaterCall(seen, call);
    }
  }

  /**
   * The first pass yields the phone numbers in order of first appearance,
   * a table keyed by exactly the numbers that have calls, and for each the
   * profile of its calls (no messages yet).
   */
  lemma {:induction false} IndexedIsGrouping(calls: seq<Call>)
    ensures Indexed(calls).0 == Phones(calls)
    ensures forall p :: p in Indexed(calls).1 <==> CallsOf(calls, p) != []
    ensures forall p :: p in Indexed(calls).1 ==> CallsOf(calls, p) != [] && Indexed(calls).1[p] == ProfileOf(calls, [], p)
    decreases |calls|
  {
    if |calls| > 0 {
      var seen, call := calls[..|calls| - 1], calls[|calls| - 1];
      assert calls == seen + [call];
      IndexedIsGrouping(seen);
      PhonesAreDistinctCallNumbers(seen);
      PhonesSnoc(seen, call);
      var table := Indexed(seen).1;
      forall p ensures p in Record(table, call) <==> CallsOf(calls, p) != [] {
        CallsOfSnoc(seen, call, p);
      }
      forall p | p in Record(table, call)
        ensures CallsOf(calls, p) != [] && Record(table, call)[p] == ProfileOf(calls, [], p)
      {
        EntryStep(table, seen, call, p);
      }
    }
  }

  /** The entry of one phone number after one more message. */
  lemma AttachEntry(table: map<string, CallerProfile>, calls: seq<Call>, seen: seq<MessageRow>, row: MessageRow, p: string)
    requires p in table && CallsOf(calls, p) != [] && table[p] == ProfileOf(calls, seen, p)
    ensures p in Attach(table, row) && Attach(table, row)[p] == ProfileOf(calls, seen + [row], p)
  {
    ProfileAfterMessage(calls, seen, row, p);
  }

  /** The second pass keeps the keys and turns each entry into the profile over the calls and all messages. */
  lemma {:induction false} AttachedProfiles(calls: seq<Call>, table: map<string, CallerProfile>, rows: seq<MessageRow>)
    requires forall p :: p in table ==> CallsOf(calls, p) != [] && table[p] == ProfileOf(calls, [], p)
    ensures forall p :: p in Attached(table, rows) <==> p in table
    ensures forall p :: p in table ==> Attached(table, rows)[p] == ProfileOf(calls, rows, p)
    decreases |rows|
  {
    if |rows| > 0 {
      var seen, row := rows[..|rows| - 1], rows[|rows| - 1];
      assert rows == seen + [row];
      AttachedProfiles(calls, table, seen);
      var before := Attached(table, seen);
      assert Attached(table, rows) == Attach(before, row);
      forall p | p in table ensures Attach(before, row)[p] == ProfileOf(calls, seen + [row], p) {
        AttachEntry(before, calls, seen, row, p);
      }
    }
  }

  /**
   * The first pass: on the first call of each phone number a profile is
   * created (and its number appended to keys); every call then increments
   * the count, appends the call and moves the last call date forward.
   */
  method IndexCalls(calls: seq<Call>) returns (keys: seq<string>, table: map<string, CallerProfile>)
    ensures (keys, table) == Indexed(calls)
  {
    keys, table := [], map[];
    var i := 0;
    while i < |calls|
      invariant 0 <= i <= |calls|
      invariant (keys, table) == Indexed(calls[..i])
    {
      var call := calls[i];
      ghost var before := table;
      if call.phoneNumber !in table {
        table := table[call.phoneNumber := Seed(call)];
        keys := keys + [call.phoneNumber];
      }
      var profile := table[call.phoneNumber];
      profile := profile.(totalCalls := profile.totalCalls + 1, calls := profile.calls + [call]);
      if call.date.instant > profile.lastCallDate.instant {
        profile := profile.(lastCallDate := call.date);
      }
      table := table[call.phoneNumber := profile];
      assert table == Record(before, call);
      assert calls[..i + 1][..i] == calls[..i];
      i := i + 1;
    }
    assert calls[..|calls|] == calls;
  }

  /** The second pass: each message is appended to the profile of its phone number, if there is one. */
  method AttachMessages(table: map<string, CallerProfile>, rows: seq<MessageRow>)
    returns (table': map<string, CallerProfile>)
    ensures table' == Attached(table, rows)
  {
    table' := table;
    var k := 0;
    while k < |rows|
      invariant 0 <= k <= |rows|
      invariant table' == Attached(table, rows[..k])
    {
      var row := rows[k];
      if row.phoneNumber in table' {
        var profile := table'[row.phoneNumber];
        table' := table'[row.phoneNumber := profile.(messages := profile.messages + [ToMessage(row)])];
      }
      assert rows[..k + 1][..k] == rows[..k];
      k := k + 1;
    }
    assert rows[..|rows|] == rows;
  }

  /** The profiles listed in the insertion order of their phone numbers. */
  method ListProfiles(keys: seq<string>, table: map<string, CallerProfile>, calls: seq<Call>, rows: seq<MessageRow>)
    returns (profiles: seq<CallerProfile>)
    requires forall p :: p in keys ==> p in table && CallsOf(calls, p) != [] && table[p] == ProfileOf(calls, rows, p)
    ensures profiles == ProfilesFor(calls, rows, keys)
  {
    profiles := [];
    var j := 0;
    while j < |keys|
      invariant 0 <= j <= |keys|
      invariant forall p :: p in keys[..j] ==> p in keys
      invariant profiles == ProfilesFor(calls, rows, keys[..j])
    {
      var p := keys[j];
      assert p in keys;
      assert keys[..j + 1][..j] == keys[..j];
      assert forall q :: q in keys[..j + 1] ==> q in keys;
      profiles := profiles + [table[p]];
      j := j + 1;
    }
    assert keys[..|keys|] == keys;
  }

  /**
   * The grouping as live-data.ts performs it: one pass over the calls, one
   * over the messages, then the table's profiles in insertion order.
   */
  method BuildProfiles(calls: seq<Call>, rows: seq<MessageRow>) returns (profiles: seq<CallerProfile>)
    ensures profiles == GroupProfiles(calls, rows)
  {
    var keys, table := IndexCalls(calls);
    IndexedIsGrouping(calls);
    PhonesAreDistinctCallNumbers(calls);
    AttachedProfiles(calls, table, rows);
    table := AttachMessages(table, rows);
    profiles := ListProfiles(keys, table, calls, rows);
  }

  // ---------------------------------------------------------------------------
  // The live result

  /** The dashboard built from the rows of the three queries. */
  function LiveDashboard(jobRows: seq<JobRow>, callRows: seq<CallRow>, messageRows: seq<MessageRow>): (d: DashboardData)
    ensures d.isLiveData
    ensures d.jobs == ToJobs(jobRows) && d.calls == ToCalls(callRows)
    ensures d.profiles == GroupProfiles(d.calls, messageRows)
    ensures d.jobsBooked == |BookedJobs(d.jobs)| && d.quotesSent == d.jobsBooked
    ensures d.cleanersScheduled == |PaidJobs(d.jobs)|
    ensures d.callsAnswered == |d.calls| == |callRows|
  {
    var jobs := ToJobs(jobRows);
    var calls := ToCalls(callRows);
    DashboardData(|BookedJobs(jobs)|, |BookedJobs(jobs)|, |PaidJobs(jobs)|, |calls|,
                  jobs, calls, GroupProfiles(calls, messageRows), true)
  }

  /** The live result, or None when there is no store or a query failed. */
  function LiveResult(reply: StoreReply): (r: Option<DashboardData>)
    ensures r.Some? <==> reply.Fetched?
    ensures r.Some? ==> r.value.isLiveData
  {
    match reply
    case Unconfigured => None
    case QueryFailed => None
    case Fetched(jobRows, callRows, messageRows) => Some(LiveDashboard(jobRows, callRows, messageRows))
  }

  /** The live path: all or nothing, never a partial result. */
  method GetLiveDashboardData(reply: StoreReply) returns (r: Option<DashboardData>)
    ensures r == LiveResult(reply)
  {
    match reply {
      case Unconfigured =>
        r := None;
      case QueryFailed =>
        r := None;
      case Fetched(jobRows, callRows, messageRows) =>
        var jobs := ToJobs(jobRows);
        var calls := ToCalls(callRows);
        var profiles := BuildProfiles(calls, messageRows);
        var jobsBooked := |BookedJobs(jobs)|;
        var callsAnswered := |calls|;
        r := Some(DashboardData(jobsBooked, |BookedJobs(jobs)|, |PaidJobs(jobs)|, callsAnswered,
                                jobs, calls, profiles, true));
    }
  }
}

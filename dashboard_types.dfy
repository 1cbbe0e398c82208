/**
 * The records the dashboard passes around (jobs, calls, messages, caller
 * profiles and the dashboard aggregate), and the selections by phone number
 * and by flag that every part of the dashboard shares. The phone number is
 * the only key that correlates jobs, calls and messages, always by exact
 * string equality.
 */
module DashboardTypes {
  import opened Seqs

  /** A field that may be absent (`field?: T` in the records). */
  datatype Option<T> = None | Some(value: T)

  datatype JobStatus = Scheduled | Completed | Cancelled

  datatype CallOutcome = Booked | NotBooked | Voicemail

  datatype Role = ClientRole | BusinessRole | BotRole

  /**
   * A date-time as stored: its text, and the instant (milliseconds since the
   * epoch) that `new Date(text)` denotes. Comparisons use the instant; what
   * is kept and shown is the text.
   */
  datatype DateTime = DateTime(text: string, instant: int)

  datatype Job = Job(
    id: string,
    title: string,
    date: string,
    status: JobStatus,
    client: string,
    cleaningTeam: seq<string>,
    callDurationSeconds: int,
    booked: bool,
    paid: bool,
    price: int,
    phoneNumber: string,
    invoiceSent: Option<bool>,
    invoiceDate: Option<string>,
    paymentDate: Option<string>,
    reviewReceived: Option<bool>,
    reviewRating: Option<int>,
    reviewText: Option<string>)

  datatype Message = Message(role: Role, content: string, timestamp: string)

  datatype Call = Call(
    id: string,
    phoneNumber: string,
    callerName: string,
    date: DateTime,
    durationSeconds: int,
    audioUrl: Option<string>,
    transcript: Option<string>,
    outcome: Option<CallOutcome>)

  /** Everything known about one phone number: its calls and its text messages. */
  datatype CallerProfile = CallerProfile(
    phoneNumber: string,
    callerName: string,
    totalCalls: int,
    messages: seq<Message>,
    lastCallDate: DateTime,
    calls: seq<Call>)

  datatype DashboardData = DashboardData(
    jobsBooked: int,
    quotesSent: int,
    cleanersScheduled: int,
    callsAnswered: int,
    jobs: seq<Job>,
    calls: seq<Call>,
    profiles: seq<CallerProfile>,
    isLiveData: bool)

  /** Quantified form of Seqs.FilterMembership. */
  lemma FilterMembershipAll<T>(s: seq<T>, keep: T -> bool)
    ensures forall x :: x in Filter(s, keep) <==> x in s && keep(x)
  {
    forall x {
      FilterMembership(s, keep, x);
    }
  }

  /** The jobs of one phone number, in their original order. */
  function JobsOf(jobs: seq<Job>, phone: string): (mine: seq<Job>)
    ensures forall j {:trigger j in mine} :: j in mine <==> j in jobs && j.phoneNumber == phone
  {
    var keep := (j: Job) => j.phoneNumber == phone;
    FilterMembershipAll(jobs, keep);
    Filter(jobs, keep)
  }

  /** The calls of one phone number, in their original order. */
  function CallsOf(calls: seq<Call>, phone: string): (mine: seq<Call>)
    ensures forall c {:trigger c in mine} :: c in mine <==> c in calls && c.phoneNumber == phone
  {
    var keep := (c: Call) => c.phoneNumber == phone;
    FilterMembershipAll(calls, keep);
    Filter(calls, keep)
  }

  /** The jobs flagged as booked, in their original order. */
  function BookedJobs(jobs: seq<Job>): (booked: seq<Job>)
    ensures forall j :: j in booked <==> j in jobs && j.booked
  {
    var keep := (j: Job) => j.booked;
    FilterMembershipAll(jobs, keep);
    Filter(jobs, keep)
  }

  /** The jobs flagged as paid, in their original order. */
  function PaidJobs(jobs: seq<Job>): (paid: seq<Job>)
    ensures forall j :: j in paid <==> j in jobs && j.paid
  {
    var keep := (j: Job) => j.paid;
    FilterMembershipAll(jobs, keep);
    Filter(jobs, keep)
  }

  /** Selecting calls by number distributes over concatenation. */
  lemma CallsOfAppend(a: seq<Call>, b: seq<Call>, phone: string)
    ensures CallsOf(a + b, phone) == CallsOf(a, phone) + CallsOf(b, phone)
  {
    FilterAppend(a, b, (c: Call) => c.phoneNumber == phone);
  }

  /** Appending a call adds it to the calls of its own phone number only. */
  lemma CallsOfSnoc(s: seq<Call>, c: Call, q: string)
    ensures CallsOf(s + [c], q) == CallsOf(s, q) + (if q == c.phoneNumber then [c] else [])
  {
    assert (s + [c])[..|s|] == s;
  }

  /** Calls that all have other numbers select nothing. */
  lemma CallsOfNone(s: seq<Call>, phone: string)
    requires forall i :: 0 <= i < |s| ==> s[i].phoneNumber != phone
    ensures CallsOf(s, phone) == []
  {
    FilterDropsAll(s, (c: Call) => c.phoneNumber == phone);
  }

  /** Selecting booked jobs distributes over concatenation. */
  lemma BookedJobsAppend(a: seq<Job>, b: seq<Job>)
    ensures BookedJobs(a + b) == BookedJobs(a) + BookedJobs(b)
  {
    FilterAppend(a, b, (j: Job) => j.booked);
  }

  /** When every job is booked, all of them are selected. */
  lemma AllBooked(jobs: seq<Job>)
    requires forall i :: 0 <= i < |jobs| ==> jobs[i].booked
    ensures BookedJobs(jobs) == jobs
  {
    FilterKeepsAll(jobs, (j: Job) => j.booked);
  }

  /** When no job is booked, none is selected. */
  lemma NoneBooked(jobs: seq<Job>)
    requires forall i :: 0 <= i < |jobs| ==> !jobs[i].booked
    ensures BookedJobs(jobs) == []
  {
    FilterDropsAll(jobs, (j: Job) => j.booked);
  }

  /** Selecting paid jobs distributes over concatenation. */
  lemma PaidJobsAppend(a: seq<Job>, b: seq<Job>)
    ensures PaidJobs(a + b) == PaidJobs(a) + PaidJobs(b)
  {
    FilterAppend(a, b, (j: Job) => j.paid);
  }

  /** When every job is paid, all of them are selected. */
  lemma AllPaid(jobs: seq<Job>)
    requires forall i :: 0 <= i < |jobs| ==> jobs[i].paid
    ensures PaidJobs(jobs) == jobs
  {
    FilterKeepsAll(jobs, (j: Job) => j.paid);
  }

  /** When no job is paid, none is selected. */
  lemma NonePaid(jobs: seq<Job>)
    requires forall i :: 0 <= i < |jobs| ==> !jobs[i].paid
    ensures PaidJobs(jobs) == []
  {
    FilterDropsAll(jobs, (j: Job) => j.paid);
  }

  /** When exactly the first n jobs are paid, the paid jobs are those n, in order. */
  lemma PaidPrefix(jobs: seq<Job>, n: nat)
    requires n <= |jobs|
    requires forall i :: 0 <= i < |jobs| ==> (jobs[i].paid <==> i < n)
    ensures PaidJobs(jobs) == jobs[..n]
  {
    assert jobs == jobs[..n] + jobs[n..];
    PaidJobsAppend(jobs[..n], jobs[n..]);
    AllPaid(jobs[..n]);
    NonePaid(jobs[n..]);
  }

  /** The calls of a phone number are the input calls taken at increasing positions, exactly those with that number. */
  lemma CallsOfIsSubsequence(calls: seq<Call>, phone: string)
    ensures var pos := Positions(calls, (c: Call) => c.phoneNumber == phone);
      && |pos| == |CallsOf(calls, phone)|
      && (forall k :: 0 <= k < |pos| ==> pos[k] < |calls| && CallsOf(calls, phone)[k] == calls[pos[k]])
      && (forall k, l :: 0 <= k < l < |pos| ==> pos[k] < pos[l])
      && (forall i :: 0 <= i < |calls| ==> (calls[i].phoneNumber == phone <==> i in pos))
  {
    FilterIsSubsequence(calls, (c: Call) => c.phoneNumber == phone);
  }
}

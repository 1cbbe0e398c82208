/**
 * The data layer's entry point of lib/google-sheets.ts: the live dashboard
 * when the store answers, the demonstration data set otherwise, and the
 * estimate of the hours the assistant saved.
 */
module GoogleSheets {
  import opened Seqs
  import opened DashboardTypes
  import opened LiveData
  import opened ProfileLaws
  import opened MockData

  // ---------------------------------------------------------------------------
  // The demonstration dashboard

  /**
   * The dashboard built from the demonstration data. Its counters do not use
   * the live formulas: the quotes are the jobs plus three, and the answered
   * calls are the calls plus fifteen.
   */
  function MockDashboardData(): (d: DashboardData)
    ensures !d.isLiveData
    ensures d.jobs == MockJobs() && d.calls == MockCalls() && d.profiles == MockProfiles()
    ensures d.jobsBooked == |BookedJobs(d.jobs)| == 20
    ensures d.quotesSent == |d.jobs| + 3 == 23
    ensures d.cleanersScheduled == |PaidJobs(d.jobs)| == 16
    ensures d.callsAnswered == |d.calls| + 15 == 27
  {
    var jobs := MockJobs();
    var calls := MockCalls();
    MockJobsAllBooked();
    MockPaidJobsAreDecember();
    DashboardData(|BookedJobs(jobs)|, |jobs| + 3, |PaidJobs(jobs)|, |calls| + 15,
                  jobs, calls, MockProfiles(), false)
  }

  /**
   * The hand-written profiles are not the grouping of the demonstration
   * calls, whatever the messages: the grouping counts two calls for Robert
   * Chen's number where the first hand-written profile claims three.
   */
  lemma MockProfilesAreNotAGrouping(rows: seq<MessageRow>)
    ensures MockProfiles() != GroupProfiles(MockCalls(), rows)
  {
    RobertChenProfileMiscounted();
    ProfilesHoldTheirCalls(MockCalls(), rows);
    var mine := MockProfiles();
    assert mine[0] == P1(MockCalls());
    assert mine[0].totalCalls != |mine[0].calls|;
  }

  // ---------------------------------------------------------------------------
  // Choosing the data

  /** The live dashboard when the store answered every query, the demonstration dashboard otherwise. */
  function GetDashboardData(reply: StoreReply): (d: DashboardData)
    ensures reply.Fetched? ==> Some(d) == LiveResult(reply)
    ensures !reply.Fetched? ==> d == MockDashboardData()
    ensures d.isLiveData <==> reply.Fetched?
  {
    match LiveResult(reply)
    case Some(live) => live
    case None => MockDashboardData()
  }

  /**
   * The served counters show where the data came from: only live data has
   * as many quotes as booked jobs and as many answered calls as calls.
   */
  lemma CountersRevealTheSource(reply: StoreReply)
    ensures var d := GetDashboardData(reply);
      && (d.isLiveData <==> d.quotesSent == d.jobsBooked)
      && (d.isLiveData <==> d.callsAnswered == |d.calls|)
  {
  }

  /**
   * The profiles served as live data account for every served call exactly
   * once; the demonstration profiles are not a grouping of the served calls.
   */
  lemma ServedProfilesAreGroupedOnlyWhenLive(reply: StoreReply)
    ensures var d := GetDashboardData(reply);
      d.isLiveData ==> d.profiles == GroupProfiles(d.calls, reply.messageRows) && SumOf(d.profiles, TotalCallsOf) == |d.calls|
    ensures var d := GetDashboardData(reply);
      !d.isLiveData ==> forall rows :: d.profiles != GroupProfiles(d.calls, rows)
  {
    var d := GetDashboardData(reply);
    if d.isLiveData {
      TotalCallsAddUp(d.calls, reply.messageRows);
    } else {
      forall rows ensures d.profiles != GroupProfiles(d.calls, rows) {
        MockProfilesAreNotAGrouping(rows);
      }
    }
  }

  /** A store that answers with no rows at all gives an empty live dashboard with zero counters. */
  lemma EmptyStoreGivesEmptyDashboard()
    ensures GetDashboardData(Fetched([], [], [])) == DashboardData(0, 0, 0, 0, [], [], [], true)
  {
    assert Phones([]) == [];
    assert BookedJobs([]) == [] && PaidJobs([]) == [];
  }

  /** The grouping of one call and one message of another number: one profile, the call's, with no messages. */
  lemma OneCallOtherMessage(call: Call, message: MessageRow)
    requires call.phoneNumber != message.phoneNumber
    ensures var profiles := GroupProfiles([call], [message]);
      |profiles| == 1 && profiles[0].phoneNumber == call.phoneNumber && profiles[0].messages == []
  {
    var p := call.phoneNumber;
    assert Phones([call]) == [p] by {
      assert [call][..0] == [];
    }
    PhonesAreDistinctCallNumbers([call]);
    var profiles := ProfilesFor([call], [message], [p]);
    assert GroupProfiles([call], [message]) == profiles;
    assert profiles[0] == ProfileOf([call], [message], p);
    assert MessagesFor([message], p) == [] by {
      assert [message][..0] == [];
    }
  }

  /**
   * A message for a number that has no call is not attached to the profile
   * of any other number: with one call from "555" and one message from
   * "556", the one live profile is "555"'s, and it has no messages.
   */
  lemma MessageOfOtherNumberNotAttached(call: CallRow, message: MessageRow)
    requires call.phoneNumber == "555" && message.phoneNumber == "556"
    ensures var d := GetDashboardData(Fetched([], [call], [message]));
      |d.profiles| == 1 && d.profiles[0].phoneNumber == "555" && d.profiles[0].messages == []
  {
    var calls := ToCalls([call]);
    assert calls == [ToCall(call)];
    assert GetDashboardData(Fetched([], [call], [message])).profiles == GroupProfiles(calls, [message]);
    OneCallOtherMessage(ToCall(call), message);
  }

  // ---------------------------------------------------------------------------
  // Time saved

  /** The minutes of work one booked job saves: call handling, invoicing, texting and follow-ups. */
  const MinutesPerJob := 45

  /**
   * `Math.round(booked * 45 / 60)`: the hours saved, rounded to the nearest
   * hour with halves rounded up.
   */
  function TimeSaved(jobs: seq<Job>): (hours: int)
    ensures 60 * hours - 30 <= MinutesPerJob * |BookedJobs(jobs)| < 60 * hours + 30
  {
    (|BookedJobs(jobs)| * MinutesPerJob + 30) / 60
  }

  /** The time saved depends on the number of booked jobs and on nothing else. */
  lemma TimeSavedDependsOnBookedCount(a: seq<Job>, b: seq<Job>)
    requires |BookedJobs(a)| == |BookedJobs(b)|
    ensures TimeSaved(a) == TimeSaved(b)
  {
  }

  /** Adding or removing jobs that are not booked leaves the time saved unchanged. */
  lemma TimeSavedIgnoresUnbooked(jobs: seq<Job>, extra: seq<Job>)
    requires forall i :: 0 <= i < |extra| ==> !extra[i].booked
    ensures TimeSaved(jobs + extra) == TimeSaved(jobs)
    ensures TimeSaved(extra + jobs) == TimeSaved(jobs)
    ensures TimeSaved(BookedJobs(jobs)) == TimeSaved(jobs)
  {
    BookedJobsAppend(jobs, extra);
    BookedJobsAppend(extra, jobs);
    NoneBooked(extra);
    TimeSavedDependsOnBookedCount(jobs + extra, jobs);
    TimeSavedDependsOnBookedCount(extra + jobs, jobs);
    var booked := BookedJobs(jobs);
    forall i | 0 <= i < |booked| ensures booked[i].booked {
      assert booked[i] in booked;
    }
    AllBooked(booked);
    TimeSavedDependsOnBookedCount(booked, jobs);
  }

  /** More booked jobs never save less time; with no booked job nothing is saved. */
  lemma TimeSavedMonotone(a: seq<Job>, b: seq<Job>)
    requires |BookedJobs(a)| <= |BookedJobs(b)|
    ensures TimeSaved(a) <= TimeSaved(b)
    ensures |BookedJobs(a)| == 0 ==> TimeSaved(a) == 0
  {
  }

  /** Adding jobs never lowers the time saved. */
  lemma TimeSavedGrowsWithJobs(jobs: seq<Job>, more: seq<Job>)
    ensures TimeSaved(jobs) <= TimeSaved(jobs + more)
  {
    BookedJobsAppend(jobs, more);
    TimeSavedMonotone(jobs, jobs + more);
  }

  /** The twenty booked demonstration jobs save 20 * 45 minutes, fifteen hours. */
  lemma MockTimeSaved()
    ensures TimeSaved(MockDashboardData().jobs) == 15
  {
    MockJobsAllBooked();
  }
}

/**
 * What the grouping of calls and messages into caller profiles guarantees:
 * one profile per calling phone number in order of first appearance, call
 * counts that add up to the number of calls, the caller name of the first
 * call, the latest call date with ties kept at the earlier call, and
 * messages that only ever extend the profile of their own number.
 */
module ProfileLaws {
  import opened Seqs
  import opened DashboardTypes
  import opened LiveData

  // ---------------------------------------------------------------------------
  // Order of first appearance

  /** The position of the first call of p, or |calls| when p has no call. */
  function FirstIndex(calls: seq<Call>, p: string): (k: nat)
    ensures k <= |calls|
    ensures k < |calls| ==> calls[k].phoneNumber == p
    ensures forall j :: 0 <= j < k ==> calls[j].phoneNumber != p
    decreases |calls|
  {
    if |calls| == 0 then 0
    else
      var k := FirstIndex(calls[..|calls| - 1], p);
      if k < |calls| - 1 || calls[|calls| - 1].phoneNumber == p then k else |calls|
  }

  /** A later call moves the first call of p only when p had none: to the new call if it is p's, past it otherwise. */
  lemma FirstIndexSnoc(s: seq<Call>, c: Call, p: string)
    ensures FirstIndex(s + [c], p)
      == if FirstIndex(s, p) < |s| || c.phoneNumber == p then FirstIndex(s, p) else |s| + 1
  {
    assert (s + [c])[..|s|] == s;
  }

  /** A phone number has calls exactly when it has a first call. */
  lemma HasCallsIffFirstIndex(calls: seq<Call>, p: string)
    ensures CallsOf(calls, p) != [] <==> FirstIndex(calls, p) < |calls|
  {
    var k := FirstIndex(calls, p);
    if k < |calls| {
      assert calls[k] in CallsOf(calls, p);
    }
    if CallsOf(calls, p) != [] {
      var c := CallsOf(calls, p)[0];
      assert c in CallsOf(calls, p);
      var j :| 0 <= j < |calls| && calls[j] == c;
    }
  }

  /** Every listed number has a call, and the first calls of the listed numbers come in the listed order. */
  ghost predicate InFirstAppearanceOrder(calls: seq<Call>, ps: seq<string>) {
    && (forall i :: 0 <= i < |ps| ==> FirstIndex(calls, ps[i]) < |calls|)
    && (forall i, j :: 0 <= i < j < |ps| ==> FirstIndex(calls, ps[i]) < FirstIndex(calls, ps[j]))
  }

  /** A call of a number already listed keeps the order. */
  lemma FirstAppearanceAfterKnownCall(init: seq<Call>, c: Call, ps: seq<string>)
    requires InFirstAppearanceOrder(init, ps)
    ensures InFirstAppearanceOrder(init + [c], ps)
  {
    forall i | 0 <= i < |ps| ensures FirstIndex(init + [c], ps[i]) == FirstIndex(init, ps[i]) {
      FirstIndexSnoc(init, c, ps[i]);
    }
  }

  /** The first call of a new number comes after the first calls of all listed numbers. */
  lemma FirstAppearanceAfterNewCall(init: seq<Call>, c: Call, ps: seq<string>)
    requires InFirstAppearanceOrder(init, ps)
    requires FirstIndex(init, c.phoneNumber) == |init|
    ensures InFirstAppearanceOrder(init + [c], ps + [c.phoneNumber])
  {
    var calls, all := init + [c], ps + [c.phoneNumber];
    forall i | 0 <= i < |all| ensures FirstIndex(calls, all[i]) == if i < |ps| then FirstIndex(init, ps[i]) else |init| {
      FirstIndexSnoc(init, c, all[i]);
    }
  }

  /** Phones lists the phone numbers in the order of their first calls. */
  lemma {:induction false} PhonesInFirstAppearanceOrder(calls: seq<Call>)
    ensures forall i :: 0 <= i < |Phones(calls)| ==> FirstIndex(calls, Phones(calls)[i]) < |calls|
    ensures forall i, j :: 0 <= i < j < |Phones(calls)| ==>
      FirstIndex(calls, Phones(calls)[i]) < FirstIndex(calls, Phones(calls)[j])
    decreases |calls|
  {
    if |calls| > 0 {
      var init, c := calls[..|calls| - 1], calls[|calls| - 1];
      assert calls == init + [c];
      PhonesInFirstAppearanceOrder(init);
      PhonesSnoc(init, c);
      if c.phoneNumber in Phones(init) {
        FirstAppearanceAfterKnownCall(init, c, Phones(init));
      } else {
        PhonesAreDistinctCallNumbers(init);
        HasCallsIffFirstIndex(init, c.phoneNumber);
        FirstAppearanceAfterNewCall(init, c, Phones(init));
      }
    }
  }

  /** The profiles carry the numbers of Phones, in the same order. */
  lemma ProfileNumbersArePhones(calls: seq<Call>, rows: seq<MessageRow>)
    ensures |GroupProfiles(calls, rows)| == |Phones(calls)|
    ensures forall i :: 0 <= i < |Phones(calls)| ==> GroupProfiles(calls, rows)[i].phoneNumber == Phones(calls)[i]
  {
  }

  /** Each profile holds exactly the calls of its number, in input order, and counts them. */
  lemma ProfilesHoldTheirCalls(calls: seq<Call>, rows: seq<MessageRow>)
    ensures forall i :: 0 <= i < |GroupProfiles(calls, rows)| ==>
      && GroupProfiles(calls, rows)[i].calls == CallsOf(calls, GroupProfiles(calls, rows)[i].phoneNumber)
      && GroupProfiles(calls, rows)[i].totalCalls == |GroupProfiles(calls, rows)[i].calls|
  {
    ProfileNumbersArePhones(calls, rows);
  }

  /** Every call's phone number has a profile. */
  lemma EveryCallerHasProfile(calls: seq<Call>, rows: seq<MessageRow>)
    ensures forall c :: c in calls ==>
      exists i :: 0 <= i < |GroupProfiles(calls, rows)| && GroupProfiles(calls, rows)[i].phoneNumber == c.phoneNumber
  {
    PhonesAreDistinctCallNumbers(calls);
    ProfileNumbersArePhones(calls, rows);
    var ps := Phones(calls);
    forall c | c in calls
      ensures exists i :: 0 <= i < |ps| && GroupProfiles(calls, rows)[i].phoneNumber == c.phoneNumber
    {
      assert c in CallsOf(calls, c.phoneNumber);
      var i :| 0 <= i < |ps| && ps[i] == c.phoneNumber;
    }
  }

  /** Every profile belongs to a phone number that has calls, and no two profiles share a number. */
  lemma ProfilesAreDistinctCallers(calls: seq<Call>, rows: seq<MessageRow>)
    ensures forall i :: 0 <= i < |GroupProfiles(calls, rows)| ==> CallsOf(calls, GroupProfiles(calls, rows)[i].phoneNumber) != []
    ensures forall i, j :: 0 <= i < j < |GroupProfiles(calls, rows)| ==>
      GroupProfiles(calls, rows)[i].phoneNumber != GroupProfiles(calls, rows)[j].phoneNumber
  {
    PhonesAreDistinctCallNumbers(calls);
    ProfileNumbersArePhones(calls, rows);
  }

  /** The profiles come in the order of their numbers' first calls. */
  lemma ProfilesInFirstCallOrder(calls: seq<Call>, rows: seq<MessageRow>)
    ensures forall i, j :: 0 <= i < j < |GroupProfiles(calls, rows)| ==>
      FirstIndex(calls, GroupProfiles(calls, rows)[i].phoneNumber) < FirstIndex(calls, GroupProfiles(calls, rows)[j].phoneNumber)
  {
    var profiles, ps := GroupProfiles(calls, rows), Phones(calls);
    PhonesInFirstAppearanceOrder(calls);
    forall i, j | 0 <= i < j < |profiles|
      ensures FirstIndex(calls, profiles[i].phoneNumber) < FirstIndex(calls, profiles[j].phoneNumber)
    {
      assert profiles[i].phoneNumber == ps[i] && profiles[j].phoneNumber == ps[j];
    }
  }

  // ---------------------------------------------------------------------------
  // Call counts

  function TotalCallsOf(profile: CallerProfile): int {
    profile.totalCalls
  }

  /** The number of calls of the phone numbers ps, counted number by number. */
  function CountOver(calls: seq<Call>, ps: seq<string>): (n: nat)
    decreases |ps|
  {
    if |ps| == 0 then 0 else CountOver(calls, ps[..|ps| - 1]) + |CallsOf(calls, ps[|ps| - 1])|
  }

  /** One more call adds one to the count of distinct numbers exactly when its number is among them. */
  lemma {:induction false} CountOverSnoc(calls: seq<Call>, c: Call, ps: seq<string>)
    requires forall i, j :: 0 <= i < j < |ps| ==> ps[i] != ps[j]
    ensures CountOver(calls + [c], ps) == CountOver(calls, ps) + if c.phoneNumber in ps then 1 else 0
    decreases |ps|
  {
    if |ps| > 0 {
      var init, q := ps[..|ps| - 1], ps[|ps| - 1];
      assert ps == init + [q];
      CountOverSnoc(calls, c, init);
      CallsOfSnoc(calls, c, q);
      if q == c.phoneNumber {
        assert c.phoneNumber !in init;
      }
    }
  }

  /** Counting number by number over Phones counts every call once. */
  lemma {:induction false} CountOverPhones(calls: seq<Call>)
    ensures CountOver(calls, Phones(calls)) == |calls|
    decreases |calls|
  {
    if |calls| > 0 {
      var init, c := calls[..|calls| - 1], calls[|calls| - 1];
      assert calls == init + [c];
      CountOverPhones(init);
      PhonesAreDistinctCallNumbers(init);
      PhonesSnoc(init, c);
      CountOverSnoc(init, c, Phones(init));
      if c.phoneNumber !in Phones(init) {
        var ps := Phones(init) + [c.phoneNumber];
        assert ps[..|ps| - 1] == Phones(init);
        CallsOfSnoc(init, c, c.phoneNumber);
      }
    }
  }

  /** The call counts of the profiles of ps add up to the calls of ps. */
  lemma {:induction false} SumOfTotalCalls(calls: seq<Call>, rows: seq<MessageRow>, ps: seq<string>)
    requires forall p :: p in ps ==> CallsOf(calls, p) != []
    ensures SumOf(ProfilesFor(calls, rows, ps), TotalCallsOf) == CountOver(calls, ps)
    decreases |ps|
  {
    if |ps| > 0 {
      var init := ps[..|ps| - 1];
      SumOfTotalCalls(calls, rows, init);
      var profiles := ProfilesFor(calls, rows, ps);
      assert profiles[..|profiles| - 1] == ProfilesFor(calls, rows, init);
    }
  }

  /** Every call is counted in exactly one profile: the call counts add up to the number of calls. */
  lemma TotalCallsAddUp(calls: seq<Call>, rows: seq<MessageRow>)
    ensures SumOf(GroupProfiles(calls, rows), TotalCallsOf) == |calls|
  {
    PhonesAreDistinctCallNumbers(calls);
    SumOfTotalCalls(calls, rows, Phones(calls));
    CountOverPhones(calls);
  }

  // ---------------------------------------------------------------------------
  // Caller name and last call date

  /** The first call of p is the first of its calls. */
  lemma {:induction false} FirstOfCallsOf(calls: seq<Call>, p: string)
    requires CallsOf(calls, p) != []
    ensures FirstIndex(calls, p) < |calls| && CallsOf(calls, p)[0] == calls[FirstIndex(calls, p)]
    decreases |calls|
  {
    var init, c := calls[..|calls| - 1], calls[|calls| - 1];
    assert calls == init + [c];
    CallsOfSnoc(init, c, p);
    FirstIndexSnoc(init, c, p);
    HasCallsIffFirstIndex(init, p);
    if CallsOf(init, p) != [] {
      FirstOfCallsOf(init, p);
    }
  }

  /** A profile carries the caller name of the first call of its number. */
  lemma CallerNameOfFirstCall(calls: seq<Call>, rows: seq<MessageRow>, p: string)
    requires CallsOf(calls, p) != []
    ensures FirstIndex(calls, p) < |calls|
    ensures ProfileOf(calls, rows, p).callerName == calls[FirstIndex(calls, p)].callerName
  {
    FirstOfCallsOf(calls, p);
  }

  /**
   * The position of the latest call of p: no call of p is later, and every
   * call of p before it is strictly earlier.
   */
  function LatestPosition(calls: seq<Call>, p: string): (m: nat)
    requires CallsOf(calls, p) != []
    ensures m < |calls| && calls[m].phoneNumber == p
    ensures forall j :: 0 <= j < |calls| && calls[j].phoneNumber == p ==> calls[j].date.instant <= calls[m].date.instant
    ensures forall j :: 0 <= j < m && calls[j].phoneNumber == p ==> calls[j].date.instant < calls[m].date.instant
    decreases |calls|
  {
    var init, last := calls[..|calls| - 1], calls[|calls| - 1];
    assert calls == init + [last];
    CallsOfSnoc(init, last, p);
    if CallsOf(init, p) == [] then
      assert forall j :: 0 <= j < |init| ==> init[j] in init;
      |calls| - 1
    else
      var m := LatestPosition(init, p);
      if last.phoneNumber == p && last.date.instant > init[m].date.instant then |calls| - 1 else m
  }

  /**
   * A profile's last call date is the date of the latest call of its number;
   * on equal instants the call seen first keeps its date.
   */
  lemma {:induction false} LastCallDateIsLatest(calls: seq<Call>, rows: seq<MessageRow>, p: string)
    requires CallsOf(calls, p) != []
    ensures ProfileOf(calls, rows, p).lastCallDate == calls[LatestPosition(calls, p)].date
    decreases |calls|
  {
    var init, c := calls[..|calls| - 1], calls[|calls| - 1];
    assert calls == init + [c];
    CallsOfSnoc(init, c, p);
    if c.phoneNumber != p {
      ProfileAfterOtherCall(init, c, p);
      LastCallDateIsLatest(init, [], p);
    } else if CallsOf(init, p) == [] {
      ProfileAfterFirstCall(init, c);
    } else {
      ProfileAfterLaterCall(init, c);
      LastCallDateIsLatest(init, [], p);
    }
  }

  // ---------------------------------------------------------------------------
  // Messages

  /**
   * One more message row changes the profile at each position of ps as it
   * changes the profile of that position's number.
   */
  lemma ProfilesForAfterMessage(calls: seq<Call>, rows: seq<MessageRow>, row: MessageRow, ps: seq<string>, i: nat)
    requires forall p :: p in ps ==> CallsOf(calls, p) != []
    requires i < |ps|
    ensures var before := ProfilesFor(calls, rows, ps)[i];
      ProfilesFor(calls, rows + [row], ps)[i]
        == if before.phoneNumber == row.phoneNumber then before.(messages := before.messages + [ToMessage(row)]) else before
  {
    var q := ps[i];
    assert q in ps;
    ProfileAfterMessage(calls, rows, row, q);
  }

  /** A message whose phone number has no call is dropped: it creates no profile and changes none. */
  lemma UnmatchedMessageDropped(calls: seq<Call>, rows: seq<MessageRow>, row: MessageRow)
    requires CallsOf(calls, row.phoneNumber) == []
    ensures GroupProfiles(calls, rows + [row]) == GroupProfiles(calls, rows)
  {
    PhonesAreDistinctCallNumbers(calls);
    var ps := Phones(calls);
    var before, after := ProfilesFor(calls, rows, ps), ProfilesFor(calls, rows + [row], ps);
    forall i | 0 <= i < |ps| ensures after[i] == before[i] {
      ProfilesForAfterMessage(calls, rows, row, ps, i);
      assert ps[i] in ps;
    }
    assert after == before;
  }

  /**
   * A message whose phone number has calls is appended, after the earlier
   * messages, to the profile of its number, and to no other profile.
   */
  lemma MatchedMessageAppended(calls: seq<Call>, rows: seq<MessageRow>, row: MessageRow)
    requires CallsOf(calls, row.phoneNumber) != []
    ensures |GroupProfiles(calls, rows + [row])| == |GroupProfiles(calls, rows)|
    ensures forall i :: 0 <= i < |GroupProfiles(calls, rows)| ==>
      var before := GroupProfiles(calls, rows)[i];
      GroupProfiles(calls, rows + [row])[i]
        == if before.phoneNumber == row.phoneNumber then before.(messages := before.messages + [ToMessage(row)]) else before
  {
    PhonesAreDistinctCallNumbers(calls);
    var ps := Phones(calls);
    forall i | 0 <= i < |ps| {
      ProfilesForAfterMessage(calls, rows, row, ps, i);
    }
  }
}

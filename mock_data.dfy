/**
 * The fixed demonstration data set of lib/google-sheets.ts: twenty jobs,
 * twelve calls and six hand-written caller profiles. Call dates carry the
 * instant their text denotes (milliseconds since the epoch, UTC).
 * Long texts are written as concatenations of short literals, which the
 * verifier handles far more cheaply than one long literal.
 */
module MockData {
  import opened Seqs
  import opened DashboardTypes

  /** The twenty demonstration jobs, in listing order: sixteen December jobs, then four January jobs. */
  function MockJobs(): (jobs: seq<Job>)
    ensures |jobs| == 20
    ensures forall i :: 0 <= i < 20 ==> jobs[i] == MockJob(i)
  {
    seq(20, i requires 0 <= i < 20 => MockJob(i))
  }

  /** Every job is booked; exactly the December jobs are paid. */
  function MockJob(i: nat): (job: Job)
    requires i < 20
    ensures job.booked && (job.paid <==> i < 16)
  {
    if i < 8 then EarlyDecemberJob(i) else if i < 16 then LateDecemberJob(i - 8) else JanuaryJob(i - 16)
  }

  /** Jobs j1 to j8. */
  function EarlyDecemberJob(i: nat): (job: Job)
    requires i < 8
    ensures job.booked && job.paid
  {
    match i
    case 0 => J1()
    case 1 => J2()
    case 2 => J3()
    case 3 => J4()
    case 4 => J5()
    case 5 => J6()
    case 6 => J7()
    case 7 => J8()
  }

  /** Jobs j9 to j16. */
  function LateDecemberJob(i: nat): (job: Job)
    requires i < 8
    ensures job.booked && job.paid
  {
    match i
    case 0 => J9()
    case 1 => J10()
    case 2 => J11()
    case 3 => J12()
    case 4 => J13()
    case 5 => J14()
    case 6 => J15()
    case 7 => J16()
  }

  /** Jobs j17 to j20, scheduled and not yet paid. */
  function JanuaryJob(i: nat): (job: Job)
    requires i < 4
    ensures job.booked && !job.paid
  {
    match i
    case 0 => J17()
    case 1 => J18()
    case 2 => J19()
    case 3 => J20()
  }

  function J1(): (job: Job)
    ensures job.booked && job.paid
  {
    Job("j1", "Executive Home Deep " + "Clean", "2025-12-02", Completed, "Robert Chen",
        ["Maria", "Luis", "Sofia"], 420, true, true, 2850, "3105551234",
        Some(true), Some("2025-12-02"), Some("2025-12-03"),
        Some(true), Some(5),
        Some("Absolutely " + "phenomenal service. " + "Maria and her team " + "transformed our " + "home. Will " + "definitely be using " + "again!"))
  }

  function J2(): (job: Job)
    ensures job.booked && job.paid
  {
    Job("j2", "Luxury Condo " + "Turnover", "2025-12-05", Completed, "Sarah Kim",
        ["Alex", "Maria"], 300, true, true, 1650, "4245559876",
        Some(true), Some("2025-12-05"), Some("2025-12-05"),
        Some(true), Some(5),
        Some("Perfect timing and " + "impeccable " + "attention to " + "detail. My guests " + "were impressed!"))
  }

  function J3(): (job: Job)
    ensures job.booked && job.paid
  {
    Job("j3", "Commercial Office " + "Suite", "2025-12-08", Completed, "Westfield Properties",
        ["Maria", "Luis", "Alex", "Rosa"], 540, true, true, 4200, "8185552233",
        Some(true), Some("2025-12-08"), Some("2025-12-10"),
        Some(true), Some(5),
        Some("Professional team, " + "excellent " + "communication. Our " + "tenants are " + "thrilled with the " + "space."))
  }

  function J4(): (job: Job)
    ensures job.booked && job.paid
  {
    Job("j4", "Post-Construction " + "Cleanup", "2025-12-10", Completed, "Harbor Development",
        ["Luis", "Carlos", "Miguel"], 380, true, true, 3750, "3104447890",
        Some(true), Some("2025-12-10"), Some("2025-12-12"),
        Some(true), Some(5),
        Some("They handled the " + "post-construction " + "mess like pros. " + "Property was " + "move-in ready!"))
  }

  function J5(): (job: Job)
    ensures job.booked && job.paid
  {
    Job("j5", "Estate Move-Out " + "Deep Clean", "2025-12-12", Completed, "Jennifer Walsh",
        ["Maria", "Sofia", "Elena"], 290, true, true, 2200, "4248881234",
        Some(true), Some("2025-12-12"), Some("2025-12-13"),
        Some(true), Some(5),
        Some("Got my full " + "security deposit " + "back thanks to " + "them. Worth every " + "penny!"))
  }

  function J6(): (job: Job)
    ensures job.booked && job.paid
  {
    Job("j6", "Holiday Party Prep " + "- Mansion", "2025-12-15", Completed, "The Morrison Family",
        ["Maria", "Luis", "Alex", "Sofia", "Rosa"], 600, true, true, 5500, "3109992345",
        Some(true), Some("2025-12-15"), Some("2025-12-15"),
        Some(true), Some(5),
        Some("Our holiday party " + "was a huge success. " + "The house was " + "absolutely " + "spotless. Thank you!"))
  }

  function J7(): (job: Job)
    ensures job.booked && job.paid
  {
    Job("j7", "Airbnb Turnover " + "Package", "2025-12-16", Completed, "Premium Stays LLC",
        ["Alex", "Elena"], 180, true, true, 890, "8187773456",
        Some(true), Some("2025-12-16"), Some("2025-12-16"),
        Some(true), Some(4),
        Some("Quick turnaround " + "and great quality. " + "Will use for all " + "our properties."))
  }

  function J8(): (job: Job)
    ensures job.booked && job.paid
  {
    Job("j8", "Restaurant Deep " + "Clean", "2025-12-18", Completed, "Coastal Kitchen",
        ["Luis", "Carlos", "Miguel", "Rosa"], 420, true, true, 3200, "3106664567",
        Some(true), Some("2025-12-18"), Some("2025-12-20"),
        Some(true), Some(5),
        Some("Kitchen passed " + "health inspection " + "with flying colors. " + "These guys know " + "commercial cleaning!"))
  }

  function J9(): (job: Job)
    ensures job.booked && job.paid
  {
    Job("j9", "Medical Office " + "Sanitization", "2025-12-19", Completed, "Pacific Health " + "Partners",
        ["Maria", "Sofia"], 350, true, true, 1850, "4245555678",
        Some(true), Some("2025-12-19"), Some("2025-12-21"),
        Some(true), Some(5),
        Some("Medical-grade " + "sanitization done " + "right. Our patients " + "feel safe and " + "comfortable."))
  }

  function J10(): (job: Job)
    ensures job.booked && job.paid
  {
    Job("j10", "Penthouse Suite " + "Weekly", "2025-12-20", Completed, "David Sterling",
        ["Maria", "Elena"], 240, true, true, 1200, "3108886789",
        Some(true), Some("2025-12-20"), Some("2025-12-20"),
        Some(true), Some(5),
        Some("Consistent " + "excellence every " + "week. Maria is a " + "gem!"))
  }

  function J11(): (job: Job)
    ensures job.booked && job.paid
  {
    Job("j11", "Holiday Event Venue " + "Prep", "2025-12-21", Completed, "Grand Events LA",
        ["Luis", "Carlos", "Miguel", "Alex", "Rosa"], 480, true, true, 4800, "8184447890",
        Some(true), Some("2025-12-21"), Some("2025-12-22"),
        Some(true), Some(5),
        Some("Event venue was " + "pristine. Our " + "clients were blown " + "away!"))
  }

  function J12(): (job: Job)
    ensures job.booked && job.paid
  {
    Job("j12", "Luxury Auto Showroom", "2025-12-22", Completed, "Beverly Hills Motors",
        ["Alex", "Carlos"], 320, true, true, 2100, "3102228901",
        Some(true), Some("2025-12-22"), Some("2025-12-23"),
        Some(true), Some(5),
        Some("Showroom floor is " + "gleaming. Customers " + "notice the " + "difference!"))
  }

  function J13(): (job: Job)
    ensures job.booked && job.paid
  {
    Job("j13", "New Year Prep - " + "Estate", "2025-12-28", Completed, "The Goldstein " + "Residence",
        ["Maria", "Luis", "Sofia", "Elena"], 520, true, true, 4500, "4249990123",
        Some(true), Some("2025-12-28"), Some("2025-12-28"),
        Some(true), Some(5),
        Some("Perfect prep for " + "our New Year " + "celebration. Highly " + "recommend!"))
  }

  function J14(): (job: Job)
    ensures job.booked && job.paid
  {
    Job("j14", "Corporate HQ " + "Weekend Clean", "2025-12-29", Completed, "TechFlow Industries",
        ["Luis", "Carlos", "Miguel"], 400, true, true, 2800, "8181112345",
        Some(true), Some("2025-12-29"), Some("2025-12-30"),
        Some(true), Some(5),
        Some("Office is spotless " + "for the new year. " + "Great weekend " + "service!"))
  }

  function J15(): (job: Job)
    ensures job.booked && job.paid
  {
    Job("j15", "VIP Residence " + "Monthly", "2025-12-30", Completed, "Marcus Thompson",
        ["Maria", "Sofia"], 280, true, true, 1450, "3105554321",
        Some(true), Some("2025-12-30"), Some("2025-12-30"),
        Some(true), Some(5),
        Some("Another excellent " + "monthly visit. " + "Consistency is key!"))
  }

  function J16(): (job: Job)
    ensures job.booked && job.paid
  {
    Job("j16", "New Year Deep Clean", "2026-01-02", Completed, "Robert Chen",
        ["Maria", "Luis"], 420, true, true, 2850, "3105551234",
        Some(true), Some("2026-01-02"), Some("2026-01-02"),
        Some(true), Some(5),
        Some("Great way to start " + "the new year with a " + "fresh clean home!"))
  }

  function J17(): (job: Job)
    ensures job.booked && !job.paid
  {
    Job("j17", "Premium Condo " + "Service", "2026-01-03", Scheduled, "Sarah Kim",
        ["Alex"], 300, true, false, 1650, "4245559876",
        Some(true), Some("2026-01-02"), None,
        None, None,
        None)
  }

  function J18(): (job: Job)
    ensures job.booked && !job.paid
  {
    Job("j18", "Executive Move-Out", "2026-01-05", Scheduled, "Mike Johnson",
        ["Maria", "Sofia"], 180, true, false, 2400, "8185552233",
        Some(true), Some("2026-01-03"), None,
        None, None,
        None)
  }

  function J19(): (job: Job)
    ensures job.booked && !job.paid
  {
    Job("j19", "Boutique Hotel " + "Contract", "2026-01-06", Scheduled, "The Avalon Hotel",
        ["Luis", "Carlos", "Elena"], 450, true, false, 6200, "3107779012",
        Some(true), Some("2026-01-04"), None,
        None, None,
        None)
  }

  function J20(): (job: Job)
    ensures job.booked && !job.paid
  {
    Job("j20", "Wellness Spa Weekly", "2026-01-07", Scheduled, "Serenity Spa & " + "Wellness",
        ["Maria", "Rosa"], 260, true, false, 1800, "4243332109",
        Some(true), Some("2026-01-05"), None,
        None, None,
        None)
  }

  /** The twelve demonstration calls, in listing order. */
  function MockCalls(): (calls: seq<Call>)
    ensures |calls| == 12
    ensures forall i :: 0 <= i < 12 ==> calls[i] == MockCall(i)
  {
    seq(12, i requires 0 <= i < 12 => MockCall(i))
  }

  function MockCall(i: nat): (call: Call)
    requires i < 12
  {
    match i
    case 0 => C1()
    case 1 => C2()
    case 2 => C3()
    case 3 => C4()
    case 4 => C5()
    case 5 => C6()
    case 6 => C7()
    case 7 => C8()
    case 8 => C9()
    case 9 => C10()
    case 10 => C11()
    case 11 => C12()
  }

  function C1(): Call {
    Call("c1", "3105551234", "Robert Chen", DateTime("2026-01-01T10:30:00Z", 1767263400000), 420,
         Some("https://example.com/recordings/call-c1.mp3"), None, Some(Booked))
  }

  function C2(): Call {
    Call("c2", "4245559876", "Sarah Kim", DateTime("2026-01-02T14:15:00Z", 1767363300000), 300,
         Some("https://example.com/recordings/call-c2.mp3"), None, Some(Booked))
  }

  function C3(): Call {
    Call("c3", "3105551234", "Robert Chen", DateTime("2025-12-28T16:45:00Z", 1766940300000), 180,
         Some("https://example.com/recordings/call-c3.mp3"), None, Some(Booked))
  }

  function C4(): Call {
    Call("c4", "8185552233", "Westfield Properties", DateTime("2025-12-07T11:20:00Z", 1765106400000), 540,
         Some("https://example.com/recordings/call-c4.mp3"), None, Some(Booked))
  }

  function C5(): Call {
    Call("c5", "4245559876", "Sarah Kim", DateTime("2025-12-04T09:00:00Z", 1764838800000), 120,
         Some("https://example.com/recordings/call-c5.mp3"), None, Some(Booked))
  }

  function C6(): Call {
    Call("c6", "3109992345", "The Morrison Family", DateTime("2025-12-13T10:00:00Z", 1765620000000), 600,
         Some("https://example.com/recordings/call-c6.mp3"), None, Some(Booked))
  }

  function C7(): Call {
    Call("c7", "3107779012", "The Avalon Hotel", DateTime("2026-01-04T15:30:00Z", 1767540600000), 450,
         Some("https://example.com/recordings/call-c7.mp3"), None, Some(Booked))
  }

  function C8(): Call {
    Call("c8", "8184447890", "Grand Events LA", DateTime("2025-12-19T11:00:00Z", 1766142000000), 480,
         Some("https://example.com/recordings/call-c8.mp3"), None, Some(Booked))
  }

  function C9(): Call {
    Call("c9", "4249990123", "The Goldstein " + "Residence", DateTime("2025-12-26T14:00:00Z", 1766757600000), 520,
         Some("https://example.com/recordings/call-c9.mp3"), None, Some(Booked))
  }

  function C10(): Call {
    Call("c10", "3106664567", "Coastal Kitchen", DateTime("2025-12-16T09:30:00Z", 1765877400000), 420,
         Some("https://example.com/recordings/call-c10.mp3"), None, Some(Booked))
  }

  function C11(): Call {
    Call("c11", "4243332109", "Serenity Spa & " + "Wellness", DateTime("2026-01-05T16:00:00Z", 1767628800000), 260,
         Some("https://example.com/recordings/call-c11.mp3"), None, Some(Booked))
  }

  function C12(): Call {
    Call("c12", "3102228901", "Beverly Hills Motors", DateTime("2025-12-20T13:00:00Z", 1766235600000), 320,
         Some("https://example.com/recordings/call-c12.mp3"), None, Some(Booked))
  }

  /** The six hand-written caller profiles, in listing order; each lists the calls of its own number. */
  function MockProfiles(): (profiles: seq<CallerProfile>)
    ensures |profiles| == 6
    ensures forall i :: 0 <= i < 6 ==> profiles[i] == MockProfile(i)
  {
    seq(6, i requires 0 <= i < 6 => MockProfile(i))
  }

  function MockProfile(i: nat): (profile: CallerProfile)
    requires i < 6
    ensures profile.calls == CallsOf(MockCalls(), profile.phoneNumber)
  {
    match i
    case 0 => P1(MockCalls())
    case 1 => P2(MockCalls())
    case 2 => P3(MockCalls())
    case 3 => P4(MockCalls())
    case 4 => P5(MockCalls())
    case 5 => P6(MockCalls())
  }

  /** Over the call list `calls` (the mock calls in the dashboard), the hand-written profile of Robert Chen. */
  function P1(calls: seq<Call>): (profile: CallerProfile)
    ensures profile.calls == CallsOf(calls, profile.phoneNumber)
  {
    CallerProfile("3105551234", "Robert Chen", 3,
      [
        Message(ClientRole, "Hi, I need your " + "premium deep " + "cleaning service " + "for my 6-bedroom " + "estate in Bel Air.",
                "2026-01-01T10:30:00Z"),
        Message(BotRole, "Hello Mr. Chen! " + "Wonderful to hear " + "from you again. I " + "can absolutely " + "arrange our " + "executive deep " + "cleaning service. " + "Would you like the " + "same team as last " + "time?",
                "2026-01-01T10:30:30Z"),
        Message(ClientRole, "Yes, Maria and her " + "team were " + "excellent. Can we " + "do January 2nd?",
                "2026-01-01T10:31:00Z"),
        Message(BusinessRole, "Perfect! I have " + "Maria, Luis, and " + "Sofia available on " + "January 2nd. For " + "the full estate " + "service, that will " + "be $2,850. Shall I " + "confirm?",
                "2026-01-01T10:32:00Z"),
        Message(ClientRole, "Yes, please book " + "it. Same payment " + "method on file.",
                "2026-01-01T10:32:30Z")
      ],
      DateTime("2026-01-01T10:30:00Z", 1767263400000), CallsOf(calls, "3105551234"))
  }

  /** Over the call list `calls` (the mock calls in the dashboard), the hand-written profile of Sarah Kim. */
  function P2(calls: seq<Call>): (profile: CallerProfile)
    ensures profile.calls == CallsOf(calls, profile.phoneNumber)
  {
    CallerProfile("4245559876", "Sarah Kim", 2,
      [
        Message(ClientRole, "I need the luxury " + "condo turnover " + "service again for " + "my downtown " + "penthouse.",
                "2026-01-02T14:15:00Z"),
        Message(BotRole, "Hi Sarah! Great to " + "hear from you. Your " + "penthouse at The " + "Ritz Carlton, " + "correct? When do " + "you need the " + "service?",
                "2026-01-02T14:15:15Z"),
        Message(ClientRole, "Yes, that's right. " + "January 3rd before " + "my guests arrive.",
                "2026-01-02T14:16:00Z"),
        Message(BusinessRole, "I have Alex " + "available for " + "January 3rd. The " + "premium condo " + "service is $1,650. " + "Shall I schedule it?",
                "2026-01-02T14:17:00Z"),
        Message(ClientRole, "Perfect, book it!",
                "2026-01-02T14:17:30Z")
      ],
      DateTime("2026-01-02T14:15:00Z", 1767363300000), CallsOf(calls, "4245559876"))
  }

  /** Over the call list `calls` (the mock calls in the dashboard), the hand-written profile of Westfield Properties. */
  function P3(calls: seq<Call>): (profile: CallerProfile)
    ensures profile.calls == CallsOf(calls, profile.phoneNumber)
  {
    CallerProfile("8185552233", "Westfield Properties", 2,
      [
        Message(ClientRole, "We need a move-out " + "cleaning for one of " + "our executive " + "rental units. 4 " + "bed, 3 bath.",
                "2026-01-03T11:20:00Z"),
        Message(BotRole, "Hello! I can help " + "with that executive " + "move-out cleaning. " + "When is the " + "property available?",
                "2026-01-03T11:20:20Z"),
        Message(ClientRole, "January 5th. We " + "need it spotless " + "for the new tenant " + "showing on the 6th.",
                "2026-01-03T11:21:00Z"),
        Message(BusinessRole, "Understood - we'll " + "make it immaculate. " + "For the executive " + "move-out service, " + "that's $2,400. " + "Maria and Sofia are " + "available.",
                "2026-01-03T11:22:00Z"),
        Message(ClientRole, "Book it. Send the " + "invoice to our " + "property management " + "email.",
                "2026-01-03T11:22:30Z")
      ],
      DateTime("2026-01-03T11:20:00Z", 1767439200000), CallsOf(calls, "8185552233"))
  }

  /** Over the call list `calls` (the mock calls in the dashboard), the hand-written profile of The Morrison Family. */
  function P4(calls: seq<Call>): (profile: CallerProfile)
    ensures profile.calls == CallsOf(calls, profile.phoneNumber)
  {
    CallerProfile("3109992345", "The Morrison Family", 1,
      [
        Message(ClientRole, "We're hosting a " + "200-person holiday " + "party at our " + "estate. Need your " + "best team.",
                "2025-12-13T10:00:00Z"),
        Message(BotRole, "What an exciting " + "event! We'd be " + "honored to prepare " + "your estate. How " + "many square feet " + "are we working with?",
                "2025-12-13T10:00:30Z"),
        Message(ClientRole, "About 12,000 sq ft " + "main house plus the " + "guest house and " + "outdoor " + "entertainment areas.",
                "2025-12-13T10:01:30Z"),
        Message(BusinessRole, "For a property of " + "that scale with " + "full event prep, " + "I'll send our " + "A-team - Maria, " + "Luis, Alex, Sofia, " + "and Rosa. The " + "comprehensive " + "package is $5,500.",
                "2025-12-13T10:02:30Z"),
        Message(ClientRole, "Worth every penny. " + "December 15th, " + "please.",
                "2025-12-13T10:03:00Z")
      ],
      DateTime("2025-12-13T10:00:00Z", 1765620000000), CallsOf(calls, "3109992345"))
  }

  /** Over the call list `calls` (the mock calls in the dashboard), the hand-written profile of The Avalon Hotel. */
  function P5(calls: seq<Call>): (profile: CallerProfile)
    ensures profile.calls == CallsOf(calls, profile.phoneNumber)
  {
    CallerProfile("3107779012", "The Avalon Hotel", 1,
      [
        Message(ClientRole, "We're interested in " + "a contract for our " + "boutique hotel. 24 " + "rooms, daily " + "turnover.",
                "2026-01-04T15:30:00Z"),
        Message(BotRole, "Excellent! We'd " + "love to partner " + "with The Avalon. " + "What service " + "frequency are you " + "looking for?",
                "2026-01-04T15:30:30Z"),
        Message(ClientRole, "We need 6 days a " + "week coverage, " + "premium service for " + "a luxury property.",
                "2026-01-04T15:31:30Z"),
        Message(BusinessRole, "For a dedicated " + "team and premium " + "boutique hotel " + "service, we can " + "offer a monthly " + "contract at $6,200. " + "That includes " + "priority scheduling " + "and our best staff.",
                "2026-01-04T15:32:30Z"),
        Message(ClientRole, "Let's start with " + "January. Send over " + "the contract.",
                "2026-01-04T15:33:00Z")
      ],
      DateTime("2026-01-04T15:30:00Z", 1767540600000), CallsOf(calls, "3107779012"))
  }

  /** Over the call list `calls` (the mock calls in the dashboard), the hand-written profile of Serenity Spa & Wellness. */
  function P6(calls: seq<Call>): (profile: CallerProfile)
    ensures profile.calls == CallsOf(calls, profile.phoneNumber)
  {
    CallerProfile("4243332109", "Serenity Spa & " + "Wellness", 1,
      [
        Message(ClientRole, "Hi, we need weekly " + "deep sanitization " + "for our wellness " + "spa. Very " + "particular about " + "cleanliness.",
                "2026-01-05T16:00:00Z"),
        Message(BotRole, "Of course! Wellness " + "spaces require " + "meticulous " + "attention. How many " + "treatment rooms and " + "common areas?",
                "2026-01-05T16:00:30Z"),
        Message(ClientRole, "8 treatment rooms, " + "sauna, steam room, " + "relaxation lounge, " + "and reception. " + "About 4,000 sq ft " + "total.",
                "2026-01-05T16:01:30Z"),
        Message(BusinessRole, "For a spa of that " + "caliber, our weekly " + "wellness facility " + "service is $1,800. " + "We use all " + "eco-friendly, " + "hypoallergenic " + "products.",
                "2026-01-05T16:02:30Z"),
        Message(ClientRole, "That's exactly what " + "we need. Book us " + "for every Tuesday.",
                "2026-01-05T16:03:00Z")
      ],
      DateTime("2026-01-05T16:00:00Z", 1767628800000), CallsOf(calls, "4243332109"))
  }


  // ---------------------------------------------------------------------------
  // Facts about the literal data

  /** All twenty mock jobs are booked. */
  lemma MockJobsAllBooked()
    ensures BookedJobs(MockJobs()) == MockJobs()
  {
    AllBooked(MockJobs());
  }

  /** The paid mock jobs are the sixteen December jobs. */
  lemma MockPaidJobsAreDecember()
    ensures PaidJobs(MockJobs()) == MockJobs()[..16]
  {
    var jobs := MockJobs();
    forall i | 0 <= i < |jobs|
      ensures jobs[i].paid <==> i < 16
    {
      assert jobs[i] == MockJob(i);
    }
    PaidPrefix(jobs, 16);
  }

  lemma NoRobertChenAfterC3()
    ensures forall i :: 3 <= i < 12 ==> MockCall(i).phoneNumber != "3105551234"
  {
  }

  lemma RobertChenUpToC3()
    ensures CallsOf(MockCalls()[..3], "3105551234") == [MockCall(0), MockCall(2)]
  {
    var p := "3105551234";
    var c1, c2, c3 := MockCall(0), MockCall(1), MockCall(2);
    assert MockCalls()[..3] == [c1] + [c2] + [c3];
    CallsOfSnoc([c1], c2, p);
    CallsOfSnoc([c1] + [c2], c3, p);
    assert CallsOf([c1], p) == [c1];
  }

  /** Robert Chen's number matches the calls c1 and c3 and no other. */
  lemma MockCallsOfRobertChen()
    ensures CallsOf(MockCalls(), "3105551234") == [MockCall(0), MockCall(2)]
  {
    var calls, p := MockCalls(), "3105551234";
    var rest := calls[3..];
    assert calls == calls[..3] + rest;
    CallsOfAppend(calls[..3], rest, p);
    NoRobertChenAfterC3();
    forall i | 0 <= i < |rest| ensures rest[i].phoneNumber != p {
      assert rest[i] == MockCall(i + 3);
    }
    CallsOfNone(rest, p);
    RobertChenUpToC3();
  }

  lemma NoWestfieldBesidesC4()
    ensures forall i :: 0 <= i < 12 && i != 3 ==> MockCall(i).phoneNumber != "8185552233"
  {
  }

  /** Westfield Properties' number matches the call c4 and no other. */
  lemma MockCallsOfWestfield()
    ensures CallsOf(MockCalls(), "8185552233") == [MockCall(3)]
  {
    var calls, p := MockCalls(), "8185552233";
    var before, after := calls[..3], calls[4..];
    assert calls == before + [calls[3]] + after;
    NoWestfieldBesidesC4();
    forall i | 0 <= i < |before| ensures before[i].phoneNumber != p {
      assert before[i] == MockCall(i);
    }
    forall i | 0 <= i < |after| ensures after[i].phoneNumber != p {
      assert after[i] == MockCall(i + 4);
    }
    CallsOfNone(before, p);
    CallsOfNone(after, p);
    CallsOfAppend(before + [calls[3]], after, p);
    CallsOfAppend(before, [calls[3]], p);
    assert CallsOf([calls[3]], p) == [calls[3]];
  }

  /** Robert Chen's hand-written profile claims three calls, but only two calls carry his number. */
  lemma RobertChenProfileMiscounted()
    ensures P1(MockCalls()).phoneNumber == "3105551234"
    ensures P1(MockCalls()).totalCalls == 3 && |P1(MockCalls()).calls| == 2
  {
    MockCallsOfRobertChen();
  }

  /**
   * Westfield Properties' hand-written profile claims two calls and a last
   * call on 2026-01-03, but its one call is c4, a month earlier.
   */
  lemma WestfieldProfileMisdated()
    ensures P3(MockCalls()).phoneNumber == "8185552233"
    ensures P3(MockCalls()).totalCalls == 2 && |P3(MockCalls()).calls| == 1
    ensures forall c :: c in P3(MockCalls()).calls ==> c.date.instant < P3(MockCalls()).lastCallDate.instant
  {
    MockCallsOfWestfield();
  }
}

/** A run in which an untimed commit takes a GPU that another job has booked for that very moment. */
module UntimedCommit {
  import opened Domain
  import opened Accounting
  import opened Calendar
  import opened StoreSpec
  import opened StoreSteps
  import opened StoreInvariant
  import opened ReplanInvariant
  import opened StoreRuns
  import opened Scenario
  import Sorting

  const HOST: Id := 1
  const CARD: Id := 7
  const TIMED: Id := 11
  const UNTIMED: Id := 12
  const ORDER: Id := 21
  const NOON: Time := 150

  // ---------------------------------------------------------------- The actors

  function TimedJob(): Job {
    Submitted(TIMED, Necessity1, Needed(100), 1, 1)
  }

  function UntimedJob(): Job {
    Submitted(UNTIMED, Necessity1, Blank, 0, 1)
  }

  function TakenCard(): GPU {
    Card(CARD).(state := Reserved, assignedJob := UNTIMED)
  }

  function Place(): Placement {
    Placement(HOST, [CARD], FirstFit, 0.0, Given(2), Decision(Competitive, 0, ZERO_TIME))
  }

  function BookIt(): PlanEntry {
    PlanEntry(TIMED, Some(Place()), Decision(Competitive, 0, ZERO_TIME), HeldForWindow)
  }

  function Launch(): Command {
    Command(ORDER, HOST, StartCommand, Pending, UNTIMED, 0, NOON, None, None, None)
  }

  // ---------------------------------------------------------------- The run

  function Arrival(): seq<Step> {
    [] + [UpsertStep(Registered(HOST))] + [InventoryStep(HOST, FullReport([Card(CARD)]))]
    + [CreateStep(TimedJob())] + [CreateStep(UntimedJob())]
  }

  function Walk(): seq<Step> {
    Arrival() + [ReplanStep(20, Ok([BookIt()]))] + [CommitStep(UNTIMED, Place(), Launch(), NOON)]
  }

  function Submissions(): State {
    State(map[HOST := Ready(HOST, [Card(CARD)])], map[HOST := HOST], map[TIMED := TimedJob(), UNTIMED := UntimedJob()],
          map[], TIMEOUT)
  }

  function Booked(): State {
    Submissions().(jobs := map[TIMED := PlacedJob(TimedJob(), BookIt(), 20), UNTIMED := UntimedJob()])
  }

  function Taken(): State {
    State(map[HOST := Ready(HOST, [TakenCard()])], map[HOST := HOST],
          map[TIMED := PlacedJob(TimedJob(), BookIt(), 20),
              UNTIMED := CommittedJob(UntimedJob(), Place(), Launch(), NOON)],
          map[ORDER := Launch()], TIMEOUT)
  }

  lemma Arrive()
    ensures LegalRun(Initial(TIMEOUT), Arrival()) && Run(Initial(TIMEOUT), Arrival()) == Submissions()
  {
    hide Run, LegalRun;
    var init, reported := Initial(TIMEOUT), InventoryStep(HOST, FullReport([Card(CARD)]));
    EmptyRun(init);
    HostArrives(init, [], HOST, [Card(CARD)]);
    JobArrives(init, [] + [UpsertStep(Registered(HOST))] + [reported], TimedJob());
    JobArrives(init, [] + [UpsertStep(Registered(HOST))] + [reported] + [CreateStep(TimedJob())], UntimedJob());
  }

  /** The planner's entry is accepted: the only GPU is open and the other job books nothing. */
  lemma BookingIsOpen()
    ensures EntryValid(Submissions(), 20, BookIt(), SnapshotServers(Submissions()),
                       NotPlanned(SnapshotJobs(Submissions()), [BookIt()]))
  {
    hide SnapshotServers, SnapshotJobs, ProjectAll, ProjectServer, NotPlanned;
    var st, job := Submissions(), TimedJob();
    var servers, bookings := SnapshotServers(st), NotPlanned(SnapshotJobs(st), [BookIt()]);
    NobodyElseBooks(bookings);
    SnapshotHasEverything(st);
    assert st.servers[HOST] in st.servers.Values;
    ProjectAllMembers(job, servers, bookings, 20, TIMEOUT);
    CardIsOpen(bookings);
    var projected := ProjectServer(job, Ready(HOST, [Card(CARD)]), bookings, 20);
    assert projected in CalendarServers(job, servers, bookings, 20, TIMEOUT);
  }

  lemma NobodyElseBooks(bookings: seq<Job>)
    requires bookings == NotPlanned(SnapshotJobs(Submissions()), [BookIt()])
    ensures forall b :: b in bookings ==> b.assignment.None?
  {
    hide SnapshotJobs;
    SnapshotHasEverything(Submissions());
    Sorting.FilterMembers((j: Job) => !Planned([BookIt()], j.id), SnapshotJobs(Submissions()));
  }

  lemma CardIsOpen(bookings: seq<Job>)
    requires forall b :: b in bookings ==> b.assignment.None?
    ensures var projected := ProjectServer(TimedJob(), Ready(HOST, [Card(CARD)]), bookings, 20);
      projected.id == HOST && projected.Schedulable(20, TIMEOUT) && PlacementMatches(TimedJob(), projected, Place())
  {
    OpenExactly(TimedJob(), HOST, Card(CARD), bookings, 20);
    var projected := ProjectServer(TimedJob(), Ready(HOST, [Card(CARD)]), bookings, 20);
    assert projected.gpus == [ProjectGPU(TimedJob(), HOST, Card(CARD), bookings, 20)];
    assert projected.gpus[0].uuid == CARD && projected.gpus[0] in projected.gpus;
    assert TimedJob().resources.Matches(projected.gpus[0]);
  }

  lemma BookingStep()
    ensures Legal(Submissions(), ReplanStep(20, Ok([BookIt()])))
    ensures Apply(Submissions(), ReplanStep(20, Ok([BookIt()]))) == Booked()
  {
    hide EntryValid, SnapshotServers, SnapshotJobs, NotPlanned, PlacedJob;
    BookingIsOpen();
    var st := Submissions();
    assert [BookIt()][1..] == [];
    assert Claimable(st, 20, [BookIt()]);
    assert st.jobs + map[TIMED := PlacedJob(TimedJob(), BookIt(), 20)] == Booked().jobs;
  }

  lemma TakingStep()
    ensures Legal(Booked(), CommitStep(UNTIMED, Place(), Launch(), NOON))
    ensures Apply(Booked(), CommitStep(UNTIMED, Place(), Launch(), NOON)) == Taken()
  {
    assert ReserveGPUs([Card(CARD)], [CARD], UNTIMED) == [TakenCard()];
  }

  /** At noon the untimed job holds the GPU that the timed one has booked for that moment; its START may be handed
      out, and the timed job's own dispatch is refused. */
  lemma UntimedCommitTakesBookedGPU()
    ensures LegalRun(Initial(TIMEOUT), Walk())
    ensures var st := Run(Initial(TIMEOUT), Walk());
      && TIMED in st.jobs && UNTIMED in st.jobs && ORDER in st.commands
      && Books(st.jobs[TIMED], HOST, CARD) && st.jobs[TIMED].assignment.value.Window().Contains(NOON)
      && Holds(st.jobs[UNTIMED], HOST, CARD) && Leasable(st, HOST, st.commands[ORDER], NOON)
      && forall p: Placement, c :: CommitAssignment(st, TIMED, p, c, NOON).Err?
  {
    hide Run, LegalRun, Apply, Legal, CommitAssignment, Leasable;
    var init := Initial(TIMEOUT);
    Arrive();
    BookingStep();
    RunExtends(init, Arrival(), ReplanStep(20, Ok([BookIt()])));
    TakingStep();
    RunExtends(init, Arrival() + [ReplanStep(20, Ok([BookIt()]))], CommitStep(UNTIMED, Place(), Launch(), NOON));
    TakenFacts();
  }

  lemma TakenFacts()
    ensures Books(Taken().jobs[TIMED], HOST, CARD) && Taken().jobs[TIMED].assignment.value.Window().Contains(NOON)
    ensures Holds(Taken().jobs[UNTIMED], HOST, CARD) && Leasable(Taken(), HOST, Launch(), NOON)
    ensures forall p: Placement, c :: CommitAssignment(Taken(), TIMED, p, c, NOON).Err?
  {
    forall p: Placement, c: Command ensures CommitAssignment(Taken(), TIMED, p, c, NOON).Err? {
      if p.gpus == [CARD] {
        assert CARD in p.gpus;
        assert Ready(HOST, [TakenCard()]).gpus[0] in Taken().servers[HOST].gpus;
      }
    }
  }
}

/** The Agent's durable command loop: results are stored before they are acknowledged, stored commands are not run
  again, and inventory sequence numbers are taken from disk before they are used. */
module AgentRunner {
  import opened Domain
  import opened Accounting

  datatype Stored = Stored(ack: Ack, at: Time)

  datatype Memory = Memory(identity: Id, sequence: int, processed: map<Id, Stored>)

  /** A save is one atomic commit that may fail, and may fail after the commit took place. */
  datatype Save = Saved | Lost | Torn

  // ---------------------------------------------------------------- The bounded history

  predicate Oldest(m: map<Id, Stored>, k: Id) {
    k in m && forall j :: j in m ==> m[k].at <= m[j].at
  }

  /** A possible outcome of eviction: results of equal age leave in any order. */
  ghost predicate Evicts(m: map<Id, Stored>, limit: nat, r: map<Id, Stored>)
    decreases |m|
  {
    if |m| <= limit then r == m
    else exists k :: Oldest(m, k) && k in m && Evicts(m - {k}, limit, r)
  }

  /** Other results at least as young as `id`. */
  function Younger(m: map<Id, Stored>, id: Id, at: Time): set<Id> {
    set k | k in m && k != id && m[k].at >= at
  }

  lemma RemovedSize(m: map<Id, Stored>, k: Id)
    requires k in m
    ensures |m - {k}| == |m| - 1 && (m - {k}).Keys == m.Keys - {k}
  {
    assert (m - {k}).Keys == m.Keys - {k};
    assert |m.Keys - {k}| == |m.Keys| - 1;
  }

  lemma {:induction false} OldestExists(m: map<Id, Stored>) returns (k: Id)
    requires |m| > 0
    ensures Oldest(m, k)
    decreases |m|
  {
    var some := AnyKey(m);
    RemovedSize(m, some);
    if |m| == 1 {
      assert m.Keys - {some} == {};
      forall j | j in m ensures j == some {
        assert j !in m.Keys - {some};
      }
      k := some;
    } else {
      var rest := OldestExists(m - {some});
      k := if m[some].at <= m[rest].at then some else rest;
      forall j | j in m ensures m[k].at <= m[j].at {
        if j != some {
          assert j in m - {some};
        }
      }
    }
  }

  lemma AnyKey(m: map<Id, Stored>) returns (k: Id)
    requires |m| > 0
    ensures k in m
  {
    k := Least(m.Keys);
  }

  lemma Least<T>(s: set<T>) returns (x: T)
    requires |s| > 0
    ensures x in s
  {
    x :| x in s;
  }

  lemma {:induction false} SomeEviction(m: map<Id, Stored>, limit: nat) returns (r: map<Id, Stored>)
    ensures Evicts(m, limit, r) && forall k :: k in r ==> k in m && r[k] == m[k]
    decreases |m|
  {
    if |m| <= limit {
      r := m;
    } else {
      var k := OldestExists(m);
      RemovedSize(m, k);
      r := SomeEviction(m - {k}, limit);
    }
  }

  /** Eviction keeps at most `limit` results, each as it was stored, and loses none while there is room. */
  lemma {:induction false} EvictionSelects(m: map<Id, Stored>, limit: nat, r: map<Id, Stored>)
    requires Evicts(m, limit, r)
    ensures |r| <= limit && (|m| <= limit ==> r == m) && forall k :: k in r ==> k in m && r[k] == m[k]
    decreases |m|
  {
    if |m| > limit {
      var k :| Oldest(m, k) && k in m && Evicts(m - {k}, limit, r);
      RemovedSize(m, k);
      EvictionSelects(m - {k}, limit, r);
    }
  }

  /** With fewer than `limit` other results as young, no order of eviction loses `id`. */
  lemma {:induction false} YoungIsKept(m: map<Id, Stored>, limit: nat, r: map<Id, Stored>, id: Id)
    requires id in m && Evicts(m, limit, r) && |Younger(m, id, m[id].at)| < limit
    ensures id in r && r[id] == m[id]
    decreases |m|
  {
    if |m| > limit {
      var k :| Oldest(m, k) && k in m && Evicts(m - {k}, limit, r);
      RemovedSize(m, k);
      if k == id {
        OldestHasAllYounger(m, id);
        assert false;
      } else {
        FewerYounger(m, id, k);
        YoungIsKept(m - {k}, limit, r, id);
      }
    }
  }

  lemma OldestHasAllYounger(m: map<Id, Stored>, id: Id)
    requires Oldest(m, id)
    ensures |Younger(m, id, m[id].at)| == |m| - 1
  {
    RemovedSize(m, id);
    forall k ensures k in Younger(m, id, m[id].at) <==> k in m.Keys - {id} {
    }
    assert Younger(m, id, m[id].at) == m.Keys - {id};
  }

  lemma FewerYounger(m: map<Id, Stored>, id: Id, k: Id)
    requires id in m && k in m && k != id
    ensures Younger(m - {k}, id, m[id].at) == Younger(m, id, m[id].at) - {k}
    ensures |Younger(m - {k}, id, m[id].at)| <= |Younger(m, id, m[id].at)|
    ensures k !in Younger(m, id, m[id].at) ==> Younger(m - {k}, id, m[id].at) == Younger(m, id, m[id].at)
  {
    assert Younger(m - {k}, id, m[id].at) == Younger(m, id, m[id].at) - {k};
    if k in Younger(m, id, m[id].at) {
      assert |Younger(m, id, m[id].at) - {k}| == |Younger(m, id, m[id].at)| - 1;
    } else {
      assert Younger(m, id, m[id].at) - {k} == Younger(m, id, m[id].at);
    }
  }

  /** Otherwise some order does. */
  lemma {:induction false} OldCanBeLost(m: map<Id, Stored>, limit: nat, id: Id) returns (r: map<Id, Stored>)
    requires id in m && |Younger(m, id, m[id].at)| >= limit
    ensures Evicts(m, limit, r) && id !in r
    decreases |m|
  {
    YoungerFits(m, id);
    var k := OldestExists(m);
    if m[k].at >= m[id].at {
      assert Oldest(m, id);
      RemovedSize(m, id);
      r := SomeEviction(m - {id}, limit);
      assert id !in m - {id};
    } else {
      RemovedSize(m, k);
      FewerYounger(m, id, k);
      r := OldCanBeLost(m - {k}, limit, id);
      assert Oldest(m, k) && k in m && Evicts(m - {k}, limit, r);
    }
  }

  lemma YoungerFits(m: map<Id, Stored>, id: Id)
    requires id in m
    ensures |Younger(m, id, m[id].at)| < |m|
  {
    RemovedSize(m, id);
    SubsetIsSmaller(Younger(m, id, m[id].at), m.Keys - {id});
  }

  lemma SubsetIsSmaller(a: set<Id>, b: set<Id>)
    requires a <= b
    ensures |a| <= |b|
  {
    assert b == a + (b - a);
    assert |b| == |a| + |b - a|;
  }

  // ---------------------------------------------------------------- One process and its disk

  /** Where the command loop is with one command. */
  datatype Phase =
    | Idle
    | Admitted(id: Id)
    | Executed(id: Id, ack: Ack)
    | Settled(id: Id, ack: Ack)
    | Acking(id: Id, ack: Ack)

  /** A report as the control plane received it. */
  datatype Sent = Sent(sequence: int, body: Id)

  /** The last three fields record what the outside saw. */
  datatype Agent = Agent(memory: Memory, disk: Memory, failed: bool, phase: Phase,
                         executed: seq<Id>, acked: seq<(Id, Ack)>, reported: seq<Sent>)

  function SaveState(a: Agent, outcome: Save): Agent {
    if a.failed then a
    else
      match outcome
      case Saved => a.(disk := a.memory)
      case Lost => a.(failed := true)
      case Torn => a.(disk := a.memory, failed := true)
  }

  /** A report whose agent was not recognised is sent again, as it is, after registration: `copies` counts the
      sendings. */
  datatype Move =
    | SendReport(outcome: Save, body: Id, copies: nat)
    | Register(identity: Id, outcome: Save)
    | Admit(id: Id)
    | Look(ack: Ack)
    | Remember(at: Time, kept: map<Id, Stored>, outcome: Save)
    | Check
    | SendAck
    | Reboot

  function Remembered(m: Memory, id: Id, ack: Ack, at: Time): map<Id, Stored> {
    m.processed[id := Stored(ack, at)]
  }

  ghost predicate LegalMove(a: Agent, move: Move, limit: nat) {
    match move
    case Remember(at, kept, _) =>
      a.phase.Executed? ==> Evicts(Remembered(a.memory, a.phase.id, a.phase.ack, at), limit, kept)
    case _ => true
  }

  function Next(a: Agent, move: Move): Agent {
    match move
    case SendReport(outcome, body, copies) =>
      var bumped := a.(memory := a.memory.(sequence := a.memory.sequence + 1));
      var saved := SaveState(bumped, outcome);
      if saved.failed then saved.(memory := a.memory)
      else saved.(reported := a.reported + seq(copies, i => Sent(saved.memory.sequence, body)))
    case Register(identity, outcome) => SaveState(a.(memory := a.memory.(identity := identity)), outcome)
    case Admit(id) => if a.phase == Idle && !a.failed then a.(phase := Admitted(id)) else a
    case Look(ack) =>
      if !a.phase.Admitted? then a
      else if a.phase.id in a.memory.processed then a.(phase := Settled(a.phase.id, a.memory.processed[a.phase.id].ack))
      else a.(phase := Executed(a.phase.id, ack), executed := a.executed + [a.phase.id])
    case Remember(at, kept, outcome) =>
      if !a.phase.Executed? then a
      else
        var saved := SaveState(a.(memory := a.memory.(processed := kept)), outcome);
        saved.(phase := if saved.failed then Idle else Settled(a.phase.id, a.phase.ack))
    case Check =>
      if !a.phase.Settled? then a else a.(phase := if a.failed then Idle else Acking(a.phase.id, a.phase.ack))
    case SendAck => if !a.phase.Acking? then a else a.(phase := Idle, acked := a.acked + [(a.phase.id, a.phase.ack)])
    case Reboot => a.(memory := a.disk, failed := false, phase := Idle)
  }

  // ---------------------------------------------------------------- The invariant of the process

  /** The stored result of a command. */
  predicate OnDisk(a: Agent, id: Id, ack: Ack) {
    id in a.disk.processed && a.disk.processed[id].ack == ack
  }

  ghost predicate AgentOk(a: Agent) {
    && (!a.failed ==> a.memory == a.disk)
    && (!a.phase.Idle? ==> a.memory.processed == a.disk.processed)
    && a.memory.sequence <= a.disk.sequence
    && NeverReused(a)
  }

  /** Sequence numbers never go back, two sendings under one number are the same report, and none is ahead of the
      disk. */
  ghost predicate NeverReused(a: Agent) {
    && (forall i :: 0 <= i < |a.reported| ==> a.reported[i].sequence <= a.disk.sequence)
    && (forall i, j :: 0 <= i < j < |a.reported| ==>
          a.reported[i].sequence < a.reported[j].sequence || a.reported[i] == a.reported[j])
  }

  lemma NextKeepsAgentOk(a: Agent, move: Move)
    requires AgentOk(a)
    ensures AgentOk(Next(a, move))
  {
  }

  /** The process fails with the first save that reports an error, whether or not that save reached the disk, and works
      again only from what the disk holds. */
  lemma FailsExactly(a: Agent, move: Move)
    ensures Next(a, move).failed
       <==> match move
            case SendReport(outcome, _, _) => a.failed || outcome != Saved
            case Register(_, outcome) => a.failed || outcome != Saved
            case Remember(_, _, outcome) => a.failed || (a.phase.Executed? && outcome != Saved)
            case Reboot => false
            case _ => a.failed
    ensures a.failed || move.Reboot? ==> Next(a, move).disk == a.disk
    ensures move.Reboot? ==> Next(a, move) == a.(memory := a.disk, failed := false, phase := Idle)
    ensures move.SendReport? && !a.failed ==>
      Next(a, move).disk == if move.outcome == Lost then a.disk else a.memory.(sequence := a.memory.sequence + 1)
  {
  }

  function Boot(disk: Memory): Agent {
    Agent(disk, disk, false, Idle, [], [], [])
  }

  function Moves(a: Agent, moves: seq<Move>): Agent {
    if moves == [] then a else Next(Moves(a, moves[..|moves| - 1]), moves[|moves| - 1])
  }

  ghost predicate LegalMoves(a: Agent, moves: seq<Move>, limit: nat) {
    forall i :: 0 <= i < |moves| ==> LegalMove(Moves(a, moves[..i]), moves[i], limit)
  }

  lemma {:induction false} MovesKeepAgentOk(a: Agent, moves: seq<Move>)
    requires AgentOk(a)
    ensures AgentOk(Moves(a, moves))
  {
    hide AgentOk, Next;
    if moves != [] {
      MovesKeepAgentOk(a, moves[..|moves| - 1]);
      NextKeepsAgentOk(Moves(a, moves[..|moves| - 1]), moves[|moves| - 1]);
    }
  }

  /** Over any run, restarts and failed saves included, a sequence number that reached a report never stands for another
      report, however often each report is sent; the next one gets a number above all of them. */
  lemma SequencesNeverReused(disk: Memory, moves: seq<Move>, outcome: Save, body: Id)
    ensures NeverReused(Moves(Boot(disk), moves))
    ensures var a, b := Moves(Boot(disk), moves), Next(Moves(Boot(disk), moves), SendReport(outcome, body, 1));
      b.reported != a.reported ==>
        && b.reported == a.reported + [Sent(a.disk.sequence + 1, body)]
        && b.disk.sequence == a.disk.sequence + 1
  {
    hide NeverReused, Moves;
    BootIsOk(disk);
    MovesKeepAgentOk(Boot(disk), moves);
  }

  /** At any point of any run a command is only executed when its result is not on disk. */
  lemma StoredIsNotRepeated(disk: Memory, moves: seq<Move>, move: Move)
    ensures var a := Moves(Boot(disk), moves);
      Next(a, move).executed != a.executed ==>
        a.phase.Admitted? && Next(a, move).executed == a.executed + [a.phase.id] && a.phase.id !in a.disk.processed
  {
    MovesKeepAgentOk(Boot(disk), moves);
  }

  // ---------------------------------------------------------------- Stored before acknowledged

  /** The history has room for a result of time `at` whatever the order of eviction. */
  predicate Room(m: Memory, id: Id, at: Time, limit: nat) {
    |Younger(m.processed, id, at)| < limit
  }

  ghost predicate Roomy(a: Agent, move: Move, limit: nat) {
    move.Remember? && a.phase.Executed? ==> Room(a.memory, a.phase.id, move.at, limit)
  }

  /** What will be acknowledged is on disk. */
  ghost predicate AckOk(a: Agent) {
    (a.phase.Settled? || a.phase.Acking?) ==> OnDisk(a, a.phase.id, a.phase.ack)
  }

  lemma RememberedYounger(m: Memory, id: Id, ack: Ack, at: Time)
    ensures Younger(Remembered(m, id, ack, at), id, at) == Younger(m.processed, id, at)
  {
  }

  lemma NextKeepsAckOk(a: Agent, move: Move, limit: nat)
    requires AgentOk(a) && AckOk(a) && LegalMove(a, move, limit) && Roomy(a, move, limit)
    ensures AckOk(Next(a, move))
  {
    hide Evicts, Younger;
    if move.Remember? && a.phase.Executed? {
      RememberedYounger(a.memory, a.phase.id, a.phase.ack, move.at);
      YoungIsKept(Remembered(a.memory, a.phase.id, a.phase.ack, move.at), limit, move.kept, a.phase.id);
    }
  }

  lemma {:induction false} MovesKeepAckOk(a: Agent, moves: seq<Move>, limit: nat)
    requires AgentOk(a) && AckOk(a) && LegalMoves(a, moves, limit)
    requires forall i :: 0 <= i < |moves| ==> Roomy(Moves(a, moves[..i]), moves[i], limit)
    ensures AckOk(Moves(a, moves))
  {
    hide AgentOk, AckOk, Next, LegalMove, Roomy;
    if moves != [] {
      var front := moves[..|moves| - 1];
      assert forall i :: 0 <= i < |front| ==> front[..i] == moves[..i];
      MovesKeepAgentOk(a, front);
      MovesKeepAckOk(a, front, limit);
      NextKeepsAckOk(Moves(a, front), moves[|moves| - 1], limit);
    }
  }

  /** As long as every result finds room, no acknowledgement leaves the process before its result is on disk. */
  lemma NoAckBeforeSave(disk: Memory, moves: seq<Move>, move: Move, limit: nat)
    requires LegalMoves(Boot(disk), moves, limit)
    requires forall i :: 0 <= i < |moves| ==> Roomy(Moves(Boot(disk), moves[..i]), moves[i], limit)
    ensures var a := Moves(Boot(disk), moves);
      Next(a, move).acked != a.acked ==>
        a.phase.Acking? && Next(a, move).acked == a.acked + [(a.phase.id, a.phase.ack)]
          && OnDisk(a, a.phase.id, a.phase.ack)
  {
    hide LegalMove, Roomy, AgentOk, Moves, OnDisk, LegalMoves;
    BootIsOk(disk);
    MovesKeepAckOk(Boot(disk), moves, limit);
  }

  lemma BootIsOk(disk: Memory)
    ensures AgentOk(Boot(disk)) && AckOk(Boot(disk))
  {
  }

  /** Store, check, acknowledge. */
  function Finished(a: Agent, at: Time, kept: map<Id, Stored>): Agent {
    Next(Next(Next(a, Remember(at, kept, Saved)), Check), SendAck)
  }

  /** The acknowledged result is on disk whatever the order of eviction, exactly when the history had room for it. */
  lemma AckIsDurableExactly(a: Agent, at: Time, limit: nat)
    requires AgentOk(a) && a.phase.Executed? && !a.failed
    ensures (forall kept :: Evicts(Remembered(a.memory, a.phase.id, a.phase.ack, at), limit, kept) ==>
              Finished(a, at, kept).acked == a.acked + [(a.phase.id, a.phase.ack)]
                && OnDisk(Finished(a, at, kept), a.phase.id, a.phase.ack))
       <==> Room(a.memory, a.phase.id, at, limit)
  {
    hide Evicts, Younger;
    var id, ack := a.phase.id, a.phase.ack;
    var m := Remembered(a.memory, id, ack, at);
    RememberedYounger(a.memory, id, ack, at);
    if Room(a.memory, id, at, limit) {
      forall kept | Evicts(m, limit, kept) ensures OnDisk(Finished(a, at, kept), id, ack) {
        YoungIsKept(m, limit, kept, id);
      }
    } else {
      var kept := OldCanBeLost(m, limit, id);
      assert !OnDisk(Finished(a, at, kept), id, ack);
    }
  }

  /** A clock that has moved past every stored result leaves room; the history holds at least one. */
  lemma LaterHasRoom(m: Memory, id: Id, at: Time, limit: nat)
    requires limit >= 1 && forall k :: k in m.processed ==> m.processed[k].at < at
    ensures Room(m, id, at, limit)
  {
    assert Younger(m.processed, id, at) == {};
  }

  /** A full history and a clock that did not move: the result of command 3 is acknowledged, forgotten, and the
      command runs again. Every move starts from a booted process. */
  lemma ForgottenRunsAgain()
    ensures var done := Stored(Ack(true, 0), 10);
      var booted := Boot(Memory(1, 0, map[2 := done]));
      var remember := Remember(10, map[2 := done], Saved);
      var executed := Next(Next(booted, Admit(3)), Look(Ack(true, 0)));
      var finished := Next(Next(Next(executed, remember), Check), SendAck);
      var again := Next(Next(finished, Admit(3)), Look(Ack(true, 0)));
      && LegalMove(executed, remember, 1)
      && finished.acked == [(3, Ack(true, 0))] && !OnDisk(finished, 3, Ack(true, 0))
      && again.executed == [3, 3]
  {
    var done := Stored(Ack(true, 0), 10);
    var m: map<Id, Stored> := map[2 := done, 3 := done];
    var memory := Memory(1, 0, map[2 := done]);
    assert Remembered(memory, 3, Ack(true, 0), 10) == m;
    assert |m| == 2 by { assert m.Keys == {2, 3}; }
    assert m - {3} == map[2 := done];
    assert |map[2 := done]| == 1;
    assert Oldest(m, 3) && Evicts(m - {3}, 1, map[2 := done]);
  }

  // ---------------------------------------------------------------- After a failed save

  /** Work seen outside: commands run and acknowledgements sent. */
  function Work(a: Agent): nat {
    |a.executed| + |a.acked|
  }

  /** What the loop may still do with the command it had already let through. */
  function Pending(a: Agent): nat {
    match a.phase
    case Admitted(_) => if a.phase.id in a.memory.processed then 0 else 1
    case Acking(_, _) => 1
    case _ => 0
  }

  lemma FailedStep(a: Agent, move: Move)
    requires a.failed && !move.Reboot?
    ensures var b := Next(a, move); b.failed && Work(b) + Pending(b) <= Work(a) + Pending(a)
  {
  }

  /** Once a save failed, no command is let through until the process is restarted: at most the one piece of work that
      had already passed its check is finished. */
  lemma {:induction false} FailureStopsWork(a: Agent, moves: seq<Move>)
    requires a.failed && OneProcess(moves)
    ensures Moves(a, moves).failed && Work(Moves(a, moves)) + Pending(Moves(a, moves)) <= Work(a) + Pending(a)
    ensures Work(Moves(a, moves)) <= Work(a) + 1
  {
    hide Next, Work;
    if moves != [] {
      assert moves[|moves| - 1] in moves;
      FailureStopsWork(a, moves[..|moves| - 1]);
      FailedStep(Moves(a, moves[..|moves| - 1]), moves[|moves| - 1]);
    }
  }

  lemma WorkNeverShrinks(a: Agent, move: Move)
    ensures Work(a) <= Work(Next(a, move))
  {
  }

  lemma {:induction false} WorkOnlyGrows(a: Agent, moves: seq<Move>)
    ensures Work(a) <= Work(Moves(a, moves))
  {
    hide Next, Work;
    if moves != [] {
      WorkOnlyGrows(a, moves[..|moves| - 1]);
      WorkNeverShrinks(Moves(a, moves[..|moves| - 1]), moves[|moves| - 1]);
    }
  }

  /** No restart among the moves. */
  predicate OneProcess(moves: seq<Move>) {
    forall m :: m in moves ==> !m.Reboot?
  }

  /** Nothing is executed or acknowledged any more in this process, whatever follows. */
  ghost predicate Stopped(a: Agent) {
    forall moves :: OneProcess(moves) ==> Work(Moves(a, moves)) == Work(a)
  }

  /** The move that finishes the work in hand. */
  lemma PendingIsDone(a: Agent) returns (move: Move)
    requires Pending(a) > 0
    ensures OneProcess([move]) && Moves(a, [move]) == Next(a, move) && Work(Next(a, move)) == Work(a) + 1
  {
    move := if a.phase.Acking? then SendAck else Look(Ack(true, NO_ID));
    assert [move][..0] == [] && Moves(a, []) == a;
  }

  /** After a failed save nothing more is executed or acknowledged before a restart exactly when the loop holds no
      command that is already past its check: admitted without a stored result, or on its way to be acknowledged. */
  lemma FailureStopsExactly(a: Agent)
    requires a.failed
    ensures Stopped(a) <==> Pending(a) == 0
  {
    hide Next, Work, Pending, Moves;
    if Pending(a) == 0 {
      forall moves | OneProcess(moves) ensures Work(Moves(a, moves)) == Work(a) {
        FailureStopsWork(a, moves);
        WorkOnlyGrows(a, moves);
      }
    } else {
      var move := PendingIsDone(a);
      assert Work(Moves(a, [move])) != Work(a);
    }
  }

  /** The check and the work are separate steps: another loop's failed save can fall between them, before an execution
      and before an acknowledgement. */
  lemma OneMayAlreadyBePastTheCheck()
    ensures var admitted := Next(Boot(Memory(1, 0, map[])), Admit(3));
      var failed := Next(admitted, SendReport(Lost, 0, 1));
      failed.failed && Next(failed, Look(Ack(true, 0))).executed == failed.executed + [3]
    ensures var acking := Next(Next(Next(Boot(Memory(1, 0, map[3 := Stored(Ack(true, 0), 10)])), Admit(3)),
                                    Look(Ack(true, 0))), Check);
      var failed := Next(acking, SendReport(Lost, 0, 1));
      failed.failed && Next(failed, SendAck).acked == failed.acked + [(3, Ack(true, 0))]
  {
  }

  // ---------------------------------------------------------------- The state the process mutates

  class Runner {
    var persistent: Memory
    var disk: Memory
    var failed: bool
    const limit: nat

    /** Loads what a previous process left; a history limit that is not positive means a thousand. */
    constructor (disk: Memory, limit: int)
      ensures persistent == disk && this.disk == disk && !failed && this.limit == (if limit <= 0 then 1000 else limit)
    {
      persistent, this.disk, failed := disk, disk, false;
      this.limit := if limit <= 0 then 1000 else limit;
    }

    ghost predicate Mirrors(a: Agent)
      reads this
    {
      a.memory == persistent && a.disk == disk && a.failed == failed
    }

    method SaveLocked(outcome: Save, ghost a: Agent) returns (ok: bool)
      requires Mirrors(a)
      modifies this`disk, this`failed
      ensures Mirrors(SaveState(a, outcome)) && (ok <==> !failed)
    {
      if failed {
        return false;
      }
      match outcome {
        case Saved => disk := persistent;
        case Lost => failed := true;
        case Torn => disk, failed := persistent, true;
      }
      ok := !failed;
    }

    /** Takes the next number, commits it, and only then lets a report use it. */
    method NextSequence(outcome: Save, ghost a: Agent) returns (sequence: Option<int>)
      requires Mirrors(a)
      modifies this
      ensures forall body, copies :: Mirrors(Next(a, SendReport(outcome, body, copies)))
      ensures forall body :: Next(a, SendReport(outcome, body, 1)).reported
                == a.reported + (if sequence.Some? then [Sent(sequence.value, body)] else [])
    {
      persistent := persistent.(sequence := persistent.sequence + 1);
      var ok := SaveLocked(outcome, a.(memory := persistent));
      if !ok {
        persistent := persistent.(sequence := persistent.sequence - 1);
        return None;
      }
      sequence := Some(persistent.sequence);
    }

    method Processed(id: Id) returns (ack: Option<Ack>)
      ensures ack == if id in persistent.processed then Some(persistent.processed[id].ack) else None
    {
      ack := if id in persistent.processed then Some(persistent.processed[id].ack) else None;
    }

    /** Stores a result, evicts the oldest ones beyond the limit, and commits. */
    method RememberResult(id: Id, ack: Ack, at: Time, outcome: Save, ghost a: Agent) returns (ok: bool,
                          ghost kept: map<Id, Stored>)
      requires Mirrors(a) && a.phase == Executed(id, ack)
      modifies this
      ensures LegalMove(a, Remember(at, kept, outcome), limit)
      ensures Mirrors(Next(a, Remember(at, kept, outcome)))
      ensures ok <==> Next(a, Remember(at, kept, outcome)).phase == Settled(id, ack)
      ensures |persistent.processed| <= limit
      ensures forall k :: k in persistent.processed ==>
        if k == id then persistent.processed[k] == Stored(ack, at)
        else k in old(persistent).processed && persistent.processed[k] == old(persistent).processed[k]
    {
      hide Evicts;
      var processed := persistent.processed[id := Stored(ack, at)];
      ghost var all := processed;
      processed := Evict(processed, limit);
      EvictionSelects(all, limit, processed);
      persistent := persistent.(processed := processed);
      kept := processed;
      ok := SaveLocked(outcome, a.(memory := persistent));
    }

    /** One polled command, undisturbed: check, look up or execute, store, check again, acknowledge. `result` is what
        an execution would answer. */
    method ProcessCommand(id: Id, result: Ack, at: Time, outcome: Save, ghost a: Agent)
      returns (executed: bool, acked: Option<Ack>, ghost kept: map<Id, Stored>)
      requires Mirrors(a) && AgentOk(a) && a.phase == Idle
      modifies this
      ensures LegalMove(Next(Next(a, Admit(id)), Look(result)), Remember(at, kept, outcome), limit)
      ensures var done := Iteration(a, id, result, at, kept, outcome);
        && Mirrors(done) && done.phase == Idle
        && done.executed == (if executed then a.executed + [id] else a.executed)
        && done.acked == (if acked.Some? then a.acked + [(id, acked.value)] else a.acked)
      ensures executed ==> !old(failed) && id !in old(disk).processed
      ensures !executed && acked.Some? ==> id in old(disk).processed && acked.value == old(disk).processed[id].ack
      ensures old(failed) ==> !executed && acked.None?
    {
      hide Evicts;
      executed, acked, kept := false, None, map[];
      if failed {
        return;
      }
      var found := Processed(id);
      var ack := result;
      if found.Some? {
        ack := found.value;
      } else {
        executed := true;
        var ok;
        ok, kept := RememberResult(id, ack, at, outcome, Next(Next(a, Admit(id)), Look(result)));
        if !ok {
          return;
        }
      }
      if failed {
        return;
      }
      acked := Some(ack);
    }
  }

  /** The moves of one undisturbed iteration of the command loop. */
  function Iteration(a: Agent, id: Id, result: Ack, at: Time, kept: map<Id, Stored>, outcome: Save): Agent {
    Next(Next(Next(Next(Next(a, Admit(id)), Look(result)), Remember(at, kept, outcome)), Check), SendAck)
  }

  method FindOldest(m: map<Id, Stored>) returns (oldest: Id)
    requires |m| > 0
    ensures Oldest(m, oldest)
  {
    var todo := m.Keys;
    assert todo != {};
    oldest := Pick(todo);
    while todo != {}
      invariant todo <= m.Keys && oldest in m
      invariant forall j :: j in m && j !in todo ==> m[oldest].at <= m[j].at
      decreases todo
    {
      var id := Pick(todo);
      todo := todo - {id};
      if m[id].at < m[oldest].at {
        oldest := id;
      }
    }
  }

  method Evict(m: map<Id, Stored>, limit: nat) returns (r: map<Id, Stored>)
    ensures Evicts(m, limit, r)
  {
    r := m;
    while |r| > limit
      invariant forall s :: Evicts(r, limit, s) ==> Evicts(m, limit, s)
      decreases |r|
    {
      var oldest := FindOldest(r);
      RemovedSize(r, oldest);
      EvictStep(r, limit, oldest);
      r := r - {oldest};
    }
  }

  lemma EvictStep(m: map<Id, Stored>, limit: nat, k: Id)
    requires |m| > limit && Oldest(m, k)
    ensures forall s :: Evicts(m - {k}, limit, s) ==> Evicts(m, limit, s)
  {
  }
}

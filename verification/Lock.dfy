/**
 The deploy lock (`deploy_lock`, `_cmd_host`): any number of processes, their filesystem operations interleaved
 one at a time. Whoever has the lock when, the disk between two holders is one that the same commands reach
 one after the other.
 */
module Lock {
  import opened Options
  import opened Filesystem
  import opened Lifecycle
  import opened Safety
  import opened Rollbacks
  import opened Runs

  /** What `_cmd_host` runs under the lock; `install` is run on a target of its own and never takes it. */
  predicate TakesLock(c: Command) { !c.InstallCmd? }

  /**
   A process waits for the lock; holds it, having found the disk as `begun` and carried out `done` operations of
   the plan that gives; or has ended; or it never ran.
   */
  datatype Phase = Waiting | Running(begun: Disk, plan: seq<Op>, done: nat) | Ended(stop: nat) | Gone

  datatype Process = Process(command: Command, phase: Phase)

  /** `order` lists the processes that have held the lock, as they let go of it. */
  datatype System = System(disk: Disk, processes: seq<Process>, holder: Option<nat>, order: seq<nat>)

  /** `wild` is what a process does that finds the disk other than it left it. */
  datatype Step = Acquire(p: nat) | Act(p: nat, wild: Op) | Release(p: nat) | Kill(p: nat)

  function SetPhase(s: System, p: nat, phase: Phase): System
    requires p < |s.processes|
  {
    s.(processes := s.processes[p := s.processes[p].(phase := phase)])
  }

  function LetGo(s: System, p: nat, stop: nat): System
    requires p < |s.processes|
  {
    SetPhase(s, p, Ended(stop)).(holder := None, order := s.order + [p])
  }

  /** The disk is as this process found it and changed it: whatever it reads, it reads its own doing. */
  predicate Undisturbed(s: System, phase: Phase)
    requires phase.Running?
  {
    phase.done <= |phase.plan| && s.disk == Run(phase.begun, phase.plan[..phase.done])
  }

  /**
   One step of one process. Taking the lock needs it to be free. Each operation is decided by what the process reads
   then: the next of its plan if the disk is as it left it, and any operation at all, or none more, if somebody
   else has changed the disk. The kernel drops the lock of a process that is killed.
   */
  function Next(t: Tools, s: System, step: Step): (r: System) {
    var p := step.p;
    if p >= |s.processes| then s
    else
      var phase := s.processes[p].phase;
      match step
      case Acquire(_) =>
        if phase.Waiting? && s.holder.None? then
          SetPhase(s, p, Running(s.disk, PlanOf(t, s.disk, s.processes[p].command).ops, 0)).(holder := Some(p))
        else s
      case Act(_, wild) =>
        if !phase.Running? then s
        else if !Undisturbed(s, phase) then s.(disk := Apply(s.disk, wild))
        else if phase.done < |phase.plan| then
          SetPhase(s, p, phase.(done := phase.done + 1)).(disk := Apply(s.disk, phase.plan[phase.done]))
        else s
      case Release(_) =>
        if phase.Running? && (!Undisturbed(s, phase) || phase.done == |phase.plan|) then LetGo(s, p, phase.done) else s
      case Kill(_) =>
        if phase.Running? then LetGo(s, p, phase.done)
        else if phase.Waiting? then SetPhase(s, p, Gone)
        else s
  }

  function Exec(t: Tools, s: System, steps: seq<Step>): (r: System)
    decreases |steps|
  {
    if steps == [] then s else Exec(t, Next(t, s, steps[0]), steps[1..])
  }

  function Start(d: Disk, commands: seq<Command>): (s: System) {
    System(d, seq(|commands|, i requires 0 <= i < |commands| => Process(commands[i], Waiting)), None, [])
  }

  // ------------------------------------------------------------ invariant

  predicate HasEnded(s: System, p: nat) { p < |s.processes| && s.processes[p].phase.Ended? }

  function EventOf(s: System, p: nat): Event
    requires HasEnded(s, p)
  {
    Event(s.processes[p].command, s.processes[p].phase.stop)
  }

  predicate AllEnded(s: System, order: seq<nat>) { forall p | p in order :: HasEnded(s, p) }

  /** The commands, in the order in which their processes let go of the lock, each with where it stopped. */
  function Serial(s: System, order: seq<nat>): (events: seq<Event>)
    requires AllEnded(s, order)
  {
    seq(|order|, i requires 0 <= i < |order| => EventOf(s, order[i]))
  }

  /** Nobody but the holder is in the middle of anything. */
  ghost predicate Exclusive(s: System) {
    forall p: nat | p < |s.processes| :: s.processes[p].phase.Running? <==> s.holder == Some(p)
  }

  /** The order lists exactly those that have ended, once each. */
  ghost predicate Ordered(s: System) {
    AllEnded(s, s.order) && NoDup(s.order) && forall p: nat | HasEnded(s, p) :: p in s.order
  }

  /** The disk is what the serial history left, plus what the holder has done of its plan. */
  ghost predicate OnTrack(t: Tools, d: Disk, s: System)
    requires AllEnded(s, s.order)
  {
    var h := History(t, d, Serial(s, s.order));
    match s.holder
    case None => s.disk == h
    case Some(p) =>
      && p < |s.processes| && s.processes[p].phase.Running?
      && s.processes[p].phase.begun == h
      && s.processes[p].phase.plan == PlanOf(t, h, s.processes[p].command).ops
      && s.processes[p].phase.done <= |s.processes[p].phase.plan|
      && s.disk == Run(h, s.processes[p].phase.plan[..s.processes[p].phase.done])
  }

  ghost predicate Locked(t: Tools, d: Disk, s: System) { Exclusive(s) && Ordered(s) && OnTrack(t, d, s) }

  // ------------------------------------------------------------ preservation

  /** Changing the phase of a process that has not ended leaves the serial history alone. */
  lemma {:induction false} SamePast(s: System, r: System, p: nat)
    requires AllEnded(s, s.order) && p < |s.processes| && !s.processes[p].phase.Ended?
    requires |r.processes| == |s.processes|
    requires r.processes == s.processes[p := s.processes[p].(phase := r.processes[p].phase)]
    ensures AllEnded(r, s.order) && Serial(r, s.order) == Serial(s, s.order)
  {
    forall q | q in s.order ensures HasEnded(r, q) && q != p && EventOf(r, q) == EventOf(s, q) {
      assert HasEnded(s, q);
    }
  }

  lemma {:induction false} AcquireKeeps(t: Tools, d: Disk, s: System, p: nat)
    requires Locked(t, d, s) && p < |s.processes| && s.processes[p].phase.Waiting? && s.holder.None?
    ensures Locked(t, d, Next(t, s, Acquire(p)))
  {
    var r := Next(t, s, Acquire(p));
    SamePast(s, r, p);
    var plan := r.processes[p].phase.plan;
    assert plan[..0] == [];
  }

  lemma {:induction false} PlanStep(h: Disk, plan: seq<Op>, k: nat)
    requires k < |plan|
    ensures Run(h, plan[..k + 1]) == Apply(Run(h, plan[..k]), plan[k])
  {
    assert plan[..k + 1] == plan[..k] + [plan[k]];
    RunConcat(h, plan[..k], [plan[k]]);
    RunOne(Run(h, plan[..k]), plan[k]);
  }

  /** A process that goes on with its command changes nothing about who holds the lock and who has ended. */
  lemma {:induction false} GoingOnKeeps(s: System, r: System, p: nat)
    requires Exclusive(s) && Ordered(s) && p < |s.processes| == |r.processes|
    requires s.processes[p].phase.Running? && r.processes[p].phase.Running?
    requires r.processes == s.processes[p := r.processes[p]] && r.holder == s.holder && r.order == s.order
    ensures Exclusive(r) && Ordered(r)
  {
    forall q | q in r.order ensures HasEnded(r, q) { assert HasEnded(s, q); }
    forall q: nat | HasEnded(r, q) ensures q in r.order { assert HasEnded(s, q); }
  }

  lemma {:induction false} ActKeeps(t: Tools, d: Disk, s: System, p: nat, wild: Op)
    requires Locked(t, d, s) && p < |s.processes| && s.processes[p].phase.Running?
    requires s.processes[p].phase.done < |s.processes[p].phase.plan|
    ensures Undisturbed(s, s.processes[p].phase) && Locked(t, d, Next(t, s, Act(p, wild)))
  {
    var r := Next(t, s, Act(p, wild));
    assert s.holder == Some(p);
    PlanStep(History(t, d, Serial(s, s.order)), s.processes[p].phase.plan, s.processes[p].phase.done);
    SamePast(s, r, p);
    GoingOnKeeps(s, r, p);
  }

  lemma {:induction false} LetGoKeeps(t: Tools, d: Disk, s: System, p: nat)
    requires Locked(t, d, s) && p < |s.processes| && s.processes[p].phase.Running?
    ensures Locked(t, d, LetGo(s, p, s.processes[p].phase.done))
  {
    var phase := s.processes[p].phase;
    var r := LetGo(s, p, phase.done);
    var h := History(t, d, Serial(s, s.order));
    SamePast(s, SetPhase(s, p, Ended(phase.done)), p);
    assert p !in s.order by { assert !HasEnded(s, p); }
    assert s.holder == Some(p);
    assert Serial(r, r.order) == Serial(s, s.order) + [Event(s.processes[p].command, phase.done)];
    HistoryAppend(t, d, Serial(s, s.order), Event(s.processes[p].command, phase.done));
    assert Until(phase.plan, phase.done) == phase.plan[..phase.done];
  }

  lemma {:induction false} GoneKeeps(t: Tools, d: Disk, s: System, p: nat)
    requires Locked(t, d, s) && p < |s.processes| && s.processes[p].phase.Waiting?
    ensures Locked(t, d, SetPhase(s, p, Gone))
  {
    SamePast(s, SetPhase(s, p, Gone), p);
  }

  /** While the invariant holds, no process finds the disk other than it left it. */
  lemma {:induction false} NobodyInterferes(t: Tools, d: Disk, s: System, p: nat)
    requires Locked(t, d, s) && p < |s.processes| && s.processes[p].phase.Running?
    ensures Undisturbed(s, s.processes[p].phase)
  {
    assert s.holder == Some(p);
  }

  lemma {:induction false} NextKeeps(t: Tools, d: Disk, s: System, step: Step)
    requires Locked(t, d, s)
    ensures Locked(t, d, Next(t, s, step))
  {
    var p := step.p;
    if p < |s.processes| {
      if s.processes[p].phase.Running? { NobodyInterferes(t, d, s, p); }
      if Next(t, s, step) != s {
        match step
        case Acquire(_) => AcquireKeeps(t, d, s, p);
        case Act(_, wild) => ActKeeps(t, d, s, p, wild);
        case Release(_) => LetGoKeeps(t, d, s, p);
        case Kill(_) => if s.processes[p].phase.Running? { LetGoKeeps(t, d, s, p); } else { GoneKeeps(t, d, s, p); }
      }
    }
  }

  lemma {:induction false} ExecKeeps(t: Tools, d: Disk, s: System, steps: seq<Step>)
    requires Locked(t, d, s)
    ensures Locked(t, d, Exec(t, s, steps))
    decreases |steps|
  {
    if steps != [] {
      NextKeeps(t, d, s, steps[0]);
      ExecKeeps(t, d, Next(t, s, steps[0]), steps[1..]);
    }
  }

  // ------------------------------------------------------------- the claims

  ghost predicate Issued(s: System, commands: seq<Command>) {
    |s.processes| == |commands| && forall p | 0 <= p < |commands| :: s.processes[p].command == commands[p]
  }

  lemma {:induction false} StaysIssued(t: Tools, s: System, steps: seq<Step>, commands: seq<Command>)
    requires Issued(s, commands)
    ensures Issued(Exec(t, s, steps), commands)
    decreases |steps|
  {
    if steps != [] { StaysIssued(t, Next(t, s, steps[0]), steps[1..], commands); }
  }

  /** No two processes are in the middle of their commands. */
  ghost predicate AtMostOne(s: System) {
    forall p: nat, q: nat | p < |s.processes| && q < |s.processes| ::
      s.processes[p].phase.Running? && s.processes[q].phase.Running? ==> p == q
  }

  lemma {:induction false} StartLocked(t: Tools, d: Disk, commands: seq<Command>)
    ensures Locked(t, d, Start(d, commands)) && Issued(Start(d, commands), commands)
  {
    assert Serial(Start(d, commands), []) == [];
  }

  lemma {:induction false} ExclusiveIsOne(s: System)
    requires Exclusive(s)
    ensures AtMostOne(s)
  {
  }

  /** Every process that is in the middle of its command finds the disk as it left it. */
  ghost predicate NobodyDisturbed(s: System) {
    forall p: nat | p < |s.processes| && s.processes[p].phase.Running? :: Undisturbed(s, s.processes[p].phase)
  }

  /**
   Mutual exclusion and serializability. After any interleaving: at most one process is in the middle of its
   command, and what it reads is what it would read alone; and whenever the lock is free, the disk is the one
   reached by the commands of the processes that have ended, each once, one after the other, each up to where
   it stopped.
   */
  lemma {:induction false} Serializable(t: Tools, d: Disk, commands: seq<Command>, steps: seq<Step>)
    requires forall c | c in commands :: TakesLock(c)
    ensures var s := Exec(t, Start(d, commands), steps);
            && Issued(s, commands) && AtMostOne(s) && NobodyDisturbed(s) && Ordered(s)
            && (s.holder.None? ==> s.disk == History(t, d, Serial(s, s.order)))
  {
    var s := Exec(t, Start(d, commands), steps);
    StartLocked(t, d, commands);
    ExecKeeps(t, d, Start(d, commands), steps);
    StaysIssued(t, Start(d, commands), steps, commands);
    ExclusiveIsOne(s);
    forall p: nat | p < |s.processes| && s.processes[p].phase.Running? ensures Undisturbed(s, s.processes[p].phase) {
      NobodyInterferes(t, d, s, p);
    }
  }

  lemma {:induction false} SerialOk(t: Tools, s: System, commands: seq<Command>)
    requires AllEnded(s, s.order) && Issued(s, commands) && forall c | c in commands :: CommandOk(t, c) && TakesLock(c)
    ensures forall e | e in Serial(s, s.order) :: CommandOk(t, e.command) && TakesLock(e.command)
  {
    forall e | e in Serial(s, s.order) ensures CommandOk(t, e.command) && TakesLock(e.command) {
      var i :| 0 <= i < |s.order| && e == Serial(s, s.order)[i];
      var p := s.order[i];
      assert p in s.order && HasEnded(s, p);
      assert s.processes[p].command == commands[p] && commands[p] in commands;
    }
  }

  /** At every moment of every interleaving, kills included, the disk's invariant holds. */
  lemma {:induction false} SoundThroughout(t: Tools, d: Disk, commands: seq<Command>, steps: seq<Step>)
    requires Inv(t, d) && forall c | c in commands :: CommandOk(t, c) && TakesLock(c)
    ensures Inv(t, Exec(t, Start(d, commands), steps).disk)
  {
    var s := Exec(t, Start(d, commands), steps);
    Serializable(t, d, commands, steps);
    StartLocked(t, d, commands);
    ExecKeeps(t, d, Start(d, commands), steps);
    SerialOk(t, s, commands);
    var h := History(t, d, Serial(s, s.order));
    HistoryKeeps(t, d, Serial(s, s.order));
    if s.holder.Some? {
      var p := s.holder.value;
      assert s.processes[p].command in commands;
      CommandLegal(t, h, s.processes[p].command);
      LegalPrefix(t, h, s.processes[p].phase.plan, s.processes[p].phase.done);
      LegalKeeps(t, h, s.processes[p].phase.plan[..s.processes[p].phase.done]);
    }
  }

  // --------------------------------------------------------- without kills

  predicate NoKills(steps: seq<Step>) { forall step | step in steps :: !step.Kill? }

  lemma {:induction false} CleanAppend(t: Tools, d: Disk, events: seq<Event>, e: Event)
    requires CleanHistory(t, d, events) && Clean(t, History(t, d, events), e)
    ensures CleanHistory(t, d, events + [e])
    decreases |events|
  {
    if events == [] {
      assert ([] + [e])[0] == e && ([] + [e])[1..] == [];
    } else {
      assert (events + [e])[0] == events[0] && (events + [e])[1..] == events[1..] + [e];
      CleanAppend(t, Run(d, Until(PlanOf(t, d, events[0].command).ops, events[0].stop)), events[1..], e);
    }
  }

  ghost predicate CleanPast(t: Tools, d: Disk, s: System)
    requires AllEnded(s, s.order)
  {
    CleanHistory(t, d, Serial(s, s.order))
  }

  lemma {:induction false} ReleaseClean(t: Tools, d: Disk, s: System, p: nat)
    requires Locked(t, d, s) && CleanPast(t, d, s)
    requires p < |s.processes| && s.processes[p].phase.Running?
    requires s.processes[p].phase.done >= |s.processes[p].phase.plan|
    ensures var r := LetGo(s, p, s.processes[p].phase.done);
            Locked(t, d, r) && CleanPast(t, d, r)
  {
    var phase := s.processes[p].phase;
    var e := Event(s.processes[p].command, phase.done);
    LetGoKeeps(t, d, s, p);
    SamePast(s, SetPhase(s, p, Ended(phase.done)), p);
    assert s.holder == Some(p);
    var r := LetGo(s, p, phase.done);
    assert Serial(r, r.order) == Serial(s, s.order) + [e];
    CleanAppend(t, d, Serial(s, s.order), e);
  }

  lemma {:induction false} NextClean(t: Tools, d: Disk, s: System, step: Step)
    requires Locked(t, d, s) && CleanPast(t, d, s) && !step.Kill?
    ensures Locked(t, d, Next(t, s, step)) && CleanPast(t, d, Next(t, s, step))
  {
    var p := step.p;
    NextKeeps(t, d, s, step);
    if Next(t, s, step) != s {
      if s.processes[p].phase.Running? { NobodyInterferes(t, d, s, p); }
      if step.Release? { ReleaseClean(t, d, s, p); } else { SamePast(s, Next(t, s, step), p); }
    }
  }

  lemma {:induction false} ExecClean(t: Tools, d: Disk, s: System, steps: seq<Step>)
    requires Locked(t, d, s) && CleanPast(t, d, s) && NoKills(steps)
    ensures Locked(t, d, Exec(t, s, steps)) && CleanPast(t, d, Exec(t, s, steps))
    decreases |steps|
  {
    if steps != [] {
      NextClean(t, d, s, steps[0]);
      ExecClean(t, d, Next(t, s, steps[0]), steps[1..]);
    }
  }

  /** The current entry is still there, if it was, and what it names is complete and held. */
  ghost predicate CurrentGood(t: Tools, d: Disk, r: Disk) {
    (CurrentEfi in d.esp ==> CurrentEfi in r.esp) && FileOk(t, r, CurrentEfi)
  }

  lemma {:induction false} MidCommandCurrent(t: Tools, h: Disk, c: Command, k: nat)
    requires Consistent(t, h) && CommandOk(t, c) && TakesLock(c) && k <= |PlanOf(t, h, c).ops|
    ensures CurrentGood(t, h, Run(h, PlanOf(t, h, c).ops[..k]))
  {
    var ops := PlanOf(t, h, c).ops;
    match c
    case DeployCmd(s) =>
      AlwaysDeploy(t, h, s);
      DeployKeepsEntries(t, h, s);
      if CurrentEfi in h.esp { EntriesStay(h, ops[..k], CurrentEfi); }
    case GcCmd =>
      AlwaysGc(t, h);
      GcRemoves(t, h);
      RemovalsKeepRoles(h, ops[..k]);
    case RollbackCmd => RollbackKeepsCurrent(t, h, k);
  }

  lemma {:induction false} MidCommandSafe(t: Tools, h: Disk, c: Command, k: nat)
    requires Consistent(t, h) && CommandOk(t, c) && (c.DeployCmd? || c.GcCmd?) && k <= |PlanOf(t, h, c).ops|
    ensures EspSafe(t, Run(h, PlanOf(t, h, c).ops[..k]))
  {
    if c.DeployCmd? {
      AlwaysDeploy(t, h, c.source);
    } else {
      AlwaysGc(t, h);
    }
  }

  /** Over a clean history the current entry, once there, stays. */
  lemma {:induction false} HistoryKeepsCurrent(t: Tools, d: Disk, events: seq<Event>)
    requires Consistent(t, d) && CleanHistory(t, d, events) && CurrentEfi in d.esp
    requires forall e | e in events :: CommandOk(t, e.command) && TakesLock(e.command)
    ensures CurrentEfi in History(t, d, events).esp
    decreases |events|
  {
    if events != [] {
      var e := events[0];
      var ops := PlanOf(t, d, e.command).ops;
      var k := if e.stop <= |ops| then e.stop else |ops|;
      assert Until(ops, e.stop) == ops[..k] && e in events;
      MidCommandCurrent(t, d, e.command, k);
      CleanHistoryKeeps(t, d, [e]);
      assert History(t, Run(d, ops[..k]), []) == Run(d, ops[..k]) && [e][1..] == [];
      HistoryKeepsCurrent(t, Run(d, ops[..k]), events[1..]);
    }
  }

  /** The disk between commands, and the command under way with how far it has got. */
  lemma {:induction false} UnderWay(t: Tools, d: Disk, commands: seq<Command>, steps: seq<Step>) returns (h: Disk)
    requires Consistent(t, d) && NoKills(steps)
    requires forall c | c in commands :: CommandOk(t, c) && TakesLock(c)
    ensures var s := Exec(t, Start(d, commands), steps);
            && Consistent(t, h) && (CurrentEfi in d.esp ==> CurrentEfi in h.esp)
            && match s.holder
               case None => s.disk == h
               case Some(p) =>
                 && p < |s.processes| && s.processes[p].phase.Running? && s.processes[p].command in commands
                 && var plan, k := PlanOf(t, h, s.processes[p].command).ops, s.processes[p].phase.done;
                    k <= |plan| && s.disk == Run(h, plan[..k])
  {
    var s := Exec(t, Start(d, commands), steps);
    StartLocked(t, d, commands);
    Serializable(t, d, commands, steps);
    ExecClean(t, d, Start(d, commands), steps);
    SerialOk(t, s, commands);
    h := History(t, d, Serial(s, s.order));
    CleanHistoryKeeps(t, d, Serial(s, s.order));
    if CurrentEfi in d.esp { HistoryKeepsCurrent(t, d, Serial(s, s.order)); }
  }

  /**
   Deploys, rollbacks and gcs, interleaved in any way from a consistent disk and not killed: whenever the lock is
   free the disk is consistent; at every moment, in the middle of whatever anybody is doing, the current entry is
   there and good; and where nobody rolls back, both entries are, at every moment.
   */
  lemma {:induction false} SafeThroughout(t: Tools, d: Disk, commands: seq<Command>, steps: seq<Step>)
    requires Consistent(t, d) && NoKills(steps)
    requires forall c | c in commands :: CommandOk(t, c) && TakesLock(c)
    ensures var s := Exec(t, Start(d, commands), steps);
            && (s.holder.None? ==> Consistent(t, s.disk))
            && CurrentGood(t, d, s.disk)
            && ((forall c | c in commands :: !c.RollbackCmd?) ==> EspSafe(t, s.disk) && EspBoots(t, s.disk))
  {
    var s := Exec(t, Start(d, commands), steps);
    var h := UnderWay(t, d, commands, steps);
    if s.holder.Some? {
      var p := s.holder.value;
      MidCommandCurrent(t, h, s.processes[p].command, s.processes[p].phase.done);
      if forall c | c in commands :: !c.RollbackCmd? {
        MidCommandSafe(t, h, s.processes[p].command, s.processes[p].phase.done);
      }
    }
    SoundThroughout(t, d, commands, steps);
    if EspSafe(t, s.disk) { SafeBoots(t, s.disk); }
  }
}

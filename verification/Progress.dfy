/**
 The deploy lock gives what it promises besides exclusion: a process that waits and finds it free gets it, runs its
 command and lets go; whoever holds it can finish; and every serial order of the commands is one that happens.
 */
module Progress {
  import opened Options
  import opened Filesystem
  import opened Objects
  import opened Lifecycle
  import opened Lock

  predicate CanStart(s: System, p: nat) {
    p < |s.processes| && s.processes[p].phase.Waiting? && s.holder.None?
  }

  function PlanNow(t: Tools, s: System, p: nat): seq<Op>
    requires p < |s.processes|
  {
    PlanOf(t, s.disk, s.processes[p].command).ops
  }

  /** `p` has taken the free lock of `s` and carried out `k` operations of its command. */
  function Midway(t: Tools, s: System, p: nat, k: nat): System
    requires p < |s.processes| && k <= |PlanNow(t, s, p)|
  {
    var plan := PlanNow(t, s, p);
    SetPhase(s, p, Running(s.disk, plan, k)).(disk := Run(s.disk, plan[..k]), holder := Some(p))
  }

  /** And has let go of it. */
  function After(t: Tools, s: System, p: nat, k: nat): System
    requires p < |s.processes| && k <= |PlanNow(t, s, p)|
  {
    SetPhase(s, p, Ended(k)).(disk := Run(s.disk, PlanNow(t, s, p)[..k]), order := s.order + [p])
  }

  // ----------------------------------------------------------- the single steps

  lemma {:induction false} AcquireGoes(t: Tools, s: System, p: nat)
    requires CanStart(s, p)
    ensures Next(t, s, Acquire(p)) == Midway(t, s, p, 0)
  {
    assert PlanNow(t, s, p)[..0] == [];
  }

  lemma {:induction false} ActGoes(t: Tools, s: System, p: nat, k: nat, wild: Op)
    requires CanStart(s, p) && k < |PlanNow(t, s, p)|
    ensures Next(t, Midway(t, s, p, k), Act(p, wild)) == Midway(t, s, p, k + 1)
  {
    var plan, m := PlanNow(t, s, p), Midway(t, s, p, k);
    PlanStep(s.disk, plan, k);
    assert Undisturbed(m, m.processes[p].phase);
    assert Next(t, m, Act(p, wild)).processes == Midway(t, s, p, k + 1).processes;
  }

  lemma {:induction false} LetsGo(t: Tools, s: System, p: nat, k: nat)
    requires CanStart(s, p) && k <= |PlanNow(t, s, p)|
    ensures Next(t, Midway(t, s, p, k), Kill(p)) == After(t, s, p, k)
    ensures k == |PlanNow(t, s, p)| ==> Next(t, Midway(t, s, p, k), Release(p)) == After(t, s, p, k)
  {
    var m := Midway(t, s, p, k);
    assert Undisturbed(m, m.processes[p].phase);
    assert LetGo(m, p, k).processes == After(t, s, p, k).processes;
  }

  // ------------------------------------------------------------------- one turn

  /** Operations of `p`, one after the other; what it would do if somebody interfered does not matter. */
  predicate ActsOf(p: nat, acts: seq<Step>) { forall step | step in acts :: step.Act? && step.p == p }

  /** The steps take the one system to the other. */
  ghost predicate Goes(t: Tools, s: System, steps: seq<Step>, r: System) { r == Exec(t, s, steps) }

  lemma {:induction false} GoesOn(t: Tools, s: System, m: System, steps: seq<Step>, r: System)
    requires steps != [] && m == Next(t, s, steps[0]) && Goes(t, m, steps[1..], r)
    ensures Goes(t, s, steps, r)
  {
  }

  lemma {:induction false} ActsStep(t: Tools, s: System, p: nat, k: nat, acts: seq<Step>, r: System)
    requires CanStart(s, p) && ActsOf(p, acts) && acts != [] && k < |PlanNow(t, s, p)|
    requires Goes(t, Midway(t, s, p, k + 1), acts[1..], r)
    ensures Goes(t, Midway(t, s, p, k), acts, r)
  {
    assert acts[0].Act? && acts[0].p == p;
    ActGoes(t, s, p, k, acts[0].wild);
    GoesOn(t, Midway(t, s, p, k), Midway(t, s, p, k + 1), acts, r);
  }

  lemma {:induction false} NoActs(t: Tools, s: System, acts: seq<Step>)
    requires acts == []
    ensures Goes(t, s, acts, s)
  {
  }

  lemma {:induction false} ActsGo(t: Tools, s: System, p: nat, k: nat, acts: seq<Step>, n: nat)
    requires CanStart(s, p) && ActsOf(p, acts) && n == k + |acts| <= |PlanNow(t, s, p)|
    ensures Goes(t, Midway(t, s, p, k), acts, Midway(t, s, p, n))
    decreases |acts|
  {
    if acts == [] {
      NoActs(t, Midway(t, s, p, k), acts);
    } else {
      ActsGo(t, s, p, k + 1, acts[1..], n);
      ActsStep(t, s, p, k, acts, Midway(t, s, p, n));
    }
  }

  lemma {:induction false} ExecConcat(t: Tools, s: System, a: seq<Step>, b: seq<Step>)
    ensures Exec(t, s, a + b) == Exec(t, Exec(t, s, a), b)
    decreases |a|
  {
    if a == [] {
      assert a + b == b;
    } else {
      assert (a + b)[1..] == a[1..] + b;
      ExecConcat(t, Next(t, s, a[0]), a[1..], b);
    }
  }

  lemma {:induction false} ExecOne(t: Tools, s: System, a: Step)
    ensures Exec(t, s, [a]) == Next(t, s, a)
  {
    assert [a][1..] == [];
  }

  lemma {:induction false} Turn(t: Tools, s: System, p: nat, acts: seq<Step>, last: Step)
    requires CanStart(s, p) && ActsOf(p, acts) && |acts| <= |PlanNow(t, s, p)|
    requires last == Kill(p) || (last == Release(p) && |acts| == |PlanNow(t, s, p)|)
    ensures Exec(t, s, [Acquire(p)] + acts + [last]) == After(t, s, p, |acts|)
  {
    AcquireGoes(t, s, p);
    ActsGo(t, s, p, 0, acts, |acts|);
    LetsGo(t, s, p, |acts|);
    ExecOne(t, s, Acquire(p));
    ExecConcat(t, s, [Acquire(p)], acts);
    ExecConcat(t, s, [Acquire(p)] + acts, [last]);
    ExecOne(t, Midway(t, s, p, |acts|), last);
  }

  /**
   A process that waits while the lock is free: it takes the lock, carries out its command operation by operation, and
   lets go; then it has ended, the lock is free, and the disk is what the command makes of the one it found.
   */
  lemma {:induction false} WaitingRuns(t: Tools, s: System, p: nat, acts: seq<Step>)
    requires CanStart(s, p) && ActsOf(p, acts) && |acts| == |PlanNow(t, s, p)|
    ensures var r := Exec(t, s, [Acquire(p)] + acts + [Release(p)]);
            && HasEnded(r, p) && r.holder.None? && r.order == s.order + [p]
            && r.disk == Do(s.disk, PlanOf(t, s.disk, s.processes[p].command))
            && forall q: nat | q < |s.processes| && q != p :: q < |r.processes| && r.processes[q] == s.processes[q]
  {
    Turn(t, s, p, acts, Release(p));
    assert PlanNow(t, s, p)[..|acts|] == PlanNow(t, s, p);
  }

  // --------------------------------------------------------------- turn by turn

  predicate AllWait(s: System, order: seq<nat>) {
    forall p | p in order :: p < |s.processes| && s.processes[p].phase.Waiting?
  }

  /** The commands of these processes, each with where it is to stop. */
  function Events(s: System, order: seq<nat>, stops: seq<nat>): (events: seq<Event>)
    requires |order| == |stops| && AllWait(s, order)
  {
    seq(|order|, i requires 0 <= i < |order| =>
      assert order[i] in order; Event(s.processes[order[i]].command, stops[i]))
  }

  /** No command of the history is interrupted. */
  predicate Uninterrupted(t: Tools, d: Disk, events: seq<Event>)
    decreases |events|
  {
    events == []
    || (events[0].stop >= |PlanOf(t, d, events[0].command).ops|
        && Uninterrupted(t, Do(d, PlanOf(t, d, events[0].command)), events[1..]))
  }

  /** The processes not in `order` are as they were, those in it have ended; all have the commands they had. */
  ghost predicate Served(s: System, r: System, order: seq<nat>) {
    && |r.processes| == |s.processes|
    && (forall p | p in order :: HasEnded(r, p))
    && (forall p: nat | p < |s.processes| && p !in order :: r.processes[p] == s.processes[p])
  }

  lemma {:induction false} ServedStep(s: System, m: System, r: System, order: seq<nat>)
    requires order != [] && NoDup(order) && Served(s, m, [order[0]]) && Served(m, r, order[1..])
    ensures Served(s, r, order)
  {
    assert order == [order[0]] + order[1..];
    assert order[0] !in order[1..];
    assert HasEnded(m, order[0]);
    forall p | p in order ensures HasEnded(r, p) {
      if p == order[0] { assert r.processes[p] == m.processes[p]; }
    }
  }

  lemma {:induction false} EventsStep(s: System, m: System, p: nat, order: seq<nat>, stops: seq<nat>)
    requires order != [] && |order| == |stops| && NoDup(order) && AllWait(s, order)
    requires p == order[0] < |s.processes| && Served(s, m, [p])
    ensures AllWait(m, order[1..])
    ensures Events(s, order, stops) == [Event(s.processes[p].command, stops[0])] + Events(m, order[1..], stops[1..])
  {
    assert order == [p] + order[1..];
    forall q | q in order[1..] ensures q in order && q != p && m.processes[q] == s.processes[q] {
    }
    var a, b := Events(s, order, stops), Events(m, order[1..], stops[1..]);
    forall i | 0 < i < |order| ensures a[i] == b[i - 1] {
      assert order[1..][i - 1] == order[i] && order[i] in order[1..];
    }
  }

  /** One process of them: it goes as far as it is to go. */
  lemma {:induction false} OneTurn(t: Tools, s: System, p: nat, stop: nat) returns (steps: seq<Step>, r: System)
    requires CanStart(s, p)
    ensures var plan := PlanOf(t, s.disk, s.processes[p].command).ops;
            && r == Exec(t, s, steps)
            && r.holder.None? && r.order == s.order + [p] && Served(s, r, [p])
            && r.disk == Run(s.disk, Until(plan, stop)) && (stop >= |plan| ==> NoKills(steps))
  {
    var plan := PlanNow(t, s, p);
    var k := if stop <= |plan| then stop else |plan|;
    var acts := seq(k, _ => Act(p, RenameLimine));
    var last := if stop >= |plan| then Release(p) else Kill(p);
    steps := [Acquire(p)] + acts + [last];
    Turn(t, s, p, acts, last);
    r := After(t, s, p, k);
    assert Until(plan, stop) == plan[..k];
    assert HasEnded(r, p);
  }

  lemma {:induction false} HistoryTurn(t: Tools, d: Disk, events: seq<Event>)
    requires events != []
    ensures var m := Run(d, Until(PlanOf(t, d, events[0].command).ops, events[0].stop));
            && History(t, d, events) == History(t, m, events[1..])
            && (Uninterrupted(t, d, events) ==>
                  events[0].stop >= |PlanOf(t, d, events[0].command).ops| && Uninterrupted(t, m, events[1..]))
  {
    var ops := PlanOf(t, d, events[0].command).ops;
    if events[0].stop >= |ops| { assert Until(ops, events[0].stop) == ops; }
  }

  /** In `r` the lock is free, and the processes of `order` have ended in that order. */
  ghost predicate Result(s: System, order: seq<nat>, r: System) {
    r.holder.None? && r.order == s.order + order && Served(s, r, order)
  }

  lemma {:induction false} HistoryOn(t: Tools, d: Disk, m: Disk, e: Event, events: seq<Event>, tail: seq<Event>)
    requires events == [e] + tail && m == Run(d, Until(PlanOf(t, d, e.command).ops, e.stop))
    ensures History(t, d, events) == History(t, m, tail)
    ensures Uninterrupted(t, d, events) ==> e.stop >= |PlanOf(t, d, e.command).ops| && Uninterrupted(t, m, tail)
  {
    assert events[0] == e && events[1..] == tail;
    HistoryTurn(t, d, events);
  }

  lemma {:induction false} ResultJoins(s: System, m: System, r: System, p: nat, order: seq<nat>)
    requires order != [] && p == order[0] && NoDup(order)
    requires Served(s, m, [p]) && m.order == s.order + [p] && Result(m, order[1..], r)
    ensures Result(s, order, r)
  {
    ServedStep(s, m, r, order);
    assert s.order + [p] + order[1..] == s.order + order;
  }

  lemma {:induction false} NoneServed(s: System, order: seq<nat>)
    requires order == [] && s.holder.None?
    ensures Result(s, order, s)
  {
    assert s.order + order == s.order;
  }

  /**
   From any system whose lock is free, for any order of waiting processes and any stop of each, some interleaving
   lets them end in that order, and leaves the disk that the commands reach one after the other; without kills, if
   none is interrupted.
   */
  lemma {:induction false} TurnByTurn(t: Tools, s: System, order: seq<nat>, stops: seq<nat>)
    returns (steps: seq<Step>, r: System)
    requires s.holder.None? && |order| == |stops| && NoDup(order) && AllWait(s, order)
    ensures r == Exec(t, s, steps) && Result(s, order, r) && r.disk == History(t, s.disk, Events(s, order, stops))
    ensures Uninterrupted(t, s.disk, Events(s, order, stops)) ==> NoKills(steps)
    decreases |order|
  {
    if order == [] {
      steps, r := [], s;
      NoneServed(s, order);
    } else {
      var p := order[0];
      assert p in order;
      var first, m := OneTurn(t, s, p, stops[0]);
      EventsStep(s, m, p, order, stops);
      HistoryOn(t, s.disk, m.disk, Event(s.processes[p].command, stops[0]), Events(s, order, stops),
                Events(m, order[1..], stops[1..]));
      var rest;
      rest, r := TurnByTurn(t, m, order[1..], stops[1..]);
      ResultJoins(s, m, r, p, order);
      ExecConcat(t, s, first, rest);
      steps := first + rest;
    }
  }

  // ------------------------------------------------------------------ the claims

  predicate Within(order: seq<nat>, n: nat) { forall p | p in order :: p < n }

  function Chosen(commands: seq<Command>, order: seq<nat>, stops: seq<nat>): (events: seq<Event>)
    requires |order| == |stops| && Within(order, |commands|)
  {
    seq(|order|, i requires 0 <= i < |order| => assert order[i] in order; Event(commands[order[i]], stops[i]))
  }

  /**
   The converse of serializability: for every order of the commands, or of some of them, and every stop of each, some
   interleaving has them end in that order, with the disk that this history gives; without kills, if none of them
   is interrupted.
   */
  lemma {:induction false} EverySerialOrder(t: Tools, d: Disk, commands: seq<Command>, order: seq<nat>, stops: seq<nat>)
    returns (steps: seq<Step>)
    requires |order| == |stops| && NoDup(order) && Within(order, |commands|)
    ensures var s := Exec(t, Start(d, commands), steps);
            && s.holder.None? && s.order == order && (forall p | p in order :: HasEnded(s, p))
            && s.disk == History(t, d, Chosen(commands, order, stops))
    ensures Uninterrupted(t, d, Chosen(commands, order, stops)) ==> NoKills(steps)
  {
    var s := Start(d, commands);
    var r;
    steps, r := TurnByTurn(t, s, order, stops);
    assert Events(s, order, stops) == Chosen(commands, order, stops);
    assert s.order + order == order;
  }

  /** Stops that let every command run to its end. */
  function Ends(t: Tools, d: Disk, commands: seq<Command>): (stops: seq<nat>)
    ensures |stops| == |commands|
    decreases |commands|
  {
    if commands == [] then []
    else
      var p := PlanOf(t, d, commands[0]);
      [|p.ops|] + Ends(t, Do(d, p), commands[1..])
  }

  lemma {:induction false} EndsUninterrupted(t: Tools, d: Disk, events: seq<Event>, commands: seq<Command>)
    requires |events| == |commands|
    requires forall i | 0 <= i < |events| :: events[i] == Event(commands[i], Ends(t, d, commands)[i])
    ensures Uninterrupted(t, d, events)
    decreases |events|
  {
    if events != [] {
      var p := PlanOf(t, d, commands[0]);
      assert events[0] == Event(commands[0], |p.ops|);
      forall i | 0 <= i < |events[1..]|
        ensures events[1..][i] == Event(commands[1..][i], Ends(t, Do(d, p), commands[1..])[i])
      {
        assert events[i + 1] == Event(commands[i + 1], Ends(t, d, commands)[i + 1]);
      }
      EndsUninterrupted(t, Do(d, p), events[1..], commands[1..]);
    }
  }

  function CommandsOf(s: System, order: seq<nat>): (commands: seq<Command>)
    requires AllWait(s, order)
  {
    seq(|order|, i requires 0 <= i < |order| => assert order[i] in order; s.processes[order[i]].command)
  }

  /** And the waiting processes, whatever their order, can all run to the end of their commands, unharmed. */
  lemma {:induction false} AllCanFinish(t: Tools, s: System, order: seq<nat>) returns (steps: seq<Step>, r: System)
    requires s.holder.None? && NoDup(order) && AllWait(s, order)
    ensures r == Exec(t, s, steps) && Result(s, order, r) && NoKills(steps)
  {
    var stops := Ends(t, s.disk, CommandsOf(s, order));
    steps, r := TurnByTurn(t, s, order, stops);
    EndsUninterrupted(t, s.disk, Events(s, order, stops), CommandsOf(s, order));
  }

  // ------------------------------------------------------------- no deadlock

  /** The system before the holder of the lock took it. */
  function Before(s: System, p: nat): System
    requires p < |s.processes| && s.processes[p].phase.Running?
  {
    SetPhase(s, p, Waiting).(disk := s.processes[p].phase.begun, holder := None)
  }

  lemma {:induction false} HolderIsMidway(t: Tools, d: Disk, s: System, p: nat)
    requires Locked(t, d, s) && s.holder == Some(p)
    ensures p < |s.processes| && s.processes[p].phase.Running? && CanStart(Before(s, p), p)
    ensures var k := s.processes[p].phase.done;
            k <= |PlanNow(t, Before(s, p), p)| && s == Midway(t, Before(s, p), p, k)
  {
    var b := Before(s, p);
    assert Midway(t, b, p, s.processes[p].phase.done).processes == s.processes;
  }

  /** Whoever holds the lock can finish and let go of it, without a kill. */
  lemma {:induction false} HolderFinishes(t: Tools, d: Disk, s: System, p: nat) returns (steps: seq<Step>, r: System)
    requires Locked(t, d, s) && s.holder == Some(p)
    ensures r == Exec(t, s, steps) && NoKills(steps) && r.holder.None? && HasEnded(r, p)
    ensures |r.processes| == |s.processes|
    ensures forall q: nat | q < |s.processes| && q != p :: r.processes[q] == s.processes[q]
  {
    HolderIsMidway(t, d, s, p);
    var b, k := Before(s, p), s.processes[p].phase.done;
    var n := |PlanNow(t, b, p)|;
    var acts := seq(n - k, _ => Act(p, RenameLimine));
    steps := acts + [Release(p)];
    ActsGo(t, b, p, k, acts, n);
    LetsGo(t, b, p, n);
    ExecConcat(t, s, acts, [Release(p)]);
    ExecOne(t, Midway(t, b, p, n), Release(p));
    r := After(t, b, p, n);
  }

  /** The processes that wait, below `n`. */
  function WaitingOnes(s: System, n: nat): (order: seq<nat>)
    requires n <= |s.processes|
    ensures forall p: nat :: p in order <==> p < n && s.processes[p].phase.Waiting?
  {
    if n == 0 then []
    else WaitingOnes(s, n - 1) + (if s.processes[n - 1].phase.Waiting? then [n - 1] else [])
  }

  lemma {:induction false} EachOnce(s: System, n: nat)
    requires n <= |s.processes|
    ensures NoDup(WaitingOnes(s, n))
  {
    if n > 0 {
      EachOnce(s, n - 1);
      var w := WaitingOnes(s, n - 1);
      forall i | 0 <= i < |w| ensures w[i] < n - 1 { assert w[i] in w; }
    }
  }

  /** In `r` the lock is free, and everybody has ended whom nothing had killed in `s` while it waited. */
  ghost predicate AllDone(s: System, r: System) {
    && r.holder.None? && |r.processes| == |s.processes|
    && forall p: nat | p < |s.processes| && !s.processes[p].phase.Gone? :: HasEnded(r, p)
  }

  lemma {:induction false} FreeFinishes(t: Tools, s: System) returns (steps: seq<Step>, r: System)
    requires s.holder.None? && Exclusive(s)
    ensures r == Exec(t, s, steps) && NoKills(steps) && AllDone(s, r)
  {
    var order := WaitingOnes(s, |s.processes|);
    EachOnce(s, |s.processes|);
    steps, r := AllCanFinish(t, s, order);
    forall p: nat | p < |s.processes| && !s.processes[p].phase.Gone? ensures HasEnded(r, p) {
      if p !in order { assert r.processes[p] == s.processes[p]; }
    }
  }

  lemma {:induction false} HolderFirst(t: Tools, d: Disk, s: System) returns (steps: seq<Step>, m: System)
    requires Locked(t, d, s)
    ensures m == Exec(t, s, steps) && NoKills(steps) && m.holder.None? && Exclusive(m)
    ensures |m.processes| == |s.processes|
    ensures forall p: nat | p < |s.processes| :: m.processes[p].phase.Gone? ==> s.processes[p].phase.Gone?
  {
    steps, m := [], s;
    if s.holder.Some? {
      steps, m := HolderFinishes(t, d, s, s.holder.value);
      ExecKeeps(t, d, s, steps);
    }
  }

  /**
   No deadlock: whatever has happened, there is a way on in which nobody is killed, and everybody who has the lock or
   waits for it finishes.
   */
  lemma {:induction false} NeverStuck(t: Tools, d: Disk, commands: seq<Command>, before: seq<Step>)
    returns (steps: seq<Step>, r: System)
    ensures NoKills(steps) && r == Exec(t, Start(d, commands), before + steps)
    ensures AllDone(Exec(t, Start(d, commands), before), r)
  {
    var s := Exec(t, Start(d, commands), before);
    StartLocked(t, d, commands);
    ExecKeeps(t, d, Start(d, commands), before);
    var first, m := HolderFirst(t, d, s);
    var rest;
    rest, r := FreeFinishes(t, m);
    steps := first + rest;
    ExecConcat(t, s, first, rest);
    ExecConcat(t, Start(d, commands), before, steps);
  }
}

/** The work queue of the CTR service: a bounded channel, two workers per start, and callers
    that run at the same time. Every offered track gets a number, in order of offering. */
module CtrQueue {
  import opened Options
  import opened Sequences

  const CAPACITY := 100
  const WORKERS := 2

  datatype Worker = Idle | Busy(ticket: nat) | Exited

  /** running, cancelled, queue and workers are the service's; spawning and stopping are Start
      and Stop calls that have set `running` but not yet started workers or cancelled; checked
      are the QueueTrack calls between their two steps. The rest is history. */
  datatype State = State(
    running: bool,
    cancelled: bool,
    queue: seq<nat>,
    workers: seq<Worker>,
    spawning: nat,
    stopping: nat,
    checked: set<nat>,
    offered: nat,
    refused: set<nat>,
    dropped: set<nat>,
    finished: set<nat>,
    accepted: seq<nat>,
    taken: seq<nat>,
    starts: nat)

  const NEW_STATE := State(false, false, [], [], 0, 0, {}, 0, {}, {}, {}, [], [], 0)

  datatype Event =
    | Start
    | Spawn
    | Stop
    | Cancel
    | Offer
    | Send(ticket: nat)
    | Take(worker: nat)
    | Finish(worker: nat)
    | Exit(worker: nat)

  predicate Enabled(s: State, e: Event) {
    match e
    case Spawn => s.spawning > 0
    case Cancel => s.stopping > 0
    case Send(t) => t in s.checked
    case Take(i) => i < |s.workers| && s.workers[i].Idle? && s.queue != []
    case Finish(i) => i < |s.workers| && s.workers[i].Busy?
    case Exit(i) => i < |s.workers| && s.workers[i].Idle? && s.cancelled
    case _ => true
  }

  /** An event that is not enabled does nothing. Start on a running service and Stop on a
      stopped one return at once. */
  function Apply(s: State, e: Event): State {
    if !Enabled(s, e) then s
    else
      match e
      case Start =>
        if s.running then s else s.(running := true, spawning := s.spawning + WORKERS, starts := s.starts + 1)
      case Spawn => s.(workers := s.workers + [Idle], spawning := s.spawning - 1)
      case Stop => if !s.running then s else s.(running := false, stopping := s.stopping + 1)
      case Cancel => s.(cancelled := true, stopping := s.stopping - 1)
      case Offer =>
        if s.running then s.(offered := s.offered + 1, checked := s.checked + {s.offered})
        else s.(offered := s.offered + 1, refused := s.refused + {s.offered})
      case Send(t) =>
        if |s.queue| < CAPACITY then
          s.(checked := s.checked - {t}, queue := s.queue + [t], accepted := s.accepted + [t])
        else s.(checked := s.checked - {t}, dropped := s.dropped + {t})
      case Take(i) =>
        s.(workers := s.workers[i := Busy(s.queue[0])], queue := s.queue[1..], taken := s.taken + [s.queue[0]])
      case Finish(i) =>
        s.(workers := s.workers[i := Idle], finished := s.finished + {s.workers[i].ticket})
      case Exit(i) => s.(workers := s.workers[i := Exited])
  }

  function Continue(s: State, run: seq<Event>): State
    decreases |run|
  {
    if run == [] then s else Continue(Apply(s, run[0]), run[1..])
  }

  /** The service after a run from its creation. */
  function After(run: seq<Event>): State {
    Continue(NEW_STATE, run)
  }

  // ---- Conservation ----

  function One(b: bool): nat {
    if b then 1 else 0
  }

  function Occurrences(s: seq<nat>, t: nat): nat {
    if s == [] then 0 else Occurrences(s[..|s| - 1], t) + One(s[|s| - 1] == t)
  }

  /** How many workers have the track in work. */
  function InWork(workers: seq<Worker>, t: nat): nat {
    if workers == [] then 0 else InWork(workers[..|workers| - 1], t) + One(workers[|workers| - 1] == Busy(t))
  }

  function BusyWorkers(workers: seq<Worker>): (n: nat)
    ensures n <= |workers|
  {
    if workers == [] then 0 else BusyWorkers(workers[..|workers| - 1]) + One(workers[|workers| - 1].Busy?)
  }

  /** In how many places a track is: refused, between the check and the send, dropped for a full
      queue, queued, in work, finished. */
  function Places(s: State, t: nat): nat {
    One(t in s.refused) + One(t in s.checked) + One(t in s.dropped) + Occurrences(s.queue, t) + InWork(s.workers, t)
    + One(t in s.finished)
  }

  /** The invariant. Every offered track is in exactly one place; accepted tracks are taken in
      order; the queue is bounded, and each start brings two workers. */
  ghost predicate Ok(s: State) {
    && (forall t: nat :: Places(s, t) == One(t < s.offered))
    && s.accepted == s.taken + s.queue
    && (forall t: nat :: Occurrences(s.taken, t) == InWork(s.workers, t) + One(t in s.finished))
    && |s.queue| <= CAPACITY
    && |s.workers| + s.spawning == WORKERS * s.starts
  }

  lemma OccurrencesSnoc(s: seq<nat>, x: nat, t: nat)
    ensures Occurrences(s + [x], t) == Occurrences(s, t) + One(x == t)
  {
    assert (s + [x])[..|s|] == s;
  }

  lemma {:induction false} OccurrencesAppend(a: seq<nat>, b: seq<nat>, t: nat)
    ensures Occurrences(a + b, t) == Occurrences(a, t) + Occurrences(b, t)
  {
    if b == [] {
      assert a + b == a;
    } else {
      OccurrencesAppend(a, b[..|b| - 1], t);
      assert (a + b)[..|a + b| - 1] == a + b[..|b| - 1];
    }
  }

  lemma OccurrencesHead(s: seq<nat>, t: nat)
    requires s != []
    ensures Occurrences(s, t) == One(s[0] == t) + Occurrences(s[1..], t)
  {
    OccurrencesAppend([s[0]], s[1..], t);
    OccurrencesSnoc([], s[0], t);
    assert [s[0]] + s[1..] == s && [] + [s[0]] == [s[0]];
  }

  lemma {:induction false} InWorkUpdate(workers: seq<Worker>, i: nat, w: Worker, t: nat)
    requires i < |workers|
    ensures InWork(workers[i := w], t) + One(workers[i] == Busy(t)) == InWork(workers, t) + One(w == Busy(t))
  {
    var last := |workers| - 1;
    if i == last {
      assert workers[i := w][..last] == workers[..last];
    } else {
      assert workers[i := w][..last] == workers[..last][i := w];
      InWorkUpdate(workers[..last], i, w, t);
    }
  }

  lemma InWorkSnoc(workers: seq<Worker>, t: nat)
    ensures InWork(workers + [Idle], t) == InWork(workers, t)
  {
    assert (workers + [Idle])[..|workers|] == workers;
  }

  lemma EventKeepsOk(s: State, e: Event)
    requires Ok(s)
    ensures Ok(Apply(s, e))
  {
    if Enabled(s, e) {
      match e
      case Spawn =>
        forall t: nat
          ensures Places(Apply(s, e), t) == Places(s, t) && InWork(s.workers + [Idle], t) == InWork(s.workers, t)
        {
          InWorkSnoc(s.workers, t);
        }
      case Offer => OfferKeepsOk(s);
      case Send(t) => SendKeepsOk(s, t);
      case Take(i) => TakeKeepsOk(s, i);
      case Finish(i) => FinishKeepsOk(s, i);
      case Exit(i) =>
        forall t: nat
          ensures Places(Apply(s, e), t) == Places(s, t) && InWork(s.workers[i := Exited], t) == InWork(s.workers, t)
        {
          InWorkUpdate(s.workers, i, Exited, t);
        }
      case _ =>
        assert forall t: nat :: Places(Apply(s, e), t) == Places(s, t);
    }
  }

  lemma OfferKeepsOk(s: State)
    requires Ok(s)
    ensures Ok(Apply(s, Offer))
  {
    var s' := Apply(s, Offer);
    forall t: nat
      ensures Places(s', t) == One(t < s'.offered)
    {
      assert Places(s, t) == One(t < s.offered);
    }
  }

  lemma SendKeepsOk(s: State, x: nat)
    requires Ok(s) && x in s.checked
    ensures Ok(Apply(s, Send(x)))
  {
    var s' := Apply(s, Send(x));
    forall t: nat
      ensures Places(s', t) == One(t < s'.offered)
    {
      SendMoves(s, x, t);
      assert Places(s, t) == One(t < s.offered) && Places(s, x) == One(x < s.offered);
    }
    assert s.accepted + [x] == s.taken + (s.queue + [x]);
  }

  /** A sent track goes from the checked ones to the queue or to the dropped ones. */
  lemma SendMoves(s: State, x: nat, t: nat)
    requires x in s.checked && Places(s, x) <= 1
    ensures Places(Apply(s, Send(x)), t) == Places(s, t)
  {
    var s' := Apply(s, Send(x));
    OccurrencesSnoc(s.queue, x, t);
    assert t in s'.checked <==> t in s.checked && t != x;
    if |s.queue| >= CAPACITY {
      assert x !in s.dropped;
      assert t in s'.dropped <==> t in s.dropped || t == x;
    }
  }

  lemma TakeKeepsOk(s: State, i: nat)
    requires Ok(s) && Enabled(s, Take(i))
    ensures Ok(Apply(s, Take(i)))
  {
    var s', x := Apply(s, Take(i)), s.queue[0];
    forall t: nat
      ensures Places(s', t) == One(t < s'.offered)
      ensures Occurrences(s'.taken, t) == InWork(s'.workers, t) + One(t in s'.finished)
    {
      assert Places(s, t) == One(t < s.offered);
      InWorkUpdate(s.workers, i, Busy(x), t);
      OccurrencesHead(s.queue, t);
      OccurrencesSnoc(s.taken, x, t);
    }
    assert s.taken + s.queue == (s.taken + [x]) + s.queue[1..];
  }

  lemma FinishKeepsOk(s: State, i: nat)
    requires Ok(s) && Enabled(s, Finish(i))
    ensures Ok(Apply(s, Finish(i)))
  {
    var s', x := Apply(s, Finish(i)), s.workers[i].ticket;
    forall t: nat
      ensures Places(s', t) == One(t < s'.offered)
      ensures Occurrences(s'.taken, t) == InWork(s'.workers, t) + One(t in s'.finished)
    {
      assert Places(s, t) == One(t < s.offered);
      InWorkUpdate(s.workers, i, Idle, t);
    }
  }

  lemma {:induction false} ContinueKeepsOk(s: State, run: seq<Event>)
    requires Ok(s)
    ensures Ok(Continue(s, run))
    decreases |run|
  {
    if run != [] {
      EventKeepsOk(s, run[0]);
      ContinueKeepsOk(Apply(s, run[0]), run[1..]);
    }
  }

  lemma RunsKeepOk(run: seq<Event>)
    ensures Ok(After(run))
  {
    assert forall t: nat :: Places(NEW_STATE, t) == 0;
    ContinueKeepsOk(NEW_STATE, run);
  }

  /** In every run, every offered track is in exactly one place, and no other track in any. */
  lemma EveryOfferIsInOnePlace(run: seq<Event>, t: nat)
    ensures Places(After(run), t) == One(t < After(run).offered)
  {
    RunsKeepOk(run);
  }

  /** Accepted tracks are taken in the order of acceptance and none of them twice; the taken
      ones are those in work or finished. */
  lemma AcceptedAreTakenOnceInOrder(run: seq<Event>)
    ensures var s := After(run);
      && s.taken <= s.accepted
      && NoDups(s.accepted)
      && forall t: nat :: Occurrences(s.taken, t) == InWork(s.workers, t) + One(t in s.finished)
  {
    RunsKeepOk(run);
    var s := After(run);
    forall i, j | 0 <= i < j < |s.accepted|
      ensures s.accepted[i] != s.accepted[j]
    {
      var t := s.accepted[j];
      assert Places(s, t) <= 1;
      OccurrencesAppend(s.taken, s.queue, t);
      assert Occurrences(s.accepted, t) <= 1;
      if s.accepted[i] == t {
        TwiceCounts(s.accepted, i, j);
      }
    }
  }

  lemma {:induction false} OnceCounts(s: seq<nat>, i: nat)
    requires i < |s|
    ensures Occurrences(s, s[i]) >= 1
  {
    if i < |s| - 1 {
      OnceCounts(s[..|s| - 1], i);
    }
  }

  lemma {:induction false} TwiceCounts(s: seq<nat>, i: nat, j: nat)
    requires i < j < |s| && s[i] == s[j]
    ensures Occurrences(s, s[i]) >= 2
  {
    if j == |s| - 1 {
      OnceCounts(s[..|s| - 1], i);
    } else {
      TwiceCounts(s[..|s| - 1], i, j);
    }
  }

  /** The queue holds at most 100 tracks. Each Start that took effect brings two workers, so at most
      two tracks are in work for each; at most two after a single one. */
  lemma Bounded(run: seq<Event>)
    ensures |After(run).queue| <= 100
    ensures |After(run).workers| + After(run).spawning == 2 * After(run).starts
    ensures BusyWorkers(After(run).workers) <= 2 * After(run).starts
  {
    RunsKeepOk(run);
  }

  /** A track that a running service was offered is accepted at the end of the queue if that has
      fewer than 100, and dropped otherwise; a stopped service refuses it. */
  lemma OfferedTrackGoes(run: seq<Event>)
    ensures var s, t := After(run), After(run).offered;
      var s' := After(run + [Offer] + [Send(t)]);
      if !s.running then s'.queue == s.queue && t in s'.refused
      else if |s.queue| < 100 then s'.queue == s.queue + [t] && s'.accepted == s.accepted + [t]
      else s'.queue == s.queue && t in s'.dropped
  {
    RunsKeepOk(run);
    var t := After(run).offered;
    assert Places(After(run), t) == 0;
    ContinueSnoc(NEW_STATE, run, Offer);
    ContinueSnoc(NEW_STATE, run + [Offer], Send(t));
  }

  // ---- A stopped service does not come back ----

  /** No worker is left and none will come. */
  ghost predicate Dead(s: State) {
    s.running && s.spawning == 0 && forall i :: 0 <= i < |s.workers| ==> s.workers[i].Exited?
  }

  /** A dead service accepts tracks but works on none until it is stopped once more. */
  lemma {:induction false} DeadStaysDead(s: State, run: seq<Event>)
    requires Dead(s) && Stop !in run
    ensures Dead(Continue(s, run)) && Continue(s, run).taken == s.taken
    decreases |run|
  {
    if run != [] {
      assert run[0] in run && forall e :: e in run[1..] ==> e in run;
      DeadStaysDead(Apply(s, run[0]), run[1..]);
    }
  }

  lemma {:induction false} ContinueSnoc(s: State, run: seq<Event>, e: Event)
    ensures Continue(s, run + [e]) == Apply(Continue(s, run), e)
    decreases |run|
  {
    if run == [] {
      assert (run + [e])[1..] == [];
    } else {
      ContinueSnoc(Apply(s, run[0]), run[1..], e);
      assert (run + [e])[1..] == run[1..] + [e];
    }
  }

  /** A run with one event more. */
  lemma Then(run: seq<Event>, e: Event) returns (longer: seq<Event>)
    ensures longer == run + [e] && After(longer) == Apply(After(run), e)
  {
    ContinueSnoc(NEW_STATE, run, e);
    longer := run + [e];
  }

  /** Start without interruption, at the end of a run. */
  lemma ThenStarted(run: seq<Event>) returns (longer: seq<Event>)
    requires !After(run).running && After(run).spawning == 0
    ensures var s := After(run);
      After(longer) == s.(running := true, starts := s.starts + 1, workers := s.workers + [Idle, Idle])
  {
    var s := After(run);
    longer := Then(run, Start);
    longer := Then(longer, Spawn);
    assert After(longer).workers == s.workers + [Idle];
    longer := Then(longer, Spawn);
    assert s.workers + [Idle] + [Idle] == s.workers + [Idle, Idle];
  }

  /** Two idle workers, the last ones, leave. */
  lemma ThenTwoLeft(run: seq<Event>) returns (longer: seq<Event>)
    requires var s := After(run);
      s.cancelled && |s.workers| >= 2 && s.workers[|s.workers| - 2..] == [Idle, Idle]
    ensures var s := After(run);
      After(longer) == s.(workers := s.workers[..|s.workers| - 2] + [Exited, Exited])
  {
    var s := After(run);
    var n := |s.workers|;
    assert s.workers[n - 2] == s.workers[n - 2..][0] && s.workers[n - 1] == s.workers[n - 2..][1];
    longer := Then(run, Exit(n - 2));
    longer := Then(longer, Exit(n - 1));
    assert s.workers[n - 2 := Exited][n - 1 := Exited] == s.workers[..n - 2] + [Exited, Exited];
  }

  lemma ThenStopped(run: seq<Event>) returns (longer: seq<Event>)
    requires After(run).running && After(run).stopping == 0
    ensures After(longer) == After(run).(running := false, cancelled := true)
  {
    longer := Then(run, Stop);
    longer := Then(longer, Cancel);
  }

  lemma StoppedOnce() returns (run: seq<Event>)
    ensures After(run) == NEW_STATE.(cancelled := true, workers := [Exited, Exited], starts := 1)
  {
    run := ThenStarted([]);
    assert [] + [Idle, Idle] == [Idle, Idle];
    run := ThenStopped(run);
    run := ThenTwoLeft(run);
    assert [Idle, Idle][..0] + [Exited, Exited] == [Exited, Exited];
  }

  /** Stop cancels the context for good, so after Stop and Start the new workers may exit at
      once: some run leaves an accepted track in a dead service. */
  lemma RestartMayLeaveServiceDead()
    ensures exists run: seq<Event> :: Dead(After(run)) && After(run).queue == [0]
  {
    var run := StoppedOnce();
    run := ThenStarted(run);
    run := ThenTwoLeft(run);
    run := Then(run, Offer);
    run := Then(run, Send(0));
    assert Dead(After(run)) && After(run).queue == [0];
  }

  // ---- When that can happen ----

  /** Workers leave only a cancelled service, and each effective Start brought two. */
  ghost predicate Staffed(s: State) {
    && (forall i :: 0 <= i < |s.workers| && s.workers[i].Exited? ==> s.cancelled)
    && (s.running ==> |s.workers| + s.spawning > 0)
  }

  lemma {:induction false} ContinueKeepsStaffed(s: State, run: seq<Event>)
    requires Staffed(s)
    ensures Staffed(Continue(s, run))
    decreases |run|
  {
    if run != [] {
      ContinueKeepsStaffed(Apply(s, run[0]), run[1..]);
    }
  }

  /** Only Stop leads to a cancelled context. */
  lemma {:induction false} NotCancelledWithoutStop(s: State, run: seq<Event>)
    requires !s.cancelled && s.stopping == 0 && Stop !in run
    ensures !Continue(s, run).cancelled
    decreases |run|
  {
    if run != [] {
      assert run[0] in run && forall e :: e in run[1..] ==> e in run;
      NotCancelledWithoutStop(Apply(s, run[0]), run[1..]);
    }
  }

  /** A run with one event more at its front. */
  lemma Before(s: State, e: Event, run: seq<Event>) returns (longer: seq<Event>)
    requires e != Stop && Stop !in run
    ensures Stop !in longer && Continue(s, longer) == Continue(Apply(s, e), run)
  {
    longer := [e] + run;
    assert longer[1..] == run;
  }

  /** The workers from the i-th on finish and leave. */
  lemma ThenAllLeave(s: State, i: nat) returns (more: seq<Event>)
    requires s.cancelled && s.running && s.spawning == 0 && i <= |s.workers|
    requires forall k :: 0 <= k < i ==> s.workers[k].Exited?
    ensures Stop !in more && Dead(Continue(s, more))
    decreases |s.workers| - i, i < |s.workers| && s.workers[i].Busy?
  {
    if i == |s.workers| {
      more := [];
    } else if s.workers[i].Exited? {
      more := ThenAllLeave(s, i + 1);
    } else if s.workers[i].Idle? {
      more := ThenAllLeave(Apply(s, Exit(i)), i + 1);
      more := Before(s, Exit(i), more);
    } else {
      more := ThenAllLeave(Apply(s, Finish(i)), i);
      more := Before(s, Finish(i), more);
    }
  }

  lemma ThenAllSpawnAndLeave(s: State) returns (more: seq<Event>)
    requires s.cancelled && s.running
    ensures Stop !in more && Dead(Continue(s, more))
    decreases s.spawning
  {
    if s.spawning == 0 {
      more := ThenAllLeave(s, 0);
    } else {
      more := ThenAllSpawnAndLeave(Apply(s, Spawn));
      more := Before(s, Spawn, more);
    }
  }

  /** At any moment of any run: without another Stop, the service can die exactly when a Stop
      has taken effect before. */
  lemma MayDieIffStopped(run: seq<Event>)
    ensures (exists more :: Stop !in more && Dead(Continue(After(run), more)))
      <==> After(run).cancelled || After(run).stopping > 0
  {
    var s := After(run);
    ContinueKeepsStaffed(NEW_STATE, run);
    if s.cancelled || s.stopping > 0 {
      var s1 := if s.cancelled then s else Apply(s, Cancel);
      var more := ThenAllSpawnAndLeave(Apply(s1, Start));
      more := Before(s1, Start, more);
      if !s.cancelled {
        more := Before(s, Cancel, more);
      }
      assert Stop !in more && Dead(Continue(After(run), more));
    } else {
      forall more | Stop !in more
        ensures !Dead(Continue(s, more))
      {
        ContinueKeepsStaffed(s, more);
        NotCancelledWithoutStop(s, more);
        var workers := Continue(s, more).workers;
        assert workers != [] ==> workers[0] == Continue(s, more).workers[0];
      }
    }
  }

  // ---- The service object ----

  class CtrService {
    var running: bool
    var cancelled: bool
    var queue: seq<nat>
    var workers: seq<Worker>
    ghost var history: State

    /** The machine state: the fields, and the history for the rest. */
    ghost function View(): State
      reads this
    {
      history.(running := running, cancelled := cancelled, queue := queue, workers := workers)
    }

    constructor ()
      ensures View() == NEW_STATE
    {
      running, cancelled, queue, workers := false, false, [], [];
      history := NEW_STATE;
    }

    /** Start without interruption. */
    method Start()
      requires history.spawning == 0
      modifies this
      ensures View() == Apply(Apply(Apply(old(View()), Event.Start), Spawn), Spawn)
      ensures running && cancelled == old(cancelled) && queue == old(queue)
      ensures workers == if old(running) then old(workers) else old(workers) + [Idle, Idle]
    {
      if running {
        return;
      }
      running := true;
      for i := 0 to WORKERS
        invariant workers == old(workers) + seq(i, _ => Idle)
        invariant View() == old(View()).(running := true, workers := workers)
      {
        workers := workers + [Idle];
      }
      assert workers == old(workers) + [Idle] + [Idle];
      history := history.(starts := history.starts + 1);
    }

    /** Stop without interruption; waiting for the workers changes nothing. */
    method Stop()
      requires history.stopping == 0
      modifies this
      ensures View() == Apply(Apply(old(View()), Event.Stop), Cancel)
      ensures !running && cancelled == (old(running) || old(cancelled))
      ensures queue == old(queue) && workers == old(workers)
    {
      if !running {
        return;
      }
      running := false;
      cancelled := true;
    }

    /** QueueTrack without interruption. The track's number is the next one. */
    method QueueTrack(ticket: nat)
      requires ticket == history.offered && Ok(View())
      modifies this
      ensures View() == Apply(Apply(old(View()), Offer), Send(ticket))
      ensures queue == if running && |old(queue)| < 100 then old(queue) + [ticket] else old(queue)
      ensures running == old(running) && cancelled == old(cancelled) && workers == old(workers)
    {
      assert Places(View(), ticket) == 0;
      assert ticket !in history.checked;
      if !running {
        history := history.(offered := ticket + 1, refused := history.refused + {ticket});
        return;
      }
      assert history.checked + {ticket} - {ticket} == history.checked;
      if |queue| < CAPACITY {
        queue := queue + [ticket];
        history := history.(offered := ticket + 1, accepted := history.accepted + [ticket]);
      } else {
        history := history.(offered := ticket + 1, dropped := history.dropped + {ticket});
      }
    }

    /** One round of a worker's loop: the select picks any case that is ready; when none is, the
        worker waits. */
    method WorkerRound(i: nat) returns (ghost picked: Option<Event>)
      requires i < |workers| && workers[i].Idle?
      modifies this
      ensures match picked
        case None => View() == old(View()) && !cancelled && queue == []
        case Some(e) =>
          && (e == Exit(i) || e == Take(i)) && Enabled(old(View()), e)
          && View() == if e == Exit(i) then Apply(old(View()), e) else Apply(Apply(old(View()), e), Finish(i))
      // It waits, leaves a cancelled service, or takes the head of the queue and finishes it.
      ensures || (queue == old(queue) == [] && workers == old(workers) && !cancelled)
              || (queue == old(queue) && workers == old(workers)[i := Exited] && cancelled)
              || (old(queue) != [] && queue == old(queue)[1..] && workers == old(workers)
                  && history.finished == old(history.finished) + {old(queue)[0]})
      ensures running == old(running) && cancelled == old(cancelled)
    {
      var pick: bool := *;
      if cancelled && (pick || queue == []) {
        workers := workers[i := Exited];
        picked := Some(Exit(i));
      } else if queue != [] {
        var ticket := queue[0];
        queue := queue[1..];
        workers := workers[i := Busy(ticket)];
        history := history.(taken := history.taken + [ticket]);
        assert View() == Apply(old(View()), Take(i));
        workers := workers[i := Idle];
        history := history.(finished := history.finished + {ticket});
        picked := Some(Take(i));
      } else {
        picked := None;
      }
    }
  }
}

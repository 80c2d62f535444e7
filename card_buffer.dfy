/**
 * The card prefetch buffer and the multi-set assembler.
 *
 * The buffer keeps one slot per mode. A slot holds a generation task,
 * represented by an opaque id; the task's own work is not modelled, only
 * the events that matter to the slots: a task is started, a task settles
 * (succeeds or fails), a scheduled refill timer fires. Timers are kept in an
 * explicit queue; which pending timer fires next is the environment's choice.
 */
module CardBuffer {
  import opened Types

  type TaskId = nat

  datatype Mode = SingleMode | MultiMode

  function Other(m: Mode): Mode
  {
    match m
    case SingleMode => MultiMode
    case MultiMode => SingleMode
  }

  /** The parameters of a fetch, a refill or a generation task. */
  datatype Request =
    | SingleRequest(difficulty: Difficulty)
    | MultiRequest(difficulty: Difficulty, count: int)
  {
    function ModeOf(): Mode
    {
      if SingleRequest? then SingleMode else MultiMode
    }
  }

  /**
   * A started generation task. Only tasks a refill started carry the
   * failure handler that clears the slot.
   */
  datatype Task = Task(request: Request, refill: bool)

  /** A scheduled `setTimeout(() => preload(request), delay)`. */
  datatype Timer = Timer(delay: nat, request: Request)

  /** The refill delay after a fetch served from the slot. */
  function HitDelay(m: Mode): (d: nat)
    ensures d == 3000 <==> m == SingleMode
    ensures d == 4000 <==> m == MultiMode
    ensures d + 2000 == MissDelay(m)
  {
    match m
    case SingleMode => 3000
    case MultiMode => 4000
  }

  /** The refill delay after a fetch that found the slot empty. */
  function MissDelay(m: Mode): (d: nat)
    ensures d == 5000 <==> m == SingleMode
    ensures d == 6000 <==> m == MultiMode
  {
    match m
    case SingleMode => 5000
    case MultiMode => 6000
  }

  class PrefetchBuffer {
    /** The two module-level slots. */
    var single: Option<TaskId>
    var multi: Option<TaskId>
    /** Refill timers scheduled and not yet fired, in the order they were set. */
    var timers: seq<Timer>
    /** Every task started so far; a task's id is its index. */
    var tasks: seq<Task>
    /** Tasks started and not yet settled. */
    var running: set<TaskId>
    /** Tasks that settled by failing. */
    var failed: set<TaskId>

    function Slot(m: Mode): Option<TaskId>
      reads this
    {
      match m
      case SingleMode => single
      case MultiMode => multi
    }

    /**
     * An occupied slot holds a task that a refill of that slot's mode
     * started, and that task has not failed.
     */
    predicate SlotValid(m: Mode)
      reads this
    {
      Slot(m).Some? ==>
        var t := Slot(m).value;
        t < |tasks| && tasks[t].refill && tasks[t].request.ModeOf() == m && t !in failed
    }

    predicate Valid()
      reads this
    {
      && SlotValid(SingleMode)
      && SlotValid(MultiMode)
      && (forall t :: t in running ==> t < |tasks|)
      && (forall t :: t in failed ==> t < |tasks|)
      && running !! failed
    }

    constructor ()
      ensures Valid()
      ensures single == None && multi == None
      ensures timers == [] && tasks == [] && running == {} && failed == {}
    {
      single, multi := None, None;
      timers, tasks := [], [];
      running, failed := {}, {};
    }

    method SetSlot(m: Mode, v: Option<TaskId>)
      modifies this
      ensures Slot(m) == v && Slot(Other(m)) == old(Slot(Other(m)))
      ensures timers == old(timers) && tasks == old(tasks)
      ensures running == old(running) && failed == old(failed)
    {
      match m
      case SingleMode => single := v;
      case MultiMode => multi := v;
    }

    /** Starts a generation task for `req`; its id is the next free index. */
    method Start(req: Request, refill: bool) returns (t: TaskId)
      modifies this
      ensures t == |old(tasks)| && tasks == old(tasks) + [Task(req, refill)]
      ensures running == old(running) + {t} && failed == old(failed)
      ensures single == old(single) && multi == old(multi) && timers == old(timers)
    {
      t := |tasks|;
      tasks := tasks + [Task(req, refill)];
      running := running + {t};
    }

    /**
     * `getSingleCard` / `getMultiCards`. A hit hands over the stored task
     * and empties the slot; a miss starts a task that is returned and NOT
     * stored. Either way exactly one refill timer is scheduled.
     */
    method Fetch(req: Request) returns (t: TaskId)
      requires Valid()
      modifies this
      ensures Valid()
      ensures Slot(req.ModeOf()) == None
      ensures Slot(Other(req.ModeOf())) == old(Slot(Other(req.ModeOf())))
      ensures failed == old(failed)
      ensures old(Slot(req.ModeOf())).Some? ==>
        && t == old(Slot(req.ModeOf())).value
        && tasks == old(tasks) && running == old(running)
        && timers == old(timers) + [Timer(HitDelay(req.ModeOf()), req)]
      ensures old(Slot(req.ModeOf())).None? ==>
        && t == |old(tasks)| && tasks == old(tasks) + [Task(req, false)]
        && running == old(running) + {t}
        && timers == old(timers) + [Timer(MissDelay(req.ModeOf()), req)]
    {
      var m := req.ModeOf();
      var held := Slot(m);
      if held.Some? {
        t := held.value;
        SetSlot(m, None);
        timers := timers + [Timer(HitDelay(m), req)];
      } else {
        t := Start(req, false);
        timers := timers + [Timer(MissDelay(m), req)];
      }
    }

    /**
     * `preloadSingleCard` / `preloadMultiCards`: starts a task and stores
     * it only when the slot is empty; an occupied slot is left alone.
     */
    method Preload(req: Request)
      requires Valid()
      modifies this
      ensures Valid()
      ensures timers == old(timers) && failed == old(failed)
      ensures Slot(Other(req.ModeOf())) == old(Slot(Other(req.ModeOf())))
      ensures old(Slot(req.ModeOf())).Some? ==>
        Slot(req.ModeOf()) == old(Slot(req.ModeOf())) && tasks == old(tasks) && running == old(running)
      ensures old(Slot(req.ModeOf())).None? ==>
        && Slot(req.ModeOf()) == Some(|old(tasks)|)
        && tasks == old(tasks) + [Task(req, true)]
        && running == old(running) + {|old(tasks)|}
    {
      var m := req.ModeOf();
      if Slot(m).None? {
        var t := Start(req, true);
        SetSlot(m, Some(t));
      }
    }

    /** The pending timer at position `k` fires: it leaves the queue and runs its refill. */
    method TimerFire(k: nat)
      requires Valid()
      requires k < |timers|
      modifies this
      ensures Valid()
      ensures timers == old(timers[..k] + timers[k + 1..])
      ensures failed == old(failed)
      ensures var req := old(timers[k]).request;
        && Slot(Other(req.ModeOf())) == old(Slot(Other(req.ModeOf())))
        && (old(Slot(req.ModeOf())).Some? ==>
              Slot(req.ModeOf()) == old(Slot(req.ModeOf())) && tasks == old(tasks) && running == old(running))
        && (old(Slot(req.ModeOf())).None? ==>
              && Slot(req.ModeOf()) == Some(|old(tasks)|)
              && tasks == old(tasks) + [Task(req, true)]
              && running == old(running) + {|old(tasks)|})
    {
      var timer := timers[k];
      timers := timers[..k] + timers[k + 1..];
      Preload(timer.request);
    }

    /**
     * Task `t` rejects. If a refill started it, its handler empties the
     * slot of its mode, whatever that slot holds now; the other slot is
     * untouched. A task that is not running does not settle again.
     */
    method TaskFails(t: TaskId)
      requires Valid()
      modifies this
      ensures Valid()
      ensures tasks == old(tasks) && timers == old(timers)
      ensures t in old(running) ==> running == old(running) - {t} && failed == old(failed) + {t}
      ensures t !in old(running) ==> running == old(running) && failed == old(failed)
      ensures t in old(running) && tasks[t].refill ==>
        Slot(tasks[t].request.ModeOf()) == None &&
        Slot(Other(tasks[t].request.ModeOf())) == old(Slot(Other(tasks[t].request.ModeOf())))
      ensures !(t in old(running) && tasks[t].refill) ==> single == old(single) && multi == old(multi)
    {
      if t in running {
        running := running - {t};
        failed := failed + {t};
        if tasks[t].refill {
          SetSlot(tasks[t].request.ModeOf(), None);
        }
      }
    }

    /** Task `t` resolves; a stored task stays in its slot, now ready. */
    method TaskSucceeds(t: TaskId)
      requires Valid()
      modifies this
      ensures Valid()
      ensures running == old(running) - {t}
      ensures failed == old(failed) && tasks == old(tasks) && timers == old(timers)
      ensures single == old(single) && multi == old(multi)
    {
      running := running - {t};
    }

    /** `clearBuffer`: both slots become empty; scheduled refills stay scheduled. */
    method ClearBuffer()
      requires Valid()
      modifies this
      ensures Valid()
      ensures single == None && multi == None
      ensures timers == old(timers) && tasks == old(tasks)
      ensures running == old(running) && failed == old(failed)
    {
      single, multi := None, None;
    }
  }

  // ---------------------------------------------------------------------------
  // Behaviours of the buffer shown on concrete event sequences
  // ---------------------------------------------------------------------------

  /**
   * A cold fetch's task is not stored, so the refill its timer triggers
   * starts a second task of the same mode while the first still runs.
   */
  method ColdFetchThenRefillOverlap(d: Difficulty) returns (cold: TaskId, refill: TaskId, bothRunning: bool)
    ensures cold != refill && bothRunning
  {
    var b := new PrefetchBuffer();
    cold := b.Fetch(SingleRequest(d));
    b.TimerFire(0);
    refill := b.single.value;
    bothRunning := cold in b.running && refill in b.running;
  }

  /**
   * A served refill task that fails later empties the slot although the
   * slot now holds a newer, still running task.
   */
  method LateFailureWipesNewerTask(d: Difficulty) returns (older: TaskId, newer: TaskId, slotAfter: Option<TaskId>, newerRunning: bool)
    ensures older != newer && newerRunning && slotAfter == None
  {
    var b := new PrefetchBuffer();
    b.Preload(SingleRequest(d));
    older := b.Fetch(SingleRequest(d));
    b.TimerFire(0);
    newer := b.single.value;
    b.TaskFails(older);
    slotAfter := b.single;
    newerRunning := newer in b.running;
  }

  /**
   * A timer scheduled before `clearBuffer` still refills the slot after it,
   * with the request it was scheduled with. A game played with `(d, count)`
   * is left for the menu; the next game, with `(d2, count2)`, gets a fresh
   * set on its first fetch, but its second fetch is served the refill of the
   * previous game's settings.
   */
  method ClearKeepsScheduledRefills(d: Difficulty, count: int, d2: Difficulty, count2: int)
    returns (slotAfter: Option<TaskId>, firstRequest: Request, secondRequest: Request)
    ensures slotAfter.Some?
    ensures firstRequest == MultiRequest(d2, count2)
    ensures secondRequest == MultiRequest(d, count)
  {
    var b := new PrefetchBuffer();
    var t := b.Fetch(MultiRequest(d, count));
    b.ClearBuffer();
    var first := b.Fetch(MultiRequest(d2, count2));
    firstRequest := b.tasks[first].request;
    b.TimerFire(0);
    slotAfter := b.multi;
    var second := b.Fetch(MultiRequest(d2, count2));
    secondRequest := b.tasks[second].request;
  }

  // ---------------------------------------------------------------------------
  // generateMultiCardsImpl
  // ---------------------------------------------------------------------------

  /** `Math.max(1, count - 1)`: a request for one card (or fewer) still gets one distractor. */
  function NumDistractors(count: int): (n: nat)
    ensures n >= 1 && n >= count - 1
    ensures n == 1 || n == count - 1
  {
    if count - 1 > 1 then count - 1 else 1
  }

  /**
   * How the `generateSingleCard` calls for one distractor position end: the
   * first call and, if that one throws, the manual retry.
   */
  datatype DistractorCalls = DistractorCalls(first: Outcome<Card>, retry: Outcome<Card>)

  /**
   * The call of `generateCardPair` for the target, a throttling pause, or a
   * call of `generateSingleCard` for a distractor position.
   */
  datatype Event = CallPair | Wait(ms: nat) | CallSingle(position: nat)

  /** What one distractor position yields: the first call's card, else the retry's outcome. */
  function Drawn(c: DistractorCalls): (r: Outcome<Card>)
    ensures r.Ok? <==> c.first.Ok? || c.retry.Ok?
    ensures c.first.Ok? ==> r == c.first
    ensures c.first.Err? ==> r == c.retry
  {
    if c.first.Ok? then c.first else c.retry
  }

  /** The events of distractor position `i`. */
  function PositionEvents(c: DistractorCalls, i: nat): (r: seq<Event>)
    ensures |r| == (if i > 0 then 1 else 0) + (if c.first.Err? then 3 else 1)
    ensures r[|r| - 1] == CallSingle(i)
  {
    (if i > 0 then [Wait(500)] else []) + [CallSingle(i)] +
    (if c.first.Err? then [Wait(1000), CallSingle(i)] else [])
  }

  /** The distractor loop after positions `0 .. i-1`: the list so far or the error that aborted it, and the events. */
  datatype LoopState = LoopState(distractors: Outcome<seq<Card>>, events: seq<Event>)

  function DistractorLoop(calls: seq<DistractorCalls>, i: nat): (r: LoopState)
    requires i <= |calls|
    ensures r.distractors.Ok? ==> |r.distractors.value| == i
  {
    if i == 0 then LoopState(Ok([]), [])
    else
      var prev := DistractorLoop(calls, i - 1);
      if prev.distractors.Err? then prev
      else
        var events := prev.events + PositionEvents(calls[i - 1], i - 1);
        match Drawn(calls[i - 1])
        case Ok(d) => LoopState(Ok(prev.distractors.value + [d]), events)
        case Err(m) => LoopState(Err(m), events)
  }

  /** Once a position has failed twice, later positions change nothing. */
  lemma {:induction false} AbortIsFinal(calls: seq<DistractorCalls>, i: nat, n: nat)
    requires i <= n <= |calls|
    requires DistractorLoop(calls, i).distractors.Err?
    ensures DistractorLoop(calls, n) == DistractorLoop(calls, i)
    decreases n - i
  {
    if i < n {
      AbortIsFinal(calls, i, n - 1);
    }
  }

  /**
   * The loop succeeds exactly when every position yields a card, and then
   * its list holds those cards in position order, with nothing else.
   */
  lemma {:induction false} DistractorLoopResult(calls: seq<DistractorCalls>, i: nat)
    requires i <= |calls|
    ensures DistractorLoop(calls, i).distractors.Ok? <==> forall j :: 0 <= j < i ==> Drawn(calls[j]).Ok?
    ensures DistractorLoop(calls, i).distractors.Ok? ==>
      var ds := DistractorLoop(calls, i).distractors.value;
      |ds| == i && forall j :: 0 <= j < i ==> ds[j] == Drawn(calls[j]).value
    ensures DistractorLoop(calls, i).distractors.Err? ==>
      exists j :: 0 <= j < i && calls[j].first.Err? && calls[j].retry.Err? &&
        DistractorLoop(calls, i).distractors.message == calls[j].retry.message
  {
    if i > 0 {
      DistractorLoopResult(calls, i - 1);
      var prev := DistractorLoop(calls, i - 1);
      if prev.distractors.Err? {
        assert !Drawn(calls[i - 1]).Ok? || !(forall j :: 0 <= j < i - 1 ==> Drawn(calls[j]).Ok?);
      }
    }
  }

  /** The number of calls in `events` made for distractor position `j`. */
  function CallsFor(events: seq<Event>, j: nat): nat
  {
    if events == [] then 0
    else (if events[0] == CallSingle(j) then 1 else 0) + CallsFor(events[1..], j)
  }

  lemma {:induction false} CallsForAppend(a: seq<Event>, b: seq<Event>, j: nat)
    ensures CallsFor(a + b, j) == CallsFor(a, j) + CallsFor(b, j)
    decreases |a|
  {
    if a == [] {
      assert a + b == b;
    } else {
      assert (a + b)[1..] == a[1..] + b;
      CallsForAppend(a[1..], b, j);
    }
  }

  /** Every call in `events` is for a position below `n`. */
  predicate CallsBelow(events: seq<Event>, n: nat)
  {
    forall k :: 0 <= k < |events| && events[k].CallSingle? ==> events[k].position < n
  }

  lemma {:induction false} NoCallsAbove(events: seq<Event>, n: nat, j: nat)
    requires CallsBelow(events, n) && n <= j
    ensures CallsFor(events, j) == 0
    decreases |events|
  {
    if events != [] {
      assert events[0] != CallSingle(j);
      assert CallsBelow(events[1..], n) by {
        forall k | 0 <= k < |events[1..]| && events[1..][k].CallSingle?
          ensures events[1..][k].position < n
        {
          assert events[1..][k] == events[k + 1];
        }
      }
      NoCallsAbove(events[1..], n, j);
    }
  }

  /**
   * The pacing the assembler keeps towards the backend: the first event is
   * the call for position 0; every later call comes straight after a pause;
   * every pause is followed by a call; calls never go back to an earlier position.
   */
  predicate Paced(events: seq<Event>)
  {
    && (|events| > 0 ==> events[0] == CallSingle(0))
    && (forall k :: 0 < k < |events| && events[k].CallSingle? ==> events[k - 1].Wait?)
    && (forall k :: 0 <= k < |events| && events[k].Wait? ==> k + 1 < |events| && events[k + 1].CallSingle?)
    && (forall a, b :: 0 <= a < b < |events| && events[a].CallSingle? && events[b].CallSingle? ==>
          events[a].position <= events[b].position)
  }

  /**
   * The two kinds of pause: 500 ms between one position's last call and the
   * next position's first call, and 1000 ms between a failed call and the
   * manual retry of the same position.
   */
  predicate WaitsPlaced(events: seq<Event>)
  {
    forall k :: 0 <= k < |events| && events[k].Wait? ==>
      && 0 < k && k + 1 < |events| && events[k - 1].CallSingle?
      && (events[k].ms == 500 || events[k].ms == 1000)
      && (events[k].ms == 500 ==> events[k + 1] == CallSingle(events[k - 1].position + 1))
      && (events[k].ms == 1000 ==> events[k + 1] == events[k - 1])
  }

  /** Appending the events of position `n` right after position `n - 1`'s last call keeps the pauses in place. */
  lemma WaitsPlacedAppend(a: seq<Event>, c: DistractorCalls, n: nat)
    requires WaitsPlaced(a)
    requires a == [] <==> n == 0
    requires n > 0 ==> a[|a| - 1] == CallSingle(n - 1)
    ensures WaitsPlaced(a + PositionEvents(c, n))
  {
    var p := PositionEvents(c, n);
    var e := a + p;
    var off := if n > 0 then 1 else 0;
    assert p[off] == CallSingle(n);
    assert c.first.Err? ==> |p| == off + 3 && p[off + 1] == Wait(1000) && p[off + 2] == CallSingle(n);
    assert c.first.Ok? ==> |p| == off + 1;
    forall k | 0 <= k < |e| && e[k].Wait?
      ensures && 0 < k && k + 1 < |e| && e[k - 1].CallSingle?
              && (e[k].ms == 500 || e[k].ms == 1000)
              && (e[k].ms == 500 ==> e[k + 1] == CallSingle(e[k - 1].position + 1))
              && (e[k].ms == 1000 ==> e[k + 1] == e[k - 1])
    {
      if k < |a| {
        assert e[k] == a[k] && e[k - 1] == a[k - 1] && e[k + 1] == a[k + 1];
      } else if k == |a| && n > 0 {
        assert e[k] == p[0] && e[k - 1] == a[|a| - 1] && e[k + 1] == p[1];
      } else {
        assert e[k] == p[k - |a|] && e[k - 1] == p[k - 1 - |a|] && e[k + 1] == p[k + 1 - |a|];
      }
    }
  }

  /** How the events of one position `i` look. */
  predicate PositionShape(e: seq<Event>, i: nat)
  {
    && |e| > 0 && e[|e| - 1] == CallSingle(i)
    && (forall k :: 0 <= k < |e| && e[k].CallSingle? ==> e[k].position == i)
    && (forall k :: 0 <= k < |e| && e[k].Wait? ==> k + 1 < |e| && e[k + 1].CallSingle?)
    && (forall k :: 0 < k < |e| && e[k].CallSingle? ==> e[k - 1].Wait?)
    && (i > 0 ==> e[0].Wait?)
    && (i == 0 ==> e[0] == CallSingle(0))
  }

  /**
   * Position `i` waits 500 ms first unless it is position 0, calls once, and
   * on a throw waits 1000 ms before calling again for the same position.
   */
  lemma PositionEventsShape(c: DistractorCalls, i: nat)
    ensures var e := PositionEvents(c, i);
      && PositionShape(e, i)
      && CallsFor(e, i) == (if c.first.Err? then 2 else 1)
      && (i > 0 ==> e[0] == Wait(500))
      && (forall k :: 0 <= k < |e| && e[k] == Wait(1000) ==> 0 < k && k + 1 < |e| && e[k - 1] == e[k + 1] == CallSingle(i))
  {
    var e := PositionEvents(c, i);
    var tail := if c.first.Err? then [Wait(1000), CallSingle(i)] else [];
    var head := if i > 0 then [Wait(500)] else [];
    assert e == head + [CallSingle(i)] + tail;
    CallsForAppend(head + [CallSingle(i)], tail, i);
    CallsForAppend(head, [CallSingle(i)], i);
    assert CallsFor([CallSingle(i)], i) == 1 by {
      assert [CallSingle(i)][1..] == [];
    }
    if i > 0 {
      assert [Wait(500)] [1..] == [];
    }
    if c.first.Err? {
      assert tail[1..] == [CallSingle(i)];
      assert CallsFor([CallSingle(i)], i) == 1 by {
        assert [CallSingle(i)][1..] == [];
      }
    }
  }

  /** Appending the events of the next position keeps the pacing. */
  lemma PacedAppend(a: seq<Event>, p: seq<Event>, n: nat)
    requires Paced(a) && CallsBelow(a, n) && PositionShape(p, n)
    requires a == [] <==> n == 0
    requires a != [] ==> a[|a| - 1].CallSingle?
    ensures Paced(a + p) && CallsBelow(a + p, n + 1)
  {
    var e := a + p;
    forall k | 0 < k < |e| && e[k].CallSingle?
      ensures e[k - 1].Wait?
    {
      if k > |a| {
        assert e[k - 1] == p[k - 1 - |a|];
        assert e[k] == p[k - |a|];
      } else {
        assert e[k - 1] == a[k - 1];
        assert e[k] == a[k];
      }
    }
    forall k | 0 <= k < |e| && e[k].Wait?
      ensures k + 1 < |e| && e[k + 1].CallSingle?
    {
      if k >= |a| {
        assert e[k] == p[k - |a|];
        assert e[k + 1] == p[k + 1 - |a|];
      } else if k + 1 < |a| {
        assert e[k] == a[k];
        assert e[k + 1] == a[k + 1];
      }
    }
    forall x, y | 0 <= x < y < |e| && e[x].CallSingle? && e[y].CallSingle?
      ensures e[x].position <= e[y].position
    {
      if y >= |a| {
        assert e[y] == p[y - |a|];
        if x < |a| {
          assert e[x] == a[x];
        } else {
          assert e[x] == p[x - |a|];
        }
      } else {
        assert e[x] == a[x] && e[y] == a[y];
      }
    }
    forall k | 0 <= k < |e| && e[k].CallSingle?
      ensures e[k].position < n + 1
    {
      if k < |a| {
        assert e[k] == a[k];
      } else {
        assert e[k] == p[k - |a|];
      }
    }
  }

  /** Appending the calls of a new position keeps every position at two calls or fewer. */
  lemma CallCountAppend(a: seq<Event>, c: DistractorCalls, n: nat)
    requires CallsBelow(a, n) && forall j: nat :: CallsFor(a, j) <= 2
    ensures forall j: nat :: CallsFor(a + PositionEvents(c, n), j) <= 2
  {
    var p := PositionEvents(c, n);
    PositionEventsShape(c, n);
    forall j: nat
      ensures CallsFor(a + p, j) <= 2
    {
      CallsForAppend(a, p, j);
      if j >= n {
        NoCallsAbove(a, n, j);
      }
      if j != n {
        PositionCallsOnlyOwn(c, n, j);
      }
    }
  }

  /** The loop's calls keep to the pacing and stay below the positions processed. */
  lemma {:induction false} DistractorLoopPaced(calls: seq<DistractorCalls>, i: nat)
    requires i <= |calls|
    ensures var e := DistractorLoop(calls, i).events; Paced(e) && CallsBelow(e, i)
  {
    if i > 0 {
      DistractorLoopPaced(calls, i - 1);
      var prev := DistractorLoop(calls, i - 1);
      var a := prev.events;
      if prev.distractors.Ok? {
        PositionEventsShape(calls[i - 1], i - 1);
        if i - 1 > 0 {
          DistractorLoopNonEmpty(calls, i - 1);
        }
        LastEventIsCall(calls, i - 1);
        PacedAppend(a, PositionEvents(calls[i - 1], i - 1), i - 1);
      } else {
        assert CallsBelow(a, i) by {
          assert forall k :: 0 <= k < |a| && a[k].CallSingle? ==> a[k].position < i - 1;
        }
      }
    }
  }

  /** The loop's pauses are 500 ms before a new position and 1000 ms before a retry. */
  lemma {:induction false} DistractorLoopWaits(calls: seq<DistractorCalls>, i: nat)
    requires i <= |calls|
    ensures WaitsPlaced(DistractorLoop(calls, i).events)
  {
    if i > 0 {
      DistractorLoopWaits(calls, i - 1);
      var prev := DistractorLoop(calls, i - 1);
      if prev.distractors.Ok? {
        if i - 1 > 0 {
          DistractorLoopNonEmpty(calls, i - 1);
        }
        LastEventIsCall(calls, i - 1);
        WaitsPlacedAppend(prev.events, calls[i - 1], i - 1);
      }
    }
  }

  /** No position is called more than twice: the first call and the manual retry. */
  lemma {:induction false} DistractorLoopCallCounts(calls: seq<DistractorCalls>, i: nat)
    requires i <= |calls|
    ensures forall j: nat :: CallsFor(DistractorLoop(calls, i).events, j) <= 2
  {
    if i > 0 {
      DistractorLoopCallCounts(calls, i - 1);
      var prev := DistractorLoop(calls, i - 1);
      if prev.distractors.Ok? {
        DistractorLoopPaced(calls, i - 1);
        CallCountAppend(prev.events, calls[i - 1], i - 1);
      }
    }
  }

  /**
   * The loop's events are paced with the pauses in place, stay below the
   * positions processed, and hold at most two calls per position.
   */
  lemma DistractorLoopPacing(calls: seq<DistractorCalls>, i: nat)
    requires i <= |calls|
    ensures var e := DistractorLoop(calls, i).events;
      Paced(e) && WaitsPlaced(e) && CallsBelow(e, i) && forall j: nat :: CallsFor(e, j) <= 2
  {
    DistractorLoopPaced(calls, i);
    DistractorLoopWaits(calls, i);
    DistractorLoopCallCounts(calls, i);
  }

  /** A position's events mention no other position. */
  lemma PositionCallsOnlyOwn(c: DistractorCalls, i: nat, j: nat)
    requires j != i
    ensures CallsFor(PositionEvents(c, i), j) == 0
  {
    PositionEventsShape(c, i);
    CallsForNone(PositionEvents(c, i), j);
  }

  lemma {:induction false} CallsForNone(events: seq<Event>, j: nat)
    requires forall k :: 0 <= k < |events| ==> events[k] != CallSingle(j)
    ensures CallsFor(events, j) == 0
    decreases |events|
  {
    if events != [] {
      assert forall k :: 0 <= k < |events[1..]| ==> events[1..][k] == events[k + 1];
      CallsForNone(events[1..], j);
    }
  }

  /** After at least one position, the loop has produced events. */
  lemma DistractorLoopNonEmpty(calls: seq<DistractorCalls>, i: nat)
    requires 0 < i <= |calls|
    ensures DistractorLoop(calls, i).events != []
    decreases i
  {
    var prev := DistractorLoop(calls, i - 1);
    if prev.distractors.Err? {
      DistractorLoopNonEmpty(calls, i - 1);
    }
  }

  /** The loop's events end with a call, never with a pause. */
  lemma {:induction false} LastEventIsCall(calls: seq<DistractorCalls>, i: nat)
    requires i <= |calls|
    ensures var e := DistractorLoop(calls, i).events; e != [] ==> e[|e| - 1].CallSingle?
    ensures var r := DistractorLoop(calls, i);
      i > 0 && r.distractors.Ok? ==> r.events != [] && r.events[|r.events| - 1] == CallSingle(i - 1)
    decreases i
  {
    if i > 0 {
      var prev := DistractorLoop(calls, i - 1);
      if prev.distractors.Err? {
        LastEventIsCall(calls, i - 1);
      } else {
        var p := PositionEvents(calls[i - 1], i - 1);
        assert p[|p| - 1] == CallSingle(i - 1);
        assert (prev.events + p)[|prev.events + p| - 1] == p[|p| - 1];
      }
    }
  }

  // ---------------------------------------------------------------------------
  // The Fisher-Yates (Durstenfeld) shuffle
  // ---------------------------------------------------------------------------

  /**
   * The random draws supplied for shuffling `len` cards: draw `k` is the
   * `j = floor(random() * (i + 1))` of the iteration with `i = len - 1 - k`.
   */
  predicate ValidDraws(draws: seq<nat>, len: nat)
  {
    |draws| + 1 >= len && forall k :: 0 <= k < |draws| && k + 1 < len ==> draws[k] < len - k
  }

  function Swap<T>(s: seq<T>, i: nat, j: nat): (r: seq<T>)
    requires i < |s| && j < |s|
    ensures |r| == |s|
    ensures r[i] == s[j] && r[j] == s[i]
    ensures forall k :: 0 <= k < |s| && k != i && k != j ==> r[k] == s[k]
  {
    s[i := s[j]][j := s[i]]
  }

  lemma SwapPermutes<T>(s: seq<T>, i: nat, j: nat)
    requires i < |s| && j < |s|
    ensures multiset(Swap(s, i, j)) == multiset(s)
  {
  }

  /** The iterations of the shuffle loop from `i` down to 1. */
  function ShuffleFrom<T>(s: seq<T>, draws: seq<nat>, i: nat): (r: seq<T>)
    requires i < |s| && ValidDraws(draws, |s|)
    ensures |r| == |s|
    ensures forall k :: i < k < |s| ==> r[k] == s[k]
    decreases i
  {
    if i == 0 then s
    else ShuffleFrom(Swap(s, i, draws[|s| - 1 - i]), draws, i - 1)
  }

  function FisherYates<T>(s: seq<T>, draws: seq<nat>): (r: seq<T>)
    requires ValidDraws(draws, |s|)
    ensures |r| == |s|
    ensures |s| <= 1 ==> r == s
  {
    if |s| == 0 then s else ShuffleFrom(s, draws, |s| - 1)
  }

  /** Whatever the draws, the shuffle returns a permutation of its input. */
  lemma {:induction false} ShuffleFromPermutes<T>(s: seq<T>, draws: seq<nat>, i: nat)
    requires i < |s| && ValidDraws(draws, |s|)
    ensures |ShuffleFrom(s, draws, i)| == |s|
    ensures multiset(ShuffleFrom(s, draws, i)) == multiset(s)
    decreases i
  {
    if i > 0 {
      SwapPermutes(s, i, draws[|s| - 1 - i]);
      ShuffleFromPermutes(Swap(s, i, draws[|s| - 1 - i]), draws, i - 1);
    }
  }

  lemma FisherYatesPermutes<T>(s: seq<T>, draws: seq<nat>)
    requires ValidDraws(draws, |s|)
    ensures |FisherYates(s, draws)| == |s|
    ensures multiset(FisherYates(s, draws)) == multiset(s)
  {
    if |s| > 0 {
      ShuffleFromPermutes(s, draws, |s| - 1);
    }
  }

  /** One iteration of the shuffle loop. */
  lemma ShuffleStep<T>(s: seq<T>, draws: seq<nat>, i: nat)
    requires 0 < i < |s| && ValidDraws(draws, |s|)
    ensures |s| - 1 - i < |draws| && draws[|s| - 1 - i] <= i
    ensures ShuffleFrom(s, draws, i) == ShuffleFrom(Swap(s, i, draws[|s| - 1 - i]), draws, i - 1)
  {
  }

  /** `[a[i], a[j]] = [a[j], a[i]]`. */
  method SwapInPlace<T>(a: array<T>, i: nat, j: nat)
    requires i < a.Length && j < a.Length
    modifies a
    ensures a[..] == Swap(old(a[..]), i, j)
  {
    a[i], a[j] := a[j], a[i];
  }

  /** The in-place shuffle loop of the assembler. */
  method Shuffle<T>(a: array<T>, draws: seq<nat>)
    requires ValidDraws(draws, a.Length)
    modifies a
    ensures a[..] == FisherYates(old(a[..]), draws)
  {
    if a.Length == 0 {
      return;
    }
    ghost var shuffled := FisherYates(a[..], draws);
    var i := a.Length - 1;
    while i > 0
      invariant 0 <= i < a.Length
      invariant ShuffleFrom(a[..], draws, i) == shuffled
    {
      var j := draws[a.Length - 1 - i];
      ShuffleStep(a[..], draws, i);
      SwapInPlace(a, i, j);
      i := i - 1;
    }
  }

  /**
   * The distractor loop of `generateMultiCardsImpl`: positions `0 .. n-1`
   * in order, each with one manual retry; it stops at the first position
   * whose retry also throws.
   */
  method CollectDistractors(calls: seq<DistractorCalls>, n: nat)
    returns (distractors: Outcome<seq<Card>>, events: seq<Event>)
    requires n <= |calls|
    ensures DistractorLoop(calls, n) == LoopState(distractors, events)
  {
    events := [];
    var found: seq<Card> := [];
    var i := 0;
    while i < n
      invariant 0 <= i <= n
      invariant DistractorLoop(calls, i) == LoopState(Ok(found), events)
    {
      if i > 0 {
        events := events + [Wait(500)];
      }
      events := events + [CallSingle(i)];
      var c := calls[i];
      if c.first.Ok? {
        found := found + [c.first.value];
      } else {
        events := events + [Wait(1000), CallSingle(i)];
        if c.retry.Ok? {
          found := found + [c.retry.value];
        } else {
          assert DistractorLoop(calls, i + 1) == LoopState(Err(c.retry.message), events);
          AbortIsFinal(calls, i + 1, n);
          return Err(c.retry.message), events;
        }
      }
      i := i + 1;
    }
    distractors := Ok(found);
  }

  /**
   * `generateMultiCardsImpl`: the target first; then the distractors one at a
   * time, each with one manual retry; the whole batch is lost on any
   * unrecovered failure; a successful batch is the target followed by the
   * distractors, shuffled in place.
   */
  method GenerateMultiCardsImpl(target: Outcome<Card>, calls: seq<DistractorCalls>, count: int, draws: seq<nat>)
    returns (result: Outcome<seq<Card>>, events: seq<Event>)
    requires NumDistractors(count) <= |calls|
    requires ValidDraws(draws, NumDistractors(count) + 1)
    ensures target.Err? ==> result == Err(target.message) && events == [CallPair]
    ensures target.Ok? ==>
      var loop := DistractorLoop(calls, NumDistractors(count));
      && events == [CallPair] + loop.events
      && (loop.distractors.Err? ==> result == Err(loop.distractors.message))
      && (loop.distractors.Ok? ==> result == Ok(FisherYates([target.value] + loop.distractors.value, draws)))
    ensures result.Ok? ==>
      && |result.value| == 1 + NumDistractors(count)
      && multiset(result.value) == multiset([target.value] + DistractorLoop(calls, NumDistractors(count)).distractors.value)
  {
    if target.Err? {
      return Err(target.message), [CallPair];
    }
    var n := NumDistractors(count);
    var distractors, loopEvents := CollectDistractors(calls, n);
    events := [CallPair] + loopEvents;
    if distractors.Err? {
      return Err(distractors.message), events;
    }
    var all := [target.value] + distractors.value;
    var a := new Card[|all|](k requires 0 <= k < |all| => all[k]);
    assert a[..] == all;
    Shuffle(a, draws);
    FisherYatesPermutes(all, draws);
    DistractorLoopResult(calls, n);
    result := Ok(a[..]);
  }
}

/** The local broker: jobs travel through an in-process, unbuffered
    channel and are executed by a fixed number of listener loops. Every
    goroutine is a sequential step here. Each channel that Init makes has
    an identity, and the sends waiting on it are its queue. */
module LocalBroker {
  import opened Common

  const ThreadsError: string := "local queue handler threads must be 1 or higher"
  const PipelinesError: string := "local queue handler expects exactly one pipeline"

  /** The nil channel, which `l.jobs` holds before Init and after Stop. */
  const NilChan: nat := 0

  /** Job options as this broker reads them: an optional delay in seconds. */
  datatype Options = Options(delay: Option<int>)

  /** A job; its options may be absent (a nil pointer in the source). */
  datatype Job = Job(payload: string, options: Option<Options>)

  /** A pipeline with its integer-valued options. */
  datatype Pipeline = Pipeline(name: string, options: map<string, int>)

  /** Options.Integer: the value under key, or the default when it is absent. */
  function Integer(p: Pipeline, key: string, default: int): int
  {
    if key in p.options then p.options[key] else default
  }

  /** The job handler and the failure callback, known only by identity. */
  datatype Handler = Handler(id: nat)
  datatype FailHandler = FailHandler(id: nat)

  /** What the handler did with one execution, and what CanRetry said of the
      job afterwards. */
  datatype ExecOutcome = ExecOutcome(err: Option<Error>, canRetry: bool)

  /** Observable effects of the broker, in the order they happen. */
  datatype Effect =
    | ListenerStarted(index: nat)
    | Slept(seconds: int)
    | Executed(job: Job, result: Option<Error>)
    | Requeued(job: Job)
    | Failed(job: Job, err: Error)
    | SendBlocked(job: Job)

  /** Where a retried job is sent: `l.jobs` is read at the time of the
      retry, so it is the channel the listener ranges over, the nil channel
      (after Stop), or another channel (after a later Init). */
  datatype Target = ListenedChannel | NilChannel | OtherChannel

  /** The retry target of a listener on channel c while `l.jobs` is current. */
  function TargetOf(c: nat, current: nat): Target
  {
    if current == c then ListenedChannel else if current == NilChan then NilChannel else OtherChannel
  }

  /** How a run of one listener ends: a nil job arrived (Exited), the
      channel has no sender waiting (Waiting), a retry was sent to the nil
      channel and blocks forever (Stuck), or the handler outcomes given to
      the model ran out (OutOfInput). */
  datatype RunStatus = Exited | Waiting | Stuck | OutOfInput

  datatype Run = Run(effects: seq<Effect>, pending: seq<Option<Job>>, status: RunStatus)

  function DelayEffects(j: Job): seq<Effect>
  {
    if j.options.Some? && j.options.value.delay.Some? then [Slept(j.options.value.delay.value)] else []
  }

  /** What handling one received job does: the delay (if its options ask
      for one), the execution, and then nothing on success, the failure
      callback when CanRetry does not hold, and otherwise a send of the job
      to `l.jobs`, which blocks forever when that is the nil channel. */
  function JobEffects(job: Job, o: ExecOutcome, t: Target): seq<Effect>
  {
    DelayEffects(job) + [Executed(job, o.err)] +
      (if o.err.None? then []
       else if !o.canRetry then [Failed(job, o.err.value)]
       else if t != NilChannel then [Requeued(job)]
       else [SendBlocked(job)])
  }

  /** One listener's `for j := range l.jobs` loop over the sends waiting on
      its channel: a nil job ends it; every other job is handled as
      JobEffects says, a job retried to the same channel going to the back
      of it. */
  function ListenRun(pending: seq<Option<Job>>, t: Target, outcomes: seq<ExecOutcome>): Run
    decreases |outcomes|, |pending|
  {
    if pending == [] then Run([], [], Waiting)
    else if pending[0].None? then Run([], pending[1..], Exited)
    else if outcomes == [] then Run([], pending, OutOfInput)
    else
      var job, o := pending[0].value, outcomes[0];
      var es := JobEffects(job, o, t);
      if o.err.Some? && o.canRetry && t == NilChannel then Run(es, pending[1..], Stuck)
      else
        var next := if o.err.Some? && o.canRetry && t == ListenedChannel then pending[1..] + [Some(job)] else pending[1..];
        var rest := ListenRun(next, t, outcomes[1..]);
        rest.(effects := es + rest.effects)
  }

  /** The kinds of effect that the accounting below counts. */
  datatype Kind = Execution | Success | Requeue | Failure | Block

  predicate Is(e: Effect, k: Kind)
  {
    match k
    case Execution => e.Executed?
    case Success => e.Executed? && e.result.None?
    case Requeue => e.Requeued?
    case Failure => e.Failed?
    case Block => e.SendBlocked?
  }

  /** How many effects of kind k the trace holds. */
  function Count(es: seq<Effect>, k: Kind): nat
  {
    if es == [] then 0 else (if Is(es[0], k) then 1 else 0) + Count(es[1..], k)
  }

  lemma {:induction false} CountAppend(a: seq<Effect>, b: seq<Effect>, k: Kind)
    ensures Count(a + b, k) == Count(a, k) + Count(b, k)
  {
    if a == [] {
      assert a + b == b;
    } else {
      assert (a + b)[1..] == a[1..] + b;
      CountAppend(a[1..], b, k);
    }
  }

  /** Non-nil jobs among the sends. */
  function Jobs(pending: seq<Option<Job>>): nat
  {
    if pending == [] then 0 else (if pending[0].Some? then 1 else 0) + Jobs(pending[1..])
  }

  lemma {:induction false} JobsAppend(a: seq<Option<Job>>, b: seq<Option<Job>>)
    ensures Jobs(a + b) == Jobs(a) + Jobs(b)
  {
    if a == [] {
      assert a + b == b;
    } else {
      assert (a + b)[1..] == a[1..] + b;
      JobsAppend(a[1..], b);
    }
  }

  /** The jobs a run sent on, in order: what another channel receives when
      the listener's retries go there. */
  function Requeues(es: seq<Effect>): seq<Option<Job>>
  {
    if es == [] then [] else (if es[0].Requeued? then [Some(es[0].job)] else []) + Requeues(es[1..])
  }

  /** Every re-enqueue hands on exactly one job. */
  lemma {:induction false} RequeuesCount(es: seq<Effect>)
    ensures Jobs(Requeues(es)) == Count(es, Requeue)
    ensures forall i :: 0 <= i < |Requeues(es)| ==> Requeues(es)[i].Some?
  {
    if es != [] {
      RequeuesCount(es[1..]);
      var head: seq<Option<Job>> := if es[0].Requeued? then [Some(es[0].job)] else [];
      JobsAppend(head, Requeues(es[1..]));
      assert head != [] ==> head[1..] == [];
    }
  }

  /** The retry-or-fail rule for one job: it is executed once; a success is
      followed by neither a re-enqueue nor the failure callback; a failure
      goes to the callback exactly when CanRetry does not hold, and is sent
      on (or blocks on the nil channel) exactly when it does. The execution
      records the handler's result; the callback receives the job and the
      handler's error, and the send carries the job. */
  lemma JobEffectsCount(job: Job, o: ExecOutcome, t: Target, k: Kind)
    ensures var es := JobEffects(job, o, t);
      && es[|DelayEffects(job)|] == Executed(job, o.err)
      && (o.err.None? ==> |es| == |DelayEffects(job)| + 1)
      && (o.err.Some? && !o.canRetry ==> es[|es| - 1] == Failed(job, o.err.value))
      && (o.err.Some? && o.canRetry && t != NilChannel ==> es[|es| - 1] == Requeued(job))
      && (o.err.Some? && o.canRetry && t == NilChannel ==> es[|es| - 1] == SendBlocked(job))
    ensures Count(JobEffects(job, o, t), k) ==
      match k
      case Execution => 1
      case Success => if o.err.None? then 1 else 0
      case Failure => if o.err.Some? && !o.canRetry then 1 else 0
      case Requeue => if o.err.Some? && o.canRetry && t != NilChannel then 1 else 0
      case Block => if o.err.Some? && o.canRetry && t == NilChannel then 1 else 0
  {
    var tail := if o.err.None? then []
      else if !o.canRetry then [Failed(job, o.err.value)]
      else if t != NilChannel then [Requeued(job)]
      else [SendBlocked(job)];
    var ex := [Executed(job, o.err)];
    CountAppend(DelayEffects(job), ex, k);
    CountAppend(DelayEffects(job) + ex, tail, k);
    assert ex[1..] == [];
    assert |tail| == 1 ==> tail[1..] == [];
  }

  /** Over a whole run: every execution ends in exactly one of success, a
      re-enqueue, the failure callback or a blocked send; there is at most
      one execution per handler outcome; and retries block exactly when
      they go to the nil channel, never re-enqueueing there. */
  lemma {:induction false} ListenRunEndings(pending: seq<Option<Job>>, t: Target, outcomes: seq<ExecOutcome>)
    ensures var es := ListenRun(pending, t, outcomes).effects;
      && Count(es, Execution) == Count(es, Success) + Count(es, Requeue) + Count(es, Failure) + Count(es, Block)
      && Count(es, Execution) <= |outcomes|
      && (t == NilChannel ==> Count(es, Requeue) == 0)
      && (t != NilChannel ==> Count(es, Block) == 0)
    decreases |outcomes|, |pending|
  {
    if pending != [] && pending[0].Some? && outcomes != [] {
      var job, o := pending[0].value, outcomes[0];
      var es := JobEffects(job, o, t);
      JobEffectsCount(job, o, t, Execution);
      JobEffectsCount(job, o, t, Success);
      JobEffectsCount(job, o, t, Requeue);
      JobEffectsCount(job, o, t, Failure);
      JobEffectsCount(job, o, t, Block);
      if !(o.err.Some? && o.canRetry && t == NilChannel) {
        var next := if o.err.Some? && o.canRetry && t == ListenedChannel then pending[1..] + [Some(job)] else pending[1..];
        ListenRunEndings(next, t, outcomes[1..]);
        var rest := ListenRun(next, t, outcomes[1..]).effects;
        assert ListenRun(pending, t, outcomes).effects == es + rest;
        CountAppend(es, rest, Execution);
        CountAppend(es, rest, Success);
        CountAppend(es, rest, Requeue);
        CountAppend(es, rest, Failure);
        CountAppend(es, rest, Block);
      }
    }
  }

  /** No job is lost or duplicated: each job that was waiting is still
      waiting, completed, failed, blocked or handed to another channel. */
  lemma {:induction false} ListenRunConserves(pending: seq<Option<Job>>, t: Target, outcomes: seq<ExecOutcome>)
    ensures var r := ListenRun(pending, t, outcomes); var es := r.effects;
      Jobs(pending) == Jobs(r.pending) + Count(es, Success) + Count(es, Failure) + Count(es, Block)
                       + (if t == OtherChannel then Count(es, Requeue) else 0)
    decreases |outcomes|, |pending|
  {
    if pending == [] || pending[0].None? || outcomes == [] {
      if pending != [] && pending[0].None? {
        assert Jobs(pending) == Jobs(pending[1..]);
      }
    } else {
      var job, o := pending[0].value, outcomes[0];
      var es := JobEffects(job, o, t);
      JobEffectsCount(job, o, t, Success);
      JobEffectsCount(job, o, t, Requeue);
      JobEffectsCount(job, o, t, Failure);
      JobEffectsCount(job, o, t, Block);
      assert Jobs(pending) == 1 + Jobs(pending[1..]);
      if !(o.err.Some? && o.canRetry && t == NilChannel) {
        var next := if o.err.Some? && o.canRetry && t == ListenedChannel then pending[1..] + [Some(job)] else pending[1..];
        if o.err.Some? && o.canRetry && t == ListenedChannel {
          JobsAppend(pending[1..], [Some(job)]);
          assert [Some(job)][1..] == [];
        }
        ListenRunConserves(next, t, outcomes[1..]);
        var rest := ListenRun(next, t, outcomes[1..]).effects;
        assert ListenRun(pending, t, outcomes).effects == es + rest;
        CountAppend(es, rest, Success);
        CountAppend(es, rest, Requeue);
        CountAppend(es, rest, Failure);
        CountAppend(es, rest, Block);
      }
    }
  }

  /** Handling a job that the listener keeps running after, seen from the
      effects accumulated so far. */
  lemma ListenRunNext(job: Job, rest: seq<Option<Job>>, t: Target, o: ExecOutcome,
                      more: seq<ExecOutcome>, acc: seq<Effect>)
    requires !(o.err.Some? && o.canRetry && t == NilChannel)
    ensures var next := if o.err.Some? && o.canRetry && t == ListenedChannel then rest + [Some(job)] else rest;
      var r := ListenRun([Some(job)] + rest, t, [o] + more);
      var r' := ListenRun(next, t, more);
      r.(effects := acc + r.effects) == r'.(effects := (acc + JobEffects(job, o, t)) + r'.effects)
  {
    var p := [Some(job)] + rest;
    assert p[1..] == rest;
    assert ([o] + more)[1..] == more;
    var next := if o.err.Some? && o.canRetry && t == ListenedChannel then rest + [Some(job)] else rest;
    var r' := ListenRun(next, t, more);
    assert acc + (JobEffects(job, o, t) + r'.effects) == (acc + JobEffects(job, o, t)) + r'.effects;
  }

  /** The listener loop itself, over the sends q0 waiting on its channel. */
  method RunListener(q0: seq<Option<Job>>, t: Target, outcomes: seq<ExecOutcome>) returns (r: Run)
    ensures r == ListenRun(q0, t, outcomes)
  {
    var q, acc, i := q0, [], 0;
    var status: RunStatus;
    ghost var goal := ListenRun(q0, t, outcomes);
    while true
      invariant 0 <= i <= |outcomes|
      invariant goal == var r := ListenRun(q, t, outcomes[i..]); r.(effects := acc + r.effects)
      decreases |outcomes| - i, |q|
    {
      if q == [] {
        status := Waiting;
        assert goal == Run(acc + [], q, status);
        assert acc + [] == acc;
        break;
      }
      var j := q[0];
      if j.None? {
        q, status := q[1..], Exited;
        assert goal == Run(acc + [], q, status);
        assert acc + [] == acc;
        break;
      }
      if i == |outcomes| {
        status := OutOfInput;
        assert outcomes[i..] == [];
        assert goal == Run(acc + [], q, status);
        assert acc + [] == acc;
        break;
      }
      var job, o, rest := j.value, outcomes[i], q[1..];
      ghost var more := outcomes[i + 1..];
      assert q == [Some(job)] + rest;
      assert outcomes[i..] == [o] + more;
      var es := JobEffects(job, o, t);
      if o.err.Some? && o.canRetry && t == NilChannel {
        assert ([Some(job)] + rest)[1..] == rest;
        acc, q, status := acc + es, rest, Stuck;
        break;
      }
      var next := if o.err.Some? && o.canRetry && t == ListenedChannel then rest + [Some(job)] else rest;
      ListenRunNext(job, rest, t, o, more, acc);
      acc, q, i := acc + es, next, i + 1;
    }
    r := Run(acc, q, status);
  }

  /** The channel bookkeeping of the local broker: the current channel is
      open; every open channel is one of those made and not closed; every
      closed channel is one of those made; every listener ranges over the nil
      channel, an open channel or a closed one. */
  ghost predicate ChannelsConsistent(jobs: nat, made: nat, closedChans: set<nat>,
                                     sends: map<nat, seq<Option<Job>>>, listeners: multiset<nat>)
  {
    && (jobs != NilChan ==> jobs in sends)
    && (forall c :: c in sends ==> 0 < c <= made && c !in closedChans)
    && (forall c :: c in closedChans ==> 0 < c <= made)
    && (forall c :: c in listeners ==> c == NilChan || c in sends || c in closedChans)
  }

  /** A listener run keeps the set of open channels and at most removes its
      own listener, so the bookkeeping stays consistent, and a listener
      remains only if one was there before. */
  lemma SettleKeepsChannels(jobs: nat, made: nat, closedChans: set<nat>,
                            sends: map<nat, seq<Option<Job>>>, sends': map<nat, seq<Option<Job>>>,
                            listeners: multiset<nat>, c: nat, exits: bool)
    requires ChannelsConsistent(jobs, made, closedChans, sends, listeners)
    requires sends'.Keys == sends.Keys
    ensures var ls := if exits then listeners - multiset{c} else listeners;
      && ChannelsConsistent(jobs, made, closedChans, sends', ls)
      && (|ls| > 0 ==> |listeners| > 0)
  {
    var ls := if exits then listeners - multiset{c} else listeners;
    forall x | x in ls
      ensures x == NilChan || x in sends' || x in closedChans
    {
      assert x in listeners;
    }
    assert forall x :: x in sends' ==> x in sends;
  }

  class Local {
    var threads: int
    /** The channel `l.jobs` holds: NilChan, or the identity Init gave it. */
    var jobs: nat
    /** Channels made so far; their identities are 1..made. */
    var made: nat
    /** Channels that Stop has closed. */
    var closedChans: set<nat>
    /** For every open channel made so far, the sends waiting on it, in order. */
    var sends: map<nat, seq<Option<Job>>>
    var exec: Option<Handler>
    var fail: Option<FailHandler>
    /** The channel each listener that can still receive ranges over, read
        once when it started. */
    var listeners: multiset<nat>
    var trace: seq<Effect>

    /** The handler and the failure callback are in place whenever a
        positive thread count has been accepted or a listener runs; the
        current channel is open; every channel made is open or closed, and
        every listener ranges over one of them or over the nil channel. */
    ghost predicate Valid()
      reads this
    {
      && ((threads >= 1 || |listeners| > 0) ==> exec.Some? && fail.Some?)
      && ChannelsConsistent(jobs, made, closedChans, sends, listeners)
    }

    constructor ()
      ensures Valid()
      ensures threads == 0 && jobs == NilChan && made == 0 && closedChans == {} && sends == map[]
      ensures exec == None && fail == None && listeners == multiset{} && trace == []
    {
      threads, jobs, made, closedChans, sends := 0, NilChan, 0, {}, map[];
      exec, fail, listeners, trace := None, None, multiset{}, [];
    }

    /** Configures the broker with its pipelines: none is accepted and sets
        nothing; more than one is rejected; exactly one sets the thread count
        from its "threads" option (default 1), which must be at least 1. The
        handlers are stored only on success. */
    method Handle(pipelines: seq<Pipeline>, h: Handler, f: FailHandler) returns (err: Option<Error>)
      requires Valid()
      modifies this`threads, this`exec, this`fail
      ensures Valid()
      ensures |pipelines| == 0 ==> err == None && unchanged(this)
      ensures |pipelines| > 1 ==> err == Some(Error(PipelinesError)) && unchanged(this)
      ensures |pipelines| == 1 ==> threads == Integer(pipelines[0], "threads", 1)
      ensures |pipelines| == 1 && "threads" !in pipelines[0].options ==> threads == 1 && err == None
      ensures |pipelines| == 1 && threads < 1 ==>
        err == Some(Error(ThreadsError)) && exec == old(exec) && fail == old(fail)
      ensures |pipelines| == 1 && threads >= 1 ==> err == None && exec == Some(h) && fail == Some(f)
    {
      if |pipelines| < 1 {
        return None;
      } else if |pipelines| == 1 {
        threads := Integer(pipelines[0], "threads", 1);
        if threads < 1 {
          return Some(Error(ThreadsError));
        }
      } else {
        return Some(Error(PipelinesError));
      }
      exec := Some(h);
      fail := Some(f);
      err := None;
    }

    /** Makes a fresh, empty job channel and stores it in `l.jobs`. A
        channel it replaces stays open, with its waiting sends and its
        listeners. */
    method Init() returns (ok: bool, err: Option<Error>)
      requires Valid()
      modifies this`jobs, this`made, this`sends
      ensures Valid()
      ensures made == old(made) + 1 && jobs == made
      ensures jobs !in old(sends) && sends == old(sends)[jobs := []]
      ensures ok && err == None
    {
      made := made + 1;
      jobs := made;
      sends := sends[jobs := []];
      ok, err := true, None;
    }

    /** Hands the job to `l.jobs` from a new goroutine and returns at once:
        the send waits on the current channel, or forever on the nil
        channel. Push never reports an error. */
    method Push(p: Pipeline, j: Option<Job>) returns (err: Option<Error>)
      requires Valid()
      modifies this`sends
      ensures Valid()
      ensures err == None
      ensures sends == if jobs == NilChan then old(sends) else old(sends)[jobs := old(sends)[jobs] + [j]]
    {
      if jobs != NilChan {
        sends := sends[jobs := sends[jobs] + [j]];
      }
      err := None;
    }

    /** Starts exactly `threads` listener loops (none when threads < 1),
        each ranging over the channel `l.jobs` holds. */
    method Serve() returns (err: Option<Error>)
      requires Valid()
      modifies this`listeners, this`trace
      ensures Valid()
      ensures listeners == old(listeners)[jobs := old(listeners)[jobs] + (if threads > 0 then threads else 0)]
      ensures trace == old(trace) + seq(if threads > 0 then threads else 0, i requires 0 <= i => ListenerStarted(i))
      ensures err == None
    {
      var n := if threads > 0 then threads else 0;
      var started, i := [], 0;
      while i < n
        invariant 0 <= i <= n
        invariant started == seq(i, k requires 0 <= k => ListenerStarted(k))
      {
        started := started + [ListenerStarted(i)];
        i := i + 1;
      }
      listeners := listeners[jobs := listeners[jobs] + n];
      trace := trace + started;
      err := None;
    }

    /** Closes the current channel once and forgets it, so a second Stop
        does nothing. Goroutines still blocked sending to the closed channel
        panic: that happens exactly when sends were waiting on it. */
    method Stop() returns (panicked: bool)
      requires Valid()
      modifies this`jobs, this`closedChans, this`sends
      ensures Valid()
      ensures jobs == NilChan
      ensures old(jobs) == NilChan ==> panicked == false && unchanged(this)
      ensures old(jobs) != NilChan ==>
        && panicked == (old(sends)[old(jobs)] != [])
        && closedChans == old(closedChans) + {old(jobs)}
        && sends == old(sends) - {old(jobs)}
    {
      panicked := false;
      if jobs != NilChan {
        panicked := sends[jobs] != [];
        closedChans := closedChans + {jobs};
        sends := sends - {jobs};
        jobs := NilChan;
      }
    }

    /** One listener loop on channel c, run until it exits, blocks, or the
        given handler outcomes (one per execution) run out. On the nil
        channel it blocks at once; on a closed channel, which holds nothing,
        it exits at once; otherwise it receives the sends waiting on c and
        sends retries to `l.jobs`. A listener that exits, or whose retry
        blocks for ever on the nil channel, receives nothing more and leaves
        the listener set. */
    method Listen(c: nat, outcomes: seq<ExecOutcome>) returns (status: RunStatus)
      requires Valid() && c in listeners
      modifies this`sends, this`trace, this`listeners
      ensures Valid()
      ensures c == NilChan ==> status == Waiting && unchanged(this)
      ensures c != NilChan && c !in old(sends) ==>
        && status == Exited && listeners == old(listeners) - multiset{c}
        && sends == old(sends) && trace == old(trace)
      ensures c in old(sends) ==>
        var t := TargetOf(c, jobs);
        var r := ListenRun(old(sends)[c], t, outcomes);
        && status == r.status
        && trace == old(trace) + r.effects
        && (t != OtherChannel ==> sends == old(sends)[c := r.pending])
        && (t == OtherChannel ==> sends == old(sends)[c := r.pending][jobs := old(sends)[jobs] + Requeues(r.effects)])
        && listeners == (if status == Exited || status == Stuck then old(listeners) - multiset{c} else old(listeners))
    {
      if c == NilChan {
        return Waiting;
      }
      if c !in sends {
        listeners := listeners - multiset{c};
        return Exited;
      }
      var t := TargetOf(c, jobs);
      var r := RunListener(sends[c], t, outcomes);
      Settle(c, t, r);
      status := r.status;
    }

    /** Records a finished run r of the listener on open channel c: its
        effects join the trace, what it left unreceived stays on c, the jobs
        it re-enqueued onto a newer channel join that channel, and the
        listener is gone if the run exited or is stuck for ever sending a
        retry to the nil channel. */
    method Settle(c: nat, t: Target, r: Run)
      requires Valid() && c in listeners && c in sends && t == TargetOf(c, jobs)
      modifies this`sends, this`trace, this`listeners
      ensures Valid()
      ensures trace == old(trace) + r.effects
      ensures t != OtherChannel ==> sends == old(sends)[c := r.pending]
      ensures t == OtherChannel ==> sends == old(sends)[c := r.pending][jobs := old(sends)[jobs] + Requeues(r.effects)]
      ensures listeners == (if r.status == Exited || r.status == Stuck then old(listeners) - multiset{c} else old(listeners))
    {
      var s := if t == OtherChannel then sends[c := r.pending][jobs := sends[jobs] + Requeues(r.effects)]
               else sends[c := r.pending];
      assert s.Keys == sends.Keys;
      SettleKeepsChannels(jobs, made, closedChans, sends, s, listeners, c, r.status == Exited || r.status == Stuck);
      var ls := if r.status == Exited || r.status == Stuck then listeners - multiset{c} else listeners;
      sends, trace, listeners := s, trace + r.effects, ls;
    }
  }
}

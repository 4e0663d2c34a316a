/** The SQS broker: one queue per pipeline, resolved when serving, one
    polling listener per queue marked for listening, and the
    delete / change-visibility protocol that completes each message. SDK
    calls are recorded as effects; their answers are inputs. */
module SqsBroker {
  import opened Common

  /** Broker status (jobs.BrokerStatus); Inactive is the zero value. */
  datatype Status = Inactive | Registered | Ready

  /** A channel signal: never made (nil), made and open, or closed. */
  datatype Signal = Absent | Open | Closed

  datatype Pipeline = Pipeline(name: string, options: map<string, string>)

  /** What NewQueue reads from a pipeline, plus the URL that Serve resolves. */
  datatype Queue = Queue(queue: string, create: bool, listen: bool, timeout: int, waitTime: int, url: Option<string>)

  datatype Config = Config(settings: map<string, string>)

  /** The SQS client (`*sqs.SQS`), by identity. */
  datatype Client = Client(id: nat)

  /** Handlers of the execution pool and the error callback, by identity. */
  datatype Handler = Handler(id: nat)
  datatype ErrorHandler = ErrorHandler(id: nat)

  /** The job as this broker reads it: payload, delay and retry delay in seconds. */
  datatype Job = Job(payload: string, delay: int, retryDelay: int)

  datatype Message = Message(id: string, body: string, receipt: string)

  datatype SendRequest = SendRequest(delaySeconds: int, body: string, queueUrl: Option<string>)

  datatype PipelineStat = PipelineStat(pipeline: string, queue: int, active: int, delayed: int)

  /** Calls the broker makes, in order. */
  datatype Effect =
    | CreateQueue(pipeline: Pipeline, name: string)
    | GetQueueUrl(pipeline: Pipeline, name: string)
    | StartListener(pipeline: Pipeline)
    | ReceiveMessage(url: Option<string>, visibilityTimeout: int, waitTime: int)
    | Invoke(handler: Handler, id: string)
    | DeleteMessage(url: Option<string>, receipt: string)
    | ReportError(id: string, job: Job, err: Error)
    | ChangeVisibility(url: Option<string>, receipt: string, timeout: int)

  const MessagesAttribute: string := "ApproximateNumberOfMessages"
  const NotVisibleAttribute: string := "ApproximateNumberOfMessagesNotVisible"
  const DelayedAttribute: string := "ApproximateNumberOfMessagesDelayed"

  /*** Listen: registering pipelines ***/

  datatype Registration = Registration(queues: map<Pipeline, Queue>, err: Option<Error>)

  /** The queue map that Listen builds, stopping at the first pipeline whose
      queue cannot be made. */
  function Register(ps: seq<Pipeline>, newQueue: Pipeline -> Result<Queue>): Registration
  {
    if ps == [] then Registration(map[], None)
    else
      var prev := Register(ps[..|ps| - 1], newQueue);
      var p := ps[|ps| - 1];
      if prev.err.Some? then prev
      else match newQueue(p)
        case Err(e) => prev.(err := Some(e))
        case Ok(q) => prev.(queues := prev.queues[p := q])
  }

  /** Once a registration has failed, later pipelines change nothing. */
  lemma {:induction false} RegisterStaysFailed(ps: seq<Pipeline>, k: nat, newQueue: Pipeline -> Result<Queue>)
    requires k <= |ps| && Register(ps[..k], newQueue).err.Some?
    ensures Register(ps, newQueue) == Register(ps[..k], newQueue)
    decreases |ps|
  {
    if k < |ps| {
      assert ps[..|ps| - 1][..k] == ps[..k];
      RegisterStaysFailed(ps[..|ps| - 1], k, newQueue);
    } else {
      assert ps[..k] == ps;
    }
  }

  /** Every entry of the map Listen builds is a registered pipeline
      holding the queue made from it. */
  lemma {:induction false} RegisterEntries(ps: seq<Pipeline>, newQueue: Pipeline -> Result<Queue>)
    ensures var r := Register(ps, newQueue);
      forall p :: p in r.queues ==> p in ps && newQueue(p) == Ok(r.queues[p])
    decreases |ps|
  {
    if ps != [] {
      var init := ps[..|ps| - 1];
      RegisterEntries(init, newQueue);
      forall p | p in Register(ps, newQueue).queues ensures p in ps {
        if p != ps[|ps| - 1] {
          assert p in init;
        }
      }
    }
  }

  /** Listen succeeds exactly when every pipeline yields a queue, and then
      every pipeline has its entry. */
  lemma {:induction false} RegisterSucceeds(ps: seq<Pipeline>, newQueue: Pipeline -> Result<Queue>)
    ensures var r := Register(ps, newQueue);
      && (r.err.None? <==> forall i :: 0 <= i < |ps| ==> newQueue(ps[i]).Ok?)
      && (r.err.None? ==> forall i :: 0 <= i < |ps| ==> ps[i] in r.queues)
    decreases |ps|
  {
    if ps != [] {
      var init := ps[..|ps| - 1];
      RegisterSucceeds(init, newQueue);
      assert forall i :: 0 <= i < |init| ==> init[i] == ps[i];
    }
  }

  /** On failure the error is that of the first failing pipeline, and the
      map holds exactly what the pipelines before it registered. */
  lemma {:induction false} RegisterFails(ps: seq<Pipeline>, newQueue: Pipeline -> Result<Queue>)
    ensures var r := Register(ps, newQueue);
      r.err.Some? ==> exists k :: && 0 <= k < |ps|
                                  && Register(ps[..k], newQueue).err.None?
                                  && newQueue(ps[k]).Err?
                                  && r.err == Some(newQueue(ps[k]).error)
                                  && r.queues == Register(ps[..k], newQueue).queues
    decreases |ps|
  {
    if ps != [] {
      var init := ps[..|ps| - 1];
      RegisterFails(init, newQueue);
      var prev := Register(init, newQueue);
      if prev.err.Some? {
        var k :| && 0 <= k < |init|
                 && Register(init[..k], newQueue).err.None?
                 && newQueue(init[k]).Err?
                 && prev.err == Some(newQueue(init[k]).error)
                 && prev.queues == Register(init[..k], newQueue).queues;
        assert init[..k] == ps[..k];
      }
    }
  }

  /*** Serve: resolving queues and starting listeners ***/

  datatype ServeRun = ServeRun(effects: seq<Effect>, urls: map<Pipeline, string>, err: Option<Error>)

  /** The calls Serve makes for one queue: create it if asked to (an error
      aborts), resolve its URL (an error aborts), then start its listener if
      it is marked for listening. */
  function QueueBlock(p: Pipeline, q: Queue, create: string -> Option<Error>, resolve: string -> Result<string>): ServeRun
  {
    var pre := if q.create then [CreateQueue(p, q.queue)] else [];
    if q.create && create(q.queue).Some? then ServeRun(pre, map[], create(q.queue))
    else
      var r := resolve(q.queue);
      if r.Err? then ServeRun(pre + [GetQueueUrl(p, q.queue)], map[], Some(r.error))
      else ServeRun(pre + [GetQueueUrl(p, q.queue)] + (if q.listen then [StartListener(p)] else []), map[p := r.value], None)
  }

  ghost predicate Covers(order: seq<Pipeline>, qs: map<Pipeline, Queue>)
  {
    forall i :: 0 <= i < |order| ==> order[i] in qs
  }

  /** Serve's startup over the queues in the order the map is ranged over;
      the first error ends it. */
  function ServeSteps(order: seq<Pipeline>, qs: map<Pipeline, Queue>,
                      create: string -> Option<Error>, resolve: string -> Result<string>): ServeRun
    requires Covers(order, qs)
  {
    if order == [] then ServeRun([], map[], None)
    else
      var b := QueueBlock(order[0], qs[order[0]], create, resolve);
      if b.err.Some? then b
      else
        var rest := ServeSteps(order[1..], qs, create, resolve);
        ServeRun(b.effects + rest.effects, b.urls + rest.urls, rest.err)
  }

  /** The queue map with the resolved URLs stored into their queues. */
  function WithUrls(qs: map<Pipeline, Queue>, urls: map<Pipeline, string>): map<Pipeline, Queue>
  {
    map p | p in qs :: if p in urls then qs[p].(url := Some(urls[p])) else qs[p]
  }

  /** Storing one more resolved URL into the queue map. */
  lemma WithUrlsAdd(qs: map<Pipeline, Queue>, urls: map<Pipeline, string>, p: Pipeline, u: string)
    requires p in qs
    ensures WithUrls(qs, urls)[p := qs[p].(url := Some(u))] == WithUrls(qs, urls[p := u])
  {
  }

  /** Serve's calls for one queue, made in turn. */
  method ServeQueue(p: Pipeline, q: Queue, create: string -> Option<Error>, resolve: string -> Result<string>)
    returns (effects: seq<Effect>, url: Option<string>, e: Option<Error>)
    ensures url.Some? <==> e.None?
    ensures QueueBlock(p, q, create, resolve) == ServeRun(effects, if url.Some? then map[p := url.value] else map[], e)
  {
    effects, url, e := [], None, None;
    if q.create {
      effects := effects + [CreateQueue(p, q.queue)];
      e := create(q.queue);
      if e.Some? {
        return;
      }
    }
    effects := effects + [GetQueueUrl(p, q.queue)];
    match resolve(q.queue)
    case Err(x) =>
      e := Some(x);
    case Ok(u) =>
      url := Some(u);
      if q.listen {
        effects := effects + [StartListener(p)];
      }
  }

  /** Serve's startup loop over the queues in map order: the calls made,
      the queue map with the resolved URLs stored, and the first error. */
  method StartQueues(order: seq<Pipeline>, qs0: map<Pipeline, Queue>,
                     create: string -> Option<Error>, resolve: string -> Result<string>)
    returns (qs: map<Pipeline, Queue>, acc: seq<Effect>, e: Option<Error>)
    requires Covers(order, qs0)
    ensures var s := ServeSteps(order, qs0, create, resolve);
      e == s.err && acc == s.effects && qs == WithUrls(qs0, s.urls)
  {
    qs, acc, e := qs0, [], None;
    var i := 0;
    ghost var urls: map<Pipeline, string> := map[];
    ghost var goal := ServeSteps(order, qs0, create, resolve);
    assert order[0..] == order;
    while i < |order|
      invariant 0 <= i <= |order|
      invariant goal == var r := ServeSteps(order[i..], qs0, create, resolve);
        ServeRun(acc + r.effects, urls + r.urls, r.err)
      invariant qs == WithUrls(qs0, urls)
    {
      var p := order[i];
      var q := qs0[p];
      ServeStepsUnfold(order, i, qs0, create, resolve);
      ghost var rest := ServeSteps(order[i + 1..], qs0, create, resolve);
      var effects, url, x := ServeQueue(p, q, create, resolve);
      if x.Some? {
        assert goal == ServeRun(acc + effects, urls + map[], x);
        assert urls + map[] == urls;
        acc, e := acc + effects, x;
        return;
      }
      MergeOne(urls, p, url.value, rest.urls);
      assert acc + (effects + rest.effects) == (acc + effects) + rest.effects;
      WithUrlsAdd(qs0, urls, p, url.value);
      acc := acc + effects;
      qs := qs[p := q.(url := url)];
      urls := urls[p := url.value];
      i := i + 1;
    }
    assert goal == ServeRun(acc, urls, None) by {
      assert order[i..] == [];
      assert acc + [] == acc && urls + map[] == urls;
    }
  }

  lemma MergeOne<K, V>(m: map<K, V>, k: K, v: V, rest: map<K, V>)
    ensures m + (map[k := v] + rest) == m[k := v] + rest
  {
  }

  /** One queue of the map order, then the rest. */
  lemma ServeStepsUnfold(order: seq<Pipeline>, i: nat, qs: map<Pipeline, Queue>,
                         create: string -> Option<Error>, resolve: string -> Result<string>)
    requires Covers(order, qs) && i < |order|
    ensures Covers(order[i..], qs) && Covers(order[i + 1..], qs)
    ensures var b := QueueBlock(order[i], qs[order[i]], create, resolve);
      ServeSteps(order[i..], qs, create, resolve) ==
        if b.err.Some? then b
        else var rest := ServeSteps(order[i + 1..], qs, create, resolve);
          ServeRun(b.effects + rest.effects, b.urls + rest.urls, rest.err)
  {
    assert order[i..][1..] == order[i + 1..];
  }

  /** Only queues that were processed get a URL, and it is the resolved one. */
  lemma {:induction false} ServeUrls(order: seq<Pipeline>, qs: map<Pipeline, Queue>,
                                     create: string -> Option<Error>, resolve: string -> Result<string>)
    requires Covers(order, qs)
    ensures var s := ServeSteps(order, qs, create, resolve);
      forall p :: p in s.urls ==> p in order && resolve(qs[p].queue) == Ok(s.urls[p])
    decreases |order|
  {
    if order != [] {
      ServeUrls(order[1..], qs, create, resolve);
      var s := ServeSteps(order, qs, create, resolve);
      forall p | p in s.urls ensures p in order {
        if p != order[0] {
          assert p in order[1..];
        }
      }
    }
  }

  /** A queue can be served when its creation (if asked for) and the
      lookup of its URL both succeed. */
  ghost predicate Servable(q: Queue, create: string -> Option<Error>, resolve: string -> Result<string>)
  {
    (q.create ==> create(q.queue).None?) && resolve(q.queue).Ok?
  }

  /** Serve succeeds exactly when every queue is servable. */
  lemma {:induction false} ServeSucceeds(order: seq<Pipeline>, qs: map<Pipeline, Queue>,
                                         create: string -> Option<Error>, resolve: string -> Result<string>)
    requires Covers(order, qs)
    ensures ServeSteps(order, qs, create, resolve).err.None? <==>
      forall i :: 0 <= i < |order| ==> Servable(qs[order[i]], create, resolve)
    decreases |order|
  {
    if order != [] {
      ServeSucceeds(order[1..], qs, create, resolve);
      assert forall i :: 0 < i < |order| ==> order[1..][i - 1] == order[i];
    }
  }

  /** After a successful Serve every queue has its URL. */
  lemma {:induction false} ServeResolvesAll(order: seq<Pipeline>, qs: map<Pipeline, Queue>,
                                            create: string -> Option<Error>, resolve: string -> Result<string>)
    requires Covers(order, qs)
    ensures var s := ServeSteps(order, qs, create, resolve);
      s.err.None? ==> forall i :: 0 <= i < |order| ==> order[i] in s.urls
    decreases |order|
  {
    if order != [] {
      ServeResolvesAll(order[1..], qs, create, resolve);
      assert forall i :: 0 < i < |order| ==> order[1..][i - 1] == order[i];
    }
  }

  /** A listener is started for a queue exactly when the queue is marked
      for listening and its URL was resolved. */
  lemma {:induction false} ServeListeners(order: seq<Pipeline>, qs: map<Pipeline, Queue>,
                                          create: string -> Option<Error>, resolve: string -> Result<string>, p: Pipeline)
    requires Covers(order, qs)
    ensures var s := ServeSteps(order, qs, create, resolve);
      StartListener(p) in s.effects <==> p in s.urls && p in qs && qs[p].listen
    decreases |order|
  {
    if order != [] {
      ServeListeners(order[1..], qs, create, resolve, p);
      var b := QueueBlock(order[0], qs[order[0]], create, resolve);
      assert StartListener(p) in b.effects <==> p in b.urls && qs[p].listen;
    }
  }

  /** The call at index i, when it is a URL lookup, is for the queue's own
      name and directly follows that queue's creation if it is to be created. */
  ghost predicate LookupAfterCreate(es: seq<Effect>, qs: map<Pipeline, Queue>, i: int)
    requires 0 <= i < |es|
  {
    es[i].GetQueueUrl? ==>
      es[i].pipeline in qs && es[i].name == qs[es[i].pipeline].queue &&
      (qs[es[i].pipeline].create ==> 0 < i && es[i - 1] == CreateQueue(es[i].pipeline, es[i].name))
  }

  ghost predicate LookupsAfterCreates(es: seq<Effect>, qs: map<Pipeline, Queue>)
  {
    forall i :: 0 <= i < |es| ==> LookupAfterCreate(es, qs, i)
  }

  /** A queue marked for creation is created immediately before its URL is
      looked up. */
  lemma {:induction false} ServeCreatesBeforeResolving(order: seq<Pipeline>, qs: map<Pipeline, Queue>,
                                                       create: string -> Option<Error>, resolve: string -> Result<string>)
    requires Covers(order, qs)
    ensures LookupsAfterCreates(ServeSteps(order, qs, create, resolve).effects, qs)
    decreases |order|
  {
    if order != [] {
      var b := QueueBlock(order[0], qs[order[0]], create, resolve);
      if b.err.None? {
        ServeCreatesBeforeResolving(order[1..], qs, create, resolve);
        var rest := ServeSteps(order[1..], qs, create, resolve).effects;
        var es := b.effects + rest;
        forall i | 0 <= i < |es| ensures LookupAfterCreate(es, qs, i) {
          if i < |b.effects| {
            assert es[i] == b.effects[i];
            if 0 < i { assert es[i - 1] == b.effects[i - 1]; }
          } else {
            var j := i - |b.effects|;
            assert LookupAfterCreate(rest, qs, j);
            assert es[i] == rest[j];
            if 0 < j { assert es[i - 1] == rest[j - 1]; }
          }
        }
      }
    }
  }

  /** Serve fails at the k-th queue: the queues before it all succeed, and
      the calls end with that queue's block, which starts no listener. */
  ghost predicate AbortsAt(order: seq<Pipeline>, qs: map<Pipeline, Queue>,
                           create: string -> Option<Error>, resolve: string -> Result<string>, k: int)
    requires Covers(order, qs)
  {
    && 0 <= k < |order|
    && var before := ServeSteps(order[..k], qs, create, resolve);
       var b := QueueBlock(order[k], qs[order[k]], create, resolve);
       var s := ServeSteps(order, qs, create, resolve);
       && before.err.None?
       && b.err.Some? && b.err == s.err
       && s.effects == before.effects + b.effects
       && StartListener(order[k]) !in b.effects
  }

  /** The first k + 1 queues: the first one, then k more. */
  lemma ServePrefixCons(order: seq<Pipeline>, qs: map<Pipeline, Queue>,
                        create: string -> Option<Error>, resolve: string -> Result<string>, k: nat)
    requires Covers(order, qs) && k < |order|
    requires QueueBlock(order[0], qs[order[0]], create, resolve).err.None?
    ensures var b := QueueBlock(order[0], qs[order[0]], create, resolve);
      var rest := ServeSteps(order[1..][..k], qs, create, resolve);
      ServeSteps(order[..k + 1], qs, create, resolve) == ServeRun(b.effects + rest.effects, b.urls + rest.urls, rest.err)
  {
    assert order[..k + 1][1..] == order[1..][..k];
  }

  /** An error aborts Serve: the calls end with the failing queue's block,
      every earlier queue having succeeded. */
  lemma {:induction false} ServeAborts(order: seq<Pipeline>, qs: map<Pipeline, Queue>,
                                       create: string -> Option<Error>, resolve: string -> Result<string>)
    requires Covers(order, qs)
    ensures ServeSteps(order, qs, create, resolve).err.Some? ==> exists k :: AbortsAt(order, qs, create, resolve, k)
    decreases |order|
  {
    if order != [] && ServeSteps(order, qs, create, resolve).err.Some? {
      var b0 := QueueBlock(order[0], qs[order[0]], create, resolve);
      if b0.err.Some? {
        assert order[..0] == [];
        assert AbortsAt(order, qs, create, resolve, 0);
      } else {
        var tail := order[1..];
        ServeAborts(tail, qs, create, resolve);
        var k :| AbortsAt(tail, qs, create, resolve, k);
        ServePrefixCons(order, qs, create, resolve, k);
        assert order[k + 1] == tail[k];
        assert AbortsAt(order, qs, create, resolve, k + 1);
      }
    }
  }

  /*** Completing a message ***/

  /** What the listener does once the handler has returned: delete the
      message on success; on failure, report it to the error callback and
      delete it when the job may not be retried, and otherwise make it
      visible again after the job's retry delay. */
  function Completion(url: Option<string>, m: Message, job: Job, result: Option<Error>, canRetry: bool): (es: seq<Effect>)
    ensures |es| == (if result.Some? && !canRetry then 2 else 1)
    ensures es[|es| - 1].DeleteMessage? <==> !(result.Some? && canRetry)
    ensures es[|es| - 1].DeleteMessage? ==> es[|es| - 1] == DeleteMessage(url, m.receipt)
    ensures forall i :: 0 <= i < |es| ==> (es[i].ReportError? <==> i == 0 && result.Some? && !canRetry)
    ensures result.Some? && !canRetry ==> es[0] == ReportError(m.id, job, result.value)
    ensures forall i :: 0 <= i < |es| ==> (es[i].ChangeVisibility? <==> result.Some? && canRetry)
    ensures result.Some? && canRetry ==> es[0] == ChangeVisibility(url, m.receipt, job.retryDelay)
  {
    if result.None? then [DeleteMessage(url, m.receipt)]
    else if !canRetry then [ReportError(m.id, job, result.value), DeleteMessage(url, m.receipt)]
    else [ChangeVisibility(url, m.receipt, job.retryDelay)]
  }

  /*** The listener loop ***/

  /** The receive call of one pass: at most one message from the queue's
      URL, with its visibility timeout and wait time. */
  function Receive(q: Queue): Effect
  {
    ReceiveMessage(q.url, q.timeout, q.waitTime)
  }

  /** What one pass of the loop finds: the stop signal closed (by a Stop
      made while the loop runs), a failed or empty receive, or a message with the outcome of decoding its body and,
      when decoded, of running the handler and of CanRetry(1). */
  datatype Poll =
    | Stopped
    | ReceiveFailed(error: Error)
    | NoMessage
    | Received(m: Message, decoded: Option<Job>, result: Option<Error>, canRetry: bool)

  /** How a run of the loop ends: on the stop signal, blocked borrowing from
      an empty execution pool, or at the end of the polls given to the model. */
  datatype Halt = StopSeen | PoolBlocked | OutOfInput

  datatype ListenRun = ListenRun(effects: seq<Effect>, pool: seq<Handler>, halt: Halt)

  /** The listen loop over one queue. Receive errors, empty receives and
      undecodable bodies just start the next pass; a decoded message borrows
      a handler, runs it, returns the handler and completes the message. */
  function ListenSteps(q: Queue, polls: seq<Poll>, pool: seq<Handler>): ListenRun
  {
    if polls == [] then ListenRun([], pool, OutOfInput)
    else match polls[0]
      case Stopped => ListenRun([], pool, StopSeen)
      case Received(m, Some(job), result, canRetry) =>
        if pool == [] then ListenRun([Receive(q)], pool, PoolBlocked)
        else
          var h := pool[0];
          var rest := ListenSteps(q, polls[1..], pool[1..] + [h]);
          rest.(effects := [Receive(q), Invoke(h, m.id)] + Completion(q.url, m, job, result, canRetry) + rest.effects)
      case _ =>
        var rest := ListenSteps(q, polls[1..], pool);
        rest.(effects := [Receive(q)] + rest.effects)
  }

  /** One pass of the loop at poll i, then the rest. */
  lemma ListenNext(q: Queue, polls: seq<Poll>, i: nat, pool: seq<Handler>)
    requires i < |polls|
    ensures polls[i].Stopped? ==> ListenSteps(q, polls[i..], pool) == ListenRun([], pool, StopSeen)
    ensures polls[i].Received? && polls[i].decoded.Some? && pool == [] ==>
      ListenSteps(q, polls[i..], pool) == ListenRun([Receive(q)], pool, PoolBlocked)
    ensures polls[i].Received? && polls[i].decoded.Some? && pool != [] ==>
      var poll, h := polls[i], pool[0];
      var r := ListenSteps(q, polls[i + 1..], pool[1..] + [h]);
      ListenSteps(q, polls[i..], pool) ==
        r.(effects := [Receive(q), Invoke(h, poll.m.id)]
                      + Completion(q.url, poll.m, poll.decoded.value, poll.result, poll.canRetry) + r.effects)
    ensures !polls[i].Stopped? && !(polls[i].Received? && polls[i].decoded.Some?) ==>
      var r := ListenSteps(q, polls[i + 1..], pool);
      ListenSteps(q, polls[i..], pool) == r.(effects := [Receive(q)] + r.effects)
  {
    assert polls[i..][0] == polls[i] && polls[i..][1..] == polls[i + 1..];
  }

  /** The kinds of call the accounting below counts. */
  datatype Kind = Invocation | Deletion | Report | Visibility

  predicate Is(e: Effect, k: Kind)
  {
    match k
    case Invocation => e.Invoke?
    case Deletion => e.DeleteMessage?
    case Report => e.ReportError?
    case Visibility => e.ChangeVisibility?
  }

  function Count(es: seq<Effect>, k: Kind): nat
  {
    if es == [] then 0 else (if Is(es[0], k) then 1 else 0) + Count(es[1..], k)
  }

  lemma {:induction false} CountAppend(a: seq<Effect>, b: seq<Effect>, k: Kind)
    ensures Count(a + b, k) == Count(a, k) + Count(b, k)
  {
    if a == [] {
      assert a + b == b;
    } else {
      assert (a + b)[1..] == a[1..] + b;
      CountAppend(a[1..], b, k);
    }
  }

  lemma CountSingle(a: Effect, k: Kind)
    ensures Count([a], k) == if Is(a, k) then 1 else 0
  {
    assert [a][1..] == [];
  }

  lemma CountPair(a: Effect, b: Effect, k: Kind)
    ensures Count([a, b], k) == (if Is(a, k) then 1 else 0) + (if Is(b, k) then 1 else 0)
  {
    assert [a, b][1..] == [b];
    CountSingle(b, k);
  }

  /** Per message: success gives one delete and nothing else; a failure that
      may not be retried gives one report and one delete; any other failure
      gives one visibility change and no report. */
  lemma CompletionCounts(url: Option<string>, m: Message, job: Job, result: Option<Error>, canRetry: bool, k: Kind)
    ensures Count(Completion(url, m, job, result, canRetry), k) ==
      match k
      case Invocation => 0
      case Deletion => if result.Some? && canRetry then 0 else 1
      case Report => if result.Some? && !canRetry then 1 else 0
      case Visibility => if result.Some? && canRetry then 1 else 0
  {
    if result.Some? && !canRetry {
      CountPair(ReportError(m.id, job, result.value), DeleteMessage(url, m.receipt), k);
    } else {
      CountSingle(Completion(url, m, job, result, canRetry)[0], k);
    }
  }

  /** The execution pool keeps its handlers: every borrowed handler is
      given back. */
  lemma {:induction false} ListenKeepsPool(q: Queue, polls: seq<Poll>, pool: seq<Handler>)
    ensures multiset(ListenSteps(q, polls, pool).pool) == multiset(pool)
  {
    if polls != [] && !polls[0].Stopped? {
      if polls[0].Received? && polls[0].decoded.Some? && pool != [] {
        var h := pool[0];
        assert pool == [h] + pool[1..];
        ListenKeepsPool(q, polls[1..], pool[1..] + [h]);
      } else if !(polls[0].Received? && polls[0].decoded.Some?) {
        ListenKeepsPool(q, polls[1..], pool);
      }
    }
  }

  /** Over a run of the loop every handler invocation is completed by
      exactly one delete or one visibility change, and reports never
      outnumber deletes. */
  lemma {:induction false} ListenAccounts(q: Queue, polls: seq<Poll>, pool: seq<Handler>)
    ensures var es := ListenSteps(q, polls, pool).effects;
      && Count(es, Deletion) + Count(es, Visibility) == Count(es, Invocation)
      && Count(es, Report) <= Count(es, Deletion)
  {
    if polls == [] || polls[0].Stopped? {
    } else if polls[0].Received? && polls[0].decoded.Some? {
      var m, job, result, canRetry := polls[0].m, polls[0].decoded.value, polls[0].result, polls[0].canRetry;
      if pool != [] {
        var h := pool[0];
        var pool' := pool[1..] + [h];
        ListenAccounts(q, polls[1..], pool');
        var head := [Receive(q), Invoke(h, m.id)];
        var c := Completion(q.url, m, job, result, canRetry);
        var rest := ListenSteps(q, polls[1..], pool').effects;
        assert ListenSteps(q, polls, pool).effects == head + c + rest;
        forall k ensures Count(head + c + rest, k) == Count(head, k) + Count(c, k) + Count(rest, k) {
          CountAppend(head, c, k);
          CountAppend(head + c, rest, k);
        }
        forall k ensures Count(head, k) == (if k == Invocation then 1 else 0) {
          CountPair(Receive(q), Invoke(h, m.id), k);
        }
        forall k ensures Count(c, k) == match k
            case Invocation => 0
            case Deletion => if result.Some? && canRetry then 0 else 1
            case Report => if result.Some? && !canRetry then 1 else 0
            case Visibility => if result.Some? && canRetry then 1 else 0
        {
          CompletionCounts(q.url, m, job, result, canRetry, k);
        }
      } else {
        forall k ensures Count([Receive(q)], k) == 0 {
          CountSingle(Receive(q), k);
        }
      }
    } else {
      ListenAccounts(q, polls[1..], pool);
      var rest := ListenSteps(q, polls[1..], pool).effects;
      assert ListenSteps(q, polls, pool).effects == [Receive(q)] + rest;
      forall k ensures Count([Receive(q)] + rest, k) == Count(rest, k) {
        CountAppend([Receive(q)], rest, k);
        CountSingle(Receive(q), k);
      }
    }
  }

  ghost predicate ReportsThenDeletes(es: seq<Effect>)
  {
    forall i :: 0 <= i < |es| && es[i].ReportError? ==> i + 1 < |es| && es[i + 1].DeleteMessage?
  }

  /** Every report to the error callback is immediately followed by the
      deletion of the message. */
  lemma {:induction false} ReportThenDelete(q: Queue, polls: seq<Poll>, pool: seq<Handler>)
    ensures ReportsThenDeletes(ListenSteps(q, polls, pool).effects)
  {
    if polls != [] {
      match polls[0]
      case Stopped =>
      case Received(m, Some(job), result, canRetry) =>
        if pool != [] {
          var h := pool[0];
          ReportThenDelete(q, polls[1..], pool[1..] + [h]);
          var head := [Receive(q), Invoke(h, m.id)] + Completion(q.url, m, job, result, canRetry);
          var rest := ListenSteps(q, polls[1..], pool[1..] + [h]).effects;
          var es := head + rest;
          forall i | 0 <= i < |es| && es[i].ReportError? ensures i + 1 < |es| && es[i + 1].DeleteMessage? {
            if i < |head| {
              assert i == 2 && es[3] == head[3];
            } else {
              assert es[i] == rest[i - |head|] && es[i + 1] == rest[i + 1 - |head|];
            }
          }
        }
      case _ =>
        ReportThenDelete(q, polls[1..], pool);
        var rest := ListenSteps(q, polls[1..], pool).effects;
        var es := [Receive(q)] + rest;
        forall i | 0 <= i < |es| && es[i].ReportError? ensures i + 1 < |es| && es[i + 1].DeleteMessage? {
          assert 0 < i;
          assert es[i] == rest[i - 1];
          assert i + 1 < |es| ==> es[i + 1] == rest[i];
        }
    }
  }

  /*** Stat ***/

  /** A counter taken from the queue attributes: the parsed value, or 0 when
      the attribute is missing or does not parse. */
  function Counter(attributes: map<string, string>, name: string, atoi: string -> Option<int>): int
  {
    if name in attributes && atoi(attributes[name]).Some? then atoi(attributes[name]).value else 0
  }

  class Broker {
    var status: Status
    var cfg: Option<Config>
    /** `b.sqs`: absent (nil) until Serve connects. */
    var client: Option<Client>
    var stop: Signal
    var queue: map<Pipeline, Queue>
    var execPool: seq<Handler>
    var err: Option<ErrorHandler>
    var trace: seq<Effect>

    /** The execution pool and the error callback are stored together. */
    ghost predicate Valid()
      reads this
    {
      err.None? ==> execPool == []
    }

    constructor ()
      ensures Valid()
      ensures status == Inactive && cfg == None && client == None && stop == Absent && queue == map[]
      ensures execPool == [] && err == None && trace == []
    {
      status, cfg, client, stop, queue := Inactive, None, None, Absent, map[];
      execPool, err, trace := [], None, [];
    }

    /** The broker status (an atomic load). */
    function Status(): Status
      reads this
    {
      status
    }

    /** Stores the configuration; never fails. */
    method Init(c: Config) returns (ok: bool, e: Option<Error>)
      modifies this`cfg
      ensures cfg == Some(c) && ok && e == None
    {
      cfg := Some(c);
      ok, e := true, None;
    }

    /** Replaces the queue map with one entry per pipeline, returning the
        first registration error; the pool and the error callback are stored
        only when every pipeline registered. */
    method Listen(pipelines: seq<Pipeline>, pool: seq<Handler>, handler: ErrorHandler,
                  newQueue: Pipeline -> Result<Queue>) returns (e: Option<Error>)
      requires Valid()
      modifies this`queue, this`execPool, this`err
      ensures Valid()
      ensures var r := Register(pipelines, newQueue); queue == r.queues && e == r.err
      ensures e.None? ==> execPool == pool && err == Some(handler)
      ensures e.Some? ==> execPool == old(execPool) && err == old(err)
    {
      queue := map[];
      var i := 0;
      while i < |pipelines|
        invariant 0 <= i <= |pipelines|
        invariant Register(pipelines[..i], newQueue) == Registration(queue, None)
        invariant execPool == old(execPool) && err == old(err)
      {
        assert pipelines[..i + 1][..i] == pipelines[..i];
        match newQueue(pipelines[i])
        case Err(x) =>
          RegisterStaysFailed(pipelines, i + 1, newQueue);
          return Some(x);
        case Ok(q) =>
          queue := queue[pipelines[i] := q];
        i := i + 1;
      }
      assert pipelines[..i] == pipelines;
      execPool, err := pool, Some(handler);
      e := None;
    }

    /** Connects (the outcome is the input connect) and stores the client,
        which is nil when connecting failed; a connect error is returned at
        once. Then a fresh stop signal is made, and for each queue in map
        order it is created if asked, its URL resolved and stored and its
        listener started if asked; any error aborts. Status becomes Ready
        once every queue is resolved. */
    method Serve(order: seq<Pipeline>, connect: Result<Client>,
                 create: string -> Option<Error>, resolve: string -> Result<string>) returns (e: Option<Error>)
      requires Enumerates(order, queue.Keys)
      modifies this`client, this`stop, this`status, this`queue, this`trace
      ensures client == (if connect.Ok? then Some(connect.value) else None)
      ensures connect.Err? ==>
        && e == Some(connect.error)
        && stop == old(stop) && status == old(status) && queue == old(queue) && trace == old(trace)
      ensures connect.Ok? ==>
        && stop == Open
        && var s := ServeSteps(order, old(queue), create, resolve);
           && e == s.err
           && trace == old(trace) + s.effects
           && queue == WithUrls(old(queue), s.urls)
           && status == (if e.None? then Ready else old(status))
    {
      if connect.Err? {
        client := None;
        return Some(connect.error);
      }
      client := Some(connect.value);
      stop := Open;
      var qs, acc;
      assert Covers(order, queue);
      qs, acc, e := StartQueues(order, queue, create, resolve);
      queue, trace := qs, trace + acc;
      if e.None? {
        status := Ready;
      }
    }

    /** Sets status back to Registered and closes the stop signal if one
        was made. Closing it a second time panics. */
    method Stop() returns (panicked: bool)
      modifies this`status, this`stop
      ensures status == Registered
      ensures stop == if old(stop) == Absent then Absent else Closed
      ensures panicked <==> old(stop) == Closed
    {
      status := Registered;
      panicked := stop == Closed;
      if stop != Absent {
        stop := Closed;
      }
    }

    /** Sends the marshalled job to the pipeline's queue with the job's delay
        as DelaySeconds; returns the message id, or "" and the error. A
        pipeline without a queue, or a client not yet connected, is a nil
        dereference. */
    method Push(p: Pipeline, j: Job, marshal: Result<string>, send: SendRequest -> Result<string>)
      returns (id: string, e: Option<Error>, sent: Option<SendRequest>)
      ensures marshal.Err? ==> id == "" && e == Some(marshal.error) && sent == None
      ensures marshal.Ok? && (p !in queue || client.None?) ==> e.Some? && e.value.Panic? && sent == None
      ensures marshal.Ok? && p in queue && client.Some? ==>
        && sent == Some(SendRequest(j.delay, marshal.value, queue[p].url))
        && (send(sent.value).Ok? ==> id == send(sent.value).value && e == None)
        && (send(sent.value).Err? ==> id == "" && e == Some(send(sent.value).error))
    {
      if marshal.Err? {
        return "", Some(marshal.error), None;
      }
      if p !in queue {
        return "", Some(Panic("nil pointer dereference: no queue for pipeline")), None;
      }
      if client.None? {
        return "", Some(Panic("nil pointer dereference: no SQS client")), None;
      }
      var request := SendRequest(j.delay, marshal.value, queue[p].url);
      sent := Some(request);
      match send(request)
      case Err(x) =>
        id, e := "", Some(x);
      case Ok(messageId) =>
        id, e := messageId, None;
    }

    /** Statistics of the pipeline's queue from the attributes the queue
        reports: messages -> Queue, not visible -> Active, delayed -> Delayed,
        a counter left at 0 when its value does not parse. The error of the
        attribute request is not returned (an empty attribute map stands
        for it). A pipeline without a queue, or a client not yet connected,
        is a nil dereference. */
    method Stat(p: Pipeline, attributes: map<string, string>, atoi: string -> Option<int>)
      returns (stat: Option<PipelineStat>, e: Option<Error>)
      ensures p !in queue || client.None? ==> stat == None && e.Some? && e.value.Panic?
      ensures p in queue && client.Some? ==> e == None && stat == Some(PipelineStat(queue[p].queue,
        Counter(attributes, MessagesAttribute, atoi),
        Counter(attributes, NotVisibleAttribute, atoi),
        Counter(attributes, DelayedAttribute, atoi)))
    {
      if p !in queue {
        return None, Some(Panic("nil pointer dereference: no queue for pipeline"));
      }
      if client.None? {
        return None, Some(Panic("nil pointer dereference: no SQS client"));
      }
      var s := PipelineStat(queue[p].queue, 0, 0, 0);
      var left := attributes.Keys;
      while left != {}
        invariant left <= attributes.Keys
        invariant s.pipeline == queue[p].queue
        invariant s.queue == if MessagesAttribute in left then 0 else Counter(attributes, MessagesAttribute, atoi)
        invariant s.active == if NotVisibleAttribute in left then 0 else Counter(attributes, NotVisibleAttribute, atoi)
        invariant s.delayed == if DelayedAttribute in left then 0 else Counter(attributes, DelayedAttribute, atoi)
        decreases left
      {
        var a :| a in left;
        var v := attributes[a];
        if a == MessagesAttribute && atoi(v).Some? {
          s := s.(queue := atoi(v).value);
        }
        if a == NotVisibleAttribute && atoi(v).Some? {
          s := s.(active := atoi(v).value);
        }
        if a == DelayedAttribute && atoi(v).Some? {
          s := s.(delayed := atoi(v).value);
        }
        left := left - {a};
      }
      stat, e := Some(s), None;
    }

    /** The listen loop of one queue over the given polls, borrowing handlers
        from the execution pool and recording every call. Serve starts it
        only for a resolved queue marked for listening, with the client
        connected and the stop signal made. The signal is checked before
        every pass: when it is already closed the loop returns at once, and
        a Stopped poll is a Stop that happens while the loop runs. */
    method Listener(p: Pipeline, polls: seq<Poll>) returns (halt: Halt)
      requires Valid() && p in queue && queue[p].url.Some? && queue[p].listen
      requires client.Some? && stop != Absent
      modifies this`trace, this`execPool
      ensures Valid()
      ensures stop == Closed ==> halt == StopSeen && unchanged(this)
      ensures stop == Open ==> var r := ListenSteps(queue[p], polls, old(execPool));
        && halt == r.halt && execPool == r.pool && trace == old(trace) + r.effects
    {
      if stop == Closed {
        return StopSeen;
      }
      var q := queue[p];
      var pool, acc, i := execPool, [], 0;
      ghost var goal := ListenSteps(q, polls, execPool);
      while true
        invariant 0 <= i <= |polls|
        invariant unchanged(this)
        invariant |pool| == |execPool|
        invariant goal == var r := ListenSteps(q, polls[i..], pool); r.(effects := acc + r.effects)
        decreases |polls| - i
      {
        if i == |polls| {
          halt := OutOfInput;
          assert goal == ListenRun(acc, pool, halt);
          break;
        }
        var poll := polls[i];
        ListenNext(q, polls, i, pool);
        if poll.Stopped? {
          halt := StopSeen;
          assert goal == ListenRun(acc + [], pool, halt);
          assert acc + [] == acc;
          break;
        }
        if poll.Received? && poll.decoded.Some? {
          if pool == [] {
            acc, halt := acc + [Receive(q)], PoolBlocked;
            assert goal == ListenRun(acc, pool, halt);
            break;
          }
          var h := pool[0];
          var step := [Receive(q), Invoke(h, poll.m.id)] + Completion(q.url, poll.m, poll.decoded.value, poll.result, poll.canRetry);
          ghost var rest := ListenSteps(q, polls[i + 1..], pool[1..] + [h]);
          assert acc + (step + rest.effects) == (acc + step) + rest.effects;
          pool, acc := pool[1..] + [h], acc + step;
        } else {
          ghost var rest := ListenSteps(q, polls[i + 1..], pool);
          assert acc + ([Receive(q)] + rest.effects) == (acc + [Receive(q)]) + rest.effects;
          acc := acc + [Receive(q)];
        }
        i := i + 1;
      }
      execPool, trace := pool, trace + acc;
    }
  }
}

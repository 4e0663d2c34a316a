/** The job events that brokers report and the error values they carry. */
module Events {
  import opened Common

  /** Event codes: consecutive integers starting at 1500, in declaration order. */
  const EventPushComplete: int := 1500
  const EventPushError: int := EventPushComplete + 1
  const EventReceived: int := EventPushComplete + 2
  const EventJobComplete: int := EventPushComplete + 3
  const EventJobError: int := EventPushComplete + 4
  const EventPipelineConsume: int := EventPushComplete + 5
  const EventPipelineConsuming: int := EventPushComplete + 6
  const EventPipelineStop: int := EventPushComplete + 7
  const EventPipelineStopped: int := EventPushComplete + 8
  const EventPipelineError: int := EventPushComplete + 9

  /** The codes in declaration order. */
  const EventCodes: seq<int> := [
    EventPushComplete, EventPushError, EventReceived, EventJobComplete, EventJobError,
    EventPipelineConsume, EventPipelineConsuming, EventPipelineStop, EventPipelineStopped,
    EventPipelineError
  ]

  /** The numbering starts at 1500, steps by one and ends at 1509, so no two
      events share a code. */
  lemma EventNumbering()
    ensures EventPushComplete == 1500 && EventPipelineError == 1509
    ensures |EventCodes| == 10
    ensures forall i :: 0 <= i < |EventCodes| ==> EventCodes[i] == 1500 + i
    ensures forall i, j :: 0 <= i < j < |EventCodes| ==> EventCodes[i] != EventCodes[j]
  {
  }

  /** A job event: the job's id, the job and the timing of its invocation. */
  datatype JobEvent<J> = JobEvent(id: string, job: J, start: int, elapsed: int)
  {
    /** Duration of the invocation. */
    function Elapsed(): int
    {
      elapsed
    }
  }

  /** A job error event: like a job event, plus the error the job caused. */
  datatype JobError<J> = JobError(id: string, job: J, caused: Error, start: int, elapsed: int)
  {
    /** Duration of the invocation. */
    function Elapsed(): int
    {
      elapsed
    }

    /** The message of the causing error. */
    function Error(): string
    {
      Message(caused)
    }
  }

  /** An error specific to one pipeline. */
  datatype PipelineError<P> = PipelineError(pipeline: P, caused: Error)
  {
    /** The message of the causing error. */
    function Error(): string
    {
      Message(caused)
    }
  }

  /** Elapsed hands back the elapsed time the event was built with. */
  lemma JobEventElapsed<J>(id: string, job: J, start: int, elapsed: int)
    ensures JobEvent(id, job, start, elapsed).Elapsed() == elapsed
  {
  }

  /** Elapsed hands back the elapsed time the error event was built with. */
  lemma JobErrorElapsed<J>(id: string, job: J, caused: Error, start: int, elapsed: int)
    ensures JobError(id, job, caused, start, elapsed).Elapsed() == elapsed
  {
  }

  /** A job error reads as the message of the error that caused it, and
      reporting it does not depend on the job or the timings. */
  lemma JobErrorMessage<J>(id: string, job: J, msg: string, start: int, elapsed: int)
    ensures JobError(id, job, Error(msg), start, elapsed).Error() == msg
    ensures forall id', job': J, start', elapsed' ::
      JobError(id', job', Error(msg), start', elapsed').Error() == msg
  {
  }

  /** A pipeline error reads as the message of the error that caused it. */
  lemma PipelineErrorMessage<P>(pipeline: P, msg: string)
    ensures PipelineError(pipeline, Error(msg)).Error() == msg
  {
  }
}

/** The activation record of one node: its status word, dependency counter and times. */
module Activation {
  import opened Wrappers
  import opened SharedWorld

  const SIZE: nat := 2312
  const ALIGN: nat := 8
  const STATUS: nat := 0
  const RESULT: nat := 8
  const PENDING: nat := 16
  const SIGNAL_TIME: nat := 32
  const AWAKE_TIME: nat := 40
  const FINISH_TIME: nat := 48
  const CLIENT_VERSION: nat := 540
  const SERVER_VERSION: nat := 544
  const VERSION: int := 1
  const EIO: int := 5

  datatype Status = NotTriggered | Triggered | Awake | Finished | Inactive

  datatype ActivationError =
    | Undersized
    | Misaligned
    | UnsupportedVersion(version: int)
    | UnknownStatus(word: int)
    | InvalidTransition(expected: Status, actual: Status)
    | InvalidPending(pending: int)

  datatype TriggerOutcome = Waiting(left: int) | BecameTriggered

  function Code(s: Status): (v: int) {
    match s
    case NotTriggered => 0
    case Triggered => 1
    case Awake => 2
    case Finished => 3
    case Inactive => 4
  }

  function Decode(v: int): Result<Status, ActivationError> {
    match v
    case 0 => Ok(NotTriggered)
    case 1 => Ok(Triggered)
    case 2 => Ok(Awake)
    case 3 => Ok(Finished)
    case 4 => Ok(Inactive)
    case _ => Err(UnknownStatus(v))
  }

  /** Construction of a view: the region must hold the record and the server must speak version 1. */
  function View(w: World, iv: Interval): Result<(), ActivationError> {
    if iv.end < iv.start + SIZE then Err(Undersized)
    else if iv.start % ALIGN != 0 then Err(Misaligned)
    else if Load(w, At(iv, SERVER_VERSION)) != VERSION then Err(UnsupportedVersion(Load(w, At(iv, SERVER_VERSION))))
    else Ok(())
  }

  function StatusWord(w: World, iv: Interval): int {
    Load(w, At(iv, STATUS))
  }

  function Transition(w: World, iv: Interval, from: Status, to: Status): (World, Result<(), ActivationError>) {
    if StatusWord(w, iv) == Code(from) then (Put(w, At(iv, STATUS), Code(to)), Ok(()))
    else
      match Decode(StatusWord(w, iv))
      case Err(e) => (w, Err(e))
      case Ok(actual) => (w, Err(InvalidTransition(from, actual)))
  }

  /** The swap happens whatever the word held; only decoding the old word can fail. */
  function Deactivate(w: World, iv: Interval): (World, Result<Status, ActivationError>) {
    (Put(w, At(iv, STATUS), Code(Inactive)), Decode(StatusWord(w, iv)))
  }

  function MarkReady(w: World, iv: Interval): (World, Result<(), ActivationError>) {
    Transition(w, iv, Inactive, Finished)
  }

  function ClaimCycle(w: World, iv: Interval, now: nat): (World, Result<(), ActivationError>) {
    var (w1, r) := Transition(w, iv, Triggered, Awake);
    if r.Err? then (w1, r) else (Put(w1, At(iv, AWAKE_TIME), now), Ok(()))
  }

  function PublishResultAndFinish(w: World, iv: Interval, result: int, now: nat): (World, Result<(), ActivationError>) {
    var w1 := Put(w, At(iv, RESULT), result);
    var w2 := Put(w1, At(iv, FINISH_TIME), now);
    Transition(w2, iv, Awake, Finished)
  }

  /** The uncontended compare-and-swap loop; FanIn treats the contended one. */
  function DecrementPendingAndTrigger(w: World, iv: Interval, now: nat):
    (World, Result<TriggerOutcome, ActivationError>)
  {
    var current := Load(w, At(iv, PENDING));
    if current <= 0 then (w, Err(InvalidPending(current)))
    else
      var w1 := Put(w, At(iv, PENDING), current - 1);
      if current > 1 then (w1, Ok(Waiting(current - 1)))
      else
        var (w2, r) := Transition(w1, iv, NotTriggered, Triggered);
        if r.Err? then (w2, Err(r.error))
        else (Put(w2, At(iv, SIGNAL_TIME), now), Ok(BecameTriggered))
  }
}

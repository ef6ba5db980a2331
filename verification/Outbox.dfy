/** The queued item and its state machine: pure functions from item and event to item. */
module Outbox {
  import opened Options
  import opened Commands

  datatype Status = Pending | Syncing | Synced | Failed | Conflict

  /** A row of the browser's durable outbox. The id doubles as the Idempotency-Key. */
  datatype Item = Item(
    id: string, clubId: int, userId: Option<int>, command: Command, createdAt: int,
    attempts: nat, nextRetryAt: int, status: Status,
    lastError: Option<string>, lastErrorCode: Option<string>)

  datatype OutboxEvent =
    | StartSyncing
    | SentOk
    | NetworkError(message: string)
    | BusinessError(code: string, message: string)
    | VersionConflict(message: string)

  function ApplyOutboxEvent(item: Item, event: OutboxEvent, now: int, retryDelay: int): Item {
    match event
    case StartSyncing => item.(status := Syncing)
    case SentOk => item.(status := Synced, lastError := None, lastErrorCode := None)
    case NetworkError(m) =>
      item.(status := Pending, attempts := item.attempts + 1, nextRetryAt := now + retryDelay,
            lastError := Some(m), lastErrorCode := None)
    case BusinessError(c, m) =>
      item.(status := Failed, attempts := item.attempts + 1,
            lastError := Some(m), lastErrorCode := Some(c))
    case VersionConflict(m) =>
      item.(status := Conflict, attempts := item.attempts + 1,
            lastError := Some(m), lastErrorCode := Some("VERSION_CONFLICT"))
  }

  predicate IsRetryable(status: Status) {
    status == Pending
  }

  function RecoverInterrupted(item: Item, now: int): Item {
    if item.status != Syncing then item else item.(status := Pending, nextRetryAt := now)
  }

  /** The part of an item that the reducer must never touch: which command it is. */
  datatype Birth = Birth(clubId: int, userId: Option<int>, command: Command, createdAt: int)

  function BirthOf(item: Item): Birth {
    Birth(item.clubId, item.userId, item.command, item.createdAt)
  }

  /** An item as runCommand first writes it. */
  function NewItem(id: string, birth: Birth, now: int): Item {
    Item(id, birth.clubId, birth.userId, birth.command, birth.createdAt, 0, now, Pending, None, None)
  }

  /** What an executor's promise can reject with. */
  datatype ClientError =
    | NetworkFailure(message: string)
    | TimeoutFailure(message: string)
    | ApiError(status: int, code: string, message: string)
    | OtherFailure(message: string)

  function Classify(error: ClientError): OutboxEvent {
    match error
    case NetworkFailure(m) => NetworkError(m)
    case TimeoutFailure(m) => NetworkError(m)
    case ApiError(status, code, m) =>
      if status >= 500 then NetworkError(m)
      else if code == "IDEMPOTENCY_IN_PROGRESS" then NetworkError(m)
      else if code == "VERSION_CONFLICT" then VersionConflict(m)
      else BusinessError(code, m)
    case OtherFailure(m) => NetworkError(m)
  }

  /** Only the answer to a request can settle an item for good: an error is final exactly
      when the server answered below 500 with something other than "still in progress". */
  predicate IsFinalError(error: ClientError) {
    error.ApiError? && error.status < 500 && error.code != "IDEMPOTENCY_IN_PROGRESS"
  }

  /** The status an item ends in after one attempt, for every possible outcome. */
  lemma AttemptSettles(item: Item, error: ClientError, now: int, delay: int)
    ensures var next := ApplyOutboxEvent(item, Classify(error), now, delay);
            && next.id == item.id && BirthOf(next) == BirthOf(item)
            && next.attempts == item.attempts + 1
            && (IsRetryable(next.status) <==> !IsFinalError(error))
            && (next.status == Conflict <==> IsFinalError(error) && error.code == "VERSION_CONFLICT")
            && (IsRetryable(next.status) ==> next.nextRetryAt == now + delay)
            && next.status != Syncing && next.status != Synced
  {
  }
}

/** Shared result types and the stable error codes the model mentions. */
module Outcomes {

  datatype Option<+T> = None | Some(value: T)

  /** The codes of `packages/contracts/src/kernel/errors.ts` that the modelled branches raise. */
  datatype ErrorCode =
    | INVALID_OPERATION
    | INVALID_EVENT_TYPE
    | INVALID_SIMULATION_TIME
    | EVENT_IN_PAST
    | CLOCK_REWIND
    | STALE_CAPABILITY
    | INVALID_SCHEDULER_STATE
    | SIMULATION_DEADLOCK
    | INVALID_SERVICE_TRANSITION
    | INVALID_NETWORK_REPLY
    | NETWORK_TIMEOUT
    | BUS_CAPACITY_EXCEEDED
    | INVALID_MESSAGE_OPERATION
    | INVALID_DELIVERY
    | INVALID_EVENT_PAYLOAD
    | INVALID_DATABASE_OPERATION
    | ROW_EXISTS
    | ROW_NOT_FOUND
    | COMMIT_FAILED
    | TRANSACTION_CONFLICT
    | CONSTRAINT_VIOLATION
    | INVALID_KV_OPERATION
    | KV_NOT_INTEGER
    | KV_COUNTER_OVERFLOW
    | INVALID_OBSERVATION
    | INVALID_OBSERVATION_FILTER
    | INVALID_OBSERVATION_SCHEMA
    | UNKNOWN_OBSERVATION_TYPE
    | OBSERVER_REENTRANCY
    | HISTORY_SEALED
    | HISTORY_LIMIT_EXCEEDED
    | INVALID_FAULT
    | FAULT_PROBE_REUSED
    | HANDLER_FAILED

  datatype Result<+T> = Ok(value: T) | Err(code: ErrorCode)
}

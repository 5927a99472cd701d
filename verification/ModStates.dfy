/** The result states a module can leave with, and small types used throughout. */
module ModStates {

  /** `ModState` is a 32-bit unsigned integer. */
  type ModState = x: int | 0 <= x < 0x1_0000_0000

  const MOD_ELSE: ModState := 0
  const MOD_SUCCEED: ModState := 1
  const MOD_FAILED: ModState := 2
  const MOD_TIMEOUT: ModState := 3
  const MOD_ASYNC: ModState := 4
  const MOD_START: ModState := 5
  const MOD_FORK0: ModState := 840

  /** Join counters and fork widths are 16-bit unsigned integers. */
  const UINT16_MODULUS: nat := 0x1_0000

  /** `++` on a 16-bit unsigned integer. */
  function Increment16(n: nat): nat {
    if n + 1 == UINT16_MODULUS then 0 else n + 1
  }

  /** How the io service completes a socket operation, and how it calls a timer handler. */
  datatype SocketResult = Success | Aborted | Failure
  datatype TimerResult = Expired | TimerAborted | TimerError

  datatype Option<+T> = None | Some(value: T)
}

/** The script's fixed configuration, and the small wrapper types the model uses. */
module MintConfig {

  /** Retries allowed after the first failed attempt of one wallet's chain. */
  const MAX_RETRIES: nat := 3

  /** Gas budget of every wallet's first attempt. */
  const BASE_GAS_AMOUNT: real := 1000.0

  /** Factor by which a failed attempt's gas budget is raised for the next one (exactly 6/5). */
  const GAS_ESCALATION: real := 1.2

  /** Inclusive bounds, in milliseconds, of every randomized wait. */
  const MIN_DELAY: int := 500
  const MAX_DELAY: int := 3000

  /** The number of wallet keys the script insists on. */
  const REQUIRED_KEY_COUNT: nat := 10

  datatype Option<T> = None | Some(value: T)

  datatype Result<T, E> = Ok(value: T) | Err(error: E)
}

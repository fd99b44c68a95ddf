/** Definitions every component shares. */
module Common {

  /** A byte of device memory. */
  newtype Byte = x: int | 0 <= x < 256

  datatype Option<+T> = None | Some(value: T)

  /** The error numbers the driver returns, negated, to its callers. */
  datatype Errno = EAGAIN | EBUSY | EFAULT | ENOMEM | EPERM | ERESTARTSYS

  /** What a system call hands back: a non-negative count, or an error. */
  datatype Outcome = Done(count: nat) | Failed(errno: Errno)

  function Min(a: int, b: int): (m: int)
    ensures m <= a && m <= b && (m == a || m == b)
  {
    if a < b then a else b
  }

  function Max(a: int, b: int): (m: int)
    ensures a <= m && b <= m && (m == a || m == b)
  {
    if a < b then b else a
  }
}

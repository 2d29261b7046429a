/**
 * Kernel definitions the driver relies on: the errno values it returns
 * (negated), the poll event bits, and the outcome of an interruptible wait.
 */
module KernelBase {
  const EAGAIN: int := 11
  const ENOMEM: int := 12
  const EFAULT: int := 14
  const ENODEV: int := 19
  const EINVAL: int := 22
  const ENOTTY: int := 25
  /** Kernel-internal "restart the system call" code. */
  const ERESTARTSYS: int := 512

  const POLLIN: bv32 := 0x1
  const POLLOUT: bv32 := 0x4
  const POLLRDNORM: bv32 := 0x40
  const POLLWRNORM: bv32 := 0x100

  /**
   * What ends a `wait_event_interruptible` whose condition was false when
   * it was entered: a signal, or another party making the condition true
   * (the effect says how). When the condition already holds on entry the
   * wait returns at once and the outcome is not consulted.
   */
  datatype Wake<T> = Interrupted | Ready(effect: T)
}

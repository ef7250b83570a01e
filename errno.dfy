/** The status codes the page-fill worker compares against, with NuttX's errno numbering. */
module Errno {
  /** Success status of every OS and architecture call. */
  const OK: int := 0
  /** `-EBUSY` in the fill-result register means "no fill result received yet". */
  const EBUSY: int := 16
  /** A driver that reports `-EBUSY` as a real result has it replaced by `-ENOSYS`. */
  const ENOSYS: int := 38
}

/** Error numbers: those of Linux that the code looks at, and the two that it adds
    (ring2/ring2/submitter.h). */
module Errno {
  const ENOENT: int := 2
  const EINTR: int := 4
  const ETIME: int := 62
  const ECANCELED: int := 125
  const ENOCQE: int := 100512
  const ESQE_TIMEOUT: int := 100513
}

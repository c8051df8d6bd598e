/** Error numbers returned (negated) by both cores, with the values of
    Zephyr's minimal libc errno.h (that header is not part of this model). */
module Errno {
  const EIO := 5
  const EINVAL := 22
  const ENOSYS := 88
  const EALREADY := 120
  const ENOTSUP := 134
}

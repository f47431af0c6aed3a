/** The user-visible side effects the pages and buttons produce, recorded as values. */
module Ui {
  /** A toast notification; `destructive` is the red variant. */
  datatype Toast = Toast(title: string, description: string, destructive: bool)

  /** A client-side navigation (`navigate(to, { replace })` or a `<Navigate>` element). */
  datatype Navigation = Navigation(to: string, replace: bool)

  /** `s.substring(0, n)` */
  function Prefix(s: string, n: nat): (p: string)
    ensures |p| == if n <= |s| then n else |s|
    ensures p <= s
  {
    if n <= |s| then s[..n] else s
  }
}

/** Error-carrying values shared by every module of the model.
    Go's `(T, error)` pairs become `Result<T>`, a bare `error` becomes `Outcome`,
    and a Go pointer or nullable value that may be nil becomes `Option<T>`. */
module Results {

  datatype Option<+T> = None | Some(value: T)

  /** A value or an error message (the Go `error`'s text). */
  datatype Result<+T> = Ok(value: T) | Err(error: string)

  /** A Go function returning only `error`: nil is `Pass`. */
  datatype Outcome = Pass | Fail(error: string)

  /** The index of the first element whose step fails, or `|xs|` when every step passes:
      where a loop that stops at its first failed step stops. */
  function FirstFailure<T>(xs: seq<T>, step: T -> Outcome): (n: nat)
    ensures n <= |xs|
    ensures forall j :: 0 <= j < n ==> step(xs[j]).Pass?
    ensures n < |xs| ==> step(xs[n]).Fail?
  {
    if |xs| == 0 then 0
    else if step(xs[0]).Fail? then 0
    else 1 + FirstFailure(xs[1..], step)
  }

  /** The first failure is the index before which every step passes and at which one fails. */
  lemma {:induction false} FirstFailureAt<T>(xs: seq<T>, step: T -> Outcome, i: nat)
    requires i <= |xs|
    requires forall j :: 0 <= j < i ==> step(xs[j]).Pass?
    requires i < |xs| ==> step(xs[i]).Fail?
    ensures FirstFailure(xs, step) == i
  {
  }

  /** A failing step reached with no failure before it is the first failure. */
  lemma FirstFailureHere<T>(xs: seq<T>, step: T -> Outcome, i: nat)
    requires i < |xs| && i <= FirstFailure(xs, step) && step(xs[i]).Fail?
    ensures FirstFailure(xs, step) == i
  {
  }

  /** A loop that has passed `i` steps and passes one more has passed `i + 1`. */
  lemma FirstFailurePast<T>(xs: seq<T>, step: T -> Outcome, i: nat)
    requires i < |xs| && i <= FirstFailure(xs, step) && step(xs[i]).Pass?
    ensures i + 1 <= FirstFailure(xs, step)
  {
  }

  /** How many of `n` steps ran when the first `done` passed: a failing step runs too. */
  function RanCount(done: nat, n: nat): (k: nat)
    requires done <= n
    ensures done <= k <= n && (k == done <==> done == n)
  {
    if done < n then done + 1 else done
  }

  /** A result seen only for its error. */
  function AsOutcome<T>(r: Result<T>): (o: Outcome)
    ensures o.Pass? <==> r.Ok?
    ensures o.Fail? ==> o.error == r.error
  {
    if r.Ok? then Pass else Fail(r.error)
  }

  /** The value of a result, or `default` for an error. */
  function ValueOr<T>(r: Result<T>, default: T): T { if r.Ok? then r.value else default }
}

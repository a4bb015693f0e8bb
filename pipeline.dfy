/**
 * The shape every create action shares: read the submitted form, validate, insert
 * once, invalidate the listing, then redirect or return. Storage, `revalidatePath`
 * and `redirect` are outside: the outcome of the insert is an input, and the calls
 * made are recorded as a trace of effects.
 */
module Pipeline {
  import opened Wrappers
  import opened Zod

  /** Submitted form data: `formData.get(key)` is the string, or `null` when the key is missing. */
  type FormData = map<string, string>

  function FormValue(fd: FormData, key: string): (v: RawValue)
    ensures v.Str? <==> key in fd
    ensures v.Str? ==> v.s == fd[key]
    ensures !v.Str? ==> v.Null?
  {
    if key in fd then Str(fd[key]) else Null
  }

  /** The field was submitted with a non-empty value. */
  predicate Filled(fd: FormData, key: string) {
    key in fd && fd[key] != ""
  }

  /** The two submissions carry the same value (or the same absence) for every key in `keys`. */
  predicate AgreeOn(fd1: FormData, fd2: FormData, keys: set<string>) {
    forall key | key in keys :: FormValue(fd1, key) == FormValue(fd2, key)
  }

  /** JavaScript falsiness, for the values a form field can take. */
  predicate Falsy(v: RawValue) {
    v.Null? || v.Undefined? || v == Str("") || v == Bool(false)
  }

  /** `formData.get(key) || fallback`. */
  function FormValueOr(fd: FormData, key: string, fallback: RawValue): (v: RawValue)
    ensures Filled(fd, key) ==> v == Str(fd[key])
    ensures !Filled(fd, key) ==> v == fallback
  {
    var v := FormValue(fd, key);
    if Falsy(v) then fallback else v
  }

  /** `value || null` on an optional string: an absent or empty string becomes null. */
  function NullIfEmpty(o: Option<string>): (r: Option<string>)
    ensures r.Some? <==> o.Some? && o.value != ""
    ensures r.Some? ==> r == o
  {
    if o.Some? && o.value != "" then o else None
  }

  /** The state a create action returns: `{ success, message, errors? }`. */
  datatype FormState = FormState(success: bool, message: string, errors: Option<FieldErrors>)

  /** What the single insert into storage did. */
  datatype StoreResult = Stored | StoreFailed

  datatype Effect<+R> = Insert(row: R) | Revalidate(path: string)

  /** How an action ends: it returns a state, or `redirect` hands control to a listing page. */
  datatype Outcome = Returned(state: FormState) | Redirected(path: string)

  datatype Run<+R> = Run(effects: seq<Effect<R>>, outcome: Outcome)

  /** What an action does after a successful insert and revalidation. */
  datatype OnSuccess = RedirectToList | ReturnState(state: FormState)

  const InvalidInputMessage := "入力内容にエラーがあります。"
  const SaveFailedMessage := "データベースへの保存に失敗しました。"

  /**
   * The order the create actions keep: at most one insert and it comes first; the
   * listing is invalidated only after an insert; a run ends in a failure state
   * exactly when it stops before the invalidation; a redirect goes to the listing.
   */
  predicate WellFormedRun<R>(run: Run<R>, listPath: string) {
    && |run.effects| <= 2
    && (forall i | 0 <= i < |run.effects| :: run.effects[i].Insert? <==> i == 0)
    && (|run.effects| == 2 ==> run.effects[1] == Revalidate(listPath))
    && (|run.effects| < 2 <==> run.outcome.Returned? && !run.outcome.state.success)
    && (run.outcome.Redirected? ==> run.outcome.path == listPath)
  }

  /**
   * Validate, insert, revalidate, finish. Validation failures never reach storage and
   * report the field errors; a storage failure is reported with a generic message and
   * `failureErrors`, and nothing follows it.
   */
  function Submit<T, R>(validated: Result<T>, toRow: T -> R, store: StoreResult, listPath: string,
                        failureErrors: Option<FieldErrors>, onSuccess: OnSuccess): (run: Run<R>)
    requires onSuccess.ReturnState? ==> onSuccess.state.success
    ensures WellFormedRun(run, listPath)
    ensures run.effects == [] <==> validated.Err?
    ensures validated.Err? ==>
      run.outcome == Returned(FormState(false, InvalidInputMessage, Some(validated.errors)))
    ensures validated.Ok? ==> run.effects[0] == Insert(toRow(validated.value))
    ensures validated.Ok? && store.StoreFailed? ==>
      |run.effects| == 1 && run.outcome == Returned(FormState(false, SaveFailedMessage, failureErrors))
    ensures validated.Ok? && store.Stored? ==>
      && |run.effects| == 2
      && run.outcome == if onSuccess.RedirectToList? then Redirected(listPath) else Returned(onSuccess.state)
  {
    match validated
    case Err(errors) => Run([], Returned(FormState(false, InvalidInputMessage, Some(errors))))
    case Ok(value) =>
      var insert := Insert(toRow(value));
      match store
      case StoreFailed => Run([insert], Returned(FormState(false, SaveFailedMessage, failureErrors)))
      case Stored =>
        var effects := [insert, Revalidate(listPath)];
        match onSuccess
        case RedirectToList => Run(effects, Redirected(listPath))
        case ReturnState(state) => Run(effects, Returned(state))
  }
}

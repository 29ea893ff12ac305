/**
 * `ErrorStatus` of handlers/render.go: the HTTP status a handler answers
 * with for an error, found by looking the error's chain up in a table of
 * statuses and their sentinel errors.
 */
module Render {
  import opened GoErrors

  const StatusOK: int := 200
  const StatusUnprocessableEntity: int := 422
  const StatusInternalServerError: int := 500

  /** `errMap`: each status with the sentinel errors that select it. */
  function ErrMap(): (m: map<int, seq<Sentinel>>)
    ensures StatusInternalServerError !in m
  {
    map[StatusUnprocessableEntity := [ErrInvalidCredentials, ErrUserNotFound]]
  }

  /** Some target in the list is in the error's chain. */
  predicate MatchesAny(err: Error, targets: seq<Sentinel>)
  {
    exists i :: 0 <= i < |targets| && Is(err, targets[i])
  }

  /**
   * The status in terms of the innermost error of the chain: 200 for no error, 422 for failed credentials or an unknown
   * user, 500 for anything else.
   */
  function ExpectedStatus(err: Option<Error>): (status: int)
  {
    match err
    case None => StatusOK
    case Some(e) =>
      if Root(e) in {Base(ErrInvalidCredentials), Base(ErrUserNotFound)} then StatusUnprocessableEntity
      else StatusInternalServerError
  }

  /**
   * `ErrorStatus`: nil gives 200; otherwise the statuses of the table are
   * tried in map order (any order), each with its targets in list order,
   * and the first match decides; no match gives 500.
   */
  method ErrorStatus(err: Option<Error>) returns (status: int)
    ensures err.None? ==> status == StatusOK
    ensures err.Some? && status != StatusInternalServerError ==>
      status in ErrMap() && MatchesAny(err.value, ErrMap()[status])
    ensures err.Some? && status == StatusInternalServerError ==>
      forall s :: s in ErrMap() ==> !MatchesAny(err.value, ErrMap()[s])
    ensures status == ExpectedStatus(err)
  {
    if err.None? {
      return StatusOK;
    }
    var e := err.value;
    IsDependsOnlyOnRoot(e, ErrInvalidCredentials);
    IsDependsOnlyOnRoot(e, ErrUserNotFound);
    var errMap := ErrMap();
    var keys := errMap.Keys;
    while keys != {}
      invariant keys <= errMap.Keys
      invariant forall s :: s in errMap && s !in keys ==> !MatchesAny(e, errMap[s])
      decreases keys
    {
      var s :| s in keys;
      var errs := errMap[s];
      var i := 0;
      while i < |errs|
        invariant 0 <= i <= |errs|
        invariant forall j :: 0 <= j < i ==> !Is(e, errs[j])
      {
        if Is(e, errs[i]) {
          assert MatchesAny(e, errs);
          return s;
        }
        i := i + 1;
      }
      keys := keys - {s};
    }
    assert !MatchesAny(e, errMap[StatusUnprocessableEntity]);
    assert errMap[StatusUnprocessableEntity][0] == ErrInvalidCredentials;
    assert errMap[StatusUnprocessableEntity][1] == ErrUserNotFound;
    return StatusInternalServerError;
  }

  /** Wrapping an error with more context never changes its status. */
  lemma WrapKeepsStatus(e: Error, contexts: seq<string>)
    ensures ExpectedStatus(Some(WrapAll(e, contexts))) == ExpectedStatus(Some(e))
  {
  }

  /** `e` wrapped once per context, innermost first. */
  function WrapAll(e: Error, contexts: seq<string>): (r: Error)
    ensures Root(r) == Root(e)
    decreases |contexts|
  {
    if |contexts| == 0 then e else Wrap(contexts[0], WrapAll(e, contexts[1..]))
  }

  /** The login error of services/user.go, wrapped with the email, still gives 422. */
  lemma VerifyLoginFailureStatus(email: string)
    ensures ExpectedStatus(Some(Wrap("failed to verify login for user " + email, Base(ErrInvalidCredentials))))
            == StatusUnprocessableEntity
  {
    var e := Wrap("failed to verify login for user " + email, Base(ErrInvalidCredentials));
    assert Root(e) == Base(ErrInvalidCredentials);
  }
}

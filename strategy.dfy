/** The current strategy, `Strategy` in src/strategy.js: credentials come
    from `req.body`, or else from `req.query`, under the keys `address`,
    `msg` and `signed`; the recovered signer must be truthy and strictly
    equal to `address`; then the application's `onAuth` decides. */
module Web3Strategy {
  import opened Js
  import opened Passport

  const Name: string := "web3"
  const MissingOnAuthMessage: string := "Web3Strategy requires an onAuth callback"
  const MismatchMessage: string := "Invalid credentials (recovered address didnt match eth address)"
  const ParamKeys: seq<string> := ["address", "msg", "signed"]

  /** The `authParams` object `{ msg, signed }` handed to `onAuth`. */
  datatype AuthParams = AuthParams(msg: JsValue, signed: JsValue)

  /** `onAuth(address, done, req, authParams)`, with the completion handle
      `done` left implicit: the result says what the callback does with it. */
  type OnAuth = (JsValue, Request, AuthParams) -> CallbackRun

  /** The arguments `onAuth` was entered with (besides `done`). */
  datatype Invocation = OnAuthCall(address: JsValue, req: Request, params: AuthParams)

  /** `has(obj, key)`: an own property, whatever its value. */
  predicate Has(obj: map<string, JsValue>, key: string) {
    key in obj
  }

  /** `keys.every(k => has(obj, k))`. */
  function Every(obj: map<string, JsValue>, keys: seq<string>): (r: bool)
    ensures r <==> forall k :: k in keys ==> k in obj
  {
    if keys == [] then true
    else Has(obj, keys[0]) && Every(obj, keys[1..])
  }

  /** `hasAll(obj, keys)`: `obj` is present and owns every key. */
  function HasAll(obj: Option<map<string, JsValue>>, keys: seq<string>): (r: bool)
    ensures r <==> obj.Some? && forall k :: k in keys ==> k in obj.value
  {
    obj.Some? && Every(obj.value, keys)
  }

  /** A source that owns all three credential keys. */
  predicate Complete(src: Option<map<string, JsValue>>) {
    src.Some? && "address" in src.value && "msg" in src.value && "signed" in src.value
  }

  /** `getCredentials(req)`: the body when it is complete, else the query
      when it is complete, else nothing; the chosen object is returned as
      it is, so its values are not altered and never mixed across sources. */
  function GetCredentials(req: Request): (r: Option<map<string, JsValue>>)
    ensures Complete(req.body) ==> r == req.body
    ensures !Complete(req.body) && Complete(req.query) ==> r == req.query
    ensures !Complete(req.body) && !Complete(req.query) ==> r == None
    ensures r == None || r == req.body || r == req.query
  {
    if HasAll(req.body, ParamKeys) then req.body
    else if HasAll(req.query, ParamKeys) then req.query
    else None
  }

  /** The credential check of `authenticate`: no credentials; a recovered
      signer that is falsy or not `===` to `address`; or a verified triple.
      Verification demands that the primitive return exactly the claimed,
      truthy address. */
  function Decide(credentials: Option<map<string, JsValue>>, recover: Recover): (d: Decision)
    ensures d == NoCredentials <==> credentials.None?
    ensures d.Verified? ==> Truthy(d.address) && recover(d.msg, d.signed) == d.address
    ensures credentials.Some? ==>
      var address, msg, signed := Lookup(credentials.value, "address"), Lookup(credentials.value, "msg"), Lookup(credentials.value, "signed");
      (d.Verified? <==> Truthy(recover(msg, signed)) && recover(msg, signed) == address) &&
      (d.Verified? ==> d == Verified(address, msg, signed))
  {
    match credentials
    case None => NoCredentials
    case Some(c) =>
      var address, msg, signed := Lookup(c, "address"), Lookup(c, "msg"), Lookup(c, "signed");
      var recovered := recover(msg, signed);
      if !Truthy(recovered) || !StrictEquals(recovered, address) then Mismatch
      else Verified(address, msg, signed)
  }

  /** Everything one call of `authenticate` does, up to the moment `onAuth`
      returns or throws. */
  function AuthTrace(req: Request, options: AuthOptions, recover: Recover, onAuth: Callable<OnAuth>): (t: Trace<Invocation>)
    ensures |t.calls| <= 1
    ensures t.calls == [] ==> |t.reports| == 1
    ensures t.calls != [] ==> onAuth.Function? && Decide(GetCredentials(req), recover).Verified?
    ensures t.calls != [] ==> recover(t.calls[0].params.msg, t.calls[0].params.signed) == t.calls[0].address
    ensures t.calls != [] ==> t.reports == RunReports(onAuth.f(t.calls[0].address, req, t.calls[0].params))
    ensures Decide(GetCredentials(req), recover).Verified? && onAuth.Function? ==>
      var d := Decide(GetCredentials(req), recover);
      t.calls == [OnAuthCall(d.address, req, AuthParams(d.msg, d.signed))]
    ensures Decide(GetCredentials(req), recover).Verified? && onAuth.NonFunction? ==>
      t == Trace([], [Errored(NotCallable)])
    ensures GetCredentials(req) == None ==>
      t.reports == [Failed(Message(MissingMessage(options)), Some(BadRequest))]
    ensures Decide(GetCredentials(req), recover) == Mismatch ==>
      t.reports == [Failed(Message(Str(MismatchMessage)), Some(BadRequest))]
    ensures forall i :: 0 <= i < |t.reports| && t.reports[i].Failed? && t.reports[i].status.Some? ==>
      t.calls == [] && t.reports[i].status == Some(BadRequest)
  {
    match Decide(GetCredentials(req), recover)
    case NoCredentials => Trace([], [Failed(Message(MissingMessage(options)), Some(BadRequest))])
    case Mismatch => Trace([], [Failed(Message(Str(MismatchMessage)), Some(BadRequest))])
    case Verified(address, msg, signed) =>
      match onAuth
      case NonFunction(_) => Trace([], [Errored(NotCallable)])
      case Function(f) =>
        var params := AuthParams(msg, signed);
        Trace([OnAuthCall(address, req, params)], RunReports(f(address, req, params)))
  }

  /** A complete body wins: the query is then ignored, complete or not. */
  lemma BodyShadowsQuery(body: Option<map<string, JsValue>>, q1: Option<map<string, JsValue>>, q2: Option<map<string, JsValue>>)
    requires Complete(body)
    ensures GetCredentials(Request(body, q1)) == GetCredentials(Request(body, q2)) == body
  {
  }

  /** Presence is by key alone: whatever the three values are, empty or
      falsy included, a body owning the three keys is the credentials, and
      its values reach the recovery step as they are. */
  lemma EmptyValuesAreCredentials(address: JsValue, msg: JsValue, signed: JsValue, q: Option<map<string, JsValue>>)
    ensures var body := map["address" := address, "msg" := msg, "signed" := signed];
      GetCredentials(Request(Some(body), q)) == Some(body)
  {
  }

  /** A falsy claimed address never passes the check, whatever the
      primitive recovers. */
  lemma FalsyAddressNeverVerified(c: map<string, JsValue>, recover: Recover)
    requires !Truthy(Lookup(c, "address"))
    ensures Decide(Some(c), recover) == Mismatch
  {
  }

  /** With no credentials, neither the recovery primitive nor `onAuth` has
      any say in the outcome. */
  lemma MissingCredentialsConsultsNothing(req: Request, options: AuthOptions, recover1: Recover, recover2: Recover,
                                          cb1: Callable<OnAuth>, cb2: Callable<OnAuth>)
    requires GetCredentials(req) == None
    ensures AuthTrace(req, options, recover1, cb1) == AuthTrace(req, options, recover2, cb2)
    ensures AuthTrace(req, options, recover1, cb1).calls == []
  {
  }

  /** After a mismatch, `onAuth` has no say in the outcome and is not
      called. */
  lemma MismatchNeverCallsOnAuth(req: Request, options: AuthOptions, recover: Recover,
                                 cb1: Callable<OnAuth>, cb2: Callable<OnAuth>)
    requires Decide(GetCredentials(req), recover) == Mismatch
    ensures AuthTrace(req, options, recover, cb1) == AuthTrace(req, options, recover, cb2)
    ensures AuthTrace(req, options, recover, cb1).calls == []
  {
  }

  /** On a match, `onAuth` receives the claimed address from the chosen
      source and `{ msg, signed }` from the same source, and the outcome is
      whatever its completions make of it. */
  lemma VerifiedCallsOnAuth(req: Request, options: AuthOptions, recover: Recover, f: OnAuth)
    requires GetCredentials(req).Some?
    requires var c := GetCredentials(req).value;
      Truthy(recover(Lookup(c, "msg"), Lookup(c, "signed"))) &&
      recover(Lookup(c, "msg"), Lookup(c, "signed")) == Lookup(c, "address")
    ensures var c := GetCredentials(req).value;
      var call := OnAuthCall(Lookup(c, "address"), req, AuthParams(Lookup(c, "msg"), Lookup(c, "signed")));
      AuthTrace(req, options, recover, Function(f)) == Trace([call], RunReports(f(call.address, req, call.params)))
  {
  }

  /** An `onAuth` that completes exactly once makes `authenticate` report
      exactly once. */
  lemma WellBehavedOnAuthReportsOnce(req: Request, options: AuthOptions, recover: Recover, f: OnAuth)
    requires Decide(GetCredentials(req), recover).Verified?
    requires var d := Decide(GetCredentials(req), recover);
      WellBehaved(f(d.address, req, AuthParams(d.msg, d.signed)))
    ensures |AuthTrace(req, options, recover, Function(f)).reports| == 1
  {
  }

  /** The `done` closure: each call reports once, through `fail`, `error`
      or `success`. */
  method Done(attempt: Attempt<Invocation>, d: DoneArgs)
    modifies attempt`reports
    ensures attempt.reports == old(attempt.reports) + [DoneReport(d)]
  {
    if Truthy(d.err) {
      attempt.Error(Thrown(d.err));
      return;
    }
    if !Truthy(d.user) {
      attempt.Fail(Info(d.info), None);
      return;
    }
    attempt.Success(d.user, d.info);
  }

  class Strategy {
    var name: string
    var onAuth: Callable<OnAuth>

    /** The part of the constructor after its argument check. */
    constructor (onAuth: Callable<OnAuth>)
      requires Provided(onAuth)
      ensures name == Name && this.onAuth == onAuth
    {
      this.onAuth := onAuth;
      name := Name;
    }

    /** `new Strategy(options, onAuth)`, including the TypeError it throws
        when no callback is given. */
    static method New(options: Callable<OnAuth>, onAuth: Callable<OnAuth>) returns (r: Result<Strategy, string>)
      ensures NormaliseCallback(options, onAuth).None? ==> r == Failure(MissingOnAuthMessage)
      ensures NormaliseCallback(options, onAuth).Some? ==>
        r.Success? && fresh(r.value) && r.value.name == Name &&
        r.value.onAuth == NormaliseCallback(options, onAuth).value
    {
      var cb := onAuth;
      if options.Function? {
        cb := options;
      }
      if !Provided(cb) {
        return Failure(MissingOnAuthMessage);
      }
      var s := new Strategy(cb);
      return Success(s);
    }

    /** `authenticate(req, options)`: reports through `attempt`, which also
        logs each call of `onAuth`. */
    method Authenticate(req: Request, options: AuthOptions, recover: Recover, attempt: Attempt<Invocation>)
      modifies attempt
      ensures attempt.reports == old(attempt.reports) + AuthTrace(req, options, recover, onAuth).reports
      ensures attempt.calls == old(attempt.calls) + AuthTrace(req, options, recover, onAuth).calls
    {
      var credentials := GetCredentials(req);
      if credentials.None? {
        attempt.Fail(Message(MissingMessage(options)), Some(BadRequest));
        return;
      }
      var address, msg, signed := Lookup(credentials.value, "address"), Lookup(credentials.value, "msg"), Lookup(credentials.value, "signed");
      var recovered := recover(msg, signed);
      if !Truthy(recovered) || !StrictEquals(recovered, address) {
        attempt.Fail(Message(Str(MismatchMessage)), Some(BadRequest));
        return;
      }
      var params := AuthParams(msg, signed);
      if onAuth.NonFunction? {
        attempt.Error(NotCallable);
        return;
      }
      attempt.Invoked(OnAuthCall(address, req, params));
      var run := onAuth.f(address, req, params);
      for i := 0 to |run.doneCalls|
        invariant attempt.reports == old(attempt.reports) + DoneReports(run.doneCalls[..i])
        invariant attempt.calls == old(attempt.calls) + [OnAuthCall(address, req, params)]
      {
        assert run.doneCalls[..i + 1][..i] == run.doneCalls[..i];
        Done(attempt, run.doneCalls[i]);
      }
      assert run.doneCalls[..|run.doneCalls|] == run.doneCalls;
      if run.thrown.Some? {
        attempt.Error(Thrown(run.thrown.value));
      }
    }
  }
}

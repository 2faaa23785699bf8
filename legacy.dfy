/** The older strategy, `Strategy` in the root index.js: credentials come
    only from `req.body`, under `ethAddress`, `msg` and `signedMsg`, and
    each must be truthy; the recovered signer must be `===` to
    `ethAddress`; then the application's `verify` decides. */
module LegacyStrategy {
  import opened Js
  import opened Passport

  const Name: string := "web3"
  const MissingVerifyMessage: string := "Web3Strategy requires a verify callback"
  /** The mismatch message, spelt as the source spells it. */
  const MismatchMessage: string := "Invalid credentials (receovered address didnt match eth address)"

  /** `verify(req, ethAddress, msg, signedMsg, onUser)`, with the completion
      handle `onUser` left implicit: the result says what the callback does
      with it. */
  type Verify = (Request, JsValue, JsValue, JsValue) -> CallbackRun

  /** The arguments `verify` was entered with (besides `onUser`). */
  datatype Invocation = VerifyCall(req: Request, ethAddress: JsValue, msg: JsValue, signedMsg: JsValue)

  /** The credential check: a falsy field means no credentials; a recovered
      signer not `===` to `ethAddress` is a mismatch. */
  function Decide(body: map<string, JsValue>, recover: Recover): (d: Decision)
    ensures var ethAddress, msg, signedMsg := Lookup(body, "ethAddress"), Lookup(body, "msg"), Lookup(body, "signedMsg");
      (d == NoCredentials <==> !Truthy(ethAddress) || !Truthy(msg) || !Truthy(signedMsg)) &&
      (d != NoCredentials ==> (d.Verified? <==> recover(msg, signedMsg) == ethAddress)) &&
      (d.Verified? ==> d == Verified(ethAddress, msg, signedMsg))
    ensures d.Verified? ==> Truthy(d.address) && Truthy(d.msg) && Truthy(d.signed)
    ensures d.Verified? ==> recover(d.msg, d.signed) == d.address
  {
    var ethAddress, msg, signedMsg := Lookup(body, "ethAddress"), Lookup(body, "msg"), Lookup(body, "signedMsg");
    if !Truthy(ethAddress) || !Truthy(msg) || !Truthy(signedMsg) then NoCredentials
    else if !StrictEquals(recover(msg, signedMsg), ethAddress) then Mismatch
    else Verified(ethAddress, msg, signedMsg)
  }

  /** Everything one call of `authenticate` does, up to the moment `verify`
      returns or throws. The source reads `req.body.ethAddress` outside its
      `try`, so a request without a body is outside the contract. */
  function AuthTrace(req: Request, options: AuthOptions, recover: Recover, verify: Callable<Verify>): (t: Trace<Invocation>)
    requires req.body.Some?
    ensures |t.calls| <= 1
    ensures t.calls == [] ==> |t.reports| == 1
    ensures t.calls != [] ==> verify.Function? && Decide(req.body.value, recover).Verified?
    ensures t.calls != [] ==> t.calls[0].req == req && recover(t.calls[0].msg, t.calls[0].signedMsg) == t.calls[0].ethAddress
    ensures t.calls != [] ==>
      t.reports == RunReports(verify.f(req, t.calls[0].ethAddress, t.calls[0].msg, t.calls[0].signedMsg))
    ensures Decide(req.body.value, recover).Verified? && verify.Function? ==>
      var d := Decide(req.body.value, recover);
      t.calls == [VerifyCall(req, d.address, d.msg, d.signed)]
    ensures Decide(req.body.value, recover).Verified? && verify.NonFunction? ==>
      t == Trace([], [Errored(NotCallable)])
    ensures Decide(req.body.value, recover) == NoCredentials ==>
      t.reports == [Failed(Message(MissingMessage(options)), Some(BadRequest))]
    ensures Decide(req.body.value, recover) == Mismatch ==>
      t.reports == [Failed(Message(Str(MismatchMessage)), Some(BadRequest))]
    ensures forall i :: 0 <= i < |t.reports| && t.reports[i].Failed? && t.reports[i].status.Some? ==>
      t.calls == [] && t.reports[i].status == Some(BadRequest)
  {
    match Decide(req.body.value, recover)
    case NoCredentials => Trace([], [Failed(Message(MissingMessage(options)), Some(BadRequest))])
    case Mismatch => Trace([], [Failed(Message(Str(MismatchMessage)), Some(BadRequest))])
    case Verified(ethAddress, msg, signedMsg) =>
      match verify
      case NonFunction(_) => Trace([], [Errored(NotCallable)])
      case Function(f) =>
        Trace([VerifyCall(req, ethAddress, msg, signedMsg)], RunReports(f(req, ethAddress, msg, signedMsg)))
  }

  /** The query plays no part: two requests with the same body either both
      call `verify` or both do not, and when they do not, they report alike. */
  lemma QueryIgnored(r1: Request, r2: Request, options: AuthOptions, recover: Recover, verify: Callable<Verify>)
    requires r1.body.Some? && r1.body == r2.body
    ensures AuthTrace(r1, options, recover, verify).calls == [] <==> AuthTrace(r2, options, recover, verify).calls == []
    ensures AuthTrace(r1, options, recover, verify).calls == [] ==>
      AuthTrace(r1, options, recover, verify) == AuthTrace(r2, options, recover, verify)
  {
  }

  /** A present but empty field counts as missing, whatever the other two
      fields hold (an instance of `Decide`'s falsy-field clause). */
  lemma EmptyFieldIsMissing(body: map<string, JsValue>, field: string, recover: Recover)
    requires field in {"ethAddress", "msg", "signedMsg"}
    requires field in body && body[field] == Str("")
    ensures Decide(body, recover) == NoCredentials
  {
  }

  /** On a match, `verify` is called once, with the request and the body's
      `ethAddress`, `msg` and `signedMsg`, and the reports are those of its
      run. */
  lemma VerifiedCallsVerify(req: Request, options: AuthOptions, recover: Recover, f: Verify)
    requires req.body.Some? && Decide(req.body.value, recover).Verified?
    ensures var b := req.body.value;
      var ethAddress, msg, signedMsg := Lookup(b, "ethAddress"), Lookup(b, "msg"), Lookup(b, "signedMsg");
      AuthTrace(req, options, recover, Function(f)) ==
        Trace([VerifyCall(req, ethAddress, msg, signedMsg)], RunReports(f(req, ethAddress, msg, signedMsg)))
  {
  }

  /** With a falsy field, neither the recovery primitive nor `verify` has
      any say in the outcome. */
  lemma MissingCredentialsConsultsNothing(req: Request, options: AuthOptions, recover1: Recover, recover2: Recover,
                                          cb1: Callable<Verify>, cb2: Callable<Verify>)
    requires req.body.Some? && Decide(req.body.value, recover1) == NoCredentials
    ensures AuthTrace(req, options, recover1, cb1) == AuthTrace(req, options, recover2, cb2)
    ensures AuthTrace(req, options, recover1, cb1).calls == []
  {
  }

  /** After a mismatch, `verify` has no say in the outcome and is not
      called. */
  lemma MismatchNeverCallsVerify(req: Request, options: AuthOptions, recover: Recover,
                                 cb1: Callable<Verify>, cb2: Callable<Verify>)
    requires req.body.Some? && Decide(req.body.value, recover) == Mismatch
    ensures AuthTrace(req, options, recover, cb1) == AuthTrace(req, options, recover, cb2)
    ensures AuthTrace(req, options, recover, cb1).calls == []
  {
  }

  /** A `verify` that completes exactly once makes `authenticate` report
      exactly once. */
  lemma WellBehavedVerifyReportsOnce(req: Request, options: AuthOptions, recover: Recover, f: Verify)
    requires req.body.Some? && Decide(req.body.value, recover).Verified?
    requires var d := Decide(req.body.value, recover);
      WellBehaved(f(req, d.address, d.msg, d.signed))
    ensures |AuthTrace(req, options, recover, Function(f)).reports| == 1
  {
  }

  /** The `onUser` closure: each call reports once, through `fail`, `error`
      or `success`. */
  method OnUser(attempt: Attempt<Invocation>, d: DoneArgs)
    modifies attempt`reports
    ensures attempt.reports == old(attempt.reports) + [DoneReport(d)]
  {
    if Truthy(d.err) {
      attempt.Error(Thrown(d.err));
      return;
    }
    if !Truthy(d.user) {
      attempt.Fail(Info(d.info), None);
      return;
    }
    attempt.Success(d.user, d.info);
  }

  class Strategy {
    var name: string
    var verify: Callable<Verify>

    /** The part of the constructor after its argument check. */
    constructor (verify: Callable<Verify>)
      requires Provided(verify)
      ensures name == Name && this.verify == verify
    {
      this.verify := verify;
      name := Name;
    }

    /** `new Strategy(options, verify)`, including the TypeError it throws
        when no callback is given. */
    static method New(options: Callable<Verify>, verify: Callable<Verify>) returns (r: Result<Strategy, string>)
      ensures NormaliseCallback(options, verify).None? ==> r == Failure(MissingVerifyMessage)
      ensures NormaliseCallback(options, verify).Some? ==>
        r.Success? && fresh(r.value) && r.value.name == Name &&
        r.value.verify == NormaliseCallback(options, verify).value
    {
      var cb := verify;
      if options.Function? {
        cb := options;
      }
      if !Provided(cb) {
        return Failure(MissingVerifyMessage);
      }
      var s := new Strategy(cb);
      return Success(s);
    }

    /** `authenticate(req, options)`: reports through `attempt`, which also
        logs each call of `verify`. */
    method Authenticate(req: Request, options: AuthOptions, recover: Recover, attempt: Attempt<Invocation>)
      requires req.body.Some?
      modifies attempt
      ensures attempt.reports == old(attempt.reports) + AuthTrace(req, options, recover, verify).reports
      ensures attempt.calls == old(attempt.calls) + AuthTrace(req, options, recover, verify).calls
    {
      var ethAddress := Lookup(req.body.value, "ethAddress");
      var msg := Lookup(req.body.value, "msg");
      var signedMsg := Lookup(req.body.value, "signedMsg");
      if !Truthy(ethAddress) || !Truthy(msg) || !Truthy(signedMsg) {
        attempt.Fail(Message(MissingMessage(options)), Some(BadRequest));
        return;
      }
      var recovered := recover(msg, signedMsg);
      if !StrictEquals(recovered, ethAddress) {
        attempt.Fail(Message(Str(MismatchMessage)), Some(BadRequest));
        return;
      }
      if verify.NonFunction? {
        attempt.Error(NotCallable);
        return;
      }
      attempt.Invoked(VerifyCall(req, ethAddress, msg, signedMsg));
      var run := verify.f(req, ethAddress, msg, signedMsg);
      for i := 0 to |run.doneCalls|
        invariant attempt.reports == old(attempt.reports) + DoneReports(run.doneCalls[..i])
        invariant attempt.calls == old(attempt.calls) + [VerifyCall(req, ethAddress, msg, signedMsg)]
      {
        assert run.doneCalls[..i + 1][..i] == run.doneCalls[..i];
        OnUser(attempt, run.doneCalls[i]);
      }
      assert run.doneCalls[..|run.doneCalls|] == run.doneCalls;
      if run.thrown.Some? {
        attempt.Error(Thrown(run.thrown.value));
      }
    }
  }
}

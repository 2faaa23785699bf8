/** What the strategy sees of the passport framework: the request, the three
    report actions passport attaches to each authentication attempt
    (`fail`, `error`, `success`), and the protocol of the application
    callback's completion handle. Both versions of the strategy share it. */
module Passport {
  import opened Js

  /** An HTTP request as the strategy reads it: `req.body` and `req.query`,
      each a plain object or absent. */
  datatype Request = Request(body: Option<map<string, JsValue>>, query: Option<map<string, JsValue>>)

  /** The options object passed to `authenticate`; an absent option is
      `Undefined`. */
  datatype AuthOptions = AuthOptions(badRequestMessage: JsValue)

  const BadRequest: int := 400
  const MissingCredentials: string := "Missing credentials"

  /** `options.badRequestMessage || 'Missing credentials'`. */
  function MissingMessage(options: AuthOptions): (m: JsValue)
    ensures Truthy(m)
    ensures Truthy(options.badRequestMessage) ==> m == options.badRequestMessage
    ensures !Truthy(options.badRequestMessage) ==> m == Str(MissingCredentials)
  {
    Or(options.badRequestMessage, Str(MissingCredentials))
  }

  /** The first argument of `fail`: either an object literal
      `{ message: m }` built by the strategy, or the `info` the application
      passed to its completion handle, forwarded as it is. */
  datatype FailInfo = Message(message: JsValue) | Info(value: JsValue)

  /** What `error` receives: a value the application supplied or threw, or
      the TypeError raised when the stored callback is not a function. */
  datatype Exception = Thrown(value: JsValue) | NotCallable

  /** One call of `fail(info, status)`, `error(ex)` or `success(user, info)`;
      `status` is None when `fail` is called with one argument. */
  datatype Report =
    | Failed(detail: FailInfo, status: Option<int>)
    | Errored(ex: Exception)
    | Succeeded(user: JsValue, info: JsValue)

  /** The arguments of one call of the completion handle `(err, user, info)`. */
  datatype DoneArgs = DoneArgs(err: JsValue, user: JsValue, info: JsValue)

  /** What one synchronous run of the application callback does: the
      completion-handle calls it makes, in order, and the exception it ends
      with, if any. */
  datatype CallbackRun = CallbackRun(doneCalls: seq<DoneArgs>, thrown: Option<JsValue>)

  /** A callback that completes exactly once: one completion-handle call and
      no exception, or no completion-handle call and an exception. */
  predicate WellBehaved(run: CallbackRun) {
    (|run.doneCalls| == 1 && run.thrown.None?) || (run.doneCalls == [] && run.thrown.Some?)
  }

  /** The signature-recovery primitive `recoverPersonalSignature`, applied
      to the message (`data`) and the signature (`sig`). */
  type Recover = (JsValue, JsValue) -> JsValue

  /** What one call of `authenticate` did until the application callback
      returned or threw: the callback invocations and the reports. */
  datatype Trace<I> = Trace(calls: seq<I>, reports: seq<Report>)

  /** Where the credential check ends before the application is consulted. */
  datatype Decision =
    | NoCredentials
    | Mismatch
    | Verified(address: JsValue, msg: JsValue, signed: JsValue)

  /** The report one call of the completion handle produces: a truthy `err`
      is an error, else a falsy `user` is a failure carrying `info` and no
      status, else a success carrying `user` and `info`. */
  function DoneReport(d: DoneArgs): (r: Report)
    ensures r.Errored? <==> Truthy(d.err)
    ensures r.Errored? ==> r.ex == Thrown(d.err)
    ensures r.Failed? <==> !Truthy(d.err) && !Truthy(d.user)
    ensures r.Failed? ==> r.detail == Info(d.info) && r.status == None
    ensures r.Succeeded? ==> Truthy(d.user) && r.user == d.user && r.info == d.info
  {
    if Truthy(d.err) then Errored(Thrown(d.err))
    else if !Truthy(d.user) then Failed(Info(d.info), None)
    else Succeeded(d.user, d.info)
  }

  /** The reports of a series of completion-handle calls: one report per
      call, in the order of the calls. Nothing guards against a second
      call, so a second call gives a second report. */
  function DoneReports(calls: seq<DoneArgs>): (r: seq<Report>)
    ensures |r| == |calls|
    ensures forall i :: 0 <= i < |calls| ==> r[i] == DoneReport(calls[i])
  {
    if calls == [] then []
    else DoneReports(calls[..|calls| - 1]) + [DoneReport(calls[|calls| - 1])]
  }

  /** The reports produced while the callback runs inside the strategy's
      `try`: those of its completion-handle calls, then `error(ex)` when
      it throws `ex`. */
  function RunReports(run: CallbackRun): (r: seq<Report>)
    ensures |r| == |run.doneCalls| + (if run.thrown.Some? then 1 else 0)
    ensures forall i :: 0 <= i < |run.doneCalls| ==> r[i] == DoneReport(run.doneCalls[i])
    ensures run.thrown.Some? ==> r[|r| - 1] == Errored(Thrown(run.thrown.value))
  {
    DoneReports(run.doneCalls) + (if run.thrown.Some? then [Errored(Thrown(run.thrown.value))] else [])
  }

  /** A callback run yields exactly one report precisely when the callback
      completes exactly once. */
  lemma WellBehavedReportsOnce(run: CallbackRun)
    ensures |RunReports(run)| == 1 <==> WellBehaved(run)
  {
  }

  /** The constructor's argument handling, shared by both versions: a
      function in first position is the callback (and the options become
      `{}`); otherwise the second argument is the callback and must not be
      falsy. None stands for the constructor's TypeError. */
  function NormaliseCallback<F>(options: Callable<F>, cb: Callable<F>): (r: Option<Callable<F>>)
    ensures options.Function? ==> r == Some(options)
    ensures !options.Function? ==> (r.Some? <==> Provided(cb))
    ensures !options.Function? && r.Some? ==> r.value == cb
    ensures r.Some? ==> Provided(r.value)
  {
    if options.Function? then Some(options)
    else if Provided(cb) then Some(cb)
    else None
  }

  /** Constructing with a bare function is the same as constructing with an
      options object and that function. */
  lemma BareCallbackIsEmptyOptions<F>(f: F, ignored: Callable<F>, options: nat)
    ensures NormaliseCallback(Function(f), ignored) == NormaliseCallback(NonFunction(Obj(options)), Function(f))
  {
  }

  /** The authentication attempt passport creates for one request: the
      strategy reports through it, and the model also logs each call of the
      application callback here. */
  class Attempt<I> {
    var reports: seq<Report>
    var calls: seq<I>

    constructor ()
      ensures reports == [] && calls == []
    {
      reports := [];
      calls := [];
    }

    method Fail(info: FailInfo, status: Option<int>)
      modifies this`reports
      ensures reports == old(reports) + [Failed(info, status)]
    {
      reports := reports + [Failed(info, status)];
    }

    method Error(ex: Exception)
      modifies this`reports
      ensures reports == old(reports) + [Errored(ex)]
    {
      reports := reports + [Errored(ex)];
    }

    method Success(user: JsValue, info: JsValue)
      modifies this`reports
      ensures reports == old(reports) + [Succeeded(user, info)]
    {
      reports := reports + [Succeeded(user, info)];
    }

    /** Logs that the application callback was entered with `call`. */
    method Invoked(call: I)
      modifies this`calls
      ensures calls == old(calls) + [call]
    {
      calls := calls + [call];
    }
  }
}

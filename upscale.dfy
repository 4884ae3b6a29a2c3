/** The upscale route of app/api/upscale/route.ts: the guard sequence of a submission, the
    job record it creates together with the debit of the per-upscale cost, and `processJob`,
    which runs later and ends the job either `done` with a stored output or `failed` with a
    refund. The job table is the map `jobs`; the provider, the download and the storage
    `send` are parameters. */
module Upscale {
  import opened Common
  import opened Router
  import opened Credits
  import opened Storage
  import opened Extension
  import Fal

  datatype JobStatus = Processing | Done | Failed

  /** A row of the upscale job table. */
  datatype Job = Job(id: string, userId: UserId, category: Category, provider: ProviderName,
                     status: JobStatus, inputUrl: string, scale: int, creditsUsed: int,
                     outputUrl: Option<string>, errorMsg: Option<string>,
                     createdAt: Time, completedAt: Option<Time>)

  /** The `scale` field of the body: absent (defaulted to 4), a whole number, or any other
      JSON value (a string, null, a fraction, ...). */
  datatype ScaleField = ScaleAbsent | ScaleNumber(n: int) | ScaleOther

  /** The body `{ inputUrl, category, scale }`; an absent or non-string field is None. */
  datatype UpscaleBody = UpscaleBody(inputUrl: Option<string>, category: Option<string>, scale: ScaleField)

  const InputUrlRequired := HttpError(400, "inputUrl is required")
  const InvalidCategory := HttpError(400, "Invalid category")
  const InvalidScale := HttpError(400, "Scale must be 2 or 4")
  const PaymentRequired := HttpError(402, "Insufficient credits. Please purchase more.")

  /** A request that passed the guards that need no state. */
  datatype Submission = Submission(userId: UserId, inputUrl: string, category: Category, scale: int)

  /** The scale after the default `scale = 4`, as the number to check; None for a non-number. */
  function EffectiveScale(s: ScaleField): (r: Option<int>)
    ensures s.ScaleAbsent? ==> r == Some(4)
    ensures s.ScaleNumber? ==> r == Some(s.n)
    ensures s.ScaleOther? ==> r.None?
  {
    match s
    case ScaleAbsent => Some(4)
    case ScaleNumber(n) => Some(n)
    case ScaleOther => None
  }

  /** The stateless guards, in the order the route runs them: the session, then `inputUrl`
      (a non-empty string), then the category, then the scale. */
  function ValidateSubmission(userId: Option<UserId>, body: UpscaleBody): (r: Result<Submission, HttpError>)
    ensures (userId.None? || userId == Some("")) ==> r == Err(Unauthorized)
    ensures SignedIn(userId) && (body.inputUrl.None? || body.inputUrl == Some("")) ==> r == Err(InputUrlRequired)
    ensures SignedIn(userId) && body.inputUrl.Some? && body.inputUrl != Some("")
            && (body.category.None? || ParseCategory(body.category.value).None?)
            ==> r == Err(InvalidCategory)
    ensures SignedIn(userId) && body.inputUrl.Some? && body.inputUrl != Some("")
            && body.category.Some? && ParseCategory(body.category.value).Some?
            && EffectiveScale(body.scale) != Some(2) && EffectiveScale(body.scale) != Some(4)
            ==> r == Err(InvalidScale)
    ensures r.Ok? <==> && SignedIn(userId)
                       && body.inputUrl.Some? && body.inputUrl.value != ""
                       && body.category.Some? && ParseCategory(body.category.value).Some?
                       && (EffectiveScale(body.scale) == Some(2) || EffectiveScale(body.scale) == Some(4))
    ensures r.Ok? ==> && userId == Some(r.value.userId) && r.value.userId != ""
                      && body.inputUrl == Some(r.value.inputUrl) && r.value.inputUrl != ""
                      && body.category == Some(CategoryName(r.value.category))
                      && (r.value.scale == 2 || r.value.scale == 4)
                      && EffectiveScale(body.scale) == Some(r.value.scale)
  {
    if !SignedIn(userId) then Err(Unauthorized)
    else if body.inputUrl.None? || body.inputUrl.value == "" then Err(InputUrlRequired)
    else if body.category.None? || ParseCategory(body.category.value).None? then Err(InvalidCategory)
    else
      var scale := EffectiveScale(body.scale);
      if scale != Some(2) && scale != Some(4) then Err(InvalidScale)
      else Ok(Submission(userId.value, body.inputUrl.value, ParseCategory(body.category.value).value, scale.value))
  }

  /** An absent scale is taken as 4. */
  lemma AbsentScaleIsFour(u: UserId, url: string, c: Category)
    requires u != "" && url != ""
    ensures ValidateSubmission(Some(u), UpscaleBody(Some(url), Some(CategoryName(c)), ScaleAbsent))
            == Ok(Submission(u, url, c, 4))
  {
    ParseCategoryName(c);
  }

  /** The job record created for an accepted submission. */
  function NewJob(id: string, sub: Submission, now: Time): (j: Job)
    ensures j.status == Processing && j.provider == GetProviderForCategory(sub.category).primary
    ensures j.creditsUsed == CreditsPerUpscale
    ensures && j.id == id && j.userId == sub.userId && j.category == sub.category
            && j.inputUrl == sub.inputUrl && j.scale == sub.scale && j.createdAt == now
            && j.outputUrl.None? && j.errorMsg.None? && j.completedAt.None?
  {
    Job(id, sub.userId, sub.category, GetProviderForCategory(sub.category).primary, Processing,
        sub.inputUrl, sub.scale, 4, None, None, now, None)
  }

  /** What fetching the provider's output URL gave: a throw, or the `content-type` header
      (absent or present) and the body. */
  datatype Download = FetchThrew(error: Thrown) | Fetched(contentType: Option<string>, body: seq<byte>)

  datatype PreparedOutput = PreparedOutput(key: string, body: seq<byte>, contentType: string)

  const DefaultContentType := "image/png"

  /** The steps of `processJob` before the storage upload: upscale with fal (whatever
      provider the job recorded), download the result, take its content type (default
      image/png), derive the extension and the output key. Any throw is the error. */
  function PrepareOutput(userId: UserId, inputUrl: string, category: Category, scale: int,
                         subscribe: (string, Fal.FalRequest) -> Fal.FalCall, fetch: string -> Download,
                         fileId: string): (r: Result<PreparedOutput, Thrown>)
    ensures var up := Fal.UpscaleWithFal(Fal.FalInput(inputUrl, CategoryName(category), scale), subscribe);
            && (up.Err? ==> r == Err(up.error))
            && (up.Ok? && fetch(up.value).FetchThrew? ==> r == Err(fetch(up.value).error))
            && (r.Ok? ==> && up.Ok? && fetch(up.value).Fetched?
                          && r.value.body == fetch(up.value).body
                          && r.value.contentType == fetch(up.value).contentType.GetOr(DefaultContentType)
                          && ExtensionOf(r.value.contentType).Ok?
                          && r.value.key == GetStorageKey(userId, fileId + "." + ExtensionOf(r.value.contentType).value, Output))
            && (up.Ok? && fetch(up.value).Fetched? ==>
                  (r.Err? <==> '/' !in fetch(up.value).contentType.GetOr(DefaultContentType)))
            && (up.Ok? && fetch(up.value).Fetched? && '/' !in fetch(up.value).contentType.GetOr(DefaultContentType) ==>
                  r == Err(ErrorObject(NoSubtypeMessage)))
  {
    match Fal.UpscaleWithFal(Fal.FalInput(inputUrl, CategoryName(category), scale), subscribe)
    case Err(e) => Err(e)
    case Ok(url) =>
      match fetch(url)
      case FetchThrew(e) => Err(e)
      case Fetched(header, body) =>
        var contentType := header.GetOr(DefaultContentType);
        match ExtensionOf(contentType)
        case Err(e) => Err(e)
        case Ok(ext) => Ok(PreparedOutput(GetStorageKey(userId, fileId + "." + ext, Output), body, contentType))
  }

  /** The provider called is fal, with the fal model of the category and the scale sent as
      both fields, for every category, including those routed to claid. */
  lemma UpscaleAlwaysUsesFal(userId: UserId, inputUrl: string, category: Category, scale: int,
                             subscribe: (string, Fal.FalRequest) -> Fal.FalCall, fetch: string -> Download, fileId: string)
    requires PrepareOutput(userId, inputUrl, category, scale, subscribe, fetch, fileId).Ok?
    ensures subscribe(Fal.ModelFor(CategoryName(category)), Fal.FalRequest(inputUrl, scale, scale)).FalReturned?
  {
  }

  /** The output key reads back as `output/<userId>/<fileId>.<ext>`, with the extension of
      the stored content type. */
  lemma OutputKeyShape(userId: UserId, inputUrl: string, category: Category, scale: int,
                       subscribe: (string, Fal.FalRequest) -> Fal.FalCall, fetch: string -> Download, fileId: string)
    requires '/' !in userId
    requires PrepareOutput(userId, inputUrl, category, scale, subscribe, fetch, fileId).Ok?
    ensures var out := PrepareOutput(userId, inputUrl, category, scale, subscribe, fetch, fileId).value;
            ParseStorageKey(out.key) == Some(KeyParts(Output, userId, fileId + "." + ExtensionOf(out.contentType).value))
  {
    var out := PrepareOutput(userId, inputUrl, category, scale, subscribe, fetch, fileId).value;
    StorageKeyRoundTrip(userId, fileId + "." + ExtensionOf(out.contentType).value, Output);
  }

  /** A job in the table: keyed by its id, with a valid scale, the fixed cost, the primary
      provider of its category; processing jobs carry no result, done ones an output URL
      and a completion time, failed ones an error message. */
  ghost predicate WellFormedJob(id: string, j: Job) {
    && j.id == id
    && (j.scale == 2 || j.scale == 4)
    && j.creditsUsed == CreditsPerUpscale
    && j.provider == GetProviderForCategory(j.category).primary
    && (j.status == Processing ==> j.outputUrl.None? && j.errorMsg.None? && j.completedAt.None?)
    && (j.status == Done ==> j.outputUrl.Some? && j.completedAt.Some?)
    && (j.status == Failed ==> j.errorMsg.Some?)
  }

  datatype SubmitResponse = SubmitRejected(error: HttpError) | SubmitAccepted(jobId: string, status: string)

  class UpscaleService {
    const ledger: Ledger
    const spaces: Spaces
    var jobs: map<string, Job>

    ghost predicate Valid()
      reads this, ledger
    {
      && ledger.Valid()
      && forall id :: id in jobs ==> WellFormedJob(id, jobs[id])
    }

    constructor (ledger: Ledger, spaces: Spaces)
      requires ledger.Valid()
      ensures Valid()
      ensures this.ledger == ledger && this.spaces == spaces && jobs == map[]
    {
      this.ledger := ledger;
      this.spaces := spaces;
      jobs := map[];
    }

    /** `POST /api/upscale`. `newJobId` is the id the database gives the new job row. */
    method Submit(userId: Option<UserId>, body: UpscaleBody, newJobId: string, now: Time) returns (resp: SubmitResponse)
      requires Valid()
      requires newJobId !in jobs
      modifies this, ledger
      ensures Valid()
      ensures ValidateSubmission(userId, body).Err? ==>
                && resp == SubmitRejected(ValidateSubmission(userId, body).error)
                && jobs == old(jobs) && ledger.State() == old(ledger.State())
      ensures ValidateSubmission(userId, body).Ok? ==>
                var sub := ValidateSubmission(userId, body).value;
                if !HasEnoughCredits(CreditsOf(old(ledger.State()), sub.userId)) then
                  && resp == SubmitRejected(PaymentRequired)
                  && jobs == old(jobs) && ledger.State() == old(ledger.State())
                else
                  && resp == SubmitAccepted(newJobId, "processing")
                  && jobs == old(jobs)[newJobId := NewJob(newJobId, sub, now)]
                  && Debit(old(ledger.State()), sub.userId, CreditsPerUpscale, newJobId).Ok?
                  && ledger.State() == Debit(old(ledger.State()), sub.userId, CreditsPerUpscale, newJobId).value
    {
      var checked := ValidateSubmission(userId, body);
      if checked.Err? {
        return SubmitRejected(checked.error);
      }
      var sub := checked.value;
      var credits := ledger.GetUserCredits(sub.userId);
      if !HasEnoughCredits(credits) {
        return SubmitRejected(PaymentRequired);
      }
      jobs := jobs[newJobId := NewJob(newJobId, sub, now)];
      var debited := ledger.DeductCredits(sub.userId, CreditsPerUpscale, newJobId);
      // the balance check above is exactly what makes the debit succeed
      assert debited.Ok?;
      resp := SubmitAccepted(newJobId, "processing");
    }

    /** `processJob`: after a successful upscale, download and upload, the job becomes done
        with the stored object's public URL; after a failure at any step it becomes failed
        with the error's message and the cost is credited back as a refund of that job. */
    method ProcessJob(jobId: string, userId: UserId, inputUrl: string, category: Category, scale: int,
                      provider: ProviderName, fallbackProvider: ProviderName,
                      subscribe: (string, Fal.FalRequest) -> Fal.FalCall, fetch: string -> Download,
                      fileId: string, sendError: Option<Thrown>, now: Time)
      requires Valid()
      requires jobId in jobs
      modifies this, ledger, spaces
      ensures Valid()
      ensures var out := PrepareOutput(userId, inputUrl, category, scale, subscribe, fetch, fileId);
              if out.Ok? && sendError.None? then
                && jobs == old(jobs)[jobId := old(jobs)[jobId].(status := Done,
                                                                outputUrl := Some(GetPublicUrl(spaces.config, out.value.key)),
                                                                completedAt := Some(now))]
                && spaces.objects == old(spaces.objects)[out.value.key := SpacesObject(out.value.body, out.value.contentType, true)]
                && ledger.State() == old(ledger.State())
              else
                var err := if out.Err? then out.error else sendError.value;
                var refund := Credit(old(ledger.State()), userId, CreditsPerUpscale, Refund, None, Some(jobId));
                && jobs == old(jobs)[jobId := old(jobs)[jobId].(status := Failed, errorMsg := Some(ErrorMessage(err)))]
                && spaces.objects == old(spaces.objects)
                && (refund.Ok? ==> ledger.State() == refund.value)
                && (refund.Err? ==> ledger.State() == old(ledger.State()))
    {
      var out := PrepareOutput(userId, inputUrl, category, scale, subscribe, fetch, fileId);
      if out.Ok? {
        var stored := spaces.UploadToSpaces(out.value.key, out.value.body, out.value.contentType, sendError);
        if stored.Ok? {
          jobs := jobs[jobId := jobs[jobId].(status := Done, outputUrl := Some(stored.value), completedAt := Some(now))];
          return;
        }
        FailJob(jobId, userId, stored.error);
      } else {
        FailJob(jobId, userId, out.error);
      }
    }

    /** The `catch` of `processJob`: the job is marked failed with the error's message and
        the cost is credited back as a refund of that job. */
    method FailJob(jobId: string, userId: UserId, err: Thrown)
      requires Valid()
      requires jobId in jobs
      modifies this, ledger
      ensures Valid()
      ensures jobs == old(jobs)[jobId := old(jobs)[jobId].(status := Failed, errorMsg := Some(ErrorMessage(err)))]
      ensures var refund := Credit(old(ledger.State()), userId, CreditsPerUpscale, Refund, None, Some(jobId));
              && (refund.Ok? ==> ledger.State() == refund.value)
              && (refund.Err? ==> ledger.State() == old(ledger.State()))
    {
      jobs := jobs[jobId := jobs[jobId].(status := Failed, errorMsg := Some(ErrorMessage(err)))];
      var refunded := ledger.AddCredits(userId, CreditsPerUpscale, Refund, None, Some(jobId));
    }

    /** A submission followed by the job it launches: an accepted job that fails leaves the
        owner's balance where it was, with its debit and its refund in the log; one that
        succeeds costs exactly the per-upscale amount. */
    method SubmitAndRun(userId: Option<UserId>, body: UpscaleBody, newJobId: string, now: Time,
                        subscribe: (string, Fal.FalRequest) -> Fal.FalCall, fetch: string -> Download,
                        fileId: string, sendError: Option<Thrown>, later: Time) returns (resp: SubmitResponse)
      requires Valid()
      requires newJobId !in jobs
      modifies this, ledger, spaces
      ensures Valid()
      ensures resp.SubmitRejected? ==> ledger.State() == old(ledger.State()) && jobs == old(jobs)
      ensures resp.SubmitAccepted? ==>
                ValidateSubmission(userId, body).Ok? &&
                var u := ValidateSubmission(userId, body).value.userId;
                && resp.jobId == newJobId && newJobId in jobs && jobs[newJobId].status != Processing
                && u in old(ledger.balances)
                && (jobs[newJobId].status == Failed ==>
                      && ledger.balances == old(ledger.balances)
                      && ledger.log == old(ledger.log) + [Txn(u, -CreditsPerUpscale, Usage, None, Some(newJobId)),
                                                          Txn(u, CreditsPerUpscale, Refund, None, Some(newJobId))])
                && (jobs[newJobId].status == Done ==>
                      && ledger.balances == old(ledger.balances)[u := old(ledger.balances)[u] - CreditsPerUpscale]
                      && ledger.log == old(ledger.log) + [Txn(u, -CreditsPerUpscale, Usage, None, Some(newJobId))])
    {
      ghost var s0 := ledger.State();
      resp := Submit(userId, body, newJobId, now);
      if resp.SubmitAccepted? {
        var job := jobs[newJobId];
        assert Debit(s0, job.userId, CreditsPerUpscale, newJobId).Ok?;
        DebitThenRefundNetZero(s0, job.userId, newJobId);
        ProcessJob(newJobId, job.userId, job.inputUrl, job.category, job.scale, job.provider,
                   GetProviderForCategory(job.category).fallback, subscribe, fetch, fileId, sendError, later);
      }
    }
  }
}

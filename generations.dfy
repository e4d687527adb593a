/**
 * The generation server actions: signing upload URLs for background images,
 * admitting and recording a generation request and starting its workflow,
 * and reporting the monthly quota. The auth user, database query results,
 * storage signing, public-URL derivation, the workflow HTTP exchange and
 * the clock are parameters.
 */
module Generations {
  import opened Common
  import opened Validations
  import opened GenerationData
  import Admin
  import N8nClient
  import Portraits

  // ---------------------------------------------------------------------------
  // createBackgroundUploadUrls

  datatype UploadUrl = UploadUrl(path: string, signedUrl: string)

  /** `${user.id}/${timestamp}-${i}.jpg` */
  function UploadPath(userId: string, timestamp: nat, i: nat): (path: string)
    ensures StartsWith(path, userId + "/")
  {
    userId + "/" + NatToString(timestamp) + "-" + NatToString(i) + ".jpg"
  }

  /** Two indexes of one batch never share a path. */
  lemma UploadPathsDistinct(userId: string, timestamp: nat, i: nat, j: nat)
    requires i != j
    ensures UploadPath(userId, timestamp, i) != UploadPath(userId, timestamp, j)
  {
    var prefix := userId + "/" + NatToString(timestamp) + "-";
    var a, b := NatToString(i) + ".jpg", NatToString(j) + ".jpg";
    assert UploadPath(userId, timestamp, i) == prefix + a;
    assert UploadPath(userId, timestamp, j) == prefix + b;
    if prefix + a == prefix + b {
      assert a == (prefix + a)[|prefix|..];
      assert b == (prefix + b)[|prefix|..];
      assert NatToString(i) == a[..|a| - 4];
      assert NatToString(j) == b[..|b| - 4];
      NatToStringInjective(i, j);
    }
  }

  const UploadCountRange := "Must request between 1 and 7 upload URLs"
  const UploadUrlFailed := "Failed to create upload URL: "

  /** `createBackgroundUploadUrls(count)`: `sign(path)` is the storage
      service's answer for one path, a signed URL or an error message. */
  method CreateBackgroundUploadUrls(user: Option<AuthUser>, count: int, timestamp: nat,
                                    sign: string -> Result<string, string>)
    returns (r: Result<seq<UploadUrl>, string>)
    ensures user.None? ==> r == Err(NotAuthenticated)
    ensures user.Some? && (count < 1 || count > MaxBackgrounds) ==> r == Err(UploadCountRange)
    ensures r.Ok? ==>
              && user.Some? && 1 <= count <= MaxBackgrounds && |r.value| == count
              && forall i :: 0 <= i < count ==>
                   && r.value[i].path == UploadPath(user.value.id, timestamp, i)
                   && sign(r.value[i].path) == Ok(r.value[i].signedUrl)
    ensures (user.Some? && 1 <= count <= MaxBackgrounds) ==>
              (r.Err? <==> exists i :: 0 <= i < count && sign(UploadPath(user.value.id, timestamp, i)).Err?)
    ensures (user.Some? && 1 <= count <= MaxBackgrounds && r.Err?) ==>
              exists i :: 0 <= i < count
                && (forall j :: 0 <= j < i ==> sign(UploadPath(user.value.id, timestamp, j)).Ok?)
                && sign(UploadPath(user.value.id, timestamp, i)).Err?
                && r.error == UploadUrlFailed + sign(UploadPath(user.value.id, timestamp, i)).error
  {
    if user.None? {
      return Err(NotAuthenticated);
    }
    if count < 1 || count > MaxBackgrounds {
      return Err(UploadCountRange);
    }
    var uid := user.value.id;
    var urls: seq<UploadUrl> := [];
    var i := 0;
    while i < count
      invariant 0 <= i <= count
      invariant |urls| == i
      invariant forall k :: 0 <= k < i ==>
                  urls[k].path == UploadPath(uid, timestamp, k) && sign(urls[k].path) == Ok(urls[k].signedUrl)
    {
      var path := UploadPath(uid, timestamp, i);
      var signed := sign(path);
      if signed.Err? {
        return Err(UploadUrlFailed + signed.error);
      }
      urls := urls + [UploadUrl(path, signed.value)];
      i := i + 1;
    }
    r := Ok(urls);
  }

  /** The paths handed out in one successful call are pairwise distinct and
      all lie under the caller's folder. */
  lemma UploadUrlsDistinct(userId: string, timestamp: nat, urls: seq<UploadUrl>)
    requires forall i :: 0 <= i < |urls| ==> urls[i].path == UploadPath(userId, timestamp, i)
    ensures forall i, j :: 0 <= i < j < |urls| ==> urls[i].path != urls[j].path
    ensures forall i :: 0 <= i < |urls| ==> StartsWith(urls[i].path, userId + "/")
  {
    forall i, j | 0 <= i < j < |urls|
      ensures urls[i].path != urls[j].path
    {
      UploadPathsDistinct(userId, timestamp, i, j);
    }
  }

  // ---------------------------------------------------------------------------
  // createGeneration: the checks before anything is written

  /** The month-to-date count query: an error, or a count that may be null. */
  datatype CountResult = CountError | Counted(count: Option<nat>)

  const QuotaCheckFailed := "Failed to check quota"
  const PortraitNotFound := "Portrait not found"

  /** `Monthly limit reached (${limit} generations). Upgrade to continue.` */
  function LimitReached(limit: nat): string
  {
    "Monthly limit reached (" + NatToString(limit) + " generations). Upgrade to continue."
  }

  /** JavaScript `count ?? 0` */
  function CountOrZero(c: Option<nat>): (n: nat)
    ensures c.Some? ==> n == c.value
    ensures c.None? ==> n == 0
  {
    if c.Some? then c.value else 0
  }

  /** What the checks let through: the caller and the portrait they own. */
  datatype Admitted = Admitted(user: AuthUser, portrait: Portraits.Portrait)

  /** Authentication, then the schema, then the monthly quota (skipped for
      the administrator), then portrait ownership; the first failing check
      decides the error. `portraitRows` is the portraits table and
      `portraitLookupFailed` whether the ownership query itself errored. */
  function Admit(user: Option<AuthUser>, adminEmail: Option<string>, input: CreateGenerationInput,
                 isUuid: string -> bool, limit: nat, monthCount: CountResult,
                 portraitRows: seq<Portraits.Portrait>, portraitLookupFailed: bool)
    : (r: Result<Admitted, string>)
    ensures user.None? ==> r == Err(NotAuthenticated)
    ensures user.Some? && ParseCreateGeneration(input, isUuid).Err? ==>
              r == Err(ParseCreateGeneration(input, isUuid).error)
    ensures (user.Some? && ValidCreateGeneration(input, isUuid)
             && !Admin.IsAdmin(user.value.email, adminEmail)) ==>
              && (monthCount.CountError? ==> r == Err(QuotaCheckFailed))
              && (monthCount.Counted? && CountOrZero(monthCount.count) >= limit ==> r == Err(LimitReached(limit)))
    ensures r.Ok? <==>
              && user.Some?
              && ValidCreateGeneration(input, isUuid)
              && (Admin.IsAdmin(user.value.email, adminEmail)
                  || (monthCount.Counted? && CountOrZero(monthCount.count) < limit))
              && !portraitLookupFailed
              && Portraits.FindOwned(portraitRows, input.portraitId, user.value.id).Some?
    ensures r.Ok? ==> r.value.user == user.value
                      && r.value.portrait.id == input.portraitId
                      && r.value.portrait.userId == user.value.id
                      && r.value.portrait in portraitRows
    ensures (r.Err? && user.Some? && ValidCreateGeneration(input, isUuid)
             && (Admin.IsAdmin(user.value.email, adminEmail)
                 || (monthCount.Counted? && CountOrZero(monthCount.count) < limit))) ==>
              r == Err(PortraitNotFound)
  {
    if user.None? then Err(NotAuthenticated)
    else
      var parsed := ParseCreateGeneration(input, isUuid);
      if parsed.Err? then Err(parsed.error)
      else if !Admin.IsAdmin(user.value.email, adminEmail) && monthCount.CountError? then Err(QuotaCheckFailed)
      else if !Admin.IsAdmin(user.value.email, adminEmail) && CountOrZero(monthCount.count) >= limit then
        Err(LimitReached(limit))
      else
        var found := Portraits.FindOwned(portraitRows, input.portraitId, user.value.id);
        if portraitLookupFailed || found.None? then Err(PortraitNotFound)
        else Ok(Admitted(user.value, found.value))
  }

  /** The administrator is never refused for quota, whatever the count. */
  lemma AdminSkipsQuota(user: AuthUser, adminEmail: Option<string>, input: CreateGenerationInput,
                        isUuid: string -> bool, limit: nat, c1: CountResult, c2: CountResult,
                        portraitRows: seq<Portraits.Portrait>, portraitLookupFailed: bool)
    requires Admin.IsAdmin(user.email, adminEmail)
    ensures Admit(Some(user), adminEmail, input, isUuid, limit, c1, portraitRows, portraitLookupFailed)
         == Admit(Some(user), adminEmail, input, isUuid, limit, c2, portraitRows, portraitLookupFailed)
  {
  }

  // ---------------------------------------------------------------------------
  // createGeneration: insert, trigger, status update

  /** The insert's answer: the new row's id, or an error whose message may be absent. */
  datatype InsertOutcome = Inserted(id: string) | InsertFailed(message: Option<string>)

  const CreateFailed := "Failed to create generation"
  const StartFailed := "Failed to start thumbnail generation. Please try again."

  /** `${NEXT_PUBLIC_APP_URL}/api/webhooks/n8n-callback`; an unset variable
      renders as "undefined". */
  function CallbackUrl(appUrl: Option<string>): (url: string)
    ensures appUrl.Some? ==> StartsWith(url, appUrl.value)
  {
    Coalesce(appUrl, "undefined") + "/api/webhooks/n8n-callback"
  }

  /** The row as inserted: pending, no progress, queued. */
  function NewGeneration(id: string, a: Admitted, input: CreateGenerationInput): (g: Generation)
    ensures g.status == Pending && g.progress == 0 && g.currentStep == Some("Queued")
    ensures g.backgroundCount == |input.backgroundPaths|
    ensures g.id == id && g.userId == a.user.id && g.portraitId == input.portraitId
    ensures g.portraitUrl == a.portrait.publicUrl && g.keywords == input.keywords
  {
    Generation(id, a.user.id, input.portraitId, a.portrait.publicUrl, input.keywords,
               |input.backgroundPaths|, Pending, 0, Some("Queued"), 0, None, None, None)
  }

  /** The payload the workflow is triggered with. */
  function TriggerPayloadFor(id: string, a: Admitted, input: CreateGenerationInput,
                             publicUrlOf: string -> string, appUrl: Option<string>)
    : (p: N8nClient.TriggerPayload)
    ensures p.generationId == id && p.portraitUrl == a.portrait.publicUrl && p.keywords == input.keywords
    ensures |p.backgroundUrls| == |input.backgroundPaths|
    ensures forall i :: 0 <= i < |input.backgroundPaths| ==> p.backgroundUrls[i] == publicUrlOf(input.backgroundPaths[i])
    ensures p.callbackUrl == CallbackUrl(appUrl)
  {
    var urls := seq(|input.backgroundPaths|, i requires 0 <= i < |input.backgroundPaths| => publicUrlOf(input.backgroundPaths[i]));
    N8nClient.TriggerPayload(id, a.portrait.publicUrl, urls, input.keywords, CallbackUrl(appUrl))
  }

  /** The row after the workflow call: processing with a start time when the
      trigger returned, failed with the thrown message when it threw. */
  function AfterTrigger(g: Generation, result: N8nClient.TriggerResult, now: int): (h: Generation)
    ensures result.Returned? ==>
              h == g.(status := Processing, currentStep := Some("Starting workflow"), startedAt := Some(now))
    ensures result.Threw? ==> h == g.(status := Failed, errorMessage := Some(result.message))
    ensures h.id == g.id && h.progress == g.progress
  {
    match result
    case Returned(_) => g.(status := Processing, currentStep := Some("Starting workflow"), startedAt := Some(now))
    case Threw(message) => g.(status := Failed, errorMessage := Some(message))
  }

  /** `createGeneration(input)`. `statusWriteApplied` is whether the
      unchecked status update after the trigger reached the table. */
  method CreateGeneration(db: GenerationTables,
                          user: Option<AuthUser>, adminEmail: Option<string>,
                          input: CreateGenerationInput, isUuid: string -> bool,
                          limit: nat, monthCount: CountResult,
                          portraitRows: seq<Portraits.Portrait>, portraitLookupFailed: bool,
                          publicUrlOf: string -> string, insert: InsertOutcome,
                          appUrl: Option<string>, webhookUrl: Option<string>,
                          fetch: N8nClient.FetchOutcome, statusWriteApplied: bool, now: int)
    returns (r: Result<string, string>, run: Option<N8nClient.TriggerRun>)
    requires db.Valid()
    requires insert.Inserted? ==> insert.id !in db.generations
    modifies db`generations
    ensures db.Valid()
    ensures Admit(user, adminEmail, input, isUuid, limit, monthCount, portraitRows, portraitLookupFailed).Err? ==>
              && r == Err(Admit(user, adminEmail, input, isUuid, limit, monthCount, portraitRows, portraitLookupFailed).error)
              && run.None? && db.generations == old(db.generations)
    ensures (Admit(user, adminEmail, input, isUuid, limit, monthCount, portraitRows, portraitLookupFailed).Ok?
             && insert.InsertFailed?) ==>
              && r == Err(Coalesce(insert.message, CreateFailed))
              && run.None? && db.generations == old(db.generations)
    ensures (Admit(user, adminEmail, input, isUuid, limit, monthCount, portraitRows, portraitLookupFailed).Ok?
             && insert.Inserted?) ==>
              var a := Admit(user, adminEmail, input, isUuid, limit, monthCount, portraitRows, portraitLookupFailed).value;
              var g := NewGeneration(insert.id, a, input);
              var t := N8nClient.TriggerWorkflow(webhookUrl, TriggerPayloadFor(insert.id, a, input, publicUrlOf, appUrl), fetch);
              && run == Some(t)
              && db.generations == old(db.generations)[insert.id := if statusWriteApplied then AfterTrigger(g, t.result, now) else g]
              && (t.result.Returned? ==> r == Ok(insert.id))
              && (t.result.Threw? ==> r == Err(StartFailed))
  {
    var admitted := Admit(user, adminEmail, input, isUuid, limit, monthCount, portraitRows, portraitLookupFailed);
    if admitted.Err? {
      return Err(admitted.error), None;
    }
    var a := admitted.value;
    if insert.InsertFailed? {
      return Err(Coalesce(insert.message, CreateFailed)), None;
    }
    var id := insert.id;
    var g := NewGeneration(id, a, input);
    db.generations := db.generations[id := g];
    var payload := TriggerPayloadFor(id, a, input, publicUrlOf, appUrl);
    var t := N8nClient.TriggerWorkflow(webhookUrl, payload, fetch);
    run := Some(t);
    if statusWriteApplied {
      db.generations := db.generations[id := AfterTrigger(g, t.result, now)];
    }
    if t.result.Threw? {
      r := Err(StartFailed);
    } else {
      r := Ok(id);
    }
  }

  /** The status a new row is left in is the pending state or one of its two
      successors, and the action reports success exactly when the row is
      processing (once the status write has landed). */
  lemma CreatedStatus(g: Generation, result: N8nClient.TriggerResult, now: int)
    requires g.status == Pending
    ensures AfterTrigger(g, result, now).status == Processing <==> result.Returned?
    ensures AfterTrigger(g, result, now).status == Failed <==> result.Threw?
  {
  }

  /** With no workflow URL configured the trigger throws, so the new row is
      marked failed and the action returns the generic error. */
  lemma UnconfiguredWorkflowFails(g: Generation, p: N8nClient.TriggerPayload, fetch: N8nClient.FetchOutcome,
                                  webhookUrl: Option<string>, now: int)
    requires !Truthy(webhookUrl)
    ensures AfterTrigger(g, N8nClient.TriggerWorkflow(webhookUrl, p, fetch).result, now)
         == g.(status := Failed, errorMessage := Some(N8nClient.NotConfigured))
  {
  }

  // ---------------------------------------------------------------------------
  // getGenerationQuota

  datatype Limit = Unlimited | Limited(n: nat)

  datatype Quota = Quota(used: nat, limit: Limit, isAdmin: bool)

  const QuotaFailed := "Failed to get quota"

  /** `getGenerationQuota()`: the administrator's limit is unbounded; the
      count is read for everyone. */
  function GenerationQuota(user: Option<AuthUser>, adminEmail: Option<string>, limit: nat, monthCount: CountResult)
    : (r: Result<Quota, string>)
    ensures user.None? ==> r == Err(NotAuthenticated)
    ensures user.Some? && monthCount.CountError? ==> r == Err(QuotaFailed)
    ensures r.Ok? <==> user.Some? && monthCount.Counted?
    ensures r.Ok? ==>
              && r.value.used == CountOrZero(monthCount.count)
              && r.value.isAdmin == Admin.IsAdmin(user.value.email, adminEmail)
              && (r.value.limit == Unlimited <==> r.value.isAdmin)
              && (!r.value.isAdmin ==> r.value.limit == Limited(limit))
  {
    if user.None? then Err(NotAuthenticated)
    else if monthCount.CountError? then Err(QuotaFailed)
    else
      var admin := Admin.IsAdmin(user.value.email, adminEmail);
      Ok(Quota(CountOrZero(monthCount.count), if admin then Unlimited else Limited(limit), admin))
  }

  /** The quota report and the admission check agree: a non-administrator
      whose count read succeeds is refused for quota exactly when the report
      shows the limit used up. */
  lemma QuotaReportMatchesAdmission(user: AuthUser, adminEmail: Option<string>, input: CreateGenerationInput,
                                    isUuid: string -> bool, limit: nat, monthCount: CountResult,
                                    portraitRows: seq<Portraits.Portrait>, portraitLookupFailed: bool)
    requires ValidCreateGeneration(input, isUuid) && monthCount.Counted?
    requires !Admin.IsAdmin(user.email, adminEmail)
    ensures var q := GenerationQuota(Some(user), adminEmail, limit, monthCount).value;
            Admit(Some(user), adminEmail, input, isUuid, limit, monthCount, portraitRows, portraitLookupFailed)
              == Err(LimitReached(limit))
            <==> q.used >= limit
  {
    var q := GenerationQuota(Some(user), adminEmail, limit, monthCount).value;
    if q.used < limit {
      var r := Admit(Some(user), adminEmail, input, isUuid, limit, monthCount, portraitRows, portraitLookupFailed);
      assert r.Err? ==> r == Err(PortraitNotFound);
      assert PortraitNotFound != LimitReached(limit) by {
        assert PortraitNotFound[0] != LimitReached(limit)[0];
      }
    }
  }
}

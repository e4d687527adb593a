/**
 * The generation form: which portrait starts selected, when submitting is
 * allowed, and what a submit does — ask for signed upload URLs, send each
 * background file to its URL, then ask the server to create the
 * generation. The server actions' and the uploads' outcomes are parameters.
 */
module GenerationForm {
  import opened Common
  import opened Files
  import opened Validations
  import Generations

  datatype FormPortrait = FormPortrait(id: string, publicUrl: string, labelText: string, isActive: bool)

  datatype FormQuota = FormQuota(used: int, limit: int)

  /** `portraits.find((p) => p.is_active)`, as an index. */
  function FirstActive(ps: seq<FormPortrait>): (r: Option<nat>)
    ensures r.Some? ==> r.value < |ps| && ps[r.value].isActive && forall j :: 0 <= j < r.value ==> !ps[j].isActive
    ensures r.None? ==> forall j :: 0 <= j < |ps| ==> !ps[j].isActive
  {
    if ps == [] then None
    else if ps[0].isActive then Some(0)
    else
      var rest := FirstActive(ps[1..]);
      if rest.Some? then Some(rest.value + 1) else None
  }

  /** `active?.id || portraits[0]?.id || ""` */
  function InitialPortraitId(ps: seq<FormPortrait>): (id: string)
    ensures FirstActive(ps).Some? && ps[FirstActive(ps).value].id != "" ==> id == ps[FirstActive(ps).value].id
    ensures (FirstActive(ps).None? || ps[FirstActive(ps).value].id == "") ==>
              id == (if ps == [] then "" else ps[0].id)
  {
    var active := FirstActive(ps);
    var activeId := if active.Some? then Some(ps[active.value].id) else None;
    var firstId := if ps != [] then Some(ps[0].id) else None;
    OrElse(activeId, OrElse(firstId, ""))
  }

  /** The initial selection is empty or the id of a listed portrait, and it
      is the active one whenever an active portrait has an id. */
  lemma InitialPortraitIsListed(ps: seq<FormPortrait>)
    ensures InitialPortraitId(ps) == "" || exists k :: 0 <= k < |ps| && ps[k].id == InitialPortraitId(ps)
    ensures ps != [] && ps[0].id != "" ==> InitialPortraitId(ps) != ""
  {
    var active := FirstActive(ps);
    if active.Some? && ps[active.value].id != "" {
      assert ps[active.value].id == InitialPortraitId(ps);
    } else if ps != [] {
      assert ps[0].id == InitialPortraitId(ps);
    }
  }

  /** `!isAdmin && quota && quota.used >= quota.limit` */
  predicate QuotaExceeded(isAdmin: bool, quota: Option<FormQuota>)
  {
    !isAdmin && quota.Some? && quota.value.used >= quota.value.limit
  }

  /** `canSubmit` */
  predicate CanSubmit(isPending: bool, isAdmin: bool, quota: Option<FormQuota>, ps: seq<FormPortrait>,
                      keywords: string, portraitId: string)
  {
    && !isPending
    && !QuotaExceeded(isAdmin, quota)
    && |ps| != 0
    && |Trim(keywords)| >= MinKeywordsLength
    && portraitId != ""
  }

  /** An admin is never held back by the quota, and without a quota figure
      nobody is. */
  lemma AdminNeverExceeded(quota: Option<FormQuota>)
    ensures !QuotaExceeded(true, quota)
    ensures !QuotaExceeded(false, None)
  {
  }

  /** The form's gate agrees with the server's schema: whatever the form
      lets through, with a portrait id of UUID form, trimmed keywords of at
      most 500 characters and the paths of a successful upload-URL request,
      passes `createGenerationSchema`. */
  lemma SubmittedInputPassesSchema(isAdmin: bool, quota: Option<FormQuota>, ps: seq<FormPortrait>,
                                   keywords: string, portraitId: string, isUuid: string -> bool,
                                   userId: string, timestamp: nat, urls: seq<Generations.UploadUrl>)
    requires CanSubmit(false, isAdmin, quota, ps, keywords, portraitId)
    requires isUuid(portraitId) && |Trim(keywords)| <= MaxKeywordsLength
    requires |urls| <= MaxBackgrounds
    requires forall i :: 0 <= i < |urls| ==> urls[i].path == Generations.UploadPath(userId, timestamp, i)
    ensures Validations.ParseCreateGeneration(
              CreateGenerationInput(portraitId, Trim(keywords), UploadedPaths(urls)), isUuid).Ok?
  {
    var paths := UploadedPaths(urls);
    forall k | 0 <= k < |paths| ensures paths[k] != "" {
      assert StartsWith(Generations.UploadPath(userId, timestamp, k), userId + "/");
    }
    var input := CreateGenerationInput(portraitId, Trim(keywords), paths);
    assert ValidCreateGeneration(input, isUuid);
  }

  /** The storage paths of the signed URLs, in order. */
  function UploadedPaths(urls: seq<Generations.UploadUrl>): (paths: seq<string>)
    ensures |paths| == |urls| && forall i :: 0 <= i < |urls| ==> paths[i] == urls[i].path
  {
    seq(|urls|, i requires 0 <= i < |urls| => urls[i].path)
  }

  /** How the `PUT` of one file ends: a response with `ok` set, a response
      without it, or a rejected `fetch` (a network error, say), whose error
      carries the runtime's own message. */
  datatype PutOutcome = Uploaded | NotOk | FetchRejected(message: string)

  /** The lowest index whose upload did not succeed. */
  function FirstFailure(outcomes: seq<PutOutcome>): (r: Option<nat>)
    ensures r.Some? ==> r.value < |outcomes| && !outcomes[r.value].Uploaded?
                        && forall j :: 0 <= j < r.value ==> outcomes[j].Uploaded?
    ensures r.None? ==> forall j :: 0 <= j < |outcomes| ==> outcomes[j].Uploaded?
  {
    if outcomes == [] then None
    else if !outcomes[0].Uploaded? then Some(0)
    else
      var rest := FirstFailure(outcomes[1..]);
      if rest.Some? then Some(rest.value + 1) else None
  }

  /** The message of the error a failed upload rejects with: the handler's
      own `Failed to upload {name}` for a response without `ok`, the
      runtime's message for a rejected `fetch`. */
  function UploadErrorMessage(file: File, outcome: PutOutcome): (m: string)
    requires !outcome.Uploaded?
    ensures outcome.NotOk? ==> m == "Failed to upload " + file.name
    ensures outcome.FetchRejected? ==> m == outcome.message
  {
    match outcome
    case NotOk => "Failed to upload " + file.name
    case FetchRejected(message) => message
  }

  /** A `PUT` of one file to a signed URL. */
  datatype Put = Put(url: string, contentType: string, file: File)

  datatype FormEvent =
    | ErrorToast(message: string)
    | SuccessToast(message: string)
    /** `onGenerationStarted(result.generationId!)`; `None` is `undefined`. */
    | Started(generationId: Option<string>)

  /** Everything one submit asks of the outside world, and what it shows. */
  datatype Submission = Submission(
    urlCount: Option<nat>,
    puts: seq<Put>,
    create: Option<CreateGenerationInput>,
    events: seq<FormEvent>)

  const PrepareFailed := "Failed to prepare upload"
  const GenerationStarted := "Generation started!"

  /** The PUTs for the files: file i goes to URL i with its own content type. */
  function Puts(files: seq<File>, urls: seq<Generations.UploadUrl>): (ps: seq<Put>)
    requires |urls| == |files|
    ensures |ps| == |files|
    ensures forall i :: 0 <= i < |files| ==> ps[i] == Put(urls[i].signedUrl, files[i].mimeType, files[i])
  {
    seq(|files|, i requires 0 <= i < |files| => Put(urls[i].signedUrl, files[i].mimeType, files[i]))
  }

  /** What the form shows for the server's answer to `createGeneration`:
      a truthy error is shown; anything else counts as started. */
  function CreatedEvents(created: Result<string, string>): (ev: seq<FormEvent>)
    ensures created.Err? && created.error != "" ==> ev == [ErrorToast(created.error)]
    ensures created.Ok? ==> ev == [SuccessToast(GenerationStarted), Started(Some(created.value))]
    ensures created == Err("") ==> ev == [SuccessToast(GenerationStarted), Started(None)]
  {
    if created.Err? && created.error != "" then [ErrorToast(created.error)]
    else [SuccessToast(GenerationStarted), Started(if created.Ok? then Some(created.value) else None)]
  }

  class Form {
    const portraits: seq<FormPortrait>
    const isAdmin: bool
    const quota: Option<FormQuota>
    var isPending: bool
    var backgroundFiles: seq<File>
    var keywords: string
    var portraitId: string

    constructor (portraits: seq<FormPortrait>, isAdmin: bool, quota: Option<FormQuota>)
      ensures this.portraits == portraits && this.isAdmin == isAdmin && this.quota == quota
      ensures portraitId == InitialPortraitId(portraits)
      ensures !isPending && backgroundFiles == [] && keywords == ""
    {
      this.portraits := portraits;
      this.isAdmin := isAdmin;
      this.quota := quota;
      isPending := false;
      backgroundFiles := [];
      keywords := "";
      portraitId := InitialPortraitId(portraits);
    }

    predicate CanSubmitNow()
      reads this
    {
      CanSubmit(isPending, isAdmin, quota, portraits, keywords, portraitId)
    }

    /** `handleSubmit`. `urlsResult` is the answer of
        `createBackgroundUploadUrls`, which hands back one URL per requested
        file; `uploads[i]` is how the PUT of file i ends; and `created` is
        the answer of `createGeneration`. */
    method HandleSubmit(urlsResult: Result<seq<Generations.UploadUrl>, string>, uploads: seq<PutOutcome>,
                        created: Result<string, string>)
      returns (s: Submission)
      requires urlsResult.Ok? ==> |urlsResult.value| == |backgroundFiles|
      requires |uploads| == |backgroundFiles|
      ensures !CanSubmitNow() ==> s == Submission(None, [], None, [])
      ensures CanSubmitNow() && backgroundFiles == [] ==>
                s == Submission(None, [], Some(CreateGenerationInput(portraitId, Trim(keywords), [])),
                                CreatedEvents(created))
      ensures CanSubmitNow() && backgroundFiles != [] ==> s.urlCount == Some(|backgroundFiles|)
      ensures CanSubmitNow() && backgroundFiles != [] && urlsResult.Err? ==>
                s == Submission(Some(|backgroundFiles|), [], None, [ErrorToast(OrElse(Some(urlsResult.error), PrepareFailed))])
      ensures CanSubmitNow() && backgroundFiles != [] && urlsResult.Ok? ==>
                && s.puts == Puts(backgroundFiles, urlsResult.value)
                && (FirstFailure(uploads).Some? ==>
                      var k := FirstFailure(uploads).value;
                      && s.create.None?
                      && (uploads[k].NotOk? ==> s.events == [ErrorToast("Failed to upload " + backgroundFiles[k].name)])
                      && (uploads[k].FetchRejected? ==> s.events == [ErrorToast(uploads[k].message)]))
                && (FirstFailure(uploads).None? ==>
                      && s.create == Some(CreateGenerationInput(portraitId, Trim(keywords), UploadedPaths(urlsResult.value)))
                      && s.events == CreatedEvents(created))
    {
      if !CanSubmitNow() {
        return Submission(None, [], None, []);
      }
      var uploadedPaths: seq<string> := [];
      var urlCount: Option<nat> := None;
      var puts: seq<Put> := [];
      if |backgroundFiles| > 0 {
        urlCount := Some(|backgroundFiles|);
        if urlsResult.Err? {
          return Submission(urlCount, puts, None, [ErrorToast(OrElse(Some(urlsResult.error), PrepareFailed))]);
        }
        var urls := urlsResult.value;
        puts := Puts(backgroundFiles, urls);
        var failed := FirstFailure(uploads);
        if failed.Some? {
          var k := failed.value;
          return Submission(urlCount, puts, None, [ErrorToast(UploadErrorMessage(backgroundFiles[k], uploads[k]))]);
        }
        uploadedPaths := UploadedPaths(urls);
      }
      var input := CreateGenerationInput(portraitId, Trim(keywords), uploadedPaths);
      s := Submission(urlCount, puts, Some(input), CreatedEvents(created));
    }
  }
}

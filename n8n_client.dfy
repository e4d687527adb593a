/**
 * The outbound trigger of the thumbnail workflow: the JSON body posted to
 * the workflow webhook, and how the response (or its absence) becomes a
 * returned value or a thrown error. The webhook URL, the HTTP exchange and
 * the body parser are parameters.
 */
module N8nClient {
  import opened Common

  /** The JSON values the exchange carries. */
  datatype Json =
    | JString(s: string)
    | JNumber(n: int)
    | JBool(b: bool)
    | JNull
    | JArray(items: seq<Json>)
    | JObject(fields: seq<(string, Json)>)

  /** Value of the first field named `key`. A parsed JSON object keeps the
      last of duplicate keys instead; the bodies built here have no
      duplicates, so the two agree on them. */
  function Field(fields: seq<(string, Json)>, key: string): (r: Option<Json>)
    ensures r.Some? <==> exists k :: 0 <= k < |fields| && fields[k].0 == key
  {
    if fields == [] then None
    else if fields[0].0 == key then Some(fields[0].1)
    else
      var r := Field(fields[1..], key);
      assert forall k :: 1 <= k < |fields| ==> fields[k] == fields[1..][k - 1];
      r
  }

  /** A key's first occurrence determines its value. */
  lemma {:induction false} FieldAt(fields: seq<(string, Json)>, k: nat)
    requires k < |fields|
    requires forall j :: 0 <= j < k ==> fields[j].0 != fields[k].0
    ensures Field(fields, fields[k].0) == Some(fields[k].1)
  {
    if k > 0 {
      FieldAt(fields[1..], k - 1);
    }
  }

  datatype TriggerPayload = TriggerPayload(
    generationId: string,
    portraitUrl: string,
    backgroundUrls: seq<string>,
    keywords: string,
    callbackUrl: string)

  function BackgroundImage(url: string, index: nat): Json
  {
    JObject([("url", JString(url)), ("index", JNumber(index))])
  }

  /** `background_urls.map((url, i) => ({url, index: i}))` */
  function BackgroundImages(urls: seq<string>): (r: seq<Json>)
    ensures |r| == |urls|
    ensures forall i :: 0 <= i < |urls| ==> r[i] == BackgroundImage(urls[i], i)
  {
    seq(|urls|, i requires 0 <= i < |urls| => BackgroundImage(urls[i], i))
  }

  /** The object passed to JSON.stringify, with its keys in source order. */
  function WorkflowBody(p: TriggerPayload): Json
  {
    JObject([
      ("generation_id", JString(p.generationId)),
      ("Keywords", JString(p.keywords)),
      ("portrait_url", JString(p.portraitUrl)),
      ("Background Images", JArray(BackgroundImages(p.backgroundUrls))),
      ("callback_url", JString(p.callbackUrl))])
  }

  /** The body carries the identifiers through unchanged and the keywords
      under `Keywords` (there is no lower-case `keywords` field). */
  lemma WorkflowBodyFields(p: TriggerPayload)
    ensures Field(WorkflowBody(p).fields, "generation_id") == Some(JString(p.generationId))
    ensures Field(WorkflowBody(p).fields, "Keywords") == Some(JString(p.keywords))
    ensures Field(WorkflowBody(p).fields, "portrait_url") == Some(JString(p.portraitUrl))
    ensures Field(WorkflowBody(p).fields, "callback_url") == Some(JString(p.callbackUrl))
    ensures Field(WorkflowBody(p).fields, "keywords").None?
  {
    var fields := WorkflowBody(p).fields;
    FieldAt(fields, 0);
    FieldAt(fields, 1);
    FieldAt(fields, 2);
    FieldAt(fields, 4);
    assert fields[1].0[0] != "keywords"[0];
    assert forall k :: 0 <= k < |fields| ==> |fields[k].0| != 8 || k == 1;
  }

  /** Background i travels as `{url: background_urls[i], index: i}` under
      `Background Images`, one entry per URL. */
  lemma WorkflowBodyImages(p: TriggerPayload)
    ensures var images := Field(WorkflowBody(p).fields, "Background Images");
            && images.Some? && images.value.JArray?
            && |images.value.items| == |p.backgroundUrls|
            && forall i :: 0 <= i < |p.backgroundUrls| ==>
                 && images.value.items[i].JObject?
                 && Field(images.value.items[i].fields, "url") == Some(JString(p.backgroundUrls[i]))
                 && Field(images.value.items[i].fields, "index") == Some(JNumber(i))
  {
    var fields := WorkflowBody(p).fields;
    FieldAt(fields, 3);
    var items := BackgroundImages(p.backgroundUrls);
    assert Field(fields, "Background Images") == Some(JArray(items));
    forall i | 0 <= i < |p.backgroundUrls|
      ensures Field(items[i].fields, "url") == Some(JString(p.backgroundUrls[i]))
      ensures Field(items[i].fields, "index") == Some(JNumber(i))
    {
      FieldAt(items[i].fields, 0);
      FieldAt(items[i].fields, 1);
    }
  }

  /** The request that `fetch` is asked to send. */
  datatype Request = Request(url: string, httpMethod: string, contentType: string, body: Json)

  /** What `fetch` gives back: a rejection, or a response whose body, read as
      JSON, parses or fails with a message. */
  datatype FetchOutcome =
    | NetworkError(message: string)
    | Response(status: int, contentType: Option<string>, bodyText: string, json: Result<Json, string>)

  /** The settled promise of `triggerN8nWorkflow`. */
  datatype TriggerResult = Threw(message: string) | Returned(value: Json)

  datatype TriggerRun = TriggerRun(request: Option<Request>, result: TriggerResult)

  predicate IsOk(status: int)
  {
    200 <= status <= 299
  }

  /** `contentType?.includes("application/json")` */
  predicate IsJsonContent(contentType: Option<string>)
  {
    contentType.Some? && Contains(contentType.value, "application/json")
  }

  const NotConfigured := "N8N_WEBHOOK_URL not configured"

  /** `triggerN8nWorkflow(payload)` with the configured URL and the outcome of
      the HTTP exchange as parameters. */
  function TriggerWorkflow(webhookUrl: Option<string>, p: TriggerPayload, fetch: FetchOutcome)
    : (run: TriggerRun)
    ensures !Truthy(webhookUrl) <==> run.request.None?
    ensures !Truthy(webhookUrl) ==> run.result == Threw(NotConfigured)
    ensures run.request.Some? ==>
              run.request.value == Request(webhookUrl.value, "POST", "application/json", WorkflowBody(p))
    ensures Truthy(webhookUrl) && fetch.NetworkError? ==> run.result == Threw(fetch.message)
    ensures Truthy(webhookUrl) && fetch.Response? && !IsOk(fetch.status) ==>
              run.result == Threw("n8n trigger failed: " + IntToString(fetch.status) + " - " + fetch.bodyText)
    ensures run.result.Returned? <==>
              (Truthy(webhookUrl) && fetch.Response? && IsOk(fetch.status)
               && (IsJsonContent(fetch.contentType) ==> fetch.json.Ok?))
    ensures run.result.Returned? && IsJsonContent(fetch.contentType) ==> run.result.value == fetch.json.value
    ensures (run.result.Returned? && !IsJsonContent(fetch.contentType)) ==>
              run.result.value == JObject([("success", JBool(true))])
  {
    if !Truthy(webhookUrl) then TriggerRun(None, Threw(NotConfigured))
    else
      var request := Request(webhookUrl.value, "POST", "application/json", WorkflowBody(p));
      var result :=
        match fetch
        case NetworkError(message) => Threw(message)
        case Response(status, contentType, text, json) =>
          if !IsOk(status) then
            Threw("n8n trigger failed: " + IntToString(status) + " - " + text)
          else if IsJsonContent(contentType) then
            (match json
             case Ok(v) => Returned(v)
             case Err(message) => Threw(message))
          else Returned(JObject([("success", JBool(true))]));
      TriggerRun(Some(request), result)
  }
}

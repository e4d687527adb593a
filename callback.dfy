/**
 * The workflow callback endpoint: signature check, payload checks, the
 * failure branch, the per-thumbnail loop that downloads, stores and records
 * each reported image, and the aggregate status written back to the
 * generation. HMAC, JSON parsing, the image downloads, storage uploads,
 * public-URL derivation, the unchecked row writes and the clock are
 * parameters.
 */
module Callback {
  import opened Common
  import opened GenerationData

  // ---------------------------------------------------------------------------
  // verifySignature

  /** Number of bytes `Buffer.from(s)` gives: the UTF-8 length. */
  function Utf8Length(s: string): (n: nat)
    ensures n >= |s|
  {
    if s == [] then 0
    else
      var c := s[0] as int;
      (if c < 0x80 then 1 else if c < 0x800 then 2 else if c < 0x10000 then 3 else 4) + Utf8Length(s[1..])
  }

  /** The check passes, fails, or throws because `timingSafeEqual` was given
      buffers of different lengths. */
  datatype SignatureCheck = SigValid | SigInvalid | SigThrows

  /** `verifySignature(payload, signature)`: `hmac(secret, payload)` is the
      hex HMAC-SHA256 digest. */
  function VerifySignature(secret: Option<string>, signature: Option<string>, payload: string,
                           hmac: (string, string) -> string)
    : (r: SignatureCheck)
    ensures !Truthy(secret) ==> r == SigValid
    ensures Truthy(secret) && !Truthy(signature) ==> r == SigInvalid
    ensures r == SigValid <==> !Truthy(secret) || (Truthy(signature) && signature.value == hmac(secret.value, payload))
    ensures r == SigThrows <==>
              Truthy(secret) && Truthy(signature)
              && Utf8Length(signature.value) != Utf8Length(hmac(secret.value, payload))
  {
    if !Truthy(secret) then SigValid
    else if !Truthy(signature) then SigInvalid
    else
      var expected := hmac(secret.value, payload);
      if Utf8Length(signature.value) != Utf8Length(expected) then SigThrows
      else if signature.value == expected then SigValid
      else SigInvalid
  }

  // ---------------------------------------------------------------------------
  // The payload and what each item's external steps did

  datatype CallbackItem = CallbackItem(
    imageUrl: string,
    prompt: string,
    promptIndex: int,
    backgroundIndex: int,
    kieTaskId: string,
    status: string,
    errorMessage: Option<string>)

  /** The parsed body; `thumbnails` and `error` may be absent. */
  datatype CallbackPayload = CallbackPayload(
    generationId: Option<string>,
    status: string,
    thumbnails: Option<seq<CallbackItem>>,
    error: Option<string>)

  /** For one item: whether the download produced bytes, the storage upload's
      error if any, and whether the thumbnail insert reached the table. */
  datatype ItemEffects = ItemEffects(downloaded: bool, uploadError: Option<string>, rowWritten: bool)

  /** `${user_id}/${generation_id}/${prompt_index}-${background_index}.jpg` */
  function ThumbnailPath(userId: string, generationId: string, item: CallbackItem): string
  {
    userId + "/" + generationId + "/" + IntToString(item.promptIndex) + "-" + IntToString(item.backgroundIndex) + ".jpg"
  }

  /** Every thumbnail is stored under the owner's folder for the generation. */
  lemma ThumbnailPathInFolder(userId: string, generationId: string, item: CallbackItem)
    ensures StartsWith(ThumbnailPath(userId, generationId, item), userId + "/" + generationId + "/")
  {
    var prefix := userId + "/" + generationId + "/";
    var rest := IntToString(item.promptIndex) + "-" + IntToString(item.backgroundIndex) + ".jpg";
    assert ThumbnailPath(userId, generationId, item) == prefix + rest;
  }

  /** An item counts as a success iff it was not reported failed and both its
      download and its upload went through. */
  predicate ItemSucceeds(item: CallbackItem, e: ItemEffects)
  {
    item.status != "failed" && e.downloaded && e.uploadError.None?
  }

  const DownloadFailed := "Failed to download generated image"
  const GenerationFailed := "Generation failed"

  /** The thumbnail row recorded for one item. */
  function ItemRow(userId: string, generationId: string, item: CallbackItem, e: ItemEffects,
                   publicUrlOf: string -> string)
    : (t: Thumbnail)
    ensures t.generationId == generationId && t.prompt == item.prompt && t.kieTaskId == item.kieTaskId
    ensures t.promptIndex == item.promptIndex && t.backgroundIndex == item.backgroundIndex
    ensures t.status == Success <==> ItemSucceeds(item, e)
    ensures t.status == ThumbFailed ==> t.storagePath == "" && t.publicUrl == "" && t.errorMessage.Some?
    ensures t.status == Success ==>
              && t.storagePath == ThumbnailPath(userId, generationId, item)
              && t.publicUrl == publicUrlOf(t.storagePath) && t.errorMessage.None?
    ensures item.status == "failed" ==> t.errorMessage == Some(Coalesce(item.errorMessage, GenerationFailed))
    ensures item.status != "failed" && !e.downloaded ==> t.errorMessage == Some(DownloadFailed)
    ensures (item.status != "failed" && e.downloaded && e.uploadError.Some?) ==>
              t.errorMessage == Some("Failed to store image: " + e.uploadError.value)
  {
    var failed := (msg: string) =>
      Thumbnail(generationId, "", "", item.prompt, item.promptIndex, item.backgroundIndex, item.kieTaskId,
                ThumbFailed, Some(msg));
    if item.status == "failed" then failed(Coalesce(item.errorMessage, GenerationFailed))
    else if !e.downloaded then failed(DownloadFailed)
    else if e.uploadError.Some? then failed("Failed to store image: " + e.uploadError.value)
    else
      var path := ThumbnailPath(userId, generationId, item);
      Thumbnail(generationId, path, publicUrlOf(path), item.prompt, item.promptIndex, item.backgroundIndex,
                item.kieTaskId, Success, None)
  }

  /** An item reported failed is recorded without its image being fetched
      or stored: whatever the download and upload would have done, its row
      is the same failed row, it is not a success and it stores nothing. */
  lemma ReportedFailedIgnoresEffects(userId: string, generationId: string, item: CallbackItem,
                                     e1: ItemEffects, e2: ItemEffects, publicUrlOf: string -> string)
    requires item.status == "failed"
    ensures ItemRow(userId, generationId, item, e1, publicUrlOf) == ItemRow(userId, generationId, item, e2, publicUrlOf)
    ensures ItemRow(userId, generationId, item, e1, publicUrlOf).status == ThumbFailed
    ensures !ItemSucceeds(item, e1) && !ItemSucceeds(item, e2)
    ensures Selected(PathsOf(userId, generationId, [item]), Successes([item], [e1])) == {}
  {
    var ps, ok := PathsOf(userId, generationId, [item]), Successes([item], [e1]);
    assert ok == [false];
    assert Selected(ps[..0], ok[..0]) == {};
  }

  /** Number of items that succeed, counted from the front. */
  function SuccessCount(items: seq<CallbackItem>, effects: seq<ItemEffects>): (n: nat)
    requires |items| == |effects|
    ensures n <= |items|
  {
    if items == [] then 0
    else
      var m := |items| - 1;
      SuccessCount(items[..m], effects[..m]) + (if ItemSucceeds(items[m], effects[m]) then 1 else 0)
  }

  /** No success iff no item succeeds; all successes iff every item does. */
  lemma {:induction false} SuccessCountBounds(items: seq<CallbackItem>, effects: seq<ItemEffects>)
    requires |items| == |effects|
    ensures SuccessCount(items, effects) == 0 <==> forall k :: 0 <= k < |items| ==> !ItemSucceeds(items[k], effects[k])
    ensures SuccessCount(items, effects) == |items| <==> forall k :: 0 <= k < |items| ==> ItemSucceeds(items[k], effects[k])
  {
    if items != [] {
      var m := |items| - 1;
      SuccessCountBounds(items[..m], effects[..m]);
      assert forall k :: 0 <= k < m ==> items[..m][k] == items[k] && effects[..m][k] == effects[k];
    }
  }

  /** The rows that actually reach the table, one per item whose insert
      went through, in item order. */
  function WrittenRows(userId: string, generationId: string, items: seq<CallbackItem>,
                       effects: seq<ItemEffects>, publicUrlOf: string -> string)
    : (rows: seq<Thumbnail>)
    requires |items| == |effects|
    ensures |rows| <= |items|
  {
    if items == [] then []
    else
      var m := |items| - 1;
      WrittenRows(userId, generationId, items[..m], effects[..m], publicUrlOf)
      + (if effects[m].rowWritten then [ItemRow(userId, generationId, items[m], effects[m], publicUrlOf)] else [])
  }

  /** When every insert goes through, row k is item k's row. */
  lemma {:induction false} AllRowsWritten(userId: string, generationId: string, items: seq<CallbackItem>,
                                          effects: seq<ItemEffects>, publicUrlOf: string -> string)
    requires |items| == |effects|
    requires forall k :: 0 <= k < |effects| ==> effects[k].rowWritten
    ensures |WrittenRows(userId, generationId, items, effects, publicUrlOf)| == |items|
    ensures forall k :: 0 <= k < |items| ==>
              WrittenRows(userId, generationId, items, effects, publicUrlOf)[k]
              == ItemRow(userId, generationId, items[k], effects[k], publicUrlOf)
  {
    if items != [] {
      var m := |items| - 1;
      AllRowsWritten(userId, generationId, items[..m], effects[..m], publicUrlOf);
      assert forall k :: 0 <= k < m ==> items[..m][k] == items[k] && effects[..m][k] == effects[k];
    }
  }

  /** The storage objects written: one per successful item. */
  function StoredPaths(userId: string, generationId: string, items: seq<CallbackItem>, effects: seq<ItemEffects>)
    : (paths: set<string>)
    requires |items| == |effects|
  {
    if items == [] then {}
    else
      var m := |items| - 1;
      StoredPaths(userId, generationId, items[..m], effects[..m])
      + (if ItemSucceeds(items[m], effects[m]) then {ThumbnailPath(userId, generationId, items[m])} else {})
  }

  /** The paths of the items, and which of them succeed. */
  function PathsOf(userId: string, generationId: string, items: seq<CallbackItem>): (ps: seq<string>)
    ensures |ps| == |items| && forall k :: 0 <= k < |items| ==> ps[k] == ThumbnailPath(userId, generationId, items[k])
  {
    seq(|items|, k requires 0 <= k < |items| => ThumbnailPath(userId, generationId, items[k]))
  }

  function Successes(items: seq<CallbackItem>, effects: seq<ItemEffects>): (ok: seq<bool>)
    requires |items| == |effects|
    ensures |ok| == |items| && forall k :: 0 <= k < |items| ==> ok[k] == ItemSucceeds(items[k], effects[k])
  {
    seq(|items|, k requires 0 <= k < |items| => ItemSucceeds(items[k], effects[k]))
  }

  /** The members of `ps` whose flag is set. */
  function Selected(ps: seq<string>, ok: seq<bool>): set<string>
    requires |ps| == |ok|
  {
    if ps == [] then {}
    else
      var m := |ps| - 1;
      Selected(ps[..m], ok[..m]) + (if ok[m] then {ps[m]} else {})
  }

  lemma {:induction false} SelectedExactly(ps: seq<string>, ok: seq<bool>, path: string)
    requires |ps| == |ok|
    ensures path in Selected(ps, ok) <==> exists k :: 0 <= k < |ps| && ok[k] && ps[k] == path
  {
    if ps != [] {
      var m := |ps| - 1;
      SelectedExactly(ps[..m], ok[..m], path);
      assert forall k :: 0 <= k < m ==> ps[..m][k] == ps[k] && ok[..m][k] == ok[k];
    }
  }

  /** The stored paths are the paths of the successful items. */
  lemma {:induction false} StoredPathsSelected(userId: string, generationId: string, items: seq<CallbackItem>,
                                               effects: seq<ItemEffects>)
    requires |items| == |effects|
    ensures StoredPaths(userId, generationId, items, effects)
         == Selected(PathsOf(userId, generationId, items), Successes(items, effects))
  {
    if items != [] {
      var m := |items| - 1;
      StoredPathsSelected(userId, generationId, items[..m], effects[..m]);
      var ps, ok := PathsOf(userId, generationId, items), Successes(items, effects);
      assert ps[..m] == PathsOf(userId, generationId, items[..m]);
      assert ok[..m] == Successes(items[..m], effects[..m]);
    }
  }

  /** A path is stored iff some successful item has it. */
  lemma StoredPathsExactly(userId: string, generationId: string, items: seq<CallbackItem>,
                           effects: seq<ItemEffects>, path: string)
    requires |items| == |effects|
    ensures path in StoredPaths(userId, generationId, items, effects) <==>
              exists k :: 0 <= k < |items| && ItemSucceeds(items[k], effects[k])
                          && path == ThumbnailPath(userId, generationId, items[k])
  {
    StoredPathsSelected(userId, generationId, items, effects);
    SelectedExactly(PathsOf(userId, generationId, items), Successes(items, effects), path);
  }

  // ---------------------------------------------------------------------------
  // Aggregate status

  /** `failed` iff nothing succeeded and something failed, `partial` iff both,
      `completed` otherwise (also for an empty list). */
  function FinalStatus(successCount: nat, failCount: nat): (s: GenStatus)
    ensures IsTerminal(s)
    ensures s == Failed <==> successCount == 0 && failCount > 0
    ensures s == Partial <==> successCount > 0 && failCount > 0
    ensures s == Completed <==> failCount == 0
  {
    if successCount == 0 && failCount > 0 then Failed
    else if failCount > 0 then Partial
    else Completed
  }

  /** `${failCount} thumbnail(s) failed to generate`, or null. */
  function FailureSummary(failCount: nat): (m: Option<string>)
    ensures m.None? <==> failCount == 0
  {
    if failCount > 0 then Some(NatToString(failCount) + " thumbnail(s) failed to generate") else None
  }

  /** The generation row after all items: finished, with the success count. */
  function Finished(g: Generation, successCount: nat, failCount: nat, now: int): (h: Generation)
    ensures h.status == FinalStatus(successCount, failCount) && h.progress == 100
    ensures h.thumbnailCount == successCount && h.errorMessage == FailureSummary(failCount)
    ensures h.completedAt == Some(now)
    ensures h.(status := g.status, progress := g.progress, thumbnailCount := g.thumbnailCount,
               errorMessage := g.errorMessage, completedAt := g.completedAt) == g
  {
    g.(status := FinalStatus(successCount, failCount), progress := 100, thumbnailCount := successCount,
       errorMessage := FailureSummary(failCount), completedAt := Some(now))
  }

  /** The generation row after a failure report. */
  function FailureRecorded(g: Generation, error: Option<string>, now: int): (h: Generation)
    ensures h.status == Failed && h.progress == 100 && h.completedAt == Some(now)
    ensures h.errorMessage == Some(Coalesce(error, GenerationFailed))
    ensures h.(status := g.status, progress := g.progress, errorMessage := g.errorMessage,
               completedAt := g.completedAt) == g
  {
    g.(status := Failed, errorMessage := Some(Coalesce(error, GenerationFailed)), progress := 100,
       completedAt := Some(now))
  }

  /** `Processed ${n} thumbnails (${s} success, ${f} failed)` */
  function ProcessedMessage(successCount: nat, failCount: nat): string
  {
    "Processed " + NatToString(successCount + failCount) + " thumbnails (" + NatToString(successCount)
    + " success, " + NatToString(failCount) + " failed)"
  }

  // ---------------------------------------------------------------------------
  // POST

  datatype CallbackResponse =
    | ErrorReply(status: nat, error: string)
    | SuccessReply(message: string)
    /** The handler threw (`timingSafeEqual` on buffers of unequal length). */
    | Crashed

  /** The request and the environment the handler reads. */
  datatype CallbackRequest = CallbackRequest(
    rawBody: string,
    signature: Option<string>,
    /** `JSON.parse(rawBody)`, or None when it throws */
    parsed: Option<CallbackPayload>)

  datatype CallbackEnv = CallbackEnv(
    secret: Option<string>,
    supabaseUrl: Option<string>,
    serviceRoleKey: Option<string>)

  /** How the request ends before the item loop, if it does; None means the
      handler goes on to record results. */
  function EarlyReply(req: CallbackRequest, env: CallbackEnv, hmac: (string, string) -> string,
                      generations: map<string, Generation>, lookupFailed: bool)
    : (r: Option<CallbackResponse>)
    ensures VerifySignature(env.secret, req.signature, req.rawBody, hmac) == SigThrows ==> r == Some(Crashed)
    ensures VerifySignature(env.secret, req.signature, req.rawBody, hmac) == SigInvalid ==>
              r == Some(ErrorReply(401, "Invalid signature"))
    ensures VerifySignature(env.secret, req.signature, req.rawBody, hmac) == SigValid && req.parsed.None? ==>
              r == Some(ErrorReply(400, "Invalid JSON payload"))
    ensures (VerifySignature(env.secret, req.signature, req.rawBody, hmac) == SigValid && req.parsed.Some?
             && !Truthy(req.parsed.value.generationId)) ==>
              r == Some(ErrorReply(400, "Missing generation_id"))
    ensures (VerifySignature(env.secret, req.signature, req.rawBody, hmac) == SigValid && req.parsed.Some?
             && Truthy(req.parsed.value.generationId)
             && (!Truthy(env.supabaseUrl) || !Truthy(env.serviceRoleKey))) ==>
              r == Some(ErrorReply(500, "Server configuration error"))
    ensures r.None? <==>
              && VerifySignature(env.secret, req.signature, req.rawBody, hmac) == SigValid
              && req.parsed.Some? && Truthy(req.parsed.value.generationId)
              && Truthy(env.supabaseUrl) && Truthy(env.serviceRoleKey)
              && !lookupFailed && req.parsed.value.generationId.value in generations
    ensures (r.Some? && r.value.ErrorReply? && r.value.status == 404) <==>
              && VerifySignature(env.secret, req.signature, req.rawBody, hmac) == SigValid
              && req.parsed.Some? && Truthy(req.parsed.value.generationId)
              && Truthy(env.supabaseUrl) && Truthy(env.serviceRoleKey)
              && (lookupFailed || req.parsed.value.generationId.value !in generations)
  {
    match VerifySignature(env.secret, req.signature, req.rawBody, hmac)
    case SigThrows => Some(Crashed)
    case SigInvalid => Some(ErrorReply(401, "Invalid signature"))
    case SigValid =>
      if req.parsed.None? then Some(ErrorReply(400, "Invalid JSON payload"))
      else if !Truthy(req.parsed.value.generationId) then Some(ErrorReply(400, "Missing generation_id"))
      else if !Truthy(env.supabaseUrl) || !Truthy(env.serviceRoleKey) then
        Some(ErrorReply(500, "Server configuration error"))
      else if lookupFailed || req.parsed.value.generationId.value !in generations then
        Some(ErrorReply(404, "Generation not found"))
      else None
  }

  /** `POST(request)`. `effects[k]` is what the external steps did for item
      k; `generationWriteApplied` is whether the unchecked update of the
      generation row reached the table. */
  method HandleCallback(db: GenerationTables, req: CallbackRequest, env: CallbackEnv,
                        hmac: (string, string) -> string, lookupFailed: bool,
                        effects: seq<ItemEffects>, publicUrlOf: string -> string,
                        generationWriteApplied: bool, now: int)
    returns (resp: CallbackResponse)
    requires db.Valid()
    requires req.parsed.Some? ==> |Coalesce2(req.parsed.value.thumbnails)| == |effects|
    modifies db
    ensures db.Valid()
    ensures EarlyReply(req, env, hmac, old(db.generations), lookupFailed).Some? ==>
              && resp == EarlyReply(req, env, hmac, old(db.generations), lookupFailed).value
              && unchanged(db)
    ensures (EarlyReply(req, env, hmac, old(db.generations), lookupFailed).None?
             && req.parsed.value.status == "failed") ==>
              var id := req.parsed.value.generationId.value;
              && resp == SuccessReply("Failure recorded")
              && db.thumbnails == old(db.thumbnails) && db.thumbnailObjects == old(db.thumbnailObjects)
              && db.generations == (if generationWriteApplied
                                    then old(db.generations)[id := FailureRecorded(old(db.generations)[id], req.parsed.value.error, now)]
                                    else old(db.generations))
    ensures (EarlyReply(req, env, hmac, old(db.generations), lookupFailed).None?
             && req.parsed.value.status != "failed") ==>
              var p := req.parsed.value;
              var id := p.generationId.value;
              var items := Coalesce2(p.thumbnails);
              var uid := old(db.generations)[id].userId;
              var s := SuccessCount(items, effects);
              var f := |items| - s;
              && resp == SuccessReply(ProcessedMessage(s, f))
              && db.thumbnails == old(db.thumbnails) + WrittenRows(uid, id, items, effects, publicUrlOf)
              && db.thumbnailObjects == old(db.thumbnailObjects) + StoredPaths(uid, id, items, effects)
              && db.generations == (if generationWriteApplied
                                    then old(db.generations)[id := Finished(old(db.generations)[id], s, f, now)]
                                    else old(db.generations))
  {
    var early := EarlyReply(req, env, hmac, db.generations, lookupFailed);
    if early.Some? {
      return early.value;
    }
    var payload := req.parsed.value;
    var id := payload.generationId.value;
    var generation := db.generations[id];
    if payload.status == "failed" {
      if generationWriteApplied {
        db.generations := db.generations[id := FailureRecorded(generation, payload.error, now)];
      }
      return SuccessReply("Failure recorded");
    }
    var items := Coalesce2(payload.thumbnails);
    var successCount, failCount := RecordItems(db, generation.userId, id, items, effects, publicUrlOf);
    if generationWriteApplied {
      db.generations := db.generations[id := Finished(generation, successCount, failCount, now)];
    }
    resp := SuccessReply(ProcessedMessage(successCount, failCount));
  }

  /** The loop over the reported items: each is recorded as a thumbnail row
      (if its insert goes through) and counted as a success or a failure; a
      successful item's image is stored first. */
  method RecordItems(db: GenerationTables, userId: string, generationId: string, items: seq<CallbackItem>,
                     effects: seq<ItemEffects>, publicUrlOf: string -> string)
    returns (successCount: nat, failCount: nat)
    requires |items| == |effects|
    modifies db`thumbnails, db`thumbnailObjects
    ensures successCount == SuccessCount(items, effects) && successCount + failCount == |items|
    ensures db.thumbnails == old(db.thumbnails) + WrittenRows(userId, generationId, items, effects, publicUrlOf)
    ensures db.thumbnailObjects == old(db.thumbnailObjects) + StoredPaths(userId, generationId, items, effects)
  {
    successCount, failCount := 0, 0;
    var k := 0;
    while k < |items|
      invariant 0 <= k <= |items|
      invariant successCount == SuccessCount(items[..k], effects[..k])
      invariant successCount + failCount == k
      invariant db.thumbnails == old(db.thumbnails) + WrittenRows(userId, generationId, items[..k], effects[..k], publicUrlOf)
      invariant db.thumbnailObjects == old(db.thumbnailObjects) + StoredPaths(userId, generationId, items[..k], effects[..k])
    {
      ghost var rows0 := WrittenRows(userId, generationId, items[..k], effects[..k], publicUrlOf);
      PrefixStep(userId, generationId, items, effects, publicUrlOf, k);
      ghost var newRows := if effects[k].rowWritten then [ItemRow(userId, generationId, items[k], effects[k], publicUrlOf)] else [];
      var succeeded := RecordItem(db, userId, generationId, items[k], effects[k], publicUrlOf);
      if succeeded {
        successCount := successCount + 1;
      } else {
        failCount := failCount + 1;
      }
      assert db.thumbnails == old(db.thumbnails) + (rows0 + newRows);
      k := k + 1;
    }
    assert items[..k] == items && effects[..k] == effects;
  }

  /** One item: its image is stored if it succeeds, and its row is added
      if the insert goes through (the insert's result is never checked). */
  method RecordItem(db: GenerationTables, userId: string, generationId: string, item: CallbackItem,
                    e: ItemEffects, publicUrlOf: string -> string)
    returns (succeeded: bool)
    modifies db`thumbnails, db`thumbnailObjects
    ensures succeeded == ItemSucceeds(item, e)
    ensures db.thumbnails
         == old(db.thumbnails) + (if e.rowWritten then [ItemRow(userId, generationId, item, e, publicUrlOf)] else [])
    ensures db.thumbnailObjects
         == old(db.thumbnailObjects) + (if succeeded then {ThumbnailPath(userId, generationId, item)} else {})
  {
    succeeded := ItemSucceeds(item, e);
    if succeeded {
      db.thumbnailObjects := db.thumbnailObjects + {ThumbnailPath(userId, generationId, item)};
    }
    if e.rowWritten {
      db.thumbnails := db.thumbnails + [ItemRow(userId, generationId, item, e, publicUrlOf)];
    }
  }

  /** Extending the processed prefix by one item adds that item's
      contribution to the count, the rows and the stored paths. */
  lemma PrefixStep(userId: string, generationId: string, items: seq<CallbackItem>, effects: seq<ItemEffects>,
                   publicUrlOf: string -> string, k: nat)
    requires |items| == |effects| && k < |items|
    ensures SuccessCount(items[..k + 1], effects[..k + 1])
         == SuccessCount(items[..k], effects[..k]) + (if ItemSucceeds(items[k], effects[k]) then 1 else 0)
    ensures WrittenRows(userId, generationId, items[..k + 1], effects[..k + 1], publicUrlOf)
         == WrittenRows(userId, generationId, items[..k], effects[..k], publicUrlOf)
            + (if effects[k].rowWritten then [ItemRow(userId, generationId, items[k], effects[k], publicUrlOf)] else [])
    ensures StoredPaths(userId, generationId, items[..k + 1], effects[..k + 1])
         == StoredPaths(userId, generationId, items[..k], effects[..k])
            + (if ItemSucceeds(items[k], effects[k]) then {ThumbnailPath(userId, generationId, items[k])} else {})
  {
    var i1, e1 := items[..k + 1], effects[..k + 1];
    assert i1[..k] == items[..k] && e1[..k] == effects[..k];
    assert i1[k] == items[k] && e1[k] == effects[k];
  }

  /** `payload.thumbnails ?? []` */
  function Coalesce2(items: Option<seq<CallbackItem>>): (r: seq<CallbackItem>)
    ensures items.Some? ==> r == items.value
    ensures items.None? ==> r == []
  {
    if items.Some? then items.value else []
  }

  // ---------------------------------------------------------------------------
  // Properties of the callback as a whole

  /** The indexes of the items that end up stored as successes. */
  function SuccessIndexes(items: seq<CallbackItem>, effects: seq<ItemEffects>): set<int>
    requires |items| == |effects|
  {
    set k | 0 <= k < |items| && ItemSucceeds(items[k], effects[k])
  }

  /** The indexes of the items that end up stored as failures. */
  function FailIndexes(items: seq<CallbackItem>, effects: seq<ItemEffects>): set<int>
    requires |items| == |effects|
  {
    set k | 0 <= k < |items| && !ItemSucceeds(items[k], effects[k])
  }

  /** The index sets of a prefix grow by the last index on one side only. */
  lemma IndexesStep(items: seq<CallbackItem>, effects: seq<ItemEffects>)
    requires |items| == |effects| && |items| > 0
    ensures var m := |items| - 1;
            && SuccessIndexes(items, effects)
               == SuccessIndexes(items[..m], effects[..m]) + (if ItemSucceeds(items[m], effects[m]) then {m} else {})
            && FailIndexes(items, effects)
               == FailIndexes(items[..m], effects[..m]) + (if ItemSucceeds(items[m], effects[m]) then {} else {m})
  {
    var m := |items| - 1;
    var i0, e0 := items[..m], effects[..m];
    assert forall k :: 0 <= k < m ==> i0[k] == items[k] && e0[k] == effects[k];
  }

  /** Each item is counted exactly once: the success count is the number of
      item indexes that succeed, and the failure count is the rest. */
  lemma {:induction false} SuccessIndexCount(items: seq<CallbackItem>, effects: seq<ItemEffects>)
    requires |items| == |effects|
    ensures |SuccessIndexes(items, effects)| == SuccessCount(items, effects)
    ensures |FailIndexes(items, effects)| == |items| - SuccessCount(items, effects)
  {
    if |items| > 0 {
      var m := |items| - 1;
      SuccessIndexCount(items[..m], effects[..m]);
      IndexesStep(items, effects);
    } else {
      assert SuccessIndexes(items, effects) == {};
      assert FailIndexes(items, effects) == {};
    }
  }

  /** The status written after the loop matches the item outcomes. */
  lemma FinalStatusMatchesItems(items: seq<CallbackItem>, effects: seq<ItemEffects>)
    requires |items| == |effects|
    ensures var s := SuccessCount(items, effects);
            var st := FinalStatus(s, |items| - s);
            && (st == Completed <==> forall k :: 0 <= k < |items| ==> ItemSucceeds(items[k], effects[k]))
            && (st == Failed <==> |items| > 0 && forall k :: 0 <= k < |items| ==> !ItemSucceeds(items[k], effects[k]))
            && (st == Partial <==> (exists k :: 0 <= k < |items| && ItemSucceeds(items[k], effects[k]))
                                   && (exists k :: 0 <= k < |items| && !ItemSucceeds(items[k], effects[k])))
  {
    SuccessCountBounds(items, effects);
    var s := SuccessCount(items, effects);
    if s == 0 && |items| > 0 {
      assert FinalStatus(s, |items| - s) == Failed;
      assert !ItemSucceeds(items[0], effects[0]);
    } else if s == |items| {
      assert FinalStatus(s, |items| - s) == Completed;
    } else {
      assert FinalStatus(s, |items| - s) == Partial;
    }
  }

  /** Two successful items with different index pairs are stored at
      different paths. */
  lemma ThumbnailPathsDistinct(userId: string, generationId: string, a: CallbackItem, b: CallbackItem)
    requires a.promptIndex != b.promptIndex || a.backgroundIndex != b.backgroundIndex
    ensures ThumbnailPath(userId, generationId, a) != ThumbnailPath(userId, generationId, b)
  {
    var prefix := userId + "/" + generationId + "/";
    var pa, pb := IntToString(a.promptIndex), IntToString(b.promptIndex);
    var ba, bb := IntToString(a.backgroundIndex), IntToString(b.backgroundIndex);
    var x, y := ThumbnailPath(userId, generationId, a), ThumbnailPath(userId, generationId, b);
    assert x == prefix + (pa + "-" + ba + ".jpg");
    assert y == prefix + (pb + "-" + bb + ".jpg");
    if x == y {
      var sa, sb := pa + "-" + ba + ".jpg", pb + "-" + bb + ".jpg";
      assert sa == x[|prefix|..] && sb == y[|prefix|..];
      DashSplit(pa, ba, pb, bb);
      IntToStringInjective(a.promptIndex, b.promptIndex);
      IntToStringInjective(a.backgroundIndex, b.backgroundIndex);
    }
  }

  /** The rendering of a number has a '-' only in front, so the first '-'
      after position 0 separates the two indexes. */
  lemma DashSplit(pa: string, ba: string, pb: string, bb: string)
    requires |pa| >= 1 && |pb| >= 1
    requires forall k :: 1 <= k < |pa| ==> IsDigit(pa[k])
    requires forall k :: 1 <= k < |pb| ==> IsDigit(pb[k])
    requires pa + "-" + ba + ".jpg" == pb + "-" + bb + ".jpg"
    ensures pa == pb && ba == bb
  {
    var s := pa + "-" + ba + ".jpg";
    var t := pb + "-" + bb + ".jpg";
    assert s[|pa|] == '-' && t[|pb|] == '-';
    if |pa| == |pb| {
      assert pa == s[..|pa|] == pb;
      assert ba == s[|pa| + 1..|s| - 4] == bb;
    }
  }
}

/**
 * The request schemas of the generation and portrait actions and the
 * upload constants. Each schema yields the messages of every check that
 * fails, in the order the schema library reports them (object keys in
 * declaration order; for an array, its length check before its elements);
 * the actions return the first one.
 */
module Validations {
  import opened Common

  const MaxBackgrounds: nat := 7
  const MaxFileSize: nat := 5 * 1024 * 1024
  const AllowedImageTypes: seq<string> := ["image/jpeg", "image/png", "image/webp"]
  const MinKeywordsLength: nat := 3
  const MaxKeywordsLength: nat := 500
  const MaxLabelLength: nat := 100

  const InvalidPortraitId := "Invalid portrait ID"
  const KeywordsTooShort := "Keywords must be at least 3 characters"
  const KeywordsTooLong := "Keywords too long"
  const TooManyBackgrounds := "Maximum 7 background images allowed"
  const InvalidBackgroundPath := "Invalid background path"
  const StoragePathRequired := "Storage path required"
  const InvalidUrl := "Invalid URL"
  const LabelTooLong := "Label too long"

  // ---------------------------------------------------------------------------
  // createGenerationSchema

  datatype CreateGenerationInput =
    CreateGenerationInput(portraitId: string, keywords: string, backgroundPaths: seq<string>)

  /** The element check on background paths: one message per empty path. */
  function EmptyPathIssues(paths: seq<string>): (issues: seq<string>)
    ensures issues == [] <==> forall k :: 0 <= k < |paths| ==> paths[k] != ""
    ensures forall k :: 0 <= k < |issues| ==> issues[k] == InvalidBackgroundPath
  {
    if paths == [] then []
    else (if paths[0] == "" then [InvalidBackgroundPath] else []) + EmptyPathIssues(paths[1..])
  }

  function CreateGenerationIssues(input: CreateGenerationInput, isUuid: string -> bool): seq<string>
  {
    (if !isUuid(input.portraitId) then [InvalidPortraitId] else [])
    + (if |input.keywords| < MinKeywordsLength then [KeywordsTooShort] else [])
    + (if |input.keywords| > MaxKeywordsLength then [KeywordsTooLong] else [])
    + (if |input.backgroundPaths| > MaxBackgrounds then [TooManyBackgrounds] else [])
    + EmptyPathIssues(input.backgroundPaths)
  }

  /** What the schema accepts, stated field by field. */
  predicate ValidCreateGeneration(input: CreateGenerationInput, isUuid: string -> bool)
  {
    && isUuid(input.portraitId)
    && MinKeywordsLength <= |input.keywords| <= MaxKeywordsLength
    && |input.backgroundPaths| <= MaxBackgrounds
    && forall k :: 0 <= k < |input.backgroundPaths| ==> input.backgroundPaths[k] != ""
  }

  /** `createGenerationSchema.safeParse(input)` reduced to the data or the first message. */
  function ParseCreateGeneration(input: CreateGenerationInput, isUuid: string -> bool)
    : (r: Result<CreateGenerationInput, string>)
    ensures r.Ok? <==> ValidCreateGeneration(input, isUuid)
    ensures r.Ok? ==> r.value == input
    ensures !isUuid(input.portraitId) ==> r == Err(InvalidPortraitId)
    ensures isUuid(input.portraitId) && |input.keywords| < MinKeywordsLength ==> r == Err(KeywordsTooShort)
    ensures isUuid(input.portraitId) && |input.keywords| > MaxKeywordsLength ==> r == Err(KeywordsTooLong)
    ensures (isUuid(input.portraitId) && MinKeywordsLength <= |input.keywords| <= MaxKeywordsLength
             && |input.backgroundPaths| > MaxBackgrounds) ==> r == Err(TooManyBackgrounds)
    ensures (isUuid(input.portraitId) && MinKeywordsLength <= |input.keywords| <= MaxKeywordsLength
             && |input.backgroundPaths| <= MaxBackgrounds && r.Err?) ==> r == Err(InvalidBackgroundPath)
  {
    var issues := CreateGenerationIssues(input, isUuid);
    if issues == [] then Ok(input) else Err(issues[0])
  }

  // ---------------------------------------------------------------------------
  // uploadPortraitSchema and updateLabelSchema

  datatype UploadPortraitInput =
    UploadPortraitInput(storagePath: string, publicUrl: string, labelText: Option<string>)

  function UploadPortraitIssues(input: UploadPortraitInput, isUrl: string -> bool): seq<string>
  {
    (if |input.storagePath| < 1 then [StoragePathRequired] else [])
    + (if !isUrl(input.publicUrl) then [InvalidUrl] else [])
    + (if input.labelText.Some? && |input.labelText.value| > MaxLabelLength then [LabelTooLong] else [])
  }

  function ParseUploadPortrait(input: UploadPortraitInput, isUrl: string -> bool)
    : (r: Result<UploadPortraitInput, string>)
    ensures r.Ok? <==> (input.storagePath != "" && isUrl(input.publicUrl)
                        && (input.labelText.None? || |input.labelText.value| <= MaxLabelLength))
    ensures r.Ok? ==> r.value == input
    ensures input.storagePath == "" ==> r == Err(StoragePathRequired)
    ensures input.storagePath != "" && !isUrl(input.publicUrl) ==> r == Err(InvalidUrl)
    ensures input.storagePath != "" && isUrl(input.publicUrl) && r.Err? ==> r == Err(LabelTooLong)
  {
    var issues := UploadPortraitIssues(input, isUrl);
    if issues == [] then Ok(input) else Err(issues[0])
  }

  datatype UpdateLabelInput = UpdateLabelInput(portraitId: string, labelText: string)

  function UpdateLabelIssues(input: UpdateLabelInput, isUuid: string -> bool): seq<string>
  {
    (if !isUuid(input.portraitId) then [InvalidPortraitId] else [])
    + (if |input.labelText| > MaxLabelLength then [LabelTooLong] else [])
  }

  function ParseUpdateLabel(input: UpdateLabelInput, isUuid: string -> bool)
    : (r: Result<UpdateLabelInput, string>)
    ensures r.Ok? <==> isUuid(input.portraitId) && |input.labelText| <= MaxLabelLength
    ensures r.Ok? ==> r.value == input
    ensures !isUuid(input.portraitId) ==> r == Err(InvalidPortraitId)
    ensures isUuid(input.portraitId) && |input.labelText| > MaxLabelLength ==> r == Err(LabelTooLong)
  {
    var issues := UpdateLabelIssues(input, isUuid);
    if issues == [] then Ok(input) else Err(issues[0])
  }
}

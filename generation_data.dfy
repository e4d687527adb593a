/**
 * The two tables the generation lifecycle writes: `generations`, one row
 * per request, keyed by id and updated in place as the request moves
 * pending -> processing | failed -> completed | failed | partial; and
 * `thumbnails`, to which rows are only ever appended.
 */
module GenerationData {
  import opened Common

  datatype GenStatus = Pending | Processing | Completed | Failed | Partial

  /** The statuses the workflow callback leaves a generation in. */
  predicate IsTerminal(s: GenStatus)
  {
    s == Completed || s == Failed || s == Partial
  }

  datatype Generation = Generation(
    id: string,
    userId: string,
    portraitId: string,
    portraitUrl: string,
    keywords: string,
    backgroundCount: nat,
    status: GenStatus,
    progress: nat,
    currentStep: Option<string>,
    thumbnailCount: nat,
    errorMessage: Option<string>,
    startedAt: Option<int>,
    completedAt: Option<int>)

  datatype ThumbStatus = Success | ThumbFailed

  datatype Thumbnail = Thumbnail(
    generationId: string,
    storagePath: string,
    publicUrl: string,
    prompt: string,
    promptIndex: int,
    backgroundIndex: int,
    kieTaskId: string,
    status: ThumbStatus,
    errorMessage: Option<string>)

  class GenerationTables {
    var generations: map<string, Generation>
    var thumbnails: seq<Thumbnail>
    /** Paths of the objects in the thumbnails storage bucket. */
    var thumbnailObjects: set<string>

    /** Each row is stored under its own id, and progress is a percentage. */
    ghost predicate Valid()
      reads this
    {
      forall id :: id in generations ==> generations[id].id == id && generations[id].progress <= 100
    }

    constructor ()
      ensures Valid()
      ensures generations == map[] && thumbnails == [] && thumbnailObjects == {}
    {
      generations := map[];
      thumbnails := [];
      thumbnailObjects := {};
    }
  }
}

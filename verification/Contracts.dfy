/** The shared data contracts: trace stages, render results and stored job records. */
module Contracts {
  import opened Base
  import opened Domain

  datatype StageStatus = StageRunning | StageSucceeded | StageFailed | StageSkipped

  datatype Stage = Stage(
    name: string,
    status: StageStatus,
    startedAt: int,
    finishedAt: Option<int>,
    error: Option<string>
  )

  datatype ErrorInfo = ErrorInfo(code: string, message: string)

  datatype ArtifactKind = Source | Final | Debug

  datatype AssetRef = AssetRef(assetId: string, kind: ArtifactKind, mimeType: string, url: Option<string>)

  /** Names of processing steps, with their milliseconds. */
  type Metrics = map<string, int>

  datatype RenderResult = RenderResult(
    images: seq<AssetRef>,
    debugImages: seq<AssetRef>,
    metrics: Metrics,
    warnings: seq<string>
  )

  datatype ShadowModel = V1Gan | V2Diff
  datatype BackgroundMode = Solid | Transparent
  datatype OutputFormat = Png | Jpeg

  /** Floating-point fields are the texts of their numbers. */
  datatype ShadowSettings = ShadowSettings(
    model: ShadowModel, angleDeg: Token, elevationDeg: Token, softness: Token, opacity: Token, reflection: Token)
  datatype PreprocessSpec = PreprocessSpec(paddingPx: nat)
  datatype BackgroundSpec = BackgroundSpec(mode: BackgroundMode, colorHex: string)
  datatype OutputSpec = OutputSpec(format: OutputFormat, width: Option<nat>, height: Option<nat>, returnDebug: bool)

  datatype RenderRequest = RenderRequest(
    sourceAssetId: string,
    pipelineVersion: string,
    preprocess: PreprocessSpec,
    shadow: ShadowSettings,
    background: BackgroundSpec,
    output: OutputSpec
  )

  /** One stored snapshot of a job. */
  datatype JobRecord = JobRecord(
    jobId: string,
    status: JobStatus,
    request: RenderRequest,
    cacheKey: Option<string>,
    createdAt: int,
    updatedAt: int,
    startedAt: Option<int>,
    finishedAt: Option<int>,
    error: Option<ErrorInfo>,
    result: Option<RenderResult>,
    trace: seq<Stage>,
    cacheStatus: string,
    reusedExisting: bool
  )

  function LifeOf(job: JobRecord): Lifecycle {
    Lifecycle(job.status, job.createdAt, job.updatedAt, job.startedAt, job.finishedAt)
  }

  /** The record with the entity's status and timestamps copied back. */
  function WithLife(job: JobRecord, life: Lifecycle): JobRecord {
    job.(status := life.status, updatedAt := life.updatedAt,
         startedAt := life.startedAt, finishedAt := life.finishedAt)
  }

  /** Two records of one job: the fields no operation rewrites agree. */
  ghost predicate SameJob(a: JobRecord, b: JobRecord) {
    && a.jobId == b.jobId
    && a.cacheKey == b.cacheKey
    && a.request == b.request
    && a.createdAt == b.createdAt
    && a.cacheStatus == b.cacheStatus
    && a.reusedExisting == b.reusedExisting
  }
}

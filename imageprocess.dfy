/**
 * The image-processing record of the application store (internal/store/models/app):
 * its status values with their validity check, and the constraints its schema declares
 * on the stored collection.
 */
module App {
  import opened Wrappers

  /** A status as Go stores it: any string, of which five are the defined constants. */
  type ImageProcessingStatus = string

  /** The five defined statuses, as a closed enumeration. */
  datatype Status = Pending | Downloaded | Processing | Stacked | Failed {

    /** The string constant Go defines for this status. */
    function Name(): ImageProcessingStatus {
      match this
      case Pending => "pending"
      case Downloaded => "downloaded"
      case Processing => "processing"
      case Stacked => "stacked"
      case Failed => "failed"
    }
  }

  /**
   * ImageProcessingStatus.IsValid: exact, case-sensitive comparison with the five
   * constants. It holds exactly for the strings that name a defined status.
   */
  function IsValid(ips: ImageProcessingStatus): (b: bool)
    ensures b <==> exists st: Status :: st.Name() == ips
  {
    ips == Pending.Name() || ips == Downloaded.Name() || ips == Processing.Name()
    || ips == Stacked.Name() || ips == Failed.Name()
  }

  /** The defined status a string names, if any. */
  function ParseStatus(ips: ImageProcessingStatus): (r: Option<Status>)
    ensures r.Some? <==> IsValid(ips)
    ensures r.Some? ==> r.value.Name() == ips
  {
    if ips == "pending" then Some(Pending)
    else if ips == "downloaded" then Some(Downloaded)
    else if ips == "processing" then Some(Processing)
    else if ips == "stacked" then Some(Stacked)
    else if ips == "failed" then Some(Failed)
    else None
  }

  /** Each defined status is read back from its name, so the five names are pairwise distinct. */
  lemma StatusRoundTrip(st: Status)
    ensures ParseStatus(st.Name()) == Some(st)
  {
  }

  /** The valid domain has exactly five members. */
  lemma FiveValidStatuses()
    ensures forall ips :: IsValid(ips) <==> ips in {"pending", "downloaded", "processing", "stacked", "failed"}
    ensures |{"pending", "downloaded", "processing", "stacked", "failed"}| == 5
  {
  }

  /** Matching is exact: no other spelling, not even a capitalised one, is valid. */
  lemma NearMissesInvalid()
    ensures !IsValid("") && !IsValid("Pending") && !IsValid("PENDING") && !IsValid("pending ")
  {
  }

  /** time.Time values are kept opaque: only their presence matters here. */
  type Timestamp = int

  /**
   * One ImageProcess row. The Go pointer fields (Error, DownloadedAt, ProcessedAt,
   * PreStackedImageID) are optional; Status and FilePath are plain, required values.
   * The schema does not check that Status is valid.
   */
  datatype ImageProcess = ImageProcess(
    id: int,
    acquiredImageID: int,
    status: ImageProcessingStatus,
    filePath: string,
    error: Option<string>,
    downloadedAt: Option<Timestamp>,
    processedAt: Option<Timestamp>,
    preStackedImageID: Option<int>)

  /**
   * The two tables as far as the ImageProcess constraints see them: the rows by primary
   * key, the primary keys of the PreStackedImage rows, and the next auto-increment key.
   */
  datatype Tables = Tables(imageProcesses: map<int, ImageProcess>, preStackedImageIDs: set<int>, nextID: int)

  /** The uniqueIndex on AcquiredImageID: no two rows share it. */
  predicate UniqueAcquiredImageIDs(rows: map<int, ImageProcess>) {
    forall a, b :: a in rows && b in rows && rows[a].acquiredImageID == rows[b].acquiredImageID ==> a == b
  }

  /** The foreign key: a present PreStackedImageID names an existing PreStackedImage. */
  predicate ForeignKeysResolve(t: Tables) {
    forall id :: id in t.imageProcesses && t.imageProcesses[id].preStackedImageID.Some? ==>
      t.imageProcesses[id].preStackedImageID.value in t.preStackedImageIDs
  }

  /** The schema's constraints, together with the primary key agreeing with the row's ID. */
  predicate Consistent(t: Tables) {
    && (forall id :: id in t.imageProcesses ==> t.imageProcesses[id].id == id && id < t.nextID)
    && UniqueAcquiredImageIDs(t.imageProcesses)
    && ForeignKeysResolve(t)
  }

  datatype ConstraintViolation = UniqueAcquiredImageID | MissingPreStackedImage

  /**
   * Inserting a row as the database does under this schema: the primary key is assigned
   * by auto-increment, a second row for the same acquired image is rejected, and so is a
   * PreStackedImageID naming no PreStackedImage. An accepted insert adds exactly the new
   * row and keeps the constraints.
   */
  function Insert(t: Tables, row: ImageProcess): (r: Result<Tables, ConstraintViolation>)
    requires Consistent(t)
    ensures r.Success? <==>
      (forall id :: id in t.imageProcesses ==> t.imageProcesses[id].acquiredImageID != row.acquiredImageID)
      && (row.preStackedImageID.Some? ==> row.preStackedImageID.value in t.preStackedImageIDs)
    ensures r.Success? ==>
      && Consistent(r.value)
      && t.nextID !in t.imageProcesses
      && r.value.imageProcesses == t.imageProcesses[t.nextID := row.(id := t.nextID)]
      && r.value.preStackedImageIDs == t.preStackedImageIDs
    ensures r.Failure? && r.error == UniqueAcquiredImageID ==>
      exists id :: id in t.imageProcesses && t.imageProcesses[id].acquiredImageID == row.acquiredImageID
    ensures r.Failure? && r.error == MissingPreStackedImage ==>
      row.preStackedImageID.Some? && row.preStackedImageID.value !in t.preStackedImageIDs
  {
    if exists id :: id in t.imageProcesses && t.imageProcesses[id].acquiredImageID == row.acquiredImageID then
      Failure(UniqueAcquiredImageID)
    else if row.preStackedImageID.Some? && row.preStackedImageID.value !in t.preStackedImageIDs then
      Failure(MissingPreStackedImage)
    else
      var stored := row.(id := t.nextID);
      Success(Tables(t.imageProcesses[t.nextID := stored], t.preStackedImageIDs, t.nextID + 1))
  }
}

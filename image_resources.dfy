/**
 * The image-resource catalogue: the `image_resources` table (one row per image, unique id and
 * unique URL) and the service that creates, reads, updates, deletes, pages through and counts
 * its rows. The table is a sequence of rows in insertion order; the database's unique
 * constraints are the exceptions the writes can raise.
 */
module ImageResources {
  import opened Wrappers
  import opened Text
  import opened TagCodec

  /** A stored row (`ImageResourceModel`); `tags` holds JSON text, timestamps are clock readings. */
  datatype Row = Row(
    id: string, url: string, filename: Option<string>, filePath: Option<string>,
    fileSize: Option<int>, width: Option<int>, height: Option<int>, format: Option<string>,
    source: Option<string>, searchQuery: Option<string>, tags: Option<string>,
    description: Option<string>, photographer: Option<string>, photographerUrl: Option<string>,
    isDownloaded: bool, downloadStatus: string, errorMessage: Option<string>,
    createdAt: int, updatedAt: int)

  /**
   * `ImageResourceCreate`: what a caller supplies for a new row. `url` is the text the service
   * stores, `str(HttpUrl)` of the caller's URL: already validated and normalised.
   */
  datatype NewResource = NewResource(
    url: string, filename: Option<string>, filePath: Option<string>,
    fileSize: Option<int>, width: Option<int>, height: Option<int>, format: Option<string>,
    source: Option<string>, searchQuery: Option<string>, tags: Option<seq<string>>,
    description: Option<string>, photographer: Option<string>, photographerUrl: Option<string>)

  /** `ImageResourceResponse`: a row as callers see it, with its tags decoded. */
  datatype Resource = Resource(
    id: string, url: string, filename: Option<string>, filePath: Option<string>,
    fileSize: Option<int>, width: Option<int>, height: Option<int>, format: Option<string>,
    source: Option<string>, searchQuery: Option<string>, tags: Option<seq<string>>,
    description: Option<string>, photographer: Option<string>, photographerUrl: Option<string>,
    isDownloaded: bool, downloadStatus: string, errorMessage: Option<string>,
    createdAt: int, updatedAt: int)

  /** A field of `ImageResourceUpdate`: left out of the request, or set (possibly to null). */
  datatype Field<T> = Unset | SetTo(value: T)

  /** `ImageResourceUpdate`: every field optional, and no `url` field at all. */
  datatype ResourceUpdate = ResourceUpdate(
    filename: Field<Option<string>>, filePath: Field<Option<string>>,
    fileSize: Field<Option<int>>, width: Field<Option<int>>, height: Field<Option<int>>,
    format: Field<Option<string>>, source: Field<Option<string>>, searchQuery: Field<Option<string>>,
    tags: Field<Option<seq<string>>>, description: Field<Option<string>>,
    photographer: Field<Option<string>>, photographerUrl: Field<Option<string>>,
    isDownloaded: Field<bool>, downloadStatus: Field<string>, errorMessage: Field<Option<string>>)

  /**
   * The exceptions the service re-raises: a unique constraint violated, a value its column
   * cannot hold (a string longer than its width, an integer outside 32 bits), or paging the
   * database or the arithmetic refuses.
   */
  datatype DbError = IntegrityError | DataError | InvalidPaging

  /** An optional string fits a `String(n)` column: null, or at most `n` characters. */
  predicate FitsWidth(s: Option<string>, n: nat) {
    s.None? || |s.value| <= n
  }

  /** An optional integer fits an `Integer` column, PostgreSQL's 32-bit `int4`: null, or within its range. */
  predicate FitsInt4(v: Option<int>) {
    v.None? || -0x8000_0000 <= v.value < 0x8000_0000
  }

  /**
   * Every string of the row fits the width its `String(n)` column declares, and every integer
   * the range of its `Integer` column.
   */
  predicate FitsColumns(row: Row) {
    && FitsInt4(row.fileSize) && FitsInt4(row.width) && FitsInt4(row.height)
    && |row.id| <= 36 && |row.url| <= 500
    && FitsWidth(row.filename, 255) && FitsWidth(row.filePath, 500) && FitsWidth(row.format, 10)
    && FitsWidth(row.source, 100) && FitsWidth(row.searchQuery, 200)
    && FitsWidth(row.photographer, 200) && FitsWidth(row.photographerUrl, 500)
    && |row.downloadStatus| <= 50
  }

  /** The documented download states. */
  const DownloadStates: set<string> := {"pending", "downloading", "completed", "failed"}

  /** What `create_image_resource` stores as tags: JSON text for a non-empty list, null otherwise. */
  function StoredTags(tags: Option<seq<string>>): Option<string> {
    if tags.Some? && tags.value != [] then Some(Encode(tags.value)) else None
  }

  /** What `update_image_resource` stores as tags when they are set: JSON text for any list, even an empty one. */
  function UpdatedTags(tags: Option<seq<string>>): Option<string> {
    if tags.Some? then Some(Encode(tags.value)) else None
  }

  /** `_model_to_response`'s tags: null or empty text gives none, undecodable text an empty list. */
  function ResponseTags(stored: Option<string>): Option<seq<string>> {
    if stored.None? || stored.value == "" then None
    else match Decode(stored.value)
      case Some(tags) => Some(tags)
      case None => Some([])
  }

  /** Tags given at creation come back as given when non-empty; an empty list comes back as none. */
  lemma CreatedTagsRoundTrip(tags: Option<seq<string>>)
    ensures ResponseTags(StoredTags(tags)) == if tags.Some? && tags.value != [] then tags else None
  {
    if tags.Some? && tags.value != [] {
      DecodeEncode(tags.value);
    }
  }

  /** Tags set by an update always come back exactly as set, an empty list included. */
  lemma UpdatedTagsRoundTrip(tags: Option<seq<string>>)
    ensures ResponseTags(UpdatedTags(tags)) == tags
  {
    if tags.Some? {
      DecodeEncode(tags.value);
    }
  }

  /** A new row: defaults for the download state, both timestamps set to the clock reading. */
  function NewRow(data: NewResource, id: string, now: int): (r: Row)
    ensures r.id == id && r.url == data.url && r.tags == StoredTags(data.tags)
    ensures !r.isDownloaded && r.downloadStatus == "pending" && r.errorMessage.None?
    ensures r.createdAt == now && r.updatedAt == now
  {
    Row(id, data.url, data.filename, data.filePath, data.fileSize, data.width, data.height,
        data.format, data.source, data.searchQuery, StoredTags(data.tags), data.description,
        data.photographer, data.photographerUrl, false, "pending", None, now, now)
  }

  /** `_model_to_response` */
  function ToResource(row: Row): (r: Resource)
    ensures r.id == row.id && r.url == row.url && r.tags == ResponseTags(row.tags)
    ensures r.isDownloaded == row.isDownloaded && r.downloadStatus == row.downloadStatus
  {
    Resource(row.id, row.url, row.filename, row.filePath, row.fileSize, row.width, row.height,
             row.format, row.source, row.searchQuery, ResponseTags(row.tags), row.description,
             row.photographer, row.photographerUrl, row.isDownloaded, row.downloadStatus,
             row.errorMessage, row.createdAt, row.updatedAt)
  }

  /** The table's constraints: the primary key and the URL are each unique. */
  predicate ValidTable(rows: seq<Row>) {
    forall i, j :: 0 <= i < j < |rows| ==> rows[i].id != rows[j].id && rows[i].url != rows[j].url
  }

  /** The position of the row with this id. */
  function FindId(rows: seq<Row>, id: string): (r: Option<nat>)
    ensures r.Some? ==> r.value < |rows| && rows[r.value].id == id
    ensures r.None? <==> forall i :: 0 <= i < |rows| ==> rows[i].id != id
    ensures r.Some? ==> forall i :: 0 <= i < r.value ==> rows[i].id != id
    decreases |rows|
  {
    if rows == [] then None
    else if rows[|rows| - 1].id == id && FindId(rows[..|rows| - 1], id).None? then Some(|rows| - 1)
    else
      var r := FindId(rows[..|rows| - 1], id);
      assert forall i :: 0 <= i < |rows| - 1 ==> rows[..|rows| - 1][i] == rows[i];
      r
  }

  /** The position of the row with this URL. */
  function FindUrl(rows: seq<Row>, url: string): (r: Option<nat>)
    ensures r.Some? ==> r.value < |rows| && rows[r.value].url == url
    ensures r.None? <==> forall i :: 0 <= i < |rows| ==> rows[i].url != url
    decreases |rows|
  {
    if rows == [] then None
    else if rows[|rows| - 1].url == url then Some(|rows| - 1)
    else
      var r := FindUrl(rows[..|rows| - 1], url);
      assert forall i :: 0 <= i < |rows| - 1 ==> rows[..|rows| - 1][i] == rows[i];
      r
  }

  /** `get_image_resource` */
  function GetById(rows: seq<Row>, id: string): Option<Resource> {
    match FindId(rows, id)
    case None => None
    case Some(i) => Some(ToResource(rows[i]))
  }

  /** `get_image_resource_by_url` */
  function GetByUrl(rows: seq<Row>, url: string): Option<Resource> {
    match FindUrl(rows, url)
    case None => None
    case Some(i) => Some(ToResource(rows[i]))
  }

  /** In a valid table a lookup by id or URL finds the one row that has it, or nothing when none does. */
  lemma LookupExact(rows: seq<Row>, i: nat)
    requires ValidTable(rows) && i < |rows|
    ensures GetById(rows, rows[i].id) == Some(ToResource(rows[i]))
    ensures GetByUrl(rows, rows[i].url) == Some(ToResource(rows[i]))
  {
  }

  /**
   * `create_image_resource`: the new row is appended, unless a value is too long for its
   * column or its id or URL is already taken.
   */
  function CreateRow(rows: seq<Row>, data: NewResource, id: string, now: int): Result<seq<Row>, DbError> {
    if !FitsColumns(NewRow(data, id, now)) then Err(DataError)
    else if FindId(rows, id).Some? || FindUrl(rows, data.url).Some? then Err(IntegrityError)
    else Ok(rows + [NewRow(data, id, now)])
  }

  /**
   * A create fails because a value is too long for its column, or because the id or the URL is
   * taken; otherwise it keeps the table valid, and the new row is what both lookups then find.
   */
  lemma CreateRowProperties(rows: seq<Row>, data: NewResource, id: string, now: int)
    requires ValidTable(rows)
    ensures CreateRow(rows, data, id, now) == Err(DataError) <==> !FitsColumns(NewRow(data, id, now))
    ensures CreateRow(rows, data, id, now) == Err(IntegrityError) <==>
      FitsColumns(NewRow(data, id, now)) && exists i :: 0 <= i < |rows| && (rows[i].id == id || rows[i].url == data.url)
    ensures CreateRow(rows, data, id, now).Err? <==>
      !FitsColumns(NewRow(data, id, now)) || exists i :: 0 <= i < |rows| && (rows[i].id == id || rows[i].url == data.url)
    ensures CreateRow(rows, data, id, now).Ok? ==>
      var t := CreateRow(rows, data, id, now).value;
      && ValidTable(t) && |t| == |rows| + 1 && t[..|rows|] == rows
      && GetById(t, id) == Some(ToResource(NewRow(data, id, now)))
      && GetByUrl(t, data.url) == Some(ToResource(NewRow(data, id, now)))
  {
    if CreateRow(rows, data, id, now).Ok? {
      var t := rows + [NewRow(data, id, now)];
      assert t[..|rows|] == rows;
      LookupExact(t, |rows|);
    }
  }

  /** `value` when the field was set, `current` otherwise. */
  function Pick<T>(f: Field<T>, current: T): T {
    if f.SetTo? then f.value else current
  }

  /** The row after `update_image_resource`: only the fields set change, and the update time. */
  function ApplyUpdate(row: Row, upd: ResourceUpdate, now: int): (r: Row)
    ensures r.id == row.id && r.url == row.url && r.createdAt == row.createdAt && r.updatedAt == now
  {
    row.(filename := Pick(upd.filename, row.filename),
         filePath := Pick(upd.filePath, row.filePath),
         fileSize := Pick(upd.fileSize, row.fileSize),
         width := Pick(upd.width, row.width),
         height := Pick(upd.height, row.height),
         format := Pick(upd.format, row.format),
         source := Pick(upd.source, row.source),
         searchQuery := Pick(upd.searchQuery, row.searchQuery),
         tags := if upd.tags.SetTo? then UpdatedTags(upd.tags.value) else row.tags,
         description := Pick(upd.description, row.description),
         photographer := Pick(upd.photographer, row.photographer),
         photographerUrl := Pick(upd.photographerUrl, row.photographerUrl),
         isDownloaded := Pick(upd.isDownloaded, row.isDownloaded),
         downloadStatus := Pick(upd.downloadStatus, row.downloadStatus),
         errorMessage := Pick(upd.errorMessage, row.errorMessage),
         updatedAt := now)
  }

  /** An update that sets nothing changes only the update time. */
  lemma EmptyUpdateTouchesOnlyTime(row: Row, now: int)
    ensures ApplyUpdate(row, ResourceUpdate(Unset, Unset, Unset, Unset, Unset, Unset, Unset, Unset,
                                            Unset, Unset, Unset, Unset, Unset, Unset, Unset), now)
            == row.(updatedAt := now)
  {
  }

  /** The response after an update shows the tags exactly as set, or the stored ones when not set. */
  lemma UpdatedResponseTags(row: Row, upd: ResourceUpdate, now: int)
    ensures ToResource(ApplyUpdate(row, upd, now)).tags ==
      if upd.tags.SetTo? then upd.tags.value else ToResource(row).tags
  {
    if upd.tags.SetTo? {
      UpdatedTagsRoundTrip(upd.tags.value);
    }
  }

  /** `update_image_resource` on the table: the row with the id is replaced by its updated form. */
  function UpdateRows(rows: seq<Row>, id: string, upd: ResourceUpdate, now: int): Option<seq<Row>> {
    match FindId(rows, id)
    case None => None
    case Some(i) => Some(rows[i := ApplyUpdate(rows[i], upd, now)])
  }

  /**
   * An update finds nothing exactly when no row has the id; otherwise only that row changes,
   * keeping its id and URL, so the table stays valid.
   */
  lemma UpdateRowsProperties(rows: seq<Row>, id: string, upd: ResourceUpdate, now: int)
    requires ValidTable(rows)
    ensures UpdateRows(rows, id, upd, now).None? <==> forall i :: 0 <= i < |rows| ==> rows[i].id != id
    ensures UpdateRows(rows, id, upd, now).Some? ==>
      var t := UpdateRows(rows, id, upd, now).value;
      && ValidTable(t) && |t| == |rows|
      && (forall i :: 0 <= i < |rows| && rows[i].id != id ==> t[i] == rows[i])
      && (forall i :: 0 <= i < |rows| ==> t[i].id == rows[i].id && t[i].url == rows[i].url)
      && GetById(t, id) == Some(ToResource(ApplyUpdate(rows[FindId(rows, id).value], upd, now)))
  {
    if FindId(rows, id).Some? {
      var t := UpdateRows(rows, id, upd, now).value;
      LookupExact(t, FindId(rows, id).value);
    }
  }

  /** The rows whose id differs from `id`, in order. */
  function Without(rows: seq<Row>, id: string): (r: seq<Row>)
    ensures |r| <= |rows|
    ensures forall i :: 0 <= i < |r| ==> r[i].id != id
    ensures forall x :: x in r <==> x in rows && x.id != id
    decreases |rows|
  {
    if rows == [] then []
    else Without(rows[..|rows| - 1], id) + (if rows[|rows| - 1].id == id then [] else [rows[|rows| - 1]])
  }

  /** Removing rows keeps the others in their order. */
  lemma {:induction false} WithoutKeepsOrder(rows: seq<Row>, id: string)
    requires ValidTable(rows)
    ensures ValidTable(Without(rows, id))
    decreases |rows|
  {
    if rows != [] {
      var prefix := rows[..|rows| - 1];
      assert ValidTable(prefix);
      WithoutKeepsOrder(prefix, id);
      var w := Without(prefix, id);
      var last := rows[|rows| - 1];
      if last.id != id {
        forall i | 0 <= i < |w| ensures w[i].id != last.id && w[i].url != last.url {
          assert w[i] in prefix;
          var k :| 0 <= k < |prefix| && prefix[k] == w[i];
        }
      }
    }
  }

  /** `delete_image_resource`: the remaining rows, and whether any was removed. */
  function DeleteRows(rows: seq<Row>, id: string): (seq<Row>, bool) {
    (Without(rows, id), FindId(rows, id).Some?)
  }

  /**
   * A delete reports a removal exactly when a row had the id; afterwards no row has it, every
   * other row is kept, and the table stays valid.
   */
  lemma DeleteRowsProperties(rows: seq<Row>, id: string)
    requires ValidTable(rows)
    ensures var (t, removed) := DeleteRows(rows, id);
      && (removed <==> exists i :: 0 <= i < |rows| && rows[i].id == id)
      && GetById(t, id).None?
      && (forall x :: x in rows && x.id != id ==> x in t)
      && |t| == |rows| - (if removed then 1 else 0)
      && ValidTable(t)
  {
    WithoutKeepsOrder(rows, id);
    WithoutCount(rows, id);
  }

  /** In a valid table removing an id removes one row when it is present and none otherwise. */
  lemma {:induction false} WithoutCount(rows: seq<Row>, id: string)
    requires ValidTable(rows)
    ensures |Without(rows, id)| == |rows| - (if FindId(rows, id).Some? then 1 else 0)
    decreases |rows|
  {
    if rows != [] {
      var prefix := rows[..|rows| - 1];
      assert ValidTable(prefix);
      WithoutCount(prefix, id);
      assert forall i :: 0 <= i < |prefix| ==> prefix[i] == rows[i];
      if rows[|rows| - 1].id == id {
        assert FindId(prefix, id).None?;
      }
    }
  }

  /** The rows `bulk_create_image_resources` builds, the i-th with the i-th fresh id. */
  function NewRows(batch: seq<NewResource>, newId: nat -> string, now: int): (r: seq<Row>)
    ensures |r| == |batch|
    ensures forall i :: 0 <= i < |batch| ==> r[i] == NewRow(batch[i], newId(i), now)
  {
    seq(|batch|, i requires 0 <= i < |batch| => NewRow(batch[i], newId(i), now))
  }

  /** The table a bulk create would commit: the old rows followed by the new ones. */
  function AfterBulk(rows: seq<Row>, batch: seq<NewResource>, newId: nat -> string, now: int): seq<Row> {
    rows + NewRows(batch, newId, now)
  }

  /** Every row fits its columns. */
  predicate AllFit(rows: seq<Row>) {
    forall i :: 0 <= i < |rows| ==> FitsColumns(rows[i])
  }

  /**
   * `bulk_create_image_resources`: all the rows are added in one commit, or none is. A value
   * too long for its column is reported before a repeated id or URL.
   */
  function BulkRows(rows: seq<Row>, batch: seq<NewResource>, newId: nat -> string, now: int): (r: Result<seq<Row>, DbError>)
    ensures r == Err(DataError) <==> exists i :: 0 <= i < |batch| && !FitsColumns(NewRow(batch[i], newId(i), now))
    ensures r.Err? <==>
      || (exists i :: 0 <= i < |batch| && !FitsColumns(NewRow(batch[i], newId(i), now)))
      || (exists i, j :: 0 <= i < j < |rows| + |batch| &&
           (AfterBulk(rows, batch, newId, now)[i].id == AfterBulk(rows, batch, newId, now)[j].id
            || AfterBulk(rows, batch, newId, now)[i].url == AfterBulk(rows, batch, newId, now)[j].url))
    ensures r.Ok? ==> r.value == AfterBulk(rows, batch, newId, now) && ValidTable(r.value)
  {
    if !AllFit(NewRows(batch, newId, now)) then Err(DataError)
    else if ValidTable(AfterBulk(rows, batch, newId, now)) then Ok(AfterBulk(rows, batch, newId, now))
    else Err(IntegrityError)
  }

  /** After a successful bulk create the i-th new row is what its id and its URL find. */
  lemma BulkRowFound(rows: seq<Row>, batch: seq<NewResource>, newId: nat -> string, now: int, i: nat)
    requires BulkRows(rows, batch, newId, now).Ok? && i < |batch|
    ensures GetByUrl(BulkRows(rows, batch, newId, now).value, batch[i].url) == Some(ToResource(NewRow(batch[i], newId(i), now)))
    ensures GetById(BulkRows(rows, batch, newId, now).value, newId(i)) == Some(ToResource(NewRow(batch[i], newId(i), now)))
    ensures BulkRows(rows, batch, newId, now).value[..|rows|] == rows
  {
    var t := AfterBulk(rows, batch, newId, now);
    assert t[|rows| + i] == NewRow(batch[i], newId(i), now);
    assert t[..|rows|] == rows;
    LookupExact(t, |rows| + i);
  }

  /** The row after `update_download_status`. */
  function StatusChange(row: Row, status: string, errorMessage: Option<string>, now: int): (r: Row)
    ensures r.downloadStatus == status && r.updatedAt == now
    ensures r.isDownloaded == (row.isDownloaded || status == "completed")
    ensures r.errorMessage == if status == "failed" then errorMessage else row.errorMessage
    ensures r.(downloadStatus := row.downloadStatus, updatedAt := row.updatedAt,
               isDownloaded := row.isDownloaded, errorMessage := row.errorMessage) == row
  {
    if status == "completed" then row.(downloadStatus := status, updatedAt := now, isDownloaded := true)
    else if status == "failed" then row.(downloadStatus := status, updatedAt := now, errorMessage := errorMessage)
    else row.(downloadStatus := status, updatedAt := now)
  }

  /** `update_download_status` on the table: every row with the id gets the new status. */
  function StatusRows(rows: seq<Row>, id: string, status: string, errorMessage: Option<string>, now: int): (r: seq<Row>)
    ensures |r| == |rows|
    ensures forall i :: 0 <= i < |rows| ==>
      r[i] == if rows[i].id == id then StatusChange(rows[i], status, errorMessage, now) else rows[i]
  {
    seq(|rows|, i requires 0 <= i < |rows| =>
      if rows[i].id == id then StatusChange(rows[i], status, errorMessage, now) else rows[i])
  }

  /** A status update keeps every id and URL, so the table stays valid, and a lookup shows the new status. */
  lemma StatusRowsProperties(rows: seq<Row>, id: string, status: string, errorMessage: Option<string>, now: int)
    requires ValidTable(rows)
    ensures ValidTable(StatusRows(rows, id, status, errorMessage, now))
    ensures var r := GetById(StatusRows(rows, id, status, errorMessage, now), id);
      && (r.Some? <==> exists i :: 0 <= i < |rows| && rows[i].id == id)
      && (r.Some? ==> r.value.downloadStatus == status && (status == "completed" ==> r.value.isDownloaded))
  {
    var t := StatusRows(rows, id, status, errorMessage, now);
    if FindId(rows, id).Some? {
      LookupExact(t, FindId(rows, id).value);
    }
  }

  /** The filters of `list_image_resources`; an empty string filters nothing, like null. */
  datatype ListFilter = ListFilter(
    searchQuery: Option<string>, source: Option<string>, downloadStatus: Option<string>, isDownloaded: Option<bool>)

  /** `column ILIKE '%q%'` with `q` taken literally: a non-null column containing `q`, ignoring case. */
  predicate ILike(column: Option<string>, q: string) {
    column.Some? && Contains(Lower(column.value), Lower(q))
  }

  /** A row passes every filter that is given (the filters are combined with AND). */
  predicate Matches(row: Row, f: ListFilter) {
    && (f.searchQuery.None? || f.searchQuery.value == ""
        || ILike(row.searchQuery, f.searchQuery.value) || ILike(row.description, f.searchQuery.value)
        || ILike(row.tags, f.searchQuery.value))
    && (f.source.None? || f.source.value == "" || row.source == f.source)
    && (f.downloadStatus.None? || f.downloadStatus.value == "" || row.downloadStatus == f.downloadStatus.value)
    && (f.isDownloaded.None? || row.isDownloaded == f.isDownloaded.value)
  }

  /** The rows that pass the filters, in table order. */
  function Filtered(rows: seq<Row>, f: ListFilter): (r: seq<Row>)
    ensures |r| <= |rows|
    ensures forall x :: x in r <==> x in rows && Matches(x, f)
    decreases |rows|
  {
    if rows == [] then []
    else Filtered(rows[..|rows| - 1], f) + (if Matches(rows[|rows| - 1], f) then [rows[|rows| - 1]] else [])
  }

  /** Newest first. */
  predicate NewestFirst(rows: seq<Row>) {
    forall i, j :: 0 <= i < j < |rows| ==> rows[i].createdAt >= rows[j].createdAt
  }

  /** `row` put before the first row that is not newer than it. */
  function InsertNewest(row: Row, sorted: seq<Row>): (r: seq<Row>)
    ensures |r| == |sorted| + 1
    ensures multiset(r) == multiset(sorted) + multiset{row}
    decreases |sorted|
  {
    if sorted == [] || sorted[0].createdAt <= row.createdAt then [row] + sorted
    else
      assert sorted == [sorted[0]] + sorted[1..];
      [sorted[0]] + InsertNewest(row, sorted[1..])
  }

  /** Inserting into a newest-first list keeps it newest first. */
  lemma {:induction false} InsertNewestSorted(row: Row, sorted: seq<Row>)
    requires NewestFirst(sorted)
    ensures NewestFirst(InsertNewest(row, sorted))
    decreases |sorted|
  {
    if sorted == [] || sorted[0].createdAt <= row.createdAt {
      NewestCons(row, sorted);
    } else {
      var rest := sorted[1..];
      assert NewestFirst(rest) by {
        forall i, j | 0 <= i < j < |rest| ensures rest[i].createdAt >= rest[j].createdAt {
          assert rest[i] == sorted[i + 1] && rest[j] == sorted[j + 1];
        }
      }
      assert NotNewerThan(rest, sorted[0].createdAt) by {
        forall k | 0 <= k < |rest| ensures rest[k].createdAt <= sorted[0].createdAt {
          assert rest[k] == sorted[k + 1];
        }
      }
      InsertNewestSorted(row, rest);
      InsertNewestBound(row, rest, sorted[0].createdAt);
      NewestCons(sorted[0], InsertNewest(row, rest));
    }
  }

  /** No row of `rows` was created after `t`. */
  predicate NotNewerThan(rows: seq<Row>, t: int) {
    forall k :: 0 <= k < |rows| ==> rows[k].createdAt <= t
  }

  /** Inserting a row no newer than `t` into rows no newer than `t` gives rows no newer than `t`. */
  lemma {:induction false} InsertNewestBound(row: Row, sorted: seq<Row>, t: int)
    requires NotNewerThan(sorted, t) && row.createdAt <= t
    ensures NotNewerThan(InsertNewest(row, sorted), t)
    decreases |sorted|
  {
    var r := InsertNewest(row, sorted);
    if sorted == [] || sorted[0].createdAt <= row.createdAt {
      assert r == [row] + sorted;
      forall k | 0 < k < |r| ensures r[k].createdAt <= t {
        assert r[k] == sorted[k - 1];
      }
    } else {
      var rest := sorted[1..];
      assert NotNewerThan(rest, t) by {
        forall k | 0 <= k < |rest| ensures rest[k].createdAt <= t {
          assert rest[k] == sorted[k + 1];
        }
      }
      InsertNewestBound(row, rest, t);
      var tail := InsertNewest(row, rest);
      assert r == [sorted[0]] + tail;
      forall k | 0 < k < |r| ensures r[k].createdAt <= t {
        assert r[k] == tail[k - 1];
      }
    }
  }

  /** A row in front of newest-first rows none of which is newer than it. */
  lemma NewestCons(first: Row, rows: seq<Row>)
    requires NewestFirst(rows)
    requires rows == [] || rows[0].createdAt <= first.createdAt || NotNewerThan(rows, first.createdAt)
    ensures NewestFirst([first] + rows)
  {
    var r := [first] + rows;
    forall i, j | 0 <= i < j < |r| ensures r[i].createdAt >= r[j].createdAt {
      assert r[j] == rows[j - 1];
      if i > 0 {
        assert r[i] == rows[i - 1];
      } else if rows != [] {
        assert rows[0].createdAt >= rows[j - 1].createdAt || j - 1 == 0;
      }
    }
  }

  /**
   * `ORDER BY created_at DESC`. Rows created at the same time come out here in table order;
   * the database leaves their order unspecified, and this is one order it may return.
   */
  function SortNewest(rows: seq<Row>): (r: seq<Row>)
    ensures |r| == |rows| && multiset(r) == multiset(rows) && NewestFirst(r)
    decreases |rows|
  {
    if rows == [] then []
    else
      assert rows == [rows[0]] + rows[1..];
      InsertNewestSorted(rows[0], SortNewest(rows[1..]));
      InsertNewest(rows[0], SortNewest(rows[1..]))
  }

  /** `(total + per_page - 1) // per_page` */
  function TotalPages(total: nat, perPage: nat): nat
    requires perPage > 0
  {
    (total + perPage - 1) / perPage
  }

  /** The page count is the ceiling of total / per_page: the pages hold every row and the last one is not empty. */
  lemma TotalPagesCeiling(total: nat, perPage: nat)
    requires perPage > 0
    ensures TotalPages(total, perPage) * perPage >= total
    ensures total > 0 ==> (TotalPages(total, perPage) - 1) * perPage < total
    ensures TotalPages(total, perPage) == 0 <==> total == 0
  {
    var n := total + perPage - 1;
    var q := n / perPage;
    assert n == q * perPage + n % perPage;
  }

  /** `ImageResourceList` */
  datatype ResourcePage = ResourcePage(items: seq<Resource>, total: nat, page: int, perPage: int, totalPages: nat)

  /** The rows of the page: offset `(page - 1) * per_page`, at most `per_page` of them. */
  function PageRows(sorted: seq<Row>, page: int, perPage: int): (r: seq<Row>)
    requires page >= 1 && perPage > 0
    ensures |r| <= perPage
    ensures |r| > 0 <==> (page - 1) * perPage < |sorted|
    ensures forall x :: x in r ==> x in sorted
    ensures NewestFirst(sorted) ==> NewestFirst(r)
  {
    var offset := (page - 1) * perPage;
    var lo := if offset < |sorted| then offset else |sorted|;
    var hi := if offset + perPage < |sorted| then offset + perPage else |sorted|;
    assert forall k :: 0 <= k < hi - lo ==> sorted[lo..hi][k] == sorted[lo + k];
    sorted[lo..hi]
  }

  /** The responses for these rows, in order. */
  function ToResources(rows: seq<Row>): (r: seq<Resource>)
    ensures |r| == |rows| && forall i :: 0 <= i < |rows| ==> r[i] == ToResource(rows[i])
  {
    seq(|rows|, i requires 0 <= i < |rows| => ToResource(rows[i]))
  }

  /**
   * `list_image_resources`: a negative offset is refused by the database and a zero or
   * negative page size by the arithmetic (a negative limit, or a division by zero).
   */
  function ListRows(rows: seq<Row>, f: ListFilter, page: int, perPage: int): Result<ResourcePage, DbError> {
    if page < 1 || perPage <= 0 then Err(InvalidPaging)
    else
      var matching := Filtered(rows, f);
      Ok(ResourcePage(ToResources(PageRows(SortNewest(matching), page, perPage)),
                      |matching|, page, perPage, TotalPages(|matching|, perPage)))
  }

  /** The rows of a page are matching rows of the table, newest first. */
  lemma {:induction false} PageRowsMatch(rows: seq<Row>, f: ListFilter, page: int, perPage: int)
    requires page >= 1 && perPage > 0
    ensures var window := PageRows(SortNewest(Filtered(rows, f)), page, perPage);
      && (forall x :: x in window ==> x in rows && Matches(x, f))
      && NewestFirst(window)
  {
    var matching := Filtered(rows, f);
    var sorted := SortNewest(matching);
    var window := PageRows(sorted, page, perPage);
    forall x | x in window ensures x in matching {
      assert x in multiset(sorted);
    }
  }

  /**
   * A listing reports the number of matching rows and the ceiling page count; its items are
   * at most `per_page` matching rows, newest first; and a page has items exactly when its
   * number is at most the page count.
   */
  lemma ListRowsProperties(rows: seq<Row>, f: ListFilter, page: int, perPage: int)
    ensures ListRows(rows, f, page, perPage).Err? <==> page < 1 || perPage <= 0
    ensures ListRows(rows, f, page, perPage).Ok? ==>
      var p := ListRows(rows, f, page, perPage).value;
      var window := PageRows(SortNewest(Filtered(rows, f)), page, perPage);
      && p.total == |Filtered(rows, f)| && p.totalPages * perPage >= p.total
      && p.items == ToResources(window) && |window| <= perPage
      && (forall x :: x in window ==> x in rows && Matches(x, f))
      && NewestFirst(window)
      && (|p.items| > 0 <==> page <= p.totalPages)
  {
    if page >= 1 && perPage > 0 {
      var n := |Filtered(rows, f)|;
      TotalPagesCeiling(n, perPage);
      PageRowsMatch(rows, f, page, perPage);
      PageNonEmpty(n, page, perPage);
    }
  }

  /** The page at offset `(page - 1) * per_page` starts inside the rows exactly when `page` is at most the ceiling page count. */
  lemma PageNonEmpty(total: nat, page: int, perPage: int)
    requires page >= 1 && perPage > 0
    ensures (page - 1) * perPage < total <==> page <= TotalPages(total, perPage)
  {
    TotalPagesCeiling(total, perPage);
    var t := TotalPages(total, perPage);
    if page <= t {
      assert (page - 1) * perPage <= (t - 1) * perPage by {
        MulMono(page - 1, t - 1, perPage);
      }
    } else {
      assert t * perPage <= (page - 1) * perPage by {
        MulMono(t, page - 1, perPage);
      }
    }
  }

  lemma MulMono(a: int, b: int, c: nat)
    requires a <= b
    ensures a * c <= b * c
  {
  }

  /** The number of rows satisfying a count condition. */
  function CountDownloaded(rows: seq<Row>): (n: nat)
    ensures n <= |rows|
    decreases |rows|
  {
    if rows == [] then 0
    else CountDownloaded(rows[..|rows| - 1]) + (if rows[|rows| - 1].isDownloaded then 1 else 0)
  }

  function CountNotDownloaded(rows: seq<Row>): (n: nat)
    ensures n <= |rows|
    decreases |rows|
  {
    if rows == [] then 0
    else CountNotDownloaded(rows[..|rows| - 1]) + (if rows[|rows| - 1].isDownloaded then 0 else 1)
  }

  function CountStatus(rows: seq<Row>, status: string): (n: nat)
    ensures n <= |rows|
    decreases |rows|
  {
    if rows == [] then 0
    else CountStatus(rows[..|rows| - 1], status) + (if rows[|rows| - 1].downloadStatus == status then 1 else 0)
  }

  function CountSource(rows: seq<Row>, source: Option<string>): (n: nat)
    ensures n <= |rows|
    decreases |rows|
  {
    if rows == [] then 0
    else CountSource(rows[..|rows| - 1], source) + (if rows[|rows| - 1].source == source then 1 else 0)
  }

  /** `get_statistics`'s result. */
  datatype Statistics = Statistics(
    total: nat, downloaded: nat, pending: int,
    statusCounts: map<string, nat>, sourceCounts: map<Option<string>, nat>)

  /** `get_statistics`: totals and the counts grouped by status and by source. */
  function Stats(rows: seq<Row>): Statistics {
    var statuses := set r | r in rows :: r.downloadStatus;
    var sources := set r | r in rows :: r.source;
    Statistics(|rows|, CountDownloaded(rows), |rows| - CountDownloaded(rows),
               map s | s in statuses :: CountStatus(rows, s),
               map s | s in sources :: CountSource(rows, s))
  }

  /** `pending` is the number of rows not yet downloaded, so never negative. */
  lemma {:induction false} PendingIsNotDownloaded(rows: seq<Row>)
    ensures Stats(rows).pending == CountNotDownloaded(rows)
    ensures Stats(rows).downloaded + Stats(rows).pending == Stats(rows).total
    decreases |rows|
  {
    if rows != [] {
      PendingIsNotDownloaded(rows[..|rows| - 1]);
    }
  }

  /** A status count is a positive number of rows for every status present, and there is none for an absent status. */
  lemma {:induction false} StatusCountsPositive(rows: seq<Row>, status: string)
    ensures status in Stats(rows).statusCounts <==> exists i :: 0 <= i < |rows| && rows[i].downloadStatus == status
    ensures status in Stats(rows).statusCounts ==> 0 < Stats(rows).statusCounts[status] <= |rows|
    decreases |rows|
  {
    if rows != [] {
      var prefix := rows[..|rows| - 1];
      StatusCountsPositive(prefix, status);
      assert forall i :: 0 <= i < |prefix| ==> prefix[i] == rows[i];
      if status in Stats(rows).statusCounts {
        var i :| 0 <= i < |rows| && rows[i].downloadStatus == status;
        if i == |rows| - 1 {
        } else {
          assert prefix[i].downloadStatus == status;
        }
      }
    }
  }

  /** The service over one database session: the table it reads and writes. */
  class ImageResourceService {
    var rows: seq<Row>

    predicate Valid()
      reads this
    {
      ValidTable(rows)
    }

    /** A service over a table that keeps its constraints. */
    constructor (table: seq<Row>)
      requires ValidTable(table)
      ensures rows == table && Valid()
    {
      rows := table;
    }

    /**
     * `create_image_resource`: a value too long for its column or a violated constraint rolls
     * back and re-raises; otherwise the new row with id `newId` is committed and returned.
     */
    method CreateImageResource(data: NewResource, newId: string, now: int) returns (r: Result<Resource, DbError>)
      requires Valid()
      modifies this
      ensures Valid()
      ensures CreateRow(old(rows), data, newId, now).Err? ==>
        rows == old(rows) && r == Err(CreateRow(old(rows), data, newId, now).error)
      ensures CreateRow(old(rows), data, newId, now).Ok? ==>
        rows == CreateRow(old(rows), data, newId, now).value && r == Ok(ToResource(NewRow(data, newId, now)))
    {
      CreateRowProperties(rows, data, newId, now);
      var created := CreateRow(rows, data, newId, now);
      if created.Err? {
        return Err(created.error);
      }
      rows := created.value;
      r := Ok(ToResource(NewRow(data, newId, now)));
    }

    /** `get_image_resource` */
    function GetImageResource(id: string): (r: Option<Resource>)
      reads this
      ensures r.Some? <==> exists i :: 0 <= i < |rows| && rows[i].id == id
      ensures r.Some? ==> r.value.id == id
    {
      GetById(rows, id)
    }

    /** `get_image_resource_by_url` */
    function GetImageResourceByUrl(url: string): (r: Option<Resource>)
      reads this
      ensures r.Some? <==> exists i :: 0 <= i < |rows| && rows[i].url == url
      ensures r.Some? ==> r.value.url == url
    {
      GetByUrl(rows, url)
    }

    /** `update_image_resource`: an unknown id gives nothing; otherwise the updated row is committed and returned. */
    method UpdateImageResource(id: string, upd: ResourceUpdate, now: int) returns (r: Option<Resource>)
      requires Valid()
      modifies this
      ensures Valid()
      ensures UpdateRows(old(rows), id, upd, now).None? ==> rows == old(rows) && r.None?
      ensures UpdateRows(old(rows), id, upd, now).Some? ==>
        rows == UpdateRows(old(rows), id, upd, now).value && r == GetById(rows, id) && r.Some?
    {
      UpdateRowsProperties(rows, id, upd, now);
      var updated := UpdateRows(rows, id, upd, now);
      if updated.None? {
        return None;
      }
      rows := updated.value;
      r := GetById(rows, id);
    }

    /** `delete_image_resource` */
    method DeleteImageResource(id: string) returns (removed: bool)
      requires Valid()
      modifies this
      ensures Valid()
      ensures (rows, removed) == DeleteRows(old(rows), id)
    {
      DeleteRowsProperties(rows, id);
      var result := DeleteRows(rows, id);
      rows := result.0;
      removed := result.1;
    }

    /**
     * `bulk_create_image_resources`: the rows are built one per item, then committed together;
     * a value too long for its column or a violated constraint rolls back all of them.
     */
    method BulkCreateImageResources(batch: seq<NewResource>, newId: nat -> string, now: int)
      returns (r: Result<seq<Resource>, DbError>)
      requires Valid()
      modifies this
      ensures Valid()
      ensures BulkRows(old(rows), batch, newId, now).Err? ==>
        rows == old(rows) && r == Err(BulkRows(old(rows), batch, newId, now).error)
      ensures BulkRows(old(rows), batch, newId, now).Ok? ==>
        rows == BulkRows(old(rows), batch, newId, now).value
        && r.Ok? && |r.value| == |batch|
        && forall i :: 0 <= i < |batch| ==> r.value[i] == ToResource(NewRow(batch[i], newId(i), now))
    {
      var built: seq<Row> := [];
      for i := 0 to |batch|
        invariant built == NewRows(batch[..i], newId, now)
      {
        built := built + [NewRow(batch[i], newId(i), now)];
      }
      assert batch[..|batch|] == batch;
      if !AllFit(built) {
        return Err(DataError);
      }
      if !ValidTable(rows + built) {
        return Err(IntegrityError);
      }
      rows := rows + built;
      r := Ok(ToResources(built));
    }

    /**
     * `update_download_status`: every row with the id gets the status; "completed" also marks it
     * downloaded and "failed" also stores the message. Nothing is returned when no row has the id.
     */
    method UpdateDownloadStatus(id: string, status: string, errorMessage: Option<string>, now: int)
      returns (r: Option<Resource>)
      requires Valid()
      modifies this
      ensures Valid()
      ensures rows == StatusRows(old(rows), id, status, errorMessage, now)
      ensures r == GetById(rows, id)
      ensures r.Some? <==> exists i :: 0 <= i < |old(rows)| && old(rows)[i].id == id
    {
      StatusRowsProperties(rows, id, status, errorMessage, now);
      rows := StatusRows(rows, id, status, errorMessage, now);
      r := GetById(rows, id);
    }

    /** `list_image_resources` */
    function ListImageResources(f: ListFilter, page: int, perPage: int): (r: Result<ResourcePage, DbError>)
      reads this
      ensures r.Err? <==> page < 1 || perPage <= 0
      ensures r.Ok? ==> r.value.total == |Filtered(rows, f)| && |r.value.items| <= perPage
    {
      ListRowsProperties(rows, f, page, perPage);
      ListRows(rows, f, page, perPage)
    }

    /** `get_statistics` */
    function GetStatistics(): (s: Statistics)
      reads this
      ensures s.total == |rows| && s.pending == CountNotDownloaded(rows) && s.pending >= 0
    {
      PendingIsNotDownloaded(rows);
      Stats(rows)
    }
  }
}

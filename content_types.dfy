/**
 * Classifying a candidate URL by its media type (section 8.3 of RFC 9110): the
 * HEAD probe with its one-byte ranged GET fallback, and the content-type to
 * file-extension tables of the crawlers.
 */
module ContentTypes {
  import opened Wrappers
  import opened Text

  /** One HTTP exchange as the client sees it: a reply with its status and `content-type` header, or an exception. */
  datatype Exchange = Reply(status: int, contentType: Option<string>) | Raised

  /** What the network answers to the probe of one URL: the HEAD request and, if sent, the ranged GET. */
  datatype ProbeReplies = ProbeReplies(head: Exchange, rangeGet: Exchange)

  /** The requests the probe sends (section 9.3.2 and section 14.2 of RFC 9110). */
  datatype ProbeRequest = Head | RangeGet(range: string)

  /** The content type the probe reports and the requests it sent on the way. */
  datatype Probe = Probe(contentType: Option<string>, sent: seq<ProbeRequest>)

  /** The HEAD reply is unusable, so the probe falls back to a ranged GET (`405 or >= 400`). */
  predicate NeedsFallback(head: Exchange) {
    head.Reply? && (head.status == 405 || head.status >= 400)
  }

  /**
   * `_head_content_type`: HEAD first; on status 405 or any status >= 400 a GET for
   * `bytes=0-0`, whose own status >= 400 gives no content type; any exception gives none.
   */
  function HeadContentType(replies: ProbeReplies): (p: Probe)
    ensures p.sent == if NeedsFallback(replies.head) then [Head, RangeGet("bytes=0-0")] else [Head]
    ensures !NeedsFallback(replies.head) ==>
      p.contentType == (if replies.head.Reply? then replies.head.contentType else None)
    ensures NeedsFallback(replies.head) ==>
      p.contentType == (if replies.rangeGet.Reply? && replies.rangeGet.status < 400
                        then replies.rangeGet.contentType else None)
  {
    match replies.head
    case Raised => Probe(None, [Head])
    case Reply(status, headType) =>
      if status == 405 || status >= 400 then
        match replies.rangeGet
        case Raised => Probe(None, [Head, RangeGet("bytes=0-0")])
        case Reply(getStatus, getType) =>
          if getStatus >= 400 then Probe(None, [Head, RangeGet("bytes=0-0")])
          else Probe(getType, [Head, RangeGet("bytes=0-0")])
      else Probe(headType, [Head])
  }

  /** A reported content type always comes from a reply whose status is below 400. */
  lemma ProbeTypeFromSuccessfulReply(replies: ProbeReplies)
    requires HeadContentType(replies).contentType.Some?
    ensures (replies.head.Reply? && replies.head.status < 400)
         || (replies.rangeGet.Reply? && replies.rangeGet.status < 400)
  {
  }

  /** The generic worker's table, in its lookup order. */
  const WorkerTable: seq<(string, string)> := [
    ("image/jpeg", "jpg"), ("image/jpg", "jpg"), ("image/png", "png"), ("image/webp", "webp"),
    ("image/gif", "gif"), ("image/bmp", "bmp"), ("image/tiff", "tiff"), ("image/svg+xml", "svg"),
    ("image/avif", "avif")
  ]

  /** The Bing and Google crawlers' table: the same entries without `image/avif`. */
  const SearchTable: seq<(string, string)> := WorkerTable[..8]

  /** Every extension any table can produce. */
  const Extensions: set<string> := {"jpg", "png", "webp", "gif", "bmp", "tiff", "svg", "avif"}

  /** The index of the first table key that `s` starts with. */
  function FirstPrefix(s: string, table: seq<(string, string)>): (r: Option<nat>)
    ensures r.Some? ==> r.value < |table| && StartsWith(s, table[r.value].0)
    ensures r.Some? ==> forall j :: 0 <= j < r.value ==> !StartsWith(s, table[j].0)
    ensures r.None? ==> forall j :: 0 <= j < |table| ==> !StartsWith(s, table[j].0)
    decreases |table|
  {
    if table == [] then None
    else if StartsWith(s, table[0].0) then Some(0)
    else match FirstPrefix(s, table[1..])
      case None => None
      case Some(i) => Some(i + 1)
  }

  /** Python's truthiness of an optional string: present and non-empty. */
  predicate Truthy(s: Option<string>) {
    s.Some? && s.value != ""
  }

  /**
   * `_infer_extension_from_content_type`: nothing for a missing or empty type, otherwise the
   * extension of the first key the lower-cased type starts with, or nothing if none does.
   */
  function InferExtension(contentType: Option<string>, table: seq<(string, string)>): (r: Option<string>)
    ensures !Truthy(contentType) ==> r.None?
    ensures Truthy(contentType) ==>
      var i := FirstPrefix(Lower(contentType.value), table);
      (i.None? ==> r.None?) && (i.Some? ==> r == Some(table[i.value].1))
  {
    if !Truthy(contentType) then None
    else match FirstPrefix(Lower(contentType.value), table)
      case None => None
      case Some(i) => Some(table[i].1)
  }

  /** Both tables only ever produce one of the eight listed extensions. */
  lemma InferExtensionRange(contentType: Option<string>)
    ensures InferExtension(contentType, WorkerTable).Some? ==> InferExtension(contentType, WorkerTable).value in Extensions
    ensures InferExtension(contentType, SearchTable).Some? ==> InferExtension(contentType, SearchTable).value in Extensions
  {
  }

  /** No key before the last one matches an `image/avif` type: they differ at the seventh character. */
  lemma {:induction false} AvifMissesEarlierKeys(s: string)
    requires StartsWith(s, "image/avif")
    ensures forall j :: 0 <= j < 8 ==> !StartsWith(s, WorkerTable[j].0)
  {
    forall j | 0 <= j < 8
      ensures !StartsWith(s, WorkerTable[j].0)
    {
      assert s[6] == "image/avif"[6] == 'a';
      assert WorkerTable[j].0[6] != 'a';
    }
  }

  /** The worker recognises `image/avif` in any letter case; the Bing and Google table does not. */
  lemma {:induction false} AvifOnlyInWorkerTable(contentType: string)
    requires Lower(contentType) == "image/avif"
    ensures InferExtension(Some(contentType), WorkerTable) == Some("avif")
    ensures InferExtension(Some(contentType), SearchTable) == None
  {
    var s := Lower(contentType);
    assert StartsWith(s, "image/avif");
    AvifMissesEarlierKeys(s);
    assert StartsWith(s, WorkerTable[8].0);
    var i := FirstPrefix(s, WorkerTable);
    assert i == Some(8);
    assert FirstPrefix(s, SearchTable).None?;
  }

  /** `content_type.lower().startswith("image/")`, the crawl loop's test for an image. */
  predicate IsImageType(contentType: Option<string>) {
    Truthy(contentType) && StartsWith(Lower(contentType.value), "image/")
  }

  /** Every type that yields an extension passes the crawl loop's image test. */
  lemma ExtensionImpliesImage(contentType: Option<string>, table: seq<(string, string)>)
    requires forall i :: 0 <= i < |table| ==> StartsWith(table[i].0, "image/")
    requires InferExtension(contentType, table).Some?
    ensures IsImageType(contentType)
  {
    var i := FirstPrefix(Lower(contentType.value), table).value;
    var s := Lower(contentType.value);
    assert s[..6] == s[..|table[i].0|][..6];
  }

  lemma TablesAreImageTypes()
    ensures forall i :: 0 <= i < |WorkerTable| ==> StartsWith(WorkerTable[i].0, "image/")
    ensures forall i :: 0 <= i < |SearchTable| ==> StartsWith(SearchTable[i].0, "image/")
  {
  }
}

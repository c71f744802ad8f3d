/** The pure parts of src/lib/api.ts: what a list fetch returns, the row
    `createOrder` inserts, and the file-name and storage-path strings of
    the product-image helpers. The backend calls themselves are outside
    the model. */
module Api {
  import opened Outcomes
  import opened Strings
  import opened Commerce

  /** What the backend answers to a list query: rows (possibly none at all)
      and possibly an error. */
  datatype Response<T> = Response(data: Option<seq<T>>, error: Option<Thrown>)

  /** `if (error) throw error; return data ?? [];` */
  function FetchList<T>(resp: Response<T>): (r: Result<seq<T>>)
    ensures r.Err? <==> resp.error.Some?
    ensures r.Err? ==> r.error == resp.error.value
    ensures r.Ok? && resp.data.None? ==> r.value == []
    ensures r.Ok? && resp.data.Some? ==> r.value == resp.data.value
  {
    match resp.error
    case Some(e) => Err(e)
    case None => Ok(resp.data.GetOr([]))
  }

  /** The row `createOrder` inserts: the submitted order plus a status. */
  datatype OrderRow = OrderRow(
    customerName: string,
    customerEmail: string,
    items: seq<OrderItem>,
    total: int,
    status: string)

  const PendingStatus: string := "pending"

  /** `{ ...order, status: "pending" }`: every submitted field kept, and
      the status always "pending". */
  function InsertedRow(order: NewOrder): (row: OrderRow)
    ensures row.status == PendingStatus
    ensures row.customerName == order.customerName && row.customerEmail == order.customerEmail
    ensures row.items == order.items && row.total == order.total
  {
    OrderRow(order.customerName, order.customerEmail, order.items, order.total, PendingStatus)
  }

  /** `file.name.split(".").pop()`: the text after the last ".", or the
      whole name when it has no ".". */
  function FileExtension(fileName: string): (ext: string)
    ensures '.' !in ext
    ensures |ext| <= |fileName| && ext == fileName[|fileName| - |ext|..]
    ensures |ext| < |fileName| ==> fileName[|fileName| - |ext| - 1] == '.'
    ensures '.' !in fileName ==> ext == fileName
  {
    AfterLast(fileName, '.')
  }

  /** The name an upload is stored under: a time-and-random stem (a
      parameter here), a ".", and the original file's extension, which the
      stored name keeps whatever the stem. */
  function StoredFileName(stem: string, fileName: string): (name: string)
    ensures |name| > |stem| && name[..|stem|] == stem && name[|stem|] == '.'
    ensures FileExtension(name) == FileExtension(fileName)
  {
    AfterLastOfJoin(stem, '.', FileExtension(fileName));
    stem + "." + FileExtension(fileName)
  }

  const BucketMarker: string := "/product-images/"

  /** `deleteProductImage`'s path: the part of the URL's pathname that
      starts right after the first "/product-images/" and ends at the next
      one, or at the end of the pathname when there is no other; `None`
      (nothing is removed) when the pathname does not contain it. */
  function StoragePath(pathname: string): (path: Option<string>)
    ensures path.None? <==> forall j :: !OccursAt(pathname, BucketMarker, j)
    ensures path.Some? ==> forall j :: !OccursAt(path.value, BucketMarker, j)
    ensures path.Some? ==> forall k :: FirstAt(pathname, BucketMarker, k) ==>
      var from := k + |BucketMarker|;
      PartEnd(pathname, BucketMarker, from, from + |path.value|)
      && path.value == pathname[from..from + |path.value|]
  {
    match SecondPart(pathname, BucketMarker)
    case None => None
    case Some(p) =>
      SecondPartHasNoSeparator(pathname, BucketMarker);
      Some(p)
  }

  /** For a public URL whose pathname is a prefix, the bucket marker, and
      the stored file name (which has no "/"), the path deleted is exactly
      the stored file name: uploading and then deleting an image removes
      the object that was uploaded. */
  lemma PublicPathRoundTrip(prefix: string, name: string)
    requires forall j :: 0 <= j < |prefix| ==> !OccursAt(prefix + BucketMarker, BucketMarker, j)
    requires '/' !in name
    ensures StoragePath(prefix + BucketMarker + name) == Some(name)
  {
    var s := prefix + BucketMarker + name;
    var m := BucketMarker;
    assert s[..|prefix| + |m|] == prefix + m;
    forall j | 0 <= j < |prefix| ensures !OccursAt(s, m, j) {
      assert OccursAt(s, m, j) ==> OccursAt(prefix + m, m, j) by {
        if OccursAt(s, m, j) {
          assert s[j..j + |m|] == (prefix + m)[j..j + |m|];
        }
      }
    }
    assert OccursAt(s, m, |prefix|);
    assert FirstAt(s, m, |prefix|);
    var start := |prefix| + |m|;
    forall j | start <= j ensures !OccursAt(s, m, j) {
      if j + |m| <= |s| {
        assert s[j..j + |m|][0] == s[j] == name[j - start];
        assert s[j] != m[0];
      }
    }
    var path := StoragePath(s);
    assert path.Some?;
    assert PartEnd(s, m, start, start + |path.value|);
    assert start + |path.value| == |s|;
    assert path.value == s[start..];
    assert s[start..] == name;
  }
}

/**
  The storage service: recovering an object key from a stored video locator, in the two
  locator styles the service supports, and minting a time-limited download link for it.
  URL parsing and request signing are oracles in `S3Env`.
*/
module S3Service {
  import opened Wrappers
  import opened Text

  /** `Endpoint` when `S3_ENDPOINT_URL` is set (MinIO, path-style locators); `Aws` otherwise. */
  datatype StorageMode = Endpoint | Aws

  /**
    `parts.filter(part => part.length > 0)`: no empty part is kept, every other part is kept as
    often as it occurs, and a list without empty parts comes back as it is. With
    `NonEmptyPartsAppend` this fixes the order as well.
  */
  function NonEmptyParts(parts: seq<string>): (r: seq<string>)
    ensures |r| <= |parts|
    ensures forall i :: 0 <= i < |r| ==> r[i] != "" && r[i] in parts
    ensures forall p :: p != "" ==> multiset(r)[p] == multiset(parts)[p]
    ensures (forall i :: 0 <= i < |parts| ==> parts[i] != "") ==> r == parts
    decreases |parts|
  {
    if parts == [] then []
    else
      var rest := NonEmptyParts(parts[1..]);
      assert parts == [parts[0]] + parts[1..];
      assert multiset(parts) == multiset{parts[0]} + multiset(parts[1..]);
      assert forall p :: p in parts[1..] ==> p in parts;
      if parts[0] == "" then rest else [parts[0]] + rest
  }

  /** The filter distributes over concatenation, so the kept parts stay in their order. */
  lemma {:induction false} NonEmptyPartsAppend(a: seq<string>, b: seq<string>)
    ensures NonEmptyParts(a + b) == NonEmptyParts(a) + NonEmptyParts(b)
    decreases |a|
  {
    if a == [] {
      assert a + b == b;
    } else {
      assert (a + b)[1..] == a[1..] + b;
      assert (a + b)[0] == a[0];
      NonEmptyPartsAppend(a[1..], b);
    }
  }

  /** `parts.slice(1)`. */
  function DropFirst(parts: seq<string>): seq<string> {
    if parts == [] then [] else parts[1..]
  }

  /** The non-empty `/`-separated segments of a path. */
  function Segments(pathname: string): (r: seq<string>)
    ensures forall i :: 0 <= i < |r| ==> r[i] != "" && '/' !in r[i]
  {
    NonEmptyParts(Split(pathname, '/'))
  }

  /** The root path has no segments. */
  lemma RootSegments()
    ensures Segments("/") == []
  {
    assert Split("/", '/') == [""] + Split("", '/');
    assert NonEmptyParts(["", ""]) == [];
  }

  /** An absolute path built from non-empty, slash-free segments splits back into exactly them. */
  lemma SegmentsOfPath(ps: seq<string>)
    requires forall i :: 0 <= i < |ps| ==> ps[i] != "" && '/' !in ps[i]
    ensures Segments("/" + Join(ps, '/')) == ps
  {
    if ps == [] {
      RootSegments();
    } else {
      var all := [""] + ps;
      assert all[1..] == ps;
      assert Join(all, '/') == "/" + Join(ps, '/');
      SplitOfJoin(all, '/');
      NonEmptyPartsAppend([""], ps);
    }
  }

  /**
    `extractS3KeyFromUrl`, given the locator's parsed pathname. Endpoint style: drop the empty
    segments and the first remaining one (the bucket), join the rest with `/`. AWS style: the
    pathname without its first character.
  */
  function ExtractKey(mode: StorageMode, pathname: string): (key: string)
    ensures mode == Endpoint ==> (key == "" <==> |Segments(pathname)| <= 1)
    ensures mode == Endpoint && key != "" ==> Split(key, '/') == Segments(pathname)[1..]
    ensures mode == Endpoint && key != "" ==> forall i :: 0 <= i < |Split(key, '/')| ==> Split(key, '/')[i] != ""
    ensures mode == Aws && pathname != [] ==> [pathname[0]] + key == pathname
    ensures mode == Aws && pathname == [] ==> key == ""
  {
    match mode
    case Endpoint =>
      var key := Join(DropFirst(Segments(pathname)), '/');
      EndpointKeyFacts(Segments(pathname));
      key
    case Aws =>
      if pathname == [] then "" else pathname[1..]
  }

  /** Joining the segments after the bucket: empty exactly when there are none, and splitting it back gives them. */
  lemma EndpointKeyFacts(segments: seq<string>)
    requires forall i :: 0 <= i < |segments| ==> segments[i] != "" && '/' !in segments[i]
    ensures var key := Join(DropFirst(segments), '/');
      && (key == "" <==> |segments| <= 1)
      && (key != "" ==> Split(key, '/') == segments[1..])
      && (key == "" ==> Split(key, '/') == [""])
  {
    var rest := DropFirst(segments);
    if |segments| >= 2 {
      assert rest == segments[1..];
      JoinNonEmpty(rest, '/');
      SplitOfJoin(rest, '/');
    }
  }

  /** Joining a non-empty list whose first piece is non-empty gives text that is not empty. */
  lemma JoinNonEmpty(parts: seq<string>, c: char)
    requires |parts| >= 1 && parts[0] != ""
    ensures Join(parts, c) != ""
  {
    if |parts| > 1 {
      assert |Join(parts, c)| >= |parts[0]|;
    }
  }

  // ---------------------------------------------------------------------------
  // generatePresignedVideoUrl
  // ---------------------------------------------------------------------------

  /**
    The storage environment: the locator style, the bucket (`S3_BUCKET_NAME`), `new URL(..).pathname`
    (`None` when the URL constructor throws) and the presigner (`None` when signing throws).
  */
  datatype S3Env = S3Env(
    mode: StorageMode,
    bucket: string,
    parse: string -> Option<string>,
    sign: (string, string, int) -> Option<string>)

  const DefaultExpiry := 3600
  const PresignFailure := "Failed to generate presigned URL"

  /** `expiresIn: number = 3600`. */
  function Expiry(expiresIn: Option<int>): int {
    if expiresIn.Some? then expiresIn.value else DefaultExpiry
  }

  /**
    A download link for the object the locator names, valid for `expiresIn` seconds (an hour by
    default); any failure, in parsing or in signing, surfaces as the one wrapped message.
  */
  function GeneratePresignedVideoUrl(env: S3Env, locator: string, expiresIn: Option<int>): (r: Result<string, string>)
    ensures r.Err? ==> r.error == PresignFailure
    ensures r.Ok? <==>
      && env.parse(locator).Some?
      && env.sign(env.bucket, ExtractKey(env.mode, env.parse(locator).value), Expiry(expiresIn)).Some?
    ensures r.Ok? ==> Some(r.value) == env.sign(env.bucket, ExtractKey(env.mode, env.parse(locator).value), Expiry(expiresIn))
    ensures r.Ok? && expiresIn.None? ==>
      Some(r.value) == env.sign(env.bucket, ExtractKey(env.mode, env.parse(locator).value), 3600)
  {
    match env.parse(locator)
    case None => Err(PresignFailure)
    case Some(pathname) =>
      match env.sign(env.bucket, ExtractKey(env.mode, pathname), Expiry(expiresIn))
      case None => Err(PresignFailure)
      case Some(url) => Ok(url)
  }
}

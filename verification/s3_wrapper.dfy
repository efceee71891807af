/** `src/s3_wrapper.py`: reading a JSON document from object storage given a payload
    path of the form "/<bucket>/<key>".

    The storage service is a collaborator that, given a bucket and a key, yields the
    decoded document, reports that the body did not decode, or fails with a message.
 */
module S3Wrapper {
  import opened Common
  import opened Text

  const InvalidPathMessage: string := "Invalid S3 payload path."
  const DecodeFailureMessage: string := "Failed to decode S3 payload."
  const RetrieveFailurePrefix: string := "Failed to retrieve S3 payload: "

  /** Where an object is stored. */
  datatype S3Location = S3Location(bucket: string, key: string)

  /** What fetching and decoding one object yields: the decoded document; a body that
      does not decode (a `ValueError` from decoding or from `json.loads`); or any other
      failure of the service, client creation included, with its message. */
  datatype S3Reply = Document(payload: Json) | Undecodable | ServiceFailure(message: string)

  type S3 = S3Location -> S3Reply

  /** The outcome of a retrieval and the locations requested from the service. */
  datatype Fetch = Fetch(outcome: Result<Json>, requested: seq<S3Location>)

  /** Split the payload path on "/": the bucket is the second piece and the key is the
      rest joined back with "/"; a path without any "/" has no second piece. */
  function SplitPayloadPath(path: string): (r: Result<S3Location>)
    ensures r.Raise? <==> '/' !in path
    ensures r.Raise? ==> r.error == ValueError(InvalidPathMessage)
    ensures r.Ok? ==> '/' !in r.value.bucket
    ensures r.Ok? ==> EndsWith(path, r.value.key)
  {
    var parts := Split(path, '/');
    SplitPieces(path, '/');
    if |parts| < 2 then Raise(ValueError(InvalidPathMessage))
    else
      var loc := S3Location(parts[1], Join("/", parts[2..]));
      PathEndsWithKey(path);
      Ok(loc)
  }

  /** The joined tail of the pieces is a suffix of the path. */
  lemma PathEndsWithKey(path: string)
    requires |Split(path, '/')| >= 2
    ensures EndsWith(path, Join("/", Split(path, '/')[2..]))
  {
    var parts := Split(path, '/');
    var key := Join("/", parts[2..]);
    PathDecomposes(path);
    if |parts| == 2 {
      assert key == "";
      assert path[|path| - |key|..] == key;
    } else {
      var prefix := parts[0] + "/" + parts[1] + "/";
      assert path == prefix + key;
      assert path[|prefix|..] == key;
    }
  }

  /** The path is its first two pieces and its key put back together with "/". */
  lemma PathDecomposes(path: string)
    requires |Split(path, '/')| >= 2
    ensures var parts := Split(path, '/');
      var key := Join("/", parts[2..]);
      if |parts| == 2 then path == parts[0] + "/" + parts[1] && key == ""
      else path == parts[0] + "/" + parts[1] + "/" + key
  {
    JoinSplit(path, '/');
    JoinTwoHeads("/", Split(path, '/'));
  }

  /** A join of at least two pieces, with its first two pieces written out. */
  lemma JoinTwoHeads(sep: string, parts: seq<string>)
    requires |parts| >= 2
    ensures |parts| == 2 ==> Join(sep, parts) == parts[0] + sep + parts[1]
    ensures |parts| > 2 ==> Join(sep, parts) == parts[0] + sep + parts[1] + sep + Join(sep, parts[2..])
  {
    assert parts[1..][1..] == parts[2..];
  }

  /** `retrieve_s3_payload`: no request is made for a path without "/"; otherwise exactly
      the bucket and key read off the path are requested and the reply is mapped to the
      document or to one of the two `RuntimeError`s. */
  function RetrieveS3Payload(s3: S3, path: string): (f: Fetch)
    ensures '/' !in path ==> f == Fetch(Raise(ValueError(InvalidPathMessage)), [])
    ensures '/' in path ==> f.requested == [SplitPayloadPath(path).value]
    ensures f.outcome.Ok? <==> '/' in path && s3(SplitPayloadPath(path).value).Document?
    ensures f.outcome.Ok? ==> f.outcome.value == s3(f.requested[0]).payload
    ensures '/' in path && s3(f.requested[0]).Undecodable? ==>
              f.outcome == Raise(RuntimeError(DecodeFailureMessage))
    ensures '/' in path && s3(f.requested[0]).ServiceFailure? ==>
              f.outcome == Raise(RuntimeError(RetrieveFailurePrefix + s3(f.requested[0]).message))
  {
    match SplitPayloadPath(path)
    case Raise(e) => Fetch(Raise(e), [])
    case Ok(loc) =>
      var outcome := match s3(loc)
        case Document(payload) => Ok(payload)
        case Undecodable => Raise(RuntimeError(DecodeFailureMessage))
        case ServiceFailure(m) => Raise(RuntimeError(RetrieveFailurePrefix + m));
      Fetch(outcome, [loc])
  }

  /** The location read off a path depends only on its pieces after the first. */
  lemma LocationFromPieces(path: string, head: string, bucket: string, tail: seq<string>)
    requires Split(path, '/') == [head, bucket] + tail
    ensures SplitPayloadPath(path) == Ok(S3Location(bucket, Join("/", tail)))
  {
    var parts := Split(path, '/');
    assert parts[1] == bucket;
    assert parts[2..] == tail;
  }

  /** A rooted path splits into an empty piece, the bucket and the pieces of the key. */
  lemma RootedPathPieces(bucket: string, key: string)
    requires '/' !in bucket
    ensures Split("/" + bucket + "/" + key, '/') == ["", bucket] + Split(key, '/')
  {
    var inner := bucket + ['/'] + key;
    assert "/" + bucket + "/" + key == [] + ['/'] + inner;
    SplitCons([], '/', inner);
    SplitCons(bucket, '/', key);
  }

  /** A rooted path "/<bucket>/<key>" names exactly that bucket and key, whatever
      slashes the key holds. */
  lemma {:induction false} PayloadPathRoundTrip(bucket: string, key: string)
    requires '/' !in bucket
    ensures SplitPayloadPath("/" + bucket + "/" + key) == Ok(S3Location(bucket, key))
  {
    RootedPathPieces(bucket, key);
    LocationFromPieces("/" + bucket + "/" + key, "", bucket, Split(key, '/'));
    JoinSplit(key, '/');
  }

  /** Whatever precedes the first "/" is discarded. */
  lemma {:induction false} LeadingPieceIgnored(head: string, rest: string)
    requires '/' !in head
    ensures SplitPayloadPath(head + "/" + rest) == SplitPayloadPath("/" + rest)
  {
    var pieces := Split(rest, '/');
    HeadPieces(head, rest);
    HeadPieces("", rest);
    assert "" + "/" + rest == "/" + rest;
    LocationFromPieces(head + "/" + rest, head, pieces[0], pieces[1..]);
    LocationFromPieces("/" + rest, "", pieces[0], pieces[1..]);
  }

  /** The pieces of a path whose first piece is `head`. */
  lemma HeadPieces(head: string, rest: string)
    requires '/' !in head
    ensures var pieces := Split(rest, '/');
      Split(head + "/" + rest, '/') == [head, pieces[0]] + pieces[1..]
  {
    var pieces := Split(rest, '/');
    assert pieces == [pieces[0]] + pieces[1..];
    assert head + "/" + rest == head + ['/'] + rest;
    SplitCons(head, '/', rest);
  }

  /** A path with a single "/" names the piece after it as the bucket and an empty key. */
  lemma {:induction false} SingleSlashGivesEmptyKey(head: string, bucket: string)
    requires '/' !in head && '/' !in bucket
    ensures SplitPayloadPath(head + "/" + bucket) == Ok(S3Location(bucket, ""))
  {
    assert head + "/" + bucket == head + ['/'] + bucket;
    SplitCons(head, '/', bucket);
    assert Split(head + "/" + bucket, '/') == [head, bucket];
  }

  /** A well-formed path is fetched from the bucket and key it names and its document is
      returned unchanged. */
  lemma RetrievalFetchesNamedObject(s3: S3, bucket: string, key: string)
    requires '/' !in bucket
    ensures var f := RetrieveS3Payload(s3, "/" + bucket + "/" + key);
      f.requested == [S3Location(bucket, key)] &&
      (s3(S3Location(bucket, key)).Document? ==> f.outcome == Ok(s3(S3Location(bucket, key)).payload))
  {
    PayloadPathRoundTrip(bucket, key);
  }
}

/** Bucket and object operations. Each makes its transport call(s), reads the
    reply into its typed record, compares the status code with the one the
    operation expects, and either returns or raises the matching error. */
module Buckets {
  import opened Wrappers
  import opened Wire
  import opened Models
  import opened Exceptions
  import opened Decimal
  import Transport

  /** 200 OK and 204 No Content, sections 15.3.1 and 15.3.5 of RFC 9110. */
  const OK := 200
  const NO_CONTENT := 204

  /** The client error codes `create` reports as an existing bucket. */
  const AlreadyExistsCodes: set<string> := {"BucketAlreadyOwnedByYou", "BucketNotEmpty"}

  /** What an operation raises: one of the driver's own exceptions, a
      validation error from reading the reply, or the client's error passed
      on unchanged. */
  datatype Raised = S3(exception: S3Exception) | Invalid(error: ParseError) | Propagated(code: string)

  /** The calls an operation made, in order, and how it ended. */
  datatype Step<T> = Step(calls: seq<Transport.Call>, result: Result<T, Raised>)

  /** A handle on one bucket. The client is passed to each operation. */
  datatype S3Bucket = S3Bucket(bucketName: string)

  /** A handle on one object, made from its bucket's handle. */
  datatype S3Object = S3Object(bucketName: string, objectName: string)

  /** A call's outcome read with `parse`: client errors and validation
      errors both propagate. */
  function Reading<R>(outcome: Transport.Outcome, parse: Fields -> Result<R, ParseError>): Result<R, Raised>
  {
    match outcome
    case ClientError(code) => Failure(Propagated(code))
    case Reply(fields) =>
      match parse(fields)
      case Success(v) => Success(v)
      case Failure(e) => Failure(Invalid(e))
  }

  // ---------------------------------------------------------------------------
  // S3Bucket

  function Create(b: S3Bucket, client: Transport.Client): (r: Step<bool>)
    ensures r.calls == [Transport.CreateBucket(b.bucketName)]
    ensures var out := client(Transport.CreateBucket(b.bucketName));
      && (r.result.Success? <==>
            out.Reply? && ParseCreateBucket(out.fields).Success?
            && ParseCreateBucket(out.fields).value.metadata.httpStatusCode == OK)
      && (r.result.Success? ==> r.result.value)
      && (out.Reply? && ParseCreateBucket(out.fields).Success?
          && ParseCreateBucket(out.fields).value.metadata.httpStatusCode != OK ==>
            r.result == Failure(S3(BucketCreationError(b.bucketName, ParseCreateBucket(out.fields).value.metadata.httpStatusCode))))
      && (out.Reply? && ParseCreateBucket(out.fields).Failure? ==>
            r.result == Failure(Invalid(ParseCreateBucket(out.fields).error)))
      && (out.ClientError? && out.code in AlreadyExistsCodes ==>
            r.result == Failure(S3(BucketAlreadyExists(b.bucketName))))
      && (out.ClientError? && out.code !in AlreadyExistsCodes ==>
            r.result == Failure(Propagated(out.code)))
  {
    var call := Transport.CreateBucket(b.bucketName);
    var result :=
      match client(call)
      case ClientError(code) =>
        if code in AlreadyExistsCodes then Failure(S3(BucketAlreadyExists(b.bucketName)))
        else Failure(Propagated(code))
      case Reply(_) =>
        match Reading(client(call), ParseCreateBucket)
        case Failure(e) => Failure(e)
        case Success(response) =>
          var status := response.metadata.httpStatusCode;
          if status != OK then Failure(S3(BucketCreationError(b.bucketName, status))) else Success(true);
    Step([call], result)
  }

  /** Returns the parsed reply itself, not a flag. */
  function Head(b: S3Bucket, client: Transport.Client): (r: Step<ResponseHead>)
    ensures r.calls == [Transport.HeadBucket(b.bucketName)]
    ensures var out := client(Transport.HeadBucket(b.bucketName));
      && (out.ClientError? ==> r.result == Failure(Propagated(out.code)))
      && (out.Reply? && ParseHead(out.fields).Failure? ==> r.result == Failure(Invalid(ParseHead(out.fields).error)))
      && (out.Reply? && ParseHead(out.fields).Success? ==>
            var status := ParseHead(out.fields).value.metadata.httpStatusCode;
            r.result == if status == OK then Success(ParseHead(out.fields).value)
                        else Failure(S3(BucketHeadError(b.bucketName, status))))
  {
    var call := Transport.HeadBucket(b.bucketName);
    var result :=
      match Reading(client(call), ParseHead)
      case Failure(e) => Failure(e)
      case Success(response) =>
        var status := response.metadata.httpStatusCode;
        if status != OK then Failure(S3(BucketHeadError(b.bucketName, status))) else Success(response);
    Step([call], result)
  }

  function ListObjects(b: S3Bucket, client: Transport.Client): (r: Step<seq<Content>>)
    ensures r.calls == [Transport.ListObjectsV2(b.bucketName)]
    ensures var out := client(Transport.ListObjectsV2(b.bucketName));
      && (out.ClientError? ==> r.result == Failure(Propagated(out.code)))
      && (out.Reply? && ParseListObjectsBucket(out.fields).Failure? ==>
            r.result == Failure(Invalid(ParseListObjectsBucket(out.fields).error)))
      && (out.Reply? && ParseListObjectsBucket(out.fields).Success? ==>
            var response := ParseListObjectsBucket(out.fields).value;
            r.result == if response.metadata.httpStatusCode == OK then Success(response.contents)
                        else Failure(S3(ListObjectsError(response.metadata.httpStatusCode))))
  {
    var call := Transport.ListObjectsV2(b.bucketName);
    var result :=
      match Reading(client(call), ParseListObjectsBucket)
      case Failure(e) => Failure(e)
      case Success(response) =>
        var status := response.metadata.httpStatusCode;
        if status != OK then Failure(S3(ListObjectsError(status))) else Success(response.contents);
    Step([call], result)
  }

  /** Lists every bucket the client can see. */
  function ListBuckets(b: S3Bucket, client: Transport.Client): (r: Step<seq<Bucket>>)
    ensures r.calls == [Transport.ListBuckets]
    ensures var out := client(Transport.ListBuckets);
      && (out.ClientError? ==> r.result == Failure(Propagated(out.code)))
      && (out.Reply? && ParseListBuckets(out.fields).Failure? ==>
            r.result == Failure(Invalid(ParseListBuckets(out.fields).error)))
      && (out.Reply? && ParseListBuckets(out.fields).Success? ==>
            var response := ParseListBuckets(out.fields).value;
            r.result == if response.metadata.httpStatusCode == OK then Success(response.buckets)
                        else Failure(S3(ListBucketsError(response.metadata.httpStatusCode))))
  {
    var call := Transport.ListBuckets;
    var result :=
      match Reading(client(call), ParseListBuckets)
      case Failure(e) => Failure(e)
      case Success(response) =>
        var status := response.metadata.httpStatusCode;
        if status != OK then Failure(S3(ListBucketsError(status))) else Success(response.buckets);
    Step([call], result)
  }

  function Delete(b: S3Bucket, client: Transport.Client): (r: Step<bool>)
    ensures r.calls == [Transport.DeleteBucket(b.bucketName)]
    ensures var out := client(Transport.DeleteBucket(b.bucketName));
      && (r.result.Success? <==>
            out.Reply? && ParseDeleteBucket(out.fields).Success?
            && ParseDeleteBucket(out.fields).value.metadata.httpStatusCode == NO_CONTENT)
      && (r.result.Success? ==> r.result.value)
      && (out.ClientError? ==> r.result == Failure(Propagated(out.code)))
      && (out.Reply? && ParseDeleteBucket(out.fields).Failure? ==>
            r.result == Failure(Invalid(ParseDeleteBucket(out.fields).error)))
      && (out.Reply? && ParseDeleteBucket(out.fields).Success?
          && ParseDeleteBucket(out.fields).value.metadata.httpStatusCode != NO_CONTENT ==>
            r.result == Failure(S3(BucketDeletionError(b.bucketName, ParseDeleteBucket(out.fields).value.metadata.httpStatusCode))))
  {
    var call := Transport.DeleteBucket(b.bucketName);
    var result :=
      match Reading(client(call), ParseDeleteBucket)
      case Failure(e) => Failure(e)
      case Success(response) =>
        var status := response.metadata.httpStatusCode;
        if status != NO_CONTENT then Failure(S3(BucketDeletionError(b.bucketName, status))) else Success(true);
    Step([call], result)
  }

  /** The bulk-delete request for a listing: every listed key, in order. */
  function DeleteRequest(contents: seq<Content>): (request: Fields)
    ensures ParseObjects(request) == Success(Objects(Narrow(contents)))
    ensures request.Keys == {"Objects"} && |request["Objects"].items| == |contents|
    ensures forall i :: 0 <= i < |contents| ==> request["Objects"].items[i] == Mapping(map["Key" := Str(contents[i].key)])
  {
    ObjectsRoundTrip(Objects(Narrow(contents)));
    DumpObjects(Objects(Narrow(contents)))
  }

  /** Lists the bucket, then deletes everything listed in one bulk request.
      A listing error stops it before any delete; the delete reply's status
      is not checked. */
  function Prune(b: S3Bucket, client: Transport.Client): (r: Step<ResponseDeletedObjects>)
    ensures ListObjects(b, client).result.Failure? ==>
      r == Step([Transport.ListObjectsV2(b.bucketName)], Failure(ListObjects(b, client).result.error))
    ensures ListObjects(b, client).result.Success? ==>
      var contents := ListObjects(b, client).result.value;
      var delete := Transport.DeleteObjects(b.bucketName, DeleteRequest(contents));
      && r.calls == [Transport.ListObjectsV2(b.bucketName), delete]
      && r.result == Reading(client(delete), ParseDeletedObjects)
  {
    var listing := ListObjects(b, client);
    match listing.result
    case Failure(e) => Step(listing.calls, Failure(e))
    case Success(contents) =>
      var call := Transport.DeleteObjects(b.bucketName, DeleteRequest(contents));
      Step(listing.calls + [call], Reading(client(call), ParseDeletedObjects))
  }

  // ---------------------------------------------------------------------------
  // S3Object

  /** Returns the reply's body stream. */
  function Get(o: S3Object, client: Transport.Client): (r: Step<nat>)
    ensures r.calls == [Transport.GetObject(o.bucketName, o.objectName)]
    ensures var out := client(Transport.GetObject(o.bucketName, o.objectName));
      && (out.ClientError? ==> r.result == Failure(Propagated(out.code)))
      && (out.Reply? && ParseGetObject(out.fields).Failure? ==>
            r.result == Failure(Invalid(ParseGetObject(out.fields).error)))
      && (out.Reply? && ParseGetObject(out.fields).Success? ==>
            var response := ParseGetObject(out.fields).value;
            r.result == if response.metadata.httpStatusCode == OK then Success(response.body)
                        else Failure(S3(GetObjectError(response.metadata.httpStatusCode))))
  {
    var call := Transport.GetObject(o.bucketName, o.objectName);
    var result :=
      match Reading(client(call), ParseGetObject)
      case Failure(e) => Failure(e)
      case Success(response) =>
        var status := response.metadata.httpStatusCode;
        if status != OK then Failure(S3(GetObjectError(status))) else Success(response.body);
    Step([call], result)
  }

  /** Lists with the v1 call over the whole bucket: the object's key is not
      passed as a prefix. */
  function ObjectList(o: S3Object, client: Transport.Client): (r: Step<seq<Content>>)
    ensures r.calls == [Transport.ListObjects(o.bucketName)]
    ensures var out := client(Transport.ListObjects(o.bucketName));
      && (out.ClientError? ==> r.result == Failure(Propagated(out.code)))
      && (out.Reply? && ParseListObjectsBucket(out.fields).Failure? ==>
            r.result == Failure(Invalid(ParseListObjectsBucket(out.fields).error)))
      && (out.Reply? && ParseListObjectsBucket(out.fields).Success? ==>
            var response := ParseListObjectsBucket(out.fields).value;
            r.result == if response.metadata.httpStatusCode == OK then Success(response.contents)
                        else Failure(S3(ListObjectsError(response.metadata.httpStatusCode))))
  {
    var call := Transport.ListObjects(o.bucketName);
    var result :=
      match Reading(client(call), ParseListObjectsBucket)
      case Failure(e) => Failure(e)
      case Success(response) =>
        var status := response.metadata.httpStatusCode;
        if status != OK then Failure(S3(ListObjectsError(status))) else Success(response.contents);
    Step([call], result)
  }

  function ObjectDelete(o: S3Object, client: Transport.Client): (r: Step<bool>)
    ensures r.calls == [Transport.DeleteObject(o.bucketName, o.objectName)]
    ensures var out := client(Transport.DeleteObject(o.bucketName, o.objectName));
      && (r.result.Success? <==>
            out.Reply? && ParseDeleteBucket(out.fields).Success?
            && ParseDeleteBucket(out.fields).value.metadata.httpStatusCode == NO_CONTENT)
      && (r.result.Success? ==> r.result.value)
      && (out.ClientError? ==> r.result == Failure(Propagated(out.code)))
      && (out.Reply? && ParseDeleteBucket(out.fields).Failure? ==>
            r.result == Failure(Invalid(ParseDeleteBucket(out.fields).error)))
      && (out.Reply? && ParseDeleteBucket(out.fields).Success?
          && ParseDeleteBucket(out.fields).value.metadata.httpStatusCode != NO_CONTENT ==>
            r.result == Failure(S3(DeleteObjectError(ParseDeleteBucket(out.fields).value.metadata.httpStatusCode))))
  {
    var call := Transport.DeleteObject(o.bucketName, o.objectName);
    var result :=
      match Reading(client(call), ParseDeleteBucket)
      case Failure(e) => Failure(e)
      case Success(response) =>
        var status := response.metadata.httpStatusCode;
        if status != NO_CONTENT then Failure(S3(DeleteObjectError(status))) else Success(true);
    Step([call], result)
  }

  // ---------------------------------------------------------------------------
  // Properties across operations

  /** Deleting a bucket succeeds only on 204: a 200 reply raises the deletion
      error, whose detail names the bucket and ends with the status 200. */
  lemma DeleteRejectsOk(b: S3Bucket, client: Transport.Client)
    requires client(Transport.DeleteBucket(b.bucketName)).Reply?
    requires var f := client(Transport.DeleteBucket(b.bucketName)).fields;
      ParseDeleteBucket(f).Success? && ParseDeleteBucket(f).value.metadata.httpStatusCode == OK
    ensures Delete(b, client).result == Failure(S3(BucketDeletionError(b.bucketName, OK)))
    ensures TrailingInt(Detail(BucketDeletionError(b.bucketName, OK))) == Some(OK)
  {
    DetailEndsWithStatus(BucketDeletionError(b.bucketName, OK));
  }

  /** Deleting an object likewise succeeds only on 204. */
  lemma ObjectDeleteRejectsOk(o: S3Object, client: Transport.Client)
    requires client(Transport.DeleteObject(o.bucketName, o.objectName)).Reply?
    requires var f := client(Transport.DeleteObject(o.bucketName, o.objectName)).fields;
      ParseDeleteBucket(f).Success? && ParseDeleteBucket(f).value.metadata.httpStatusCode == OK
    ensures ObjectDelete(o, client).result == Failure(S3(DeleteObjectError(OK)))
    ensures Detail(DeleteObjectError(OK)) == "S3 Delete Object Error: 200"
  {
  }

  /** Every exception `create` raises names the bucket at the head of its
      detail; a status failure also ends the detail with the reply's status. */
  lemma {:induction false} CreateErrorsNameBucket(b: S3Bucket, client: Transport.Client)
    requires Create(b, client).result.Failure? && Create(b, client).result.error.S3?
    ensures var e := Create(b, client).result.error.exception;
      && (e.BucketAlreadyExists? || e.BucketCreationError?)
      && BucketOf(e) == Some(b.bucketName)
      && Detail(e)[..|"S3 Bucket " + b.bucketName|] == "S3 Bucket " + b.bucketName
      && (e.BucketCreationError? ==> TrailingInt(Detail(e)) == Some(e.statusCode))
  {
    var e := Create(b, client).result.error.exception;
    DetailNamesBucket(e);
    if e.BucketCreationError? {
      DetailEndsWithStatus(e);
    }
  }

  /** A status failure of a bucket operation carries the reply's status,
      which its detail ends with. */
  lemma {:induction false} BucketStatusErrors(b: S3Bucket, client: Transport.Client, e: S3Exception)
    requires
      || Head(b, client).result == Failure(S3(e))
      || ListObjects(b, client).result == Failure(S3(e))
      || ListBuckets(b, client).result == Failure(S3(e))
      || Delete(b, client).result == Failure(S3(e))
    ensures StatusOf(e).Some?
    ensures TrailingInt(Detail(e)) == StatusOf(e)
  {
    if Head(b, client).result == Failure(S3(e)) {
      assert e.BucketHeadError?;
    } else if ListObjects(b, client).result == Failure(S3(e)) {
      assert e.ListObjectsError?;
    } else if ListBuckets(b, client).result == Failure(S3(e)) {
      assert e.ListBucketsError?;
    } else {
      assert e.BucketDeletionError?;
    }
    DetailEndsWithStatus(e);
  }

  /** Likewise for the object operations. */
  lemma {:induction false} ObjectStatusErrors(o: S3Object, client: Transport.Client, e: S3Exception)
    requires
      || Get(o, client).result == Failure(S3(e))
      || ObjectList(o, client).result == Failure(S3(e))
      || ObjectDelete(o, client).result == Failure(S3(e))
    ensures StatusOf(e).Some?
    ensures TrailingInt(Detail(e)) == StatusOf(e)
  {
    if Get(o, client).result == Failure(S3(e)) {
      assert e.GetObjectError?;
    } else if ObjectList(o, client).result == Failure(S3(e)) {
      assert e.ListObjectsError?;
    } else {
      assert e.DeleteObjectError?;
    }
    DetailEndsWithStatus(e);
  }

  /** A reply whose `ResponseMetadata` envelope reads, with an explicit
      `HTTPStatusCode` of `status`: string `RequestId` and `HostId`, a header
      map of strings, and `RetryAttempts` and `ChecksumAlgorithm` each absent,
      null or of their type. Any other keys may be present. */
  predicate RepliesWith(out: Transport.Outcome, status: int)
  {
    && out.Reply? && "ResponseMetadata" in out.fields && out.fields["ResponseMetadata"].Mapping?
    && var env := out.fields["ResponseMetadata"].fields;
    && "RequestId" in env && env["RequestId"].Str?
    && "HostId" in env && env["HostId"].Str?
    && "HTTPHeaders" in env && IsStrMap(env["HTTPHeaders"])
    && "HTTPStatusCode" in env && env["HTTPStatusCode"] == Int(status)
    && ("RetryAttempts" in env ==> env["RetryAttempts"].Null? || env["RetryAttempts"].Int?)
    && ("ChecksumAlgorithm" in env ==> env["ChecksumAlgorithm"].Null? || env["ChecksumAlgorithm"].Str?)
  }

  /** A bucket delete whose reply envelope reads with status 204 succeeds,
      whatever else the reply holds. */
  lemma DeleteAcceptsNoContent(b: S3Bucket, client: Transport.Client)
    requires RepliesWith(client(Transport.DeleteBucket(b.bucketName)), NO_CONTENT)
    ensures Delete(b, client).result == Success(true)
  {
  }

  /** Likewise for an object delete. */
  lemma ObjectDeleteAcceptsNoContent(o: S3Object, client: Transport.Client)
    requires RepliesWith(client(Transport.DeleteObject(o.bucketName, o.objectName)), NO_CONTENT)
    ensures ObjectDelete(o, client).result == Success(true)
  {
  }

  /** The object listing does not depend on the object's key. */
  lemma ObjectListIgnoresKey(o1: S3Object, o2: S3Object, client: Transport.Client)
    requires o1.bucketName == o2.bucketName
    ensures ObjectList(o1, client) == ObjectList(o2, client)
  {
  }

  /** When the listing reads with an empty `Contents` list, prune still
      issues the bulk delete, with an empty object list. */
  lemma PruneEmptyBucket(b: S3Bucket, client: Transport.Client)
    requires ListObjects(b, client).result == Success([])
    ensures Prune(b, client).calls ==
      [Transport.ListObjectsV2(b.bucketName), Transport.DeleteObjects(b.bucketName, map["Objects" := List([])])]
  {
    var request := DeleteRequest([]);
    assert request == map["Objects" := List([])];
  }

  /** A listing reply without `Contents` does not read, so prune stops after
      the listing call with that validation error and deletes nothing. */
  lemma PruneWithoutContents(b: S3Bucket, client: Transport.Client)
    requires var out := client(Transport.ListObjectsV2(b.bucketName));
      out.Reply? && ReadMetadata(out.fields).Success? && ReadV1Fields(out.fields).Success?
      && "Contents" !in out.fields
    ensures Prune(b, client) ==
      Step([Transport.ListObjectsV2(b.bucketName)], Failure(Invalid(Missing([At("Contents")]))))
  {
  }

  /** The bulk delete names exactly the listed keys, in listing order, and
      whatever status its reply carries, a reply that reads is returned. */
  lemma PruneDeletesListing(b: S3Bucket, client: Transport.Client)
    requires ListObjects(b, client).result.Success?
    ensures var contents := ListObjects(b, client).result.value;
      var call := Prune(b, client).calls[1];
      && call.DeleteObjects? && call.bucket == b.bucketName
      && ParseObjects(call.delete) == Success(Objects(Narrow(contents)))
    ensures var call := Prune(b, client).calls[1];
      var out := client(call);
      out.Reply? && ParseDeletedObjects(out.fields).Success? ==>
        Prune(b, client).result == Success(ParseDeletedObjects(out.fields).value)
  {
  }
}


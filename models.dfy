/** The typed records the driver reads replies into, each as a parse function
    over the raw reply driven by the alias table below, plus the two
    serialisers that write the wire spelling back out: the bulk-delete
    request (`Objects`) and a listing entry (`Content`). Validation errors
    are reported for the first failing field in declaration order. */
module Models {
  import opened Wrappers
  import opened Wire

  // The alias table: the spellings each field is read under, in the order tried.
  const RequestIdAliases: seq<string> := ["RequestId"]
  const HostIdAliases: seq<string> := ["HostId"]
  const HttpStatusCodeAliases: seq<string> := ["HTTPStatusCode"]
  const HttpHeadersAliases: seq<string> := ["HTTPHeaders"]
  const RetryAttemptsAliases: seq<string> := ["RetryAttempts"]
  const ChecksumAlgorithmAliases: seq<string> := ["ChecksumAlgorithm"]
  const ResponseMetadataAliases: seq<string> := ["ResponseMetadata"]
  const LocationAliases: seq<string> := ["Location"]
  const KeyAliases: seq<string> := ["Key"]
  const ObjectsAliases: seq<string> := ["Objects"]
  const NameAliases: seq<string> := ["Name"]
  const CreationDateAliases: seq<string> := ["CreationDate"]
  const DisplayNameAliases: seq<string> := ["DisplayName"]
  const IdAliases: seq<string> := ["ID"]
  const BucketsAliases: seq<string> := ["Buckets"]
  const OwnerAliases: seq<string> := ["Owner"]
  const ContentLastModifiedAliases: seq<string> := ["last_modified", "LastModified"]
  const ETagAliases: seq<string> := ["etag", "ETag"]
  const SizeAliases: seq<string> := ["size", "Size"]
  const StorageClassAliases: seq<string> := ["storage_class", "StorageClass"]
  const ContentsAliases: seq<string> := ["Contents"]
  const AcceptRangesAliases: seq<string> := ["AcceptRanges"]
  const LastModifiedAliases: seq<string> := ["LastModified"]
  const ContentLengthAliases: seq<string> := ["ContentLength"]
  const ChecksumCrc32Aliases: seq<string> := ["ChecksumCRC32"]
  const ContentTypeAliases: seq<string> := ["ContentType"]
  const MetadataAliases: seq<string> := ["Metadata"]
  const BodyAliases: seq<string> := ["Body"]
  const IsTruncatedAliases: seq<string> := ["IsTruncated"]
  const MarkerAliases: seq<string> := ["Marker"]
  const PrefixAliases: seq<string> := ["Prefix"]
  const MaxKeysAliases: seq<string> := ["MaxKeys"]
  const EncodingTypeAliases: seq<string> := ["EncodingType"]
  const KeyCountAliases: seq<string> := ["KeyCount"]
  const DeletedAliases: seq<string> := ["Deleted"]

  /** The success status of every operation except the deletes. */
  const DefaultStatus := 200

  // How an optional value is written in a reply.

  function StrOrNull(o: Option<string>): Value
  {
    match o
    case None => Null
    case Some(s) => Str(s)
  }

  function IntOrNull(o: Option<int>): Value
  {
    match o
    case None => Null
    case Some(i) => Int(i)
  }

  function BoolOrNull(o: Option<bool>): Value
  {
    match o
    case None => Null
    case Some(b) => Bool(b)
  }

  // ---------------------------------------------------------------------------
  // ResponseMetadata and ResponseHead

  datatype ResponseMetadata = ResponseMetadata(
    requestId: string,
    hostId: string,
    httpStatusCode: int,
    httpHeaders: map<string, string>,
    retryAttempts: Option<int>,
    checksumAlgorithm: Option<string>)

  /** The envelope every reply carries. The status code defaults to 200 and
      the retry count to 0 when absent; the checksum algorithm to None. */
  function ParseMetadata(m: Fields): (r: Result<ResponseMetadata, ParseError>)
    ensures "RequestId" !in m ==> r == Failure(Missing([At("RequestId")]))
    ensures r.Success? <==>
      && "RequestId" in m && m["RequestId"].Str?
      && "HostId" in m && m["HostId"].Str?
      && ("HTTPStatusCode" in m ==> m["HTTPStatusCode"].Int?)
      && "HTTPHeaders" in m && IsStrMap(m["HTTPHeaders"])
      && ("RetryAttempts" in m ==> m["RetryAttempts"].Null? || m["RetryAttempts"].Int?)
      && ("ChecksumAlgorithm" in m ==> m["ChecksumAlgorithm"].Null? || m["ChecksumAlgorithm"].Str?)
    ensures r.Success? ==>
      && m["RequestId"] == Str(r.value.requestId)
      && m["HostId"] == Str(r.value.hostId)
      && r.value.httpHeaders == StrMap(m["HTTPHeaders"])
      && (if "HTTPStatusCode" in m then m["HTTPStatusCode"] == Int(r.value.httpStatusCode)
          else r.value.httpStatusCode == 200)
      && (if "RetryAttempts" in m then m["RetryAttempts"] == IntOrNull(r.value.retryAttempts)
          else r.value.retryAttempts == Some(0))
      && (if "ChecksumAlgorithm" in m then m["ChecksumAlgorithm"] == StrOrNull(r.value.checksumAlgorithm)
          else r.value.checksumAlgorithm == None)
  {
    OneSpelling(m);
    var requestId :- ReqStr(m, RequestIdAliases);
    var hostId :- ReqStr(m, HostIdAliases);
    var status :- IntOr(m, HttpStatusCodeAliases, DefaultStatus);
    var headers :- ReqStrMap(m, HttpHeadersAliases);
    var retries :- OptInt(m, RetryAttemptsAliases, Some(0));
    var checksum :- OptStr(m, ChecksumAlgorithmAliases, None);
    Success(ResponseMetadata(requestId, hostId, status, headers, retries, checksum))
  }

  /** The `ResponseMetadata` sub-object every response type requires. */
  function ReadMetadata(m: Fields): (r: Result<ResponseMetadata, ParseError>)
    ensures "ResponseMetadata" !in m ==> r == Failure(Missing([At("ResponseMetadata")]))
    ensures r.Success? <==>
      "ResponseMetadata" in m && m["ResponseMetadata"].Mapping?
      && ParseMetadata(m["ResponseMetadata"].fields).Success?
    ensures r.Success? ==> r == ParseMetadata(m["ResponseMetadata"].fields)
  {
    OneSpelling(m);
    var h :- ReqFields(m, ResponseMetadataAliases);
    Inside(At(h.alias), ParseMetadata(h.value.fields))
  }

  /** The reply of a head-bucket call, and the base of every response type. */
  datatype ResponseHead = ResponseHead(metadata: ResponseMetadata)

  function ParseHead(m: Fields): (r: Result<ResponseHead, ParseError>)
    ensures r.Success? <==> ReadMetadata(m).Success?
    ensures r.Success? ==> ReadMetadata(m) == Success(r.value.metadata)
  {
    var metadata :- ReadMetadata(m);
    Success(ResponseHead(metadata))
  }

  datatype ResponseCreateBucket = ResponseCreateBucket(metadata: ResponseMetadata, location: string)

  function ParseCreateBucket(m: Fields): (r: Result<ResponseCreateBucket, ParseError>)
    ensures ReadMetadata(m).Failure? ==> r == Failure(ReadMetadata(m).error)
    ensures r.Success? <==> ReadMetadata(m).Success? && "Location" in m && m["Location"].Str?
    ensures r.Success? ==>
      && ReadMetadata(m) == Success(r.value.metadata)
      && "Location" in m && m["Location"] == Str(r.value.location)
  {
    OneSpelling(m);
    var metadata :- ReadMetadata(m);
    var location :- ReqStr(m, LocationAliases);
    Success(ResponseCreateBucket(metadata, location))
  }

  datatype ResponseDeleteBucket = ResponseDeleteBucket(metadata: ResponseMetadata)

  function ParseDeleteBucket(m: Fields): (r: Result<ResponseDeleteBucket, ParseError>)
    ensures r.Success? <==> ReadMetadata(m).Success?
    ensures r.Success? ==> ReadMetadata(m) == Success(r.value.metadata)
  {
    var metadata :- ReadMetadata(m);
    Success(ResponseDeleteBucket(metadata))
  }

  // ---------------------------------------------------------------------------
  // Object and Objects: the bulk-delete request

  /** A reference to one object by key. Extra keys are ignored when reading. */
  datatype Object = Object(key: string)

  function ParseObject(v: Value): (r: Result<Object, ParseError>)
    ensures r.Success? <==> v.Mapping? && "Key" in v.fields && v.fields["Key"].Str?
    ensures r.Success? ==> r.value.key == v.fields["Key"].s
  {
    if !v.Mapping? then Failure(WrongType([]))
    else
      OneSpelling(v.fields);
      var key :- ReqStr(v.fields, KeyAliases);
      Success(Object(key))
  }

  /** `model_dump` of an Object: its key under the wire spelling `Key`. */
  function DumpObject(o: Object): Value
  {
    Mapping(map["Key" := Str(o.key)])
  }

  datatype Objects = Objects(objects: seq<Object>)

  function ParseObjects(m: Fields): (r: Result<Objects, ParseError>)
    ensures "Objects" !in m ==> r == Failure(Missing([At("Objects")]))
    ensures r.Success? <==>
      "Objects" in m && m["Objects"].List?
      && forall i :: 0 <= i < |m["Objects"].items| ==> ParseObject(m["Objects"].items[i]).Success?
    ensures r.Success? ==>
      && "Objects" in m && m["Objects"].List?
      && |r.value.objects| == |m["Objects"].items|
      && forall i :: 0 <= i < |r.value.objects| ==> ParseObject(m["Objects"].items[i]) == Success(r.value.objects[i])
  {
    OneSpelling(m);
    var h :- ReqList(m, ObjectsAliases);
    var objects :- Inside(At(h.alias), ParseList(h.value.items, ParseObject));
    Success(Objects(objects))
  }

  function DumpObjectList(objects: seq<Object>): (r: seq<Value>)
    ensures |r| == |objects|
    ensures forall i :: 0 <= i < |objects| ==> r[i] == DumpObject(objects[i])
  {
    seq(|objects|, i requires 0 <= i < |objects| => DumpObject(objects[i]))
  }

  /** `model_dump` of Objects, with aliases: the DeleteObjects request body. */
  function DumpObjects(o: Objects): (r: Fields)
    ensures r.Keys == {"Objects"}
    ensures r["Objects"].List? && |r["Objects"].items| == |o.objects|
    ensures forall i :: 0 <= i < |o.objects| ==> r["Objects"].items[i] == Mapping(map["Key" := Str(o.objects[i].key)])
  {
    map["Objects" := List(DumpObjectList(o.objects))]
  }

  /** The request body reads back as the objects it was made from, in order. */
  lemma {:induction false} ObjectsRoundTrip(o: Objects)
    ensures ParseObjects(DumpObjects(o)) == Success(o)
  {
    var items := DumpObjects(o)["Objects"].items;
    forall i | 0 <= i < |items| ensures ParseObject(items[i]) == Success(o.objects[i]) {
      assert items[i].fields == map["Key" := Str(o.objects[i].key)];
    }
    var r := ParseObjects(DumpObjects(o));
    assert r.Success?;
    assert r.value.objects == o.objects;
  }

  // ---------------------------------------------------------------------------
  // Bucket, Owner and the bucket listing

  datatype Bucket = Bucket(name: string, creationDate: int)

  function ParseBucket(v: Value): (r: Result<Bucket, ParseError>)
    ensures r.Success? <==>
      v.Mapping? && "Name" in v.fields && v.fields["Name"].Str?
      && "CreationDate" in v.fields && v.fields["CreationDate"].DateTime?
    ensures r.Success? ==>
      v.fields["Name"] == Str(r.value.name) && v.fields["CreationDate"] == DateTime(r.value.creationDate)
  {
    if !v.Mapping? then Failure(WrongType([]))
    else
      OneSpelling(v.fields);
      var name :- ReqStr(v.fields, NameAliases);
      var created :- ReqDateTime(v.fields, CreationDateAliases);
      Success(Bucket(name, created))
  }

  datatype Owner = Owner(displayName: string, id: string)

  function ParseOwner(v: Value): (r: Result<Owner, ParseError>)
    ensures r.Success? <==>
      v.Mapping? && "DisplayName" in v.fields && v.fields["DisplayName"].Str?
      && "ID" in v.fields && v.fields["ID"].Str?
    ensures r.Success? ==> v.fields["DisplayName"] == Str(r.value.displayName) && v.fields["ID"] == Str(r.value.id)
  {
    if !v.Mapping? then Failure(WrongType([]))
    else
      OneSpelling(v.fields);
      var name :- ReqStr(v.fields, DisplayNameAliases);
      var id :- ReqStr(v.fields, IdAliases);
      Success(Owner(name, id))
  }

  function DumpOwner(o: Owner): Value
  {
    Mapping(map["DisplayName" := Str(o.displayName), "ID" := Str(o.id)])
  }

  datatype ResponseListBuckets = ResponseListBuckets(metadata: ResponseMetadata, buckets: seq<Bucket>, owner: Owner)

  function ParseListBuckets(m: Fields): (r: Result<ResponseListBuckets, ParseError>)
    ensures ReadMetadata(m).Failure? ==> r == Failure(ReadMetadata(m).error)
    ensures r.Success? <==>
      ReadMetadata(m).Success?
      && "Buckets" in m && m["Buckets"].List?
      && (forall i :: 0 <= i < |m["Buckets"].items| ==> ParseBucket(m["Buckets"].items[i]).Success?)
      && "Owner" in m && ParseOwner(m["Owner"]).Success?
    ensures r.Success? ==>
      && ReadMetadata(m) == Success(r.value.metadata)
      && "Buckets" in m && m["Buckets"].List? && |r.value.buckets| == |m["Buckets"].items|
      && (forall i :: 0 <= i < |r.value.buckets| ==> ParseBucket(m["Buckets"].items[i]) == Success(r.value.buckets[i]))
      && "Owner" in m && ParseOwner(m["Owner"]) == Success(r.value.owner)
  {
    OneSpelling(m);
    var metadata :- ReadMetadata(m);
    var h :- ReqList(m, BucketsAliases);
    var buckets :- Inside(At(h.alias), ParseList(h.value.items, ParseBucket));
    var o :- Required(m, OwnerAliases);
    var owner :- Inside(At(o.alias), ParseOwner(o.value));
    Success(ResponseListBuckets(metadata, buckets, owner))
  }

  // ---------------------------------------------------------------------------
  // Content: one entry of an object listing

  datatype Content = Content(
    key: string,
    lastModified: int,
    etag: string,
    size: int,
    storageClass: string,
    owner: Option<Owner>)

  /** The optional `Owner` of a listing entry: absent or null gives None. */
  function ReadOptionalOwner(m: Fields): (r: Result<Option<Owner>, ParseError>)
    ensures "Owner" !in m ==> r == Success(None)
    ensures "Owner" in m ==>
      r == if m["Owner"].Null? then Success(None)
           else match ParseOwner(m["Owner"])
                case Success(o) => Success(Some(o))
                case Failure(e) => Failure(e.Under(At("Owner")))
  {
    OneSpelling(m);
    match Lookup(m, OwnerAliases)
    case None => Success(None)
    case Some(h) =>
      if h.value.Null? then Success(None)
      else
        var owner :- Inside(At(h.alias), ParseOwner(h.value));
        Success(Some(owner))
  }

  /** A listing entry. `Key` has one spelling; the timestamp, ETag, size and
      storage class take either the field name or the wire spelling, the
      field name first. */
  function ParseContent(v: Value): (r: Result<Content, ParseError>)
    ensures v.Mapping? && "Key" !in v.fields ==> r == Failure(Missing([At("Key")]))
    ensures r.Success? <==>
      v.Mapping?
      && "Key" in v.fields && v.fields["Key"].Str?
      && FirstOfKind(v.fields, ContentLastModifiedAliases, DateTimeKind)
      && FirstOfKind(v.fields, ETagAliases, StrKind)
      && FirstOfKind(v.fields, SizeAliases, IntKind)
      && FirstOfKind(v.fields, StorageClassAliases, StrKind)
      && ("Owner" in v.fields ==> v.fields["Owner"].Null? || ParseOwner(v.fields["Owner"]).Success?)
    ensures r.Success? ==>
      && v.Mapping?
      && "Key" in v.fields && v.fields["Key"] == Str(r.value.key)
      && Chosen(v.fields, ContentLastModifiedAliases, DateTime(r.value.lastModified))
      && Chosen(v.fields, ETagAliases, Str(r.value.etag))
      && Chosen(v.fields, SizeAliases, Int(r.value.size))
      && Chosen(v.fields, StorageClassAliases, Str(r.value.storageClass))
      && ReadOptionalOwner(v.fields) == Success(r.value.owner)
  {
    if !v.Mapping? then Failure(WrongType([]))
    else
      var m := v.fields;
      OneSpelling(m);
      var key :- ReqStr(m, KeyAliases);
      var lastModified :- ReqDateTime(m, ContentLastModifiedAliases);
      var etag :- ReqStr(m, ETagAliases);
      var size :- ReqInt(m, SizeAliases);
      var storageClass :- ReqStr(m, StorageClassAliases);
      var owner :- ReadOptionalOwner(m);
      SomeFirst(m, ContentLastModifiedAliases);
      SomeFirst(m, ETagAliases);
      SomeFirst(m, SizeAliases);
      SomeFirst(m, StorageClassAliases);
      Success(Content(key, lastModified, etag, size, storageClass, owner))
  }

  /** Which of the accepted spellings a listing entry is written with. */
  datatype Spelling = FieldNames | WireNames

  /** A listing entry written out with one spelling for the four fields that
      accept two. `Key` and `Owner` have only their wire spelling. */
  function ContentFields(c: Content, spelling: Spelling): Fields
  {
    var names := if spelling == FieldNames then ["last_modified", "etag", "size", "storage_class"]
                 else ["LastModified", "ETag", "Size", "StorageClass"];
    map[
      "Key" := Str(c.key),
      names[0] := DateTime(c.lastModified),
      names[1] := Str(c.etag),
      names[2] := Int(c.size),
      names[3] := Str(c.storageClass),
      "Owner" := match c.owner case None => Null case Some(o) => DumpOwner(o)]
  }

  /** `model_dump` of a Content with aliases: only `Key` and `Owner` carry a
      serialisation alias, so the other fields keep their field names. */
  function DumpContent(c: Content): (v: Value)
    ensures v.Mapping? && v.fields.Keys == {"Key", "last_modified", "etag", "size", "storage_class", "Owner"}
    ensures ParseContent(v) == Success(c)
  {
    ContentRoundTrip(c, FieldNames);
    Mapping(ContentFields(c, FieldNames))
  }

  /** Either spelling reads back as the same entry, without loss; in
      particular a dumped entry reads back as itself. */
  lemma ContentRoundTrip(c: Content, spelling: Spelling)
    ensures ParseContent(Mapping(ContentFields(c, spelling))) == Success(c)
  {
    var m := ContentFields(c, spelling);
    if spelling == FieldNames {
      assert FirstIs(m, ContentLastModifiedAliases, 0);
      assert FirstIs(m, ETagAliases, 0);
      assert FirstIs(m, SizeAliases, 0);
      assert FirstIs(m, StorageClassAliases, 0);
    } else {
      assert FirstIs(m, ContentLastModifiedAliases, 1);
      assert FirstIs(m, ETagAliases, 1);
      assert FirstIs(m, SizeAliases, 1);
      assert FirstIs(m, StorageClassAliases, 1);
    }
    assert FirstIs(m, KeyAliases, 0);
    match c.owner
    case None =>
    case Some(o) => assert ParseOwner(DumpOwner(o)) == Success(o);
  }

  /** When both spellings are present, the field name wins. */
  lemma FieldNameSpellingWins(m: Fields, c: Content)
    requires ParseContent(Mapping(m)) == Success(c)
    requires "etag" in m && "ETag" in m
    ensures m["etag"] == Str(c.etag)
  {
    assert FirstIs(m, ETagAliases, 0);
  }

  /** `key` is read only under `Key`: a listing entry that spells it `key`
      does not parse. */
  lemma KeyHasOneSpelling(m: Fields)
    requires "key" in m && "Key" !in m
    ensures ParseContent(Mapping(m)) == Failure(Missing([At("Key")]))
  {
  }

  /** An Object read from a listing entry keeps only the entry's key: the
      other fields are ignored. */
  lemma ContentNarrowsToObject(c: Content, spelling: Spelling)
    ensures ParseObject(Mapping(ContentFields(c, spelling))) == Success(Object(c.key))
  {
  }

  /** The objects a listing names, as the bulk-delete request takes them. */
  function Narrow(contents: seq<Content>): (r: seq<Object>)
    ensures |r| == |contents|
    ensures forall i :: 0 <= i < |contents| ==> r[i] == Object(contents[i].key)
  {
    seq(|contents|, i requires 0 <= i < |contents| => Object(contents[i].key))
  }

  /** The required `Contents` list of a listing, read entry by entry in order. */
  function ReadContents(m: Fields): (r: Result<seq<Content>, ParseError>)
    ensures "Contents" !in m ==> r == Failure(Missing([At("Contents")]))
    ensures r.Success? <==>
      "Contents" in m && m["Contents"].List?
      && forall i :: 0 <= i < |m["Contents"].items| ==> ParseContent(m["Contents"].items[i]).Success?
    ensures r.Success? ==>
      && "Contents" in m && m["Contents"].List?
      && |r.value| == |m["Contents"].items|
      && forall i :: 0 <= i < |r.value| ==> ParseContent(m["Contents"].items[i]) == Success(r.value[i])
  {
    OneSpelling(m);
    var h :- ReqList(m, ContentsAliases);
    Inside(At(h.alias), ParseList(h.value.items, ParseContent))
  }

  /** The `Contents` wrapper: a listing on its own. */
  datatype Contents = Contents(contents: seq<Content>)

  function ParseContents(m: Fields): (r: Result<Contents, ParseError>)
    ensures "Contents" !in m ==> r == Failure(Missing([At("Contents")]))
    ensures r.Success? <==>
      "Contents" in m && m["Contents"].List?
      && forall i :: 0 <= i < |m["Contents"].items| ==> ParseContent(m["Contents"].items[i]).Success?
    ensures r.Success? ==>
      && "Contents" in m && m["Contents"].List?
      && |r.value.contents| == |m["Contents"].items|
      && forall i :: 0 <= i < |r.value.contents| ==> ParseContent(m["Contents"].items[i]) == Success(r.value.contents[i])
  {
    var contents :- ReadContents(m);
    Success(Contents(contents))
  }

  function DumpContents(cs: Contents): (r: Fields)
    ensures r.Keys == {"Contents"} && r["Contents"].List? && |r["Contents"].items| == |cs.contents|
    ensures forall i :: 0 <= i < |cs.contents| ==> r["Contents"].items[i] == DumpContent(cs.contents[i])
  {
    map["Contents" := List(seq(|cs.contents|, i requires 0 <= i < |cs.contents| => DumpContent(cs.contents[i])))]
  }

  lemma {:induction false} ContentsRoundTrip(cs: Contents)
    ensures ParseContents(DumpContents(cs)) == Success(cs)
  {
    var items := DumpContents(cs)["Contents"].items;
    forall i | 0 <= i < |items| ensures ParseContent(items[i]) == Success(cs.contents[i]) {
      ContentRoundTrip(cs.contents[i], FieldNames);
    }
    var r := ParseContents(DumpContents(cs));
    assert r.Success?;
    assert r.value.contents == cs.contents;
  }

  // ---------------------------------------------------------------------------
  // Object download and listing responses

  datatype ResponseGetObject = ResponseGetObject(
    metadata: ResponseMetadata,
    acceptRanges: string,
    lastModified: int,
    contentLength: int,
    checkSum: Option<string>,
    contentType: string,
    metadataObject: map<string, string>,
    body: nat)

  function ParseGetObject(m: Fields): (r: Result<ResponseGetObject, ParseError>)
    ensures ReadMetadata(m).Failure? ==> r == Failure(ReadMetadata(m).error)
    ensures r.Success? <==>
      ReadMetadata(m).Success?
      && "AcceptRanges" in m && m["AcceptRanges"].Str?
      && "LastModified" in m && m["LastModified"].DateTime?
      && "ContentLength" in m && m["ContentLength"].Int?
      && ("ChecksumCRC32" in m ==> m["ChecksumCRC32"].Null? || m["ChecksumCRC32"].Str?)
      && "ContentType" in m && m["ContentType"].Str?
      && ("Metadata" in m ==> IsStrMap(m["Metadata"]))
      && "Body" in m && m["Body"].Stream?
    ensures r.Success? ==>
      && ReadMetadata(m) == Success(r.value.metadata)
      && "AcceptRanges" in m && m["AcceptRanges"] == Str(r.value.acceptRanges)
      && "LastModified" in m && m["LastModified"] == DateTime(r.value.lastModified)
      && "ContentLength" in m && m["ContentLength"] == Int(r.value.contentLength)
      && "ContentType" in m && m["ContentType"] == Str(r.value.contentType)
      && "Body" in m && m["Body"] == Stream(r.value.body)
      && (if "ChecksumCRC32" in m then m["ChecksumCRC32"] == StrOrNull(r.value.checkSum)
          else r.value.checkSum == None)
      && (if "Metadata" in m then IsStrMap(m["Metadata"]) && r.value.metadataObject == StrMap(m["Metadata"])
          else r.value.metadataObject == map[])
  {
    OneSpelling(m);
    var metadata :- ReadMetadata(m);
    var acceptRanges :- ReqStr(m, AcceptRangesAliases);
    var lastModified :- ReqDateTime(m, LastModifiedAliases);
    var contentLength :- ReqInt(m, ContentLengthAliases);
    var checkSum :- OptStr(m, ChecksumCrc32Aliases, None);
    var contentType :- ReqStr(m, ContentTypeAliases);
    var metadataObject :- StrMapOr(m, MetadataAliases, map[]);
    var body :- ReqStream(m, BodyAliases);
    Success(ResponseGetObject(metadata, acceptRanges, lastModified, contentLength, checkSum, contentType, metadataObject, body))
  }

  /** The reply of either list-objects call (v1 or v2): the truncation flag
      and marker come from v1, the key count from v2. */
  datatype ResponseListObjectsBucket = ResponseListObjectsBucket(
    metadata: ResponseMetadata,
    isTruncated: Option<bool>,
    marker: Option<string>,
    contents: seq<Content>,
    name: string,
    prefix: string,
    maxKeys: int,
    encodingType: string,
    keyCount: Option<int>)

  /** The required fields a listing reply carries in both versions. */
  datatype Page = Page(contents: seq<Content>, name: string, prefix: string, maxKeys: int, encodingType: string)

  function ReadPage(m: Fields): (r: Result<Page, ParseError>)
    ensures "Contents" !in m ==> r == Failure(Missing([At("Contents")]))
    ensures r.Success? <==>
      ReadContents(m).Success?
      && "Name" in m && m["Name"].Str?
      && "Prefix" in m && m["Prefix"].Str?
      && "MaxKeys" in m && m["MaxKeys"].Int?
      && "EncodingType" in m && m["EncodingType"].Str?
    ensures r.Success? ==>
      && "Contents" in m && m["Contents"].List? && |r.value.contents| == |m["Contents"].items|
      && (forall i :: 0 <= i < |r.value.contents| ==> ParseContent(m["Contents"].items[i]) == Success(r.value.contents[i]))
      && "Name" in m && m["Name"] == Str(r.value.name)
      && "Prefix" in m && m["Prefix"] == Str(r.value.prefix)
      && "MaxKeys" in m && m["MaxKeys"] == Int(r.value.maxKeys)
      && "EncodingType" in m && m["EncodingType"] == Str(r.value.encodingType)
  {
    OneSpelling(m);
    var contents :- ReadContents(m);
    var name :- ReqStr(m, NameAliases);
    var prefix :- ReqStr(m, PrefixAliases);
    var maxKeys :- ReqInt(m, MaxKeysAliases);
    var encodingType :- ReqStr(m, EncodingTypeAliases);
    Success(Page(contents, name, prefix, maxKeys, encodingType))
  }

  /** The two list-objects v1 fields: the truncation flag (default None)
      and the marker (default the empty string). */
  function ReadV1Fields(m: Fields): (r: Result<(Option<bool>, Option<string>), ParseError>)
    ensures r.Success? ==>
      && (if "IsTruncated" in m then m["IsTruncated"] == BoolOrNull(r.value.0) else r.value.0 == None)
      && (if "Marker" in m then m["Marker"] == StrOrNull(r.value.1) else r.value.1 == Some(""))
    ensures ("IsTruncated" !in m && "Marker" !in m) ==> r == Success((None, Some("")))
    ensures r.Success? <==>
      ("IsTruncated" in m ==> m["IsTruncated"].Null? || m["IsTruncated"].Bool?)
      && ("Marker" in m ==> m["Marker"].Null? || m["Marker"].Str?)
  {
    OneSpelling(m);
    var isTruncated :- OptBool(m, IsTruncatedAliases, None);
    var marker :- OptStr(m, MarkerAliases, Some(""));
    Success((isTruncated, marker))
  }

  function ParseListObjectsBucket(m: Fields): (r: Result<ResponseListObjectsBucket, ParseError>)
    ensures ReadMetadata(m).Failure? ==> r == Failure(ReadMetadata(m).error)
    ensures ReadMetadata(m).Success? && ReadV1Fields(m).Success? && ReadPage(m).Failure? ==>
      r == Failure(ReadPage(m).error)
    ensures r.Success? <==>
      ReadMetadata(m).Success? && ReadV1Fields(m).Success? && ReadPage(m).Success?
      && ("KeyCount" in m ==> m["KeyCount"].Null? || m["KeyCount"].Int?)
    ensures r.Success? ==>
      && ReadMetadata(m) == Success(r.value.metadata)
      && ReadV1Fields(m) == Success((r.value.isTruncated, r.value.marker))
      && ReadPage(m) == Success(Page(r.value.contents, r.value.name, r.value.prefix, r.value.maxKeys, r.value.encodingType))
      && (if "KeyCount" in m then m["KeyCount"] == IntOrNull(r.value.keyCount) else r.value.keyCount == None)
  {
    OneSpelling(m);
    var metadata :- ReadMetadata(m);
    var v1 :- ReadV1Fields(m);
    var page :- ReadPage(m);
    var keyCount :- OptInt(m, KeyCountAliases, None);
    Success(ResponseListObjectsBucket(metadata, v1.0, v1.1, page.contents, page.name, page.prefix,
                                      page.maxKeys, page.encodingType, keyCount))
  }

  datatype ResponseDeletedObjects = ResponseDeletedObjects(metadata: ResponseMetadata, deleted: seq<Object>)

  function ParseDeletedObjects(m: Fields): (r: Result<ResponseDeletedObjects, ParseError>)
    ensures ReadMetadata(m).Failure? ==> r == Failure(ReadMetadata(m).error)
    ensures r.Success? <==>
      ReadMetadata(m).Success?
      && "Deleted" in m && m["Deleted"].List?
      && forall i :: 0 <= i < |m["Deleted"].items| ==> ParseObject(m["Deleted"].items[i]).Success?
    ensures r.Success? ==>
      && ReadMetadata(m) == Success(r.value.metadata)
      && "Deleted" in m && m["Deleted"].List? && |r.value.deleted| == |m["Deleted"].items|
      && forall i :: 0 <= i < |r.value.deleted| ==> ParseObject(m["Deleted"].items[i]) == Success(r.value.deleted[i])
  {
    OneSpelling(m);
    var metadata :- ReadMetadata(m);
    var h :- ReqList(m, DeletedAliases);
    var deleted :- Inside(At(h.alias), ParseList(h.value.items, ParseObject));
    Success(ResponseDeletedObjects(metadata, deleted))
  }

  // ---------------------------------------------------------------------------
  // Properties across response types

  /** Every response type requires the `ResponseMetadata` sub-object. */
  lemma MetadataRequired(m: Fields)
    requires "ResponseMetadata" !in m
    ensures ParseHead(m) == Failure(Missing([At("ResponseMetadata")]))
    ensures ParseCreateBucket(m) == Failure(Missing([At("ResponseMetadata")]))
    ensures ParseDeleteBucket(m) == Failure(Missing([At("ResponseMetadata")]))
    ensures ParseListBuckets(m) == Failure(Missing([At("ResponseMetadata")]))
    ensures ParseGetObject(m) == Failure(Missing([At("ResponseMetadata")]))
    ensures ParseListObjectsBucket(m) == Failure(Missing([At("ResponseMetadata")]))
    ensures ParseDeletedObjects(m) == Failure(Missing([At("ResponseMetadata")]))
  {
  }

  /** An envelope that carries only the three required fields reads with
      status 200, no retries recorded as 0, and no checksum algorithm. */
  lemma MetadataDefaults(requestId: string, hostId: string, headers: map<string, string>)
    ensures
      var m := map["RequestId" := Str(requestId), "HostId" := Str(hostId),
                   "HTTPHeaders" := Mapping(map k | k in headers :: Str(headers[k]))];
      ParseMetadata(m) == Success(ResponseMetadata(requestId, hostId, 200, headers, Some(0), None))
  {
    var m := map["RequestId" := Str(requestId), "HostId" := Str(hostId),
                 "HTTPHeaders" := Mapping(map k | k in headers :: Str(headers[k]))];
    assert StrMap(m["HTTPHeaders"]) == headers;
  }
}

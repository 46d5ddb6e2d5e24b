# S3 driver: reply validation and error classification

This project models the core of a small S3 driver, the layer between the
object-store client and the code that calls it. It has three parts.

- **Reply records** (`app/drivers/aws/models.py`). Each record reads a raw
  reply map into a typed value. A field is read under one fixed alias or
  under either of two spellings, tried in order. Some absent fields take a
  default; the rest are required. There is also the by-alias dump that builds
  the body of the bulk DeleteObjects request.
- **Exception taxonomy** (`app/drivers/aws/exceptions.py`). This is the closed
  set of exception classes. Each class has a `detail` message built from the
  bucket or object name and the status code, and the classes form a
  hierarchy.
- **Bucket and object operations** (`app/drivers/aws/buckets.py`). Each
  operation makes one client call and reads the reply into its record. It
  then compares the reply's status with 200 (OK) or 204 (No Content), which
  are sections 15.3.1 and 15.3.5 of RFC 9110. It either returns or raises the
  matching exception. `create` also turns two client error codes into
  "already exists". `prune` lists a bucket and then deletes everything it
  listed in one bulk request.

All three files compute values and update no state, so the model is written
as datatypes, functions and lemmas.

- The raw reply is `Wire.Value`: strings, integers, booleans, null, lists,
  maps, and opaque timestamps and body streams.
- The client is a parameter `Transport.Client`, a function from the call made
  to its outcome: a reply map or a client error code.
- Every operation returns a `Buckets.Step`. It holds the calls made, in order,
  and the result. The result is a value or what was raised: a driver
  exception, a validation error, or the client's error passed on.
- `Decimal` models the rendering of a Python `int` in an f-string. It also
  has the inverse reading, so lemmas can state that an exception's detail
  ends with its status code.

Where the code departs from what its names and annotations suggest, the model
follows the code:

- `head` is annotated `-> bool` but returns the parsed reply (`buckets.py:53,60`).
- `S3Object.list` lists the whole bucket with the v1 call and passes no key
  prefix (`buckets.py:125`).
- `prune` never checks the status of the bulk delete (`buckets.py:93-97`).
- `Contents` is required, so a listing reply without it does not read
  (`models.py:125`).

## Model

| member | source | states |
|---|---|---|
| Wire.FirstPresent | app/drivers/aws/models.py:87-94 | The alias search tries spellings in order. It returns the first spelling present; it returns none exactly when no accepted spelling is present. |
| Wire.Lookup | app/drivers/aws/models.py:87-94 | The value read is the one under the first spelling present, together with that spelling. It is absent exactly when no spelling is present. |
| Wire.Required | app/drivers/aws/models.py:27-28 | A field with no default is a missing-field error, located at its first spelling, when no spelling is present. Otherwise it is the first present value. |
| Wire.ReqStr | app/drivers/aws/models.py:27 | A required string field is the string under the first spelling present. A value of another type is a type error at that spelling. |
| Wire.ReqInt | app/drivers/aws/models.py:128 | A required integer field reads the same way, with integers. |
| Wire.ReqDateTime | app/drivers/aws/models.py:73 | A required timestamp field reads the same way, with timestamps. |
| Wire.ReqStream | app/drivers/aws/models.py:117 | A required body field reads the same way, with streams. |
| Wire.ReqStrMap | app/drivers/aws/models.py:30 | A required header map reads when every value in it is a string. |
| Wire.ReqFields | app/drivers/aws/models.py:36 | A required nested record must be a map. |
| Wire.ReqList | app/drivers/aws/models.py:82 | A required list field must be a list. |
| Wire.IntOr | app/drivers/aws/models.py:29 | A non-nullable integer with a default takes the default when absent. Otherwise it is the integer present, or a type error. |
| Wire.StrMapOr | app/drivers/aws/models.py:116 | A string map with a default takes the default when absent. Otherwise it is the map present, or a type error. |
| Wire.OptInt | app/drivers/aws/models.py:31 | A nullable integer takes its default when absent, None when null, and the integer otherwise. |
| Wire.OptStr | app/drivers/aws/models.py:32 | A nullable string takes its default when absent, None when null, and the string otherwise. |
| Wire.OptBool | app/drivers/aws/models.py:122 | A nullable boolean takes its default when absent, None when null, and the boolean otherwise. |
| Wire.ParseList | app/drivers/aws/models.py:65 | A list field reads exactly when every element reads, element by element in order. Otherwise the error is the first failing element's, located at its index. |
| Models.ParseMetadata | app/drivers/aws/models.py:26-32 | The envelope reads exactly when `RequestId` and `HostId` are strings and `HTTPHeaders` is a map of strings. `HTTPStatusCode` must be absent or an integer; `RetryAttempts` absent, null or an integer; `ChecksumAlgorithm` absent, null or a string. Extra keys are ignored. When absent, the status is 200, the retry count 0 and the checksum algorithm None; otherwise each field holds the reply's value. |
| Models.ReadMetadata | app/drivers/aws/models.py:35-36 | A response reads its metadata exactly when the `ResponseMetadata` sub-map is present and reads. When it is absent, the error is a missing `ResponseMetadata`. |
| Models.ParseHead | app/drivers/aws/models.py:35-36 | A head reply reads exactly when its metadata does, and it holds that metadata. |
| Models.ParseCreateBucket | app/drivers/aws/models.py:39-40 | A create reply reads exactly when its metadata reads and `Location` is a string. It holds both as found in the reply. |
| Models.ParseDeleteBucket | app/drivers/aws/models.py:43-44 | A delete reply reads exactly when its metadata does. |
| Models.ParseObject | app/drivers/aws/models.py:47-50 | An object reference reads exactly when the map holds a string `Key`; every other key is ignored. |
| Models.ParseObjects | app/drivers/aws/models.py:62-65 | An `Objects` record reads exactly when `Objects` is a list whose every element reads as an object reference. It holds them in order. |
| Models.DumpObjects | app/drivers/aws/models.py:65-68 | The by-alias dump has the single key `Objects`, mapping to one `{"Key": k}` per object, in order. |
| Models.ObjectsRoundTrip | app/drivers/aws/models.py:52-68 | A dumped `Objects` reads back as itself. |
| Models.ParseBucket | app/drivers/aws/models.py:71-73 | A bucket entry reads exactly when it has a string `Name` and a timestamp `CreationDate`. |
| Models.ParseOwner | app/drivers/aws/models.py:76-78 | An owner reads exactly when it has string `DisplayName` and `ID`. |
| Models.ParseListBuckets | app/drivers/aws/models.py:81-83 | A bucket listing reads exactly when its metadata reads, `Buckets` is a list of readable bucket entries and `Owner` reads. It holds them in order. |
| Models.ReadOptionalOwner | app/drivers/aws/models.py:95 | A listing entry's `Owner` is None when absent or null. Otherwise it is the owner read, and its errors are located under `Owner`. |
| Models.ParseContent | app/drivers/aws/models.py:86-95 | An entry reads exactly when it is a map with a string `Key` and, under the first spelling present, a timestamp, a string ETag, an integer size and a string storage class, and `Owner` is absent, null or a readable owner. Spellings may be mixed and extra keys are ignored. Each value is the one under the first spelling present. |
| Models.ContentRoundTrip | app/drivers/aws/models.py:86-95 | An entry written with either spelling, including the by-alias dump, reads back as the same entry. |
| Models.DumpContent | app/drivers/aws/models.py:86-95 | The by-alias dump of an entry has the keys `Key`, `last_modified`, `etag`, `size`, `storage_class` and `Owner`, and it reads back as the same entry. |
| Models.FieldNameSpellingWins | app/drivers/aws/models.py:90 | When both `etag` and `ETag` are present, `etag` is the value read. |
| Models.KeyHasOneSpelling | app/drivers/aws/models.py:50 | An entry that spells its key `key` rather than `Key` fails as a missing `Key`. |
| Models.ContentNarrowsToObject | app/drivers/aws/models.py:47-50 | A listing entry read as an object keeps only its key. |
| Models.Narrow | app/drivers/aws/buckets.py:92 | Putting listed entries into `Objects` keeps one object reference per entry, holding its key, in order. |
| Models.ReadContents | app/drivers/aws/models.py:125 | A listing's `Contents` is required. It reads exactly when it is a list of readable entries, and it holds them in order. |
| Models.ParseContents | app/drivers/aws/models.py:98-101 | The `Contents` wrapper reads exactly when `Contents` is a list of readable entries, and it holds them in order. |
| Models.DumpContents | app/drivers/aws/models.py:103-104 | The by-alias dump has the single key `Contents`, with one dumped entry per entry, in order. |
| Models.ContentsRoundTrip | app/drivers/aws/models.py:98-104 | A dumped `Contents` reads back as itself. |
| Models.ParseGetObject | app/drivers/aws/models.py:107-117 | A download reply reads exactly when its metadata reads, `AcceptRanges` and `ContentType` are strings, `LastModified` a timestamp, `ContentLength` an integer and `Body` a stream. `ChecksumCRC32` must be absent, null or a string, and `Metadata` absent or a map of strings. When absent, they default to None and the empty map. |
| Models.ReadPage | app/drivers/aws/models.py:125-129 | The page fields read exactly when `Contents` reads and `Name`, `Prefix` and `EncodingType` are strings and `MaxKeys` an integer. A missing `Contents` is the error reported. |
| Models.ReadV1Fields | app/drivers/aws/models.py:122-123 | The v1 fields read exactly when `IsTruncated` is absent, null or a boolean and `Marker` absent, null or a string. When absent, they default to None and the empty string. |
| Models.ParseListObjectsBucket | app/drivers/aws/models.py:120-130 | A listing reply of either version reads exactly when its metadata, v1 fields and page fields read and `KeyCount` is absent, null or an integer. `KeyCount` defaults to None. When only the page fields fail, theirs is the error reported. |
| Models.ParseDeletedObjects | app/drivers/aws/models.py:133-134 | A bulk-delete reply reads exactly when its metadata reads and `Deleted` is a list of readable object references, held in order. |
| Models.MetadataRequired | app/drivers/aws/models.py:35-36 | Without `ResponseMetadata`, every one of the seven response types fails with that field missing. |
| Models.MetadataDefaults | app/drivers/aws/models.py:27-32 | An envelope with only the three required fields reads with status 200, retry count 0 and no checksum algorithm. |
| Decimal.IntToString | app/drivers/aws/exceptions.py:14 | An integer renders as its digits, with a leading minus sign exactly when it is negative. |
| Decimal.ValueOfDigits | app/drivers/aws/exceptions.py:14 | Reading the rendered digits of a natural number gives the number back. |
| Decimal.TrailingIntOfRendered | app/drivers/aws/exceptions.py:14 | A message that ends in a rendered integer, after a character that is not a digit or a minus sign, gives that integer back. |
| Exceptions.DetailEndsWithStatus | app/drivers/aws/exceptions.py:12-79 | The detail of every class that takes a status ends with that status, whether written after `: ` or as `status_code=<n>`. |
| Exceptions.DetailWithoutStatus | app/drivers/aws/exceptions.py:1-33 | The detail of a class that takes no status ends in no number. |
| Exceptions.DetailNamesBucket | app/drivers/aws/exceptions.py:18-51 | The detail of every class that takes a bucket starts with `S3 Bucket <bucket>`. The creation, deletion and head details end with `status_code=<n>`. |
| Exceptions.Detail | app/drivers/aws/exceptions.py:2-78 | `self.detail` is the instance attribute a class's own constructor assigns, or else the nearest class attribute up the hierarchy. Every detail starts with `S3 `. |
| Exceptions.InheritedDetails | app/drivers/aws/exceptions.py:1-55 | The three classes without a constructor of their own read the class attribute: `S3Exception` and `S3ObjectsError` give `S3 Exception`, and `S3BucketNotFound` gives `S3 Bucket not found`. |
| Exceptions.MessageIsDetail | app/drivers/aws/exceptions.py:4-5 | Calling an exception class records the arguments given, but the constructor chain replaces them with the single value `self.detail` reads. That value is the exception's message, whatever arguments the class accepts. |
| Exceptions.Parent | app/drivers/aws/exceptions.py:54-79 | Only Python's `Exception` has no base class, and each class sits one level below its base. |
| Exceptions.Hierarchy | app/drivers/aws/exceptions.py:1-79 | Every kind is caught as an `S3Exception`. `S3ObjectsError` catches exactly itself and the four object-operation errors. `S3BucketAlreadyExists` catches only itself. |
| Buckets.Create | app/drivers/aws/buckets.py:30-51 | Create makes one call and succeeds exactly when the reply reads with status 200. Another status raises the creation error with the bucket and that status. `BucketAlreadyOwnedByYou` and `BucketNotEmpty` raise "already exists"; any other client error is passed on. |
| Buckets.Head | app/drivers/aws/buckets.py:53-60 | Head returns the parsed reply on 200, and raises the head error with the bucket and status otherwise. |
| Buckets.ListObjects | app/drivers/aws/buckets.py:62-69 | The v2 listing returns the entries in reply order on 200, and raises the list-objects error with the status otherwise. |
| Buckets.ListBuckets | app/drivers/aws/buckets.py:71-78 | The bucket listing returns the buckets on 200, and raises the list-buckets error with the status otherwise. |
| Buckets.Delete | app/drivers/aws/buckets.py:80-89 | Bucket delete succeeds exactly when the reply reads with status 204. Any other status raises the deletion error with the bucket and that status. |
| Buckets.DeleteRequest | app/drivers/aws/buckets.py:92-95 | The bulk-delete body reads back as one object per listed entry, in listing order. Its shape is `{"Objects": [{"Key": k}, ...]}`. |
| Buckets.Prune | app/drivers/aws/buckets.py:91-97 | A listing failure stops prune after the listing call. Otherwise prune makes exactly one bulk delete with the listing's request and returns that reply as read, without a status check. |
| Buckets.Get | app/drivers/aws/buckets.py:114-121 | Get returns the reply's body on 200, and raises the get-object error with the status otherwise. |
| Buckets.ObjectList | app/drivers/aws/buckets.py:123-130 | The object listing uses the v1 call on the whole bucket. It returns the entries on 200 and raises the list-objects error otherwise. |
| Buckets.ObjectDelete | app/drivers/aws/buckets.py:132-141 | Object delete succeeds exactly when the reply reads with status 204. Any other status raises the delete-object error with that status. |
| Buckets.DeleteRejectsOk | app/drivers/aws/buckets.py:84-88 | A 200 reply to a bucket delete raises the deletion error with status 200, and its detail ends with 200. |
| Buckets.ObjectDeleteRejectsOk | app/drivers/aws/buckets.py:138-140 | A 200 reply to an object delete raises `S3 Delete Object Error: 200`. |
| Buckets.DeleteAcceptsNoContent | app/drivers/aws/buckets.py:80-89 | A bucket delete succeeds whenever its reply envelope reads with an explicit status 204: string `RequestId` and `HostId`, a header map of strings, `RetryAttempts` and `ChecksumAlgorithm` absent, null or of their type, and any other keys. |
| Buckets.ObjectDeleteAcceptsNoContent | app/drivers/aws/buckets.py:132-141 | An object delete succeeds whenever its reply envelope reads with an explicit status 204, under the same conditions as a bucket delete. |
| Buckets.CreateErrorsNameBucket | app/drivers/aws/buckets.py:39-48 | Every exception create raises names the bucket at the head of its detail. A status failure's detail also ends with the status. |
| Buckets.BucketStatusErrors | app/drivers/aws/buckets.py:53-89 | A status failure of head, listing, bucket listing or delete carries a status, and its detail ends with it. |
| Buckets.ObjectStatusErrors | app/drivers/aws/buckets.py:114-141 | A status failure of get, object listing or object delete carries a status, and its detail ends with it. |
| Buckets.ObjectListIgnoresKey | app/drivers/aws/buckets.py:123-126 | Two objects in the same bucket list the same thing, whatever their keys. |
| Buckets.PruneEmptyBucket | app/drivers/aws/buckets.py:91-97 | When the listing reads with an empty `Contents` list, prune still makes the bulk delete, with an empty `Objects` list. |
| Buckets.PruneWithoutContents | app/drivers/aws/buckets.py:91-92 | A listing reply without `Contents` does not read. That is what the store sends for an empty bucket. Prune then stops after the listing call with a missing `Contents` error and deletes nothing. |
| Buckets.PruneDeletesListing | app/drivers/aws/buckets.py:91-97 | The bulk delete names the bucket and exactly the listed keys in order. A delete reply that reads is returned whatever its status. |

## Left out

- Pydantic's lax coercion is not modelled. For example, `"200"` is accepted for an integer, and ISO strings for timestamps. Field reading here is strict: a value of the wrong type is a type error.
- Only the first validation error is reported. Pydantic collects every failing field.
- Timestamps and streaming bodies (`StreamingBody`, `StreamingChecksumBody`) are opaque values. Parsing dates and reading or releasing streams is outside the model.
- The `HTTPHeaders` record (`models.py:11-23`) and the `HTTPHeaders | dict` union are read as a map of strings.
- The unused records `BinaryUploadFile`, `UploadFile` and `ListObjects` (`models.py:56-59,137-143`) and the demonstration block (`models.py:146-169`) are not part of this model. No operation reads them.
- `upload`, `binary_upload` and `S3Objects.delete` (`buckets.py:106-112,149-152`) are left out. They only forward their arguments to the client and check nothing.
- The client and its session (`app/drivers/aws/base.py`), settings and the command-line program (`app/main.py`) are not part of this model. The client is a parameter; a client error is modelled by its error code only.
- All logging calls are left out. They have no effect on results.
- Pagination is not modelled, because the driver implements none.
- Python integers are unbounded, so the model uses `int` and no width is modelled.

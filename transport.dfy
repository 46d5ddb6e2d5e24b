/** The boundary to the object store's client: the calls the driver makes and
    what each can come back with. The client itself is not modelled; an
    operation is given it as a function from call to outcome. */
module Transport {
  import opened Wire

  /** One request to the store, with the arguments the driver passes. */
  datatype Call =
    | CreateBucket(bucket: string)
    | HeadBucket(bucket: string)
    | ListObjectsV2(bucket: string)
    | ListObjects(bucket: string)
    | ListBuckets
    | DeleteBucket(bucket: string)
    | DeleteObjects(bucket: string, delete: Fields)
    | GetObject(bucket: string, key: string)
    | DeleteObject(bucket: string, key: string)

  /** A raw reply, or the client error the call raised, by its error code. */
  datatype Outcome = Reply(fields: Fields) | ClientError(code: string)

  type Client = Call -> Outcome
}

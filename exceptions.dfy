/** The driver's closed error taxonomy: one kind per failed operation class,
    each carrying the bucket or object name and/or the status code, and a
    human-readable detail assembled from them. */
module Exceptions {
  import opened Wrappers
  import opened Decimal

  /** One constructor per exception class of the driver. `Base` is the root
      class itself and `ObjectsError` the intermediate class of object errors,
      both raisable without arguments. */
  datatype S3Exception =
    | Base
    | BucketNotFound
    | GetBucketsError(statusCode: int)
    | BucketCreationError(bucket: string, statusCode: int)
    | BucketAlreadyExists(bucket: string)
    | BucketNotEmpty(bucket: string)
    | ListBucketsError(statusCode: int)
    | BucketDeletionError(bucket: string, statusCode: int)
    | BucketHeadError(bucket: string, statusCode: int)
    | ObjectsError
    | ListObjectsError(statusCode: int)
    | GetObjectError(statusCode: int)
    | DeleteObjectError(statusCode: int)
    | ObjectCreationError(objectName: string, statusCode: int)

  /** The rendering of `{status_code=}` in an f-string. */
  function StatusField(statusCode: int): string
  {
    "status_code=" + IntToString(statusCode)
  }

  /** The `detail` a class's own `__init__` assigns to the instance before
      calling the root constructor; None for the three classes without one. */
  function AssignedDetail(e: S3Exception): Option<string>
  {
    match e
    case Base => None
    case BucketNotFound => None
    case GetBucketsError(s) => Some("S3 Get Buckets Error: " + IntToString(s))
    case BucketCreationError(b, s) => Some("S3 Bucket " + b + " creation fail with " + StatusField(s))
    case BucketAlreadyExists(b) => Some("S3 Bucket " + b + " already exists")
    case BucketNotEmpty(b) => Some("S3 Bucket " + b + " not empty! And cannot be deleted")
    case ListBucketsError(s) => Some("S3 List Buckets Error: " + IntToString(s))
    case BucketDeletionError(b, s) => Some("S3 Bucket " + b + " deletion fail with " + StatusField(s))
    case BucketHeadError(b, s) => Some("S3 Bucket " + b + " head fail with " + StatusField(s))
    case ObjectsError => None
    case ListObjectsError(s) => Some("S3 List Objects Error: " + IntToString(s))
    case GetObjectError(s) => Some("S3 Get Object Error: " + IntToString(s))
    case DeleteObjectError(s) => Some("S3 Delete Object Error: " + IntToString(s))
    case ObjectCreationError(o, s) => Some("S3 Object " + o + " creation fail with " + StatusField(s))
  }

  /** The `detail` declared in the body of class `c` itself. */
  function ClassDetail(c: Class): Option<string>
  {
    match c
    case S3ExceptionClass => Some("S3 Exception")
    case S3BucketNotFound => Some("S3 Bucket not found")
    case _ => None
  }

  /** Class-attribute lookup of `detail`: the nearest declaration from `c` up
      the hierarchy. */
  function InheritedDetail(c: Class): Option<string>
    decreases Depth(c)
  {
    if ClassDetail(c).Some? then ClassDetail(c)
    else
      match Parent(c)
      case None => None
      case Some(p) => InheritedDetail(p)
  }

  /** What `self.detail` reads on an exception of kind `e` once constructed:
      the instance attribute its own `__init__` assigned, or else the class
      attribute it inherits. */
  function Detail(e: S3Exception): (d: string)
    ensures |d| > 3 && d[..3] == "S3 "
  {
    match AssignedDetail(e)
    case Some(d) => d
    case None =>
      match InheritedDetail(ClassOf(e))
      case Some(d) => d
      case None => ""
  }

  /** The three classes without an `__init__` of their own read the class
      attribute: `S3ObjectsError` inherits the root's. */
  lemma {:induction false} InheritedDetails()
    ensures Detail(Base) == "S3 Exception"
    ensures Detail(BucketNotFound) == "S3 Bucket not found"
    ensures Detail(ObjectsError) == "S3 Exception"
  {
    assert InheritedDetail(S3ExceptionClass) == Some("S3 Exception");
    assert InheritedDetail(S3ObjectsError) == InheritedDetail(S3ExceptionClass);
  }

  /** The status code an exception carries, if its class takes one. */
  function StatusOf(e: S3Exception): Option<int>
  {
    if e.GetBucketsError? || e.BucketCreationError? || e.ListBucketsError? || e.BucketDeletionError?
       || e.BucketHeadError? || e.ListObjectsError? || e.GetObjectError? || e.DeleteObjectError?
       || e.ObjectCreationError?
    then Some(e.statusCode)
    else None
  }

  /** The bucket name an exception carries, if its class takes one. */
  function BucketOf(e: S3Exception): Option<string>
  {
    if e.BucketCreationError? || e.BucketAlreadyExists? || e.BucketNotEmpty? || e.BucketDeletionError?
       || e.BucketHeadError?
    then Some(e.bucket)
    else None
  }

  lemma TrailingStatusField(p: string, s: int)
    ensures TrailingInt(p + StatusField(s)) == Some(s)
  {
    assert p + StatusField(s) == (p + "status_code=") + IntToString(s);
    TrailingIntOfRendered(p + "status_code=", s);
  }

  /** The status code is the number the detail ends with: every class that
      takes a status writes it last, after a space or an `=`. */
  lemma DetailEndsWithStatus(e: S3Exception)
    requires StatusOf(e).Some?
    ensures TrailingInt(Detail(e)) == Some(e.statusCode)
  {
    match e
    case GetBucketsError(s) =>
      assert Detail(e) == "S3 Get Buckets Error: " + IntToString(s);
      TrailingIntOfRendered("S3 Get Buckets Error: ", s);
    case BucketCreationError(b, s) =>
      assert Detail(e) == ("S3 Bucket " + b + " creation fail with ") + StatusField(s);
      TrailingStatusField("S3 Bucket " + b + " creation fail with ", s);
    case ListBucketsError(s) =>
      assert Detail(e) == "S3 List Buckets Error: " + IntToString(s);
      TrailingIntOfRendered("S3 List Buckets Error: ", s);
    case BucketDeletionError(b, s) =>
      assert Detail(e) == ("S3 Bucket " + b + " deletion fail with ") + StatusField(s);
      TrailingStatusField("S3 Bucket " + b + " deletion fail with ", s);
    case BucketHeadError(b, s) =>
      assert Detail(e) == ("S3 Bucket " + b + " head fail with ") + StatusField(s);
      TrailingStatusField("S3 Bucket " + b + " head fail with ", s);
    case ListObjectsError(s) =>
      assert Detail(e) == "S3 List Objects Error: " + IntToString(s);
      TrailingIntOfRendered("S3 List Objects Error: ", s);
    case GetObjectError(s) =>
      assert Detail(e) == "S3 Get Object Error: " + IntToString(s);
      TrailingIntOfRendered("S3 Get Object Error: ", s);
    case DeleteObjectError(s) =>
      assert Detail(e) == "S3 Delete Object Error: " + IntToString(s);
      TrailingIntOfRendered("S3 Delete Object Error: ", s);
    case ObjectCreationError(o, s) =>
      assert Detail(e) == ("S3 Object " + o + " creation fail with ") + StatusField(s);
      TrailingStatusField("S3 Object " + o + " creation fail with ", s);
  }

  /** A class that takes no status leaves no number at the end of its detail. */
  lemma DetailWithoutStatus(e: S3Exception)
    requires StatusOf(e).None?
    ensures TrailingInt(Detail(e)).None?
  {
    match e
    case Base =>
    case BucketNotFound =>
    case ObjectsError =>
    case BucketAlreadyExists(b) =>
      assert Detail(e) == ("S3 Bucket " + b + " already exist") + "s";
      EndsInLetter("S3 Bucket " + b + " already exist", 's');
    case BucketNotEmpty(b) =>
      assert Detail(e) == ("S3 Bucket " + b + " not empty! And cannot be delete") + "d";
      EndsInLetter("S3 Bucket " + b + " not empty! And cannot be delete", 'd');
  }

  lemma EndsInLetter(p: string, c: char)
    requires !IsDigit(c)
    ensures TrailingInt(p + [c]).None?
  {
  }

  lemma Framed(p: string, middle: string, q: string)
    ensures (p + middle + q)[..|p|] == p
    ensures |q| <= |p + middle + q| && (p + middle + q)[|p + middle + q| - |q|..] == q
  {
  }

  /** Every class that takes a bucket name opens its detail with it, and the
      ones that also take a status end it with `status_code=<n>`. */
  lemma DetailNamesBucket(e: S3Exception)
    requires BucketOf(e).Some?
    ensures |"S3 Bucket " + e.bucket| <= |Detail(e)|
    ensures Detail(e)[..|"S3 Bucket " + e.bucket|] == "S3 Bucket " + e.bucket
    ensures StatusOf(e).Some? ==>
      |StatusField(e.statusCode)| <= |Detail(e)| &&
      Detail(e)[|Detail(e)| - |StatusField(e.statusCode)|..] == StatusField(e.statusCode)
  {
    var p := "S3 Bucket " + e.bucket;
    match e
    case BucketCreationError(b, s) => Framed(p, " creation fail with ", StatusField(s));
    case BucketDeletionError(b, s) => Framed(p, " deletion fail with ", StatusField(s));
    case BucketHeadError(b, s) => Framed(p, " head fail with ", StatusField(s));
    case BucketAlreadyExists(b) =>
      assert Detail(e) == p + " already exists" + "";
      Framed(p, " already exists", "");
    case BucketNotEmpty(b) =>
      assert Detail(e) == p + " not empty! And cannot be deleted" + "";
      Framed(p, " not empty! And cannot be deleted", "");
  }

  // Construction, as Python runs it: `BaseException.__new__` records the
  // arguments given, then the `__init__` chain runs. A class with its own
  // `__init__` first assigns the instance attribute `detail`; the root
  // `__init__` then hands `Exception.__init__` the single value `self.detail`
  // reads, which replaces the recorded arguments.

  /** An exception object: its kind, its `args`, and its instance attribute
      `detail` when one was assigned. */
  datatype Instance = Instance(kind: S3Exception, args: seq<string>, ownDetail: Option<string>)

  /** `self.detail` on `x`: the instance attribute, else the class attribute. */
  function DetailAttribute(x: Instance): string
  {
    match x.ownDetail
    case Some(d) => d
    case None =>
      match InheritedDetail(ClassOf(x.kind))
      case Some(d) => d
      case None => ""
  }

  /** `BaseException.__new__`: the object records the arguments it is called with. */
  function New(e: S3Exception, given: seq<string>): Instance
  {
    Instance(e, given, None)
  }

  /** The `__init__` chain on a fresh object. */
  function Init(x: Instance): Instance
  {
    var own := if AssignedDetail(x.kind).Some? then AssignedDetail(x.kind) else x.ownDetail;
    var y := x.(ownDetail := own);
    y.(args := [DetailAttribute(y)])
  }

  /** Calling the class `e` with the arguments `given`. */
  function Raise(e: S3Exception, given: seq<string>): Instance
  {
    Init(New(e, given))
  }

  /** The message `str()` shows for an exception whose args are a single string. */
  function Message(x: Instance): string
  {
    if |x.args| == 1 then x.args[0] else ""
  }

  /** Whatever arguments the class is called with, they are dropped: the only
      argument left is the detail, which is also the message. */
  lemma MessageIsDetail(e: S3Exception, given: seq<string>)
    ensures New(e, given).args == given
    ensures Raise(e, given).args == [Detail(e)]
    ensures Message(Raise(e, given)) == Detail(e)
  {
  }

  // The class hierarchy, for `except` clauses that catch by class.

  datatype Class =
    | PyException
    | S3ExceptionClass
    | S3BucketNotFound
    | S3GetBucketsError
    | S3BucketCreationError
    | S3BucketAlreadyExists
    | S3BucketNotEmpty
    | S3ListBucketsError
    | S3BucketDeletionError
    | S3BucketHeadError
    | S3ObjectsError
    | S3ListObjectsError
    | S3GetObjectError
    | S3DeleteObjectError
    | S3ObjectCreationError

  function ClassOf(e: S3Exception): Class
  {
    match e
    case Base => S3ExceptionClass
    case BucketNotFound => S3BucketNotFound
    case GetBucketsError(_) => S3GetBucketsError
    case BucketCreationError(_, _) => S3BucketCreationError
    case BucketAlreadyExists(_) => S3BucketAlreadyExists
    case BucketNotEmpty(_) => S3BucketNotEmpty
    case ListBucketsError(_) => S3ListBucketsError
    case BucketDeletionError(_, _) => S3BucketDeletionError
    case BucketHeadError(_, _) => S3BucketHeadError
    case ObjectsError => S3ObjectsError
    case ListObjectsError(_) => S3ListObjectsError
    case GetObjectError(_) => S3GetObjectError
    case DeleteObjectError(_) => S3DeleteObjectError
    case ObjectCreationError(_, _) => S3ObjectCreationError
  }

  /** Depth below Python's `Exception`. */
  function Depth(c: Class): nat
  {
    match c
    case PyException => 0
    case S3ExceptionClass => 1
    case S3ListObjectsError => 3
    case S3GetObjectError => 3
    case S3DeleteObjectError => 3
    case S3ObjectCreationError => 3
    case _ => 2
  }

  /** The direct base class of each class. */
  function Parent(c: Class): (p: Option<Class>)
    ensures p.None? <==> c == PyException
    ensures p.Some? ==> Depth(p.value) + 1 == Depth(c)
  {
    match c
    case PyException => None
    case S3ExceptionClass => Some(PyException)
    case S3ListObjectsError => Some(S3ObjectsError)
    case S3GetObjectError => Some(S3ObjectsError)
    case S3DeleteObjectError => Some(S3ObjectsError)
    case S3ObjectCreationError => Some(S3ObjectsError)
    case _ => Some(S3ExceptionClass)
  }

  predicate IsSubclass(c: Class, d: Class)
    decreases Depth(c)
  {
    c == d || (Parent(c).Some? && IsSubclass(Parent(c).value, d))
  }

  /** `except d` catches an exception of kind `e`. */
  predicate Catches(d: Class, e: S3Exception)
  {
    IsSubclass(ClassOf(e), d)
  }

  /** The object errors are exactly the four object-operation classes and
      S3ObjectsError itself; every kind is an S3Exception. */
  lemma {:induction false} Hierarchy(e: S3Exception)
    ensures Catches(S3ExceptionClass, e)
    ensures Catches(S3ObjectsError, e) <==>
      e.ObjectsError? || e.ListObjectsError? || e.GetObjectError? || e.DeleteObjectError? || e.ObjectCreationError?
    ensures Catches(S3BucketAlreadyExists, e) <==> e.BucketAlreadyExists?
  {
    var c := ClassOf(e);
    if Depth(c) == 3 {
      assert Parent(c) == Some(S3ObjectsError);
      assert Parent(S3ObjectsError) == Some(S3ExceptionClass);
      assert Parent(S3ExceptionClass) == Some(PyException);
    } else if Depth(c) == 2 {
      assert Parent(c) == Some(S3ExceptionClass);
      assert Parent(S3ExceptionClass) == Some(PyException);
    }
    assert IsSubclass(PyException, S3ObjectsError) == false;
    assert IsSubclass(PyException, S3BucketAlreadyExists) == false;
  }
}

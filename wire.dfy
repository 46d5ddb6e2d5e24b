/** The loosely-typed reply the transport hands back, and the rules by which a
    typed record reads one field of it: alias resolution (the first accepted
    spelling that is present wins), required fields, defaults, and the type
    each field must have. Field-level reading is strict: no coercion between
    strings, integers and booleans is modelled. */
module Wire {
  import opened Wrappers

  /** A raw reply value. `DateTime` and `Stream` stand for the Python objects
      the transport returns for timestamps and bodies; they are opaque here. */
  datatype Value =
    | Str(s: string)
    | Int(i: int)
    | Bool(b: bool)
    | Null
    | List(items: seq<Value>)
    | Mapping(fields: map<string, Value>)
    | DateTime(instant: int)
    | Stream(handle: nat)

  type Fields = map<string, Value>

  /** One step of the location a validation error points at. */
  datatype Loc = At(key: string) | Item(index: nat)

  datatype ParseError = Missing(loc: seq<Loc>) | WrongType(loc: seq<Loc>)
  {
    /** The same error, seen from the record that holds the failing one. */
    function Under(outer: Loc): (e: ParseError)
      ensures e.loc == [outer] + loc
      ensures e.Missing? == Missing?
    {
      match this
      case Missing(l) => Missing([outer] + l)
      case WrongType(l) => WrongType([outer] + l)
    }
  }

  /** A hit of the alias search: the spelling that was found and its value. */
  datatype Hit = Hit(alias: string, value: Value)

  /** `aliases[i]` is the first accepted spelling present in `m`. */
  predicate FirstIs(m: Fields, aliases: seq<string>, i: int)
  {
    0 <= i < |aliases| && aliases[i] in m && forall j :: 0 <= j < i ==> aliases[j] !in m
  }

  /** No accepted spelling is present in `m`. */
  predicate Absent(m: Fields, aliases: seq<string>)
  {
    forall j :: 0 <= j < |aliases| ==> aliases[j] !in m
  }

  /** `v` is what the first accepted spelling present in `m` holds. */
  predicate Chosen(m: Fields, aliases: seq<string>, v: Value)
  {
    exists i :: 0 <= i < |aliases| && FirstIs(m, aliases, i) && m[aliases[i]] == v
  }

  /** The types a field of a record may be declared with. */
  datatype Kind = StrKind | IntKind | BoolKind | DateTimeKind | StreamKind

  predicate IsKind(v: Value, k: Kind)
  {
    match k
    case StrKind => v.Str?
    case IntKind => v.Int?
    case BoolKind => v.Bool?
    case DateTimeKind => v.DateTime?
    case StreamKind => v.Stream?
  }

  /** The first accepted spelling present in `m` holds a value of kind `k`. */
  predicate FirstOfKind(m: Fields, aliases: seq<string>, k: Kind)
  {
    exists i :: 0 <= i < |aliases| && FirstIs(m, aliases, i) && IsKind(m[aliases[i]], k)
  }

  /** A field with a single spelling is found exactly when that key is present. */
  lemma OneSpelling(m: Fields)
    ensures forall aliases: seq<string> | |aliases| == 1 :: FirstIs(m, aliases, 0) <==> aliases[0] in m
    ensures forall aliases: seq<string> | |aliases| == 1 :: Absent(m, aliases) <==> aliases[0] !in m
  {
  }

  /** The spelling a missing-field error names: the first one accepted. */
  function Primary(aliases: seq<string>): string
  {
    if aliases == [] then "" else aliases[0]
  }

  /** Index of the first accepted spelling present in `m`, tried in order. */
  function FirstPresent(m: Fields, aliases: seq<string>): (r: Option<nat>)
    ensures r.Some? ==> FirstIs(m, aliases, r.value)
    ensures r.None? <==> Absent(m, aliases)
  {
    if aliases == [] then None
    else if aliases[0] in m then Some(0)
    else
      match FirstPresent(m, aliases[1..])
      case None =>
        assert forall j :: 1 <= j < |aliases| ==> aliases[j] == aliases[1..][j - 1];
        None
      case Some(k) =>
        assert forall j :: 1 <= j < k + 1 ==> aliases[j] == aliases[1..][j - 1];
        Some(k + 1)
  }

  lemma SomeFirst(m: Fields, aliases: seq<string>)
    requires !Absent(m, aliases)
    ensures exists i :: FirstIs(m, aliases, i)
  {
    var i := FirstPresent(m, aliases).value;
  }

  lemma FirstIsUnique(m: Fields, aliases: seq<string>, i: int, k: int)
    requires FirstIs(m, aliases, i) && FirstIs(m, aliases, k)
    ensures i == k
  {
  }

  /** The value under the first accepted spelling present, if any. */
  function Lookup(m: Fields, aliases: seq<string>): (r: Option<Hit>)
    ensures r.None? <==> Absent(m, aliases)
    ensures forall i | FirstIs(m, aliases, i) :: r == Some(Hit(aliases[i], m[aliases[i]]))
  {
    match FirstPresent(m, aliases)
    case None => None
    case Some(i) =>
      assert forall k | FirstIs(m, aliases, k) :: k == i by {
        forall k | FirstIs(m, aliases, k) ensures k == i { FirstIsUnique(m, aliases, i, k); }
      }
      Some(Hit(aliases[i], m[aliases[i]]))
  }

  /** A required field: missing when no accepted spelling is present. */
  function Required(m: Fields, aliases: seq<string>): (r: Result<Hit, ParseError>)
    ensures Absent(m, aliases) ==> r == Failure(Missing([At(Primary(aliases))]))
    ensures forall i | FirstIs(m, aliases, i) :: r == Success(Hit(aliases[i], m[aliases[i]]))
  {
    match Lookup(m, aliases)
    case None => Failure(Missing([At(Primary(aliases))]))
    case Some(h) => Success(h)
  }

  function Mismatch<T>(h: Hit): Result<T, ParseError>
  {
    Failure(WrongType([At(h.alias)]))
  }

  predicate IsStrMap(v: Value)
  {
    v.Mapping? && forall k :: k in v.fields ==> v.fields[k].Str?
  }

  /** The string map a `Mapping` of strings stands for. */
  function StrMap(v: Value): (r: map<string, string>)
    requires IsStrMap(v)
    ensures r.Keys == v.fields.Keys
    ensures forall k :: k in r ==> v.fields[k] == Str(r[k])
  {
    map k | k in v.fields :: v.fields[k].s
  }

  // Typed readers. Each reads the field under the first accepted spelling
  // present; a value of another type is a type error at that spelling.

  function ReqStr(m: Fields, aliases: seq<string>): (r: Result<string, ParseError>)
    ensures Absent(m, aliases) ==> r == Failure(Missing([At(Primary(aliases))]))
    ensures forall i | FirstIs(m, aliases, i) ::
      r == if m[aliases[i]].Str? then Success(m[aliases[i]].s) else Failure(WrongType([At(aliases[i])]))
  {
    var h :- Required(m, aliases);
    if h.value.Str? then Success(h.value.s) else Mismatch(h)
  }

  function ReqInt(m: Fields, aliases: seq<string>): (r: Result<int, ParseError>)
    ensures Absent(m, aliases) ==> r == Failure(Missing([At(Primary(aliases))]))
    ensures forall i | FirstIs(m, aliases, i) ::
      r == if m[aliases[i]].Int? then Success(m[aliases[i]].i) else Failure(WrongType([At(aliases[i])]))
  {
    var h :- Required(m, aliases);
    if h.value.Int? then Success(h.value.i) else Mismatch(h)
  }

  /** A timestamp field; the instant is kept opaque. */
  function ReqDateTime(m: Fields, aliases: seq<string>): (r: Result<int, ParseError>)
    ensures Absent(m, aliases) ==> r == Failure(Missing([At(Primary(aliases))]))
    ensures forall i | FirstIs(m, aliases, i) ::
      r == if m[aliases[i]].DateTime? then Success(m[aliases[i]].instant) else Failure(WrongType([At(aliases[i])]))
  {
    var h :- Required(m, aliases);
    if h.value.DateTime? then Success(h.value.instant) else Mismatch(h)
  }

  /** A streaming-body field; the stream is kept as an opaque handle. */
  function ReqStream(m: Fields, aliases: seq<string>): (r: Result<nat, ParseError>)
    ensures Absent(m, aliases) ==> r == Failure(Missing([At(Primary(aliases))]))
    ensures forall i | FirstIs(m, aliases, i) ::
      r == if m[aliases[i]].Stream? then Success(m[aliases[i]].handle) else Failure(WrongType([At(aliases[i])]))
  {
    var h :- Required(m, aliases);
    if h.value.Stream? then Success(h.value.handle) else Mismatch(h)
  }

  /** A required map of strings to strings. */
  function ReqStrMap(m: Fields, aliases: seq<string>): (r: Result<map<string, string>, ParseError>)
    ensures Absent(m, aliases) ==> r == Failure(Missing([At(Primary(aliases))]))
    ensures forall i | FirstIs(m, aliases, i) ::
      r == if IsStrMap(m[aliases[i]]) then Success(StrMap(m[aliases[i]])) else Failure(WrongType([At(aliases[i])]))
  {
    var h :- Required(m, aliases);
    if IsStrMap(h.value) then Success(StrMap(h.value)) else Mismatch(h)
  }

  /** A required nested record, handed back as its own field map. */
  function ReqFields(m: Fields, aliases: seq<string>): (r: Result<Hit, ParseError>)
    ensures Absent(m, aliases) ==> r == Failure(Missing([At(Primary(aliases))]))
    ensures forall i | FirstIs(m, aliases, i) ::
      r == if m[aliases[i]].Mapping? then Success(Hit(aliases[i], m[aliases[i]])) else Failure(WrongType([At(aliases[i])]))
  {
    var h :- Required(m, aliases);
    if h.value.Mapping? then Success(h) else Mismatch(h)
  }

  /** A required list field. */
  function ReqList(m: Fields, aliases: seq<string>): (r: Result<Hit, ParseError>)
    ensures Absent(m, aliases) ==> r == Failure(Missing([At(Primary(aliases))]))
    ensures forall i | FirstIs(m, aliases, i) ::
      r == if m[aliases[i]].List? then Success(Hit(aliases[i], m[aliases[i]])) else Failure(WrongType([At(aliases[i])]))
  {
    var h :- Required(m, aliases);
    if h.value.List? then Success(h) else Mismatch(h)
  }

  /** An integer field that is not nullable and takes `default` when absent. */
  function IntOr(m: Fields, aliases: seq<string>, default: int): (r: Result<int, ParseError>)
    ensures Absent(m, aliases) ==> r == Success(default)
    ensures forall i | FirstIs(m, aliases, i) ::
      r == if m[aliases[i]].Int? then Success(m[aliases[i]].i) else Failure(WrongType([At(aliases[i])]))
  {
    match Lookup(m, aliases)
    case None => Success(default)
    case Some(h) => if h.value.Int? then Success(h.value.i) else Mismatch(h)
  }

  /** A map-of-strings field that is not nullable and takes `default` when absent. */
  function StrMapOr(m: Fields, aliases: seq<string>, default: map<string, string>): (r: Result<map<string, string>, ParseError>)
    ensures Absent(m, aliases) ==> r == Success(default)
    ensures forall i | FirstIs(m, aliases, i) ::
      r == if IsStrMap(m[aliases[i]]) then Success(StrMap(m[aliases[i]])) else Failure(WrongType([At(aliases[i])]))
  {
    match Lookup(m, aliases)
    case None => Success(default)
    case Some(h) => if IsStrMap(h.value) then Success(StrMap(h.value)) else Mismatch(h)
  }

  // Nullable readers (`T | None` with a default): absent gives the default,
  // an explicit null gives None, a value of the right type gives Some.

  function OptStr(m: Fields, aliases: seq<string>, default: Option<string>): (r: Result<Option<string>, ParseError>)
    ensures Absent(m, aliases) ==> r == Success(default)
    ensures forall i | FirstIs(m, aliases, i) ::
      r == if m[aliases[i]].Null? then Success(None)
           else if m[aliases[i]].Str? then Success(Some(m[aliases[i]].s))
           else Failure(WrongType([At(aliases[i])]))
  {
    match Lookup(m, aliases)
    case None => Success(default)
    case Some(h) =>
      if h.value.Null? then Success(None)
      else if h.value.Str? then Success(Some(h.value.s))
      else Mismatch(h)
  }

  function OptInt(m: Fields, aliases: seq<string>, default: Option<int>): (r: Result<Option<int>, ParseError>)
    ensures Absent(m, aliases) ==> r == Success(default)
    ensures forall i | FirstIs(m, aliases, i) ::
      r == if m[aliases[i]].Null? then Success(None)
           else if m[aliases[i]].Int? then Success(Some(m[aliases[i]].i))
           else Failure(WrongType([At(aliases[i])]))
  {
    match Lookup(m, aliases)
    case None => Success(default)
    case Some(h) =>
      if h.value.Null? then Success(None)
      else if h.value.Int? then Success(Some(h.value.i))
      else Mismatch(h)
  }

  function OptBool(m: Fields, aliases: seq<string>, default: Option<bool>): (r: Result<Option<bool>, ParseError>)
    ensures Absent(m, aliases) ==> r == Success(default)
    ensures forall i | FirstIs(m, aliases, i) ::
      r == if m[aliases[i]].Null? then Success(None)
           else if m[aliases[i]].Bool? then Success(Some(m[aliases[i]].b))
           else Failure(WrongType([At(aliases[i])]))
  {
    match Lookup(m, aliases)
    case None => Success(default)
    case Some(h) =>
      if h.value.Null? then Success(None)
      else if h.value.Bool? then Success(Some(h.value.b))
      else Mismatch(h)
  }

  /** The outcome of reading a nested value, with its errors located under `outer`. */
  function Inside<T>(outer: Loc, r: Result<T, ParseError>): Result<T, ParseError>
  {
    match r
    case Success(v) => Success(v)
    case Failure(e) => Failure(e.Under(outer))
  }

  /** Reads every element of a list field with `parse`, in order; the first
      element that fails decides the error, located at its index. */
  function ParseList<T>(items: seq<Value>, parse: Value -> Result<T, ParseError>): (r: Result<seq<T>, ParseError>)
    ensures r.Success? <==> forall i :: 0 <= i < |items| ==> parse(items[i]).Success?
    ensures r.Success? ==> |r.value| == |items| && forall i :: 0 <= i < |items| ==> parse(items[i]) == Success(r.value[i])
    ensures r.Failure? ==>
      exists i :: 0 <= i < |items| && parse(items[i]).Failure? && r.error == parse(items[i]).error.Under(Item(i))
        && forall j :: 0 <= j < i ==> parse(items[j]).Success?
    decreases |items|
  {
    if items == [] then Success([])
    else
      var n := |items| - 1;
      var init :- ParseList(items[..n], parse);
      assert forall i :: 0 <= i < n ==> items[..n][i] == items[i];
      var last :- Inside(Item(n), parse(items[n]));
      Success(init + [last])
  }
}

/**
  The event-driven struct filler.

  A filler holds a pointer into the data being filled; here a pointer is a path from the root.
  `Step` is one parser event on the current filler and the stack. `FillMembers` and its
  companions are the direct recursion over the JSON tree. The main theorem is that the stack
  machine computes the recursion, errors included.
 */
module StructParser {
  import opened Prelude

  /** What the code throws. */
  datatype Error = InvalidKey(key: string) | NotForObject | NotForArray | Unavailable | BadConversion

  datatype Result<+T> = Ok(value: T) | Throw(error: Error)

  datatype Scalar = Int(i: int) | Real(r: real) | Str(s: string) | Bool(b: bool)

  /** The conversion of a JSON scalar to a leaf of some kind; None when it throws. */
  type Conversion = (nat, Scalar) -> Option<Scalar>

  /** The C++ types a field may have: a leaf kind, a registered struct, a vector, a string-keyed map. */
  datatype Type = Leaf(kind: nat) | Struct(fields: Fields) | Vector(elem: Type) | Map(elem: Type)

  datatype Fields = NoFields | Field(name: string, ty: Type, rest: Fields)

  datatype Val =
    | LeafVal(scalar: Scalar)
    | StructVal(fields: map<string, Val>)
    | VectorVal(elems: seq<Val>)
    | MapVal(entries: map<string, Val>)

  /** The linear search of the field list. */
  function Find(fields: Fields, k: string): Option<Type> {
    match fields
    case NoFields => None
    case Field(name, ty, rest) => if name == k then Some(ty) else Find(rest, k)
  }

  /** A default-constructed value. */
  function Default(t: Type): Val {
    match t
    case Leaf(_) => LeafVal(Int(0))
    case Struct(fields) => StructVal(DefaultFields(fields))
    case Vector(_) => VectorVal([])
    case Map(_) => MapVal(map[])
  }

  function DefaultFields(fields: Fields): map<string, Val> {
    match fields
    case NoFields => map[]
    case Field(name, ty, rest) => DefaultFields(rest)[name := Default(ty)]
  }

  // ---- Pointers ----

  datatype Sel = FieldOf(name: string) | ElemAt(i: nat) | EntryOf(key: string)

  type Path = seq<Sel>

  function Child(v: Val, s: Sel): Val {
    match (v, s)
    case (StructVal(m), FieldOf(k)) => if k in m then m[k] else Default(Leaf(0))
    case (VectorVal(e), ElemAt(i)) => if i < |e| then e[i] else Default(Leaf(0))
    case (MapVal(m), EntryOf(k)) => if k in m then m[k] else Default(Leaf(0))
    case _ => Default(Leaf(0))
  }

  function SetChild(v: Val, s: Sel, w: Val): Val {
    match s
    case FieldOf(k) => StructVal((if v.StructVal? then v.fields else map[])[k := w])
    case EntryOf(k) => MapVal((if v.MapVal? then v.entries else map[])[k := w])
    case ElemAt(i) => if v.VectorVal? && i < |v.elems| then VectorVal(v.elems[i := w]) else v
  }

  /** A pointer step that exists: the field, element or entry is there. */
  predicate Fits(v: Val, s: Sel) {
    match s
    case FieldOf(k) => v.StructVal? && k in v.fields
    case ElemAt(i) => v.VectorVal? && i < |v.elems|
    case EntryOf(k) => v.MapVal? && k in v.entries
  }

  ghost predicate Points(root: Val, p: Path)
    decreases |p|
  {
    p != [] ==> Fits(root, p[0]) && Points(Child(root, p[0]), p[1..])
  }

  function Get(root: Val, p: Path): Val
    decreases |p|
  {
    if p == [] then root else Get(Child(root, p[0]), p[1..])
  }

  function Put(root: Val, p: Path, v: Val): Val
    decreases |p|
  {
    if p == [] then v else SetChild(root, p[0], Put(Child(root, p[0]), p[1..], v))
  }

  lemma {:induction false} PutGet(root: Val, p: Path, v: Val)
    requires Points(root, p)
    ensures Get(Put(root, p, v), p) == v && Points(Put(root, p, v), p)
    decreases |p|
  {
    if p != [] {
      PutGet(Child(root, p[0]), p[1..], v);
    }
  }

  lemma {:induction false} PutSame(root: Val, p: Path)
    requires Points(root, p)
    ensures Put(root, p, Get(root, p)) == root
    decreases |p|
  {
    if p != [] {
      PutSame(Child(root, p[0]), p[1..]);
    }
  }

  lemma {:induction false} PutPut(root: Val, p: Path, v: Val, w: Val)
    requires Points(root, p)
    ensures Put(Put(root, p, v), p, w) == Put(root, p, w)
    decreases |p|
  {
    if p != [] {
      PutPut(Child(root, p[0]), p[1..], v, w);
      var sub := Put(Child(root, p[0]), p[1..], v);
      assert Child(SetChild(root, p[0], sub), p[0]) == sub;
    }
  }

  lemma {:induction false} PathSnoc(root: Val, p: Path, s: Sel, w: Val)
    requires Points(root, p)
    ensures Get(root, p + [s]) == Child(Get(root, p), s)
    ensures Put(root, p + [s], w) == Put(root, p, SetChild(Get(root, p), s, w))
    ensures Points(root, p + [s]) <==> Fits(Get(root, p), s)
    decreases |p|
  {
    if p == [] {
      assert (p + [s])[1..] == [];
    } else {
      PathSnoc(Child(root, p[0]), p[1..], s, w);
      assert (p + [s])[1..] == p[1..] + [s];
    }
  }

  // ---- What a filler does with its own data ----

  /** A child filler: its type, where it is, and the parent's value once it is there. */
  datatype Opened = Opened(ty: Type, sel: Sel, parent: Val)

  /** startObject and startArray of the three fillers, for a value v of type t under key k. */
  function Open(t: Type, v: Val, k: string, isArray: bool): (r: Result<Opened>)
    ensures r.Ok? ==> Fits(r.value.parent, r.value.sel)
    ensures r.Ok? && isArray ==> r.value.ty.Vector?
  {
    match t
    case Leaf(_) => Throw(if isArray then NotForArray else NotForObject)
    case Struct(fields) =>
      var f := Find(fields, k);
      if f.None? then Throw(InvalidKey(k))
      else Made(f.value, FieldOf(k),
          if Fits(v, FieldOf(k)) then v else SetChild(v, FieldOf(k), Default(f.value)), isArray)
    case Vector(elem) =>
      var elems := if v.VectorVal? then v.elems else [];
      Made(elem, ElemAt(|elems|), VectorVal(elems + [Default(elem)]), isArray)
    case Map(elem) =>
      var entries := if v.MapVal? then v.entries else map[];
      Made(elem, EntryOf(k), MapVal(if k in entries then entries else entries[k := Default(elem)]), isArray)
  }

  /** startArrayFor exists for vectors, startObjectFor for structs and maps. */
  function Made(t: Type, sel: Sel, parent: Val, isArray: bool): (r: Result<Opened>)
    ensures r.Ok? ==> r.value == Opened(t, sel, parent) && (if isArray then t.Vector? else t.Struct? || t.Map?)
  {
    if isArray then (if t.Vector? then Ok(Opened(t, sel, parent)) else Throw(NotForArray))
    else if t.Struct? || t.Map? then Ok(Opened(t, sel, parent)) else Throw(NotForObject)
  }

  function Converted(conv: Conversion, t: Type, x: Scalar): Result<Val> {
    if !t.Leaf? then Throw(Unavailable)
    else match conv(t.kind, x)
      case None => Throw(BadConversion)
      case Some(y) => Ok(LeafVal(y))
  }

  /** value of the three fillers. A struct field is assigned; a map keeps an entry it has. */
  function Store(conv: Conversion, t: Type, v: Val, k: string, x: Scalar): Result<Val> {
    match t
    case Leaf(_) => Throw(Unavailable)
    case Struct(fields) =>
      var f := Find(fields, k);
      if f.None? then Throw(InvalidKey(k))
      else (match Converted(conv, f.value, x)
            case Throw(e) => Throw(e)
            case Ok(w) => Ok(SetChild(v, FieldOf(k), w)))
    case Vector(elem) =>
      (match Converted(conv, elem, x)
       case Throw(e) => Throw(e)
       case Ok(w) => Ok(VectorVal((if v.VectorVal? then v.elems else []) + [w])))
    case Map(elem) =>
      (match Converted(conv, elem, x)
       case Throw(e) => Throw(e)
       case Ok(w) =>
         var entries := if v.MapVal? then v.entries else map[];
         Ok(MapVal(if k in entries then entries else entries[k := w])))
  }

  // ---- The stack machine ----

  datatype Event = StartObject | EndObject | StartArray | EndArray | Key(k: string) | Value(x: Scalar) | Null

  datatype Filler = Filler(ty: Type, at: Path)

  datatype State = State(currentKey: string, current: Filler, stack: seq<Filler>, root: Val)

  function Start(s: State, isArray: bool): Result<State> {
    if s.currentKey == "" then Ok(s)
    else match Open(s.current.ty, Get(s.root, s.current.at), s.currentKey, isArray)
      case Throw(e) => Throw(e)
      case Ok(o) =>
        Ok(State(s.currentKey, Filler(o.ty, s.current.at + [o.sel]), s.stack + [s.current],
                 Put(s.root, s.current.at, o.parent)))
  }

  function End(s: State): State {
    if s.stack == [] then s
    else s.(current := s.stack[|s.stack| - 1], stack := s.stack[..|s.stack| - 1])
  }

  function Step(conv: Conversion, s: State, e: Event): Result<State> {
    match e
    case StartObject => Start(s, false)
    case StartArray => Start(s, true)
    case EndObject => Ok(End(s))
    case EndArray => Ok(End(s))
    case Key(k) => Ok(s.(currentKey := k))
    case Null => Ok(s)
    case Value(x) =>
      match Store(conv, s.current.ty, Get(s.root, s.current.at), s.currentKey, x)
      case Throw(e) => Throw(e)
      case Ok(v) => Ok(s.(root := Put(s.root, s.current.at, v)))
  }

  /** A run of events; the first exception ends it. */
  function Run(conv: Conversion, s: State, events: seq<Event>): Result<State>
    decreases |events|
  {
    if events == [] then Ok(s)
    else match Step(conv, s, events[0])
      case Throw(e) => Throw(e)
      case Ok(t) => Run(conv, t, events[1..])
  }

  lemma {:induction false} RunAppend(conv: Conversion, s: State, a: seq<Event>, b: seq<Event>)
    ensures Run(conv, s, a + b) == match Run(conv, s, a) case Throw(e) => Throw(e) case Ok(t) => Run(conv, t, b)
    decreases |a|
  {
    if a == [] {
      assert a + b == b;
    } else {
      assert (a + b)[1..] == a[1..] + b;
      if Step(conv, s, a[0]).Ok? {
        RunAppend(conv, Step(conv, s, a[0]).value, a[1..], b);
      }
    }
  }

  // ---- JSON trees ----

  datatype Json = JNull | JScalar(x: Scalar) | JArray(items: Items) | JObject(members: Members)

  datatype Items = NoItems | Item(head: Json, tail: Items)

  datatype Members = NoMembers | Member(key: string, value: Json, rest: Members)

  function Events(j: Json): seq<Event> {
    match j
    case JNull => [Null]
    case JScalar(x) => [Value(x)]
    case JArray(items) => [StartArray] + ItemEvents(items) + [EndArray]
    case JObject(members) => [StartObject] + MemberEvents(members) + [EndObject]
  }

  function ItemEvents(items: Items): seq<Event> {
    match items
    case NoItems => []
    case Item(j, rest) => Events(j) + ItemEvents(rest)
  }

  function MemberEvents(members: Members): seq<Event> {
    match members
    case NoMembers => []
    case Member(k, j, rest) => [Key(k)] + Events(j) + MemberEvents(rest)
  }

  // ---- Direct recursion ----

  /** The value v of type t after JSON value j arrives under key k (ignored by a vector). */
  function FillChild(conv: Conversion, t: Type, v: Val, k: string, j: Json): Result<Val>
    decreases j, 0
  {
    match j
    case JNull => Ok(v)
    case JScalar(x) => Store(conv, t, v, k, x)
    case JArray(items) =>
      (match Open(t, v, k, true)
       case Throw(e) => Throw(e)
       case Ok(o) => Close(o, FillItems(conv, o.ty, Child(o.parent, o.sel), items)))
    case JObject(members) =>
      (match Open(t, v, k, false)
       case Throw(e) => Throw(e)
       case Ok(o) => Close(o, FillMembers(conv, o.ty, Child(o.parent, o.sel), members)))
  }

  function Close(o: Opened, child: Result<Val>): Result<Val> {
    match child
    case Throw(e) => Throw(e)
    case Ok(w) => Ok(SetChild(o.parent, o.sel, w))
  }

  function FillItems(conv: Conversion, t: Type, v: Val, items: Items): Result<Val>
    decreases items, 1
  {
    match items
    case NoItems => Ok(v)
    case Item(j, rest) =>
      match FillChild(conv, t, v, "", j)
      case Throw(e) => Throw(e)
      case Ok(w) => FillItems(conv, t, w, rest)
  }

  function FillMembers(conv: Conversion, t: Type, v: Val, members: Members): Result<Val>
    decreases members, 1
  {
    match members
    case NoMembers => Ok(v)
    case Member(k, j, rest) =>
      match FillChild(conv, t, v, k, j)
      case Throw(e) => Throw(e)
      case Ok(w) => FillMembers(conv, t, w, rest)
  }

  // ---- The key the parser remembers ----

  /** currentKey after the events of j: the last key inside, or what it was. */
  function KeyAfter(key: string, j: Json): string
    decreases j, 0
  {
    match j
    case JArray(items) => KeyAfterItems(key, items)
    case JObject(members) => KeyAfterMembers(key, members)
    case _ => key
  }

  function KeyAfterItems(key: string, items: Items): string
    decreases items, 1
  {
    match items
    case NoItems => key
    case Item(j, rest) => KeyAfterItems(KeyAfter(key, j), rest)
  }

  function KeyAfterMembers(key: string, members: Members): string
    decreases members, 1
  {
    match members
    case NoMembers => key
    case Member(k, j, rest) => KeyAfterMembers(KeyAfter(k, j), rest)
  }

  /** No object or array below the root starts while the remembered key is empty. */
  predicate Tracks(key: string, j: Json)
    decreases j, 0
  {
    match j
    case JArray(items) => key != "" && TracksItems(key, items)
    case JObject(members) => key != "" && TracksMembers(members)
    case _ => true
  }

  predicate TracksItems(key: string, items: Items)
    decreases items, 1
  {
    match items
    case NoItems => true
    case Item(j, rest) => Tracks(key, j) && TracksItems(KeyAfter(key, j), rest)
  }

  predicate TracksMembers(members: Members)
    decreases members, 1
  {
    match members
    case NoMembers => true
    case Member(k, j, rest) => Tracks(k, j) && TracksMembers(rest)
  }

  predicate NonEmptyKeys(j: Json) {
    match j
    case JArray(items) => NonEmptyKeysInItems(items)
    case JObject(members) => NonEmptyKeysInMembers(members)
    case _ => true
  }

  predicate NonEmptyKeysInItems(items: Items) {
    match items
    case NoItems => true
    case Item(j, rest) => NonEmptyKeys(j) && NonEmptyKeysInItems(rest)
  }

  predicate NonEmptyKeysInMembers(members: Members) {
    match members
    case NoMembers => true
    case Member(k, j, rest) => k != "" && NonEmptyKeys(j) && NonEmptyKeysInMembers(rest)
  }

  lemma {:induction false} NonEmptyTracks(key: string, j: Json)
    requires NonEmptyKeys(j) && key != ""
    ensures Tracks(key, j) && KeyAfter(key, j) != ""
    decreases j, 0
  {
    match j
    case JArray(items) => NonEmptyTracksItems(key, items);
    case JObject(members) => NonEmptyTracksMembers(key, members);
    case _ =>
  }

  lemma {:induction false} NonEmptyTracksItems(key: string, items: Items)
    requires NonEmptyKeysInItems(items) && key != ""
    ensures TracksItems(key, items) && KeyAfterItems(key, items) != ""
    decreases items, 1
  {
    if items.Item? {
      NonEmptyTracks(key, items.head);
      NonEmptyTracksItems(KeyAfter(key, items.head), items.tail);
    }
  }

  lemma {:induction false} NonEmptyTracksMembers(key: string, members: Members)
    requires NonEmptyKeysInMembers(members)
    ensures TracksMembers(members) && (key != "" ==> KeyAfterMembers(key, members) != "")
    decreases members, 1
  {
    if members.Member? {
      NonEmptyTracks(members.key, members.value);
      NonEmptyTracksMembers(KeyAfter(members.key, members.value), members.rest);
    }
  }

  // ---- The stack machine computes the recursion ----

  /** The state that differs from s in the data under the current filler and in the key. */
  function Filled(s: State, r: Result<Val>, key: string): Result<State> {
    match r
    case Throw(e) => Throw(e)
    case Ok(w) => Ok(s.(root := Put(s.root, s.current.at, w), currentKey := key))
  }

  function Here(s: State): Val {
    Get(s.root, s.current.at)
  }

  /** Filling in two steps is filling once with the second value. */
  lemma FilledAgain(s: State, v: Val, key: string)
    requires Points(s.root, s.current.at)
    ensures var t := Filled(s, Ok(v), key).value;
      && Points(t.root, t.current.at) && Here(t) == v
      && forall r: Result<Val>, k2: string :: Filled(t, r, k2) == Filled(s, r, k2)
  {
    PutGet(s.root, s.current.at, v);
    forall r: Result<Val>, k2: string
      ensures Filled(Filled(s, Ok(v), key).value, r, k2) == Filled(s, r, k2)
    {
      if r.Ok? {
        PutPut(s.root, s.current.at, v, r.value);
      }
    }
  }

  lemma {:induction false} RunItems(conv: Conversion, s: State, items: Items)
    requires Points(s.root, s.current.at) && s.current.ty.Vector? && TracksItems(s.currentKey, items)
    ensures Run(conv, s, ItemEvents(items))
      == Filled(s, FillItems(conv, s.current.ty, Here(s), items), KeyAfterItems(s.currentKey, items))
    decreases items, 1
  {
    match items
    case NoItems => PutSame(s.root, s.current.at);
    case Item(j, rest) =>
      RunAppend(conv, s, Events(j), ItemEvents(rest));
      RunChild(conv, s, "", j);
      var r := FillChild(conv, s.current.ty, Here(s), "", j);
      if r.Ok? {
        var key := KeyAfter(s.currentKey, j);
        FilledAgain(s, r.value, key);
        RunItems(conv, Filled(s, r, key).value, rest);
      }
  }

  lemma {:induction false} RunMembers(conv: Conversion, s: State, members: Members)
    requires Points(s.root, s.current.at) && TracksMembers(members)
    ensures Run(conv, s, MemberEvents(members))
      == Filled(s, FillMembers(conv, s.current.ty, Here(s), members), KeyAfterMembers(s.currentKey, members))
    decreases members, 1
  {
    hide Open, Store, Start, Put, Get;
    match members
    case NoMembers => PutSame(s.root, s.current.at);
    case Member(k, j, rest) =>
      var keyed := s.(currentKey := k);
      assert [Key(k)] + Events(j) + MemberEvents(rest) == [Key(k)] + (Events(j) + MemberEvents(rest));
      RunAppend(conv, s, [Key(k)], Events(j) + MemberEvents(rest));
      RunAppend(conv, keyed, Events(j), MemberEvents(rest));
      RunChild(conv, keyed, k, j);
      var r := FillChild(conv, s.current.ty, Here(s), k, j);
      if r.Ok? {
        var key := KeyAfter(k, j);
        FilledAgain(keyed, r.value, key);
        RunMembers(conv, Filled(keyed, r, key).value, rest);
      }
  }

  /** A nested container: entered, filled, left; current and stack are back where they were. */
  lemma {:induction false} RunChild(conv: Conversion, s: State, k: string, j: Json)
    requires Points(s.root, s.current.at) && Tracks(s.currentKey, j)
    requires k == s.currentKey || s.current.ty.Vector?
    ensures Run(conv, s, Events(j))
      == Filled(s, FillChild(conv, s.current.ty, Here(s), k, j), KeyAfter(s.currentKey, j))
    decreases j, 0
  {
    hide Open, Store, Run, Start;
    match j
    case JNull =>
      PutSame(s.root, s.current.at);
      RunOne(conv, s, Null);
    case JScalar(x) =>
      VectorIgnoresKey(conv, s.current.ty, Here(s), k, s.currentKey, x);
      RunOne(conv, s, Value(x));
    case JArray(items) =>
      VectorIgnoresKey(conv, s.current.ty, Here(s), k, s.currentKey, Int(0));
      RunBracketed(conv, s, true, ItemEvents(items));
      if Start(s, true).Ok? {
        var t := Start(s, true).value;
        Entered(s, true);
        RunItems(conv, t, items);
        Left(s, true, FillItems(conv, t.current.ty, Here(t), items), KeyAfter(s.currentKey, j));
      }
    case JObject(members) =>
      VectorIgnoresKey(conv, s.current.ty, Here(s), k, s.currentKey, Int(0));
      RunBracketed(conv, s, false, MemberEvents(members));
      if Start(s, false).Ok? {
        var t := Start(s, false).value;
        Entered(s, false);
        RunMembers(conv, t, members);
        Left(s, false, FillMembers(conv, t.current.ty, Here(t), members), KeyAfter(s.currentKey, j));
      }
  }

  lemma RunOne(conv: Conversion, s: State, e: Event)
    ensures Run(conv, s, [e]) == Step(conv, s, e)
  {
  }

  function Ended(r: Result<State>): Result<State> {
    match r
    case Throw(e) => Throw(e)
    case Ok(u) => Ok(End(u))
  }

  /** Running a bracketed list of events is entering, running the list, and leaving. */
  lemma RunBracketed(conv: Conversion, s: State, isArray: bool, inner: seq<Event>)
    ensures var opening, closing := if isArray then StartArray else StartObject,
        if isArray then EndArray else EndObject;
      Run(conv, s, [opening] + inner + [closing])
      == if Start(s, isArray).Throw? then Start(s, isArray)
         else Ended(Run(conv, Start(s, isArray).value, inner))
    ensures s.currentKey != "" ==>
      Start(s, isArray).Ok? == Open(s.current.ty, Here(s), s.currentKey, isArray).Ok?
    ensures s.currentKey != "" && Start(s, isArray).Throw? ==>
      Start(s, isArray).error == Open(s.current.ty, Here(s), s.currentKey, isArray).error
  {
    var opening, closing := if isArray then StartArray else StartObject, if isArray then EndArray else EndObject;
    RunAppend(conv, s, [opening] + inner, [closing]);
    RunAppend(conv, s, [opening], inner);
  }

  /** Keys are nothing to a vector. */
  lemma VectorIgnoresKey(conv: Conversion, t: Type, v: Val, k: string, l: string, x: Scalar)
    ensures t.Vector? ==> Store(conv, t, v, k, x) == Store(conv, t, v, l, x)
    ensures t.Vector? ==> forall isArray :: Open(t, v, k, isArray) == Open(t, v, l, isArray)
  {
  }

  /** The child filler points at the child. */
  lemma Entered(s: State, isArray: bool)
    requires Points(s.root, s.current.at) && s.currentKey != "" && Start(s, isArray).Ok?
    ensures var o, t := Open(s.current.ty, Here(s), s.currentKey, isArray).value, Start(s, isArray).value;
      && Points(t.root, t.current.at) && Here(t) == Child(o.parent, o.sel)
      && t.current.ty == o.ty && t.stack == s.stack + [s.current] && t.currentKey == s.currentKey
      && (isArray ==> t.current.ty.Vector?)
  {
    var o := Open(s.current.ty, Here(s), s.currentKey, isArray).value;
    PutGet(s.root, s.current.at, o.parent);
    PathSnoc(Put(s.root, s.current.at, o.parent), s.current.at, o.sel, o.parent);
  }

  /** Leaving the child: what was written through the child pointer is the parent with that child. */
  lemma Left(s: State, isArray: bool, r: Result<Val>, key: string)
    requires Points(s.root, s.current.at) && s.currentKey != "" && Start(s, isArray).Ok?
    ensures var o, t := Open(s.current.ty, Here(s), s.currentKey, isArray).value, Start(s, isArray).value;
      Ended(Filled(t, r, key)) == Filled(s, Close(o, r), key)
  {
    if r.Ok? {
      var o := Open(s.current.ty, Here(s), s.currentKey, isArray).value;
      PutGet(s.root, s.current.at, o.parent);
      PathSnoc(Put(s.root, s.current.at, o.parent), s.current.at, o.sel, r.value);
      PutPut(s.root, s.current.at, o.parent, SetChild(o.parent, o.sel, r.value));
    }
  }

  function Fresh(t: Type, v: Val): State {
    State("", Filler(t, []), [], v)
  }

  /**
    For every schema, every initial data and every document whose root is an object and whose
    nested containers start under a non-empty key: the events fill exactly what the recursion
    fills, or throw what it throws, and current and stack end as they began.
   */
  lemma MachineIsRecursion(conv: Conversion, t: Type, v: Val, members: Members)
    requires TracksMembers(members)
    ensures Run(conv, Fresh(t, v), Events(JObject(members)))
      == (match FillMembers(conv, t, v, members)
          case Throw(e) => Throw(e)
          case Ok(w) => Ok(State(KeyAfterMembers("", members), Filler(t, []), [], w)))
  {
    var s := Fresh(t, v);
    RunAppend(conv, s, [StartObject] + MemberEvents(members), [EndObject]);
    RunAppend(conv, s, [StartObject], MemberEvents(members));
    RunMembers(conv, s, members);
  }

  /** In particular for all documents with non-empty keys. */
  lemma MachineIsRecursionForNonEmptyKeys(conv: Conversion, t: Type, members: Members)
    requires NonEmptyKeys(JObject(members))
    ensures Run(conv, Fresh(t, Default(t)), Events(JObject(members))).Ok?
      <==> FillMembers(conv, t, Default(t), members).Ok?
    ensures FillMembers(conv, t, Default(t), members).Ok? ==>
      Run(conv, Fresh(t, Default(t)), Events(JObject(members))).value.root
      == FillMembers(conv, t, Default(t), members).value
  {
    NonEmptyTracksMembers("", members);
    MachineIsRecursion(conv, t, Default(t), members);
  }

  /** With an empty key the machine takes the nested object for the root: {"": {"a": 1}} into a map of maps. */
  lemma EmptyKeyMisread(conv: Conversion, kind: nat)
    requires conv(kind, Int(1)) == Some(Int(1))
    ensures var t, members := Map(Map(Leaf(kind))), EmptyKeyMembers();
      && FillMembers(conv, t, MapVal(map[]), members)
         == Ok(MapVal(map["" := MapVal(map["a" := LeafVal(Int(1))])]))
      && Run(conv, Fresh(t, MapVal(map[])), Events(JObject(members))) == Throw(Unavailable)
  {
    var inner := Member("a", JScalar(Int(1)), NoMembers);
    var t, s := Map(Map(Leaf(kind))), Fresh(Map(Map(Leaf(kind))), MapVal(map[]));
    assert MemberEvents(inner) == [Key("a"), Value(Int(1))];
    assert Events(JObject(inner)) == [StartObject, Key("a"), Value(Int(1)), EndObject];
    var later := [Key("a"), Value(Int(1)), EndObject, EndObject];
    assert Events(JObject(EmptyKeyMembers())) == [StartObject, Key(""), StartObject] + later;
    RunAppend(conv, s, [StartObject, Key(""), StartObject], later);
    assert Run(conv, s, [StartObject, Key(""), StartObject]) == Ok(s);
    assert Run(conv, s, later) == Run(conv, s.(currentKey := "a"), later[1..]);
    assert Step(conv, s.(currentKey := "a"), Value(Int(1))) == Throw(Unavailable);
    assert FillMembers(conv, Map(Leaf(kind)), MapVal(map[]), inner) == Ok(MapVal(map["a" := LeafVal(Int(1))]));
    var o := Opened(Map(Leaf(kind)), EntryOf(""), MapVal(map["" := MapVal(map[])]));
    assert Open(t, MapVal(map[]), "", false) == Ok(o) && Child(o.parent, o.sel) == MapVal(map[]);
    assert FillChild(conv, t, MapVal(map[]), "", JObject(inner))
      == Close(o, Ok(MapVal(map["a" := LeafVal(Int(1))])));
    var filled := MapVal(map["a" := LeafVal(Int(1))]);
    assert o.parent.entries["" := filled] == map["" := filled];
    assert FillMembers(conv, t, MapVal(map["" := filled]), NoMembers) == Ok(MapVal(map["" := filled]));
  }

  function EmptyKeyMembers(): Members {
    Member("", JObject(Member("a", JScalar(Int(1)), NoMembers)), NoMembers)
  }

  // ---- Empty keys in maps of containers ----

  /** A container under an empty key in the object of a map, or of a map in that map, and so on. */
  predicate EmptyKeyIn(t: Type, members: Members)
    decreases members, 1
  {
    t.Map? && members.Member? && (EmptyKeyAt(t.elem, members.key, members.value) || EmptyKeyIn(t, members.rest))
  }

  predicate EmptyKeyAt(elem: Type, k: string, j: Json)
    decreases j, 0
  {
    match j
    case JArray(_) => k == ""
    case JObject(members) => k == "" || EmptyKeyIn(elem, members)
    case _ => false
  }

  /** No map of containers, at the root or in a map all the way, has an entry for the empty key. */
  predicate NoEmptyEntry(t: Type, v: Val) {
    t.Map? && !t.elem.Leaf? && v.MapVal? ==>
      "" !in v.entries && forall k :: k in v.entries ==> NoEmptyEntry(t.elem, v.entries[k])
  }

  /** A pointer to data of type `ty` that passes through maps of containers by non-empty keys. */
  predicate Follows(t: Type, p: Path, ty: Type)
    decreases |p|
  {
    if p == [] then ty == t
    else t.Map? ==> !t.elem.Leaf? && p[0].EntryOf? && p[0].key != "" && Follows(t.elem, p[1..], ty)
  }

  ghost predicate NeverEmpty(s: State, t: Type) {
    && NoEmptyEntry(t, s.root) && Follows(t, s.current.at, s.current.ty)
    && forall i :: 0 <= i < |s.stack| ==> Follows(t, s.stack[i].at, s.stack[i].ty)
  }

  /** Writing through such a pointer adds no such entry, if it adds none to what is there. */
  lemma {:induction false} PutKeepsOut(t: Type, root: Val, p: Path, ty: Type, v: Val)
    requires NoEmptyEntry(t, root) && Follows(t, p, ty)
    requires NoEmptyEntry(ty, Get(root, p)) ==> NoEmptyEntry(ty, v)
    ensures NoEmptyEntry(t, Put(root, p, v))
    decreases |p|
  {
    if p != [] && t.Map? {
      PutKeepsOut(t.elem, Child(root, p[0]), p[1..], ty, v);
    }
  }

  lemma {:induction false} FollowsOn(t: Type, p: Path, ty: Type, s: Sel, elem: Type)
    requires Follows(t, p, ty) && Follows(ty, [s], elem)
    ensures Follows(t, p + [s], elem)
    decreases |p|
  {
    if p == [] {
      assert p + [s] == [s];
    } else if t.Map? {
      assert (p + [s])[1..] == p[1..] + [s];
      FollowsOn(t.elem, p[1..], ty, s, elem);
    }
  }

  lemma OpenKeepsOut(t: Type, v: Val, k: string, isArray: bool)
    requires k != "" && Open(t, v, k, isArray).Ok?
    ensures var o := Open(t, v, k, isArray).value;
      (NoEmptyEntry(t, v) ==> NoEmptyEntry(t, o.parent)) && Follows(t, [o.sel], o.ty)
  {
  }

  lemma StoreKeepsOut(conv: Conversion, t: Type, v: Val, k: string, x: Scalar)
    requires Store(conv, t, v, k, x).Ok?
    ensures NoEmptyEntry(t, Store(conv, t, v, k, x).value)
  {
  }

  lemma StepNeverEmpty(conv: Conversion, s: State, e: Event, t: Type)
    requires NeverEmpty(s, t) && Step(conv, s, e).Ok?
    ensures NeverEmpty(Step(conv, s, e).value, t)
  {
    hide NoEmptyEntry, Follows, Open, Store, Put, Get;
    match e
    case StartObject => StartNeverEmpty(s, false, t);
    case StartArray => StartNeverEmpty(s, true, t);
    case Value(x) =>
      StoreKeepsOut(conv, s.current.ty, Here(s), s.currentKey, x);
      PutKeepsOut(t, s.root, s.current.at, s.current.ty,
                  Store(conv, s.current.ty, Here(s), s.currentKey, x).value);
    case _ =>
  }

  lemma StartNeverEmpty(s: State, isArray: bool, t: Type)
    requires NeverEmpty(s, t) && Start(s, isArray).Ok?
    ensures NeverEmpty(Start(s, isArray).value, t)
  {
    hide NoEmptyEntry, Follows, Open, Put, Get;
    if s.currentKey != "" {
      OpenKeepsOut(s.current.ty, Here(s), s.currentKey, isArray);
      var o := Open(s.current.ty, Here(s), s.currentKey, isArray).value;
      PutKeepsOut(t, s.root, s.current.at, s.current.ty, o.parent);
      FollowsOn(t, s.current.at, s.current.ty, o.sel, o.ty);
    }
  }

  lemma {:induction false} RunNeverEmpty(conv: Conversion, s: State, events: seq<Event>, t: Type)
    requires NeverEmpty(s, t)
    ensures Run(conv, s, events).Ok? ==> NeverEmpty(Run(conv, s, events).value, t)
    decreases |events|
  {
    if events != [] && Step(conv, s, events[0]).Ok? {
      StepNeverEmpty(conv, s, events[0], t);
      hide NeverEmpty, Step;
      RunNeverEmpty(conv, Step(conv, s, events[0]).value, events[1..], t);
    }
  }

  /** The recursion makes an entry for a container under an empty key, and keeps the one there is. */
  lemma {:induction false} MembersMakeEntry(conv: Conversion, t: Type, v: Val, members: Members)
    requires FillMembers(conv, t, v, members).Ok? && (!NoEmptyEntry(t, v) || EmptyKeyIn(t, members))
    ensures !NoEmptyEntry(t, FillMembers(conv, t, v, members).value)
    decreases members, 1
  {
    if members.Member? {
      var r := FillChild(conv, t, v, members.key, members.value);
      if !NoEmptyEntry(t, v) || EmptyKeyAt(t.elem, members.key, members.value) {
        ChildMakesEntry(conv, t, v, members.key, members.value);
      }
      MembersMakeEntry(conv, t, r.value, members.rest);
    }
  }

  /** Writing w under key k: the map has an empty entry if k is empty, or w has one, or it is elsewhere. */
  lemma EntryShows(t: Type, entries: map<string, Val>, k: string, w: Val)
    requires t.Map? && !t.elem.Leaf?
    requires k == "" || !NoEmptyEntry(t.elem, w)
      || (!NoEmptyEntry(t, MapVal(entries)) && (k in entries ==> NoEmptyEntry(t.elem, entries[k])))
    ensures !NoEmptyEntry(t, MapVal(entries[k := w]))
  {
    var m := entries[k := w];
    if k != "" && NoEmptyEntry(t.elem, w) && "" !in entries {
      var x :| x in entries && !NoEmptyEntry(t.elem, entries[x]);
      assert m[x] == entries[x];
    } else if "" !in m {
      assert m[k] == w;
    }
  }

  lemma {:induction false} ChildMakesEntry(conv: Conversion, t: Type, v: Val, k: string, j: Json)
    requires FillChild(conv, t, v, k, j).Ok? && t.Map? && (!NoEmptyEntry(t, v) || EmptyKeyAt(t.elem, k, j))
    ensures !NoEmptyEntry(t, FillChild(conv, t, v, k, j).value)
    decreases j, 0
  {
    if j.JArray? || j.JObject? {
      var entries := if v.MapVal? then v.entries else map[];
      var child := if k in entries then entries[k] else Default(t.elem);
      var o := Open(t, v, k, j.JArray?).value;
      var w := FillChild(conv, t, v, k, j).value.entries[k];
      assert FillChild(conv, t, v, k, j).value == MapVal(o.parent.entries[k := w]);
      assert o.parent.entries[k := w] == entries[k := w];
      if j.JObject? && (!NoEmptyEntry(t.elem, child) || EmptyKeyIn(t.elem, j.members)) {
        MembersMakeEntry(conv, t.elem, child, j.members);
      }
      EntryShows(t, entries, k, w);
    }
  }

  /**
    A document with a container under an empty key in a map, at any depth of maps, is always
    misread: whatever else is in it, where the recursion succeeds it has that entry, and the
    machine throws or ends without it.
   */
  lemma EmptyKeyAlwaysMisread(conv: Conversion, t: Type, v: Val, members: Members)
    requires NoEmptyEntry(t, v) && EmptyKeyIn(t, members) && FillMembers(conv, t, v, members).Ok?
    ensures var w, r := FillMembers(conv, t, v, members).value, Run(conv, Fresh(t, v), Events(JObject(members)));
      !NoEmptyEntry(t, w) && (r.Ok? ==> NoEmptyEntry(t, r.value.root) && r.value.root != w)
  {
    MembersMakeEntry(conv, t, v, members);
    RunNeverEmpty(conv, Fresh(t, v), Events(JObject(members)), t);
    hide Run, FillMembers, NoEmptyEntry, EmptyKeyIn;
  }

  /** Maps of maps, down to maps of leaves. */
  predicate MapsOnly(t: Type) {
    t.Map? && (t.elem.Leaf? || MapsOnly(t.elem))
  }

  /** For these the containers that start while the key is empty are those under an empty key. */
  lemma {:induction false} TracksInMaps(conv: Conversion, t: Type, v: Val, members: Members)
    requires MapsOnly(t) && FillMembers(conv, t, v, members).Ok?
    ensures TracksMembers(members) <==> !EmptyKeyIn(t, members)
    decreases members
  {
    if members.Member? {
      var r := FillChild(conv, t, v, members.key, members.value);
      TracksInMaps(conv, t, r.value, members.rest);
      if members.value.JObject? {
        var o := Open(t, v, members.key, false).value;
        TracksInMaps(conv, o.ty, Child(o.parent, o.sel), members.value.members);
      }
    }
  }

  /**
    Exactly when maps are filled right: a document that the recursion accepts for a schema of
    maps is read by the machine as by the recursion if and only if it has no object under an
    empty key, at any depth.
   */
  lemma MapsFilledIff(conv: Conversion, t: Type, v: Val, members: Members)
    requires MapsOnly(t) && NoEmptyEntry(t, v) && FillMembers(conv, t, v, members).Ok?
    ensures var r := Run(conv, Fresh(t, v), Events(JObject(members)));
      (r.Ok? && r.value.root == FillMembers(conv, t, v, members).value) <==> !EmptyKeyIn(t, members)
  {
    TracksInMaps(conv, t, v, members);
    hide Run, FillMembers, NoEmptyEntry, TracksMembers;
    if EmptyKeyIn(t, members) {
      EmptyKeyAlwaysMisread(conv, t, v, members);
    } else {
      MachineIsRecursion(conv, t, v, members);
    }
  }

  // ---- Pointers stay valid ----

  /** The live fillers, outermost first. */
  function Live(s: State): seq<Filler> {
    s.stack + [s.current]
  }

  /** Each live filler points at something, inside what the one before it points at. */
  ghost predicate Nested(s: State) {
    && (forall i :: 0 <= i < |Live(s)| ==> Points(s.root, Live(s)[i].at))
    && (forall i, k :: 0 <= i < k < |Live(s)| ==> Live(s)[i].at < Live(s)[k].at)
  }

  lemma {:induction false} PointsPrefix(root: Val, p: Path, q: Path)
    requires Points(root, q) && p <= q
    ensures Points(root, p)
    decreases |p|
  {
    if p != [] {
      PointsPrefix(Child(root, p[0]), p[1..], q[1..]);
    }
  }

  /** All that is written in a step is at the current filler, so a valid pointer there keeps the outer ones valid. */
  lemma StillNested(s: State, t: State)
    requires Points(t.root, t.current.at)
    requires forall i, k :: 0 <= i < k < |Live(t)| ==> Live(t)[i].at < Live(t)[k].at
    ensures Nested(t)
  {
    assert Live(t)[|t.stack|] == t.current;
    forall i | 0 <= i < |Live(t)| ensures Points(t.root, Live(t)[i].at) {
      PointsPrefix(t.root, Live(t)[i].at, t.current.at);
    }
  }

  /**
    For any event whatever, nested as the grammar asks or not: no live filler is left dangling.
    A vector grows only at the current filler, and no live filler points inside it then.
   */
  lemma PointersStayValid(conv: Conversion, s: State, e: Event)
    requires Nested(s) && Step(conv, s, e).Ok?
    ensures Nested(Step(conv, s, e).value)
    ensures forall i :: 0 <= i < |s.stack| ==> s.stack[i].at < s.current.at
  {
    var t := Step(conv, s, e).value;
    assert Live(s)[|s.stack|] == s.current;
    forall i | 0 <= i < |s.stack| ensures s.stack[i].at < s.current.at {
      assert Live(s)[i] == s.stack[i];
    }
    match e
    case StartObject =>
      if s.currentKey != "" {
        Entered(s, false);
        Pushed(s, false);
      }
    case StartArray =>
      if s.currentKey != "" {
        Entered(s, true);
        Pushed(s, true);
      }
    case Value(x) =>
      PutGet(s.root, s.current.at, Store(conv, s.current.ty, Here(s), s.currentKey, x).value);
      assert Live(t) == Live(s);
      StillNested(s, t);
    case EndObject => Popped(s);
    case EndArray => Popped(s);
    case _ =>
  }

  lemma Pushed(s: State, isArray: bool)
    requires Nested(s) && s.currentKey != "" && Start(s, isArray).Ok?
    requires Points(Start(s, isArray).value.root, Start(s, isArray).value.current.at)
    ensures Nested(Start(s, isArray).value)
  {
    var t := Start(s, isArray).value;
    forall i, k | 0 <= i < k < |Live(t)| ensures Live(t)[i].at < Live(t)[k].at {
      assert Live(t)[i] == Live(s)[i];
      if k < |Live(s)| {
        assert Live(t)[k] == Live(s)[k];
      } else {
        assert Live(s)[|s.stack|] == s.current;
        assert Live(t)[i].at <= s.current.at < Live(t)[k].at;
      }
    }
    StillNested(s, t);
  }

  lemma Popped(s: State)
    requires Nested(s)
    ensures Nested(End(s))
  {
    if s.stack != [] {
      assert Live(End(s)) == s.stack;
      assert forall i :: 0 <= i < |s.stack| ==> Live(s)[i] == s.stack[i];
    }
  }

  // ---- Where a member goes ----

  /** What a value of type t that held v becomes of a JSON value of its own. */
  function Filling(conv: Conversion, t: Type, v: Val, j: Json): Result<Val> {
    match j
    case JNull => Ok(v)
    case JScalar(x) =>
      if !t.Leaf? then Throw(Unavailable)
      else if conv(t.kind, x).None? then Throw(BadConversion)
      else Ok(LeafVal(conv(t.kind, x).value))
    case JArray(items) => if t.Vector? then FillItems(conv, t, v, items) else Throw(NotForArray)
    case JObject(members) => if t.Struct? || t.Map? then FillMembers(conv, t, v, members) else Throw(NotForObject)
  }

  function Wrapped(r: Result<Val>, whole: Val -> Val): Result<Val> {
    match r
    case Throw(e) => Throw(e)
    case Ok(w) => Ok(whole(w))
  }

  lemma SetTwice(m: map<string, Val>, k: string, d: Val, r: Result<Val>)
    ensures r.Ok? ==> m[k := d][k := r.value] == m[k := r.value]
  {
  }

  /** A member of a struct changes the field of its key, from what it held, and no other. */
  lemma StructMember(conv: Conversion, fields: Fields, m: map<string, Val>, k: string, j: Json)
    requires !j.JNull?
    ensures FillChild(conv, Struct(fields), StructVal(m), k, j) ==
      if Find(fields, k).None? then Throw(InvalidKey(k))
      else
        var ty := Find(fields, k).value;
        Wrapped(Filling(conv, ty, if k in m then m[k] else Default(ty), j), w => StructVal(m[k := w]))
  {
    if Find(fields, k).Some? {
      var ty := Find(fields, k).value;
      SetTwice(m, k, Default(ty), Filling(conv, ty, if k in m then m[k] else Default(ty), j));
    }
  }

  /** A member of a map makes or changes the entry of its key; a scalar leaves an entry that is there. */
  lemma MapMember(conv: Conversion, elem: Type, m: map<string, Val>, k: string, j: Json)
    requires !j.JNull?
    ensures FillChild(conv, Map(elem), MapVal(m), k, j) ==
      Wrapped(Filling(conv, elem, if k in m then m[k] else Default(elem), j),
              w => if j.JScalar? && k in m then MapVal(m) else MapVal(m[k := w]))
  {
    SetTwice(m, k, Default(elem), Filling(conv, elem, if k in m then m[k] else Default(elem), j));
  }

  /** An item of a vector appends one element, made from the default of its type. */
  lemma VectorItem(conv: Conversion, elem: Type, e: seq<Val>, k: string, j: Json)
    requires !j.JNull?
    ensures FillChild(conv, Vector(elem), VectorVal(e), k, j) ==
      Wrapped(Filling(conv, elem, Default(elem), j), w => VectorVal(e + [w]))
  {
    var d, r := Default(elem), Filling(conv, elem, Default(elem), j);
    assert r.Ok? ==> (e + [d])[|e| := r.value] == e + [r.value];
  }

  /** What the members with key k make, one after another, of a field of type t that held v. */
  function FillField(conv: Conversion, t: Type, v: Val, members: Members, k: string): Result<Val>
    decreases members
  {
    match members
    case NoMembers => Ok(v)
    case Member(key, j, rest) =>
      if key != k then FillField(conv, t, v, rest, k)
      else match Filling(conv, t, v, j)
        case Throw(e) => Throw(e)
        case Ok(w) => FillField(conv, t, w, rest, k)
  }

  /** A filled struct, field by field: each is what the members with its key make of it, in their order. */
  lemma {:induction false} StructByField(conv: Conversion, fields: Fields, m: map<string, Val>,
      members: Members, k: string)
    requires k in m && FillMembers(conv, Struct(fields), StructVal(m), members).Ok?
    ensures var r := FillMembers(conv, Struct(fields), StructVal(m), members).value;
      && r.StructVal? && k in r.fields
      && (Find(fields, k).None? ==> r.fields[k] == m[k])
      && (Find(fields, k).Some? ==> Ok(r.fields[k]) == FillField(conv, Find(fields, k).value, m[k], members, k))
    decreases members
  {
    hide FillChild, Filling;
    if members.Member? {
      var r := FillChild(conv, Struct(fields), StructVal(m), members.key, members.value);
      StructStep(conv, fields, m, members.key, members.value, k);
      StructByField(conv, fields, r.value.fields, members.rest, k);
    }
  }

  lemma StructStep(conv: Conversion, fields: Fields, m: map<string, Val>, key: string, j: Json, k: string)
    requires k in m && FillChild(conv, Struct(fields), StructVal(m), key, j).Ok?
    ensures var r := FillChild(conv, Struct(fields), StructVal(m), key, j).value;
      && r.StructVal? && k in r.fields
      && (key != k || Find(fields, k).None? ==> r.fields[k] == m[k])
      && (key == k && Find(fields, k).Some? ==> Ok(r.fields[k]) == Filling(conv, Find(fields, k).value, m[k], j))
  {
    if j.JNull? {
      assert FillChild(conv, Struct(fields), StructVal(m), key, j) == Ok(StructVal(m));
    } else {
      StructMember(conv, fields, m, key, j);
    }
    hide FillChild;
  }

  /** The elements that the items make, each from the default; null makes none. */
  function FillElements(conv: Conversion, elem: Type, items: Items): Result<seq<Val>> {
    match items
    case NoItems => Ok([])
    case Item(j, rest) =>
      if j.JNull? then FillElements(conv, elem, rest)
      else match Filling(conv, elem, Default(elem), j)
        case Throw(e) => Throw(e)
        case Ok(w) => match FillElements(conv, elem, rest)
          case Throw(e) => Throw(e)
          case Ok(ws) => Ok([w] + ws)
  }

  /** A filled vector: its elements, and then one for each item, in order. */
  lemma {:induction false} VectorByItem(conv: Conversion, elem: Type, e: seq<Val>, items: Items)
    ensures FillItems(conv, Vector(elem), VectorVal(e), items) ==
      match FillElements(conv, elem, items)
      case Throw(x) => Throw(x)
      case Ok(ws) => Ok(VectorVal(e + ws))
    decreases items
  {
    hide FillChild, Filling;
    match items
    case NoItems => assert e + [] == e;
    case Item(j, rest) =>
      if j.JNull? {
        NullChild(conv, Vector(elem), VectorVal(e));
        VectorByItem(conv, elem, e, rest);
      } else {
        VectorItem(conv, elem, e, "", j);
        var r := Filling(conv, elem, Default(elem), j);
        if r.Ok? {
          VectorByItem(conv, elem, e + [r.value], rest);
          var later := FillElements(conv, elem, rest);
          assert later.Ok? ==> e + [r.value] + later.value == e + ([r.value] + later.value);
        }
      }
  }

  lemma NullChild(conv: Conversion, t: Type, v: Val)
    ensures FillChild(conv, t, v, "", JNull) == Ok(v)
  {
  }

  function Names(fields: Fields): seq<string> {
    if fields.NoFields? then [] else [fields.name] + Names(fields.rest)
  }

  function Types(fields: Fields): (ts: seq<Type>)
    ensures |ts| == |Names(fields)|
  {
    if fields.NoFields? then [] else [fields.ty] + Types(fields.rest)
  }

  /** A field is found by its name: position i is the first one with it. */
  lemma {:induction false} FieldsByName(fields: Fields, k: string) returns (i: nat)
    ensures Find(fields, k).Some? <==> k in Names(fields)
    ensures Find(fields, k).Some? ==>
      && i < |Names(fields)| && Names(fields)[i] == k && k !in Names(fields)[..i]
      && Find(fields, k).value == Types(fields)[i]
  {
    i := 0;
    if fields.Field? && fields.name != k {
      var n := FieldsByName(fields.rest, k);
      i := n + 1;
      if Find(fields, k).Some? {
        assert Names(fields)[..i] == [fields.name] + Names(fields.rest)[..n];
      }
    }
  }

  lemma {:induction false} DefaultsByName(fields: Fields, k: string)
    ensures k in DefaultFields(fields) <==> k in Names(fields)
    ensures k in DefaultFields(fields) <==> Find(fields, k).Some?
    ensures k in DefaultFields(fields) ==> DefaultFields(fields)[k] == Default(Find(fields, k).value)
  {
    if fields.Field? {
      DefaultsByName(fields.rest, k);
    }
  }

  /** The defaults: empty vectors and maps, and structs field by field. */
  lemma Defaults(fields: Fields, elem: Type)
    ensures Default(Vector(elem)) == VectorVal([]) && Default(Map(elem)) == MapVal(map[])
    ensures var d := Default(Struct(fields));
      d.StructVal? && d.fields.Keys == (set k | k in Names(fields))
      && forall k :: k in d.fields ==> Find(fields, k).Some? && d.fields[k] == Default(Find(fields, k).value)
  {
    forall k ensures k in DefaultFields(fields) <==> k in Names(fields) {
      DefaultsByName(fields, k);
    }
    forall k | k in DefaultFields(fields)
        ensures Find(fields, k).Some? && DefaultFields(fields)[k] == Default(Find(fields, k).value) {
      DefaultsByName(fields, k);
    }
  }

  // ---- Which documents a schema accepts ----

  /** The type the schema has for key k of type t. */
  function TypeAt(t: Type, k: string): Option<Type> {
    match t
    case Leaf(_) => None
    case Struct(fields) => Find(fields, k)
    case Vector(elem) => Some(elem)
    case Map(elem) => Some(elem)
  }

  predicate Matches(conv: Conversion, t: Type, k: string, j: Json)
    decreases j, 0
  {
    j.JNull? ||
    (TypeAt(t, k).Some? &&
     var c := TypeAt(t, k).value;
     match j
     case JScalar(x) => c.Leaf? && conv(c.kind, x).Some?
     case JArray(items) => c.Vector? && ItemsMatch(conv, c, items)
     case JObject(members) => (c.Struct? || c.Map?) && MembersMatch(conv, c, members))
  }

  predicate ItemsMatch(conv: Conversion, t: Type, items: Items)
    decreases items, 1
  {
    items.Item? ==> Matches(conv, t, "", items.head) && ItemsMatch(conv, t, items.tail)
  }

  predicate MembersMatch(conv: Conversion, t: Type, members: Members)
    decreases members, 1
  {
    members.Member? ==> Matches(conv, t, members.key, members.value) && MembersMatch(conv, t, members.rest)
  }

  /** Filling throws exactly when the document does not match the schema, whatever the data held before. */
  lemma {:induction false} FillsIffMatches(conv: Conversion, t: Type, v: Val, members: Members)
    ensures FillMembers(conv, t, v, members).Ok? <==> MembersMatch(conv, t, members)
    decreases members, 1
  {
    if members.Member? {
      ChildIffMatches(conv, t, v, members.key, members.value);
      var r := FillChild(conv, t, v, members.key, members.value);
      if r.Ok? {
        FillsIffMatches(conv, t, r.value, members.rest);
      }
    }
  }

  lemma {:induction false} ItemsIffMatch(conv: Conversion, t: Type, v: Val, items: Items)
    ensures FillItems(conv, t, v, items).Ok? <==> ItemsMatch(conv, t, items)
    decreases items, 1
  {
    if items.Item? {
      ChildIffMatches(conv, t, v, "", items.head);
      var r := FillChild(conv, t, v, "", items.head);
      if r.Ok? {
        ItemsIffMatch(conv, t, r.value, items.tail);
      }
    }
  }

  lemma {:induction false} ChildIffMatches(conv: Conversion, t: Type, v: Val, k: string, j: Json)
    ensures FillChild(conv, t, v, k, j).Ok? <==> Matches(conv, t, k, j)
    decreases j, 0
  {
    match j
    case JArray(items) =>
      var r := Open(t, v, k, true);
      if r.Ok? {
        ItemsIffMatch(conv, r.value.ty, Child(r.value.parent, r.value.sel), items);
      }
    case JObject(members) =>
      var r := Open(t, v, k, false);
      if r.Ok? {
        FillsIffMatches(conv, r.value.ty, Child(r.value.parent, r.value.sel), members);
      }
    case _ =>
  }

  // ---- Duplicate keys ----

  predicate ScalarItems(items: Items) {
    items.Item? ==> items.head.JScalar? && ScalarItems(items.tail)
  }

  function Scalars(items: Items): seq<Scalar>
    requires ScalarItems(items)
  {
    if items.NoItems? then [] else [items.head.x] + Scalars(items.tail)
  }

  /** A vector of leaves collects the conversions of the items, in order, after what it held. */
  lemma {:induction false} VectorCollects(conv: Conversion, kind: nat, elems: seq<Val>, items: Items)
    requires ScalarItems(items)
    ensures var r, xs := FillItems(conv, Vector(Leaf(kind)), VectorVal(elems), items), Scalars(items);
      && (r.Ok? <==> forall i :: 0 <= i < |xs| ==> conv(kind, xs[i]).Some?)
      && (r.Ok? ==>
            && r.value.VectorVal? && |r.value.elems| == |elems| + |xs| && elems <= r.value.elems
            && forall i :: 0 <= i < |xs| ==> r.value.elems[|elems| + i] == LeafVal(conv(kind, xs[i]).value))
    decreases items
  {
    if items.Item? {
      var y, xs := conv(kind, items.head.x), Scalars(items);
      assert xs[0] == items.head.x && xs[1..] == Scalars(items.tail);
      assert forall i :: 0 < i < |xs| ==> xs[i] == xs[1..][i - 1];
      if y.Some? {
        var longer := elems + [LeafVal(y.value)];
        VectorCollects(conv, kind, longer, items.tail);
        var r := FillItems(conv, Vector(Leaf(kind)), VectorVal(longer), items.tail);
        assert r == FillItems(conv, Vector(Leaf(kind)), VectorVal(elems), items);
        if r.Ok? {
          forall i | 0 <= i < |xs| ensures r.value.elems[|elems| + i] == LeafVal(conv(kind, xs[i]).value) {
            if i == 0 {
              assert r.value.elems[|elems|] == longer[|elems|];
            } else {
              assert r.value.elems[|longer| + (i - 1)] == LeafVal(conv(kind, xs[1..][i - 1]).value);
            }
          }
        } else {
          var i :| 0 <= i < |xs[1..]| && conv(kind, xs[1..][i]).None?;
          assert conv(kind, xs[i + 1]).None?;
        }
      }
    }
  }

  /** A vector that appears twice is appended to, never reset. */
  lemma {:induction false} VectorsOnlyGrow(conv: Conversion, elem: Type, elems: seq<Val>, items: Items)
    ensures var r := FillItems(conv, Vector(elem), VectorVal(elems), items);
      r.Ok? ==> r.value.VectorVal? && elems <= r.value.elems
    decreases items
  {
    if items.Item? {
      var r := FillChild(conv, Vector(elem), VectorVal(elems), "", items.head);
      if r.Ok? {
        assert r.value.VectorVal? && elems <= r.value.elems;
        VectorsOnlyGrow(conv, elem, r.value.elems, items.tail);
      }
    }
  }

  predicate OnlyScalars(members: Members) {
    members.NoMembers? || (members.value.JScalar? && OnlyScalars(members.rest))
  }

  /** The first value given to key k, or none. */
  function FirstOf(members: Members, k: string): Option<Scalar>
    requires OnlyScalars(members)
  {
    match members
    case NoMembers => None
    case Member(key, j, rest) => if key == k then Some(j.x) else FirstOf(rest, k)
  }

  /** The last value given to key k, or none. */
  function LastOf(members: Members, k: string): Option<Scalar>
    requires OnlyScalars(members)
  {
    match members
    case NoMembers => None
    case Member(key, j, rest) =>
      var later := LastOf(rest, k);
      if later.Some? then later else if key == k then Some(j.x) else None
  }

  /** In a map of leaves the entries already there stay, and of repeated keys the first wins. */
  lemma {:induction false} MapKeepsFirst(conv: Conversion, kind: nat, entries: map<string, Val>,
      members: Members, k: string)
    requires OnlyScalars(members)
    ensures var r := FillMembers(conv, Map(Leaf(kind)), MapVal(entries), members);
      r.Ok? ==>
        && r.value.MapVal?
        && (k in r.value.entries <==> k in entries || FirstOf(members, k).Some?)
        && (k in entries ==> r.value.entries[k] == entries[k])
        && (k !in entries && FirstOf(members, k).Some? ==>
              conv(kind, FirstOf(members, k).value).Some?
              && r.value.entries[k] == LeafVal(conv(kind, FirstOf(members, k).value).value))
    decreases members
  {
    if members.Member? {
      var r := FillChild(conv, Map(Leaf(kind)), MapVal(entries), members.key, members.value);
      if r.Ok? {
        MapKeepsFirst(conv, kind, r.value.entries, members.rest, k);
      }
    }
  }

  /** In a struct of leaves the last of repeated keys wins, and other fields are untouched. */
  lemma {:induction false} StructKeepsLast(conv: Conversion, fields: Fields, m: map<string, Val>,
      members: Members, k: string)
    requires OnlyScalars(members) && k in m
    ensures var r := FillMembers(conv, Struct(fields), StructVal(m), members);
      r.Ok? ==>
        && r.value.StructVal? && k in r.value.fields
        && (match LastOf(members, k)
            case None => r.value.fields[k] == m[k]
            case Some(x) =>
              && Find(fields, k).Some? && Find(fields, k).value.Leaf?
              && conv(Find(fields, k).value.kind, x).Some?
              && r.value.fields[k] == LeafVal(conv(Find(fields, k).value.kind, x).value))
    decreases members
  {
    if members.Member? {
      var r := FillChild(conv, Struct(fields), StructVal(m), members.key, members.value);
      if r.Ok? {
        StructKeepsLast(conv, fields, r.value.fields, members.rest, k);
      }
    }
  }

  /** The parser object. Each event method makes the step; an exception leaves the object as it was here. */
  class Parser {
    var currentKey: string
    var current: Filler
    var stack: seq<Filler>
    var root: Val
    const conv: Conversion

    ghost function Abs(): State
      reads this
    {
      State(currentKey, current, stack, root)
    }

    constructor (conv: Conversion, t: Type, data: Val)
      ensures Abs() == Fresh(t, data) && this.conv == conv
    {
      currentKey, current, stack, root := "", Filler(t, []), [], data;
      this.conv := conv;
    }

    method Enter(isArray: bool) returns (threw: Option<Error>)
      modifies this
      ensures match Start(old(Abs()), isArray)
              case Throw(e) => threw == Some(e) && unchanged(this)
              case Ok(t) => threw == None && Abs() == t
    {
      if currentKey == "" {
        return None;
      }
      var res := Open(current.ty, Get(root, current.at), currentKey, isArray);
      if res.Throw? {
        return Some(res.error);
      }
      root := Put(root, current.at, res.value.parent);
      stack := stack + [current];
      current := Filler(res.value.ty, current.at + [res.value.sel]);
      return None;
    }

    method OnStartObject() returns (threw: Option<Error>)
      modifies this
      ensures match Step(conv, old(Abs()), StartObject)
              case Throw(e) => threw == Some(e) && unchanged(this)
              case Ok(t) => threw == None && Abs() == t
    {
      threw := Enter(false);
    }

    method OnStartArray() returns (threw: Option<Error>)
      modifies this
      ensures match Step(conv, old(Abs()), StartArray)
              case Throw(e) => threw == Some(e) && unchanged(this)
              case Ok(t) => threw == None && Abs() == t
    {
      threw := Enter(true);
    }

    method OnEnd()
      modifies this
      ensures Ok(Abs()) == Step(conv, old(Abs()), EndObject) == Step(conv, old(Abs()), EndArray)
    {
      if stack != [] {
        current := stack[|stack| - 1];
        stack := stack[..|stack| - 1];
      }
    }

    method OnKey(k: string)
      modifies this`currentKey
      ensures Ok(Abs()) == Step(conv, old(Abs()), Key(k))
    {
      currentKey := k;
    }

    method OnValue(x: Scalar) returns (threw: Option<Error>)
      modifies this`root
      ensures match Step(conv, old(Abs()), Value(x))
              case Throw(e) => threw == Some(e) && unchanged(this)
              case Ok(t) => threw == None && Abs() == t
    {
      var res := Store(conv, current.ty, Get(root, current.at), currentKey, x);
      if res.Throw? {
        return Some(res.error);
      }
      root := Put(root, current.at, res.value);
      return None;
    }
  }
}

/** `ClientRegistry`: three lookup tables over the client records of the
    central API (by slug, by id and by lower-cased name) and the resolution
    of an identifier to a canonical client name. The HTTP fetch is a
    parameter: the decoded response body, or the exception it raised. */
module ClientRegistry {
  import opened Wrappers
  import opened OrderedMap
  import opened JsonValue
  import Text

  /** The three tables. Slug keys are whatever hashable value the record
      holds; id keys are `str(id)`; name keys are lower-cased names. */
  datatype Indexes = Indexes(bySlug: Dict<Value, Value>, byId: Dict<string, Value>, byName: Dict<string, Value>)

  /** The tables after a step, and the exception that stopped it if any. */
  datatype Outcome = Outcome(ix: Indexes, failure: Option<PyExc>)

  ghost predicate Unique(ix: Indexes) {
    UniqueKeys(ix.bySlug) && UniqueKeys(ix.byId) && UniqueKeys(ix.byName)
  }

  /** `if 'slug' in c: by_slug[c['slug']] = c` */
  function IndexSlug(ix: Indexes, c: Value): Outcome {
    match In("slug", c)
    case Err(e) => Outcome(ix, Some(e))
    case Ok(present) =>
      if !present then Outcome(ix, None)
      else
        match GetItem(c, "slug")
        case Err(e) => Outcome(ix, Some(e))
        case Ok(slug) =>
          if !Hashable(slug) then Outcome(ix, Some(TypeError))
          else Outcome(ix.(bySlug := Put(ix.bySlug, KeyOf(slug), c)), None)
  }

  /** `if 'id' in c: by_id[str(c['id'])] = c` */
  function IndexId(ix: Indexes, c: Value): Outcome {
    match In("id", c)
    case Err(e) => Outcome(ix, Some(e))
    case Ok(present) =>
      if !present then Outcome(ix, None)
      else
        match GetItem(c, "id")
        case Err(e) => Outcome(ix, Some(e))
        case Ok(id) => Outcome(ix.(byId := Put(ix.byId, PyStr(id), c)), None)
  }

  /** `if 'name' in c: by_name[c['name'].lower()] = c`; only a string has
      `lower`. */
  function IndexName(ix: Indexes, c: Value): Outcome {
    match In("name", c)
    case Err(e) => Outcome(ix, Some(e))
    case Ok(present) =>
      if !present then Outcome(ix, None)
      else
        match GetItem(c, "name")
        case Err(e) => Outcome(ix, Some(e))
        case Ok(name) =>
          if !name.Str? then Outcome(ix, Some(AttributeError))
          else Outcome(ix.(byName := Put(ix.byName, Text.Lower(name.s), c)), None)
  }

  /** One pass of the loop body: slug, then id, then name; an exception
      keeps what the earlier steps already stored. */
  function IndexRecord(ix: Indexes, c: Value): Outcome {
    var a := IndexSlug(ix, c);
    if a.failure.Some? then a
    else
      var b := IndexId(a.ix, c);
      if b.failure.Some? then b
      else IndexName(b.ix, c)
  }

  /** The loop over all records, stopping at the first exception. */
  function IndexAll(ix: Indexes, cs: seq<Value>): Outcome {
    if cs == [] then Outcome(ix, None)
    else
      var before := IndexAll(ix, cs[..|cs| - 1]);
      if before.failure.Some? then before
      else IndexRecord(before.ix, cs[|cs| - 1])
  }

  /** The body of the `try` in `initialize`: fetch, then index every record. */
  function Load(ix: Indexes, fetched: Result<Value, PyExc>): Outcome {
    match fetched
    case Err(e) => Outcome(ix, Some(e))
    case Ok(body) =>
      match Iterate(body)
      case None => Outcome(ix, Some(TypeError))
      case Some(cs) => IndexAll(ix, cs)
  }

  /** The key a record is filed under in each table, when it has one. */
  function SlugKey(c: Value): Option<Value> {
    if HasField(c, "slug") && Hashable(Field(c, "slug").value) then Some(KeyOf(Field(c, "slug").value)) else None
  }

  function IdKey(c: Value): Option<string> {
    if HasField(c, "id") then Some(PyStr(Field(c, "id").value)) else None
  }

  function NameKey(c: Value): Option<string> {
    if HasField(c, "name") && Field(c, "name").value.Str? then Some(Text.Lower(Field(c, "name").value.s)) else None
  }

  /** The records each step gets through: a dict whose slug, if present,
      is hashable (whose name, if present, is a string), or a list or
      string that does not mention the key at all. */
  predicate SlugOk(c: Value) {
    if c.Obj? then HasField(c, "slug") ==> Hashable(Field(c, "slug").value)
    else In("slug", c) == Ok(false)
  }

  predicate IdOk(c: Value) {
    c.Obj? || In("id", c) == Ok(false)
  }

  predicate NameOk(c: Value) {
    if c.Obj? then HasField(c, "name") ==> Field(c, "name").value.Str?
    else In("name", c) == Ok(false)
  }

  predicate Indexable(c: Value) {
    SlugOk(c) && IdOk(c) && NameOk(c)
  }

  lemma SlugStep(ix: Indexes, c: Value)
    ensures IndexSlug(ix, c).failure.None? <==> SlugOk(c)
    ensures SlugOk(c) ==> IndexSlug(ix, c).ix == ix.(bySlug := PutKey(ix.bySlug, SlugKey(c), c))
  {
  }

  lemma IdStep(ix: Indexes, c: Value)
    ensures IndexId(ix, c).failure.None? <==> IdOk(c)
    ensures IdOk(c) ==> IndexId(ix, c).ix == ix.(byId := PutKey(ix.byId, IdKey(c), c))
  {
  }

  lemma NameStep(ix: Indexes, c: Value)
    ensures IndexName(ix, c).failure.None? <==> NameOk(c)
    ensures NameOk(c) ==> IndexName(ix, c).ix == ix.(byName := PutKey(ix.byName, NameKey(c), c))
  {
  }

  /** The loop body fails exactly on a record that is not indexable, and
      when it succeeds it files the record under each key it has. */
  lemma IndexRecordSpec(ix: Indexes, c: Value)
    ensures IndexRecord(ix, c).failure.None? <==> Indexable(c)
    ensures Indexable(c) ==>
              IndexRecord(ix, c).ix == Indexes(PutKey(ix.bySlug, SlugKey(c), c),
                                               PutKey(ix.byId, IdKey(c), c),
                                               PutKey(ix.byName, NameKey(c), c))
  {
    SlugStep(ix, c);
    var a := IndexSlug(ix, c);
    if a.failure.None? {
      IdStep(a.ix, c);
      var b := IndexId(a.ix, c);
      if b.failure.None? {
        NameStep(b.ix, c);
      }
    }
  }

  /** The loop completes exactly when every record is indexable. */
  lemma {:induction false} IndexAllSucceeds(ix: Indexes, cs: seq<Value>)
    ensures IndexAll(ix, cs).failure.None? <==> forall j :: 0 <= j < |cs| ==> Indexable(cs[j])
  {
    if cs != [] {
      var init := cs[..|cs| - 1];
      IndexAllSucceeds(ix, init);
      IndexRecordSpec(IndexAll(ix, init).ix, cs[|cs| - 1]);
      AllInit(cs, init, Indexable);
    }
  }

  /** When the loop completes, each table holds every record under its key,
      later records overwriting earlier ones. */
  lemma {:induction false} IndexAllTables(ix: Indexes, cs: seq<Value>)
    requires IndexAll(ix, cs).failure.None?
    ensures IndexAll(ix, cs).ix == Indexes(PutEach(ix.bySlug, cs, SlugKey),
                                           PutEach(ix.byId, cs, IdKey),
                                           PutEach(ix.byName, cs, NameKey))
  {
    if cs != [] {
      var init := cs[..|cs| - 1];
      var last := cs[|cs| - 1];
      IndexAllTables(ix, init);
      var mid := IndexAll(ix, init).ix;
      IndexRecordSpec(mid, last);
    }
  }

  /** Which record a slug finds after a completed load: the last record
      with that slug, or what was there before. */
  lemma LastSlugWins(ix: Indexes, cs: seq<Value>, slug: Value)
    requires IndexAll(ix, cs).failure.None?
    ensures var j := LastKeyed(cs, SlugKey, slug);
            Get(IndexAll(ix, cs).ix.bySlug, slug) == if j == -1 then Get(ix.bySlug, slug) else Some(cs[j])
  {
    IndexAllTables(ix, cs);
    PutEachGet(ix.bySlug, cs, SlugKey, slug);
  }

  /** The same for an id, indexed as `str(id)`. */
  lemma LastIdWins(ix: Indexes, cs: seq<Value>, id: string)
    requires IndexAll(ix, cs).failure.None?
    ensures var j := LastKeyed(cs, IdKey, id);
            Get(IndexAll(ix, cs).ix.byId, id) == if j == -1 then Get(ix.byId, id) else Some(cs[j])
  {
    IndexAllTables(ix, cs);
    PutEachGet(ix.byId, cs, IdKey, id);
  }

  /** The same for a lower-cased name. */
  lemma LastNameWins(ix: Indexes, cs: seq<Value>, name: string)
    requires IndexAll(ix, cs).failure.None?
    ensures var j := LastKeyed(cs, NameKey, name);
            Get(IndexAll(ix, cs).ix.byName, name) == if j == -1 then Get(ix.byName, name) else Some(cs[j])
  {
    IndexAllTables(ix, cs);
    PutEachGet(ix.byName, cs, NameKey, name);
  }

  /** Once a record fails, the rest of the records are not looked at. */
  lemma {:induction false} IndexAllStops(ix: Indexes, cs: seq<Value>, i: int)
    requires 0 <= i <= |cs|
    requires IndexAll(ix, cs[..i]).failure.Some?
    ensures IndexAll(ix, cs) == IndexAll(ix, cs[..i])
  {
    if i < |cs| {
      var init := cs[..|cs| - 1];
      assert init[..i] == cs[..i];
      IndexAllStops(ix, init, i);
    } else {
      assert cs[..i] == cs;
    }
  }

  /** The canonical name for an identifier, by precedence: exact slug, id,
      lower-cased name, then a slug equal to the lower-cased identifier;
      the identifier itself when none matches. `v['name']` can raise. */
  function Resolution(ix: Indexes, initialized: bool, identifier: string): Result<Value, PyExc> {
    if !initialized then Ok(Str(identifier))
    else
      var lower := Text.Lower(identifier);
      match Get(ix.bySlug, Str(identifier))
      case Some(c) => GetItem(c, "name")
      case None =>
        match Get(ix.byId, identifier)
        case Some(c) => GetItem(c, "name")
        case None =>
          match Get(ix.byName, lower)
          case Some(c) => GetItem(c, "name")
          case None =>
            match Get(ix.bySlug, Str(lower))
            case Some(c) => GetItem(c, "name")
            case None => Ok(Str(identifier))
  }

  /** Before a successful `initialize` every identifier resolves to itself. */
  lemma UninitializedIdentity(ix: Indexes, identifier: string)
    ensures Resolution(ix, false, identifier) == Ok(Str(identifier))
  {
  }

  /** A slug match wins over everything else. */
  lemma SlugFirst(ix: Indexes, identifier: string)
    requires Str(identifier) in Keys(ix.bySlug)
    ensures Resolution(ix, true, identifier) == GetItem(Get(ix.bySlug, Str(identifier)).value, "name")
  {
  }

  /** An id match wins over a name match. */
  lemma IdBeforeName(ix: Indexes, identifier: string)
    requires Str(identifier) !in Keys(ix.bySlug) && identifier in Keys(ix.byId)
    ensures Resolution(ix, true, identifier) == GetItem(Get(ix.byId, identifier).value, "name")
  {
  }

  /** The name table matches regardless of case. */
  lemma NameIgnoresCase(ix: Indexes, a: string, b: string)
    requires Text.Lower(a) == Text.Lower(b)
    requires Str(a) !in Keys(ix.bySlug) && a !in Keys(ix.byId)
    requires Str(b) !in Keys(ix.bySlug) && b !in Keys(ix.byId)
    requires Text.Lower(a) in Keys(ix.byName)
    ensures Resolution(ix, true, a) == Resolution(ix, true, b)
  {
  }

  /** The last step can only add something for an identifier with an
      upper-case letter: a lower-case one was already tried as a slug. */
  lemma LowerSlugScanRedundant(ix: Indexes, identifier: string)
    requires Text.Lower(identifier) == identifier
    requires Str(identifier) !in Keys(ix.bySlug) && identifier !in Keys(ix.byId)
    requires identifier !in Keys(ix.byName)
    ensures Resolution(ix, true, identifier) == Ok(Str(identifier))
  {
  }

  /** `ClientRegistry` */
  class Registry {
    const apiUrl: string
    var bySlug: Dict<Value, Value>
    var byId: Dict<string, Value>
    var byName: Dict<string, Value>
    var initialized: bool

    ghost predicate Valid()
      reads this`bySlug, this`byId, this`byName
    {
      Unique(Indexes(bySlug, byId, byName))
    }

    constructor (apiUrl: string)
      ensures Valid() && this.apiUrl == apiUrl
      ensures bySlug == [] && byId == [] && byName == [] && !initialized
    {
      this.apiUrl := apiUrl;
      bySlug := [];
      byId := [];
      byName := [];
      initialized := false;
    }

    /** `initialize`: files the fetched records one by one; `_initialized`
        is set only when every record went through, and an exception keeps
        whatever was filed before it. */
    method Initialize(fetched: Result<Value, PyExc>)
      requires Valid()
      modifies this`bySlug, this`byId, this`byName, this`initialized
      ensures Valid()
      ensures var o := Load(Indexes(old(bySlug), old(byId), old(byName)), fetched);
              && Indexes(bySlug, byId, byName) == o.ix
              && initialized == (old(initialized) || o.failure.None?)
    {
      if fetched.Err? {
        return;
      }
      var cs := Iterate(fetched.value);
      if cs.None? {
        return;
      }
      var records := cs.value;
      ghost var ix0 := Indexes(bySlug, byId, byName);
      var i := 0;
      while i < |records|
        invariant 0 <= i <= |records|
        invariant Valid()
        invariant IndexAll(ix0, records[..i]) == Outcome(Indexes(bySlug, byId, byName), None)
        invariant initialized == old(initialized)
      {
        TakeSnoc(records, i);
        assert records[..i + 1][..i] == records[..i];
        ghost var before := Indexes(bySlug, byId, byName);
        var failure := IndexOne(records[i]);
        if failure.Some? {
          assert IndexAll(ix0, records[..i + 1]) == IndexRecord(before, records[i]);
          IndexAllStops(ix0, records, i + 1);
          assert Load(ix0, fetched) == IndexAll(ix0, records);
          return;
        }
        i := i + 1;
      }
      assert records[..i] == records;
      assert Load(ix0, fetched) == IndexAll(ix0, records);
      initialized := true;
    }

    /** The loop body of `initialize` for one record. */
    method IndexOne(c: Value) returns (failure: Option<PyExc>)
      requires Valid()
      modifies this`bySlug, this`byId, this`byName
      ensures Valid()
      ensures IndexRecord(Indexes(old(bySlug), old(byId), old(byName)), c) == Outcome(Indexes(bySlug, byId, byName), failure)
    {
      var hasSlug := In("slug", c);
      if hasSlug.Err? {
        return Some(hasSlug.error);
      }
      if hasSlug.value {
        var slug := GetItem(c, "slug");
        if slug.Err? {
          return Some(slug.error);
        }
        if !Hashable(slug.value) {
          return Some(TypeError);
        }
        bySlug := Put(bySlug, KeyOf(slug.value), c);
      }
      // The slug step has ruled out the values `in` raises on.
      var hasId := In("id", c).value;
      if hasId {
        var id := GetItem(c, "id");
        if id.Err? {
          return Some(id.error);
        }
        byId := Put(byId, PyStr(id.value), c);
      }
      var hasName := In("name", c).value;
      if hasName {
        var name := GetItem(c, "name");
        if name.Err? {
          return Some(name.error);
        }
        if !name.value.Str? {
          return Some(AttributeError);
        }
        byName := Put(byName, Text.Lower(name.value.s), c);
      }
      failure := None;
    }

    /** `resolve_client_name`; the final loop over the slug table finds the
        same record as a lookup of the lower-cased identifier. */
    method ResolveClientName(identifier: string) returns (r: Result<Value, PyExc>)
      ensures r == Resolution(Indexes(bySlug, byId, byName), initialized, identifier)
    {
      if !initialized {
        return Ok(Str(identifier));
      }
      var lower := Text.Lower(identifier);
      var s := OrderedMap.Get(bySlug, Str(identifier));
      if s.Some? {
        return GetItem(s.value, "name");
      }
      var d := OrderedMap.Get(byId, identifier);
      if d.Some? {
        return GetItem(d.value, "name");
      }
      var n := OrderedMap.Get(byName, lower);
      if n.Some? {
        return GetItem(n.value, "name");
      }
      var key := Str(lower);
      var slugs := bySlug;
      var i := 0;
      while i < |slugs|
        invariant 0 <= i <= |slugs|
        invariant forall j :: 0 <= j < i ==> slugs[j].0 != key
      {
        if slugs[i].0 == key {
          GetAt(slugs, i, key);
          return GetItem(slugs[i].1, "name");
        }
        i := i + 1;
      }
      assert key !in Keys(slugs);
      r := Ok(Str(identifier));
    }
  }
}

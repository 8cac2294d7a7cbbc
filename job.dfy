/** The job document: one job/kernel pairing as stored in the `job`
    collection, its conversion to a dictionary and its construction from one. */
module Job {
  import opened Wrappers
  import opened Bson

  /** The collection job documents live in. */
  const JobCollection := "job"

  // Dictionary keys of the document.
  const IdKey := "_id"
  const PrivateKey := "private"
  const JobKey := "job"
  const KernelKey := "kernel"
  const StatusKey := "status"
  const UpdatedKey := "updated"
  const MetadataKey := "metadata"

  /** The read-only property: assigning it raises AttributeError. */
  const CollectionAttribute := "collection"

  /** The six fields a job document adds to the base document. */
  datatype Field = Private | JobName | Kernel | Status | Updated | Metadata

  /** The dictionary key of a field, which is also the name of its property. */
  function Key(f: Field): string
  {
    match f
    case Private => PrivateKey
    case JobName => JobKey
    case Kernel => KernelKey
    case Status => StatusKey
    case Updated => UpdatedKey
    case Metadata => MetadataKey
  }

  /** The instance attribute the property stores its value in. */
  function Backing(f: Field): (a: string)
    ensures a == "_" + Key(f)
  {
    match f
    case Private => "_private"
    case JobName => "_job"
    case Kernel => "_kernel"
    case Status => "_status"
    case Updated => "_updated"
    case Metadata => "_metadata"
  }

  /** The keys `to_dict` writes on top of the base dictionary. */
  const JobKeys: set<string> := {PrivateKey, JobKey, KernelKey, StatusKey, UpdatedKey, MetadataKey}

  /** The names of the backing attributes. */
  const BackingNames: set<string> :=
    {"_private", "_job", "_kernel", "_status", "_updated", "_metadata"}

  /** Which field an attribute name assigns, if any: the property itself or its
      backing attribute. */
  function FieldOf(attribute: string): (r: Option<Field>)
    ensures r.Some? ==> attribute == Key(r.value) || attribute == Backing(r.value)
    ensures r.None? ==> forall f: Field :: attribute != Key(f) && attribute != Backing(f)
    ensures r.Some? <==> attribute in JobKeys || attribute in BackingNames
  {
    if attribute == PrivateKey || attribute == "_private" then Some(Private)
    else if attribute == JobKey || attribute == "_job" then Some(JobName)
    else if attribute == KernelKey || attribute == "_kernel" then Some(Kernel)
    else if attribute == StatusKey || attribute == "_status" then Some(Status)
    else if attribute == UpdatedKey || attribute == "_updated" then Some(Updated)
    else if attribute == MetadataKey || attribute == "_metadata" then Some(Metadata)
    else None
  }

  /** The values of the six fields, as one value. */
  datatype JobFields = JobFields(
    private: Value, job: Value, kernel: Value, status: Value, updated: Value, metadata: Value)
  {
    function Get(f: Field): Value
    {
      match f
      case Private => private
      case JobName => job
      case Kernel => kernel
      case Status => status
      case Updated => updated
      case Metadata => metadata
    }

    function Set(f: Field, v: Value): (r: JobFields)
      ensures r.Get(f) == v
      ensures forall g: Field :: g != f ==> r.Get(g) == Get(g)
    {
      match f
      case Private => this.(private := v)
      case JobName => this.(job := v)
      case Kernel => this.(kernel := v)
      case Status => this.(status := v)
      case Updated => this.(updated := v)
      case Metadata => this.(metadata := v)
    }
  }

  /** The fields of a freshly constructed document. */
  function Initial(job: Value, kernel: Value): (r: JobFields)
    ensures r.private == Bool(false) && r.status == Null && r.updated == Null
    ensures r.metadata == Obj(map[]) && r.job == job && r.kernel == kernel
  {
    JobFields(Bool(false), job, kernel, Null, Null, Obj(map[]))
  }

  /** The dictionary `to_dict` returns for the base document's dictionary `base`. */
  function JobDict(base: Doc, f: JobFields): (d: Doc)
    ensures d.Keys == base.Keys + JobKeys
    ensures forall g: Field :: Key(g) in d && d[Key(g)] == f.Get(g)
    ensures forall k :: k in base && k !in JobKeys ==> d[k] == base[k]
  {
    base[PrivateKey := f.private][JobKey := f.job][KernelKey := f.kernel]
        [UpdatedKey := f.updated][StatusKey := f.status][MetadataKey := f.metadata]
  }

  /** What `from_json` leaves a field holding after assigning every key of `m`:
      the value of its property key or of its backing key when either is present
      (dictionary order decides between the two), otherwise the default. */
  ghost predicate FieldLoaded(v: Value, f: Field, m: Doc)
  {
    if Key(f) in m || Backing(f) in m then
      (Key(f) in m && v == m[Key(f)]) || (Backing(f) in m && v == m[Backing(f)])
    else
      v == Initial(Null, Null).Get(f)
  }

  /** The attributes with no field of their own, which land in the instance's
      own dictionary. */
  function ExtraAttributes(m: Doc): (e: Doc)
    ensures e.Keys == m.Keys - JobKeys - BackingNames
    ensures forall k :: k in e ==> e[k] == m[k]
  {
    map k | k in m && FieldOf(k).None? :: m[k]
  }

  ghost predicate LoadedFrom(f: JobFields, extra: Doc, m: Doc)
  {
    (forall g: Field :: FieldLoaded(f.Get(g), g, m)) && extra == ExtraAttributes(m)
  }

  datatype JobError =
    | MissingId                            // KeyError from popping `_id`
    | ReadOnlyAttribute(attribute: string) // AttributeError from setattr

  class JobDocument {
    /** The name the base document was constructed with (its id). */
    var name: Value
    var private: Value
    var job: Value
    var kernel: Value
    var status: Value
    var updated: Value
    var metadata: Value
    /** Attributes assigned under names the class does not define. */
    var extra: Doc

    function Fields(): JobFields
      reads this
    {
      JobFields(private, job, kernel, status, updated, metadata)
    }

    constructor (name: Value, job: Value := Null, kernel: Value := Null)
      ensures this.name == name && Fields() == Initial(job, kernel) && extra == map[]
    {
      this.name := name;
      this.private := Bool(false);
      this.job := job;
      this.kernel := kernel;
      this.status := Null;
      this.updated := Null;
      this.metadata := Obj(map[]);
      this.extra := map[];
    }

    /** The collection this document belongs to. */
    function Collection(): (c: string)
      ensures c == "job"
    {
      JobCollection
    }

    method SetPrivate(v: Value)
      modifies this`private
      ensures Fields() == old(Fields()).Set(Private, v)
    {
      private := v;
    }

    method SetJob(v: Value)
      modifies this`job
      ensures Fields() == old(Fields()).Set(JobName, v)
    {
      job := v;
    }

    method SetKernel(v: Value)
      modifies this`kernel
      ensures Fields() == old(Fields()).Set(Kernel, v)
    {
      kernel := v;
    }

    method SetUpdated(v: Value)
      modifies this`updated
      ensures Fields() == old(Fields()).Set(Updated, v)
    {
      updated := v;
    }

    method SetStatus(v: Value)
      modifies this`status
      ensures Fields() == old(Fields()).Set(Status, v)
    {
      status := v;
    }

    method SetMetadata(v: Value)
      modifies this`metadata
      ensures Fields() == old(Fields()).Set(Metadata, v)
    {
      metadata := v;
    }

    /** `to_dict`: the base dictionary with the six fields written over it. */
    method ToDict(base: Doc) returns (d: Doc)
      ensures d == JobDict(base, Fields())
    {
      d := base;
      d := d[PrivateKey := private];
      d := d[JobKey := job];
      d := d[KernelKey := kernel];
      d := d[UpdatedKey := updated];
      d := d[StatusKey := status];
      d := d[MetadataKey := metadata];
    }

    /** Python's `setattr(doc, attribute, v)`: a property goes through its
        setter, a backing attribute is written directly, `collection` has no
        setter and fails, and any other name becomes a new attribute. */
    method SetAttribute(attribute: string, v: Value) returns (ok: bool)
      modifies this
      ensures ok <==> attribute != CollectionAttribute
      ensures name == old(name)
      ensures FieldOf(attribute).Some? ==>
        Fields() == old(Fields()).Set(FieldOf(attribute).value, v) && extra == old(extra)
      ensures FieldOf(attribute).None? ==> Fields() == old(Fields())
      ensures FieldOf(attribute).None? ==>
        extra == if ok then old(extra)[attribute := v] else old(extra)
    {
      ok := true;
      if attribute == PrivateKey {
        SetPrivate(v);
      } else if attribute == JobKey {
        SetJob(v);
      } else if attribute == KernelKey {
        SetKernel(v);
      } else if attribute == UpdatedKey {
        SetUpdated(v);
      } else if attribute == StatusKey {
        SetStatus(v);
      } else if attribute == MetadataKey {
        SetMetadata(v);
      } else if attribute == "_private" {
        private := v;
      } else if attribute == "_job" {
        job := v;
      } else if attribute == "_kernel" {
        kernel := v;
      } else if attribute == "_updated" {
        updated := v;
      } else if attribute == "_status" {
        status := v;
      } else if attribute == "_metadata" {
        metadata := v;
      } else if attribute == CollectionAttribute {
        ok := false;
      } else {
        extra := extra[attribute := v];
      }
    }
  }

  /** A dictionary the caller owns; `from_json` removes the id from it. */
  class Mapping {
    var items: Doc

    constructor (items: Doc)
      ensures this.items == items
    {
      this.items := items;
    }
  }

  /** `from_json` on a dictionary: pop the id, build a bare document named
      by it, then assign every remaining key, in the dictionary's order. */
  method FromJson(obj: Mapping) returns (r: Result<JobDocument, JobError>)
    modifies obj
    ensures IdKey !in old(obj.items) ==> r == Failure(MissingId) && obj.items == old(obj.items)
    ensures IdKey in old(obj.items) ==> obj.items == old(obj.items) - {IdKey}
    ensures r.Success? <==> IdKey in old(obj.items) && CollectionAttribute !in old(obj.items)
    ensures r.Failure? ==> r == Failure(MissingId) || r == Failure(ReadOnlyAttribute(CollectionAttribute))
    ensures r.Success? ==> fresh(r.value) && r.value.name == old(obj.items)[IdKey]
    ensures r.Success? ==> LoadedFrom(r.value.Fields(), r.value.extra, obj.items)
  {
    if IdKey !in obj.items {
      return Failure(MissingId);
    }
    var name := obj.items[IdKey];
    obj.items := obj.items - {IdKey};
    var doc := new JobDocument(name);
    var rest := obj.items;
    var todo := rest.Keys;
    while todo != {}
      invariant todo <= rest.Keys && rest == obj.items
      invariant CollectionAttribute !in rest.Keys - todo
      invariant fresh(doc) && doc.name == name
      invariant LoadedFrom(doc.Fields(), doc.extra, Assigned(rest, todo))
      decreases todo
    {
      var key :| key in todo;
      ghost var fields, extra := doc.Fields(), doc.extra;
      var ok := doc.SetAttribute(key, rest[key]);
      if !ok {
        return Failure(ReadOnlyAttribute(key));
      }
      LoadedAfterAssign(fields, doc.Fields(), extra, doc.extra, Assigned(rest, todo), key, rest[key]);
      AssignOneMore(rest, todo, key);
      todo := todo - {key};
    }
    AssignedAll(rest);
    return Success(doc);
  }

  /** The keys of `m` assigned so far, while those in `todo` still wait. */
  function Assigned(m: Doc, todo: set<string>): (d: Doc)
    ensures d.Keys == m.Keys - todo
  {
    map k | k in m && k !in todo :: m[k]
  }

  lemma AssignOneMore(m: Doc, todo: set<string>, key: string)
    requires key in todo && key in m
    ensures key !in Assigned(m, todo)
    ensures Assigned(m, todo - {key}) == Assigned(m, todo)[key := m[key]]
  {
  }

  lemma AssignedAll(m: Doc)
    ensures Assigned(m, {}) == m
  {
  }

  lemma FieldOfNames(g: Field)
    ensures FieldOf(Key(g)) == Some(g) && FieldOf(Backing(g)) == Some(g)
  {
  }

  /** Assigning one more key keeps the fields and the extra attributes in
      step with the keys assigned so far. */
  lemma LoadedAfterAssign(f0: JobFields, f1: JobFields, e0: Doc, e1: Doc, m: Doc, key: string, v: Value)
    requires key !in m
    requires LoadedFrom(f0, e0, m)
    requires FieldOf(key).Some? ==> f1 == f0.Set(FieldOf(key).value, v) && e1 == e0
    requires FieldOf(key).None? ==> f1 == f0 && e1 == e0[key := v]
    ensures LoadedFrom(f1, e1, m[key := v])
  {
    forall g: Field
      ensures FieldLoaded(f1.Get(g), g, m[key := v])
    {
      FieldAfterAssign(f0.Get(g), f1.Get(g), g, m, key, v);
    }
    ExtraAfterAssign(m, key, v);
  }

  /** One field after one more key is assigned: the key's value if the key
      names the field, what it held before otherwise. */
  lemma FieldAfterAssign(v0: Value, v1: Value, g: Field, m: Doc, key: string, v: Value)
    requires key !in m
    requires FieldLoaded(v0, g, m)
    requires FieldOf(key) == Some(g) ==> v1 == v
    requires FieldOf(key) != Some(g) ==> v1 == v0
    ensures FieldLoaded(v1, g, m[key := v])
  {
    FieldOfNames(g);
    if FieldOf(key) == Some(g) {
      assert key == Key(g) || key == Backing(g);
    } else {
      assert key != Key(g) && key != Backing(g);
    }
  }

  /** A key naming no field is one more extra attribute; a key naming a
      field leaves the extra attributes as they were. */
  lemma ExtraAfterAssign(m: Doc, key: string, v: Value)
    requires key !in m
    ensures ExtraAttributes(m[key := v]) ==
      if FieldOf(key).None? then ExtraAttributes(m)[key := v] else ExtraAttributes(m)
  {
  }

  /** Loading every key of a `to_dict` result, minus the id, gives back the
      six fields it was made from, provided the base dictionary does not also
      carry one of the backing attribute names. */
  lemma RoundTripFields(base: Doc, f: JobFields, loaded: JobFields, extra: Doc)
    requires base.Keys !! BackingNames
    requires LoadedFrom(loaded, extra, JobDict(base, f) - {IdKey})
    ensures loaded == f
    ensures extra == base - {IdKey} - JobKeys
  {
    var m := JobDict(base, f) - {IdKey};
    forall g: Field
      ensures loaded.Get(g) == f.Get(g)
    {
      FieldRestored(base, f, loaded.Get(g), g);
    }
    assert loaded.Get(Private) == f.Get(Private) && loaded.Get(JobName) == f.Get(JobName);
    assert loaded.Get(Kernel) == f.Get(Kernel) && loaded.Get(Status) == f.Get(Status);
    assert loaded.Get(Updated) == f.Get(Updated) && loaded.Get(Metadata) == f.Get(Metadata);
    ExtraRestored(base, f);
  }

  lemma FieldRestored(base: Doc, f: JobFields, v: Value, g: Field)
    requires base.Keys !! BackingNames
    requires FieldLoaded(v, g, JobDict(base, f) - {IdKey})
    ensures v == f.Get(g)
  {
    var m := JobDict(base, f) - {IdKey};
    assert Backing(g) in BackingNames;
    assert Key(g) in m && m[Key(g)] == f.Get(g);
  }

  lemma ExtraRestored(base: Doc, f: JobFields)
    requires base.Keys !! BackingNames
    ensures ExtraAttributes(JobDict(base, f) - {IdKey}) == base - {IdKey} - JobKeys
  {
    var e, b := ExtraAttributes(JobDict(base, f) - {IdKey}), base - {IdKey} - JobKeys;
    assert e.Keys == b.Keys;
  }

  /** Serialising a document with `to_dict` and loading the dictionary with
      `from_json` restores its six fields and its name. */
  method Reload(doc: JobDocument, base: Doc) returns (r: Result<JobDocument, JobError>)
    requires IdKey in base && CollectionAttribute !in base && base.Keys !! BackingNames
    ensures r.Success? && r.value != doc
    ensures r.value.Fields() == doc.Fields() && r.value.name == base[IdKey]
    ensures r.value.extra == base - {IdKey} - JobKeys
  {
    var d := doc.ToDict(base);
    var m := new Mapping(d);
    r := FromJson(m);
    RoundTripFields(base, doc.Fields(), r.value.Fields(), r.value.extra);
  }
}

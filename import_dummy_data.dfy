/** The seed importer (scripts/import-dummy-data.js): every document of every
    collection in the data file is copied, its tagged fields are converted,
    its id is chosen and its id fields are dropped, and it is written with
    `set` at that id or `add`ed under a generated one. The file and the
    database are inputs; each write's outcome is given. */
module ImportDummyData {
  import opened Types

  /** A JSON value as `JSON.parse` yields it, plus the timestamp a tagged
      field becomes; `source` is the tag object's `value` (None when absent). */
  datatype Value =
    | Null
    | Bool(b: bool)
    | Num(n: real)
    | Str(s: string)
    | Arr(items: seq<Value>)
    | Obj(fields: map<string, Value>)
    | Stamp(source: Option<Value>)

  /** A document: its own keys and their values. */
  type Record = map<string, Value>

  datatype CollectionData = CollectionData(collection: string, documents: seq<Record>)

  /** One write of the import. */
  datatype WriteOp =
    | SetDoc(collection: string, id: Value, data: Record)
    | AddDoc(collection: string, data: Record)

  const TagKey := "__datatype__"
  const TimestampTag := "timestamp"
  const ValueKey := "value"
  const DocumentId := "documentId"
  const UserId := "userId"
  const FaqId := "faqId"
  const UpdateId := "updateId"

  /** The keys that may carry a document's id, in order of precedence. */
  const IdKeys: seq<string> := [DocumentId, UserId, FaqId, UpdateId]

  /** JavaScript truthiness of a present value. */
  predicate Truthy(v: Value) {
    match v
    case Null => false
    case Bool(b) => b
    case Num(n) => n != 0.0
    case Str(s) => s != ""
    case _ => true
  }

  /** JavaScript truthiness of a property read; a missing key is `undefined`. */
  predicate TruthyAt(r: Record, key: string) {
    key in r && Truthy(r[key])
  }

  /** A field value is tagged when it is a truthy object whose `__datatype__`
      is truthy; arrays have no such property. */
  predicate Tagged(v: Value) {
    v.Obj? && TruthyAt(v.fields, TagKey)
  }

  predicate TaggedTimestamp(v: Value) {
    Tagged(v) && v.fields[TagKey] == Str(TimestampTag)
  }

  function TagValue(v: Value): Option<Value>
    requires v.Obj?
  {
    if ValueKey in v.fields then Some(v.fields[ValueKey]) else None
  }

  /** What the key loop leaves in a field: a tagged timestamp becomes a
      timestamp built from its `value`; everything else, including an object
      with an unknown tag, stays as it is. */
  function ConvertField(v: Value): (r: Value)
    ensures TaggedTimestamp(v) ==> r == Stamp(TagValue(v))
    ensures !TaggedTimestamp(v) ==> r == v
  {
    if TaggedTimestamp(v) then Stamp(TagValue(v)) else v
  }

  /** The cloned document after the key loop. */
  function Converted(doc: Record): (r: Record)
    ensures r.Keys == doc.Keys
    ensures forall k | k in doc :: r[k] == ConvertField(doc[k])
  {
    map k | k in doc :: ConvertField(doc[k])
  }

  /** `IdKeys[i]` is the first id key holding a truthy value. */
  predicate FirstTruthyId(r: Record, i: nat) {
    && i < |IdKeys|
    && TruthyAt(r, IdKeys[i])
    && forall j | 0 <= j < i :: !TruthyAt(r, IdKeys[j])
  }

  /** `documentId || userId || faqId || updateId`, kept only when truthy, since
      the write checks `if (docId)`. */
  function DocId(r: Record): Option<Value> {
    if TruthyAt(r, DocumentId) then Some(r[DocumentId])
    else if TruthyAt(r, UserId) then Some(r[UserId])
    else if TruthyAt(r, FaqId) then Some(r[FaqId])
    else if TruthyAt(r, UpdateId) then Some(r[UpdateId])
    else None
  }

  /** The id is the value of the first id key, in precedence order, that
      holds a truthy value; there is none exactly when no id key does. */
  lemma DocIdPrecedence(r: Record)
    ensures DocId(r).None? <==> forall j | 0 <= j < |IdKeys| :: !TruthyAt(r, IdKeys[j])
    ensures DocId(r).Some? ==> exists i: nat :: FirstTruthyId(r, i) && DocId(r).value == r[IdKeys[i]]
  {
    if TruthyAt(r, DocumentId) {
      assert FirstTruthyId(r, 0);
    } else if TruthyAt(r, UserId) {
      assert FirstTruthyId(r, 1);
    } else if TruthyAt(r, FaqId) {
      assert FirstTruthyId(r, 2);
    } else if TruthyAt(r, UpdateId) {
      assert FirstTruthyId(r, 3);
    }
  }

  /** The record with the four id keys deleted. */
  function Stripped(r: Record): (s: Record)
    ensures forall k :: k in s <==> k in r && k !in IdKeys
    ensures forall k | k in s :: s[k] == r[k]
  {
    r - {DocumentId, UserId, FaqId, UpdateId}
  }

  /** The write a document turns into. */
  function WriteFor(collection: string, doc: Record): WriteOp {
    var data := Converted(doc);
    var id := DocId(data);
    if id.Some? then SetDoc(collection, id.value, Stripped(data)) else AddDoc(collection, Stripped(data))
  }

  /** The written record never carries an id key, keeps every other key of the
      source document with its converted value, and goes to `set` exactly when
      some id key holds a truthy value, under the first such value. */
  lemma WriteForShape(collection: string, doc: Record)
    ensures var op := WriteFor(collection, doc);
      && op.collection == collection
      && (forall k | k in IdKeys :: k !in op.data)
      && (forall k | k !in IdKeys :: k in op.data <==> k in doc)
      && (forall k | k in op.data :: op.data[k] == ConvertField(doc[k]))
      && (op.SetDoc? <==> exists j | 0 <= j < |IdKeys| :: TruthyAt(Converted(doc), IdKeys[j]))
      && (op.SetDoc? ==> exists i: nat :: FirstTruthyId(Converted(doc), i) && op.id == ConvertField(doc[IdKeys[i]]))
  {
    DocIdPrecedence(Converted(doc));
  }

  /** A document that names itself by `documentId` and also carries a
      `userId` is written under the `documentId`, and the `userId` field is
      dropped from it all the same. */
  lemma UserIdDroppedEvenWhenNotTheId(collection: string, doc: Record)
    requires TruthyAt(doc, DocumentId) && !TaggedTimestamp(doc[DocumentId]) && UserId in doc
    ensures var op := WriteFor(collection, doc);
      op.SetDoc? && op.id == doc[DocumentId] && UserId !in op.data
  {
    assert TruthyAt(Converted(doc), DocumentId);
  }

  /** The per-document body of `importData`: clone, convert each tagged field
      in place, pick the id, delete the id keys. */
  method PrepareDocument(doc: Record) returns (data: Record, docId: Option<Value>)
    ensures data == Stripped(Converted(doc))
    ensures docId == DocId(Converted(doc))
  {
    data := doc;
    var pending := doc.Keys;
    while pending != {}
      invariant pending <= doc.Keys && data.Keys == doc.Keys
      invariant forall k | k in doc && k !in pending :: data[k] == ConvertField(doc[k])
      invariant forall k | k in pending :: data[k] == doc[k]
      decreases pending
    {
      var key :| key in pending;
      if Tagged(data[key]) {
        if data[key].fields[TagKey] == Str(TimestampTag) {
          data := data[key := Stamp(TagValue(data[key]))];
        }
        // an unknown tag: the field is stored as is
      }
      pending := pending - {key};
    }
    ConvertedPointwise(doc, data);
    docId := DocId(data);
    ghost var converted := data;
    data := data - {DocumentId};
    data := data - {UserId};
    data := data - {FaqId};
    data := data - {UpdateId};
    DeletesStrip(converted);
  }

  lemma ConvertedPointwise(doc: Record, data: Record)
    requires data.Keys == doc.Keys
    requires forall k | k in doc :: data[k] == ConvertField(doc[k])
    ensures data == Converted(doc)
  {
  }

  /** Deleting the id keys one by one strips the record. */
  lemma DeletesStrip(r: Record)
    ensures r - {DocumentId} - {UserId} - {FaqId} - {UpdateId} == Stripped(r)
  {
  }

  /** The writes of one collection's documents, in file order: one per
      document, the i-th for the i-th document. */
  function WritesOf(collection: string, docs: seq<Record>): seq<WriteOp> {
    seq(|docs|, i requires 0 <= i < |docs| => WriteFor(collection, docs[i]))
  }

  /** The parts laid end to end. */
  function Flatten<T>(parts: seq<seq<T>>): seq<T> {
    if parts == [] then [] else Flatten(parts[..|parts| - 1]) + parts[|parts| - 1]
  }

  lemma {:induction false} FlattenConcat<T>(a: seq<seq<T>>, b: seq<seq<T>>)
    ensures Flatten(a + b) == Flatten(a) + Flatten(b)
    decreases |b|
  {
    if b != [] {
      var ab, init := a + b, b[..|b| - 1];
      assert ab[..|ab| - 1] == a + init && ab[|ab| - 1] == b[|b| - 1];
      FlattenConcat(a, init);
    } else {
      assert a + b == a;
    }
  }

  /** Each collection's writes, in file order. */
  function PerCollection(cols: seq<CollectionData>): seq<seq<WriteOp>> {
    seq(|cols|, i requires 0 <= i < |cols| => WritesOf(cols[i].collection, cols[i].documents))
  }

  /** The writes of the whole file: collection after collection. */
  function Plan(cols: seq<CollectionData>): seq<WriteOp> {
    Flatten(PerCollection(cols))
  }

  /** The plan of a file split in two is the first part's plan followed by the
      second's: collections are written in file order. */
  lemma PlanConcat(a: seq<CollectionData>, b: seq<CollectionData>)
    ensures Plan(a + b) == Plan(a) + Plan(b)
  {
    assert PerCollection(a + b) == PerCollection(a) + PerCollection(b);
    FlattenConcat(PerCollection(a), PerCollection(b));
  }

  function DocumentCount(cols: seq<CollectionData>): nat {
    if cols == [] then 0 else DocumentCount(cols[..|cols| - 1]) + |cols[|cols| - 1].documents|
  }

  /** Every document of the file is written exactly once: the plan has one
      write per document. */
  lemma {:induction false} PlanLength(cols: seq<CollectionData>)
    ensures |Plan(cols)| == DocumentCount(cols)
  {
    if cols != [] {
      var init := cols[..|cols| - 1];
      assert PerCollection(cols) == PerCollection(init) + [PerCollection(cols)[|cols| - 1]];
      PlanLength(init);
    }
  }

  lemma PlanStep(cols: seq<CollectionData>, c: nat)
    requires c < |cols|
    ensures Plan(cols[..c + 1]) == Plan(cols[..c]) + WritesOf(cols[c].collection, cols[c].documents)
  {
    assert PerCollection(cols[..c + 1]) == PerCollection(cols[..c]) + [WritesOf(cols[c].collection, cols[c].documents)];
  }

  lemma WritesStep(collection: string, docs: seq<Record>, d: nat)
    requires d < |docs|
    ensures WritesOf(collection, docs[..d + 1]) == WritesOf(collection, docs[..d]) + [WriteFor(collection, docs[d])]
  {
    var w, w' := WritesOf(collection, docs[..d]), WritesOf(collection, docs[..d + 1]);
    forall i | 0 <= i < d + 1
      ensures w'[i] == (w + [WriteFor(collection, docs[d])])[i]
    {
      assert docs[..d + 1][i] == docs[i];
    }
  }

  /** `succeeded` records which of `attempts` reached the database. */
  predicate Outcomes(attempts: seq<WriteOp>, succeeded: seq<bool>, rejected: set<nat>) {
    && |succeeded| == |attempts|
    && forall i | 0 <= i < |attempts| :: succeeded[i] == (i !in rejected && Addressable(attempts[i]))
  }

  lemma OutcomesSnoc(attempts: seq<WriteOp>, succeeded: seq<bool>, rejected: set<nat>, op: WriteOp)
    requires Outcomes(attempts, succeeded, rejected)
    ensures Outcomes(attempts + [op], succeeded + [|attempts| !in rejected && Addressable(op)], rejected)
  {
  }

  /** Whether a write can reach the database at all: `doc()` accepts only a
      string path, so a truthy id of another kind makes the write throw. */
  predicate Addressable(op: WriteOp) {
    op.AddDoc? || op.id.Str?
  }

  /** `importData`: writes every document in file order. A write that throws
      is logged and the loop carries on; `rejected` holds the positions of
      the writes the database refuses. */
  method ImportData(cols: seq<CollectionData>, rejected: set<nat>)
    returns (attempts: seq<WriteOp>, succeeded: seq<bool>)
    ensures attempts == Plan(cols)
    ensures Outcomes(attempts, succeeded, rejected)
  {
    attempts := [];
    succeeded := [];
    var c := 0;
    while c < |cols|
      invariant 0 <= c <= |cols|
      invariant attempts == Plan(cols[..c])
      invariant Outcomes(attempts, succeeded, rejected)
    {
      var collection := cols[c].collection;
      var docs := cols[c].documents;
      ghost var done := attempts;
      var d := 0;
      while d < |docs|
        invariant 0 <= d <= |docs|
        invariant attempts == done + WritesOf(collection, docs[..d])
        invariant Outcomes(attempts, succeeded, rejected)
      {
        var data, docId := PrepareDocument(docs[d]);
        var op := if docId.Some? then SetDoc(collection, docId.value, data) else AddDoc(collection, data);
        assert op == WriteFor(collection, docs[d]);
        var ok := |attempts| !in rejected && Addressable(op);
        WritesStep(collection, docs, d);
        assert attempts + [op] == done + WritesOf(collection, docs[..d + 1]);
        OutcomesSnoc(attempts, succeeded, rejected, op);
        attempts := attempts + [op];
        succeeded := succeeded + [ok];
        d := d + 1;
      }
      assert docs[..d] == docs;
      PlanStep(cols, c);
      c := c + 1;
    }
    assert cols[..c] == cols;
  }

  /** A collection's documents by id after a successful write: `set` replaces
      the document at its id wholesale, `add` stores under the generated id. */
  function ApplyWrite(docs: map<string, Record>, op: WriteOp, generatedId: string): (r: map<string, Record>)
    requires Addressable(op)
    ensures var id := if op.SetDoc? then op.id.s else generatedId;
      && id in r && r[id] == op.data
      && r.Keys == docs.Keys + {id}
      && forall k | k in docs && k != id :: r[k] == docs[k]
  {
    if op.SetDoc? then docs[op.id.s := op.data] else docs[generatedId := op.data]
  }
}

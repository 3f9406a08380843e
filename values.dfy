/** The dynamically typed values that travel between the extraction layer, the
    vector store and the service: JSON-like payload values, the LangChain
    document a chunk arrives as, and the error text of Python's subscript
    failures. */
module Values {
  import opened Wrappers

  /** An IEEE-754 double (a score or a vector component), kept opaque. */
  datatype Float = Float(bits: bv64)

  /** A JSON-like value as stored in a point payload or in document metadata. */
  datatype Value =
    | Null
    | Str(s: string)
    | Int(i: int)
    | Num(f: Float)
    | List(items: seq<Value>)
    | Obj(fields: map<string, Value>)

  type Payload = map<string, Value>

  /** A LangChain `Document` produced by the unstructured loader and the text
      splitter: its page content and its metadata dictionary. */
  datatype Document = Document(pageContent: string, metadata: map<string, Value>)

  /** The "kwargs" of `Document.to_json()`: the page content and the
      "Document" type tag always, the metadata only when it is not empty
      (LangChain leaves out a field that still holds its empty default). */
  function Kwargs(doc: Document): (k: map<string, Value>)
    ensures "page_content" in k && k["page_content"] == Str(doc.pageContent)
    ensures "metadata" in k <==> doc.metadata != map[]
    ensures "metadata" in k ==> k["metadata"] == Obj(doc.metadata)
  {
    var k := map["page_content" := Str(doc.pageContent), "type" := Str("Document")];
    if doc.metadata == map[] then k else k["metadata" := Obj(doc.metadata)]
  }

  /** `Document.to_json()`: LangChain's serialized constructor form, a plain
      dict, which has no `to_json` of its own. */
  function ToJson(doc: Document): (j: map<string, Value>)
    ensures "kwargs" in j && j["kwargs"] == Obj(Kwargs(doc))
  {
    map["lc" := Int(1), "type" := Str("constructor"),
        "id" := List([Str("langchain"), Str("schema"), Str("document"), Str("Document")]),
        "kwargs" := Obj(Kwargs(doc))]
  }

  /** Serializing loses nothing: distinct documents give distinct dicts. */
  lemma ToJsonInjective(a: Document, b: Document)
    requires ToJson(a) == ToJson(b)
    ensures a == b
  {
    var ka, kb := Kwargs(a), Kwargs(b);
    assert ka == ToJson(a)["kwargs"].fields == kb;
    assert ka["page_content"].s == a.pageContent;
    if a.metadata != map[] {
      assert ka["metadata"].fields == a.metadata;
    }
  }

  /** `[page.to_json() for page in docs]`. */
  function ToJsonAll(docs: seq<Document>): (r: seq<map<string, Value>>)
    ensures |r| == |docs| && forall i :: 0 <= i < |r| ==> r[i] == ToJson(docs[i])
  {
    seq(|docs|, i requires 0 <= i < |docs| => ToJson(docs[i]))
  }

  /** The serialized list determines the documents, in order. */
  lemma ToJsonAllInjective(a: seq<Document>, b: seq<Document>)
    requires ToJsonAll(a) == ToJsonAll(b)
    ensures a == b
  {
    forall i | 0 <= i < |a| ensures a[i] == b[i] {
      assert ToJsonAll(a)[i] == ToJsonAll(b)[i];
      ToJsonInjective(a[i], b[i]);
    }
  }

  /** `str(KeyError(key))`: the key's repr. */
  function KeyErrorText(key: string): string {
    "'" + key + "'"
  }

  /** `str(e)` for the TypeError raised by `v[key]` when `v` is not a dict. */
  function NotSubscriptableText(v: Value): string
    requires !v.Obj?
  {
    match v
    case Null => "'NoneType' object is not subscriptable"
    case Int(_) => "'int' object is not subscriptable"
    case Num(_) => "'float' object is not subscriptable"
    case Str(_) => "string indices must be integers, not 'str'"
    case List(_) => "list indices must be integers or slices, not str"
  }

  /** `d[key]` on a dict: the value, or the KeyError's text. */
  function Lookup(d: map<string, Value>, key: string): (r: Result<Value, string>)
    ensures r.Success? <==> key in d
    ensures r.Success? ==> r.value == d[key]
    ensures r.Failure? ==> r.error == KeyErrorText(key)
  {
    if key in d then Success(d[key]) else Failure(KeyErrorText(key))
  }

  /** `v[key]` on any value: a TypeError unless `v` is a dict. */
  function Subscript(v: Value, key: string): (r: Result<Value, string>)
    ensures r.Success? <==> v.Obj? && key in v.fields
    ensures r.Success? ==> r.value == v.fields[key]
  {
    match v
    case Obj(fields) => Lookup(fields, key)
    case _ => Failure(NotSubscriptableText(v))
  }
}

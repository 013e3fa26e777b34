/** The request descriptor (`AbstractModel.Request`): a plain record of what
    a model will send, built by field and map updates. Each builder call
    returns the updated descriptor; chaining calls is function composition. */
module Descriptor {
  import opened Common

  /** The sentinel the library names for "no sequence id". A fresh
      descriptor does NOT carry it: its id field starts at Java's default 0. */
  const INVALID_SEQ_ID: int := -1

  /** HTTP methods of `ModelMethod`. The enumeration itself is not part of
      this model: `GET` is the default a fresh descriptor carries, and
      `POST`, `PUT` and `DELETE` are assumed stand-ins for its other
      constants. */
  datatype HttpMethod = GET | POST | PUT | DELETE

  /** Request parameters: values are arbitrary objects and may be null. */
  type Params = map<string, Option<ObjectRef>>

  datatype Request = Request(
    seqId: Int32,
    url: Option<string>,
    requestMethod: HttpMethod,
    params: Params,
    headers: Headers,
    body: Option<seq<Byte>>,
    fillExtraHeader: bool)

  /** A freshly constructed descriptor. */
  function NewRequest(): (r: Request)
    ensures r.requestMethod == GET && r.params == map[] && r.headers == map[]
    ensures !r.fillExtraHeader && r.url.None? && r.body.None?
    ensures r.seqId == 0 && r.seqId != INVALID_SEQ_ID
  {
    Request(0, None, GET, map[], map[], None, false)
  }

  /** True when `a` and `b` agree on every field except the parameters. */
  predicate SameExceptParams(a: Request, b: Request)
  {
    a.seqId == b.seqId && a.url == b.url && a.requestMethod == b.requestMethod &&
    a.headers == b.headers && a.body == b.body && a.fillExtraHeader == b.fillExtraHeader
  }

  /** True when `a` and `b` agree on every field except the headers. */
  predicate SameExceptHeaders(a: Request, b: Request)
  {
    a.seqId == b.seqId && a.url == b.url && a.requestMethod == b.requestMethod &&
    a.params == b.params && a.body == b.body && a.fillExtraHeader == b.fillExtraHeader
  }

  function SeqId(r: Request, seqId: Int32): (r': Request)
    ensures r'.seqId == seqId
    ensures r' == r.(seqId := r'.seqId)
  {
    r.(seqId := seqId)
  }

  function Url(r: Request, url: Option<string>): (r': Request)
    ensures r'.url == url
    ensures r' == r.(url := r'.url)
  {
    r.(url := url)
  }

  function WithMethod(r: Request, m: HttpMethod): (r': Request)
    ensures r'.requestMethod == m
    ensures r' == r.(requestMethod := r'.requestMethod)
  {
    r.(requestMethod := m)
  }

  function Body(r: Request, body: Option<seq<Byte>>): (r': Request)
    ensures r'.body == body
    ensures r' == r.(body := r'.body)
  {
    r.(body := body)
  }

  function FillExtraHeader(r: Request, fill: bool): (r': Request)
    ensures r'.fillExtraHeader == fill
    ensures r' == r.(fillExtraHeader := r'.fillExtraHeader)
  {
    r.(fillExtraHeader := fill)
  }

  /** `head(key, value)`: a `put` on the header map. */
  function Head(r: Request, key: string, value: string): (r': Request)
    ensures key in r'.headers && r'.headers[key] == value
    ensures forall k :: k != key ==> (k in r'.headers <==> k in r.headers)
    ensures forall k :: k != key && k in r.headers ==> r'.headers[k] == r.headers[k]
    ensures SameExceptHeaders(r, r')
  {
    r.(headers := r.headers[key := value])
  }

  /** `param(key, obj)`: a `put` on the parameter map; a null value is stored. */
  function Param(r: Request, key: string, obj: Option<ObjectRef>): (r': Request)
    ensures key in r'.params && r'.params[key] == obj
    ensures forall k :: k != key ==> (k in r'.params <==> k in r.params)
    ensures forall k :: k != key && k in r.params ==> r'.params[k] == r.params[k]
    ensures SameExceptParams(r, r')
  {
    r.(params := r.params[key := obj])
  }

  /** `paramCheckNull(key, obj)`: a `put` only when the value is not null. */
  function ParamCheckNull(r: Request, key: string, obj: Option<ObjectRef>): (r': Request)
    ensures obj.None? ==> r' == r
    ensures obj.Some? ==> key in r'.params && r'.params[key] == obj
    ensures forall k :: k != key ==> (k in r'.params <==> k in r.params)
    ensures forall k :: k != key && k in r.params ==> r'.params[k] == r.params[k]
    ensures SameExceptParams(r, r')
  {
    if obj.Some? then r.(params := r.params[key := obj]) else r
  }

  /** `addParams(params)`: `putAll`, so the argument's entries win. */
  function AddParams(r: Request, more: Params): (r': Request)
    ensures r'.params.Keys == r.params.Keys + more.Keys
    ensures forall k :: k in more ==> r'.params[k] == more[k]
    ensures forall k :: k in r.params && k !in more ==> r'.params[k] == r.params[k]
    ensures SameExceptParams(r, r')
  {
    r.(params := r.params + more)
  }

  /** Each plain field setter keeps only its last value. */
  lemma FieldSettersOverwrite(r: Request, id1: Int32, id2: Int32, u1: Option<string>, u2: Option<string>,
                              m1: HttpMethod, m2: HttpMethod, b1: Option<seq<Byte>>, b2: Option<seq<Byte>>,
                              f1: bool, f2: bool)
    ensures SeqId(SeqId(r, id1), id2) == SeqId(r, id2)
    ensures Url(Url(r, u1), u2) == Url(r, u2)
    ensures WithMethod(WithMethod(r, m1), m2) == WithMethod(r, m2)
    ensures Body(Body(r, b1), b2) == Body(r, b2)
    ensures FillExtraHeader(FillExtraHeader(r, f1), f2) == FillExtraHeader(r, f2)
  {
  }

  /** Plain setters of different fields commute: each of the ten pairs of
      `seqId`, `url`, `method`, `body` and `fillExtraHeader`. */
  lemma FieldSettersCommute(r: Request, id: Int32, u: Option<string>, m: HttpMethod,
                            b: Option<seq<Byte>>, f: bool)
    ensures SeqId(Url(r, u), id) == Url(SeqId(r, id), u)
    ensures SeqId(WithMethod(r, m), id) == WithMethod(SeqId(r, id), m)
    ensures SeqId(Body(r, b), id) == Body(SeqId(r, id), b)
    ensures SeqId(FillExtraHeader(r, f), id) == FillExtraHeader(SeqId(r, id), f)
    ensures Url(WithMethod(r, m), u) == WithMethod(Url(r, u), m)
    ensures Url(Body(r, b), u) == Body(Url(r, u), b)
    ensures Url(FillExtraHeader(r, f), u) == FillExtraHeader(Url(r, u), f)
    ensures WithMethod(Body(r, b), m) == Body(WithMethod(r, m), b)
    ensures WithMethod(FillExtraHeader(r, f), m) == FillExtraHeader(WithMethod(r, m), f)
    ensures Body(FillExtraHeader(r, f), b) == FillExtraHeader(Body(r, b), f)
  {
  }

  /** A later `head` on the same key replaces the earlier one. */
  lemma HeadOverwrites(r: Request, key: string, v1: string, v2: string)
    ensures Head(Head(r, key, v1), key, v2) == Head(r, key, v2)
  {
  }

  /** `head` calls on different keys commute. */
  lemma HeadCommutes(r: Request, k1: string, v1: string, k2: string, v2: string)
    requires k1 != k2
    ensures Head(Head(r, k1, v1), k2, v2) == Head(Head(r, k2, v2), k1, v1)
  {
  }

  /** `paramCheckNull` with a value behaves exactly like `param`; with null
      it is the identity. */
  lemma ParamCheckNullIsGuardedParam(r: Request, key: string, obj: Option<ObjectRef>)
    ensures obj.Some? ==> ParamCheckNull(r, key, obj) == Param(r, key, obj)
    ensures obj.None? ==> ParamCheckNull(r, key, obj) == r
  {
  }

  /** `addParams` of a one-entry map is `param`; of the empty map, nothing;
      two `addParams` calls are one call on the merged map. */
  lemma AddParamsAgreesWithParam(r: Request, key: string, obj: Option<ObjectRef>, a: Params, b: Params)
    ensures AddParams(r, map[key := obj]) == Param(r, key, obj)
    ensures AddParams(r, map[]) == r
    ensures AddParams(AddParams(r, a), b) == AddParams(r, a + b)
  {
    assert r.params + map[key := obj] == r.params[key := obj];
    assert r.params + map[] == r.params;
    assert (r.params + a) + b == r.params + (a + b);
  }
}

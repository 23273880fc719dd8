/**
 * The request-side values the middleware works on: JSON values of a request body or a
 * document's `_doc`, query-string parameters, and the request object whose fields the
 * middleware overwrite in place.
 */
module Http {
  import opened Wrappers

  /** Document identifiers (ObjectIds) are compared by their text. */
  type Id = string

  /** A JavaScript value as it appears in a body, in `req.params` or in a document's `_doc`. */
  datatype Value = Undefined | Null | Bool(b: bool) | Num(n: int) | Str(s: string) | Oid(id: Id) | DateMs(ms: int)
  {
    /** JavaScript truthiness: undefined, null, false, 0 and "" are falsy; objects are truthy. */
    predicate Truthy() {
      match this
      case Undefined => false
      case Null => false
      case Bool(b) => b
      case Num(n) => n != 0
      case Str(s) => s != ""
      case Oid(_) => true
      case DateMs(_) => true
    }
  }

  /**
   * A query-string parameter as the extended query parser delivers it: plain text (`?sort=price`)
   * or, for bracketed keys (`?price[gte]=100`), a nested object of operator to text.
   */
  datatype QVal = Param(text: string) | Nested(ops: map<string, string>)
  {
    predicate Truthy() { Nested? || text != "" }
  }

  /** `obj[key]`: the value, or undefined when the key is absent. */
  function Get(m: map<string, Value>, key: string): (v: Value)
    ensures key !in m ==> v == Undefined
    ensures key in m ==> v == m[key]
  {
    if key in m then m[key] else Undefined
  }

  /** An Express request as the middleware see it; each of them may overwrite these fields. */
  class Request {
    /** Header values by lower-case header name. */
    var headers: map<string, string>
    var query: map<string, QVal>
    var body: map<string, Value>
    var params: map<string, Value>
    /** `req.user`, set by the authentication middleware. */
    var user: Option<map<string, Value>>

    constructor (headers: map<string, string>, query: map<string, QVal>, body: map<string, Value>, params: map<string, Value>, user: Option<map<string, Value>>)
      ensures this.headers == headers && this.query == query && this.body == body && this.params == params && this.user == user
    {
      this.headers := headers;
      this.query := query;
      this.body := body;
      this.params := params;
      this.user := user;
    }
  }
}

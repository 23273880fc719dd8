/**
 * A Mongoose query, modelled as the record of directives that have been applied to it, in order.
 * Executing the query against the database is not part of the model; which stored documents a
 * `$ne` condition lets through is.
 */
module MongoQuery {
  import opened Wrappers
  import opened Http

  datatype Directive =
    | Find(criteria: map<string, QVal>)   // .find(criteria) with criteria parsed from a query string
    | FindNe(path: string, value: Value)  // .find({ path: { $ne: value } })
    | Sort(spec: string)                  // .sort(spec)
    | Select(fields: seq<string>)         // .select({ f1: 1, f2: 1, ... })
    | Skip(count: int)                    // .skip(count)
    | Limit(count: int)                   // .limit(count)
    | Populate(path: string)              // .populate({ path })

  type Query = seq<Directive>

  /** `{ path: { $ne: v } }` matches a document whose field is absent or holds another value. */
  predicate NeMatches(field: Option<Value>, v: Value) {
    field != Some(v)
  }

  /**
   * Whether a document, given by the value it holds at each path, passes every `$ne` condition
   * the query carries. Other criteria are not part of this predicate.
   */
  predicate NeAdmits(q: Query, field: string -> Option<Value>) {
    forall i :: 0 <= i < |q| && q[i].FindNe? ==> NeMatches(field(q[i].path), q[i].value)
  }

  /** Adding a `$ne` condition admits exactly the documents the query admitted that also pass it. */
  lemma NeAdmitsAppend(q: Query, path: string, v: Value, field: string -> Option<Value>)
    ensures NeAdmits(q + [FindNe(path, v)], field) <==> NeAdmits(q, field) && NeMatches(field(path), v)
  {
    var r := q + [FindNe(path, v)];
    assert r[|q|] == FindNe(path, v);
    if NeAdmits(q, field) && NeMatches(field(path), v) {
      forall i | 0 <= i < |r| && r[i].FindNe? ensures NeMatches(field(r[i].path), r[i].value) {
        if i < |q| { assert r[i] == q[i]; }
      }
    }
    if NeAdmits(r, field) {
      forall i | 0 <= i < |q| && q[i].FindNe? ensures NeMatches(field(q[i].path), q[i].value) {
        assert r[i] == q[i];
      }
    }
  }

  /** Whether a `.select(...)` has been applied: Mongoose's `query.selected()`. */
  predicate Selected(q: Query) {
    exists i :: 0 <= i < |q| && q[i].Select?
  }

  /** Whether `path` is among the fields a `.select(...)` asked for. */
  predicate UserSelected(q: Query, path: string) {
    exists i :: 0 <= i < |q| && q[i].Select? && path in q[i].fields
  }
}

/**
 * The query builder: a class holding a Mongoose query and the parsed query string. Each step
 * appends directives to the query and returns the same builder, so the steps can be chained
 * as `features.filter().sort().limit().fields()`.
 */
module ApiFeatures {
  import opened Wrappers
  import opened Text
  import opened Http
  import opened MongoQuery
  import opened AppErrors

  /** The query-string keys that steer the builder and are never filter criteria. */
  const Reserved: set<string> := {"page", "sort", "limit", "fields"}

  /** The comparison operators written as bare words in a query string. */
  const OperatorWords: set<string> := {"gte", "gt", "lte", "lt"}

  /** A word character of a regular expression's `\b`: ASCII letters, digits and `_`. */
  predicate IsWordChar(c: char) {
    'a' <= c <= 'z' || 'A' <= c <= 'Z' || '0' <= c <= '9' || c == '_'
  }

  predicate AllWordChars(s: string) { forall i :: 0 <= i < |s| ==> IsWordChar(s[i]) }

  /** The length of the longest prefix of word characters. */
  function WordRunLength(s: string): (n: nat)
    ensures n <= |s| && AllWordChars(s[..n])
    ensures n < |s| ==> !IsWordChar(s[n])
    ensures |s| > 0 && IsWordChar(s[0]) ==> n >= 1
  {
    if s == [] || !IsWordChar(s[0]) then 0
    else
      var n := 1 + WordRunLength(s[1..]);
      assert s[..n] == [s[0]] + s[1..][..n - 1];
      n
  }

  /**
   * `.replace(/\b(gte|gt|lte|lt)\b/g, m => '$' + m)`: every maximal run of word characters
   * that is one of the operator words gets a `$` in front of it.
   */
  function RewriteOperators(s: string): string
    decreases |s|
  {
    if s == [] then []
    else if !IsWordChar(s[0]) then [s[0]] + RewriteOperators(s[1..])
    else
      var n := WordRunLength(s);
      (if s[..n] in OperatorWords then "$" + s[..n] else s[..n]) + RewriteOperators(s[n..])
  }

  /** The inverse of RewriteOperators: drops the `$` in front of every whole operator word. */
  function RestoreOperators(t: string): string
    decreases |t|
  {
    if t == [] then []
    else if t[0] == '$' && t[1..][..WordRunLength(t[1..])] in OperatorWords then
      var n := WordRunLength(t[1..]);
      t[1..1 + n] + RestoreOperators(t[1 + n..])
    else if !IsWordChar(t[0]) then [t[0]] + RestoreOperators(t[1..])
    else
      var n := WordRunLength(t);
      t[..n] + RestoreOperators(t[n..])
  }

  predicate StartsOutsideWord(s: string) { s == [] || !IsWordChar(s[0]) }

  lemma {:induction false} WordRunOfConcat(a: string, u: string)
    requires StartsOutsideWord(u) || WordRunLength(a) < |a|
    ensures WordRunLength(a + u) == WordRunLength(a)
    decreases |a|
  {
    if a != [] && IsWordChar(a[0]) {
      assert (a + u)[1..] == a[1..] + u;
      WordRunOfConcat(a[1..], u);
    } else if a == [] {
      assert a + u == u;
    }
  }

  lemma RewriteKeepsOutsideWord(s: string)
    requires StartsOutsideWord(s)
    ensures StartsOutsideWord(RewriteOperators(s))
  {
  }

  /** The rewritten text never starts with a bare operator word: those always carry their `$`. */
  lemma NoBareOperatorAhead(s: string)
    ensures var u := RewriteOperators(s); u[..WordRunLength(u)] !in OperatorWords
  {
    var u := RewriteOperators(s);
    if s != [] && IsWordChar(s[0]) {
      var m := WordRunLength(s);
      if s[..m] !in OperatorWords {
        RewriteKeepsOutsideWord(s[m..]);
        WordRunOfConcat(s[..m], RewriteOperators(s[m..]));
        WordRunWhole(s[..m]);
        assert u[..WordRunLength(u)] == s[..m];
      }
    }
  }

  lemma RestoreAfterSeparator(s: string)
    requires s != [] && !IsWordChar(s[0])
    requires RestoreOperators(RewriteOperators(s[1..])) == s[1..]
    ensures RestoreOperators(RewriteOperators(s)) == s
  {
    var t := RewriteOperators(s);
    var u := RewriteOperators(s[1..]);
    assert t == [s[0]] + u;
    assert t[1..] == u;
    NoBareOperatorAhead(s[1..]);
  }

  lemma WordRunWhole(w: string)
    requires AllWordChars(w)
    ensures WordRunLength(w) == |w|
  {
    WordRunOfConcat(w, []);
    assert w + [] == w;
  }

  lemma RestoreAtMarker(t: string)
    requires t != [] && t[0] == '$' && t[1..][..WordRunLength(t[1..])] in OperatorWords
    ensures RestoreOperators(t) == t[1..1 + WordRunLength(t[1..])] + RestoreOperators(t[1 + WordRunLength(t[1..])..])
  {
  }

  lemma RestoreMarkedOperator(w: string, rr: string)
    requires AllWordChars(w) && w in OperatorWords && StartsOutsideWord(rr)
    ensures RestoreOperators("$" + w + rr) == w + RestoreOperators(rr)
  {
    var t, n := "$" + w + rr, |w|;
    WordRunWhole(w);
    WordRunOfConcat(w, rr);
    assert t[0] == '$' && t[1..] == w + rr;
    assert WordRunLength(t[1..]) == n;
    assert t[1..][..n] == w;
    RestoreAtMarker(t);
    assert t[1..1 + n] == w && t[1 + n..] == rr;
  }

  lemma RestoreBareWord(w: string, rr: string)
    requires |w| > 0 && AllWordChars(w) && w !in OperatorWords && StartsOutsideWord(rr)
    ensures RestoreOperators(w + rr) == w + RestoreOperators(rr)
  {
    var t := w + rr;
    WordRunWhole(w);
    WordRunOfConcat(w, rr);
    assert t[..|w|] == w && t[|w|..] == rr;
  }

  lemma RestoreMarkedWord(w: string, rr: string)
    requires |w| > 0 && AllWordChars(w) && StartsOutsideWord(rr)
    ensures RestoreOperators(MarkWord(w) + rr) == w + RestoreOperators(rr)
  {
    if w in OperatorWords {
      RestoreMarkedOperator(w, rr);
    } else {
      RestoreBareWord(w, rr);
    }
  }

  lemma RestoreAfterWord(s: string)
    requires s != [] && IsWordChar(s[0])
    requires RestoreOperators(RewriteOperators(s[WordRunLength(s)..])) == s[WordRunLength(s)..]
    ensures RestoreOperators(RewriteOperators(s)) == s
  {
    var n := WordRunLength(s);
    var w, rest := s[..n], s[n..];
    var rr := RewriteOperators(rest);
    assert RewriteOperators(s) == MarkWord(w) + rr by { RewriteAtWord(s); }
    assert RestoreOperators(MarkWord(w) + rr) == w + rest by {
      RewriteKeepsOutsideWord(rest);
      RestoreMarkedWord(w, rr);
    }
    TakeDrop(s, n);
  }

  /** Restoring after rewriting gives the original text back: the rewrite loses nothing. */
  lemma {:induction false} RestoreRewrite(s: string)
    ensures RestoreOperators(RewriteOperators(s)) == s
    decreases |s|
  {
    if s == [] {
    } else if !IsWordChar(s[0]) {
      RestoreRewrite(s[1..]);
      RestoreAfterSeparator(s);
    } else {
      RestoreRewrite(s[WordRunLength(s)..]);
      RestoreAfterWord(s);
    }
  }

  /** Distinct keys stay distinct after the rewrite. */
  lemma RewriteInjective()
    ensures forall a, b :: RewriteOperators(a) == RewriteOperators(b) ==> a == b
  {
    forall a, b | RewriteOperators(a) == RewriteOperators(b) ensures a == b {
      RestoreRewrite(a);
      RestoreRewrite(b);
    }
  }

  /** The operator word or other word that a run of word characters becomes. */
  function MarkWord(w: string): string {
    if w in OperatorWords then "$" + w else w
  }

  lemma RewriteAtWord(s: string)
    requires s != [] && IsWordChar(s[0])
    ensures RewriteOperators(s) == MarkWord(s[..WordRunLength(s)]) + RewriteOperators(s[WordRunLength(s)..])
  {
  }

  lemma RewriteAtSeparator(s: string)
    requires s != [] && !IsWordChar(s[0])
    ensures RewriteOperators(s) == [s[0]] + RewriteOperators(s[1..])
  {
  }

  /** A leading word that ends inside `a` is rewritten the same way when more text follows. */
  lemma RewriteWordThen(a: string, u: string)
    requires a != [] && IsWordChar(a[0]) && StartsOutsideWord(u)
    ensures RewriteOperators(a + u) == MarkWord(a[..WordRunLength(a)]) + RewriteOperators(a[WordRunLength(a)..] + u)
  {
    var m := WordRunLength(a);
    WordRunOfConcat(a, u);
    assert (a + u)[..m] == a[..m];
    assert (a + u)[m..] == a[m..] + u;
    RewriteAtWord(a + u);
  }

  lemma ConcatAfterSeparator(a: string, u: string)
    requires a != [] && !IsWordChar(a[0])
    requires RewriteOperators(a[1..] + u) == RewriteOperators(a[1..]) + RewriteOperators(u)
    ensures RewriteOperators(a + u) == RewriteOperators(a) + RewriteOperators(u)
  {
    assert (a + u)[1..] == a[1..] + u;
    RewriteAtSeparator(a + u);
    RewriteAtSeparator(a);
  }

  lemma ConcatAfterWord(a: string, u: string)
    requires a != [] && IsWordChar(a[0]) && StartsOutsideWord(u)
    requires RewriteOperators(a[WordRunLength(a)..] + u) == RewriteOperators(a[WordRunLength(a)..]) + RewriteOperators(u)
    ensures RewriteOperators(a + u) == RewriteOperators(a) + RewriteOperators(u)
  {
    var m := WordRunLength(a);
    var w, x, y := MarkWord(a[..m]), RewriteOperators(a[m..]), RewriteOperators(u);
    var r := RewriteOperators(a + u);
    assert r == w + (x + y) by { RewriteWordThen(a, u); }
    assert RewriteOperators(a) == w + x by { RewriteAtWord(a); }
    AppendAssociative(w, x, y);
  }

  lemma TakeDrop(s: string, n: nat)
    requires n <= |s|
    ensures s[..n] + s[n..] == s
  {
  }

  lemma AppendAssociative(w: string, x: string, y: string)
    ensures w + (x + y) == (w + x) + y
  {
  }

  /** Text that starts outside a word is rewritten independently of what comes before it. */
  lemma {:induction false} RewriteConcat(a: string, u: string)
    requires StartsOutsideWord(u)
    ensures RewriteOperators(a + u) == RewriteOperators(a) + RewriteOperators(u)
    decreases |a|
  {
    if a == [] {
      assert a + u == u;
    } else if !IsWordChar(a[0]) {
      RewriteConcat(a[1..], u);
      ConcatAfterSeparator(a, u);
    } else {
      RewriteConcat(a[WordRunLength(a)..], u);
      ConcatAfterWord(a, u);
    }
  }

  /** A non-word character separates: the rewrite acts on each side independently. */
  lemma RewriteAroundSeparator(a: string, c: char, b: string)
    requires !IsWordChar(c)
    ensures RewriteOperators(a + [c] + b) == RewriteOperators(a) + [c] + RewriteOperators(b)
  {
    var u := [c] + b;
    assert a + [c] + b == a + u;
    RewriteConcat(a, u);
    RewriteAtSeparator(u);
    assert u[1..] == b;
  }

  /** A whole word gains one `$` exactly when it is an operator word, and is otherwise unchanged. */
  lemma RewriteWholeWord(w: string)
    requires |w| > 0 && AllWordChars(w)
    ensures RewriteOperators(w) == if w in OperatorWords then "$" + w else w
  {
    WordRunWhole(w);
    assert w[..|w|] == w;
  }

  /** The criteria value after the JSON round trip: every key and every text rewritten. */
  function RewriteValue(v: QVal): QVal {
    match v
    case Param(t) => Param(RewriteOperators(t))
    case Nested(ops) =>
      RewriteInjective();
      Nested(map k | k in ops :: RewriteOperators(k) := RewriteOperators(ops[k]))
  }

  /** `JSON.parse(JSON.stringify(obj).replace(...))` on the query object. */
  function RewriteObject(m: map<string, QVal>): (r: map<string, QVal>)
    ensures forall k :: k in m ==> RewriteOperators(k) in r && r[RewriteOperators(k)] == RewriteValue(m[k])
    ensures forall k' :: k' in r ==> exists k :: k in m && k' == RewriteOperators(k)
  {
    RewriteInjective();
    map k | k in m :: RewriteOperators(k) := RewriteValue(m[k])
  }

  /** The criteria `filter()` passes to `.find`. */
  function FilterCriteria(qs: map<string, QVal>): map<string, QVal> {
    RewriteObject(qs - Reserved)
  }

  /**
   * Exactly the non-reserved parameters reach the criteria, under their rewritten names and with
   * rewritten values; the reserved names themselves are never criteria.
   */
  lemma FilterCriteriaKeys(qs: map<string, QVal>)
    ensures forall k :: k in qs ==> (RewriteOperators(k) in FilterCriteria(qs) <==> k !in Reserved)
    ensures forall k :: k in qs && k !in Reserved ==> FilterCriteria(qs)[RewriteOperators(k)] == RewriteValue(qs[k])
    ensures forall k :: k in Reserved ==> k !in FilterCriteria(qs)
  {
    RewriteInjective();
    ReservedUnchanged();
  }

  lemma ReservedArePlainWords()
    ensures forall k :: k in Reserved ==> |k| > 0 && AllWordChars(k) && k !in OperatorWords
  {
  }

  /** The reserved names are plain words, none of them an operator. */
  lemma ReservedUnchanged()
    ensures forall k :: k in Reserved ==> RewriteOperators(k) == k
  {
    forall k | k in Reserved ensures RewriteOperators(k) == k {
      assert |k| > 0 && AllWordChars(k) && k !in OperatorWords by { ReservedArePlainWords(); }
      RewriteWholeWord(k);
    }
  }

  /** The distinct elements in order of first occurrence: the keys of an object filled in that order. */
  function Dedup(s: seq<string>): (d: seq<string>)
    ensures forall x :: x in d <==> x in s
    ensures forall i, j :: 0 <= i < j < |d| ==> d[i] != d[j]
    decreases |s|
  {
    if s == [] then []
    else
      var p := Dedup(s[..|s| - 1]);
      assert forall x :: x in s <==> x in s[..|s| - 1] || x == s[|s| - 1];
      if s[|s| - 1] in p then p else p + [s[|s| - 1]]
  }

  function FirstIndex(s: seq<string>, x: string): (i: nat)
    requires x in s
    ensures i < |s| && s[i] == x && x !in s[..i]
  {
    if s[0] == x then 0
    else
      var i := 1 + FirstIndex(s[1..], x);
      assert s[..i] == [s[0]] + s[1..][..i - 1];
      i
  }

  lemma FirstIndexOfPrefix(s: seq<string>, x: string, n: nat)
    requires n <= |s| && x in s[..n]
    ensures FirstIndex(s, x) == FirstIndex(s[..n], x)
  {
    var j := FirstIndex(s[..n], x);
    assert s[..n][..j] == s[..j];
  }

  /** The distinct names come in the order in which each first occurs. */
  lemma {:induction false} DedupFirstOccurrenceOrder(s: seq<string>)
    ensures forall i, j :: 0 <= i < j < |Dedup(s)| ==> FirstIndex(s, Dedup(s)[i]) < FirstIndex(s, Dedup(s)[j])
    decreases |s|
  {
    if s != [] {
      var init := s[..|s| - 1];
      var p := Dedup(init);
      DedupFirstOccurrenceOrder(init);
      forall x | x in p ensures FirstIndex(s, x) == FirstIndex(init, x) {
        FirstIndexOfPrefix(s, x, |s| - 1);
      }
      var last := s[|s| - 1];
      if last !in p {
        assert last !in init;
        assert FirstIndex(s, last) == |s| - 1;
      }
    }
  }

  /** `param * 1` for a query parameter; None stands for NaN (an absent or nested parameter too). */
  function ParamNumber(qs: map<string, QVal>, key: string): Option<int> {
    if key in qs && qs[key].Param? then ToNumber(qs[key].text) else None
  }

  /** `param * 1 || fallback`. */
  function NumberOr(qs: map<string, QVal>, key: string, fallback: int): int {
    match ParamNumber(qs, key)
    case Some(n) => if n != 0 then n else fallback
    case None => fallback
  }

  function PageOf(qs: map<string, QVal>): int { NumberOr(qs, "page", 1) }
  function LimitOf(qs: map<string, QVal>): int { NumberOr(qs, "limit", 100) }
  function SkipOf(qs: map<string, QVal>): int { (PageOf(qs) - 1) * LimitOf(qs) }

  /**
   * Pagination: 0 and NaN fall back to page 1 and limit 100, any other number (negatives
   * included) is used as it is; page 1 skips nothing, for a positive page and limit the skip
   * is a non-negative whole number of pages, and page p ends where page p + 1 starts.
   */
  lemma Pagination(qs: map<string, QVal>)
    ensures ParamNumber(qs, "page") in {None, Some(0)} ==> PageOf(qs) == 1
    ensures ParamNumber(qs, "limit") in {None, Some(0)} ==> LimitOf(qs) == 100
    ensures forall n :: ParamNumber(qs, "page") == Some(n) && n != 0 ==> PageOf(qs) == n
    ensures forall n :: ParamNumber(qs, "limit") == Some(n) && n != 0 ==> LimitOf(qs) == n
    ensures PageOf(qs) != 0 && LimitOf(qs) != 0
    ensures PageOf(qs) == 1 ==> SkipOf(qs) == 0
    ensures PageOf(qs) >= 1 && LimitOf(qs) >= 1 ==> SkipOf(qs) >= 0 && SkipOf(qs) % LimitOf(qs) == 0
    ensures SkipOf(qs) + LimitOf(qs) == PageOf(qs) * LimitOf(qs)
  {
    PagesAdjoin(PageOf(qs), LimitOf(qs));
    if LimitOf(qs) >= 1 {
      MultipleModulus(PageOf(qs) - 1, LimitOf(qs));
    }
  }

  lemma MultipleModulus(k: int, l: int)
    requires l >= 1
    ensures (k * l) % l == 0
  {
    var x := k * l;
    var q, r := x / l, x % l;
    assert x == l * q + r && 0 <= r < l;
    var d := k - q;
    assert l * d == r;
    if d >= 1 {
      assert false;
    } else if d <= -1 {
      assert false;
    }
    assert d == 0;
  }

  lemma PagesAdjoin(p: int, l: int)
    ensures (p - 1) * l + l == p * l
    ensures p >= 1 && l >= 1 ==> (p - 1) * l >= 0
  {
    assert (p - 1) * l == p * l - l;
    if p >= 1 && l >= 1 {
      var k: nat := p - 1;
      assert k * l >= 0;
    }
  }

  /** A step either returns the builder or throws (a nested `sort` or `fields` has no `split`). */
  datatype StepResult = Returned(builder: APIFeatures) | Threw(error: ErrorValue)

  const DefaultSort := "-createdAt"

  class APIFeatures {
    var query: Query
    var queryStringObj: map<string, QVal>
    var selectedFields: seq<string>

    constructor (query: Query, queryStringObj: map<string, QVal>)
      ensures this.query == query && this.queryStringObj == queryStringObj && selectedFields == []
    {
      this.query := query;
      this.queryStringObj := queryStringObj;
      selectedFields := [];
    }

    /** Drops the reserved keys from a copy, rewrites the operators and adds the criteria. */
    method Filter() returns (self: APIFeatures)
      modifies this
      ensures self == this
      ensures queryStringObj == old(queryStringObj) && selectedFields == old(selectedFields)
      ensures query == old(query) + [Find(FilterCriteria(queryStringObj))]
    {
      var queryObj := queryStringObj;
      var excludedFields := ["page", "sort", "limit", "fields"];
      var i := 0;
      while i < |excludedFields|
        invariant 0 <= i <= |excludedFields|
        invariant queryObj == queryStringObj - set j | 0 <= j < i :: excludedFields[j]
      {
        queryObj := queryObj - {excludedFields[i]};
        i := i + 1;
      }
      assert (set j | 0 <= j < |excludedFields| :: excludedFields[j]) == Reserved by {
        assert excludedFields[0] == "page" && excludedFields[1] == "sort";
        assert excludedFields[2] == "limit" && excludedFields[3] == "fields";
      }
      query := query + [Find(RewriteObject(queryObj))];
      self := this;
    }

    /** Adds the sort with commas turned into spaces, or the newest-first default. */
    method Sort(trace: string) returns (r: StepResult)
      modifies this
      ensures queryStringObj == old(queryStringObj) && selectedFields == old(selectedFields)
      ensures "sort" in queryStringObj && queryStringObj["sort"].Nested? ==>
        r.Threw? && r.error.name == "TypeError" && query == old(query)
      ensures !("sort" in queryStringObj && queryStringObj["sort"].Nested?) ==> r == Returned(this)
      ensures "sort" in queryStringObj && queryStringObj["sort"].Param? && queryStringObj["sort"].text != "" ==>
        query == old(query) + [MongoQuery.Sort(ReplaceChar(queryStringObj["sort"].text, ',', ' '))]
      ensures "sort" !in queryStringObj || queryStringObj["sort"] == Param("") ==>
        query == old(query) + [MongoQuery.Sort(DefaultSort)]
    {
      if "sort" in queryStringObj && queryStringObj["sort"].Truthy() {
        var param := queryStringObj["sort"];
        if param.Nested? {
          return Threw(LibraryError("TypeError", "this.queryStringObj.sort.split is not a function", trace));
        }
        var sortStr := Join(Split(param.text, ','), " ");
        JoinSplitIsReplace(param.text, ',', ' ');
        query := query + [MongoQuery.Sort(sortStr)];
      } else {
        query := query + [MongoQuery.Sort(DefaultSort)];
      }
      r := Returned(this);
    }

    /** Projects onto the distinct requested fields and records them in `selectedFields`. */
    method Fields(trace: string) returns (r: StepResult)
      modifies this
      ensures queryStringObj == old(queryStringObj)
      ensures "fields" in queryStringObj && queryStringObj["fields"].Nested? ==>
        r.Threw? && r.error.name == "TypeError" && query == old(query) && selectedFields == old(selectedFields)
      ensures !("fields" in queryStringObj && queryStringObj["fields"].Nested?) ==> r == Returned(this)
      ensures "fields" in queryStringObj && queryStringObj["fields"].Param? && queryStringObj["fields"].text != "" ==>
        selectedFields == Dedup(Split(queryStringObj["fields"].text, ',')) &&
        query == old(query) + [Select(selectedFields)]
      ensures "fields" !in queryStringObj || queryStringObj["fields"] == Param("") ==>
        query == old(query) && selectedFields == old(selectedFields)
    {
      if "fields" in queryStringObj && queryStringObj["fields"].Truthy() {
        var param := queryStringObj["fields"];
        if param.Nested? {
          return Threw(LibraryError("TypeError", "this.queryStringObj.fields.split is not a function", trace));
        }
        var parts := Split(param.text, ',');
        var infields: seq<string> := [];
        var i := 0;
        while i < |parts|
          invariant 0 <= i <= |parts|
          invariant infields == Dedup(parts[..i])
        {
          assert parts[..i + 1][..i] == parts[..i];
          if parts[i] !in infields {
            infields := infields + [parts[i]];
          }
          i := i + 1;
        }
        assert parts[..|parts|] == parts;
        selectedFields := infields;
        query := query + [Select(infields)];
      }
      r := Returned(this);
    }

    /** Adds the skip and the limit computed from `page` and `limit`. */
    method Limit() returns (self: APIFeatures)
      modifies this
      ensures self == this
      ensures queryStringObj == old(queryStringObj) && selectedFields == old(selectedFields)
      ensures query == old(query) + [Skip(SkipOf(queryStringObj)), MongoQuery.Limit(LimitOf(queryStringObj))]
    {
      var page := if ParamNumber(queryStringObj, "page").Some? && ParamNumber(queryStringObj, "page").value != 0
        then ParamNumber(queryStringObj, "page").value else 1;
      var limit := if ParamNumber(queryStringObj, "limit").Some? && ParamNumber(queryStringObj, "limit").value != 0
        then ParamNumber(queryStringObj, "limit").value else 100;
      var skip := (page - 1) * limit;
      query := query + [Skip(skip), MongoQuery.Limit(limit)];
      self := this;
    }
  }
}

/**
 Listing queries (pykube/query.py): rendering a label selector to the
 Kubernetes selector syntax, the namespace/selector state a query carries,
 and the request its first iteration sends.
 */
module Query {
  import opened Errors
  import opened Json
  import Http
  import Objects

  /** `str.split("__")`: split at each leftmost, non-overlapping `__`. */
  function SplitDunder(s: string): (r: seq<string>)
    ensures |r| >= 1
    ensures Join(r, "__") == s
    ensures forall i :: 0 <= i < |r| ==> NoDunder(r[i])
    decreases |s|
  {
    if |s| < 2 then [s]
    else if s[0] == '_' && s[1] == '_' then
      var rest := SplitDunder(s[2..]);
      assert Join([""] + rest, "__") == "__" + Join(rest, "__");
      assert "__" + s[2..] == s;
      assert NoDunder("");
      [""] + rest
    else
      var rest := SplitDunder(s[1..]);
      JoinFirst(rest, "__");
      assert |rest[0]| > 0 ==> rest[0][0] == s[1];
      NoDunderCons(s[0], rest[0]);
      ExtendFirst(s[0], rest, "__");
      assert [s[0]] + s[1..] == s;
      [[s[0]] + rest[0]] + rest[1..]
  }

  /** The first piece starts the join. */
  lemma JoinFirst(xs: seq<string>, sep: string)
    requires |xs| >= 1
    ensures |xs[0]| <= |Join(xs, sep)| && Join(xs, sep)[..|xs[0]|] == xs[0]
  {
  }

  /** Growing the first piece grows the join at its front. */
  lemma ExtendFirst(c: char, xs: seq<string>, sep: string)
    requires |xs| >= 1
    ensures Join([[c] + xs[0]] + xs[1..], sep) == [c] + Join(xs, sep)
  {
    if |xs| >= 2 {
      assert ([[c] + xs[0]] + xs[1..])[1..] == xs[1..];
    }
  }

  /** A character in front of a piece without `__` adds none unless both are `_`. */
  lemma NoDunderCons(c: char, t: string)
    requires NoDunder(t)
    requires |t| > 0 ==> !(c == '_' && t[0] == '_')
    ensures NoDunder([c] + t)
  {
    var u := [c] + t;
    forall i | 0 <= i < |u| - 1
      ensures !(u[i] == '_' && u[i + 1] == '_')
    {
      if i > 0 {
        assert u[i] == t[i - 1] && u[i + 1] == t[i];
      }
    }
  }

  /** `s` has no `__` in it. */
  predicate NoDunder(s: string) {
    forall i :: 0 <= i < |s| - 1 ==> !(s[i] == '_' && s[i + 1] == '_')
  }

  lemma {:induction false} SplitWithoutDunder(s: string)
    requires NoDunder(s)
    ensures SplitDunder(s) == [s]
    decreases |s|
  {
    if |s| >= 2 {
      assert NoDunder(s[1..]) by {
        forall i | 0 <= i < |s[1..]| - 1
          ensures !(s[1..][i] == '_' && s[1..][i + 1] == '_')
        {
          assert s[1..][i] == s[i + 1] && s[1..][i + 1] == s[i + 2];
        }
      }
      SplitWithoutDunder(s[1..]);
      assert !(s[0] == '_' && s[1] == '_');
      assert [s[0]] + s[1..] == s;
    }
  }

  /**
   `key + "__" + op` splits back into `[key, op]` when neither part holds
   `__` and the key does not end in `_` (which would move the split left).
   */
  lemma {:induction false} SplitOperatorKey(key: string, op: string)
    requires NoDunder(key) && NoDunder(op)
    requires |key| == 0 || key[|key| - 1] != '_'
    ensures SplitDunder(key + "__" + op) == [key, op]
  {
    SplitPrefix(key, op);
    SplitWithoutDunder(op);
  }

  /** Splitting `key + "__" + rest` takes `key` off the front. */
  lemma {:induction false} SplitPrefix(key: string, rest: string)
    requires NoDunder(key) && (|key| == 0 || key[|key| - 1] != '_')
    ensures SplitDunder(key + "__" + rest) == [key] + SplitDunder(rest)
    decreases |key|
  {
    var s := key + "__" + rest;
    if |key| == 0 {
      assert s[2..] == rest;
    } else {
      assert s[1..] == key[1..] + "__" + rest;
      assert NoDunder(key[1..]) by {
        forall i | 0 <= i < |key[1..]| - 1
          ensures !(key[1..][i] == '_' && key[1..][i + 1] == '_')
        {
          assert key[1..][i] == key[i + 1] && key[1..][i + 1] == key[i + 2];
        }
      }
      SplitPrefix(key[1..], rest);
      var tail := SplitDunder(s[1..]);
      assert tail == [key[1..]] + SplitDunder(rest);
      if |key| == 1 {
        assert s[1] == '_' && s[0] != '_';
      } else {
        assert s[0] == key[0] && s[1] == key[1];
      }
      assert SplitDunder(s) == [[s[0]] + tail[0]] + tail[1..];
      assert [s[0]] + key[1..] == key;
    }
  }

  /** A selector argument: a ready-made string, or a mapping in insertion order. */
  datatype Selector = SelectorString(s: string) | SelectorMap(entries: seq<(string, Json)>)

  /** `",".join(v)` for an `in`/`notin` value: the strings of a list, or the characters of a string. */
  function JoinValues(v: Json): (r: Result<string>)
    ensures r.Ok? <==> v.JStr? || (v.JList? && forall i :: 0 <= i < |v.items| ==> v.items[i].JStr?)
    ensures r.Err? ==> r.error.TypeError?
    ensures v.JStr? ==> r == Ok(Join(Chars(v.s), ","))
    ensures v.JList? && r.Ok? ==> r == Ok(Join(Texts(v.items), ","))
  {
    match v
    case JStr(s) =>
      JoinCharsIsJoin(s);
      Ok(JoinChars(s))
    case JList(xs) =>
      if forall i :: 0 <= i < |xs| ==> xs[i].JStr? then
        JoinStrsIsJoin(xs, ",");
        Ok(JoinStrs(xs, ","))
      else Err(TypeError("sequence item: expected str instance"))
    case _ => Err(TypeError("can only join an iterable of strings"))
  }

  function JoinChars(s: string): string {
    if |s| <= 1 then s else [s[0]] + "," + JoinChars(s[1..])
  }

  function JoinStrs(xs: seq<Json>, sep: string): string
    requires forall i :: 0 <= i < |xs| ==> xs[i].JStr?
  {
    if |xs| == 0 then ""
    else if |xs| == 1 then xs[0].s
    else xs[0].s + sep + JoinStrs(xs[1..], sep)
  }

  /** Iterating a string yields its characters as one-character strings. */
  function Chars(s: string): (r: seq<string>)
    ensures |r| == |s| && forall i :: 0 <= i < |s| ==> r[i] == [s[i]]
  {
    seq(|s|, i requires 0 <= i < |s| => [s[i]])
  }

  /** The strings of a list of string values. */
  function Texts(xs: seq<Json>): (r: seq<string>)
    requires forall i :: 0 <= i < |xs| ==> xs[i].JStr?
    ensures |r| == |xs| && forall i :: 0 <= i < |xs| ==> JStr(r[i]) == xs[i]
  {
    seq(|xs|, i requires 0 <= i < |xs| => xs[i].s)
  }

  lemma {:induction false} JoinCharsIsJoin(s: string)
    ensures JoinChars(s) == Join(Chars(s), ",")
    decreases |s|
  {
    if |s| > 1 {
      JoinCharsIsJoin(s[1..]);
      assert Chars(s)[1..] == Chars(s[1..]);
    }
  }

  lemma {:induction false} JoinStrsIsJoin(xs: seq<Json>, sep: string)
    requires forall i :: 0 <= i < |xs| ==> xs[i].JStr?
    ensures JoinStrs(xs, sep) == Join(Texts(xs), sep)
    decreases |xs|
  {
    if |xs| > 1 {
      JoinStrsIsJoin(xs[1..], sep);
      assert Texts(xs)[1..] == Texts(xs[1..]);
    }
  }

  function Join(xs: seq<string>, sep: string): string {
    if |xs| == 0 then ""
    else if |xs| == 1 then xs[0]
    else xs[0] + sep + Join(xs[1..], sep)
  }

  /** One `key: value` entry of the mapping, rendered as a selector requirement. */
  function Clause(key: string, v: Json): Result<string> {
    var bits := SplitDunder(key);
    if |bits| > 2 then Err(AssertionError("too many __ in selector"))
    else Requirement(bits[0], if |bits| == 1 then "eq" else bits[1], v)
  }

  /** The requirement for label `name`, operator `op` and value `v`. */
  function Requirement(name: string, op: string, v: Json): (r: Result<string>)
    ensures op !in {"eq", "neq", "in", "notin"} ==> r == Err(ValueError(op + " is not a valid comparsion operator"))
    ensures op in {"eq", "neq"} ==> r.Ok?
    ensures op in {"in", "notin"} ==> (r.Ok? <==> JoinValues(v).Ok?)
    ensures r.Ok? ==> |name| < |r.value| && r.value[..|name|] == name && r.value[|name|] == ' '
  {
    if op == "eq" then Ok(name + " = " + Str(v))
    else if op == "neq" then Ok(name + " != " + Str(v))
    else if op == "in" then
      var vs :- JoinValues(v);
      Ok(name + " in (" + vs + ")")
    else if op == "notin" then
      var vs :- JoinValues(v);
      Ok(name + " notin (" + vs + ")")
    else Err(ValueError(op + " is not a valid comparsion operator"))
  }

  /** The clauses of all entries in order, or the error of the first entry that has none. */
  function Clauses(entries: seq<(string, Json)>): Result<seq<string>>
    decreases |entries|
  {
    if |entries| == 0 then Ok([])
    else
      var c :- Clause(entries[0].0, entries[0].1);
      var rest :- Clauses(entries[1..]);
      Ok([c] + rest)
  }

  /** Every entry of the mapping renders. */
  predicate AllClauses(entries: seq<(string, Json)>) {
    forall i :: 0 <= i < |entries| ==> Clause(entries[i].0, entries[i].1).Ok?
  }

  /** The rendered entries, in mapping order. */
  function ClauseTexts(entries: seq<(string, Json)>): (r: seq<string>)
    requires AllClauses(entries)
    ensures |r| == |entries|
  {
    seq(|entries|, i requires 0 <= i < |entries| => Clause(entries[i].0, entries[i].1).value)
  }

  /**
   `as_selector`: a string is used as is; a mapping renders when every entry
   does, as one clause per entry in mapping order joined by `,`.
   */
  function AsSelector(sel: Selector): (r: Result<string>)
    ensures sel.SelectorString? ==> r == Ok(sel.s)
    ensures sel.SelectorMap? ==> (r.Ok? <==> AllClauses(sel.entries))
    ensures sel.SelectorMap? && r.Ok? ==> r.value == Join(ClauseTexts(sel.entries), ",")
  {
    match sel
    case SelectorString(s) => Ok(s)
    case SelectorMap(entries) =>
      ClausesSpec(entries);
      var clauses :- Clauses(entries);
      assert clauses == ClauseTexts(entries);
      Ok(Join(clauses, ","))
  }

  /** One clause per entry, in mapping order; otherwise the first failing entry decides the error. */
  lemma {:induction false} ClausesSpec(entries: seq<(string, Json)>)
    ensures Clauses(entries).Ok? <==> forall i :: 0 <= i < |entries| ==> Clause(entries[i].0, entries[i].1).Ok?
    ensures Clauses(entries).Ok? ==>
              |Clauses(entries).value| == |entries| &&
              forall i :: 0 <= i < |entries| ==> Clauses(entries).value[i] == Clause(entries[i].0, entries[i].1).value
    ensures Clauses(entries).Err? ==>
              exists i :: 0 <= i < |entries| && Clause(entries[i].0, entries[i].1) == Err(Clauses(entries).error)
                          && forall j :: 0 <= j < i ==> Clause(entries[j].0, entries[j].1).Ok?
    decreases |entries|
  {
    if |entries| > 0 {
      ClausesSpec(entries[1..]);
      var c := Clause(entries[0].0, entries[0].1);
      if c.Ok? {
        if Clauses(entries).Err? {
          var i :| 0 <= i < |entries[1..]| && Clause(entries[1..][i].0, entries[1..][i].1) == Err(Clauses(entries).error)
                   && forall j :: 0 <= j < i ==> Clause(entries[1..][j].0, entries[1..][j].1).Ok?;
          assert forall j :: 0 <= j < i + 1 ==> Clause(entries[j].0, entries[j].1).Ok? by {
            forall j | 0 <= j < i + 1
              ensures Clause(entries[j].0, entries[j].1).Ok?
            {
              if j > 0 {
                assert entries[j] == entries[1..][j - 1];
              }
            }
          }
          assert Clause(entries[i + 1].0, entries[i + 1].1) == Err(Clauses(entries).error);
        }
        if forall i :: 0 <= i < |entries| ==> Clause(entries[i].0, entries[i].1).Ok? {
          assert forall i :: 0 <= i < |entries[1..]| ==> Clause(entries[1..][i].0, entries[1..][i].1).Ok? by {
            forall i | 0 <= i < |entries[1..]|
              ensures Clause(entries[1..][i].0, entries[1..][i].1).Ok?
            {
              assert entries[1..][i] == entries[i + 1];
            }
          }
        }
      }
    }
  }

  /** A plain key `k` renders as `k = v`. */
  lemma EqualityClause(key: string, v: Json)
    requires NoDunder(key)
    ensures Clause(key, v) == Requirement(key, "eq", v) == Ok(key + " = " + Str(v))
  {
    SplitWithoutDunder(key);
  }

  /** `k__op` renders with operator `op` when `k` holds no `__` and does not end in `_`. */
  lemma OperatorClause(key: string, op: string, v: Json)
    requires NoDunder(key) && (|key| == 0 || key[|key| - 1] != '_') && NoDunder(op)
    ensures Clause(key + "__" + op, v) == Requirement(key, op, v)
  {
    SplitOperatorKey(key, op);
  }

  /** The four operators and what they render as. */
  lemma RequirementForms(name: string, v: Json)
    ensures Requirement(name, "neq", v) == Ok(name + " != " + Str(v))
    ensures JoinValues(v).Ok? ==> Requirement(name, "in", v) == Ok(name + " in (" + JoinValues(v).value + ")")
    ensures JoinValues(v).Ok? ==> Requirement(name, "notin", v) == Ok(name + " notin (" + JoinValues(v).value + ")")
    ensures JoinValues(v).Err? ==> Requirement(name, "in", v) == Err(JoinValues(v).error)
    ensures JoinValues(v).Err? ==> Requirement(name, "notin", v) == Err(JoinValues(v).error)
  {
  }

  /** An operator other than the four raises `ValueError`. */
  lemma UnknownOperator(name: string, op: string, v: Json)
    requires op !in {"eq", "neq", "in", "notin"}
    ensures Requirement(name, op, v) == Err(ValueError(op + " is not a valid comparsion operator"))
  {
  }

  /** A key with a second `__` fails the assertion. */
  lemma TooManyDunders(key: string, op: string, more: string, v: Json)
    requires NoDunder(key) && (|key| == 0 || key[|key| - 1] != '_')
    requires NoDunder(op) && (|op| == 0 || op[|op| - 1] != '_')
    ensures Clause(key + "__" + op + "__" + more, v) == Err(AssertionError("too many __ in selector"))
  {
    assert key + "__" + op + "__" + more == key + "__" + (op + "__" + more);
    SplitPrefix(key, op + "__" + more);
    SplitPrefix(op, more);
  }

  /**
   A query: the endpoint, the namespace, and the selector; `None` is the
   library's `everything` marker (no key restriction).
   */
  datatype Query = Query(endpoint: string, namespace: Json, selector: Option<Selector>)

  /** `Query.__init__`: namespace `"default"`, no selector. */
  function NewQuery(endpoint: string): (q: Query)
    ensures q.namespace == JStr("default") && q.selector.None?
  {
    Query(endpoint, JStr("default"), None)
  }

  /**
   `filter`: only the arguments actually given replace the current values;
   a namespace of `None` (`JNull`) and an absent selector leave them alone.
   */
  function Filter(q: Query, namespace: Json, selector: Option<Selector>): (r: Query)
    ensures r.endpoint == q.endpoint
    ensures r.namespace == (if namespace != JNull then namespace else q.namespace)
    ensures r.selector == (if selector.Some? then selector else q.selector)
  {
    Query(q.endpoint,
          if namespace != JNull then namespace else q.namespace,
          if selector.Some? then selector else q.selector)
  }

  /** `filter()` with no arguments changes nothing. */
  lemma FilterNothing(q: Query)
    ensures Filter(q, JNull, None) == q
  {
  }

  /**
   Chained filters compose: the later call's arguments win where given, the
   earlier call's remain where not.
   */
  lemma FilterComposes(q: Query, ns1: Json, sel1: Option<Selector>, ns2: Json, sel2: Option<Selector>)
    ensures Filter(Filter(q, ns1, sel1), ns2, sel2)
            == Filter(q, if ns2 != JNull then ns2 else ns1, if sel2.Some? then sel2 else sel1)
  {
  }

  /** Filtering twice with the same arguments is the same as once. */
  lemma FilterIdempotent(q: Query, namespace: Json, selector: Option<Selector>)
    ensures Filter(Filter(q, namespace, selector), namespace, selector) == Filter(q, namespace, selector)
  {
  }

  /** The characters `quote_plus` leaves alone. */
  predicate Unreserved(c: char) {
    ('a' <= c <= 'z') || ('A' <= c <= 'Z') || ('0' <= c <= '9') || c in {'_', '.', '-', '~'}
  }

  /** The UTF-8 encoding of one character. */
  function Utf8(c: char): (r: seq<nat>)
    ensures 1 <= |r| <= 4 && forall i :: 0 <= i < |r| ==> r[i] < 256
    ensures c as int < 0x80 ==> r == [c as int]
  {
    var n := c as int;
    if n < 0x80 then [n]
    else if n < 0x800 then [0xC0 + n / 64, 0x80 + n % 64]
    else if n < 0x10000 then [0xE0 + n / 4096, 0x80 + (n / 64) % 64, 0x80 + n % 64]
    else [0xF0 + n / 262144, 0x80 + (n / 4096) % 64, 0x80 + (n / 64) % 64, 0x80 + n % 64]
  }

  function HexDigit(d: nat): (c: char)
    requires d < 16
    ensures Unreserved(c)
  {
    "0123456789ABCDEF"[d]
  }

  function PercentBytes(bs: seq<nat>): (r: string)
    requires forall i :: 0 <= i < |bs| ==> bs[i] < 256
    ensures |r| == 3 * |bs|
    ensures forall i :: 0 <= i < |r| ==> Unreserved(r[i]) || r[i] == '%'
  {
    if |bs| == 0 then ""
    else ['%', HexDigit(bs[0] / 16), HexDigit(bs[0] % 16)] + PercentBytes(bs[1..])
  }

  /** `quote_plus(s, safe="")`: unreserved characters stay, space becomes `+`, the rest is `%XX` per UTF-8 byte. */
  function QuotePlus(s: string): (r: string)
    ensures forall i :: 0 <= i < |r| ==> Unreserved(r[i]) || r[i] == '+' || r[i] == '%'
    ensures |s| <= |r|
    ensures (forall i :: 0 <= i < |s| ==> Unreserved(s[i])) ==> r == s
  {
    if |s| == 0 then ""
    else
      var c := s[0];
      var head := if Unreserved(c) then [c] else if c == ' ' then "+" else PercentBytes(Utf8(c));
      head + QuotePlus(s[1..])
  }

  function HexValue(c: char): nat {
    if '0' <= c <= '9' then c as int - '0' as int
    else if 'A' <= c <= 'F' then c as int - 'A' as int + 10
    else if 'a' <= c <= 'f' then c as int - 'a' as int + 10
    else 0
  }

  /** `unquote_plus` restricted to ASCII: `+` is a space, `%XX` the character with that code. */
  function UnquotePlusAscii(t: string): string
    decreases |t|
  {
    if |t| == 0 then ""
    else if t[0] == '+' then " " + UnquotePlusAscii(t[1..])
    else if t[0] == '%' && |t| >= 3 then [(16 * HexValue(t[1]) + HexValue(t[2])) as char] + UnquotePlusAscii(t[3..])
    else [t[0]] + UnquotePlusAscii(t[1..])
  }

  lemma HexRoundTrip(d: nat)
    requires d < 16
    ensures HexValue(HexDigit(d)) == d
  {
    var digits := "0123456789ABCDEF";
    assert digits[d] == HexDigit(d);
    if d < 10 {
      assert digits[d] as int == '0' as int + d by {
        assert digits == ['0', '1', '2', '3', '4', '5', '6', '7', '8', '9', 'A', 'B', 'C', 'D', 'E', 'F'];
      }
    } else {
      assert digits[d] as int == 'A' as int + d - 10 by {
        assert digits == ['0', '1', '2', '3', '4', '5', '6', '7', '8', '9', 'A', 'B', 'C', 'D', 'E', 'F'];
      }
    }
  }

  /** For ASCII text, decoding undoes `quote_plus`: the selector reaches the server unchanged. */
  lemma {:induction false} QuotePlusRoundTrip(s: string)
    requires forall i :: 0 <= i < |s| ==> s[i] as int < 0x80
    ensures UnquotePlusAscii(QuotePlus(s)) == s
    decreases |s|
  {
    if |s| > 0 {
      var c := s[0];
      var rest := QuotePlus(s[1..]);
      QuotePlusRoundTrip(s[1..]);
      if Unreserved(c) {
        assert QuotePlus(s) == [c] + rest;
        assert c != '+' && c != '%';
        assert (([c] + rest)[1..]) == rest;
      } else if c == ' ' {
        assert QuotePlus(s) == "+" + rest;
        assert ("+" + rest)[1..] == rest;
      } else {
        var n := c as int;
        HexRoundTrip(n / 16);
        HexRoundTrip(n % 16);
        var enc := ['%', HexDigit(n / 16), HexDigit(n % 16)];
        assert PercentBytes(Utf8(c)) == enc;
        assert QuotePlus(s) == enc + rest;
        assert (enc + rest)[3..] == rest;
        assert (16 * HexValue(enc[1]) + HexValue(enc[2])) == n;
      }
      assert s == [s[0]] + s[1..];
    }
  }

  /** `urlencode(params)` for the one parameter the library sends. */
  function UrlEncodeLabelSelector(value: string): (r: string)
    ensures |r| >= 14 && r[..14] == "labelSelector="
    ensures (forall i :: 0 <= i < |value| ==> value[i] as int < 0x80) ==> UnquotePlusAscii(r[14..]) == value
  {
    var r := "labelSelector=" + QuotePlus(value);
    assert r[14..] == QuotePlus(value);
    if forall i :: 0 <= i < |value| ==> value[i] as int < 0x80 then
      QuotePlusRoundTrip(value);
      r
    else r
  }

  /** The URL and namespace the query's GET carries, before `get_kwargs` runs. */
  datatype ListRequest = ListRequest(url: string, namespace: Json)

  /**
   The request `query_cache` sends: `labelSelector` is added exactly when a
   selector was set, and then the URL gains a query string.
   */
  function QueryRequest(q: Query): (r: Result<ListRequest>)
    ensures q.selector.None? ==> r == Ok(ListRequest(q.endpoint, q.namespace))
    ensures q.selector.Some? && AsSelector(q.selector.value).Ok? ==>
              r == Ok(ListRequest(q.endpoint + "?" + UrlEncodeLabelSelector(AsSelector(q.selector.value).value), q.namespace))
    ensures q.selector.Some? && AsSelector(q.selector.value).Err? ==> r.Err?
  {
    if q.selector.None? then Ok(ListRequest(q.endpoint, q.namespace))
    else
      var sel :- AsSelector(q.selector.value);
      Ok(ListRequest(q.endpoint + "?" + UrlEncodeLabelSelector(sel), q.namespace))
  }

  /**
   `query_cache` after the GET: the response must not be an error, and each
   item of its `items` list becomes an object of the query's class. Items
   that are not JSON objects are rejected here.
   */
  function QueryResults(kind: Objects.Kind, resp: Objects.Response): (r: Result<seq<Objects.ApiObject>>)
    ensures Http.IsErrorStatus(resp.status) ==> r == Err(HTTPError(resp.status))
    ensures !Http.IsErrorStatus(resp.status) && "items" !in resp.body ==> r == Err(KeyError("items"))
    ensures r.Ok? ==> "items" in resp.body && (resp.body["items"].JList? || r.value == [])
    ensures r.Ok? && resp.body["items"].JList? ==>
              |r.value| == |resp.body["items"].items| &&
              forall i :: 0 <= i < |r.value| ==>
                resp.body["items"].items[i] == JObj(r.value[i].obj) && r.value[i] == Objects.SetObj(kind, r.value[i].obj)
  {
    var _ :- Http.RaiseForStatus(resp.status);
    var items :- Get(JObj(resp.body), "items");
    if items.JList? then ToObjects(kind, items.items)
    else
      var xs :- Members(items);
      if |xs| == 0 then Ok([]) else Err(TypeError("item is not a JSON object"))
  }

  function ToObjects(kind: Objects.Kind, xs: seq<Json>): (r: Result<seq<Objects.ApiObject>>)
    ensures r.Ok? ==> |r.value| == |xs|
    ensures r.Ok? ==> forall i :: 0 <= i < |xs| ==> xs[i] == JObj(r.value[i].obj) && r.value[i] == Objects.SetObj(kind, r.value[i].obj)
  {
    if |xs| == 0 then Ok([])
    else if !xs[0].JObj? then Err(TypeError("item is not a JSON object"))
    else
      var rest :- ToObjects(kind, xs[1..]);
      Ok([Objects.SetObj(kind, xs[0].fields)] + rest)
  }
}

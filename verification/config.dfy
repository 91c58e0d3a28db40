/**
 The dictionary side of the kubeconfig reader (pykube/config.py): which
 document is parsed and which context is current, the `clusters`, `users`
 and `contexts` tables built from it, the lookups of the current cluster and
 user, and the wrapping of certificate and key entries as file paths or
 inline base 64 data. Reading the file is left out: its decoded content is
 part of the configuration value.
 */
module Config {
  import opened Errors
  import opened Json
  import Base64

  /** `BytesOrFile`: either a path to read, or the bytes given inline. */
  datatype BytesOrFile = FileRef(path: string) | Bytes(data: seq<Base64.Byte>)

  /** An entry of a cluster or user record: as loaded, or wrapped by `maybe_set`. */
  datatype Entry = Plain(j: Json) | Wrapped(b: BytesOrFile)

  /**
   `BytesOrFile(data)`: a string starting with `/` is a path; any other
   string is base 64 data and is decoded at once. Only strings have
   `startswith`.
   */
  function NewBytesOrFile(data: Entry): (r: Result<BytesOrFile>)
    ensures !(data.Plain? && data.j.JStr?) ==> r == Err(AttributeError("object has no attribute 'startswith'"))
    ensures data.Plain? && data.j.JStr? && |data.j.s| > 0 && data.j.s[0] == '/' ==> r == Ok(FileRef(data.j.s))
    ensures data.Plain? && data.j.JStr? && !(|data.j.s| > 0 && data.j.s[0] == '/') ==>
              && (r.Ok? <==> Base64.Decode(data.j.s).Ok?)
              && (r.Ok? ==> r.value == Bytes(Base64.Decode(data.j.s).value))
  {
    if !(data.Plain? && data.j.JStr?) then Err(AttributeError("object has no attribute 'startswith'"))
    else
      var s := data.j.s;
      if |s| > 0 && s[0] == '/' then Ok(FileRef(s))
      else
        var bytes :- Base64.Decode(s);
        Ok(Bytes(bytes))
  }

  /** Inline data comes back as the bytes that were encoded, unless the encoding happens to start with `/`. */
  lemma InlineDataRoundTrip(bs: seq<Base64.Byte>)
    requires |bs| == 0 || bs[0] < 252
    ensures NewBytesOrFile(Plain(JStr(Base64.Encode(bs)))) == Ok(Bytes(bs))
  {
    Base64.DecodeEncode(bs);
    var s := Base64.Encode(bs);
    if |bs| > 0 {
      Base64.SextetSlash(bs[0] / 4);
      assert s[0] != '/';
    }
    assert !(|s| > 0 && s[0] == '/');
  }

  /**
   Base 64 data whose first byte is 252 or more encodes to a string that
   starts with `/`, and is taken for a path.
   */
  lemma InlineDataTakenForPath(bs: seq<Base64.Byte>)
    requires |bs| > 0 && bs[0] >= 252
    ensures NewBytesOrFile(Plain(JStr(Base64.Encode(bs)))) == Ok(FileRef(Base64.Encode(bs)))
  {
    Base64.SextetSlash(bs[0] / 4);
  }

  /**
   `maybe_set(d, key)`: inline `<key>-data` wins: it is wrapped under `key`
   and removed; otherwise an existing `key` is wrapped in place; otherwise
   nothing changes. Other entries are untouched.
   */
  function MaybeSet(d: map<string, Entry>, key: string): (r: Result<map<string, Entry>>)
    ensures var dataKey := key + "-data";
            && (dataKey in d ==> (r.Ok? <==> NewBytesOrFile(d[dataKey]).Ok?))
            && (dataKey in d && r.Ok? ==>
                  && r.value.Keys == d.Keys - {dataKey} + {key}
                  && r.value[key] == Wrapped(NewBytesOrFile(d[dataKey]).value))
            && (dataKey !in d && key in d ==> (r.Ok? <==> NewBytesOrFile(d[key]).Ok?))
            && (dataKey !in d && key in d && r.Ok? ==>
                  r.value.Keys == d.Keys && r.value[key] == Wrapped(NewBytesOrFile(d[key]).value))
            && (dataKey !in d && key !in d ==> r == Ok(d))
            && (r.Ok? ==> forall k :: k in d && k != key && k != dataKey ==> k in r.value && r.value[k] == d[k])
  {
    var dataKey := key + "-data";
    assert key != dataKey by {
      assert |dataKey| == |key| + 5;
    }
    if dataKey in d then
      var wrapped :- NewBytesOrFile(d[dataKey]);
      Ok(d[key := Wrapped(wrapped)] - {dataKey})
    else if key in d then
      var wrapped :- NewBytesOrFile(d[key]);
      Ok(d[key := Wrapped(wrapped)])
    else Ok(d)
  }

  /** The loaded value `maybe_set(d, key)` wraps: `<key>-data` when present, else `key`, else none. */
  function WrapSource(d: map<string, Json>, key: string): Option<Json> {
    if key + "-data" in d then Some(d[key + "-data"])
    else if key in d then Some(d[key])
    else None
  }

  /** `maybe_set(d, key)` succeeds on `d` as loaded: the value it wraps, if any, is a path or decodable data. */
  predicate WrapsCleanly(d: map<string, Json>, key: string) {
    WrapSource(d, key).Some? ==> NewBytesOrFile(Plain(WrapSource(d, key).value)).Ok?
  }

  /**
   In `r`, `key` holds the wrapped value `maybe_set` chose from the loaded
   `d`, exactly when there was one, and `<key>-data` is gone.
   */
  ghost predicate WrappedFrom(d: map<string, Json>, key: string, r: map<string, Entry>) {
    && (key in r <==> WrapSource(d, key).Some?)
    && (WrapSource(d, key).Some? ==>
          && NewBytesOrFile(Plain(WrapSource(d, key).value)).Ok?
          && r[key] == Wrapped(NewBytesOrFile(Plain(WrapSource(d, key).value)).value))
    && key + "-data" !in r
  }

  /** A mapping as loaded, before any entry is wrapped. */
  function Lift(m: map<string, Json>): (r: map<string, Entry>)
    ensures r.Keys == m.Keys && forall k :: k in m ==> r[k] == Plain(m[k])
  {
    map k | k in m :: Plain(m[k])
  }

  /** Python can use a value as a dictionary key unless it is a list or a dictionary. */
  predicate Hashable(j: Json) {
    !j.JList? && !j.JObj?
  }

  /** The subscript `m[k]` on one of the built tables. */
  function Lookup<V>(m: map<Json, V>, k: Json): (r: Result<V>)
    ensures r.Ok? <==> Hashable(k) && k in m
    ensures r.Ok? ==> r.value == m[k]
  {
    if !Hashable(k) then Err(TypeError("unhashable type"))
    else if k !in m then Err(KeyError(Str(k)))
    else Ok(m[k])
  }

  /** `for r in records: table[r["name"]] = build(r)`: a later record with the same name replaces an earlier one. */
  function Index<V>(records: seq<Json>, build: Json -> Result<(Json, V)>, acc: map<Json, V>): (r: Result<map<Json, V>>)
    decreases |records|
  {
    if |records| == 0 then Ok(acc)
    else
      var named :- build(records[0]);
      if !Hashable(named.0) then Err(TypeError("unhashable type"))
      else Index(records[1..], build, acc[named.0 := named.1])
  }

  /** `records[i]` is the last record built under the name `n`. */
  ghost predicate LastNamed<V>(records: seq<Json>, build: Json -> Result<(Json, V)>, i: int, n: Json) {
    && 0 <= i < |records|
    && build(records[i]).Ok? && build(records[i]).value.0 == n
    && forall j :: i < j < |records| ==> build(records[j]).Ok? && build(records[j]).value.0 != n
  }

  /**
   After indexing, every name maps to the value built from the last record
   with that name; names no record has keep their earlier value.
   */
  lemma {:induction false} IndexLastWins<V>(records: seq<Json>, build: Json -> Result<(Json, V)>, acc: map<Json, V>)
    requires Index(records, build, acc).Ok?
    ensures var t := Index(records, build, acc).value;
            && (forall i :: 0 <= i < |records| ==> build(records[i]).Ok? && build(records[i]).value.0 in t)
            && (forall i, n :: LastNamed(records, build, i, n) ==> t[n] == build(records[i]).value.1)
            && (forall n :: n in acc && (forall i :: 0 <= i < |records| ==> build(records[i]).value.0 != n) ==> n in t && t[n] == acc[n])
            && (forall n :: n in t ==> n in acc || exists i :: 0 <= i < |records| && build(records[i]).value.0 == n)
    decreases |records|
  {
    if |records| > 0 {
      var named := build(records[0]).value;
      var acc' := acc[named.0 := named.1];
      var rest := records[1..];
      IndexLastWins(rest, build, acc');
      var t := Index(records, build, acc).value;
      assert t == Index(rest, build, acc').value;
      forall i | 0 <= i < |records|
        ensures build(records[i]).Ok? && build(records[i]).value.0 in t
      {
        if i > 0 {
          assert records[i] == rest[i - 1];
        } else if forall k :: 0 <= k < |rest| ==> build(rest[k]).value.0 != named.0 {
          assert named.0 in acc';
        } else {
          var k :| 0 <= k < |rest| && build(rest[k]).value.0 == named.0;
          assert build(rest[k]).Ok?;
        }
      }
      forall i, n | LastNamed(records, build, i, n)
        ensures t[n] == build(records[i]).value.1
      {
        if i > 0 {
          assert LastNamed(rest, build, i - 1, n) by {
            forall j | i - 1 < j < |rest|
              ensures build(rest[j]).Ok? && build(rest[j]).value.0 != n
            {
              assert rest[j] == records[j + 1];
            }
          }
        } else {
          assert forall k :: 0 <= k < |rest| ==> build(rest[k]).value.0 != n by {
            forall k | 0 <= k < |rest|
              ensures build(rest[k]).value.0 != n
            {
              assert rest[k] == records[k + 1];
            }
          }
        }
      }
      forall n | n in acc && (forall i :: 0 <= i < |records| ==> build(records[i]).value.0 != n)
        ensures n in t && t[n] == acc[n]
      {
        assert build(records[0]).value.0 != n;
        assert forall k :: 0 <= k < |rest| ==> build(rest[k]).value.0 != n by {
          forall k | 0 <= k < |rest|
            ensures build(rest[k]).value.0 != n
          {
            assert rest[k] == records[k + 1];
          }
        }
      }
      forall n | n in t
        ensures n in acc || exists i :: 0 <= i < |records| && build(records[i]).value.0 == n
      {
        if n !in acc && n != named.0 {
          var k :| 0 <= k < |rest| && build(rest[k]).value.0 == n;
          assert rest[k] == records[k + 1];
        }
      }
    }
  }

  /** Where an entry of `clusters` gets its server when it names none. */
  const DefaultServer: string := "http://localhost"

  /** A cluster keeps its own `server`, or gets the default one. */
  function WithServer(c: map<string, Json>): (r: map<string, Json>)
    ensures "server" in r && r.Keys == c.Keys + {"server"}
    ensures forall k :: k in c && k != "server" ==> r[k] == c[k]
    ensures r["server"] == if "server" in c then c["server"] else JStr(DefaultServer)
  {
    if "server" in c then c else c["server" := JStr(DefaultServer)]
  }

  /**
   One entry of `clusters`: the record's `cluster` (copied), with a default
   `server` and the certificate authority wrapped; keyed by its `name`. The
   name is hashed as soon as it is read, before the entry is completed.
   */
  function ClusterRecord(record: Json): (r: Result<(Json, map<string, Entry>)>)
    ensures r.Ok? <==> && Get(record, "cluster").Ok? && Get(record, "name").Ok? && Hashable(Get(record, "name").value)
                       && Get(record, "cluster").value.JObj?
                       && WrapsCleanly(WithServer(Get(record, "cluster").value.fields), "certificate-authority")
    ensures Get(record, "cluster").Ok? && Get(record, "name").Ok? && !Hashable(Get(record, "name").value) ==>
              r == Err(TypeError("unhashable type"))
    ensures r.Ok? ==> Get(record, "name") == Ok(r.value.0) && "server" in r.value.1
    ensures r.Ok? ==>
              var c := Get(record, "cluster").value.fields;
              r.value.1["server"] == Plain(if "server" in c then c["server"] else JStr(DefaultServer))
    ensures r.Ok? ==>
              var c := WithServer(Get(record, "cluster").value.fields);
              && WrappedFrom(c, "certificate-authority", r.value.1)
              && forall k :: k in c && k !in CertificateKeys ==> k in r.value.1 && r.value.1[k] == Plain(c[k])
  {
    var cluster :- Get(record, "cluster");
    var name :- Get(record, "name");
    if !Hashable(name) then Err(TypeError("unhashable type"))
    else if !cluster.JObj? then Err(TypeError("cluster entry is not a mapping"))
    else
      var c := cluster.fields;
      assert "certificate-authority" + "-data" == "certificate-authority-data";
      var wrapped :- MaybeSet(Lift(WithServer(c)), "certificate-authority");
      Ok((name, wrapped))
  }

  /** The entries `clusters` rewrites. */
  const CertificateKeys: set<string> := {"certificate-authority", "certificate-authority-data"}

  /** The entries `users` rewrites. */
  const CredentialKeys: set<string> := {"client-certificate", "client-certificate-data", "client-key", "client-key-data"}

  /**
   One entry of `users`: the record's `user` (copied) with its certificate and
   key wrapped; keyed by its `name`, which is hashed as soon as it is read.
   */
  function UserRecord(record: Json): (r: Result<(Json, map<string, Entry>)>)
    ensures r.Ok? <==> && Get(record, "user").Ok? && Get(record, "name").Ok? && Hashable(Get(record, "name").value)
                       && Get(record, "user").value.JObj?
                       && WrapsCleanly(Get(record, "user").value.fields, "client-certificate")
                       && WrapsCleanly(Get(record, "user").value.fields, "client-key")
    ensures Get(record, "user").Ok? && Get(record, "name").Ok? && !Hashable(Get(record, "name").value) ==>
              r == Err(TypeError("unhashable type"))
    ensures r.Ok? ==> Get(record, "name") == Ok(r.value.0)
    ensures r.Ok? ==>
              var u := Get(record, "user").value.fields;
              && WrappedFrom(u, "client-certificate", r.value.1)
              && WrappedFrom(u, "client-key", r.value.1)
              && forall k :: k in u && k !in CredentialKeys ==> k in r.value.1 && r.value.1[k] == Plain(u[k])
  {
    var user :- Get(record, "user");
    var name :- Get(record, "name");
    if !Hashable(name) then Err(TypeError("unhashable type"))
    else if !user.JObj? then Err(TypeError("user entry is not a mapping"))
    else
      assert "client-certificate" + "-data" == "client-certificate-data";
      assert "client-key" + "-data" == "client-key-data";
      var withCert :- MaybeSet(Lift(user.fields), "client-certificate");
      var withKey :- MaybeSet(withCert, "client-key");
      Ok((name, withKey))
  }

  /** One entry of `contexts`: the record's `context`, copied. */
  function ContextRecord(record: Json): (r: Result<(Json, Json)>)
    ensures r.Ok? <==> Get(record, "context").Ok? && Get(record, "name").Ok?
    ensures r.Ok? ==> r.value == (Get(record, "name").value, Get(record, "context").value)
  {
    var context :- Get(record, "context");
    var name :- Get(record, "name");
    Ok((name, context))
  }

  /** `doc[key]` iterated as a list of records. */
  function Records(doc: Json, key: string): Result<seq<Json>> {
    var list :- Get(doc, key);
    Members(list)
  }

  /**
   `t` is the table a loop `t[name] = value` over `records` builds from
   nothing: every record's name is a key holding the value of the last record
   with that name, and there are no other keys.
   */
  ghost predicate Tabulates<V>(records: seq<Json>, build: Json -> Result<(Json, V)>, t: map<Json, V>) {
    && (forall i :: 0 <= i < |records| ==> build(records[i]).Ok? && build(records[i]).value.0 in t)
    && (forall i, n :: LastNamed(records, build, i, n) ==> n in t && t[n] == build(records[i]).value.1)
    && (forall n :: n in t ==> exists i :: 0 <= i < |records| && build(records[i]).Ok? && build(records[i]).value.0 == n)
  }

  lemma IndexTabulates<V>(records: seq<Json>, build: Json -> Result<(Json, V)>)
    requires Index(records, build, map[]).Ok?
    ensures Tabulates(records, build, Index(records, build, map[]).value)
  {
    IndexLastWins(records, build, map[]);
  }

  /** `clusters`: the `clusters` list indexed by name, each entry completed by `ClusterRecord`. */
  function Clusters(doc: Json): (r: Result<map<Json, map<string, Entry>>>)
    ensures Records(doc, "clusters").Err? ==> r == Err(Records(doc, "clusters").error)
    ensures r.Ok? ==> Records(doc, "clusters").Ok? && Tabulates(Records(doc, "clusters").value, ClusterRecord, r.value)
  {
    var records :- Records(doc, "clusters");
    var t :- Index(records, ClusterRecord, map[]);
    IndexTabulates(records, ClusterRecord);
    Ok(t)
  }

  /** `users`: the `users` list indexed by name, each entry completed by `UserRecord`. */
  function Users(doc: Json): (r: Result<map<Json, map<string, Entry>>>)
    ensures Records(doc, "users").Err? ==> r == Err(Records(doc, "users").error)
    ensures r.Ok? ==> Records(doc, "users").Ok? && Tabulates(Records(doc, "users").value, UserRecord, r.value)
  {
    var records :- Records(doc, "users");
    var t :- Index(records, UserRecord, map[]);
    IndexTabulates(records, UserRecord);
    Ok(t)
  }

  /** `contexts`: the `contexts` list indexed by name, each holding its `context` entry. */
  function Contexts(doc: Json): (r: Result<map<Json, Json>>)
    ensures Records(doc, "contexts").Err? ==> r == Err(Records(doc, "contexts").error)
    ensures r.Ok? ==> Records(doc, "contexts").Ok? && Tabulates(Records(doc, "contexts").value, ContextRecord, r.value)
  {
    var records :- Records(doc, "contexts");
    var t :- Index(records, ContextRecord, map[]);
    IndexTabulates(records, ContextRecord);
    Ok(t)
  }

  /** Every cluster in the table has a server: its own, or the default. */
  lemma ClustersHaveServers(doc: Json)
    requires Clusters(doc).Ok?
    ensures forall n :: n in Clusters(doc).value ==> "server" in Clusters(doc).value[n]
  {
    var records := Records(doc, "clusters").value;
    IndexLastWins(records, ClusterRecord, map[]);
    forall n | n in Clusters(doc).value
      ensures "server" in Clusters(doc).value[n]
    {
      var i :| 0 <= i < |records| && ClusterRecord(records[i]).value.0 == n;
      var last := LastIndex(records, ClusterRecord, i, n);
    }
  }

  /** The last record built under `n`, at or after `i`. */
  lemma {:induction false} LastIndex<V>(records: seq<Json>, build: Json -> Result<(Json, V)>, i: int, n: Json) returns (last: int)
    requires 0 <= i < |records|
    requires forall j :: 0 <= j < |records| ==> build(records[j]).Ok?
    requires build(records[i]).value.0 == n
    ensures LastNamed(records, build, last, n)
    decreases |records| - i
  {
    if forall j :: i < j < |records| ==> build(records[j]).value.0 != n {
      last := i;
    } else {
      var j :| i < j < |records| && build(records[j]).value.0 == n;
      last := LastIndex(records, build, j, n);
    }
  }

  /** The configuration: the file's decoded content, the parsed document once read, and the current context (`JNull` for none). */
  datatype KubeConfig = KubeConfig(file: Json, doc: Option<Json>, currentContext: Json)

  /** `KubeConfig(filename)`: nothing parsed, no current context. */
  function NewKubeConfig(file: Json): (cfg: KubeConfig)
    ensures cfg.doc.None? && cfg.currentContext == JNull && cfg.file == file
  {
    KubeConfig(file, None, JNull)
  }

  function SetCurrentContext(cfg: KubeConfig, value: Json): (r: KubeConfig)
    ensures r.currentContext == value && r.doc == cfg.doc && r.file == cfg.file
  {
    cfg.(currentContext := value)
  }

  /**
   `parse`: nothing to do once a document is held; otherwise hold the file's
   content, and make its `current-context` current when present and truthy.
   */
  function Parse(cfg: KubeConfig): (r: Result<KubeConfig>)
    ensures cfg.doc.Some? ==> r == Ok(cfg)
    ensures r.Ok? ==> r.value.doc.Some? && r.value.file == cfg.file
    ensures cfg.doc.None? && cfg.file.JObj? ==>
              var m := cfg.file.fields;
              r == Ok(cfg.(doc := Some(cfg.file),
                           currentContext := if "current-context" in m && Truthy(m["current-context"]) then m["current-context"]
                                             else cfg.currentContext))
  {
    if cfg.doc.Some? then Ok(cfg)
    else
      match cfg.file
      case JObj(m) =>
        if "current-context" in m && Truthy(m["current-context"]) then
          Ok(SetCurrentContext(cfg.(doc := Some(cfg.file)), m["current-context"]))
        else Ok(cfg.(doc := Some(cfg.file)))
      case JNull => Err(TypeError("argument of type 'NoneType' is not iterable"))
      case JBool(_) => Err(TypeError("argument of type 'bool' is not iterable"))
      case JInt(_) => Err(TypeError("argument of type 'int' is not iterable"))
      case _ => Ok(cfg.(doc := Some(cfg.file)))
  }

  /** Parsing twice is parsing once. */
  lemma ParseIdempotent(cfg: KubeConfig)
    requires Parse(cfg).Ok?
    ensures Parse(Parse(cfg).value) == Parse(cfg)
  {
  }

  /** The error `cluster` and `user` raise without a current context. */
  const NoContext: Error := ConfigError("current context not set; call set_current_context")

  /**
   `cluster`: parse, require a current context, then
   `clusters[contexts[current]["cluster"]]`.
   */
  function Cluster(cfg: KubeConfig): (r: Result<(KubeConfig, map<string, Entry>)>)
    ensures Parse(cfg).Ok? && Parse(cfg).value.currentContext == JNull ==> r == Err(NoContext)
    ensures r.Ok? ==>
              && Parse(cfg) == Ok(r.value.0)
              && var doc := r.value.0.doc.value;
                 && Clusters(doc).Ok? && Contexts(doc).Ok?
                 && Lookup(Contexts(doc).value, r.value.0.currentContext).Ok?
                 && var context := Contexts(doc).value[r.value.0.currentContext];
                    && context.JObj? && "cluster" in context.fields
                    && Lookup(Clusters(doc).value, context.fields["cluster"]) == Ok(r.value.1)
  {
    var parsed :- Parse(cfg);
    if parsed.currentContext == JNull then Err(NoContext)
    else
      var clusters :- Clusters(parsed.doc.value);
      var contexts :- Contexts(parsed.doc.value);
      var context :- Lookup(contexts, parsed.currentContext);
      var name :- Get(context, "cluster");
      var cluster :- Lookup(clusters, name);
      Ok((parsed, cluster))
  }

  /** `user`: the same resolution through `contexts[current]["user"]` into `users`. */
  function User(cfg: KubeConfig): (r: Result<(KubeConfig, map<string, Entry>)>)
    ensures Parse(cfg).Ok? && Parse(cfg).value.currentContext == JNull ==> r == Err(NoContext)
    ensures r.Ok? ==>
              && Parse(cfg) == Ok(r.value.0)
              && var doc := r.value.0.doc.value;
                 && Users(doc).Ok? && Contexts(doc).Ok?
                 && Lookup(Contexts(doc).value, r.value.0.currentContext).Ok?
                 && var context := Contexts(doc).value[r.value.0.currentContext];
                    && context.JObj? && "user" in context.fields
                    && Lookup(Users(doc).value, context.fields["user"]) == Ok(r.value.1)
  {
    var parsed :- Parse(cfg);
    if parsed.currentContext == JNull then Err(NoContext)
    else
      var users :- Users(parsed.doc.value);
      var contexts :- Contexts(parsed.doc.value);
      var context :- Lookup(contexts, parsed.currentContext);
      var name :- Get(context, "user");
      var user :- Lookup(users, name);
      Ok((parsed, user))
  }

  /** A fresh configuration whose file names no current context cannot resolve a cluster or a user. */
  lemma NoCurrentContextRaises(file: Json)
    requires file.JObj? && ("current-context" !in file.fields || !Truthy(file.fields["current-context"]))
    ensures Cluster(NewKubeConfig(file)) == Err(NoContext)
    ensures User(NewKubeConfig(file)) == Err(NoContext)
  {
  }
}

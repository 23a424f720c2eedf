/** The field list of the "REQUEST PAYLOAD" embed (hook.go lines 149-307):
    the content-type dispatch of a live request, the builder for a live
    request and the builder for manually supplied strings. */
module Fields {
  import opened GoText

  datatype Field = Field(name: seq<byte>, value: seq<byte>)

  const MethodName := Lit("Method")
  const UrlName := Lit("URL")
  const BodyName := Lit("Body")
  const HeadersName := Lit("Headers")

  const JsonType := Lit("application/json")
  const MultipartType := Lit("multipart/form-data")
  const FormType := Lit("application/x-www-form-urlencoded")

  /** The largest raw body of another content type that is still logged. */
  const MaxRawBodyLogSize := 1024

  /** `url.Values`: each key with its list of values. */
  type Form = map<seq<byte>, seq<seq<byte>>>

  /** The library calls the builder relies on and that are not modelled:
      `url.ParseQuery` (None when it fails), `json.MarshalIndent` of a form
      (None when it fails), and what the multipart branch renders (the
      parse error or the JSON summary of fields and files; None when it
      adds no field). */
  datatype Env = Env(
    parseQuery: seq<byte> -> Option<Form>,
    marshalForm: Form -> Option<seq<byte>>,
    multipart: Option<seq<byte>>)

  // ---------------------------------------------------------------------
  // Content-type dispatch

  datatype ContentKind = JsonBody | MultipartBody | FormBody | RawBody

  /** The `switch` on the `Content-Type` header: the first marker the
      header contains decides. */
  function Dispatch(contentType: seq<byte>): ContentKind
  {
    if Contains(contentType, JsonType) then JsonBody
    else if Contains(contentType, MultipartType) then MultipartBody
    else if Contains(contentType, FormType) then FormBody
    else RawBody
  }

  /** The precedence of the markers as a table. */
  const Precedence: seq<(seq<byte>, ContentKind)> :=
    [(JsonType, JsonBody), (MultipartType, MultipartBody), (FormType, FormBody)]

  /** Reference definition: the kind of the first table entry whose
      marker occurs in the header, raw when none does. */
  function FirstHit(contentType: seq<byte>, table: seq<(seq<byte>, ContentKind)>): ContentKind
  {
    if table == [] then RawBody
    else if Contains(contentType, table[0].0) then table[0].1
    else FirstHit(contentType, table[1..])
  }

  /** The `switch` is the first-hit lookup in the precedence table. */
  lemma DispatchIsFirstHit(contentType: seq<byte>)
    ensures Dispatch(contentType) == FirstHit(contentType, Precedence)
  {
    var t: seq<(seq<byte>, ContentKind)> := Precedence;
    var t1, t2, t3 := t[1..], t[1..][1..], t[1..][1..][1..];
    assert t1 == [(MultipartType, MultipartBody), (FormType, FormBody)];
    assert t2 == [(FormType, FormBody)];
    assert |t3| == 0;
    assert FirstHit(contentType, t2) == if Contains(contentType, FormType) then FormBody else RawBody;
    assert FirstHit(contentType, t1) ==
      if Contains(contentType, MultipartType) then MultipartBody else FirstHit(contentType, t2);
  }

  /** Each kind is chosen exactly when its marker occurs and no marker
      ahead of it in the precedence does. */
  lemma DispatchPrecedence(contentType: seq<byte>)
    ensures Dispatch(contentType) == JsonBody <==> Contains(contentType, JsonType)
    ensures Dispatch(contentType) == MultipartBody <==>
      !Contains(contentType, JsonType) && Contains(contentType, MultipartType)
    ensures Dispatch(contentType) == FormBody <==>
      !Contains(contentType, JsonType) && !Contains(contentType, MultipartType) &&
      Contains(contentType, FormType)
    ensures Dispatch(contentType) == RawBody <==>
      !Contains(contentType, JsonType) && !Contains(contentType, MultipartType) &&
      !Contains(contentType, FormType)
  {
  }

  /** Parameters after the media type do not matter: a JSON header with a
      charset is JSON. */
  lemma DispatchJsonWithCharset()
    ensures Dispatch(JsonType + Lit("; charset=utf-8")) == JsonBody
  {
    ContainsPrefix(JsonType + Lit("; charset=utf-8"), JsonType);
  }

  /** JSON is tested first: a header naming the form type and then JSON
      takes the JSON branch, whatever the order in the header. */
  lemma DispatchJsonBeforeForm()
    ensures Dispatch(FormType + Lit(", ") + JsonType) == JsonBody
  {
    ContainsSuffix(FormType + Lit(", ") + JsonType, JsonType);
  }

  /** A missing header reads as the empty string and takes the raw branch,
      as does a short unknown type. */
  lemma DispatchMissingHeader()
    ensures Dispatch([]) == RawBody
    ensures Dispatch(Lit("text/plain")) == RawBody
  {
  }

  // ---------------------------------------------------------------------
  // Live request

  /** The `Body` field the dispatch adds for a body of this kind, if any. */
  function BodyFields(kind: ContentKind, body: seq<byte>, env: Env): seq<Field>
  {
    match kind
    case JsonBody => [Field(BodyName, Fence(body))]
    case MultipartBody =>
      if env.multipart.Some? then [Field(BodyName, TightFence(env.multipart.value))] else []
    case FormBody =>
      if |body| == 0 then []
      else if env.parseQuery(body).None? then [Field(BodyName, Fence(body))]
      else if env.marshalForm(env.parseQuery(body).value).Some?
      then [Field(BodyName, TightFence(env.marshalForm(env.parseQuery(body).value).value))]
      else []
    case RawBody =>
      if 0 < |body| <= MaxRawBodyLogSize then [Field(BodyName, Fence(body))] else []
  }

  /** The fields of a live request: method, URL, then what the dispatch
      adds for its body. */
  function LiveFields(verb: seq<byte>, url: seq<byte>, contentType: seq<byte>, body: seq<byte>, env: Env): seq<Field>
  {
    [Field(MethodName, Fence(verb)), Field(UrlName, Fence(url))] +
    BodyFields(Dispatch(contentType), body, env)
  }

  /** The loop that copies the parsed form into the map handed to the JSON
      encoder. */
  method CopyForm(parsed: Form) returns (formData: Form)
    ensures formData == parsed
  {
    formData := map[];
    var keys := parsed.Keys;
    while keys != {}
      invariant keys <= parsed.Keys
      invariant formData.Keys == parsed.Keys - keys
      invariant forall k :: k in formData ==> formData[k] == parsed[k]
      decreases keys
    {
      var k :| k in keys;
      formData := formData[k := parsed[k]];
      keys := keys - {k};
    }
  }

  /** The builder of the live path, appending field by field. */
  method BuildLiveFields(verb: seq<byte>, url: seq<byte>, contentType: seq<byte>, body: seq<byte>, env: Env)
    returns (fields: seq<Field>)
    ensures fields == LiveFields(verb, url, contentType, body, env)
  {
    fields := [];
    fields := fields + [Field(MethodName, Fence(verb)), Field(UrlName, Fence(url))];
    if Contains(contentType, JsonType) {
      fields := fields + [Field(BodyName, Fence(body))];
    } else if Contains(contentType, MultipartType) {
      if env.multipart.Some? {
        fields := fields + [Field(BodyName, TightFence(env.multipart.value))];
      }
    } else if Contains(contentType, FormType) {
      if |body| > 0 {
        var parsed := env.parseQuery(body);
        if parsed.None? {
          fields := fields + [Field(BodyName, Fence(body))];
        } else {
          var formData := CopyForm(parsed.value);
          var json := env.marshalForm(formData);
          if json.Some? {
            fields := fields + [Field(BodyName, TightFence(json.value))];
          }
        }
      }
    } else {
      if |body| > 0 {
        if |body| <= MaxRawBodyLogSize {
          fields := fields + [Field(BodyName, Fence(body))];
        }
      }
    }
  }

  /** Method and URL are always the first two fields; at most a `Body`
      field follows. */
  lemma LiveFieldsShape(verb: seq<byte>, url: seq<byte>, contentType: seq<byte>, body: seq<byte>, env: Env)
    ensures var fs := LiveFields(verb, url, contentType, body, env);
      && 2 <= |fs| <= 3
      && fs[0] == Field(MethodName, Fence(verb))
      && fs[1] == Field(UrlName, Fence(url))
      && (|fs| == 3 ==> fs[2].name == BodyName)
  {
  }

  /** A JSON body is always logged verbatim, even when it is empty. */
  lemma JsonBodyVerbatim(verb: seq<byte>, url: seq<byte>, contentType: seq<byte>, body: seq<byte>, env: Env)
    requires Contains(contentType, JsonType)
    ensures LiveFields(verb, url, contentType, body, env) ==
      [Field(MethodName, Fence(verb)), Field(UrlName, Fence(url)), Field(BodyName, Fence(body))]
  {
  }

  /** A body of any other content type is logged verbatim exactly when it
      is non-empty and at most 1024 bytes long; it is never truncated. */
  lemma RawBodyCap(verb: seq<byte>, url: seq<byte>, contentType: seq<byte>, body: seq<byte>, env: Env)
    requires Dispatch(contentType) == RawBody
    ensures var fs := LiveFields(verb, url, contentType, body, env);
      && (|fs| == 3 <==> 0 < |body| <= 1024)
      && (|fs| == 3 ==> fs[2] == Field(BodyName, Fence(body)))
  {
  }

  /** A url-encoded body: nothing when empty, the raw bytes when it does
      not parse, the encoded form when it parses and encodes. */
  lemma FormBodyCases(verb: seq<byte>, url: seq<byte>, contentType: seq<byte>, body: seq<byte>, env: Env)
    requires Dispatch(contentType) == FormBody
    ensures var fs := LiveFields(verb, url, contentType, body, env);
      && (|body| == 0 ==> |fs| == 2)
      && (|body| > 0 && env.parseQuery(body).None? ==> fs[2..] == [Field(BodyName, Fence(body))])
      && (|body| > 0 && env.parseQuery(body).Some? ==>
           (|fs| == 3 <==> env.marshalForm(env.parseQuery(body).value).Some?))
      && (|fs| == 3 && env.parseQuery(body).Some? ==>
           fs[2].value == TightFence(env.marshalForm(env.parseQuery(body).value).value))
  {
  }

  /** A multipart body adds the tightly fenced rendering when there is
      one, and nothing otherwise. */
  lemma MultipartBodyCases(verb: seq<byte>, url: seq<byte>, contentType: seq<byte>, body: seq<byte>, env: Env)
    requires Dispatch(contentType) == MultipartBody
    ensures var fs := LiveFields(verb, url, contentType, body, env);
      && (|fs| == 3 <==> env.multipart.Some?)
      && (|fs| == 3 ==> fs[2].value == TightFence(env.multipart.value))
  {
  }

  // ---------------------------------------------------------------------
  // Manually supplied strings

  /** Keeps the candidates whose text is non-empty, in order, with the
      text fenced. */
  function Present(cs: seq<Field>): seq<Field>
  {
    if cs == [] then [] else Keep(cs[0]) + Present(cs[1..])
  }

  /** One candidate: dropped when its text is empty, fenced otherwise. */
  function Keep(c: Field): seq<Field>
  {
    if c.value == [] then [] else [Field(c.name, Fence(c.value))]
  }

  /** The fields of a manually filled payload. */
  function ManualFields(verb: seq<byte>, url: seq<byte>, bodyString: seq<byte>, headers: seq<byte>): seq<Field>
  {
    Present([Field(MethodName, verb), Field(UrlName, url), Field(BodyName, bodyString), Field(HeadersName, headers)])
  }

  /** The manual candidates one by one. */
  lemma ManualFieldsUnfold(verb: seq<byte>, url: seq<byte>, bodyString: seq<byte>, headers: seq<byte>)
    ensures ManualFields(verb, url, bodyString, headers) ==
      Keep(Field(MethodName, verb)) + Keep(Field(UrlName, url)) +
      Keep(Field(BodyName, bodyString)) + Keep(Field(HeadersName, headers))
  {
    var m, u, b, h := Field(MethodName, verb), Field(UrlName, url), Field(BodyName, bodyString), Field(HeadersName, headers);
    calc {
      ManualFields(verb, url, bodyString, headers);
      Present([m, u, b, h]);
      { assert [m, u, b, h] == [m] + [u, b, h]; PresentCons(m, [u, b, h]); }
      Keep(m) + Present([u, b, h]);
      { assert [u, b, h] == [u] + [b, h]; PresentCons(u, [b, h]); }
      Keep(m) + (Keep(u) + Present([b, h]));
      { assert [b, h] == [b] + [h]; PresentCons(b, [h]); }
      Keep(m) + (Keep(u) + (Keep(b) + Present([h])));
      { assert [h] == [h] + []; PresentCons(h, []); }
      Keep(m) + (Keep(u) + (Keep(b) + Keep(h)));
    }
  }

  lemma PresentCons(c: Field, cs: seq<Field>)
    ensures Present([c] + cs) == Keep(c) + Present(cs)
  {
    assert ([c] + cs)[1..] == cs;
  }

  /** The builder of the manual path: four guarded appends. */
  method BuildManualFields(verb: seq<byte>, url: seq<byte>, bodyString: seq<byte>, headers: seq<byte>)
    returns (fields: seq<Field>)
    ensures fields == ManualFields(verb, url, bodyString, headers)
  {
    ManualFieldsUnfold(verb, url, bodyString, headers);
    fields := [];
    if verb != [] {
      fields := fields + [Field(MethodName, Fence(verb))];
    }
    if url != [] {
      fields := fields + [Field(UrlName, Fence(url))];
    }
    if bodyString != [] {
      fields := fields + [Field(BodyName, Fence(bodyString))];
    }
    if headers != [] {
      fields := fields + [Field(HeadersName, Fence(headers))];
    }
  }

  /** A field is kept exactly when it comes from a candidate with
      non-empty text. */
  lemma {:induction false} PresentMembers(cs: seq<Field>, f: Field)
    ensures f in Present(cs) <==>
      exists c :: c in cs && c.value != [] && f == Field(c.name, Fence(c.value))
  {
    if cs != [] {
      PresentMembers(cs[1..], f);
      assert cs == [cs[0]] + cs[1..];
      if f in Present(cs[1..]) {
        var c :| c in cs[1..] && c.value != [] && f == Field(c.name, Fence(c.value));
        assert c in cs;
      }
    }
  }

  /** The position of a field name in the manual order. */
  function Rank(name: seq<byte>): nat
  {
    if name == MethodName then 0
    else if name == UrlName then 1
    else if name == BodyName then 2
    else if name == HeadersName then 3
    else 4
  }

  predicate RankOrdered(fs: seq<Field>)
  {
    forall i, j :: 0 <= i < j < |fs| ==> Rank(fs[i].name) < Rank(fs[j].name)
  }

  /** Dropping candidates keeps the order of the rest. */
  lemma {:induction false} PresentKeepsOrder(cs: seq<Field>)
    requires RankOrdered(cs)
    ensures RankOrdered(Present(cs))
  {
    if cs != [] {
      var rest := Present(cs[1..]);
      assert RankOrdered(cs[1..]) by {
        forall i, j | 0 <= i < j < |cs[1..]| ensures Rank(cs[1..][i].name) < Rank(cs[1..][j].name) {
          assert cs[1..][i] == cs[i + 1] && cs[1..][j] == cs[j + 1];
        }
      }
      PresentKeepsOrder(cs[1..]);
      forall k | 0 <= k < |rest| ensures Rank(cs[0].name) < Rank(rest[k].name) {
        PresentMembers(cs[1..], rest[k]);
        var c :| c in cs[1..] && c.value != [] && rest[k] == Field(c.name, Fence(c.value));
        var j :| 0 <= j < |cs[1..]| && cs[1..][j] == c;
        assert cs[j + 1] == c;
      }
    }
  }

  /** The manual fields: each of Method, URL, Body and Headers present
      exactly when its string is non-empty, with the string fenced, and no
      other field. */
  lemma ManualFieldsPresence(verb: seq<byte>, url: seq<byte>, bodyString: seq<byte>, headers: seq<byte>)
    ensures var fs := ManualFields(verb, url, bodyString, headers);
      && (Field(MethodName, Fence(verb)) in fs <==> verb != [])
      && (Field(UrlName, Fence(url)) in fs <==> url != [])
      && (Field(BodyName, Fence(bodyString)) in fs <==> bodyString != [])
      && (Field(HeadersName, Fence(headers)) in fs <==> headers != [])
      && (forall f :: f in fs ==>
            f == Field(MethodName, Fence(verb)) || f == Field(UrlName, Fence(url)) ||
            f == Field(BodyName, Fence(bodyString)) || f == Field(HeadersName, Fence(headers)))
  {
    ManualFieldsUnfold(verb, url, bodyString, headers);
    var m, u, b, h := Field(MethodName, verb), Field(UrlName, url), Field(BodyName, bodyString), Field(HeadersName, headers);
    var fs := ManualFields(verb, url, bodyString, headers);
    assert |MethodName| == 6 && |UrlName| == 3 && |BodyName| == 4 && |HeadersName| == 7;
    assert MethodName != UrlName && MethodName != BodyName && MethodName != HeadersName &&
      UrlName != BodyName && UrlName != HeadersName && BodyName != HeadersName;
    assert forall f :: f in fs <==> f in Keep(m) || f in Keep(u) || f in Keep(b) || f in Keep(h);
    assert Field(MethodName, Fence(verb)) in fs <==> verb != [];
    assert Field(UrlName, Fence(url)) in fs <==> url != [];
    assert Field(BodyName, Fence(bodyString)) in fs <==> bodyString != [];
    assert Field(HeadersName, Fence(headers)) in fs <==> headers != [];
  }

  /** The manual fields come in the order Method, URL, Body, Headers. */
  lemma ManualFieldsOrder(verb: seq<byte>, url: seq<byte>, bodyString: seq<byte>, headers: seq<byte>)
    ensures RankOrdered(ManualFields(verb, url, bodyString, headers))
  {
    var cs := [Field(MethodName, verb), Field(UrlName, url), Field(BodyName, bodyString), Field(HeadersName, headers)];
    assert Rank(MethodName) == 0 && Rank(UrlName) == 1 && Rank(BodyName) == 2 && Rank(HeadersName) == 3;
    PresentKeepsOrder(cs);
  }
}

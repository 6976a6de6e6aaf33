/**
 * The integration-test harness of pkg/itf: the Suite builder, the
 * per-request context layering it installs on its router, the Request
 * builder and the MultipartData builder.
 *
 * A request's context is modelled as the sequence of layers applied to it,
 * in order; a hook or a custom middleware is an opaque token and appears in
 * that sequence where it is applied. Library outputs (json.Marshal,
 * url.Values.Encode, the multipart writer's bytes and boundary) are supplied
 * as values.
 */
module Itf {
  import opened Wrappers
  import opened Http

  /** An identity; the harness only looks at whether there is one. */
  datatype User = User(id: nat)

  /** A registered BeforeEach hook / WithMiddleware function, as an opaque token. */
  datatype Hook = Hook(id: nat)
  datatype Middleware = Middleware(id: nat)

  /** One layer put on a request's context. */
  datatype Layer =
    | HookApplied(hook: Hook)
    | UserValue(user: Option<User>)
    | PoolValue
    | SessionValue
    | TenantIDValue(tenantID: string)
    | AppValue
    | HeadValue
    | LogoValue
    | LoggerValue(path: string)
    | ParamsValue(ip: string, userAgent: string, authenticated: bool)
    | PageCtxValue(locale: string, path: string)
    | MiddlewareApplied(middleware: Middleware)

  /** The part of TestEnvironment the harness reads and writes. */
  class TestEnvironment {
    var user: Option<User>
    var ctx: seq<Layer>
    const tenantID: string

    constructor (user: Option<User>, ctx: seq<Layer>, tenantID: string)
      ensures this.user == user && this.ctx == ctx && this.tenantID == tenantID
    {
      this.user := user;
      this.ctx := ctx;
      this.tenantID := tenantID;
    }
  }

  /** The user a request runs as: the suite's override when there is one, else the environment's. */
  function EffectiveUser(suiteUser: Option<User>, envUser: Option<User>): (u: Option<User>)
    ensures suiteUser.Some? ==> u == suiteUser
    ensures suiteUser.None? ==> u == envUser
  {
    if suiteUser.Some? then suiteUser else envUser
  }

  function HookLayers(hooks: seq<Hook>): (layers: seq<Layer>)
    ensures |layers| == |hooks|
    ensures forall i :: 0 <= i < |hooks| ==> layers[i] == HookApplied(hooks[i])
  {
    seq(|hooks|, i requires 0 <= i < |hooks| => HookApplied(hooks[i]))
  }

  function MiddlewareLayers(middlewares: seq<Middleware>): (layers: seq<Layer>)
    ensures |layers| == |middlewares|
    ensures forall i :: 0 <= i < |middlewares| ==> layers[i] == MiddlewareApplied(middlewares[i])
  {
    seq(|middlewares|, i requires 0 <= i < |middlewares| => MiddlewareApplied(middlewares[i]))
  }

  const TestIP := "127.0.0.1"
  const TestUserAgent := "test-agent"

  /** The standard attachments, in the order the handler makes them. */
  function StandardLayers(current: Option<User>, tenantID: string, path: string): seq<Layer> {
    (if current.Some? then [UserValue(current)] else []) +
    [PoolValue, SessionValue, TenantIDValue(tenantID), AppValue, HeadValue, LogoValue, LoggerValue(path),
     ParamsValue(TestIP, TestUserAgent, current.Some?), PageCtxValue("en", path)]
  }

  /** The context the handler builds: the incoming one, the hooks, the standard attachments, the custom middlewares. */
  function RequestLayers(base: seq<Layer>, hooks: seq<Hook>, current: Option<User>, tenantID: string,
                         path: string, middlewares: seq<Middleware>): seq<Layer> {
    base + HookLayers(hooks) + StandardLayers(current, tenantID, path) + MiddlewareLayers(middlewares)
  }

  predicate HasUserLayer(layers: seq<Layer>) {
    exists i :: 0 <= i < |layers| && layers[i].UserValue?
  }

  /** The user is attached, and the params say authenticated, exactly when there is an effective user. */
  lemma {:induction false} UserAttachedIffPresent(current: Option<User>, tenantID: string, path: string)
    ensures HasUserLayer(StandardLayers(current, tenantID, path)) <==> current.Some?
    ensures var layers := StandardLayers(current, tenantID, path);
      layers[|layers| - 2] == ParamsValue(TestIP, TestUserAgent, current.Some?)
  {
    var layers := StandardLayers(current, tenantID, path);
    if current.Some? {
      assert layers[0].UserValue?;
    } else {
      forall i | 0 <= i < |layers| ensures !layers[i].UserValue? {
      }
    }
  }

  /** The standard attachments are neither hooks nor custom middlewares. */
  lemma StandardLayersArePlain(current: Option<User>, tenantID: string, path: string)
    ensures var std := StandardLayers(current, tenantID, path);
      forall k :: 0 <= k < |std| ==> !std[k].HookApplied? && !std[k].MiddlewareApplied?
  {
  }

  /**
   * Past the incoming context `base`, the hooks come first in registration
   * order and the middlewares last in registration order; a layer is a hook
   * exactly in the first block and a middleware exactly in the last one.
   */
  predicate LayeredInOrder(ctx: seq<Layer>, base: seq<Layer>, hooks: seq<Hook>, middlewares: seq<Middleware>) {
    && |base| + |hooks| + |middlewares| <= |ctx|
    && (forall i :: 0 <= i < |hooks| ==> ctx[|base| + i] == HookApplied(hooks[i]))
    && (forall j :: 0 <= j < |middlewares| ==> ctx[|ctx| - |middlewares| + j] == MiddlewareApplied(middlewares[j]))
    && (forall k :: |base| <= k < |ctx| ==> (ctx[k].HookApplied? <==> k < |base| + |hooks|))
    && (forall k :: |base| <= k < |ctx| ==> (ctx[k].MiddlewareApplied? <==> k >= |ctx| - |middlewares|))
  }

  /** Hooks, then layers that are neither hooks nor middlewares, then middlewares: each block sits where it was put. */
  lemma {:induction false} BlocksInOrder(base: seq<Layer>, hooks: seq<Hook>, std: seq<Layer>, middlewares: seq<Middleware>)
    requires forall k :: 0 <= k < |std| ==> !std[k].HookApplied? && !std[k].MiddlewareApplied?
    ensures LayeredInOrder(base + HookLayers(hooks) + std + MiddlewareLayers(middlewares), base, hooks, middlewares)
  {
    var hs := HookLayers(hooks);
    var ms := MiddlewareLayers(middlewares);
    var ctx := base + hs + std + ms;
    assert forall k :: |base| <= k < |base| + |hs| ==> ctx[k] == hs[k - |base|];
    assert forall k :: |base| + |hs| <= k < |ctx| - |ms| ==> ctx[k] == std[k - |base| - |hs|];
    assert forall k :: |ctx| - |ms| <= k < |ctx| ==> ctx[k] == ms[k - (|ctx| - |ms|)];
  }

  /**
   * The layering order of the context the handler builds: the hooks right
   * after the incoming context, the custom middlewares at the very end, just
   * before `next`, and no hook or middleware among the standard attachments.
   */
  lemma {:induction false} LayeringOrder(base: seq<Layer>, hooks: seq<Hook>, current: Option<User>, tenantID: string,
                                         path: string, middlewares: seq<Middleware>)
    ensures LayeredInOrder(RequestLayers(base, hooks, current, tenantID, path, middlewares), base, hooks, middlewares)
  {
    StandardLayersArePlain(current, tenantID, path);
    BlocksInOrder(base, hooks, StandardLayers(current, tenantID, path), middlewares);
  }

  /** The request the router is given by Expect. */
  datatype Outgoing = Outgoing(httpMethod: string, target: string, header: Header, body: Option<seq<Byte>>)

  class Suite {
    const env: TestEnvironment
    var user: Option<User>
    var middlewares: seq<Middleware>
    var beforeEach: seq<Hook>

    /** NewSuite, given the environment it builds: no override, no hooks, no middlewares. */
    constructor NewSuite(env: TestEnvironment)
      ensures this.env == env && user == None && middlewares == [] && beforeEach == []
    {
      this.env := env;
      user := None;
      middlewares := [];
      beforeEach := [];
    }

    /** AsUser: sets the override and the environment's user, and layers the user on the environment's context. */
    method AsUser(u: Option<User>)
      modifies this, env
      ensures user == u && env.user == u && env.ctx == old(env.ctx) + [UserValue(u)]
      ensures middlewares == old(middlewares) && beforeEach == old(beforeEach)
      ensures EffectiveUser(user, env.user) == u
    {
      user := u;
      env.user := u;
      env.ctx := env.ctx + [UserValue(u)];
    }

    /** WithMiddleware: appends at the end; earlier middlewares keep their order. */
    method WithMiddleware(middleware: Middleware)
      modifies this
      ensures middlewares == old(middlewares) + [middleware]
      ensures user == old(user) && beforeEach == old(beforeEach)
    {
      middlewares := middlewares + [middleware];
    }

    /** BeforeEach: appends at the end; earlier hooks keep their order. */
    method BeforeEach(hook: Hook)
      modifies this
      ensures beforeEach == old(beforeEach) + [hook]
      ensures user == old(user) && middlewares == old(middlewares)
    {
      beforeEach := beforeEach + [hook];
    }

    /** newRequest: the given method and path, no headers, no body. */
    method NewRequest(httpMethod: string, path: string) returns (r: Request)
      ensures fresh(r)
      ensures r.suite == this && r.httpMethod == httpMethod && r.path == path
      ensures r.headers == map[] && r.body == None
    {
      r := new Request(this, httpMethod, path);
    }

    method GET(path: string) returns (r: Request)
      ensures fresh(r) && r.suite == this && r.httpMethod == "GET" && r.path == path
      ensures r.headers == map[] && r.body == None
    {
      r := NewRequest("GET", path);
    }

    method POST(path: string) returns (r: Request)
      ensures fresh(r) && r.suite == this && r.httpMethod == "POST" && r.path == path
      ensures r.headers == map[] && r.body == None
    {
      r := NewRequest("POST", path);
    }

    method PUT(path: string) returns (r: Request)
      ensures fresh(r) && r.suite == this && r.httpMethod == "PUT" && r.path == path
      ensures r.headers == map[] && r.body == None
    {
      r := NewRequest("PUT", path);
    }

    method DELETE(path: string) returns (r: Request)
      ensures fresh(r) && r.suite == this && r.httpMethod == "DELETE" && r.path == path
      ensures r.headers == map[] && r.body == None
    {
      r := NewRequest("DELETE", path);
    }

    /**
     * The context middleware setupMiddleware installs, for one request with
     * incoming context `base` and URL path `path`; the suite's state is read
     * when the request is served.
     */
    method RequestContext(base: seq<Layer>, path: string) returns (ctx: seq<Layer>)
      ensures ctx == RequestLayers(base, beforeEach, EffectiveUser(user, env.user), env.tenantID, path, middlewares)
    {
      ctx := base;
      for i := 0 to |beforeEach|
        invariant ctx == base + HookLayers(beforeEach[..i])
      {
        assert HookLayers(beforeEach[..i + 1]) == HookLayers(beforeEach[..i]) + [HookApplied(beforeEach[i])];
        ctx := ctx + [HookApplied(beforeEach[i])];
      }
      assert beforeEach[..|beforeEach|] == beforeEach;
      ghost var hooked := ctx;

      var currentUser := env.user;
      if user.Some? {
        currentUser := user;
      }
      if currentUser.Some? {
        ctx := ctx + [UserValue(currentUser)];
      }
      ctx := ctx + [PoolValue, SessionValue, TenantIDValue(env.tenantID), AppValue, HeadValue, LogoValue];
      ctx := ctx + [LoggerValue(path)];
      ctx := ctx + [ParamsValue(TestIP, TestUserAgent, currentUser.Some?)];
      ctx := ctx + [PageCtxValue("en", path)];
      ghost var standard := ctx;
      assert currentUser == EffectiveUser(user, env.user);
      assert standard == hooked + StandardLayers(currentUser, env.tenantID, path);

      for i := 0 to |middlewares|
        invariant ctx == standard + MiddlewareLayers(middlewares[..i])
      {
        assert MiddlewareLayers(middlewares[..i + 1]) == MiddlewareLayers(middlewares[..i]) + [MiddlewareApplied(middlewares[i])];
        ctx := ctx + [MiddlewareApplied(middlewares[i])];
      }
      assert middlewares[..|middlewares|] == middlewares;
    }
  }

  const JsonContentType := "application/json"
  const FormContentType := "application/x-www-form-urlencoded"

  /** writer.FormDataContentType() for a boundary that needs no quoting. */
  function MultipartContentType(boundary: string): string {
    "multipart/form-data; boundary=" + boundary
  }

  class Request {
    const suite: Suite
    const httpMethod: string
    const path: string
    var headers: Header
    var body: Option<seq<Byte>>

    constructor (suite: Suite, httpMethod: string, path: string)
      ensures this.suite == suite && this.httpMethod == httpMethod && this.path == path
      ensures headers == map[] && body == None
    {
      this.suite := suite;
      this.httpMethod := httpMethod;
      this.path := path;
      headers := map[];
      body := None;
    }

    /**
     * JSON, given json.Marshal's result (None for an error). A marshalling
     * error makes Fatalf end the test before anything is stored.
     */
    method JSON(marshalled: Option<seq<Byte>>) returns (fatal: bool)
      modifies this
      ensures fatal == marshalled.None?
      ensures fatal ==> headers == old(headers) && body == old(body)
      ensures !fatal ==> body == marshalled && headers == Set(old(headers), "Content-Type", JsonContentType)
    {
      if marshalled.None? {
        return true;
      }
      fatal := false;
      body := marshalled;
      headers := Set(headers, "Content-Type", JsonContentType);
    }

    /** Form, given values.Encode()'s bytes. */
    method Form(encoded: seq<Byte>)
      modifies this
      ensures body == Some(encoded) && headers == Set(old(headers), "Content-Type", FormContentType)
    {
      body := Some(encoded);
      headers := Set(headers, "Content-Type", FormContentType);
    }

    /** MultipartData, given the bytes and the boundary the multipart writer produced for `data`. */
    method MultipartData(data: MultipartData, encoded: seq<Byte>, boundary: string)
      modifies this
      ensures body == Some(encoded) && headers == Set(old(headers), "Content-Type", MultipartContentType(boundary))
    {
      body := Some(encoded);
      headers := Set(headers, "Content-Type", MultipartContentType(boundary));
    }

    /** File (deprecated): a fresh multipart form holding the one file, then MultipartData. */
    method File(fieldName: string, fileName: string, content: seq<Byte>, encoded: seq<Byte>, boundary: string)
      returns (data: MultipartData)
      modifies this
      ensures fresh(data) && data.files == [MultipartFile(fieldName, fileName, content)] && data.formValues == None
      ensures body == Some(encoded) && headers == Set(old(headers), "Content-Type", MultipartContentType(boundary))
    {
      data := new MultipartData.NewMultipart();
      data.AddFile(fieldName, fileName, content);
      MultipartData(data, encoded, boundary);
    }

    /** Header: replaces every value of `key`. */
    method Header(key: string, value: string)
      modifies this
      ensures headers == Set(old(headers), key, value) && body == old(body)
    {
      headers := Set(headers, key, value);
    }

    /** Cookie: appends `name=value` to the Cookie values, keeping the earlier ones. */
    method Cookie(name: string, value: string)
      modifies this
      ensures headers == Add(old(headers), "Cookie", name + "=" + value) && body == old(body)
    {
      headers := Add(headers, "Cookie", name + "=" + value);
    }

    /** HTMX: Header("Hx-Request", "true"). */
    method HTMX()
      modifies this
      ensures headers == Set(old(headers), "Hx-Request", "true") && body == old(body)
    {
      Header("Hx-Request", "true");
    }

    /** The request Expect hands to the router: a body reader only when a body was set. */
    method Expect() returns (sent: Outgoing)
      ensures sent == Outgoing(httpMethod, path, headers, body)
      ensures sent.body.None? <==> body == None
    {
      var bodyReader: Option<seq<Byte>> := None;
      if body.Some? {
        bodyReader := body;
      }
      var header: Header := map[];
      var pending := headers.Keys;
      while pending != {}
        invariant pending <= headers.Keys
        invariant header.Keys == headers.Keys - pending
        invariant forall k :: k in header ==> header[k] == headers[k]
        decreases pending
      {
        var k :| k in pending;
        header := header[k := headers[k]];
        pending := pending - {k};
      }
      sent := Outgoing(httpMethod, path, header, bodyReader);
    }
  }

  /** Two body builders on one request: the later one's body and Content-Type are what Expect sends. */
  method LastBodyBuilderWins(s: Suite, path: string, marshalled: seq<Byte>, encoded: seq<Byte>) returns (sent: Outgoing)
    ensures sent.httpMethod == "POST" && sent.target == path
    ensures sent.body == Some(encoded)
    ensures sent.header == map["Content-Type" := [FormContentType]]
  {
    var r := s.POST(path);
    var fatal := r.JSON(Some(marshalled));
    r.Form(encoded);
    sent := r.Expect();
  }

  /** Cookie keeps earlier cookies, Header replaces, HTMX sets Hx-Request; a request without a body builder sends no body. */
  method HeaderBuilders(s: Suite, path: string, name1: string, value1: string, name2: string, value2: string)
    returns (sent: Outgoing)
    ensures sent.body == None
    ensures Values(sent.header, "Cookie") == [name1 + "=" + value1, name2 + "=" + value2]
    ensures Values(sent.header, "Hx-Request") == ["true"]
  {
    var r := s.GET(path);
    r.Cookie(name1, value1);
    r.HTMX();
    r.Cookie(name2, value2);
    r.Header("Hx-Request", "true");
    sent := r.Expect();
  }

  /** The inner loop of AddForm: appends each of `vs` to `key`, in order, leaving every other key alone. */
  method AddAll(h: Header, key: string, vs: seq<string>) returns (m: Header)
    ensures Values(m, key) == Values(h, key) + vs
    ensures forall k :: k != key ==> Values(m, k) == Values(h, k)
    ensures forall k :: k in m <==> k in h || (k == key && vs != [])
  {
    m := h;
    var j := 0;
    while j < |vs|
      invariant 0 <= j <= |vs|
      invariant m == if j == 0 then h else h[key := Values(h, key) + vs[..j]]
    {
      assert vs[..j + 1] == vs[..j] + [vs[j]];
      assert Values(m, key) == Values(h, key) + vs[..j];
      assert Values(m, key) + [vs[j]] == Values(h, key) + vs[..j + 1];
      m := Add(m, key, vs[j]);
      j := j + 1;
    }
    assert vs[..j] == vs;
  }

  datatype MultipartFile = MultipartFile(fieldName: string, fileName: string, content: seq<Byte>)

  /** The form values to build on: the current ones, or an empty map while there are none. */
  function ValuesOrEmpty(formValues: Option<Header>): Header {
    if formValues.Some? then formValues.value else map[]
  }

  class MultipartData {
    var files: seq<MultipartFile>
    var formValues: Option<Header>

    /** NewMultipart: no files, and no form-values map yet. */
    constructor NewMultipart()
      ensures files == [] && formValues == None
    {
      files := [];
      formValues := None;
    }

    /** AddFile: appends one file record. */
    method AddFile(fieldName: string, fileName: string, content: seq<Byte>)
      modifies this
      ensures files == old(files) + [MultipartFile(fieldName, fileName, content)]
      ensures formValues == old(formValues)
    {
      files := files + [MultipartFile(fieldName, fileName, content)];
    }

    /** AddField: creates the map on first use, then appends `value` to `key`. */
    method AddField(key: string, value: string)
      modifies this
      ensures formValues == Some(Add(ValuesOrEmpty(old(formValues)), key, value))
      ensures files == old(files)
    {
      if formValues.None? {
        formValues := Some(map[]);
      }
      formValues := Some(Add(formValues.value, key, value));
    }

    /**
     * AddForm: creates the map on first use, then appends every value of
     * every key, in order within a key. Keys are visited in no fixed order;
     * the result does not depend on it.
     */
    method AddForm(values: Header)
      modifies this
      ensures formValues.Some?
      ensures forall k :: Values(formValues.value, k) == Values(ValuesOrEmpty(old(formValues)), k) + Values(values, k)
      ensures forall k :: k in formValues.value <==> k in ValuesOrEmpty(old(formValues)) || (k in values && values[k] != [])
      ensures files == old(files)
    {
      if formValues.None? {
        formValues := Some(map[]);
      }
      var start := formValues.value;
      var m := start;
      var pending := values.Keys;
      while pending != {}
        invariant pending <= values.Keys
        invariant files == old(files)
        invariant forall k :: Values(m, k) == Values(start, k) + if k in pending then [] else Values(values, k)
        invariant forall k :: k in m <==> k in start || (k in values && k !in pending && values[k] != [])
        decreases pending
      {
        var key :| key in pending;
        m := AddAll(m, key, values[key]);
        pending := pending - {key};
      }
      formValues := Some(m);
    }
  }

  /** AddField twice on one key, with AddForm and AddFile in between: every value is kept, in order. */
  method FieldsAccumulate(key: string, first: string, more: seq<string>, second: string)
    returns (values: seq<string>, fileCount: nat)
    ensures values == [first] + more + [second]
    ensures fileCount == 1
  {
    var data := new MultipartData.NewMultipart();
    data.AddField(key, first);
    data.AddFile(key, "f", []);
    data.AddForm(map[key := more]);
    data.AddField(key, second);
    values := Values(data.formValues.value, key);
    fileCount := |data.files|;
  }
}

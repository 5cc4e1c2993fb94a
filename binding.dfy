/**
 The binder: `buildApiHandlers` turns one endpoint descriptor into a handler
 bound to a client, and `loadApi` writes, for every section of an endpoint
 table, an object of such handlers into a destination object.

 A handler is modelled by the request it hands to the client's `request`
 method when called, so nothing here depends on the transport.
 */
module Binding {
  import opened Text
  import opened Runtime

  // ---------------------------------------------------------------------
  // Descriptors
  // ---------------------------------------------------------------------

  /** The key path `params.0.type`, split at its dots as lodash `get` splits it. */
  const NeedIdPath: seq<string> := ["params", "0", "type"]

  /**
   `_.get('params.0.type', spec) === 'id'`: the descriptor's first parameter has
   `type` `"id"`. Only an object with a `params` property can pass.
   */
  predicate NeedsId(spec: Value): (r: bool)
    ensures r ==> spec.Obj? && "params" in spec.props
  {
    assert ArrayIndex("params").None? by { assert !IsDigit('p'); }
    Get(Get(Get(spec, "params"), "0"), "type") == Str("id")
  }

  /** `NeedsId` is lodash `get` along `NeedIdPath`, read one key at a time. */
  lemma NeedsIdIsPathGet(spec: Value)
    ensures NeedsId(spec) <==> GetPath(spec, NeedIdPath) == Str("id")
  {
    calc {
      GetPath(spec, NeedIdPath);
      Walk(Get(spec, "params"), ["0", "type"]);
      Walk(Get(Get(spec, "params"), "0"), ["type"]);
      Get(Get(Get(spec, "params"), "0"), "type");
    }
  }

  /** The usual JSON shape of a descriptor: `{method, path, params}`. */
  function Descriptor(verb: string, path: string, params: seq<Value>): Value {
    Obj(map["method" := Str(verb), "path" := Str(path), "params" := Arr(params)])
  }

  /** A parameter descriptor `{type: kind}`. */
  function Param(kind: string): Value {
    Obj(map["type" := Str(kind)])
  }

  /**
   For a descriptor whose `params` is an array: it is id-typed exactly when the
   array has a first element whose `type` is `"id"`.
   */
  lemma NeedsIdWithParams(spec: Value, params: seq<Value>)
    requires spec.Obj? && "params" in spec.props && spec.props["params"] == Arr(params)
    ensures NeedsId(spec) <==> |params| > 0 && Get(params[0], "type") == Str("id")
  {
    assert ArrayIndex("0") == Some(0) by { ArrayIndexOfNatToString(0); }
    if |params| == 0 {
      assert Get(Get(spec, "params"), "0") == Undefined;
    }
  }

  /** A descriptor without `params` is not id-typed. */
  lemma NoParamsNoId(spec: Value)
    requires spec.Obj? && "params" !in spec.props
    ensures !NeedsId(spec)
  {
  }

  lemma DescriptorNeedsId(verb: string, path: string, params: seq<Value>)
    ensures NeedsId(Descriptor(verb, path, params)) <==> |params| > 0 && Get(params[0], "type") == Str("id")
  {
    NeedsIdWithParams(Descriptor(verb, path, params), params);
  }

  // ---------------------------------------------------------------------
  // Handlers (buildApiHandlers)
  // ---------------------------------------------------------------------

  /**
   A built handler. `WithId` is the closure `(id, ...args) => client.request(...)`
   of an id-typed descriptor; it looks up `client.request` only when called.
   `Bound` is `client.request.bind(client, spec.method, spec.path)`, which needed a client
   with a `request` method when it was built.
   */
  datatype Handler =
    | WithId(client: Value, verb: Value, path: Value)
    | Bound(target: ApiClient, verb: Value, path: Value)

  /** The call `client.request(method, path, ...args)` a handler makes. */
  datatype Request = Request(client: ApiClient, verb: Value, path: Value, args: seq<Value>)

  /**
   Whether `client.request` reads as something other than undefined or null:
   the `request` method of a client object, or the `request` property of any
   other value.
   */
  predicate HasRequest(client: Value) {
    client.Ref? || !IsNullish(Get(client, "request"))
  }

  /**
   `buildApiHandlers(client)(spec)`. An id-typed descriptor always yields a
   handler. Any other descriptor is bound with `client.request.bind(client,
   spec.method, spec.path)`, which throws at the first step that fails: reading
   `request` of the client, reading `bind` of what that gave, reading
   `spec.method` while the arguments are evaluated, and calling `bind`, which
   only a real `request` method has.
   */
  function Build(client: Value, spec: Value): (r: Result<Handler>)
    ensures r.Ok? <==> NeedsId(spec) || (client.Ref? && !IsNullish(spec))
    ensures r.Ok? ==> r.value.WithId? == NeedsId(spec)
    ensures r.Ok? && r.value.Bound? ==> client == Ref(r.value.target)
    ensures r.Err? && IsNullish(client) ==> r.error == CannotReadProperty("request")
    ensures r.Err? && !IsNullish(client) && !HasRequest(client) ==> r.error == CannotReadProperty("bind")
    ensures r.Err? && HasRequest(client) && IsNullish(spec) ==> r.error == CannotReadProperty("method")
    ensures r.Err? && HasRequest(client) && !IsNullish(spec) ==> r.error == NotAFunction("bind")
  {
    if NeedsId(spec) then
      Ok(WithId(client, Get(spec, "method"), Get(spec, "path")))
    else if IsNullish(client) then
      Err(CannotReadProperty("request"))
    else if !HasRequest(client) then
      Err(CannotReadProperty("bind"))
    else if IsNullish(spec) then
      Err(CannotReadProperty("method"))
    else if !client.Ref? then
      Err(NotAFunction("bind"))
    else
      Ok(Bound(client.client, Get(spec, "method"), Get(spec, "path")))
  }

  /** The id an id-typed handler receives: its first argument, undefined when there is none. */
  function IdArg(callArgs: seq<Value>): Value {
    if |callArgs| > 0 then callArgs[0] else Undefined
  }

  /**
   Calling a handler with the arguments `callArgs`. A bound handler passes
   every argument on. An id-typed handler reads `client.request`, evaluates its
   arguments (the method, then `spec.path.replace('*', id)`, which converts the
   id with `String`), and only then calls what it read; the arguments after the
   id follow the path.
   */
  function Invoke(h: Handler, callArgs: seq<Value>): (r: Result<Request>)
    ensures h.Bound? ==> r.Ok? && r.value.client == h.target && r.value.args == callArgs
    ensures h.WithId? ==> (r.Ok? <==> h.client.Ref? && h.path.Str? && Stringable(IdArg(callArgs)))
    ensures h.WithId? && r.Ok? ==> Ref(r.value.client) == h.client && r.value.args == Rest(callArgs)
    ensures r.Ok? ==> r.value.verb == h.verb
    ensures h.WithId? && IsNullish(h.client) ==> r == Err(CannotReadProperty("request"))
    ensures h.WithId? && !IsNullish(h.client) && IsNullish(h.path) ==> r == Err(CannotReadProperty("replace"))
    ensures h.WithId? && !IsNullish(h.client) && !IsNullish(h.path) && !h.path.Str?
            ==> r == Err(NotAFunction("replace"))
    ensures h.WithId? && !IsNullish(h.client) && h.path.Str? && !Stringable(IdArg(callArgs))
            ==> r == Err(CannotConvertToPrimitive)
    ensures h.WithId? && !IsNullish(h.client) && !h.client.Ref? && h.path.Str? && Stringable(IdArg(callArgs))
            ==> r == Err(NotAFunction("request"))
  {
    match h
    case Bound(target, verb, path) => Ok(Request(target, verb, path, callArgs))
    case WithId(client, verb, path) =>
      var id := IdArg(callArgs);
      if IsNullish(client) then Err(CannotReadProperty("request"))
      else if IsNullish(path) then Err(CannotReadProperty("replace"))
      else if !path.Str? then Err(NotAFunction("replace"))
      else if !Stringable(id) then Err(CannotConvertToPrimitive)
      else if !client.Ref? then Err(NotAFunction("request"))
      else Ok(Request(client.client, verb, Str(ReplaceFirst(path.s, '*', ToJsString(id))), Rest(callArgs)))
  }

  /** The arguments after the first (`...args` after `id`). */
  function Rest(callArgs: seq<Value>): seq<Value> {
    if |callArgs| > 0 then callArgs[1..] else []
  }

  /**
   An id-typed handler bound to client `c` and called with `(id, ...args)`,
   where `String(id)` does not throw, issues one request to `c`, with the descriptor's method, the path with its
   first `*` replaced as `replace` does, and `args` in order.
   */
  lemma IdHandlerRequest(c: ApiClient, spec: Value, p: string, id: Value, args: seq<Value>)
    requires NeedsId(spec) && Get(spec, "path") == Str(p) && Stringable(id)
    ensures Build(Ref(c), spec).Ok?
    ensures Invoke(Build(Ref(c), spec).value, [id] + args)
         == Ok(Request(c, Get(spec, "method"), Str(ReplaceFirst(p, '*', ToJsString(id))), args))
  {
    assert ([id] + args)[1..] == args;
  }

  /**
   When `String(id)` holds no `$`, the id-typed handler's path is the
   descriptor's path with exactly its first `*` replaced by `String(id)`:
   the text before it and everything after it, later `*`s included, unchanged.
   */
  lemma IdHandlerPath(c: ApiClient, spec: Value, prefix: string, suffix: string, id: Value, args: seq<Value>)
    requires NeedsId(spec) && Get(spec, "path") == Str(prefix + "*" + suffix) && '*' !in prefix
    requires Stringable(id) && '$' !in ToJsString(id)
    ensures Build(Ref(c), spec).Ok?
    ensures Invoke(Build(Ref(c), spec).value, [id] + args)
         == Ok(Request(c, Get(spec, "method"), Str(prefix + ToJsString(id) + suffix), args))
  {
    IdHandlerRequest(c, spec, prefix + "*" + suffix, id, args);
    ReplaceFirstAfterPrefix(prefix, '*', suffix, ToJsString(id));
  }

  /** An id-typed handler whose path holds no `*` sends the path unchanged, whatever the id. */
  lemma IdHandlerWithoutPlaceholder(c: ApiClient, spec: Value, p: string, id: Value, args: seq<Value>)
    requires NeedsId(spec) && Get(spec, "path") == Str(p) && '*' !in p && Stringable(id)
    ensures Build(Ref(c), spec).Ok?
    ensures Invoke(Build(Ref(c), spec).value, [id] + args) == Ok(Request(c, Get(spec, "method"), Str(p), args))
  {
    IdHandlerRequest(c, spec, p, id, args);
  }

  /** Called with no argument at all, an id-typed handler puts the text `undefined` in place of the `*`. */
  lemma IdHandlerWithoutArguments(c: ApiClient, spec: Value, prefix: string, suffix: string)
    requires NeedsId(spec) && Get(spec, "path") == Str(prefix + "*" + suffix) && '*' !in prefix
    ensures Build(Ref(c), spec).Ok?
    ensures Invoke(Build(Ref(c), spec).value, [])
         == Ok(Request(c, Get(spec, "method"), Str(prefix + "undefined" + suffix), []))
  {
    ReplaceFirstAfterPrefix(prefix, '*', suffix, "undefined");
  }

  /**
   A non-id handler bound to client `c` issues one request to `c` with the
   descriptor's method and path verbatim (a `*` in it stays) and every call
   argument in order.
   */
  lemma PlainHandlerRequest(c: ApiClient, spec: Value, args: seq<Value>)
    requires !NeedsId(spec) && !IsNullish(spec)
    ensures Build(Ref(c), spec).Ok?
    ensures Invoke(Build(Ref(c), spec).value, args) == Ok(Request(c, Get(spec, "method"), Get(spec, "path"), args))
  {
  }

  /** A request, if one is issued at all, goes to the client the handler was built with. */
  lemma RequestGoesToBuildClient(client: Value, spec: Value, args: seq<Value>)
    requires Build(client, spec).Ok? && Invoke(Build(client, spec).value, args).Ok?
    ensures client == Ref(Invoke(Build(client, spec).value, args).value.client)
  {
  }

  // ---------------------------------------------------------------------
  // Namespaces (loadApi)
  // ---------------------------------------------------------------------

  /**
   A section of the endpoint table: its endpoint names, in the order an
   enumeration of the section object visits them, and their descriptors. A
   name without a descriptor is a property holding undefined.
   */
  datatype SectionSpec = SectionSpec(names: seq<string>, descriptors: map<string, Value>) {
    /** The descriptor of endpoint `e` (`section[e]`). */
    function At(e: string): Value {
      if e in descriptors then descriptors[e] else Undefined
    }
  }

  /** The endpoint table: section name to section. */
  type ApiTable = map<string, SectionSpec>

  /** A property of a destination object: a section of handlers, or something else it held. */
  datatype Prop = Section(handlers: map<string, Handler>) | Native(name: string)

  /** A destination object whose properties `loadApi` assigns. */
  class Namespace {
    var props: map<string, Prop>

    constructor (props: map<string, Prop>)
      ensures this.props == props
    {
      this.props := props;
    }
  }

  /** The first position of `section.names`, from `i` on, whose descriptor cannot be bound. */
  function FirstUnbindable(client: Value, section: SectionSpec, i: nat): (r: Option<nat>)
    requires i <= |section.names|
    decreases |section.names| - i
    ensures r.None? <==> forall j :: i <= j < |section.names| ==> Build(client, section.At(section.names[j])).Ok?
    ensures r.Some? ==> i <= r.value < |section.names| && Build(client, section.At(section.names[r.value])).Err?
    ensures r.Some? ==> forall j :: i <= j < r.value ==> Build(client, section.At(section.names[j])).Ok?
  {
    if i == |section.names| then None
    else if Build(client, section.At(section.names[i])).Err? then Some(i)
    else FirstUnbindable(client, section, i + 1)
  }

  /**
   `_.mapValues(buildApiHandlers(client), section)`: an object with the same
   endpoint names, each mapped to the handler built from its descriptor. The
   names are visited in order, and the first descriptor that cannot be bound
   throws its error.
   */
  function BindSection(client: Value, section: SectionSpec): (r: Result<map<string, Handler>>)
    ensures r.Ok? <==> forall e :: e in section.names ==> Build(client, section.At(e)).Ok?
    ensures r.Ok? ==> r.value.Keys == set e | e in section.names
    ensures r.Ok? ==> forall e :: e in section.names ==> Build(client, section.At(e)) == Ok(r.value[e])
  {
    match FirstUnbindable(client, section, 0)
    case Some(i) => Err(Build(client, section.At(section.names[i])).error)
    case None =>
      assert forall e :: e in section.names ==> Build(client, section.At(e)).Ok? by {
        forall e | e in section.names ensures Build(client, section.At(e)).Ok? {
          var j :| 0 <= j < |section.names| && section.names[j] == e;
        }
      }
      Ok(map e | e in section.names :: Build(client, section.At(e)).value)
  }

  /**
   A section throws the error of the first descriptor, in enumeration order,
   that cannot be bound.
   */
  lemma BindSectionError(client: Value, section: SectionSpec, i: nat)
    requires i < |section.names| && Build(client, section.At(section.names[i])).Err?
    requires forall j :: 0 <= j < i ==> Build(client, section.At(section.names[j])).Ok?
    ensures BindSection(client, section) == Err(Build(client, section.At(section.names[i])).error)
  {
    var first := FirstUnbindable(client, section, 0);
    assert first.Some?;
    assert first.value == i;
  }

  /** The error a section throws is that of its first descriptor that cannot be bound. */
  lemma BindSectionErrorSource(client: Value, section: SectionSpec)
    requires BindSection(client, section).Err?
    ensures exists i :: 0 <= i < |section.names|
                        && Build(client, section.At(section.names[i])) == Err(BindSection(client, section).error)
                        && forall j :: 0 <= j < i ==> Build(client, section.At(section.names[j])).Ok?
  {
    var i := FirstUnbindable(client, section, 0).value;
    assert Build(client, section.At(section.names[i])) == Err(BindSection(client, section).error);
  }

  /** With an undefined or null client, a section can only throw reading `request`. */
  lemma BindSectionWithoutClient(client: Value, section: SectionSpec)
    requires IsNullish(client) && BindSection(client, section).Err?
    ensures BindSection(client, section).error == CannotReadProperty("request")
  {
    BindSectionErrorSource(client, section);
  }

  /**
   Which error a section throws can depend on the enumeration order: with a
   client whose `request` property is the number 1, an undefined descriptor
   fails reading `method`, a defined one calling `bind`.
   */
  lemma BindSectionOrderMatters()
    ensures var client := Obj(map["request" := Num(1)]);
            var descriptors := map["a" := Undefined, "b" := Descriptor("GET", "/x", [])];
            && BindSection(client, SectionSpec(["a", "b"], descriptors)) == Err(CannotReadProperty("method"))
            && BindSection(client, SectionSpec(["b", "a"], descriptors)) == Err(NotAFunction("bind"))
  {
    var client := Obj(map["request" := Num(1)]);
    var descriptors := map["a" := Undefined, "b" := Descriptor("GET", "/x", [])];
    DescriptorNeedsId("GET", "/x", []);
    assert SectionSpec(["a", "b"], descriptors).At("a") == Undefined;
    assert SectionSpec(["b", "a"], descriptors).At("b") == Descriptor("GET", "/x", []);
    BindSectionError(client, SectionSpec(["a", "b"], descriptors), 0);
    BindSectionError(client, SectionSpec(["b", "a"], descriptors), 0);
  }

  // ---------------------------------------------------------------------
  // The loop of loadApi, over the outcome of binding each section
  // ---------------------------------------------------------------------

  /** What binding one section gives: the object of its handlers, or the error it throws. */
  type Outcome = Result<map<string, Handler>>

  /** Each section name `order` lists has an outcome. */
  ghost predicate Covers(order: seq<string>, outcomes: map<string, Outcome>) {
    forall s :: s in order ==> s in outcomes
  }

  /**
   The loop of `loadApi` over given outcomes: the handlers of each listed
   section are assigned to `props` in turn, until a section throws. The
   result is the properties then, and the error thrown, if any.
   */
  function Assign(props: map<string, Prop>, outcomes: map<string, Outcome>, order: seq<string>)
    : (r: (map<string, Prop>, Option<JsError>))
    requires Covers(order, outcomes)
    decreases |order|
    ensures r.1.None? <==> forall s :: s in order ==> outcomes[s].Ok?
    ensures r.0.Keys <= props.Keys + set s | s in order
  {
    if order == [] then (props, None)
    else
      match outcomes[order[0]]
      case Err(e) => (props, Some(e))
      case Ok(hs) => Assign(props[order[0] := Section(hs)], outcomes, order[1..])
  }

  /** The handler objects of the sections `names`, each of which was bound. */
  function Assigned(outcomes: map<string, Outcome>, names: set<string>): map<string, Prop>
    requires forall s :: s in names ==> s in outcomes && outcomes[s].Ok?
  {
    map s | s in names :: Section(outcomes[s].value)
  }

  /** Setting `s` and then merging `m` is merging `m` with `s` set, when `m` agrees on `s`. */
  lemma SetThenMerge<K, V>(props: map<K, V>, m: map<K, V>, s: K, x: V)
    requires s in m ==> m[s] == x
    ensures props[s := x] + m == props + m[s := x]
  {
  }

  /**
   When every listed section was bound, the loop adds exactly those sections,
   whatever their order: each listed name holds its section's handlers, and
   every other property is kept.
   */
  lemma {:induction false} AssignAll(props: map<string, Prop>, outcomes: map<string, Outcome>, order: seq<string>)
    requires Covers(order, outcomes)
    requires forall s :: s in order ==> outcomes[s].Ok?
    decreases |order|
    ensures Assign(props, outcomes, order) == (props + Assigned(outcomes, set s | s in order), None)
  {
    if order == [] {
      assert (set s | s in order) == {};
      assert props + Assigned(outcomes, {}) == props;
    } else {
      var s, tail := order[0], order[1..];
      var added := Section(outcomes[s].value);
      assert forall x :: x in order <==> x == s || x in tail;
      var names, rest := set x | x in order, set x | x in tail;
      assert names == rest + {s};
      AssignAll(props[s := added], outcomes, tail);
      assert Assigned(outcomes, names) == Assigned(outcomes, rest)[s := added];
      SetThenMerge(props, Assigned(outcomes, rest), s, added);
    }
  }

  /**
   If the section at position `i` threw, the loop throws; when every section
   before it was bound, the error is that section's.
   */
  lemma {:induction false} AssignStops(props: map<string, Prop>, outcomes: map<string, Outcome>, order: seq<string>, i: nat)
    requires Covers(order, outcomes)
    requires i < |order| && outcomes[order[i]].Err?
    decreases |order|
    ensures Assign(props, outcomes, order).1.Some?
    ensures (forall j :: 0 <= j < i ==> outcomes[order[j]].Ok?) ==>
              Assign(props, outcomes, order).1 == Some(outcomes[order[i]].error)
  {
    match outcomes[order[0]]
    case Err(e) =>
    case Ok(hs) =>
      assert order[1..][i - 1] == order[i];
      AssignStops(props[order[0] := Section(hs)], outcomes, order[1..], i - 1);
      assert forall j :: 0 <= j < i - 1 ==> order[1..][j] == order[j + 1];
  }

  /** Position `i` of `order` holds the first section that threw, and it threw `err`. */
  ghost predicate FirstError(outcomes: map<string, Outcome>, order: seq<string>, i: nat, err: JsError)
    requires Covers(order, outcomes)
  {
    && i < |order|
    && outcomes[order[i]] == Err(err)
    && forall j :: 0 <= j < i ==> outcomes[order[j]].Ok?
  }

  /** An error from the loop is the error of the first listed section that threw. */
  lemma {:induction false} AssignErrorSource(props: map<string, Prop>, outcomes: map<string, Outcome>, order: seq<string>)
    requires Covers(order, outcomes)
    decreases |order|
    ensures var err := Assign(props, outcomes, order).1;
            err.Some? ==> exists i: nat :: FirstError(outcomes, order, i, err.value)
  {
    if order != [] {
      match outcomes[order[0]]
      case Err(e) =>
        assert FirstError(outcomes, order, 0, e);
      case Ok(hs) =>
        var rest := order[1..];
        AssignErrorSource(props[order[0] := Section(hs)], outcomes, rest);
        var err := Assign(props, outcomes, order).1;
        if err.Some? {
          var k: nat :| FirstError(outcomes, rest, k, err.value);
          assert forall j :: 1 <= j <= k + 1 ==> order[j] == rest[j - 1];
          assert FirstError(outcomes, order, k + 1, err.value);
        }
    }
  }

  /**
   Whether it completes or throws part-way, the loop never touches a property
   whose name it does not list.
   */
  lemma {:induction false} AssignFrame(props: map<string, Prop>, outcomes: map<string, Outcome>, order: seq<string>, k: string)
    requires Covers(order, outcomes) && k !in order
    decreases |order|
    ensures var after := Assign(props, outcomes, order).0;
            (k in after <==> k in props) && (k in props ==> after[k] == props[k])
  {
    if order != [] {
      match outcomes[order[0]]
      case Err(e) =>
      case Ok(hs) =>
        AssignFrame(props[order[0] := Section(hs)], outcomes, order[1..], k);
    }
  }

  // ---------------------------------------------------------------------
  // loadApi
  // ---------------------------------------------------------------------

  /** The section names `order` lists are sections of `apis`. */
  ghost predicate ListsSections(order: seq<string>, apis: ApiTable) {
    forall s :: s in order ==> s in apis
  }

  /** `order` is an enumeration of the sections of `apis` (`Object.entries` order). */
  ghost predicate Enumerates(order: seq<string>, apis: ApiTable) {
    ListsSections(order, apis) && forall s :: s in apis ==> s in order
  }

  /** The outcome of binding each section of `apis` to `client`. */
  function Outcomes(client: Value, apis: ApiTable): map<string, Outcome> {
    map s | s in apis :: BindSection(client, apis[s])
  }

  /**
   The destination's properties after `loadApi` binds the sections of `apis`
   to `client` in the order `order`, starting from `props`, with the error
   that stopped it, if any.
   */
  function Loaded(props: map<string, Prop>, apis: ApiTable, order: seq<string>, client: Value)
    : (r: (map<string, Prop>, Option<JsError>))
    requires ListsSections(order, apis)
    ensures r.1.None? <==> forall s :: s in order ==> BindSection(client, apis[s]).Ok?
    ensures r.0.Keys <= props.Keys + set s | s in order
  {
    Assign(props, Outcomes(client, apis), order)
  }

  /** Every section of `names` can be bound to `client`. */
  ghost predicate AllBind(client: Value, apis: ApiTable, names: set<string>)
    requires names <= apis.Keys
  {
    forall s :: s in names ==> BindSection(client, apis[s]).Ok?
  }

  /** The sections `names` of `apis`, each bound to `client`. */
  function Sections(client: Value, apis: ApiTable, names: set<string>): map<string, Prop>
    requires names <= apis.Keys && AllBind(client, apis, names)
  {
    Assigned(Outcomes(client, apis), names)
  }

  /**
   `loadApi(apis, client, destination)`: for each section in turn, the object of
   its handlers is assigned to the destination property of the same name; a
   section that cannot be bound throws, leaving the assignments made so far.
   */
  method LoadApi(apis: ApiTable, order: seq<string>, client: Value, destination: Namespace)
    returns (err: Option<JsError>)
    requires ListsSections(order, apis)
    modifies destination
    ensures (destination.props, err) == Loaded(old(destination.props), apis, order, client)
  {
    var i := 0;
    while i < |order|
      invariant 0 <= i <= |order|
      invariant Loaded(destination.props, apis, order[i..], client) == Loaded(old(destination.props), apis, order, client)
    {
      var sectionName := order[i];
      assert order[i..][1..] == order[i + 1..];
      match BindSection(client, apis[sectionName]) {
        case Err(e) =>
          return Some(e);
        case Ok(hs) =>
          destination.props := destination.props[sectionName := Section(hs)];
      }
      i := i + 1;
    }
    return None;
  }

  /** When every section binds, the outcomes hold exactly the sections' handler objects. */
  lemma OutcomesAllBind(client: Value, apis: ApiTable, order: seq<string>)
    requires Enumerates(order, apis) && AllBind(client, apis, apis.Keys)
    ensures Covers(order, Outcomes(client, apis))
    ensures forall s :: s in order ==> Outcomes(client, apis)[s].Ok?
    ensures Assigned(Outcomes(client, apis), set s | s in order) == Sections(client, apis, apis.Keys)
  {
    var outcomes := Outcomes(client, apis);
    forall s | s in order ensures s in outcomes && outcomes[s].Ok? {
      assert outcomes[s] == BindSection(client, apis[s]);
    }
    assert (set s | s in order) == apis.Keys;
  }

  /**
   The result of a complete `loadApi`: the call succeeds exactly when every
   section can be bound; then the destination holds, under every section name,
   the handlers of that section, and keeps every other property it had.
   */
  lemma LoadApiResult(props: map<string, Prop>, apis: ApiTable, order: seq<string>, client: Value)
    requires Enumerates(order, apis)
    ensures Loaded(props, apis, order, client).1.None? <==> AllBind(client, apis, apis.Keys)
    ensures AllBind(client, apis, apis.Keys) ==>
              Loaded(props, apis, order, client).0 == props + Sections(client, apis, apis.Keys)
  {
    if AllBind(client, apis, apis.Keys) {
      OutcomesAllBind(client, apis, order);
      AssignAll(props, Outcomes(client, apis), order);
    } else {
      var s :| s in apis && BindSection(client, apis[s]).Err?;
      var i :| 0 <= i < |order| && order[i] == s;
      AssignStops(props, Outcomes(client, apis), order, i);
    }
  }

  /**
   With an undefined or null client, loading throws reading `request` as soon
   as a listed section has an endpoint that is not id-typed.
   */
  lemma LoadedWithoutClient(props: map<string, Prop>, apis: ApiTable, order: seq<string>, client: Value, s: string, e: string)
    requires ListsSections(order, apis) && IsNullish(client)
    requires s in order && e in apis[s].names && !NeedsId(apis[s].At(e))
    ensures Loaded(props, apis, order, client).1 == Some(CannotReadProperty("request"))
  {
    var outcomes := Outcomes(client, apis);
    var i :| 0 <= i < |order| && order[i] == s;
    AssignStops(props, outcomes, order, i);
    AssignErrorSource(props, outcomes, order);
    var err := Loaded(props, apis, order, client).1.value;
    var k: nat :| FirstError(outcomes, order, k, err);
    BindSectionWithoutClient(client, apis[order[k]]);
  }

  /**
   After binding `apis` into a destination, each section name holds an object
   with exactly that section's endpoint names, each mapped to the handler
   built from its descriptor.
   */
  lemma LoadedSection(props: map<string, Prop>, apis: ApiTable, order: seq<string>, client: Value, s: string)
    requires Enumerates(order, apis) && s in apis
    requires Loaded(props, apis, order, client).1.None?
    ensures var after := Loaded(props, apis, order, client).0;
            s in after && after[s].Section?
            && after[s].handlers.Keys == (set e | e in apis[s].names)
            && forall e :: e in apis[s].names ==> Build(client, apis[s].At(e)) == Ok(after[s].handlers[e])
  {
    LoadApiResult(props, apis, order, client);
  }

  /**
   Whether it succeeds or throws part-way, loading never touches a property
   whose name is not a section of `apis`.
   */
  lemma LoadedFrame(props: map<string, Prop>, apis: ApiTable, order: seq<string>, client: Value, k: string)
    requires ListsSections(order, apis) && k !in apis
    ensures var after := Loaded(props, apis, order, client).0;
            (k in after <==> k in props) && (k in props ==> after[k] == props[k])
  {
    AssignFrame(props, Outcomes(client, apis), order, k);
  }

  /**
   With a client that has a `request` method, every section of a table whose
   descriptors are all defined can be bound, so loading never fails.
   */
  lemma LoadWithClientSucceeds(props: map<string, Prop>, apis: ApiTable, order: seq<string>, c: ApiClient)
    requires Enumerates(order, apis)
    requires forall s, e :: s in apis && e in apis[s].names ==> !IsNullish(apis[s].At(e))
    ensures Loaded(props, apis, order, Ref(c)).1.None?
  {
    LoadApiResult(props, apis, order, Ref(c));
  }

  /** The monitor table's two descriptors: an id-typed `get` with a placeholder in its path, and `list`. */
  const MonitorGet: Value := Descriptor("GET", "/monitor/*", [Param("id")])
  const MonitorList: Value := Descriptor("GET", "/monitor", [])
  const MonitorSection: SectionSpec := SectionSpec(["get", "list"], map["get" := MonitorGet, "list" := MonitorList])

  /**
   The two-endpoint monitor table: `monitor.get(42)` requests `GET /monitor/42`
   and `monitor.list()` requests `GET /monitor`, both from the bound client.
   */
  lemma MonitorScenario(c: ApiClient)
    ensures var loaded := Loaded(map[], map["monitor" := MonitorSection], ["monitor"], Ref(c));
            && loaded.1 == None
            && loaded.0 == map["monitor" := Section(map["get" := WithId(Ref(c), Str("GET"), Str("/monitor/*")),
                                                         "list" := Bound(c, Str("GET"), Str("/monitor"))])]
            && Invoke(WithId(Ref(c), Str("GET"), Str("/monitor/*")), [Num(42)])
               == Ok(Request(c, Str("GET"), Str("/monitor/42"), []))
            && Invoke(Bound(c, Str("GET"), Str("/monitor")), [])
               == Ok(Request(c, Str("GET"), Str("/monitor"), []))
  {
    MonitorLoaded(c);
    MonitorGetRequest(c);
  }

  /** `monitor.get(42)` puts `42` in place of the placeholder. */
  lemma MonitorGetRequest(c: ApiClient)
    ensures Invoke(WithId(Ref(c), Str("GET"), Str("/monitor/*")), [Num(42)])
            == Ok(Request(c, Str("GET"), Str("/monitor/42"), []))
  {
    var h := WithId(Ref(c), Str("GET"), Str("/monitor/*"));
    assert IdArg([Num(42)]) == Num(42) && Rest([Num(42)]) == [];
    assert Stringable(Num(42));
    assert Invoke(h, [Num(42)]) == Ok(Request(c, Str("GET"), Str(ReplaceFirst("/monitor/*", '*', ToJsString(Num(42)))), []));
    MonitorGetPath();
  }

  /** The path of `monitor.get(42)`. */
  lemma MonitorGetPath()
    ensures ReplaceFirst("/monitor/*", '*', ToJsString(Num(42))) == "/monitor/42"
  {
    assert ToJsString(Num(42)) == "42" by { assert NatToString(42) == "42"; }
    assert "/monitor/" + ['*'] + "" == "/monitor/*";
    ReplaceFirstAfterPrefix("/monitor/", '*', "", "42");
    assert "/monitor/" + "42" + "" == "/monitor/42";
  }

  /** The monitor descriptors build an id handler for `get` and a bound method for `list`. */
  lemma MonitorHandlers(c: ApiClient)
    ensures Build(Ref(c), MonitorGet) == Ok(WithId(Ref(c), Str("GET"), Str("/monitor/*")))
    ensures Build(Ref(c), MonitorList) == Ok(Bound(c, Str("GET"), Str("/monitor")))
  {
    DescriptorNeedsId("GET", "/monitor/*", [Param("id")]);
    DescriptorNeedsId("GET", "/monitor", []);
  }

  /** Loading the monitor table binds `get` to an id handler and `list` to the client's method. */
  lemma MonitorLoaded(c: ApiClient)
    ensures Loaded(map[], map["monitor" := MonitorSection], ["monitor"], Ref(c))
            == (map["monitor" := Section(map["get" := WithId(Ref(c), Str("GET"), Str("/monitor/*")),
                                              "list" := Bound(c, Str("GET"), Str("/monitor"))])], None)
  {
    var hs := map["get" := WithId(Ref(c), Str("GET"), Str("/monitor/*")), "list" := Bound(c, Str("GET"), Str("/monitor"))];
    MonitorHandlers(c);
    assert MonitorSection.At("get") == MonitorGet && MonitorSection.At("list") == MonitorList;
    var bound := BindSection(Ref(c), MonitorSection);
    assert bound.value.Keys == hs.Keys;
    assert bound.value == hs;
    assert ["monitor"][1..] == [];
  }
}

/**
 The library's entry points: the shared default client with the namespace
 bound to it at load time, `initialize`, which merges options into that
 shared client, and the `DatadogClient` constructor, which binds a fresh
 namespace to a client it chooses from its options.
 */
module Datadog {
  import opened Text
  import opened Runtime
  import opened Binding

  // ---------------------------------------------------------------------
  // initialize: key-by-key merge into the shared client
  // ---------------------------------------------------------------------

  /** The properties `initialize(options)` copies: those of `options || {}`. */
  function OptionProps(options: Value): (r: map<string, Value>)
    ensures !Truthy(options) ==> r == map[]
    ensures forall k :: k in r ==> r[k] == Get(options, k)
  {
    var source := if Truthy(options) then options else Obj(map[]);
    assert forall k :: k in OwnProps(source) ==> OwnProps(source)[k] == Get(options, k) by {
      forall k | k in OwnProps(source) ensures OwnProps(source)[k] == Get(options, k) {
        OwnPropsAgreeWithGet(source, k);
      }
    }
    OwnProps(source)
  }

  /** The client's own fields after `initialize(options)`. */
  function Merged(fields: map<string, Value>, options: Value): (r: map<string, Value>)
    ensures r.Keys == fields.Keys + OptionProps(options).Keys
    ensures forall k :: k in r ==> r[k] == if k in OptionProps(options) then Get(options, k) else fields[k]
  {
    fields + OptionProps(options)
  }

  /** After the merge, every key of `options` holds `options[key]`. */
  lemma MergedSetsOptionKeys(fields: map<string, Value>, options: Value, k: string)
    requires k in OptionProps(options)
    ensures k in Merged(fields, options) && Merged(fields, options)[k] == Get(options, k)
  {
    if Truthy(options) {
      OwnPropsAgreeWithGet(options, k);
    }
  }

  /** The merge leaves every field whose key `options` lacks as it was. */
  lemma MergedKeepsOtherFields(fields: map<string, Value>, options: Value, k: string)
    requires k !in OptionProps(options)
    ensures (k in Merged(fields, options) <==> k in fields)
    ensures k in fields ==> Merged(fields, options)[k] == fields[k]
  {
  }

  /** `initialize(undefined)`, `initialize(null)` and any other falsy argument change nothing. */
  lemma MergedFalsyIsNoOp(fields: map<string, Value>, options: Value)
    requires !Truthy(options)
    ensures Merged(fields, options) == fields
  {
    assert OptionProps(options) == map[];
    assert fields + map[] == fields;
  }

  /** Initializing twice with the same options is the same as doing it once. */
  lemma MergedIdempotent(fields: map<string, Value>, options: Value)
    ensures Merged(Merged(fields, options), options) == Merged(fields, options)
  {
  }

  /** Of two initializations, the later one wins on every key it sets. */
  lemma MergedLaterWins(fields: map<string, Value>, first: Value, second: Value, k: string)
    requires k in OptionProps(second)
    ensures Merged(Merged(fields, first), second)[k] == Get(second, k)
  {
    MergedSetsOptionKeys(Merged(fields, first), second, k);
  }

  /** Writing `k` after a merge is merging with `k` written into the second map. */
  lemma MergeThenSet<K, V>(first: map<K, V>, second: map<K, V>, k: K, v: V)
    ensures (first + second)[k := v] == first + second[k := v]
  {
  }

  // ---------------------------------------------------------------------
  // The constructor's choice of client
  // ---------------------------------------------------------------------

  /** Where a `DatadogClient` takes its client from: a given value, or a new `ApiClient(options)`. */
  datatype Choice = Given(client: Value) | Create(options: Value)

  /**
   The choice as written: `(_.has('client'), options) ? options.client : new
   ApiClient(options || {})`. The comma operator evaluates the curried
   `_.has('client')` and discards it, so the test is the truthiness of
   `options` alone.
   */
  function ChooseClientAsWritten(options: Value): (c: Choice)
    ensures Truthy(options) <==> c.Given?
    ensures c.Given? ==> c.client == Get(options, "client")
    ensures c.Create? ==> c.options == Obj(map[])
  {
    if Truthy(options) then Given(Get(options, "client")) else Create(Obj(map[]))
  }

  /**
   The choice as intended: `_.has('client', options) ? options.client : new
   ApiClient(options || {})`: options that carry their own client supply it,
   and any other options configure a new client.
   */
  function ChooseClient(options: Value): (c: Choice)
    ensures c.Given? <==> Has(options, "client")
    ensures c.Given? ==> c.client == OwnProps(options)["client"]
    ensures c.Create? && Truthy(options) ==> c.options == options
    ensures c.Create? && !Truthy(options) ==> c.options == Obj(map[])
  {
    if Has(options, "client") then
      OwnPropsAgreeWithGet(options, "client");
      Given(Get(options, "client"))
    else
      Create(if Truthy(options) then options else Obj(map[]))
  }

  /** A value without an own `client` property reads `client` as undefined. */
  lemma NoOwnClientReadsUndefined(options: Value)
    requires !Has(options, "client")
    ensures Get(options, "client") == Undefined
  {
    assert ArrayIndex("client").None? by { assert !IsDigit('c'); }
  }

  /**
   As written, options without a `client` property (such as `{api_key: "k"}`)
   make the constructor bind to `undefined`; loading then throws on the first
   section with a non-id endpoint, reading `request` of undefined.
   */
  lemma AsWrittenBindsUndefined(options: Value, apis: ApiTable, order: seq<string>, s: string, e: string)
    requires Truthy(options) && !Has(options, "client")
    requires Enumerates(order, apis) && s in apis && e in apis[s].names && !NeedsId(apis[s].At(e))
    ensures ChooseClientAsWritten(options) == Given(Undefined)
    ensures ChooseClient(options) == Create(options)
    ensures Loaded(map[], apis, order, Undefined).1 == Some(CannotReadProperty("request"))
  {
    NoOwnClientReadsUndefined(options);
    LoadedWithoutClient(map[], apis, order, Undefined, s, e);
  }

  /** The smallest instance: `new DatadogClient({api_key: "k"})`. */
  lemma AsWrittenExample()
    ensures ChooseClientAsWritten(Obj(map["api_key" := Str("k")])) == Given(Undefined)
    ensures ChooseClient(Obj(map["api_key" := Str("k")])) == Create(Obj(map["api_key" := Str("k")]))
  {
  }

  // ---------------------------------------------------------------------
  // The library instance
  // ---------------------------------------------------------------------

  /**
   The loaded library: the endpoint table and its section order, the shared
   client created with `{}`, and the exported `DatadogClient` function object,
   onto which the table was bound with the shared client.
   */
  class Library {
    const api: ApiTable
    const order: seq<string>
    const initialClient: ApiClient
    const exported: Namespace
    const loadError: Option<JsError>

    ghost predicate Valid() {
      Enumerates(order, api)
    }

    /**
     Module load: create the shared client, give the exported function its
     `initialize` property, then bind the table onto it with the shared client.
     */
    constructor Load(api: ApiTable, order: seq<string>)
      requires Enumerates(order, api)
      ensures Valid() && this.api == api && this.order == order
      ensures fresh(initialClient) && fresh(exported)
      ensures initialClient.options == Obj(map[]) && initialClient.fields == map[]
      ensures (exported.props, loadError)
           == Loaded(map["initialize" := Native("initialize")], api, order, Ref(initialClient))
    {
      var client := new ApiClient(Obj(map[]));
      var destination := new Namespace(map["initialize" := Native("initialize")]);
      var err := LoadApi(api, order, Ref(client), destination);
      this.api := api;
      this.order := order;
      initialClient := client;
      exported := destination;
      loadError := err;
    }

    /**
     `DatadogClient.initialize(options)`: each key of `options || {}` is written
     onto the shared client, one at a time, with the value `options[key]`.
     */
    method Initialize(options: Value)
      modifies initialClient
      ensures initialClient.fields == Merged(old(initialClient.fields), options)
    {
      var props := OptionProps(options);
      var keys := props.Keys;
      ghost var start, written: map<string, Value> := initialClient.fields, map[];
      while keys != {}
        invariant keys !! written.Keys && keys + written.Keys == props.Keys
        invariant forall k :: k in written ==> written[k] == props[k]
        invariant initialClient.fields == start + written
        decreases keys
      {
        var key :| key in keys;
        MergedSetsOptionKeys(start, options, key);
        assert props[key] == Get(options, key);
        MergeThenSet(start, written, key, props[key]);
        initialClient.fields := initialClient.fields[key := Get(options, key)];
        written := written[key := props[key]];
        keys := keys - {key};
      }
      assert written == props;
    }

    /**
     `new DatadogClient(options)`: choose the client, then bind the table onto
     the new instance with it. When `err` is set the constructor threw and the
     caller never receives `instance`.
     */
    method Construct(options: Value) returns (instance: Namespace, client: Value, err: Option<JsError>)
      requires Valid()
      ensures fresh(instance)
      ensures ChooseClient(options).Given? ==> client == ChooseClient(options).client
      ensures ChooseClient(options).Create? ==>
                client.Ref? && fresh(client.client)
                && client.client.options == ChooseClient(options).options && client.client.fields == map[]
      ensures (instance.props, err) == Loaded(map[], api, order, client)
    {
      match ChooseClient(options) {
        case Given(c) =>
          client := c;
        case Create(o) =>
          var created := new ApiClient(o);
          client := Ref(created);
      }
      instance := new Namespace(map[]);
      err := LoadApi(api, order, client, instance);
    }
  }
}

/**
 * The JSON:API view (src/View/JsonApiView.php). Its constructor builds the
 * schema table from the declared entities and captures the base URL and the
 * meta; `render` picks the serialize target and `_serialize` computes what is
 * handed to the JSON:API encoder: the schema table, the JSON flags, the URL
 * prefix, the meta (only when non-empty) and the data.
 *
 * The encoder itself is a foreign library and is not modelled: `Serialize`
 * returns the arguments it would receive, as an EncoderCall.
 */
module JsonApiView {
  import opened Wrappers
  import opened PhpValues
  import opened PhpArrays
  import opened PhpStrings

  /** `App::className($name, $type, $suffix)`: the fully qualified class the
      framework finds for a short name, or None where it returns false. */
  type ClassResolver = (string, string, string) -> Option<string>

  const EntityType := "Model\\Entity"
  const SchemaType := "Schema"
  const SchemaSuffix := "Schema"
  /** The plugin's own default schema, used when the app defines none. */
  const DefaultSchemaName := "JsonApi.Entity"

  /** The closure registered per entity class: it instantiates `schemaClass`
      for `entityName` when the encoder asks for it. A None class is PHP's
      `false`, which would fail only when the encoder instantiates it. */
  datatype SchemaFactory = SchemaFactory(schemaClass: Option<string>, entityName: string)

  // -----------------------------------------------------------------------
  // Schema registry (entitiesToSchema)

  /** An array key as PHP turns it into a class-name string. */
  function KeyName(k: Key): (r: string)
    ensures k.IntKey? ==> r == IntToDecimal(k.i) && ParseDecimal(r) == Some(k.i)
    ensures k.StrKey? ==> r == k.s
  {
    match k
    case IntKey(i) => DecimalRoundTrip(i); IntToDecimal(i)
    case StrKey(s) => s
  }

  /** The entity name of one declared entry: the value when it is a string
      (so a plain list `['Article']` names "Article"), the key otherwise. */
  function NameOf(entry: (Key, Value)): (r: string)
    ensures entry.1.Str? ==> r == entry.1.s
    ensures !entry.1.Str? && entry.0.StrKey? ==> r == entry.0.s
    ensures !entry.1.Str? && entry.0.IntKey? ==> r == IntToDecimal(entry.0.i) && ParseDecimal(r) == Some(entry.0.i)
  {
    if entry.1.Str? then entry.1.s else KeyName(entry.0)
  }

  /** The app's schema class for the entity, or the plugin's default one. */
  function SchemaClassFor(name: string, resolve: ClassResolver): (r: Option<string>)
    ensures resolve(name, SchemaType, SchemaSuffix).Some? ==> r == resolve(name, SchemaType, SchemaSuffix)
    ensures resolve(name, SchemaType, SchemaSuffix).None? ==> r == resolve(DefaultSchemaName, SchemaType, SchemaSuffix)
    ensures r.None? <==>
      resolve(name, SchemaType, SchemaSuffix).None? && resolve(DefaultSchemaName, SchemaType, SchemaSuffix).None?
  {
    match resolve(name, SchemaType, SchemaSuffix)
    case Some(c) => Some(c)
    case None => resolve(DefaultSchemaName, SchemaType, SchemaSuffix)
  }

  /** The entity class a declared entry resolves to. */
  function ClassOf(entry: (Key, Value), resolve: ClassResolver): Option<string> {
    resolve(NameOf(entry), EntityType, "")
  }

  /** The schema factory registered for a declared entry. */
  function FactoryOf(entry: (Key, Value), resolve: ClassResolver): SchemaFactory {
    SchemaFactory(SchemaClassFor(NameOf(entry), resolve), NameOf(entry))
  }

  /**
   * The schema table built from the declared entities, in order: each entry
   * is stored under its resolved entity class (a later entry for the same
   * class replaces an earlier one); the first name with no entity class
   * aborts with that name (MissingEntityException).
   */
  function Registry(entities: PhpArray, resolve: ClassResolver): Result<map<string, SchemaFactory>, string>
    decreases |entities|
  {
    if entities == [] then Success(map[])
    else
      var n := |entities| - 1;
      match Registry(entities[..n], resolve)
      case Failure(e) => Failure(e)
      case Success(m) =>
        match ClassOf(entities[n], resolve)
        case None => Failure(NameOf(entities[n]))
        case Some(c) => Success(m[c := FactoryOf(entities[n], resolve)])
  }

  /** Building the table succeeds exactly when every declared name resolves
      to an entity class. */
  lemma {:induction false} RegistrySucceedsIff(entities: PhpArray, resolve: ClassResolver)
    ensures Registry(entities, resolve).Success? <==>
      forall i :: 0 <= i < |entities| ==> ClassOf(entities[i], resolve).Some?
    decreases |entities|
  {
    if entities != [] {
      var n := |entities| - 1;
      var prefix := entities[..n];
      RegistrySucceedsIff(prefix, resolve);
      assert forall i :: 0 <= i < n ==> prefix[i] == entities[i];
    }
  }

  /** On failure, the exception names the first declared entity whose class
      cannot be resolved. */
  lemma {:induction false} RegistryFailsAtFirst(entities: PhpArray, resolve: ClassResolver)
    requires Registry(entities, resolve).Failure?
    ensures exists i :: (0 <= i < |entities| && ClassOf(entities[i], resolve).None? &&
      Registry(entities, resolve).error == NameOf(entities[i]) &&
      forall j :: 0 <= j < i ==> ClassOf(entities[j], resolve).Some?)
    decreases |entities|
  {
    var n := |entities| - 1;
    var prefix := entities[..n];
    assert forall i :: 0 <= i < n ==> prefix[i] == entities[i];
    if Registry(prefix, resolve).Failure? {
      RegistryFailsAtFirst(prefix, resolve);
      var i :| (0 <= i < n && ClassOf(prefix[i], resolve).None? &&
        Registry(prefix, resolve).error == NameOf(prefix[i]) &&
        forall j :: 0 <= j < i ==> ClassOf(prefix[j], resolve).Some?);
      assert ClassOf(entities[i], resolve).None?;
    } else {
      RegistrySucceedsIff(prefix, resolve);
      assert ClassOf(entities[n], resolve).None?;
    }
  }

  /** A successful table holds at most one factory per declared entry. */
  lemma {:induction false} RegistrySize(entities: PhpArray, resolve: ClassResolver)
    requires Registry(entities, resolve).Success?
    ensures |Registry(entities, resolve).value| <= |entities|
    decreases |entities|
  {
    if entities != [] {
      RegistrySize(entities[..|entities| - 1], resolve);
    }
  }

  /** A successful table has exactly one key per resolved entity class. */
  lemma {:induction false} RegistryKeys(entities: PhpArray, resolve: ClassResolver)
    requires Registry(entities, resolve).Success?
    ensures forall c :: c in Registry(entities, resolve).value <==>
      exists i :: 0 <= i < |entities| && ClassOf(entities[i], resolve) == Some(c)
    decreases |entities|
  {
    if entities != [] {
      var n := |entities| - 1;
      var prefix := entities[..n];
      assert forall i :: 0 <= i < n ==> prefix[i] == entities[i];
      RegistryKeys(prefix, resolve);
      var m := Registry(prefix, resolve).value;
      forall c | c in m
        ensures exists i :: 0 <= i < |entities| && ClassOf(entities[i], resolve) == Some(c)
      {
        var i :| 0 <= i < n && ClassOf(prefix[i], resolve) == Some(c);
        assert ClassOf(entities[i], resolve) == Some(c);
      }
    }
  }

  /** No later entry resolves to the same entity class as entry `i`. */
  predicate LastForClass(entities: PhpArray, i: nat, resolve: ClassResolver)
    requires i < |entities|
  {
    forall j :: i < j < |entities| ==> ClassOf(entities[j], resolve) != ClassOf(entities[i], resolve)
  }

  /**
   * The factory stored under an entity class is the one of the LAST entry
   * resolving to it: the app schema for that entry's name if there is one,
   * else the plugin default.
   */
  lemma {:induction false} RegistryLastWins(entities: PhpArray, resolve: ClassResolver, i: nat)
    requires Registry(entities, resolve).Success?
    requires i < |entities| && LastForClass(entities, i, resolve)
    ensures ClassOf(entities[i], resolve).Some?
    ensures ClassOf(entities[i], resolve).value in Registry(entities, resolve).value
    ensures Registry(entities, resolve).value[ClassOf(entities[i], resolve).value] == FactoryOf(entities[i], resolve)
    decreases |entities|
  {
    RegistrySucceedsIff(entities, resolve);
    RegistryKeys(entities, resolve);
    var n := |entities| - 1;
    var prefix := entities[..n];
    if i < n {
      assert prefix[i] == entities[i];
      assert LastForClass(prefix, i, resolve) by {
        forall j | i < j < n ensures ClassOf(prefix[j], resolve) != ClassOf(prefix[i], resolve) {
          assert prefix[j] == entities[j];
        }
      }
      RegistryLastWins(prefix, resolve, i);
    }
  }

  // -----------------------------------------------------------------------
  // JSON flags

  const JsonHexTag: bv64 := 1
  const JsonHexAmp: bv64 := 2
  const JsonHexApos: bv64 := 4
  const JsonHexQuot: bv64 := 8
  const JsonPrettyPrint: bv64 := 128

  /** A PHP integer as its 64-bit two's complement pattern. */
  function ToBits(i: Int64): bv64 {
    if i >= 0 then i as bv64 else (i + 0x1_0000_0000_0000_0000) as bv64
  }

  /** The view variables `_serialize` can read: `_meta`, when set, is an array
      (array_merge takes arrays) and `_jsonOptions`, when set, is `false` or an
      integer (json_encode takes integer flags). */
  predicate ValidViewVars(vars: map<string, Value>) {
    && (IsSet(vars, "_meta") ==> vars["_meta"].Arr?)
    && (IsSet(vars, "_jsonOptions") ==> vars["_jsonOptions"] == Bool(false) || vars["_jsonOptions"].Int?)
  }

  /** The flags before the debug adjustment: the four HEX escaping flags by
      default, none for `false`, and exactly the given integer otherwise. */
  function BaseJsonFlags(vars: map<string, Value>): (r: bv64)
    requires ValidViewVars(vars)
    ensures !IsSet(vars, "_jsonOptions") ==> r == 15
    ensures IsSet(vars, "_jsonOptions") && vars["_jsonOptions"] == Bool(false) ==> r == 0
    ensures IsSet(vars, "_jsonOptions") && vars["_jsonOptions"].Int? ==> r == ToBits(vars["_jsonOptions"].i)
  {
    if !IsSet(vars, "_jsonOptions") then JsonHexTag | JsonHexApos | JsonHexAmp | JsonHexQuot
    else if vars["_jsonOptions"] == Bool(false) then 0
    else ToBits(vars["_jsonOptions"].i)
  }

  /** In debug mode the pretty-print bit is set and every other bit kept;
      otherwise the flags are unchanged. */
  function WithPrettyPrint(flags: bv64, debug: bool): (r: bv64)
    ensures r & !JsonPrettyPrint == flags & !JsonPrettyPrint
    ensures debug ==> r & JsonPrettyPrint == JsonPrettyPrint
    ensures !debug ==> r == flags
  {
    if debug then flags | JsonPrettyPrint else flags
  }

  /** The flags handed to the encoder: the base flags, with pretty printing
      added in debug mode. */
  function JsonFlags(vars: map<string, Value>, debug: bool): (r: bv64)
    requires ValidViewVars(vars)
    ensures r & !JsonPrettyPrint == BaseJsonFlags(vars) & !JsonPrettyPrint
    ensures debug ==> r & JsonPrettyPrint == JsonPrettyPrint
    ensures !debug ==> r == BaseJsonFlags(vars)
  {
    WithPrettyPrint(BaseJsonFlags(vars), debug)
  }

  // -----------------------------------------------------------------------
  // URL prefix and meta

  /** `rtrim($this->_prefixUrl, '/')`, where an unset URL is null and trims to "". */
  function UrlPrefix(url: Option<string>): (r: string)
    ensures url.None? ==> r == ""
    ensures url.Some? ==> r <= url.value && forall i :: |r| <= i < |url.value| ==> url.value[i] == '/'
    ensures r == [] || r[|r| - 1] != '/'
  {
    RTrim(url.GetOr(""), '/')
  }

  /** Trimming the prefix again leaves it as it is. */
  lemma UrlPrefixIdempotent(url: Option<string>)
    ensures UrlPrefix(Some(UrlPrefix(url))) == UrlPrefix(url)
  {
    RTrimIdempotent(url.GetOr(""), '/');
  }

  /** The view's meta after `_serialize`: the `_meta` view variable merged over it. */
  function MetaAfter(meta: PhpArray, vars: map<string, Value>): (r: PhpArray)
    requires ValidViewVars(vars)
    ensures !IsSet(vars, "_meta") ==> r == meta
    ensures IsSet(vars, "_meta") ==> IntValues(r) == IntValues(meta) + IntValues(vars["_meta"].entries)
    ensures IsSet(vars, "_meta") ==> (r == [] <==> meta == [] && vars["_meta"].entries == [])
  {
    if IsSet(vars, "_meta") then
      ArrayMergeIntValues(meta, vars["_meta"].entries);
      ArrayMergeEmpty(meta, vars["_meta"].entries);
      ArrayMerge(meta, vars["_meta"].entries)
    else meta
  }

  /** On a shared string key the `_meta` view variable wins; a key only the
      constructor's meta has keeps its value. */
  lemma MetaViewVarWins(meta: PhpArray, vars: map<string, Value>, k: Key)
    requires ValidViewVars(vars) && DistinctKeys(meta) && k.StrKey?
    requires IsSet(vars, "_meta") && DistinctKeys(vars["_meta"].entries)
    ensures Lookup(MetaAfter(meta, vars), k) ==
      if Lookup(vars["_meta"].entries, k).Some? then Lookup(vars["_meta"].entries, k) else Lookup(meta, k)
  {
    ArrayMergeLookup(meta, vars["_meta"].entries, k);
  }

  /** Meta reaches the encoder exactly when the constructor's meta or the
      `_meta` view variable is non-empty. */
  lemma MetaAttachedIff(meta: PhpArray, vars: map<string, Value>)
    requires ValidViewVars(vars)
    ensures MetaAfter(meta, vars) != [] <==> meta != [] || (IsSet(vars, "_meta") && vars["_meta"].entries != [])
  {
    if IsSet(vars, "_meta") {
      ArrayMergeEmpty(meta, vars["_meta"].entries);
    }
  }

  /** The merge is not undone between renders: rendering twice gives the same
      string-keyed meta, but repeats the integer-keyed entries of `_meta`. */
  lemma MetaRenderTwice(meta: PhpArray, vars: map<string, Value>, k: Key)
    requires ValidViewVars(vars) && DistinctKeys(meta) && k.StrKey?
    requires IsSet(vars, "_meta") && DistinctKeys(vars["_meta"].entries)
    ensures Lookup(MetaAfter(MetaAfter(meta, vars), vars), k) == Lookup(MetaAfter(meta, vars), k)
    ensures IntValues(MetaAfter(MetaAfter(meta, vars), vars)) ==
      IntValues(meta) + IntValues(vars["_meta"].entries) + IntValues(vars["_meta"].entries)
  {
    var b := vars["_meta"].entries;
    var once := ArrayMerge(meta, b);
    ArrayMergeRenumbers(meta, b);
    ArrayMergeLookup(meta, b, k);
    ArrayMergeLookup(once, b, k);
    ArrayMergeIntValues(meta, b);
    ArrayMergeIntValues(once, b);
  }

  /** The value `render` hands to `_serialize`: the `_serialize` view
      variable itself when it is set, and `false` otherwise. */
  function SerializeData(vars: map<string, Value>): (r: Value)
    ensures IsSet(vars, "_serialize") ==> r == vars["_serialize"]
    ensures !IsSet(vars, "_serialize") ==> r == Bool(false)
  {
    if IsSet(vars, "_serialize") then vars["_serialize"] else Bool(false)
  }

  /** A string `_serialize` is encoded as that string: the view variable it
      names is never looked up. */
  lemma SerializeNameNotResolved(vars: map<string, Value>, name: string)
    requires "_serialize" in vars && vars["_serialize"] == Str(name)
    ensures SerializeData(vars) == Str(name)
    ensures name in vars && vars[name] != Str(name) ==> SerializeData(vars) != vars[name]
  {
  }

  // -----------------------------------------------------------------------
  // The view

  /** The view options the constructor reads; None stands for an option
      that is not `isset`. */
  datatype ViewOptions = ViewOptions(entities: Option<PhpArray>, url: Option<string>, meta: Option<PhpArray>)

  /** `new EncoderOptions($jsonOptions, $urlPrefix)`. */
  datatype EncoderOptions = EncoderOptions(jsonOptions: bv64, urlPrefix: string)

  /** What `_serialize` hands the encoder: the schema table, the options, the
      meta passed to `withMeta` (None when it is not called) and the data
      passed to `encodeData`. */
  datatype EncoderCall = EncoderCall(schemas: map<string, SchemaFactory>, options: EncoderOptions, meta: Option<PhpArray>, data: Value)

  class JsonApiView {
    var viewVars: map<string, Value>
    var prefixUrl: Option<string>
    var schemas: map<string, SchemaFactory>
    var meta: PhpArray

    /** The state the parent View constructor leaves: the view variables,
        and the plugin's field defaults. */
    constructor Init(viewVars: map<string, Value>)
      ensures this.viewVars == viewVars
      ensures prefixUrl == None && schemas == map[] && meta == []
    {
      this.viewVars := viewVars;
      prefixUrl := None;
      schemas := map[];
      meta := [];
    }

    /**
     * The constructor: maps the declared entities to schemas, then captures
     * the base URL and the meta. A declared entity with no entity class
     * throws, so no view is produced.
     */
    static method Create(viewVars: map<string, Value>, options: ViewOptions, resolve: ClassResolver)
      returns (r: Result<JsonApiView, string>)
      ensures r.Failure? <==> options.entities.Some? && Registry(options.entities.value, resolve).Failure?
      ensures r.Failure? ==> r.error == Registry(options.entities.value, resolve).error
      ensures r.Success? ==> fresh(r.value)
      ensures r.Success? ==> r.value.viewVars == viewVars
      ensures r.Success? ==>
        r.value.schemas == (if options.entities.Some? then Registry(options.entities.value, resolve).value else map[])
      ensures r.Success? ==> r.value.prefixUrl == options.url
      ensures r.Success? ==> r.value.meta == options.meta.GetOr([])
    {
      var view := new JsonApiView.Init(viewVars);
      if options.entities.Some? {
        var missing := view.EntitiesToSchema(options.entities.value, resolve);
        if missing.Some? {
          return Failure(missing.value);
        }
      }
      if options.url.Some? {
        view.prefixUrl := options.url;
      }
      if options.meta.Some? {
        view.meta := options.meta.value;
      }
      return Success(view);
    }

    /** `entitiesToSchema`: walks the declared entities in order and stores a
        schema factory under each resolved entity class; returns the name of
        the first entity that does not resolve. */
    method EntitiesToSchema(entities: PhpArray, resolve: ClassResolver) returns (missing: Option<string>)
      modifies this`schemas
      ensures Registry(entities, resolve).Success? ==>
        missing == None && schemas == old(schemas) + Registry(entities, resolve).value
      ensures Registry(entities, resolve).Failure? ==>
        missing == Some(Registry(entities, resolve).error)
    {
      var i := 0;
      while i < |entities|
        invariant 0 <= i <= |entities|
        invariant Registry(entities[..i], resolve).Success?
        invariant schemas == old(schemas) + Registry(entities[..i], resolve).value
      {
        var (entity, options) := entities[i];
        var entityClassName := KeyName(entity);
        if options.Str? {
          entityClassName := options.s;
        }
        var entityClass := resolve(entityClassName, EntityType, "");
        assert entities[..i + 1][..i] == entities[..i];
        if entityClass.None? {
          RegistryPrefixFails(entities, i + 1, resolve);
          return Some(entityClassName);
        }
        var schemaClass := resolve(entityClassName, SchemaType, SchemaSuffix);
        if schemaClass.None? {
          schemaClass := resolve(DefaultSchemaName, SchemaType, SchemaSuffix);
        }
        schemas := schemas[entityClass.value := SchemaFactory(schemaClass, entityClassName)];
        i := i + 1;
      }
      assert entities[..i] == entities;
      return None;
    }

    /** `render`: serializes the `_serialize` view variable, or `false` when it is not set. */
    method Render(debug: bool) returns (call: EncoderCall)
      requires ValidViewVars(viewVars)
      modifies this`meta
      ensures meta == MetaAfter(old(meta), viewVars)
      ensures call == EncoderCall(schemas, EncoderOptions(JsonFlags(viewVars, debug), UrlPrefix(prefixUrl)),
        if meta == [] then None else Some(meta), SerializeData(viewVars))
    {
      var serialize := Bool(false);
      if IsSet(viewVars, "_serialize") {
        serialize := viewVars["_serialize"];
      }
      call := Serialize(serialize, debug);
    }

    /** `_serialize`: merges the `_meta` view variable into the view's meta,
        computes the JSON flags and the URL prefix, and hands them with the
        schema table and the data to the encoder; `debug` is the framework's
        debug setting. */
    method Serialize(serialize: Value, debug: bool) returns (call: EncoderCall)
      requires ValidViewVars(viewVars)
      modifies this`meta
      ensures meta == MetaAfter(old(meta), viewVars)
      ensures call == EncoderCall(schemas, EncoderOptions(JsonFlags(viewVars, debug), UrlPrefix(prefixUrl)),
        if meta == [] then None else Some(meta), serialize)
    {
      if IsSet(viewVars, "_meta") {
        meta := ArrayMerge(meta, viewVars["_meta"].entries);
      }
      var jsonOptions := JsonHexTag | JsonHexApos | JsonHexAmp | JsonHexQuot;
      if IsSet(viewVars, "_jsonOptions") {
        if viewVars["_jsonOptions"] == Bool(false) {
          jsonOptions := 0;
        } else {
          jsonOptions := ToBits(viewVars["_jsonOptions"].i);
        }
      }
      if debug {
        jsonOptions := jsonOptions | JsonPrettyPrint;
      }
      var options := EncoderOptions(jsonOptions, RTrim(prefixUrl.GetOr(""), '/'));
      var withMeta := if meta != [] then Some(meta) else None;
      call := EncoderCall(schemas, options, withMeta, serialize);
    }
  }

  /** A failure in a prefix is the failure of the whole table. */
  lemma {:induction false} RegistryPrefixFails(entities: PhpArray, n: nat, resolve: ClassResolver)
    requires n <= |entities| && Registry(entities[..n], resolve).Failure?
    ensures Registry(entities, resolve) == Registry(entities[..n], resolve)
    decreases |entities| - n
  {
    if n < |entities| {
      assert entities[..n + 1][..n] == entities[..n];
      RegistryPrefixFails(entities, n + 1, resolve);
    } else {
      assert entities[..n] == entities;
    }
  }
}

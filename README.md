# cakephp-json-api: schema registry, encoder options and entity schemas

A Dafny model of the core of the CakePHP JSON:API plugin: the `JsonApiView`
that turns the declared entities into a schema table and computes what it
hands to the JSON:API encoder, and the entity schemas that give each record
its resource type, id and attributes.

- `JsonApiView.JsonApiView` (src/View/JsonApiView.php) is a class with the
  fields the PHP view updates: `schemas`, `prefixUrl`, `meta`, and the view
  variables. `Create` is the PHP constructor. It can throw, so it returns a
  `Result`. `EntitiesToSchema` is the registry loop, proved against the
  function `Registry`. `Render` and `Serialize` compute the encoder's
  arguments and are proved against `JsonFlags`, `UrlPrefix` and `MetaAfter`.
  The encoder is a foreign library, so `Serialize` returns the call it would
  receive (`EncoderCall`): schema table, JSON flags, URL prefix, meta, data.
- `ViewSchema.EntitySchema` (src/View/Schema/EntitySchema.php) and
  `Schema.EntitySchema` (src/Schema/EntitySchema.php) are the two default
  schemas. They share the `resourceType` default (`ResourceType`). Their
  `GetAttributes` methods change the record's hidden list in place before
  reading `toArray()`. The view-layer schema adds the id field to the hidden
  list. The older schema replaces the list with just the id field.
- `AuthorSchema` (tests/test_app/TestApp/View/Schema/AuthorSchema.php) is the
  test application's custom schema. It is modelled as pure functions of the
  entity.
- A CakePHP entity (`CakeEntity.Entity`) is a class with `fields` and a
  `hidden` list. `toArray()` is the fields whose names are not hidden.
  `has($f)` holds when the field is present and not null, as in CakePHP 3.
- PHP behaviour the code relies on is modelled explicitly. `PhpValues` holds
  values, the `(string)` cast and `isset`. `PhpArrays` holds ordered arrays
  and `array_merge`. `PhpStrings` holds `strtolower` and `rtrim`.
- Framework lookups are parameters. `App::className` is a `ClassResolver`,
  with None standing for PHP's `false`. `Inflector::pluralize` is a
  `Pluralizer`. `Configure::read('debug')` is the `debug` argument.

Behaviour of the code worth knowing, each stated by a lemma:
- JSON:API 1.0 (the "Fields" subsection of "Resource Objects") forbids a
  field named `id` among the attributes. The code hides the id field only
  when `has()` holds. A record whose id is present but null keeps `id: null`
  among its attributes (`ViewSchema.NullIdStaysVisible`).
- `_serialize` merges the `_meta` view variable into the view's own `meta`
  field, and the merge is not undone. A second render repeats the
  integer-keyed `_meta` entries (`JsonApiView.MetaRenderTwice`).
- No error is raised for a missing or empty entity list: the schema table is
  simply empty.
- The docblock of `render` (src/View/JsonApiView.php:117-121) says a string
  `_serialize` names one view variable to serialize, an array names several,
  `true` serializes all of them, and an unset `_serialize` renders the normal
  template. The code (lines 129-134) does none of this. It passes the
  `_serialize` value itself to `encodeData`, or `false` when it is unset.
  With `_serialize` set to "articles", the encoder receives the string
  "articles", not the `articles` view variable. The model follows the code
  (`JsonApiView.SerializeData`, `JsonApiView.SerializeNameNotResolved`).

## Model

| member | source | states |
|---|---|---|
| `JsonApiView.JsonApiView.Create` | src/View/JsonApiView.php:51-76 | the constructor fails exactly when an `entities` option is given and the registry fails, naming the same entity. Otherwise the fresh view holds the registry's table (empty without `entities`), the `url` option (null when unset) and the `meta` option (empty when unset) |
| `JsonApiView.JsonApiView.Init` | src/View/JsonApiView.php:29-41 | a new view holds its view variables, a null URL prefix, an empty schema table and empty meta |
| `JsonApiView.JsonApiView.EntitiesToSchema` | src/View/JsonApiView.php:85-112 | the loop returns no error and adds exactly `Registry(entities)` to the schema table when every name resolves. Otherwise it returns the name `Registry` fails with |
| `JsonApiView.KeyName` | src/View/JsonApiView.php:87-89 | an integer key becomes its decimal text `IntToDecimal`, which reads back as the key. A string key is used as it is |
| `JsonApiView.NameOf` | src/View/JsonApiView.php:89-92 | the entity name of a declared entry is the entry's value when that is a string. Otherwise it is the key, with an integer key written as its canonical decimal text `IntToDecimal` (which reads back as the key) |
| `JsonApiView.SchemaClassFor` | src/View/JsonApiView.php:100-104 | the app's schema class for the name when it resolves, else the plugin's `JsonApi.Entity` schema. The result is missing only when both lookups fail |
| `JsonApiView.Registry` | src/View/JsonApiView.php:85-112 | the schema table the loop builds, as a function of the declared entries: each entry in order is stored under its resolved entity class, and the first unresolved name aborts. Its properties are the four lemmas below and `RegistrySize` |
| `JsonApiView.RegistrySize` | src/View/JsonApiView.php:87-110 | a built table holds at most one factory per declared entry |
| `JsonApiView.RegistrySucceedsIff` | src/View/JsonApiView.php:94-98 | building the table succeeds if and only if every declared entity name resolves to an entity class |
| `JsonApiView.RegistryFailsAtFirst` | src/View/JsonApiView.php:87-98 | on failure, the MissingEntityException names the first declared entity in order that has no entity class. The name is the entry's string value, or its key when the value is not a string |
| `JsonApiView.RegistryKeys` | src/View/JsonApiView.php:94-110 | the table's keys are exactly the resolved entity classes, so names that resolve to the same class share one entry |
| `JsonApiView.RegistryLastWins` | src/View/JsonApiView.php:100-110 | the factory under a class is the one of the last entry resolving to it. It uses the app schema for that name when one exists, else the plugin's `JsonApi.Entity` schema |
| `JsonApiView.BaseJsonFlags` | src/View/JsonApiView.php:153-160 | the flags are 15 (HEX_TAG, HEX_AMP, HEX_APOS, HEX_QUOT) when `_jsonOptions` is unset, 0 when it is `false`, and exactly the given integer's 64-bit pattern otherwise |
| `JsonApiView.JsonFlags` | src/View/JsonApiView.php:153-164 | the flags given to `EncoderOptions` are the base flags with every bit but PRETTY_PRINT kept. PRETTY_PRINT is set in debug mode, and outside debug mode the flags are exactly the base flags |
| `JsonApiView.WithPrettyPrint` | src/View/JsonApiView.php:162-164 | in debug mode the PRETTY_PRINT bit (128) is set and every other bit is kept. Otherwise the flags are unchanged |
| `JsonApiView.UrlPrefix` | src/View/JsonApiView.php:168 | the prefix is a prefix of the configured URL, does not end in `/`, and only `/` characters were removed. An unset URL gives "" |
| `JsonApiView.UrlPrefixIdempotent` | src/View/JsonApiView.php:168 | trimming the prefix again changes nothing |
| `JsonApiView.MetaAfter` | src/View/JsonApiView.php:149-151 | without a `_meta` view variable the view's meta is unchanged. With one, the merged meta holds the integer-keyed values of the old meta and then of `_meta`, and it is empty exactly when both are |
| `JsonApiView.MetaViewVarWins` | src/View/JsonApiView.php:149-151 | after the merge, a string key present in the `_meta` view variable has that variable's value. Any other string key keeps the constructor meta's value |
| `JsonApiView.MetaAttachedIff` | src/View/JsonApiView.php:171-173 | the merged meta is non-empty (and `withMeta` is called) exactly when the constructor meta or the `_meta` view variable is non-empty |
| `JsonApiView.MetaRenderTwice` | src/View/JsonApiView.php:149-151 | merging `_meta` a second time leaves string-keyed meta unchanged, but appends the variable's integer-keyed values again |
| `JsonApiView.JsonApiView.Serialize` | src/View/JsonApiView.php:147-176 | the view's meta becomes `MetaAfter`. The encoder receives the schema table, `JsonFlags`, `UrlPrefix` of the configured URL, the meta only when it is non-empty, and the data unchanged |
| `JsonApiView.SerializeData` | src/View/JsonApiView.php:129-132 | the value `render` passes on is the `_serialize` view variable when it is set (non-null), and `false` otherwise |
| `JsonApiView.SerializeNameNotResolved` | src/View/JsonApiView.php:129-134 | a string `_serialize` reaches the encoder as that string. The view variable it names is not looked up, contrary to the docblock at lines 117-121 |
| `JsonApiView.JsonApiView.Render` | src/View/JsonApiView.php:127-135 | the encoder's data is `SerializeData` of the view variables, with the same effects as `Serialize` |
| `PhpArrays.ArrayMerge` | src/View/JsonApiView.php:150 | `array_merge($a, $b)` writes each entry of `$a` and then `$b` into a new array. Each input entry adds at most one entry to the result |
| `PhpArrays.ArrayMergeLookup` | src/View/JsonApiView.php:150 | in `array_merge($a, $b)`, a string key takes `$b`'s value when `$b` has the key, and `$a`'s otherwise |
| `PhpArrays.ArrayMergeIntValues` | src/View/JsonApiView.php:150 | `array_merge` keeps the integer-keyed values of `$a` and then of `$b`, in order |
| `PhpArrays.ArrayMergeRenumbers` | src/View/JsonApiView.php:150 | `array_merge` renumbers integer keys 0, 1, 2, ... in order, and its result has distinct keys |
| `PhpArrays.ArrayMergeEmpty` | src/View/JsonApiView.php:150 | `array_merge($a, $b)` is empty if and only if both inputs are empty |
| `PhpStrings.RTrim` | src/View/JsonApiView.php:168 | `rtrim($s, '/')` is a prefix of `$s` that does not end in `/`, and only `/` characters were cut off |
| `PhpStrings.RTrimUnique` | src/View/JsonApiView.php:168 | those three properties determine the result of `rtrim` |
| `PhpStrings.RTrimIdempotent` | src/View/JsonApiView.php:168 | `rtrim` applied twice equals `rtrim` applied once |
| `PhpStrings.Lower` | src/View/Schema/EntitySchema.php:42 | `strtolower` keeps the length and maps each character through ASCII lower-casing |
| `PhpStrings.LowerNormalises` | src/View/Schema/EntitySchema.php:42 | a lower-cased string has no capitals, and lower-casing it again is the identity |
| `ResourceType.ResourceTypeFor` | src/View/Schema/EntitySchema.php:41-43 | a truthy preset resource type is kept unchanged. Otherwise the type is the entity name's plural, lower-cased, with no capitals |
| `ViewSchema.EntitySchema.constructor` | src/View/Schema/EntitySchema.php:33-46 | the id field is "id", and the resource type is the preset or the lower-cased plural of the entity name |
| `ViewSchema.EntitySchema.GetId` | src/View/Schema/EntitySchema.php:65-68 | the id is the id field cast to a string. An integer id is its canonical decimal text `IntToDecimal`, which reads back as that integer, a string id is returned unchanged, and a missing id gives "" |
| `ViewSchema.EntitySchema.GetAttributes` | src/View/Schema/EntitySchema.php:76-84 | only the record's hidden list changes. The id field is appended to the list when the record has it. The result is the record's new `toArray()`, equal to `Attributes` of the old state |
| `ViewSchema.HiddenAfter` | src/View/Schema/EntitySchema.php:78-81 | the hidden list after `getAttributes` starts with the old list. Its names are the old ones plus the id field, and the id field is added only when the record has it |
| `ViewSchema.Attributes` | src/View/Schema/EntitySchema.php:78-83 | with a non-null id, the attributes are the record's previous `toArray()` minus the id field. Otherwise they are exactly the previous `toArray()` |
| `ViewSchema.HiddenGrows` | src/View/Schema/EntitySchema.php:78-81 | the new hidden set is the old hidden set plus the id field. The list is untouched when the record lacks the id |
| `ViewSchema.AttributesStable` | src/View/Schema/EntitySchema.php:78-83 | calling `getAttributes` a second time on the same record returns the same attributes |
| `ViewSchema.NullIdStaysVisible` | src/View/Schema/EntitySchema.php:78 | a present but null id is not `has()`. Unless it was already hidden, it stays among the attributes as null |
| `Schema.EntitySchema.constructor` | src/Schema/EntitySchema.php:33-46 | the id field is "id", and the resource type is the preset or the lower-cased plural of the entity name |
| `Schema.EntitySchema.GetId` | src/Schema/EntitySchema.php:62-65 | the id is the raw stored value of the id field, with no string conversion, or null when the field is absent |
| `Schema.EntitySchema.GetAttributes` | src/Schema/EntitySchema.php:70-77 | only the record's hidden list changes. It becomes exactly `[idField]` when the record has the id, and is untouched otherwise. The result is the new `toArray()` |
| `Schema.HiddenAfter` | src/Schema/EntitySchema.php:72-74 | the hidden list after `getAttributes` names only the id field when the record has it, and is the old list otherwise |
| `Schema.Attributes` | src/Schema/EntitySchema.php:72-76 | with a non-null id, the attributes are every field except the id field. Otherwise they are the record's `toArray()` |
| `Schema.RevealsHidden` | src/Schema/EntitySchema.php:72-74 | with an id present, a field hidden before the call is visible in the attributes, unless it is the id field |
| `SchemaVariants.ViewIdCastsRawId` | src/View/Schema/EntitySchema.php:65-68 | with the same id field, the view-layer schema's id is the string cast of the older schema's raw id |
| `SchemaVariants.ViewAttributesWithinOld` | src/View/Schema/EntitySchema.php:78-83 | both default schemas exclude the id field. The view-layer attributes are a sub-map of the older schema's, and equal to them exactly when no other field was hidden |
| `AuthorSchema.GetId` | tests/test_app/TestApp/View/Schema/AuthorSchema.php:8-11 | the id is the raw `id` value, or null when the field is absent |
| `SchemaVariants.AuthorIdSkipsCast` | tests/test_app/TestApp/View/Schema/AuthorSchema.php:8-11 | the parent's `getId` would return the string cast of AuthorSchema's id |
| `AuthorSchema.GetAttributes` | tests/test_app/TestApp/View/Schema/AuthorSchema.php:13-20 | the keys are exactly `title`, `body` and `published`, each read from the entity. `id` is never among them, whatever the entity's fields or hidden list |
| `AuthorSchema.GetRelationships` | tests/test_app/TestApp/View/Schema/AuthorSchema.php:22-29 | there is one relationship, `articles`, whose data is the entity's `articles`. It does not depend on the requested includes |
| `AuthorSchema.ResourceTypeIsAuthors` | tests/test_app/TestApp/View/Schema/AuthorSchema.php:6 | the inherited resource type of `Author` is "authors", given that the inflector pluralizes "Author" to "Authors" |
| `CakeEntity.Visible` | src/View/Schema/EntitySchema.php:83 | `toArray()` holds exactly the fields whose names are not hidden, with their stored values |
| `CakeEntity.Entity.Get` | src/View/Schema/EntitySchema.php:67 | `get($field)` is the stored value, or null when the field is absent |
| `CakeEntity.Entity.Has` | src/View/Schema/EntitySchema.php:78 | `has($field)` holds exactly when the field is present and not null |
| `CakeEntity.Entity.ToArray` | src/View/Schema/EntitySchema.php:83 | the record's `toArray()` holds exactly its fields not named in its hidden list, with their stored values |
| `CakeEntity.Entity.SetHiddenProperties` | src/View/Schema/EntitySchema.php:79-80 | `hiddenProperties($list)` replaces the hidden list with the given one and leaves the fields alone |
| `PhpValues.ToPhpString` | src/View/Schema/EntitySchema.php:67 | the `(string)` cast renders an integer as `IntToDecimal`, decimal text that reads back as the integer. A string is kept as it is, and null gives "" |
| `PhpValues.CanonicalDecimal` | src/View/Schema/EntitySchema.php:67 | the decimal text of an integer is an optional minus sign and then digits. It has no leading zero except in "0" itself, and it is never "-0" |
| `PhpValues.DecimalRoundTrip` | src/View/Schema/EntitySchema.php:67 | reading back the decimal rendering of an integer gives the integer |
| `PhpValues.DecimalInjective` | src/View/Schema/EntitySchema.php:67 | distinct integer ids have distinct string ids |

## Left out

- The `Neomerx\JsonApi\Encoder` library (src/View/JsonApiView.php:166-175) is not part of this model. Inclusion paths, deduplication of `included`, sparse fieldsets, links and the document's JSON text all live there. `Serialize` returns the encoder's arguments instead of its output.
- `json_encode` text output and escaping: the JSON flags are modelled only as a 64-bit pattern.
- The response content type (src/View/JsonApiView.php:23, 60) and the parent `View` constructor are framework plumbing. So are `Request`, `Response` and `EventManager`.
- `App::className`, `Inflector::pluralize` and `Configure::read('debug')` are parameters, not implementations.
- The schema's `__get` helper accessor and `getView` (src/View/Schema/EntitySchema.php:54-57, 91-94) are left out. They forward to the rendering view and have no behaviour of their own.
- Schema instantiation is left out. The factory closure passes the encoder's factory and container and the view to the schema constructor, and those objects are not modelled. A factory is recorded as the pair (schema class, entity name).
- src/Controller/Component/JsonApiComponent.php only forwards its configuration to the view builder, so it is left out. src/View/Exception/MissingViewVarException.php is never thrown by the modelled code.
- CakePHP entity accessors, virtual properties and the recursive `toArray()` of nested entities are left out. Fields form a map, so the order of the attributes is not modelled. PHP floats are not modelled as values.
- PHP's conversion of decimal-string array keys to integer keys is taken as already done: a string key is never a canonical integer.
- JsonApiView.BaseJsonFlags: requires `_jsonOptions`, when set, to be `false` or an integer. PHP's coercion of other values is not modelled.
- JsonApiView.JsonFlags: the same restriction as `JsonApiView.BaseJsonFlags`.
- JsonApiView.MetaAfter: requires the `_meta` view variable, when set, to be an array. PHP's `array_merge` warning for other values is not modelled.
- JsonApiView.JsonApiView.Serialize: requires the `_meta` view variable, when set, to be an array and `_jsonOptions` to be `false` or an integer. PHP's handling of other values (an `array_merge` warning, the coercion of `true` or of strings) is not modelled.
- JsonApiView.JsonApiView.Render: the same restriction on `_meta` and `_jsonOptions` as `JsonApiView.JsonApiView.Serialize`.
- PHP objects are not among the modelled values (`PhpValues.Value` has no object case). So the `_serialize` target the plugin's tests pass, a query result set, cannot be written down. Neither can relationship data holding entities, such as the `articles` of `AuthorSchema.GetRelationships`. The contracts that pass these values through unchanged do not depend on their shape.
- The schema table is a `map` from entity class to factory. PHP's `_schemas` array also keeps insertion order, and a re-assigned class keeps its first position. That order is not modelled.
- JsonApiView.JsonApiView.EntitiesToSchema: on failure it does not state which earlier entries were already written to the table. The view is never produced in that case, so the partial table is not observable.
- JsonApiView.JsonApiView.Create: the `url` option is taken as a string and the `meta` option as an array. Other PHP values for them are not modelled.
- ResourceType.ResourceTypeFor: a subclass's preset resource type is taken to be a string, with "" standing for no preset.

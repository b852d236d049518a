/**
 * The older default entity schema (src/Schema/EntitySchema.php): the same
 * resource type default, but the id is returned raw and `getAttributes`
 * REPLACES the record's hidden list with just the id field.
 */
module Schema {
  import opened PhpValues
  import opened CakeEntity
  import opened ResourceType

  /** The hidden list `getAttributes` leaves on the record: exactly the id
      field when the record has a non-null id, otherwise the old list. */
  function HiddenAfter(fields: map<string, Value>, hidden: seq<string>, idField: string): (r: seq<string>)
    ensures HasField(fields, idField) ==> forall k :: k in r <==> k == idField
    ensures !HasField(fields, idField) ==> r == hidden
  {
    if HasField(fields, idField) then [idField] else hidden
  }

  /**
   * The attributes `getAttributes` returns: every field but the id field when
   * the record has a non-null id (so previously hidden fields come back), and
   * the record's own `toArray()` otherwise.
   */
  function Attributes(fields: map<string, Value>, hidden: seq<string>, idField: string): (r: map<string, Value>)
    ensures HasField(fields, idField) ==> r == fields - {idField}
    ensures !HasField(fields, idField) ==> r == Visible(fields, hidden)
  {
    Visible(fields, HiddenAfter(fields, hidden, idField))
  }

  /** With an id present, a field hidden before the call is visible in the
      attributes unless it is the id field itself. */
  lemma RevealsHidden(fields: map<string, Value>, hidden: seq<string>, idField: string, k: string)
    requires HasField(fields, idField) && k in fields && k in hidden && k != idField
    ensures k in Attributes(fields, hidden, idField) && k !in Visible(fields, hidden)
  {
  }

  class EntitySchema {
    /** The field read as the resource id; "id" unless a subclass changes it. */
    var idField: string
    var resourceType: string

    /** `preset` is the `resourceType` a subclass declares ("" for none). */
    constructor (entityName: string, preset: string, pluralize: Pluralizer)
      ensures idField == "id"
      ensures resourceType == ResourceTypeFor(preset, entityName, pluralize)
    {
      idField := "id";
      resourceType := preset;
      new;
      if Falsy(resourceType) {
        resourceType := PhpStrings.Lower(pluralize(entityName));
      }
    }

    /** `$resource->get($this->idField)`, with no string conversion: the stored
        value, or null when the field is absent. */
    function GetId(resource: Entity): (r: Value)
      reads this, resource
      ensures idField in resource.fields ==> r == resource.fields[idField]
      ensures idField !in resource.fields ==> r == Null
    {
      resource.Get(idField)
    }

    /** Replaces the record's hidden list with `[idField]` when the record has
        the id, then returns the record's `toArray()`. */
    method GetAttributes(resource: Entity) returns (attributes: map<string, Value>)
      modifies resource
      ensures resource.fields == old(resource.fields)
      ensures resource.hidden == HiddenAfter(old(resource.fields), old(resource.hidden), idField)
      ensures attributes == resource.ToArray()
      ensures attributes == Attributes(old(resource.fields), old(resource.hidden), idField)
    {
      if resource.Has(idField) {
        resource.SetHiddenProperties([idField]);
      }
      attributes := resource.ToArray();
    }
  }
}

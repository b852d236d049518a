/**
 * The default entity schema of the view layer (src/View/Schema/EntitySchema.php):
 * the resource type defaults to the lower-cased plural of the entity name,
 * the id is the id field cast to a string, and the attributes are the
 * record's `toArray()` after the id field has been ADDED to its hidden list.
 */
module ViewSchema {
  import opened Wrappers
  import opened PhpValues
  import opened CakeEntity
  import opened ResourceType

  /** The hidden list `getAttributes` leaves on the record: the id field is
      appended to the existing list when the record has a non-null id. */
  function HiddenAfter(fields: map<string, Value>, hidden: seq<string>, idField: string): (r: seq<string>)
    ensures hidden <= r
    ensures forall k :: k in r <==> k in hidden || (k == idField && HasField(fields, idField))
  {
    if HasField(fields, idField) then hidden + [idField] else hidden
  }

  /**
   * The attributes `getAttributes` returns for a record with these fields and
   * hidden list: what the record showed before, minus the id field when the
   * record has a non-null id, and exactly what it showed before otherwise.
   */
  function Attributes(fields: map<string, Value>, hidden: seq<string>, idField: string): (r: map<string, Value>)
    ensures HasField(fields, idField) ==> idField !in r
    ensures HasField(fields, idField) ==> r == Visible(fields, hidden) - {idField}
    ensures !HasField(fields, idField) ==> r == Visible(fields, hidden)
  {
    Visible(fields, HiddenAfter(fields, hidden, idField))
  }

  /** Previously hidden properties stay hidden: the new hidden set is the old
      one plus the id field, and the list is untouched when the id is absent. */
  lemma HiddenGrows(fields: map<string, Value>, hidden: seq<string>, idField: string)
    ensures HasField(fields, idField) ==>
      forall k :: k in HiddenAfter(fields, hidden, idField) <==> k in hidden || k == idField
    ensures !HasField(fields, idField) ==> HiddenAfter(fields, hidden, idField) == hidden
  {
  }

  /** A second `getAttributes` on the same record returns the same attributes
      (its hidden list grows by a second copy of the id field). */
  lemma AttributesStable(fields: map<string, Value>, hidden: seq<string>, idField: string)
    ensures Attributes(fields, HiddenAfter(fields, hidden, idField), idField) == Attributes(fields, hidden, idField)
  {
    var h := HiddenAfter(fields, hidden, idField);
    if HasField(fields, idField) {
      assert Visible(fields, h) - {idField} == Visible(fields, hidden) - {idField};
    }
  }

  /** A record whose id field is present but null is not `has()`: its id
      stays among the attributes unless it was already hidden. */
  lemma NullIdStaysVisible(fields: map<string, Value>, hidden: seq<string>, idField: string)
    requires idField in fields && fields[idField] == Null && idField !in hidden
    ensures idField in Attributes(fields, hidden, idField)
    ensures Attributes(fields, hidden, idField)[idField] == Null
  {
  }

  class EntitySchema {
    /** The field read as the resource id; "id" unless a subclass changes it. */
    var idField: string
    var resourceType: string

    /** `preset` is the `resourceType` a subclass declares ("" for none). */
    constructor (entityName: string, preset: string, pluralize: Pluralizer)
      ensures idField == "id"
      ensures resourceType == ResourceTypeFor(preset, entityName, pluralize)
    {
      idField := "id";
      resourceType := preset;
      new;
      if Falsy(resourceType) {
        resourceType := PhpStrings.Lower(pluralize(entityName));
      }
    }

    /** `(string)$resource->get($this->idField)`: an integer id comes back as
        its decimal text, a string id unchanged, a missing id as "". */
    function GetId(resource: Entity): (r: string)
      reads this, resource
      ensures resource.Get(idField).Int? ==>
        r == IntToDecimal(resource.Get(idField).i) && ParseDecimal(r) == Some(resource.Get(idField).i)
      ensures resource.Get(idField).Str? ==> r == resource.Get(idField).s
      ensures idField !in resource.fields ==> r == ""
    {
      ToPhpString(resource.Get(idField))
    }

    /** Adds the id field to the record's hidden list when the record has it,
        then returns the record's `toArray()`. Only the hidden list changes. */
    method GetAttributes(resource: Entity) returns (attributes: map<string, Value>)
      modifies resource
      ensures resource.fields == old(resource.fields)
      ensures resource.hidden == HiddenAfter(old(resource.fields), old(resource.hidden), idField)
      ensures attributes == resource.ToArray()
      ensures attributes == Attributes(old(resource.fields), old(resource.hidden), idField)
    {
      if resource.Has(idField) {
        var hidden := resource.hidden + [idField];
        resource.SetHiddenProperties(hidden);
      }
      attributes := resource.ToArray();
    }
  }
}

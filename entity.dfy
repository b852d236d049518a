/**
 * The part of a CakePHP 3 ORM entity that the schemas touch: its stored
 * fields and its list of hidden properties. `toArray()` gives the visible
 * fields. Accessors, virtual properties and the recursive conversion of
 * nested entities are not part of this model.
 */
module CakeEntity {
  import opened PhpValues

  /** The fields of `fields` whose names are not in `hidden`: what `toArray()` returns. */
  function Visible(fields: map<string, Value>, hidden: seq<string>): (r: map<string, Value>)
    ensures forall k :: k in r <==> k in fields && k !in hidden
    ensures forall k :: k in r ==> r[k] == fields[k]
  {
    map k | k in fields && k !in hidden :: fields[k]
  }

  /** `$entity->get($field)`: the stored value, or null when the field is absent. */
  function FieldValue(fields: map<string, Value>, name: string): (v: Value)
    ensures name in fields ==> v == fields[name]
    ensures name !in fields ==> v == Null
  {
    if name in fields then fields[name] else Null
  }

  /** `$entity->has($field)`: the field holds a non-null value. */
  predicate HasField(fields: map<string, Value>, name: string) {
    FieldValue(fields, name) != Null
  }

  class Entity {
    var fields: map<string, Value>
    var hidden: seq<string>

    constructor (fields: map<string, Value>, hidden: seq<string>)
      ensures this.fields == fields && this.hidden == hidden
    {
      this.fields := fields;
      this.hidden := hidden;
    }

    /** `get($field)`: the stored value, or null when the field is absent. */
    function Get(name: string): (v: Value)
      reads this
      ensures name in fields ==> v == fields[name]
      ensures name !in fields ==> v == Null
    {
      FieldValue(fields, name)
    }

    /** `has($field)`: the field is present and not null. */
    predicate Has(name: string): (b: bool)
      reads this
      ensures b <==> name in fields && fields[name] != Null
    {
      HasField(fields, name)
    }

    /** `toArray()`: the fields not named in the hidden list. */
    function ToArray(): (r: map<string, Value>)
      reads this
      ensures forall k :: k in r <==> k in fields && k !in hidden
      ensures forall k :: k in r ==> r[k] == fields[k]
    {
      Visible(fields, hidden)
    }

    /** `$entity->hiddenProperties($properties)`: replaces the hidden list. */
    method SetHiddenProperties(properties: seq<string>)
      modifies this
      ensures hidden == properties
      ensures fields == old(fields)
    {
      hidden := properties;
    }
  }
}

/**
 * How the three schemas relate: the view layer's EntitySchema
 * (src/View/Schema/EntitySchema.php), the older one (src/Schema/EntitySchema.php)
 * and the test application's AuthorSchema.
 */
module SchemaVariants {
  import opened PhpValues
  import opened CakeEntity
  import ViewSchema
  import Schema
  import AuthorSchema

  /** The view-layer id is the string cast of the older schema's raw id. */
  lemma ViewIdCastsRawId(view: ViewSchema.EntitySchema, older: Schema.EntitySchema, e: Entity)
    requires view.idField == older.idField
    ensures view.GetId(e) == ToPhpString(older.GetId(e))
  {
  }

  /** AuthorSchema drops the parent's cast: the parent (with the default id
      field) would return the string cast of AuthorSchema's id. */
  lemma AuthorIdSkipsCast(parent: ViewSchema.EntitySchema, e: Entity)
    requires parent.idField == "id"
    ensures parent.GetId(e) == ToPhpString(AuthorSchema.GetId(e))
  {
  }

  /**
   * Both default schemas leave the id field out when the record has it. The
   * view-layer schema never shows more than the older one; they agree
   * exactly when no field other than the id was hidden before the call.
   */
  lemma ViewAttributesWithinOld(fields: map<string, Value>, hidden: seq<string>, idField: string)
    requires HasField(fields, idField)
    ensures idField !in ViewSchema.Attributes(fields, hidden, idField)
    ensures idField !in Schema.Attributes(fields, hidden, idField)
    ensures forall k :: k in ViewSchema.Attributes(fields, hidden, idField) ==>
      k in Schema.Attributes(fields, hidden, idField) &&
      Schema.Attributes(fields, hidden, idField)[k] == ViewSchema.Attributes(fields, hidden, idField)[k]
    ensures ViewSchema.Attributes(fields, hidden, idField) == Schema.Attributes(fields, hidden, idField)
      <==> forall k :: k in fields && k in hidden ==> k == idField
  {
    var v := ViewSchema.Attributes(fields, hidden, idField);
    var o := Schema.Attributes(fields, hidden, idField);
    if forall k :: k in fields && k in hidden ==> k == idField {
      assert v.Keys == o.Keys;
    }
  }
}

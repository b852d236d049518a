/**
 * The custom schema for authors in the plugin's test application
 * (tests/test_app/TestApp/View/Schema/AuthorSchema.php). It extends the view
 * layer's EntitySchema and overrides the id, the attributes and the
 * relationships; its resource type is the inherited default. Every override
 * only reads the entity.
 */
module AuthorSchema {
  import opened PhpValues
  import opened CakeEntity
  import opened ResourceType

  /** A relationship entry `[self::DATA => ...]`: the related data as stored
      on the entity. */
  datatype Relationship = Relationship(data: Value)

  /** `$entity->get('id')`: the raw id, without the parent's string cast. */
  function GetId(entity: Entity): (r: Value)
    reads entity
    ensures "id" in entity.fields ==> r == entity.fields["id"]
    ensures "id" !in entity.fields ==> r == Null
  {
    entity.Get("id")
  }

  /** Exactly `title`, `body` and `published`, each read from the entity
      (null when absent), whatever the entity's other fields and hidden list. */
  function GetAttributes(entity: Entity): (r: map<string, Value>)
    reads entity
    ensures r.Keys == {"title", "body", "published"}
    ensures forall k :: k in r ==> r[k] == entity.Get(k)
    ensures "id" !in r
  {
    map["title" := entity.Get("title"), "body" := entity.Get("body"), "published" := entity.Get("published")]
  }

  /** A single relationship `articles` holding the entity's `articles`; the
      requested include list is ignored. */
  function GetRelationships(entity: Entity, includeRelationships: seq<string>): (r: map<string, Relationship>)
    reads entity
    ensures r.Keys == {"articles"}
    ensures r["articles"].data == entity.Get("articles")
  {
    map["articles" := Relationship(entity.Get("articles"))]
  }

  /** The resource type is the inherited default: "authors" for the entity
      name "Author", given that the inflector pluralizes it to "Authors". */
  lemma ResourceTypeIsAuthors(pluralize: Pluralizer)
    requires pluralize("Author") == "Authors"
    ensures ResourceTypeFor("", "Author", pluralize) == "authors"
  {
    assert PhpStrings.Lower("Authors") == "authors";
  }
}

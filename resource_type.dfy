/**
 * The `resourceType` default shared by both entity schema classes
 * (src/View/Schema/EntitySchema.php and src/Schema/EntitySchema.php): a
 * subclass may preset the type; if the preset is falsy the constructor sets
 * it to the lower-cased plural of the entity name.
 */
module ResourceType {
  import opened PhpStrings

  /** `Inflector::pluralize`, left abstract: the caller supplies it. */
  type Pluralizer = string -> string

  /** PHP's `!$s` on a string: the empty string and "0" are falsy. A preset
      of `null` (no preset) is written as "". */
  predicate Falsy(s: string) {
    s == "" || s == "0"
  }

  /** The constructor's default: a truthy preset resource type is kept, and a
      falsy one becomes the lower-cased plural of the entity name. */
  function ResourceTypeFor(preset: string, entityName: string, pluralize: Pluralizer): (r: string)
    ensures !Falsy(preset) ==> r == preset
    ensures Falsy(preset) ==> |r| == |pluralize(entityName)|
    ensures Falsy(preset) ==> forall i :: 0 <= i < |r| ==> !IsUpper(r[i])
    ensures Falsy(preset) ==> forall i :: 0 <= i < |r| ==> r[i] == LowerChar(pluralize(entityName)[i])
  {
    if Falsy(preset) then Lower(pluralize(entityName)) else preset
  }
}

/**
  * The starting state shared by the admin forms whose text fields come with a bold flag:
  * every listed field starts as stored, and a bold flag that nothing was stored for starts
  * as `false` (`content.xBold ?? false`).
  */
module FormFields {
  import opened Js

  /** One starting value per listed field name; the names in `bold` default to `false`. */
  function StartingFields(content: Object, names: seq<string>, bold: set<string>): (fields: Object)
    ensures fields.Keys == set k | k in names
  {
    map k | k in names :: if k in bold then Coalesce(Get(content, k), Bool(false)) else Get(content, k)
  }

  /**
    * A bold flag starts false only when nothing is stored for it: a stored value, even a falsy
    * one, is kept. Every other field starts as stored, missing ones as `undefined`.
    */
  lemma StartingValues(content: Object, names: seq<string>, bold: set<string>, key: string)
    requires key in names
    ensures key in bold ==>
      StartingFields(content, names, bold)[key] == (if Nullish(Get(content, key)) then Bool(false) else content[key])
    ensures key !in bold ==> StartingFields(content, names, bold)[key] == Get(content, key)
  {
  }
}

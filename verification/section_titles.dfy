/**
  * The section-title editor the content forms share: each accordion section has a title the
  * admin can rename in place. One section at a time is being renamed, its new title typed into
  * a buffer, then saved into the titles or thrown away.
  */
module SectionTitles {
  import opened Wrappers
  import opened Js

  /** `content.sectionTitles?.[key] || fallback`: a missing or empty stored title gives the fallback. */
  function TitleOr(content: Object, key: string, fallback: string): (v: Value)
    ensures Truthy(Member(Get(content, "sectionTitles"), key)) ==> v == Member(Get(content, "sectionTitles"), key)
    ensures !Truthy(Member(Get(content, "sectionTitles"), key)) ==> v == Str(fallback)
  {
    Or(Member(Get(content, "sectionTitles"), key), Str(fallback))
  }

  class TitleEditor {
    /** `sectionTitles` */
    var titles: Object
    /** `editingSection` */
    var editing: Option<string>
    /** `editTitleValue` */
    var buffer: Value

    constructor(initial: Object)
      ensures titles == initial && editing == None && buffer == Str("")
    {
      titles := initial;
      editing := None;
      buffer := Str("");
    }

    /** `handleTitleEdit(key)`: the section's current title (`undefined` if it has none) goes into the buffer. */
    method Edit(key: string)
      modifies this
      ensures editing == Some(key) && buffer == Get(old(titles), key)
      ensures titles == old(titles)
    {
      editing := Some(key);
      buffer := Get(titles, key);
    }

    /** The privacy form's `handleTitleEdit(key)`: a missing or empty title puts "" in the buffer. */
    method EditOrBlank(key: string)
      modifies this
      ensures editing == Some(key) && buffer == Or(Get(old(titles), key), Str(""))
      ensures titles == old(titles)
    {
      editing := Some(key);
      buffer := Or(Get(titles, key), Str(""));
    }

    /** Typing into the title input. */
    method Type(text: string)
      modifies this
      ensures buffer == Str(text)
      ensures titles == old(titles) && editing == old(editing)
    {
      buffer := Str(text);
    }

    /** `handleTitleSave(key)`: the buffer becomes that section's title, and editing ends. */
    method Save(key: string)
      modifies this
      ensures titles == old(titles)[key := old(buffer)]
      ensures editing == None && buffer == Str("")
    {
      titles := titles[key := buffer];
      editing := None;
      buffer := Str("");
    }

    /** `handleTitleCancel()`: editing ends and the titles stay as they were. */
    method Cancel()
      modifies this
      ensures titles == old(titles)
      ensures editing == None && buffer == Str("")
    {
      editing := None;
      buffer := Str("");
    }
  }

  /**
    * Saving a title writes exactly that key: every other section keeps its title, and the
    * saved section has no other keys added or removed.
    */
  lemma SaveWritesOneKey(titles: Object, key: string, v: Value)
    ensures titles[key := v].Keys == titles.Keys + {key}
    ensures Get(titles[key := v], key) == v
    ensures forall k | k != key :: Get(titles[key := v], k) == Get(titles, k)
  {
  }

  /** Editing a section and saving it straight away leaves an existing title as it was. */
  lemma EditThenSaveKeeps(titles: Object, key: string)
    requires key in titles
    ensures titles[key := Get(titles, key)] == titles
  {
  }
}

/**
  * The Contact admin form: the hero and contact texts with their bold flags, the contact
  * image, two renameable section titles, and a save that layers the edited fields over the
  * stored content.
  */
module ContactInputs {
  import opened Js
  import opened SectionTitles
  import opened FormFields

  /** The content fields the form edits, by the name they are saved under. */
  const FieldNames: seq<string> := [
    "heroTitle", "heroTitleBold",
    "heroSubtitle", "heroSubtitleBold",
    "heroDescription", "heroDescriptionBold",
    "contactTitle", "contactTitleBold",
    "contactDescription", "contactDescriptionBold",
    "contactImage"]

  const BoldNames: set<string> := {"heroTitleBold", "heroSubtitleBold", "heroDescriptionBold", "contactTitleBold", "contactDescriptionBold"}

  function InitialTitles(content: Object): (titles: Object)
    ensures titles.Keys == {"hero", "contact"}
    ensures titles["hero"] == TitleOr(content, "hero", "Hero Section")
    ensures titles["contact"] == TitleOr(content, "contact", "Contact Information Section")
  {
    map["hero" := TitleOr(content, "hero", "Hero Section"),
        "contact" := TitleOr(content, "contact", "Contact Information Section")]
  }

  /** The saved content: `{ ...props.content, <the eleven fields>, sectionTitles }`. */
  function SavedContent(content: Object, fields: Object, titles: Object): Object {
    content + fields + map["sectionTitles" := Obj(titles)]
  }

  /** `{ ...props, content: <the saved content> }` */
  function SavePayload(props: Object, fields: Object, titles: Object): Object {
    props + map["content" := Obj(SavedContent(ObjectOf(Get(props, "content")), fields, titles))]
  }

  class ContactForm {
    const props: Object
    var fields: Object
    const editor: TitleEditor

    /** The page's props; their `content` is an object. */
    constructor(props: Object)
      requires Get(props, "content").Obj?
      ensures this.props == props
      ensures fields == StartingFields(ObjectOf(Get(props, "content")), FieldNames, BoldNames)
      ensures fresh(editor) && editor.titles == InitialTitles(ObjectOf(Get(props, "content")))
      ensures editor.editing.None? && editor.buffer == Str("")
    {
      this.props := props;
      fields := StartingFields(ObjectOf(Get(props, "content")), FieldNames, BoldNames);
      editor := new TitleEditor(InitialTitles(ObjectOf(Get(props, "content"))));
    }

    /** One of the field setters the inputs and checkboxes call. */
    method SetField(key: string, v: Value)
      requires key in FieldNames
      modifies this
      ensures fields == old(fields)[key := v]
    {
      fields := fields[key := v];
    }

    /** `handleSave()`: the payload handed to the page update. */
    method HandleSave() returns (payload: Object)
      ensures payload == SavePayload(props, fields, editor.titles)
    {
      var content := ObjectOf(Get(props, "content"));
      payload := props + map["content" := Obj(SavedContent(content, fields, editor.titles))];
    }
  }

  /** The payload keeps every top-level prop but `content`, which is replaced by the saved content. */
  lemma PayloadKeepsProps(props: Object, fields: Object, titles: Object)
    ensures var payload := SavePayload(props, fields, titles);
      && payload.Keys == props.Keys + {"content"}
      && (forall k | k in props && k != "content" :: payload[k] == props[k])
      && payload["content"] == Obj(SavedContent(ObjectOf(Get(props, "content")), fields, titles))
  {
  }

  /**
    * In the saved content every stored field the form does not list keeps its value, the
    * form's fields take its values, and the titles are the edited ones.
    */
  lemma SavedContentKeepsUnlisted(content: Object, fields: Object, titles: Object)
    requires "sectionTitles" !in fields
    ensures var saved := SavedContent(content, fields, titles);
      && saved.Keys == content.Keys + fields.Keys + {"sectionTitles"}
      && (forall k | k in content && k !in fields && k != "sectionTitles" :: saved[k] == content[k])
      && (forall k | k in fields :: saved[k] == fields[k])
      && saved["sectionTitles"] == Obj(titles)
  {
  }

  /** Saving straight after loading keeps a stored bold flag or writes `false` for a missing one. */
  lemma UnchangedSaveFillsBoldFlags(props: Object, key: string)
    requires Get(props, "content").Obj? && key in BoldNames
    ensures var content := ObjectOf(Get(props, "content"));
      var saved := SavePayload(props, StartingFields(content, FieldNames, BoldNames), InitialTitles(content))["content"].fields;
      saved[key] == (if Nullish(Get(content, key)) then Bool(false) else content[key])
  {
    var content := ObjectOf(Get(props, "content"));
    assert key in StartingFields(content, FieldNames, BoldNames);
  }
}

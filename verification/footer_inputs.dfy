/**
  * The footer admin form: the logo and five text lines with their bold flags, two renameable
  * section titles, and a save that layers the edited fields over the stored content.
  */
module FooterInputs {
  import opened Js
  import opened SectionTitles
  import opened FormFields

  const DefaultSiteLogo: string := "/images/brightlogo.png"

  /** The content fields the form edits, by the name they are saved under. */
  const FieldNames: seq<string> := [
    "logoImage",
    "tagline", "taglineBold",
    "phone", "phoneBold",
    "address", "addressBold",
    "abn", "abnBold",
    "acn", "acnBold",
    "copyright", "copyrightBold"]

  const BoldNames: set<string> := {"taglineBold", "phoneBold", "addressBold", "abnBold", "acnBold", "copyrightBold"}

  function InitialTitles(content: Object): (titles: Object)
    ensures titles.Keys == {"logo", "content"}
    ensures titles["logo"] == TitleOr(content, "logo", "Footer Logo")
    ensures titles["content"] == TitleOr(content, "content", "Footer Content")
  {
    map["logo" := TitleOr(content, "logo", "Footer Logo"),
        "content" := TitleOr(content, "content", "Footer Content")]
  }

  /**
    * The saved content: `{ ...props.content, <the thirteen fields>, siteLogo: props.content.siteLogo
    * || "/images/brightlogo.png", socialMedia: props.content.socialMedia, sectionTitles }`.
    */
  function SavedContent(content: Object, fields: Object, titles: Object): Object {
    content + fields + map[
      "siteLogo" := Or(Get(content, "siteLogo"), Str(DefaultSiteLogo)),
      "socialMedia" := Get(content, "socialMedia"),
      "sectionTitles" := Obj(titles)]
  }

  /** `{ ...props, content: <the saved content> }` */
  function SavePayload(props: Object, fields: Object, titles: Object): Object {
    props + map["content" := Obj(SavedContent(ObjectOf(Get(props, "content")), fields, titles))]
  }

  class FooterForm {
    const props: Object
    var fields: Object
    const editor: TitleEditor

    /** The footer's props; their `content` is an object. */
    constructor(props: Object)
      requires Get(props, "content").Obj?
      ensures this.props == props
      ensures fields == StartingFields(ObjectOf(Get(props, "content")), FieldNames, BoldNames)
      ensures fresh(editor) && editor.titles == InitialTitles(ObjectOf(Get(props, "content")))
      ensures editor.editing.None? && editor.buffer == Str("")
    {
      this.props := props;
      fields := StartingFields(ObjectOf(Get(props, "content")), FieldNames, BoldNames);
      editor := new TitleEditor(InitialTitles(ObjectOf(Get(props, "content"))));
    }

    /** One of the field setters the inputs and checkboxes call. */
    method SetField(key: string, v: Value)
      requires key in FieldNames
      modifies this
      ensures fields == old(fields)[key := v]
    {
      fields := fields[key := v];
    }

    /** `handleSave()`: the payload handed to the page update. */
    method HandleSave() returns (payload: Object)
      ensures payload == SavePayload(props, fields, editor.titles)
    {
      var content := ObjectOf(Get(props, "content"));
      payload := props + map["content" := Obj(SavedContent(content, fields, editor.titles))];
    }
  }

  /** The payload keeps every top-level prop but `content`, which is replaced by the saved content. */
  lemma PayloadKeepsProps(props: Object, fields: Object, titles: Object)
    ensures var payload := SavePayload(props, fields, titles);
      && payload.Keys == props.Keys + {"content"}
      && (forall k | k in props && k != "content" :: payload[k] == props[k])
      && payload["content"] == Obj(SavedContent(ObjectOf(Get(props, "content")), fields, titles))
  {
  }

  /**
    * In the saved content every stored field the form does not list keeps its value, the
    * thirteen fields take the form's values, the logo falls back to the default when the
    * stored one is falsy, and the social profiles are saved as stored.
    */
  lemma SavedContentKeepsUnlisted(content: Object, fields: Object, titles: Object)
    requires "siteLogo" !in fields && "socialMedia" !in fields && "sectionTitles" !in fields
    ensures var saved := SavedContent(content, fields, titles);
      && saved.Keys == content.Keys + fields.Keys + {"siteLogo", "socialMedia", "sectionTitles"}
      && (forall k | k in content && k !in fields && k !in {"siteLogo", "socialMedia", "sectionTitles"} ::
            saved[k] == content[k])
      && (forall k | k in fields :: saved[k] == fields[k])
      && saved["siteLogo"] ==
           (if Truthy(Get(content, "siteLogo")) then Get(content, "siteLogo") else Str(DefaultSiteLogo))
      && saved["socialMedia"] == Get(content, "socialMedia")
      && saved["sectionTitles"] == Obj(titles)
  {
  }

  /** The form's own fields never include the three keys the save adds itself. */
  lemma FieldNamesLeaveExtras()
    ensures forall k | k in FieldNames :: k !in {"siteLogo", "socialMedia", "sectionTitles"}
  {
  }
}

/**
  * The About Us admin form: twenty editable content fields, three renameable section titles,
  * and a save that sends the page's props with a `content` rebuilt from the form alone.
  */
module AboutUsInputs {
  import opened Js
  import opened SectionTitles

  const Placeholder: string := "/placeholder.jpg"

  /** The content fields the form edits, by the name they are saved under. */
  const FieldNames: seq<string> := [
    "youtubeVideoId", "title", "heroImage", "ourStoryParagraph", "AboutUsbuttonText",
    "tab1title", "tab1content", "tab1image",
    "tab2title", "tab2content", "tab2image",
    "tab3title", "tab3content", "tab3image",
    "tab4title", "tab4content", "tab4image",
    "tab5title", "tab5content", "tab5image"]

  /** The image fields, which fall back to the placeholder image. */
  const ImageNames: set<string> := {"heroImage", "tab1image", "tab2image", "tab3image", "tab4image", "tab5image"}

  /** A field's starting value: the stored value, with `|| ""` for the video id and `|| "/placeholder.jpg"` for images. */
  function InitialValue(content: Object, key: string): Value {
    if key == "youtubeVideoId" then Or(Get(content, key), Str(""))
    else if key in ImageNames then Or(Get(content, key), Str(Placeholder))
    else Get(content, key)
  }

  function InitialFields(content: Object): (fields: Object)
    ensures fields.Keys == set k | k in FieldNames
  {
    map k | k in FieldNames :: InitialValue(content, k)
  }

  function InitialTitles(content: Object): (titles: Object)
    ensures titles.Keys == {"hero", "tabs", "youtube"}
    ensures titles["hero"] == TitleOr(content, "hero", "Hero Section")
    ensures titles["tabs"] == TitleOr(content, "tabs", "Content Tabs")
    ensures titles["youtube"] == TitleOr(content, "youtube", "YouTube Video")
  {
    map["hero" := TitleOr(content, "hero", "Hero Section"),
        "tabs" := TitleOr(content, "tabs", "Content Tabs"),
        "youtube" := TitleOr(content, "youtube", "YouTube Video")]
  }

  /** `{ ...props, content: { <the twenty fields>, sectionTitles } }` */
  function SavePayload(props: Object, fields: Object, titles: Object): Object {
    props + map["content" := Obj(fields + map["sectionTitles" := Obj(titles)])]
  }

  class AboutUsForm {
    const props: Object
    var fields: Object
    const editor: TitleEditor

    /** The page's props; their `content` is an object. */
    constructor(props: Object)
      requires Get(props, "content").Obj?
      ensures this.props == props
      ensures fields == InitialFields(ObjectOf(Get(props, "content")))
      ensures fresh(editor) && editor.titles == InitialTitles(ObjectOf(Get(props, "content")))
      ensures editor.editing.None? && editor.buffer == Str("")
    {
      this.props := props;
      fields := InitialFields(ObjectOf(Get(props, "content")));
      editor := new TitleEditor(InitialTitles(ObjectOf(Get(props, "content"))));
    }

    /** One of the field setters the inputs call. */
    method SetField(key: string, v: Value)
      requires key in FieldNames
      modifies this
      ensures fields == old(fields)[key := v]
    {
      fields := fields[key := v];
    }

    /** `handleSave()`: the payload handed to the page update. */
    method HandleSave() returns (payload: Object)
      ensures payload == SavePayload(props, fields, editor.titles)
    {
      payload := props + map["content" := Obj(fields + map["sectionTitles" := Obj(editor.titles)])];
    }
  }

  /** Falsy stored images start as the placeholder and a falsy video id as ""; other fields start as stored. */
  lemma InitialDefaults(content: Object, key: string)
    requires key in FieldNames
    ensures key in ImageNames ==>
      InitialFields(content)[key] == (if Truthy(Get(content, key)) then Get(content, key) else Str(Placeholder))
    ensures key == "youtubeVideoId" ==>
      InitialFields(content)[key] == (if Truthy(Get(content, key)) then Get(content, key) else Str(""))
    ensures key != "youtubeVideoId" && key !in ImageNames ==> InitialFields(content)[key] == Get(content, key)
  {
  }

  /**
    * The payload keeps every top-level prop but `content`, whose keys are exactly the twenty
    * fields and `sectionTitles`: any other stored content field is dropped.
    */
  lemma PayloadReplacesContent(props: Object, fields: Object, titles: Object)
    requires fields.Keys == set k | k in FieldNames
    ensures var payload := SavePayload(props, fields, titles);
      && payload.Keys == props.Keys + {"content"}
      && (forall k | k in props && k != "content" :: payload[k] == props[k])
      && payload["content"].Obj?
      && payload["content"].fields.Keys == (set k | k in FieldNames) + {"sectionTitles"}
      && (forall k | k in FieldNames :: payload["content"].fields[k] == fields[k])
      && payload["content"].fields["sectionTitles"] == Obj(titles)
  {
  }

  /** There are twenty fields, and the image fields are among them. */
  lemma FieldCount()
    ensures |FieldNames| == 20
    ensures forall i, j | 0 <= i < j < |FieldNames| :: FieldNames[i] != FieldNames[j]
    ensures ImageNames <= set k | k in FieldNames
  {
  }
}

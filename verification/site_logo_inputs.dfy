/**
  * The site logo admin form: one image, chosen from the media library, saved into the
  * footer's content where the header and the menus read it.
  */
module SiteLogoInputs {
  import opened Js

  const DefaultSiteLogo: string := "/images/brightlogo.png"

  /** `props.content.siteLogo || "/images/brightlogo.png"` */
  function InitialLogo(content: Object): (v: Value)
    ensures Truthy(v)
    ensures Truthy(Get(content, "siteLogo")) ==> v == Get(content, "siteLogo")
  {
    Or(Get(content, "siteLogo"), Str(DefaultSiteLogo))
  }

  /** `{ ...props, content: { ...props.content, siteLogo } }` */
  function SavePayload(props: Object, siteLogo: Value): Object {
    props + map["content" := Obj(ObjectOf(Get(props, "content")) + map["siteLogo" := siteLogo])]
  }

  class SiteLogoForm {
    const props: Object
    var siteLogo: Value

    /** The footer's props; their `content` is an object. */
    constructor(props: Object)
      requires Get(props, "content").Obj?
      ensures this.props == props && siteLogo == InitialLogo(ObjectOf(Get(props, "content")))
    {
      this.props := props;
      siteLogo := InitialLogo(ObjectOf(Get(props, "content")));
    }

    /** The image picker's `onImageChange`: the chosen image becomes the logo. */
    method OnImageChange(url: string)
      modifies this
      ensures siteLogo == Str(url)
    {
      siteLogo := Str(url);
    }

    /** `handleSave()`: the payload handed to the footer update. */
    method HandleSave() returns (payload: Object)
      ensures payload == SavePayload(props, siteLogo)
    {
      var content := ObjectOf(Get(props, "content"));
      payload := props + map["content" := Obj(content + map["siteLogo" := siteLogo])];
    }
  }

  /** Saving changes the content's `siteLogo` and nothing else, at the top level or in the content. */
  lemma SaveChangesOnlyLogo(props: Object, siteLogo: Value)
    requires Get(props, "content").Obj?
    ensures var payload := SavePayload(props, siteLogo);
      var content := ObjectOf(Get(props, "content"));
      && payload.Keys == props.Keys
      && (forall k | k in props && k != "content" :: payload[k] == props[k])
      && payload["content"].Obj?
      && payload["content"].fields.Keys == content.Keys + {"siteLogo"}
      && payload["content"].fields["siteLogo"] == siteLogo
      && (forall k | k in content && k != "siteLogo" :: payload["content"].fields[k] == content[k])
  {
  }

  /** Saving a stored, non-empty logo without picking another gives the props back unchanged. */
  lemma UnchangedSaveIsIdentity(props: Object)
    requires Get(props, "content").Obj? && Truthy(Get(ObjectOf(Get(props, "content")), "siteLogo"))
    ensures SavePayload(props, InitialLogo(ObjectOf(Get(props, "content")))) == props
  {
    var content := ObjectOf(Get(props, "content"));
    assert content + map["siteLogo" := content["siteLogo"]] == content;
    assert props + map["content" := Obj(content)] == props;
  }

  /** Saving without a stored logo writes the default one. */
  lemma MissingLogoSavesDefault(props: Object)
    requires Get(props, "content").Obj? && !Truthy(Get(ObjectOf(Get(props, "content")), "siteLogo"))
    ensures SavePayload(props, InitialLogo(ObjectOf(Get(props, "content"))))["content"].fields["siteLogo"] == Str(DefaultSiteLogo)
  {
  }
}

/**
  * The Privacy Policy admin form: twenty-three numbered text sections, each with a title the
  * admin can rename, and a save that sends the page's title, description and slug with a
  * `content` rebuilt from the form alone.
  */
module PrivacyPolicyInputs {
  import opened Js
  import opened Text
  import opened SectionTitles

  /** The label of each section, in order; section `i + 1` has label `Labels[i]`. */
  const Labels: seq<string> := [
    "What We Collect",
    "How We Collect Information",
    "Why We Collect, Use & Disclose",
    "Credit-Related Information",
    "Disclosures to Third Parties",
    "Overseas Disclosures",
    "Marketing",
    "Cookies & Website Analytics",
    "Security",
    "Access & Correction",
    "Retention",
    "Notifiable Data Breaches",
    "Complaints",
    "Changes to this Policy",
    "Contact Us",
    "Indemnity",
    "Prohibited Conduct",
    "Variation of Terms",
    "Survival Clause",
    "Notices",
    "Severability",
    "Entire Agreement",
    "Data Breach Notification"]

  /** `section${i + 1}`: the content key, and the title key, of the section at index `i`. */
  function SectionKey(i: nat): (k: string)
    ensures |k| > 7 && k[..7] == "section"
  {
    "section" + NatToString(i + 1)
  }

  /** The keys of all the sections. */
  function SectionKeys(): set<string> {
    set i | 0 <= i < |Labels| :: SectionKey(i)
  }

  /** `Section ${i + 1} - ${label}`: the title a section has when none is stored. */
  function DefaultTitle(i: nat): string
    requires i < |Labels|
  {
    "Section " + NatToString(i + 1) + " - " + Labels[i]
  }

  /** `content.sectionTitles?.[key] || <the default title>` */
  function StoredTitle(content: Object, i: nat): Value
    requires i < |Labels|
  {
    TitleOr(content, SectionKey(i), DefaultTitle(i))
  }

  /** Distinct sections have distinct keys. */
  lemma SectionKeyInjective(i: nat, j: nat)
    requires SectionKey(i) == SectionKey(j)
    ensures i == j
  {
    assert SectionKey(i)[7..] == NatToString(i + 1);
    assert SectionKey(j)[7..] == NatToString(j + 1);
    NatToStringInjective(i + 1, j + 1);
  }

  /** There are twenty-three sections, each under its own key. */
  lemma SectionCount()
    ensures |Labels| == 23
    ensures forall i, j | 0 <= i < j < |Labels| :: SectionKey(i) != SectionKey(j)
  {
    forall i, j | 0 <= i < j < |Labels|
      ensures SectionKey(i) != SectionKey(j)
    {
      if SectionKey(i) == SectionKey(j) {
        SectionKeyInjective(i, j);
      }
    }
  }

  /** No section key is `sectionTitles`, so the saved titles never overwrite a section. */
  lemma SectionKeyNotTitles(i: nat)
    ensures SectionKey(i) != "sectionTitles"
  {
    assert SectionKey(i)[7] == NatToString(i + 1)[0];
    assert "sectionTitles"[7] == 'T';
  }

  /** The keys of the first `n` sections. */
  function KeysBelow(n: nat): set<string> {
    set j | 0 <= j < n :: SectionKey(j)
  }

  /** Adding the section at index `n` adds a key not yet present. */
  lemma KeysBelowStep(n: nat)
    ensures KeysBelow(n + 1) == KeysBelow(n) + {SectionKey(n)}
    ensures SectionKey(n) !in KeysBelow(n)
  {
    if SectionKey(n) in KeysBelow(n) {
      var j :| 0 <= j < n && SectionKey(j) == SectionKey(n);
      SectionKeyInjective(j, n);
    }
  }

  /**
    * The `sectionTitles` initialiser: for each label in turn, the section's key gets its stored
    * title, or its default title when the stored one is missing or empty.
    */
  method InitialTitles(content: Object) returns (titles: Object)
    ensures titles.Keys == SectionKeys()
    ensures forall i | 0 <= i < |Labels| :: titles[SectionKey(i)] == StoredTitle(content, i)
  {
    titles := map[];
    var i := 0;
    while i < |Labels|
      invariant 0 <= i <= |Labels|
      invariant titles.Keys == KeysBelow(i)
      invariant forall j | 0 <= j < i :: titles[SectionKey(j)] == StoredTitle(content, j)
    {
      KeysBelowStep(i);
      titles := titles[SectionKey(i) := StoredTitle(content, i)];
      i := i + 1;
    }
  }

  /** The section texts as stored. */
  function InitialFields(content: Object): (fields: Object)
    ensures fields.Keys == SectionKeys()
  {
    map k | k in SectionKeys() :: Get(content, k)
  }

  /** `{ title, description, slug, content: { <the twenty-three sections>, sectionTitles } }` */
  function SavePayload(props: Object, fields: Object, titles: Object): Object {
    map["title" := Get(props, "title"),
        "description" := Get(props, "description"),
        "slug" := Get(props, "slug"),
        "content" := Obj(fields + map["sectionTitles" := Obj(titles)])]
  }

  class PrivacyPolicyForm {
    const props: Object
    var fields: Object
    const editor: TitleEditor

    /** The page's props; their `content` is an object. */
    constructor(props: Object)
      requires Get(props, "content").Obj?
      ensures this.props == props
      ensures fields == InitialFields(ObjectOf(Get(props, "content")))
      ensures fresh(editor) && editor.titles.Keys == SectionKeys()
      ensures forall i | 0 <= i < |Labels| ::
        editor.titles[SectionKey(i)] == StoredTitle(ObjectOf(Get(props, "content")), i)
      ensures editor.editing.None? && editor.buffer == Str("")
    {
      this.props := props;
      fields := InitialFields(ObjectOf(Get(props, "content")));
      var titles := InitialTitles(ObjectOf(Get(props, "content")));
      editor := new TitleEditor(titles);
    }

    /** One of the section setters the editors call. */
    method SetSection(i: nat, v: Value)
      requires i < |Labels|
      modifies this
      ensures fields == old(fields)[SectionKey(i) := v]
    {
      fields := fields[SectionKey(i) := v];
    }

    /** `handleSave()`: the payload handed to the page update. */
    method HandleSave() returns (payload: Object)
      ensures payload == SavePayload(props, fields, editor.titles)
    {
      payload := map["title" := Get(props, "title"),
                     "description" := Get(props, "description"),
                     "slug" := Get(props, "slug"),
                     "content" := Obj(fields + map["sectionTitles" := Obj(editor.titles)])];
    }
  }

  /**
    * The payload holds only the title, description, slug and content; other props are not
    * sent, and the content is exactly the sections and the titles.
    */
  lemma PayloadShape(props: Object, fields: Object, titles: Object)
    requires fields.Keys == SectionKeys()
    ensures var payload := SavePayload(props, fields, titles);
      && payload.Keys == {"title", "description", "slug", "content"}
      && payload["title"] == Get(props, "title")
      && payload["content"].Obj?
      && payload["content"].fields.Keys == SectionKeys() + {"sectionTitles"}
      && (forall i | 0 <= i < |Labels| :: payload["content"].fields[SectionKey(i)] == fields[SectionKey(i)])
      && payload["content"].fields["sectionTitles"] == Obj(titles)
  {
    forall i | 0 <= i < |Labels|
      ensures SectionKey(i) != "sectionTitles"
    {
      SectionKeyNotTitles(i);
    }
  }

  /** The first and last sections' default titles: the number counts from one and the label follows it. */
  lemma DefaultTitles()
    ensures DefaultTitle(0) == "Section " + "1" + " - " + "What We Collect"
    ensures DefaultTitle(22) == "Section " + "23" + " - " + "Data Breach Notification"
  {
    assert NatToString(1) == "1";
    assert NatToString(23) == NatToString(2) + [DigitChar(3)];
    assert NatToString(23) == "23";
  }
}

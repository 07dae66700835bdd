/** The character form: its fields, the generation guard, the portrait request built from the
  * generated appearance, and the hand-over to the gallery. */
module CharacterGenerator {
  import opened Wrappers
  import opened Text
  import opened Seqs
  import opened Json
  import CharacterGallery

  /** The members of `formData`. */
  const FormFields: seq<string> := ["name", "type", "setting", "age", "gender", "personality", "description"]

  /** A form field, the empty string when absent. */
  function Field(form: map<string, string>, k: string): string
  {
    if k in form then form[k] else ""
  }

  datatype CharacterRequest = CharacterRequest(
    name: Option<string>, kind: string, setting: string,
    age: Option<string>, gender: Option<string>, personality: Option<string>, description: Option<string>)

  /** `generateCharacter`'s request: refused without a type or a setting; the other fields are
    * sent only when filled in. */
  function RequestFor(form: map<string, string>): (r: Option<CharacterRequest>)
    ensures r.None? <==> Field(form, "type") == "" || Field(form, "setting") == ""
    ensures r.Some? ==> r.value.kind == Field(form, "type") && r.value.setting == Field(form, "setting")
    ensures r.Some? ==> r.value.name.GetOr("") == Field(form, "name") && r.value.age.GetOr("") == Field(form, "age")
    ensures r.Some? ==> r.value.gender.GetOr("") == Field(form, "gender")
    ensures r.Some? ==> r.value.personality.GetOr("") == Field(form, "personality")
    ensures r.Some? ==> r.value.description.GetOr("") == Field(form, "description")
    ensures r.Some? ==> (r.value.name.None? <==> Field(form, "name") == "")
  {
    if Field(form, "type") == "" || Field(form, "setting") == "" then None
    else Some(CharacterRequest(
      Optional(Field(form, "name")), Field(form, "type"), Field(form, "setting"),
      Optional(Field(form, "age")), Optional(Field(form, "gender")),
      Optional(Field(form, "personality")), Optional(Field(form, "description"))))
  }

  /** The appearance members read for the portrait, in this order. */
  const AppearanceKeys: seq<string> := ["height", "build", "hair_color", "eye_color", "clothing_style", "special_features"]

  /** A usable feature: a string that is not blank and not the placeholder '未设置'. */
  predicate IsFeature(v: Option<Json>)
  {
    v.Some? && v.value.JStr? && !IsBlank(v.value.s) && v.value.s != "未设置"
  }

  function FeatureText(v: Option<Json>): string
  {
    if v.Some? && v.value.JStr? then v.value.s else ""
  }

  function AppearanceValues(appearance: Option<Json>): (r: seq<Option<Json>>)
    ensures |r| == |AppearanceKeys|
    ensures forall i :: 0 <= i < |r| ==> r[i] == Get(appearance, AppearanceKeys[i])
  {
    Map(AppearanceKeys, k => Get(appearance, k))
  }

  /** The kept features of an appearance, in the fixed key order. */
  function Features(appearance: Option<Json>): seq<string>
  {
    Map(Filter(AppearanceValues(appearance), IsFeature), FeatureText)
  }

  /** At most six features, each a usable value: not blank and not the placeholder. */
  lemma FeaturesUsable(appearance: Option<Json>)
    ensures |Features(appearance)| <= 6
    ensures forall i :: 0 <= i < |Features(appearance)| ==>
      !IsBlank(Features(appearance)[i]) && Features(appearance)[i] != "未设置"
  {
    var kept := Filter(AppearanceValues(appearance), IsFeature);
    assert forall i :: 0 <= i < |kept| ==> IsFeature(kept[i]);
  }

  /** Every usable member is kept. */
  lemma FeaturesKeepUsable(appearance: Option<Json>, i: nat)
    requires i < |AppearanceKeys| && IsFeature(Get(appearance, AppearanceKeys[i]))
    ensures Get(appearance, AppearanceKeys[i]).value.s in Features(appearance)
  {
    var vs := AppearanceValues(appearance);
    var kept := Filter(vs, IsFeature);
    var v := vs[i];
    assert IsFeature(v);
    assert v in kept;
    var j :| 0 <= j < |kept| && kept[j] == v;
    var fs := Map(kept, FeatureText);
    assert fs[j] == FeatureText(v) == v.value.s;
  }

  /** The kept members come in key order. */
  lemma FeaturesInKeyOrder(appearance: Option<Json>)
    ensures IsSubsequence(Filter(AppearanceValues(appearance), IsFeature), AppearanceValues(appearance))
  {
    FilterIsSubsequence(AppearanceValues(appearance), IsFeature);
  }

  /** Why `generateCharacterImage` makes no request. */
  datatype Refusal = NoCharacter | NoAppearance | TooFewFeatures(count: nat)

  datatype ImageRequest = ImageRequest(characterName: string, appearance: string, style: string)

  /** The portrait request for the generated character under `artStyle`. */
  function ImageRequestFor(character: Option<Json>, formName: string, artStyle: string): (r: Result<ImageRequest, Refusal>)
    ensures !Truthy(character) ==> r == Err(NoCharacter)
    ensures Truthy(character) && !Truthy(Get(character, "appearance")) ==> r == Err(NoAppearance)
    ensures Truthy(character) && Truthy(Get(character, "appearance")) ==>
      var fs := Features(Get(character, "appearance"));
      (|fs| < 3 ==> r == Err(TooFewFeatures(|fs|))) &&
      (|fs| >= 3 ==> r.Ok? && r.value.appearance == Join(fs, ", ") && r.value.style == artStyle)
    ensures r.Ok? ==> r.value.characterName == CharacterName(character, formName)
  {
    if !Truthy(character) then Err(NoCharacter)
    else if !Truthy(Get(character, "appearance")) then Err(NoAppearance)
    else
      var fs := Features(Get(character, "appearance"));
      if |fs| < 3 then Err(TooFewFeatures(|fs|))
      else Ok(ImageRequest(CharacterName(character, formName), Join(fs, ", "), artStyle))
  }

  /** `basic_info.name`, else the name typed into the form, else '未命名角色'. */
  function CharacterName(character: Option<Json>, formName: string): (r: string)
    ensures NonEmptyText(Get(Get(character, "basic_info"), "name")).Some? ==>
      r == Get(Get(character, "basic_info"), "name").value.s
    ensures NonEmptyText(Get(Get(character, "basic_info"), "name")).None? && formName != "" ==> r == formName
    ensures NonEmptyText(Get(Get(character, "basic_info"), "name")).None? && formName == "" ==> r == "未命名角色"
  {
    match NonEmptyText(Get(Get(character, "basic_info"), "name"))
    case Some(n) => n
    case None => if formName != "" then formName else "未命名角色"
  }

  /** `{...characterData, type, setting}`: the form's type and setting override the data's own. */
  function Enriched(character: Json, kind: string, setting: string): (r: Json)
    ensures r.JObj? && "type" in r.fields && "setting" in r.fields
    ensures r.fields["type"] == JStr(kind) && r.fields["setting"] == JStr(setting)
    ensures character.JObj? ==> forall k :: k in character.fields && k != "type" && k != "setting" ==>
      k in r.fields && r.fields[k] == character.fields[k]
  {
    var base := if character.JObj? then character.fields else map[];
    JObj(base["type" := JStr(kind)]["setting" := JStr(setting)])
  }

  /** The gallery entry made from the enriched data shows the form's type and setting, or the
    * gallery's defaults when they were left empty. */
  lemma SavedEntryUsesForm(character: Json, kind: string, setting: string, imageUrl: string, id: string, createdAt: string)
    ensures var c := CharacterGallery.NewCharacter(Enriched(character, kind, setting), Some(imageUrl), id, createdAt);
      c.Some? && c.value.kind == (if kind != "" then kind else "未知类型") &&
      c.value.setting == (if setting != "" then setting else "未知背景") && c.value.imageUrl == imageUrl
  {
    var e := Enriched(character, kind, setting);
    assert Get(Some(e), "type") == Some(JStr(kind));
    assert Get(Some(e), "setting") == Some(JStr(setting));
  }

  datatype CharacterReply = CharacterReply(success: bool, character: Option<Json>, materials: Option<seq<Json>>)

  datatype PortraitReply = PortraitReply(success: bool, imageUrl: Option<string>)

  class Generator {
    var form: map<string, string>
    var character: Option<Json>
    var materials: seq<Json>
    var imageUrl: string

    constructor ()
      ensures forall k :: k in FormFields ==> k in form && form[k] == ""
      ensures character == None && materials == [] && imageUrl == ""
    {
      form := map["name" := "", "type" := "", "setting" := "", "age" := "", "gender" := "",
                  "personality" := "", "description" := ""];
      character := None;
      materials := [];
      imageUrl := "";
    }

    /** `handleInputChange`: only the named field takes the new value. */
    method InputChange(field: string, value: string)
      modifies this
      ensures form == old(form)[field := value]
      ensures Field(form, field) == value
      ensures forall k :: k != field ==> Field(form, k) == Field(old(form), k)
      ensures character == old(character) && materials == old(materials) && imageUrl == old(imageUrl)
    {
      form := form[field := value];
    }

    /** `generateCharacter`: a successful reply replaces the character and its materials and
      * clears the previous portrait. */
    method Generate(reply: Option<CharacterReply>) returns (sent: Option<CharacterRequest>)
      modifies this
      ensures sent == RequestFor(old(form))
      ensures sent.Some? && reply.Some? && reply.value.success ==>
        character == reply.value.character && materials == reply.value.materials.GetOr([]) && imageUrl == ""
      ensures !(sent.Some? && reply.Some? && reply.value.success) ==>
        character == old(character) && materials == old(materials) && imageUrl == old(imageUrl)
      ensures form == old(form)
    {
      sent := RequestFor(form);
      if sent.Some? && reply.Some? && reply.value.success {
        character := reply.value.character;
        materials := reply.value.materials.GetOr([]);
        imageUrl := "";
      }
    }

    /** `generateCharacterImage`: the portrait changes only when a request was made and the reply
      * carries a non-empty image URL. */
    method GeneratePortrait(artStyle: string, reply: Option<PortraitReply>) returns (sent: Result<ImageRequest, Refusal>)
      modifies this
      ensures sent == ImageRequestFor(old(character), Field(old(form), "name"), artStyle)
      ensures sent.Ok? && reply.Some? && reply.value.success && reply.value.imageUrl.GetOr("") != "" ==>
        imageUrl == reply.value.imageUrl.value
      ensures !(sent.Ok? && reply.Some? && reply.value.success && reply.value.imageUrl.GetOr("") != "") ==>
        imageUrl == old(imageUrl)
      ensures form == old(form) && character == old(character) && materials == old(materials)
    {
      sent := ImageRequestFor(character, Field(form, "name"), artStyle);
      if sent.Ok? && reply.Some? && reply.value.success && reply.value.imageUrl.GetOr("") != "" {
        imageUrl := reply.value.imageUrl.value;
      }
    }

    /** `saveToGallery`: with a character and a mounted gallery, the enriched data is handed to the
      * gallery's save with the current portrait URL. A gallery that has gone down took the page,
      * the generator included, with it, so nothing is saved. */
    method SaveToGallery(gallery: Option<CharacterGallery.Gallery>, id: string, createdAt: string) returns (saved: bool)
      modifies if gallery.Some? then {gallery.value, gallery.value.storage} else {}
      ensures saved ==> (gallery.Some? && Truthy(character) &&
        gallery.value.saved == old(gallery.value.saved) + [CharacterGallery.NewCharacter(
          Enriched(character.value, Field(form, "type"), Field(form, "setting")), Some(imageUrl), id, createdAt).value])
      ensures !saved && gallery.Some? ==> gallery.value.saved == old(gallery.value.saved)
      ensures saved <==> gallery.Some? && !old(gallery.value.down) && Truthy(character)
    {
      saved := false;
      if Truthy(character) && gallery.Some? {
        var data := Enriched(character.value, Field(form, "type"), Field(form, "setting"));
        saved := gallery.value.Save(data, Some(imageUrl), id, createdAt);
      }
    }
  }
}

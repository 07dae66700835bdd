/** The saved-character gallery: the `savedCharacters` list, its search filter and favourites. */
module CharacterGallery {
  import opened Wrappers
  import opened Text
  import opened Seqs
  import opened Json
  import opened Artifacts

  /** The search box matches the name, the type or the setting, case-insensitively. */
  predicate Matches(c: SavedCharacter, term: string)
  {
    var t := Lower(term);
    Contains(Lower(c.name), t) || Contains(Lower(c.kind), t) || Contains(Lower(c.setting), t)
  }

  function Filtered(saved: seq<SavedCharacter>, term: string): seq<SavedCharacter>
  {
    Filter(saved, c => Matches(c, term))
  }

  /** The filter keeps exactly the matching entries, in their original order; the empty
    * search term keeps every entry. */
  lemma FilteredExact(saved: seq<SavedCharacter>, term: string)
    ensures forall i :: 0 <= i < |Filtered(saved, term)| ==> Matches(Filtered(saved, term)[i], term)
    ensures forall i :: 0 <= i < |saved| && Matches(saved[i], term) ==> saved[i] in Filtered(saved, term)
    ensures IsSubsequence(Filtered(saved, term), saved)
    ensures forall x :: multiset(Filtered(saved, term))[x] == if Matches(x, term) then multiset(saved)[x] else 0
    ensures term == "" ==> Filtered(saved, term) == saved
  {
    FilterIsSubsequence(saved, c => Matches(c, term));
    FilterMultiplicity(saved, c => Matches(c, term));
    if term == "" {
      EmptyTermKeepsAll(saved);
    }
  }

  lemma EmptyTermKeepsAll(saved: seq<SavedCharacter>)
    ensures Filtered(saved, "") == saved
  {
    forall i | 0 <= i < |saved| ensures Matches(saved[i], "") {
      ContainsEmpty(Lower(saved[i].name));
    }
    FilterKeepsAll(saved, c => Matches(c, ""));
  }

  function CharacterId(c: SavedCharacter): string { c.id }

  /** The list after deleting `id`. */
  function WithoutId(saved: seq<SavedCharacter>, id: string): seq<SavedCharacter>
  {
    RemoveKey(saved, CharacterId, id)
  }

  /** The list after toggling the favourite flag of `id`. */
  function ToggledFavorite(saved: seq<SavedCharacter>, id: string): (r: seq<SavedCharacter>)
    ensures |r| == |saved|
    ensures forall i :: 0 <= i < |saved| && saved[i].id != id ==> r[i] == saved[i]
    ensures forall i :: 0 <= i < |saved| && saved[i].id == id ==>
              r[i] == saved[i].(isFavorite := !saved[i].isFavorite)
  {
    Map(saved, (c: SavedCharacter) => if c.id == id then c.(isFavorite := !c.isFavorite) else c)
  }

  /** Toggling the same id twice restores the list. */
  lemma ToggleTwiceRestores(saved: seq<SavedCharacter>, id: string)
    ensures ToggledFavorite(ToggledFavorite(saved, id), id) == saved
  {
    var r := ToggledFavorite(ToggledFavorite(saved, id), id);
    assert forall i :: 0 <= i < |saved| ==> r[i] == saved[i];
  }

  /** The favourite count shown above the list. */
  function FavoriteCount(saved: seq<SavedCharacter>): nat
  {
    Count(saved, IsFavorite)
  }

  predicate IsFavorite(c: SavedCharacter) { c.isFavorite }

  /** The record `saveCharacterToStorage` builds from generated character data; `None` where
    * reading `basic_info` of `null` throws and nothing is saved. */
  function NewCharacter(data: Json, imageUrl: Option<string>, id: string, createdAt: string): (r: Option<SavedCharacter>)
    ensures r.None? <==> data == JNull
    ensures r.Some? ==> r.value.id == id && r.value.data == data && r.value.createdAt == createdAt
    ensures r.Some? ==> !r.value.isFavorite
    ensures r.Some? && !Truthy(Get(Get(Some(data), "basic_info"), "name")) ==> r.value.name == "未命名角色"
    ensures r.Some? && !Truthy(Get(Some(data), "type")) ==> r.value.kind == "未知类型"
    ensures r.Some? && !Truthy(Get(Some(data), "setting")) ==> r.value.setting == "未知背景"
    ensures r.Some? && NonEmptyText(Get(Get(Some(data), "basic_info"), "name")).Some? ==>
      r.value.name == NonEmptyText(Get(Get(Some(data), "basic_info"), "name")).value
    ensures r.Some? && NonEmptyText(Get(Some(data), "type")).Some? ==>
      r.value.kind == NonEmptyText(Get(Some(data), "type")).value
    ensures r.Some? && NonEmptyText(Get(Some(data), "setting")).Some? ==>
      r.value.setting == NonEmptyText(Get(Some(data), "setting")).value
    ensures r.Some? ==> r.value.imageUrl == imageUrl.GetOr("")
  {
    if data == JNull then None
    else
      var d := Some(data);
      Some(SavedCharacter(
        id := id,
        name := TextOr(Get(Get(d, "basic_info"), "name"), "未命名角色"),
        kind := TextOr(Get(d, "type"), "未知类型"),
        setting := TextOr(Get(d, "setting"), "未知背景"),
        data := data,
        imageUrl := imageUrl.GetOr(""),
        createdAt := createdAt,
        isFavorite := false))
  }

  /** Saving a new character never changes the favourite count. */
  lemma SaveKeepsFavoriteCount(saved: seq<SavedCharacter>, c: SavedCharacter)
    requires !c.isFavorite
    ensures FavoriteCount(saved + [c]) == FavoriteCount(saved)
  {
    CountConcat(saved, [c], IsFavorite);
  }

  class Gallery {
    var saved: seq<SavedCharacter>
    var searchTerm: string
    /** The filter effect threw on a value that is not a list, so React took the page down and
      * no later event reaches it. */
    var down: bool
    const storage: StorageKey<SavedCharacter>

    constructor (storage: StorageKey<SavedCharacter>)
      ensures this.storage == storage && saved == [] && searchTerm == "" && !down
    {
      this.storage := storage;
      saved := [];
      searchTerm := "";
      down := false;
    }

    /** The list shown under the search box. */
    function Shown(): seq<SavedCharacter>
      reads this
    {
      Filtered(saved, searchTerm)
    }

    /** `loadSavedCharacters`: a stored list replaces the in-memory one; a missing, blank or
      * unparsable value leaves it as it was. A parsed value that is not a list is installed
      * too, and the filter effect's `savedCharacters.filter` then throws: the page is down. */
    method Load()
      modifies this
      ensures old(down) ==> unchanged(this)
      ensures !old(down) ==> saved == ListAfterLoad(storage.value, old(saved))
      ensures !old(down) ==> (down <==> Loaded(storage.value).Foreign?)
      ensures searchTerm == old(searchTerm)
    {
      if down {
        return;
      }
      match storage.value
      case Some(Entries(items)) => saved := items;
      case Some(Parsed(_)) => down := true;
      case _ =>
    }

    /** `saveCharacterToStorage`, also reachable as `window.saveCharacterToGallery`. */
    method Save(data: Json, imageUrl: Option<string>, id: string, createdAt: string) returns (ok: bool)
      modifies this, storage
      ensures ok <==> !old(down) && data != JNull
      ensures ok ==> saved == old(saved) + [NewCharacter(data, imageUrl, id, createdAt).value]
      ensures ok ==> storage.value == Some(Entries(saved))
      ensures !ok ==> saved == old(saved) && storage.value == old(storage.value)
      ensures searchTerm == old(searchTerm) && down == old(down)
    {
      var c := NewCharacter(data, imageUrl, id, createdAt);
      if down || c.None? {
        return false;
      }
      saved := saved + [c.value];
      storage.value := Some(Entries(saved));
      ok := true;
    }

    /** `deleteCharacter`: only after the user confirms. */
    method Delete(id: string, confirmed: bool)
      modifies this, storage
      ensures saved == if confirmed && !old(down) then WithoutId(old(saved), id) else old(saved)
      ensures storage.value == if confirmed && !old(down) then Some(Entries(saved)) else old(storage.value)
      ensures searchTerm == old(searchTerm) && down == old(down)
    {
      if confirmed && !down {
        saved := WithoutId(saved, id);
        storage.value := Some(Entries(saved));
      }
    }

    /** `toggleFavorite`. */
    method ToggleFavorite(id: string)
      modifies this, storage
      ensures saved == if old(down) then old(saved) else ToggledFavorite(old(saved), id)
      ensures storage.value == if old(down) then old(storage.value) else Some(Entries(saved))
      ensures searchTerm == old(searchTerm) && down == old(down)
    {
      if !down {
        saved := ToggledFavorite(saved, id);
        storage.value := Some(Entries(saved));
      }
    }

    method SetSearchTerm(term: string)
      modifies this
      ensures searchTerm == (if old(down) then old(searchTerm) else term)
      ensures saved == old(saved) && down == old(down)
    {
      if !down {
        searchTerm := term;
      }
    }
  }
}

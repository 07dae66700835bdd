/** The saved-storyboard gallery: the `savedStoryboards` list, its filter, favourites, and the
  * image and video generation started from a saved storyboard. */
module StoryboardGallery {
  import opened Wrappers
  import opened Text
  import opened Seqs
  import opened Artifacts

  /** The search box matches the title, the script or the style, case-insensitively. */
  predicate Matches(b: SavedStoryboard, term: string)
  {
    var t := Lower(term);
    Contains(Lower(b.title), t) || Contains(Lower(b.script), t) || Contains(Lower(b.style), t)
  }

  function Filtered(saved: seq<SavedStoryboard>, term: string): seq<SavedStoryboard>
  {
    Filter(saved, b => Matches(b, term))
  }

  /** The filter keeps exactly the matching storyboards, in their original order; the empty
    * term keeps them all. */
  lemma FilteredExact(saved: seq<SavedStoryboard>, term: string)
    ensures forall i :: 0 <= i < |Filtered(saved, term)| ==> Matches(Filtered(saved, term)[i], term)
    ensures forall i :: 0 <= i < |saved| && Matches(saved[i], term) ==> saved[i] in Filtered(saved, term)
    ensures IsSubsequence(Filtered(saved, term), saved)
    ensures forall x :: multiset(Filtered(saved, term))[x] == if Matches(x, term) then multiset(saved)[x] else 0
    ensures term == "" ==> Filtered(saved, term) == saved
  {
    FilterIsSubsequence(saved, b => Matches(b, term));
    FilterMultiplicity(saved, b => Matches(b, term));
    if term == "" {
      EmptyTermKeepsAll(saved);
    }
  }

  lemma EmptyTermKeepsAll(saved: seq<SavedStoryboard>)
    ensures Filtered(saved, "") == saved
  {
    forall i | 0 <= i < |saved| ensures Matches(saved[i], "") {
      ContainsEmpty(Lower(saved[i].title));
    }
    FilterKeepsAll(saved, b => Matches(b, ""));
  }

  function StoryboardId(b: SavedStoryboard): string { b.id }

  function WithoutId(saved: seq<SavedStoryboard>, id: string): seq<SavedStoryboard>
  {
    RemoveKey(saved, StoryboardId, id)
  }

  /** JavaScript truthiness of the optional favourite flag. */
  predicate IsFavorite(b: SavedStoryboard)
  {
    b.isFavorite == Some(true)
  }

  /** `{ ...sb, isFavorite: !sb.isFavorite }`: a missing flag is falsy, so it becomes true. */
  function Flipped(b: SavedStoryboard): (r: SavedStoryboard)
    ensures IsFavorite(r) <==> !IsFavorite(b)
    ensures r.isFavorite.Some?
    ensures r == b.(isFavorite := r.isFavorite)
  {
    b.(isFavorite := Some(!IsFavorite(b)))
  }

  function ToggledFavorite(saved: seq<SavedStoryboard>, id: string): (r: seq<SavedStoryboard>)
    ensures |r| == |saved|
    ensures forall i :: 0 <= i < |saved| && saved[i].id != id ==> r[i] == saved[i]
    ensures forall i :: 0 <= i < |saved| && saved[i].id == id ==> r[i] == Flipped(saved[i])
  {
    Map(saved, (b: SavedStoryboard) => if b.id == id then Flipped(b) else b)
  }

  /** Toggling twice restores every entry that has a flag; an entry saved without one comes
    * back with an explicit `false`, which is just as falsy. */
  lemma ToggleTwice(saved: seq<SavedStoryboard>, id: string)
    ensures var r := ToggledFavorite(ToggledFavorite(saved, id), id);
      |r| == |saved| &&
      forall i :: 0 <= i < |saved| ==>
        r[i] == (if saved[i].id == id && saved[i].isFavorite.None?
                 then saved[i].(isFavorite := Some(false)) else saved[i]) &&
        (IsFavorite(r[i]) <==> IsFavorite(saved[i]))
  {
    var once := ToggledFavorite(saved, id);
    var r := ToggledFavorite(once, id);
    forall i | 0 <= i < |saved|
      ensures r[i] == (if saved[i].id == id && saved[i].isFavorite.None?
                       then saved[i].(isFavorite := Some(false)) else saved[i])
    {
      if saved[i].id == id {
        assert once[i] == Flipped(saved[i]);
        assert r[i] == Flipped(once[i]);
        assert once[i].isFavorite == Some(!IsFavorite(saved[i]));
        assert r[i].isFavorite == Some(!IsFavorite(once[i]));
        assert r[i] == saved[i].(isFavorite := r[i].isFavorite);
        match saved[i].isFavorite {
          case None =>
          case Some(v) => assert r[i].isFavorite == Some(v);
        }
      }
    }
  }

  /** When every storyboard with that id carries a flag, toggling twice is the identity. */
  lemma ToggleTwiceRestoresFlagged(saved: seq<SavedStoryboard>, id: string)
    requires forall i :: 0 <= i < |saved| && saved[i].id == id ==> saved[i].isFavorite.Some?
    ensures ToggledFavorite(ToggledFavorite(saved, id), id) == saved
  {
    ToggleTwice(saved, id);
  }

  /** `getShotTypeColor`: the badge classes of the five shot scales, grey for any other. */
  function ShotTypeColor(shotType: string): (r: string)
    ensures shotType !in {"全景", "中景", "近景", "特写", "大远景"} ==> r == "bg-gray-100 text-gray-800"
    ensures shotType == "全景" ==> r == "bg-blue-100 text-blue-800"
    ensures shotType == "中景" ==> r == "bg-green-100 text-green-800"
    ensures shotType == "近景" ==> r == "bg-yellow-100 text-yellow-800"
    ensures shotType == "特写" ==> r == "bg-red-100 text-red-800"
    ensures shotType == "大远景" ==> r == "bg-purple-100 text-purple-800"
  {
    match shotType
    case "全景" => "bg-blue-100 text-blue-800"
    case "中景" => "bg-green-100 text-green-800"
    case "近景" => "bg-yellow-100 text-yellow-800"
    case "特写" => "bg-red-100 text-red-800"
    case "大远景" => "bg-purple-100 text-purple-800"
    case _ => "bg-gray-100 text-gray-800"
  }

  /** The five known scales have five distinct colours, none of them the grey default. */
  lemma ShotTypeColorsDistinct()
    ensures var known := ["全景", "中景", "近景", "特写", "大远景"];
      (forall i, j :: 0 <= i < j < 5 ==> ShotTypeColor(known[i]) != ShotTypeColor(known[j])) &&
      (forall i :: 0 <= i < 5 ==> ShotTypeColor(known[i]) != "bg-gray-100 text-gray-800")
  {
    var known := ["全景", "中景", "近景", "特写", "大远景"];
    assert ShotTypeColor(known[0]) == "bg-blue-100 text-blue-800";
    assert ShotTypeColor(known[1]) == "bg-green-100 text-green-800";
    assert ShotTypeColor(known[2]) == "bg-yellow-100 text-yellow-800";
    assert ShotTypeColor(known[3]) == "bg-red-100 text-red-800";
    assert ShotTypeColor(known[4]) == "bg-purple-100 text-purple-800";
  }

  /** The shot overview of a card: the first six shots, then a `+k` badge for the rest. */
  function ShotOverview(shots: seq<Shot>): (b: BadgeRow<Shot>)
    ensures |b.shown| <= 6 && |b.shown| <= |shots| && b.shown == shots[..|b.shown|]
    ensures b.more.Some? <==> |shots| > 6
    ensures b.more.Some? ==> b.more.value == |shots| - 6
  {
    Badges(shots, 6)
  }

  /** The body of `POST /api/storyboard/generate-video`. */
  datatype VideoRequest = VideoRequest(images: seq<string>, prompt: string)

  class Gallery {
    var saved: seq<SavedStoryboard>
    var searchTerm: string
    var selected: Option<SavedStoryboard>
    var generatedImages: map<string, seq<string>>
    var generatedVideos: map<string, string>
    /** The filter effect threw on a value that is not a list, so React took the page down and
      * no later event reaches it. */
    var down: bool
    const storage: StorageKey<SavedStoryboard>

    constructor (storage: StorageKey<SavedStoryboard>)
      ensures this.storage == storage && saved == [] && searchTerm == "" && selected == None
      ensures generatedImages == map[] && generatedVideos == map[] && !down
    {
      this.storage := storage;
      saved := [];
      searchTerm := "";
      selected := None;
      generatedImages := map[];
      generatedVideos := map[];
      down := false;
    }

    function Shown(): seq<SavedStoryboard>
      reads this
    {
      Filtered(saved, searchTerm)
    }

    /** `loadSavedStoryboards`: a stored list replaces the in-memory one; a missing, blank or
      * unparsable value leaves it as it was. A parsed value that is not a list is installed
      * too, and the filter effect's `savedStoryboards.filter` then throws: the page is down. */
    method Load()
      modifies this
      ensures old(down) ==> unchanged(this)
      ensures !old(down) ==> saved == ListAfterLoad(storage.value, old(saved))
      ensures !old(down) ==> (down <==> Loaded(storage.value).Foreign?)
      ensures searchTerm == old(searchTerm) && selected == old(selected)
      ensures generatedImages == old(generatedImages) && generatedVideos == old(generatedVideos)
    {
      if down {
        return;
      }
      match storage.value
      case Some(Entries(items)) => saved := items;
      case Some(Parsed(_)) => down := true;
      case _ =>
    }

    /** `deleteStoryboard`: after confirmation, removes the id, persists the list, and clears
      * the selection only if the selected storyboard had that id. */
    method Delete(id: string, confirmed: bool)
      modifies this, storage
      ensures old(down) ==> unchanged(this, storage)
      ensures !old(down) ==> saved == if confirmed then WithoutId(old(saved), id) else old(saved)
      ensures !old(down) ==> storage.value == if confirmed then Some(Entries(saved)) else old(storage.value)
      ensures !old(down) ==>
        selected == if confirmed && old(selected).Some? && old(selected).value.id == id then None else old(selected)
      ensures searchTerm == old(searchTerm) && down == old(down)
      ensures generatedImages == old(generatedImages) && generatedVideos == old(generatedVideos)
    {
      if confirmed && !down {
        saved := WithoutId(saved, id);
        storage.value := Some(Entries(saved));
        if selected.Some? && selected.value.id == id {
          selected := None;
        }
      }
    }

    /** `toggleFavorite`. */
    method ToggleFavorite(id: string)
      modifies this, storage
      ensures old(down) ==> unchanged(this, storage)
      ensures !old(down) ==> saved == ToggledFavorite(old(saved), id) && storage.value == Some(Entries(saved))
      ensures searchTerm == old(searchTerm) && selected == old(selected) && down == old(down)
      ensures generatedImages == old(generatedImages) && generatedVideos == old(generatedVideos)
    {
      if !down {
        saved := ToggledFavorite(saved, id);
        storage.value := Some(Entries(saved));
      }
    }

    /** `generateStoryboardImages`: refused below three shots; otherwise the first three shots
      * are sent, and a successful response (`urls`, `None` on failure) is recorded under the
      * storyboard's id. */
    method GenerateImages(b: SavedStoryboard, urls: Option<seq<string>>) returns (sent: Option<seq<Shot>>)
      modifies this
      ensures old(down) ==> sent.None? && unchanged(this)
      ensures !old(down) && |b.storyboard| < 3 ==> sent.None?
      ensures !old(down) && |b.storyboard| >= 3 ==> sent == Some(b.storyboard[..3])
      ensures generatedImages == if sent.Some? && urls.Some? then old(generatedImages)[b.id := urls.value]
                                 else old(generatedImages)
      ensures saved == old(saved) && selected == old(selected) && searchTerm == old(searchTerm)
      ensures generatedVideos == old(generatedVideos) && down == old(down)
    {
      if down || |b.storyboard| < 3 {
        return None;
      }
      sent := Some(b.storyboard[..3]);
      if urls.Some? {
        generatedImages := generatedImages[b.id := urls.value];
      }
    }

    /** `generateStoryboardVideo`: needs at least two generated images for this storyboard and
      * the user's confirmation; a successful response (`url`) is recorded under its id. */
    method GenerateVideo(b: SavedStoryboard, confirmed: bool, url: Option<string>) returns (sent: Option<VideoRequest>)
      modifies this
      ensures sent.Some? <==>
        !old(down) && b.id in old(generatedImages) && |old(generatedImages)[b.id]| >= 2 && confirmed
      ensures sent.Some? ==> b.id in generatedImages && sent.value.images == generatedImages[b.id]
      ensures sent.Some? ==> sent.value.prompt == b.style + "风格的分镜视频，展现" + b.title + "的故事内容"
      ensures generatedVideos == if sent.Some? && url.Some? then old(generatedVideos)[b.id := url.value]
                                 else old(generatedVideos)
      ensures saved == old(saved) && selected == old(selected) && searchTerm == old(searchTerm)
      ensures generatedImages == old(generatedImages) && down == old(down)
    {
      if down || b.id !in generatedImages || |generatedImages[b.id]| < 2 {
        return None;
      }
      if !confirmed {
        return None;
      }
      sent := Some(VideoRequest(generatedImages[b.id], b.style + "风格的分镜视频，展现" + b.title + "的故事内容"));
      if url.Some? {
        generatedVideos := generatedVideos[b.id := url.value];
      }
    }

    method Select(b: SavedStoryboard)
      modifies this
      ensures selected == (if old(down) then old(selected) else Some(b))
      ensures saved == old(saved) && searchTerm == old(searchTerm) && down == old(down)
      ensures generatedImages == old(generatedImages) && generatedVideos == old(generatedVideos)
    {
      if !down {
        selected := Some(b);
      }
    }
  }
}

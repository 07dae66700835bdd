/**
 * The records the frontend keeps in browser local storage, and the storage keys themselves.
 * A key is an object shared by every component that reads or writes it, so that one
 * component's write is what another component's next read sees.
 */
module Artifacts {
  import opened Wrappers
  import opened Json

  /** A parsed JSON value other than an array; an array of records is `Entries`. */
  type NonList = j: Json | !j.JArr? witness JNull

  /** What a key holds once read back with `JSON.parse`. */
  datatype Stored<T> =
    | Entries(items: seq<T>)   // a JSON array of records
    | Blank                    // the empty string, falsy for `if (saved)` and `getItem(k) || '[]'`
    | Unparsable               // text on which `JSON.parse` throws
    | Parsed(value: NonList)   // text that parses to a JSON value other than an array

  /** One `localStorage` key; `value == None` is a missing key (`getItem` returns null). */
  class StorageKey<T> {
    const name: string
    var value: Option<Stored<T>>

    constructor (name: string)
      ensures this.name == name && value == None
    {
      this.name := name;
      value := None;
    }
  }

  /** `JSON.parse(localStorage.getItem(key) || '[]')` as the list a save extends: a missing or
    * blank key reads as the empty list, and so does a stored empty text, which spreads and
    * slices to nothing; `None` when the parse throws or the parsed value cannot be spread or
    * sliced, and the caller's `try` block is abandoned. */
  function ReadOrEmpty<T>(v: Option<Stored<T>>): (r: Option<seq<T>>)
    ensures v.None? || v == Some(Blank) || v == Some(Parsed(JStr(""))) ==> r == Some([])
    ensures v.Some? && v.value.Entries? ==> r == Some(v.value.items)
    ensures r.None? <==> v == Some(Unparsable) || (v.Some? && v.value.Parsed? && v.value.value != JStr(""))
  {
    match v
    case None => Some([])
    case Some(Blank) => Some([])
    case Some(Entries(items)) => Some(items)
    case Some(Unparsable) => None
    case Some(Parsed(j)) => if j == JStr("") then Some([]) else None
  }

  /** What `if (saved) set(JSON.parse(saved))` inside a `try` puts in the page's state. */
  datatype Installed<T> =
    | Kept                     // a missing or blank key, or a parse that throws
    | List(items: seq<T>)      // a stored list
    | Foreign(value: Json)     // a parsed value that is not a list, installed all the same

  function Loaded<T>(v: Option<Stored<T>>): (r: Installed<T>)
    ensures r.List? <==> v.Some? && v.value.Entries?
    ensures r.Foreign? <==> v.Some? && v.value.Parsed?
    ensures r.Kept? <==> v.None? || v == Some(Blank) || v == Some(Unparsable)
    ensures r.List? ==> r.items == v.value.items
    ensures r.Foreign? ==> r.value == v.value.value
  {
    match v
    case Some(Entries(items)) => List(items)
    case Some(Parsed(j)) => Foreign(j)
    case _ => Kept
  }

  /** The list a load leaves in place of `current`. */
  function ListAfterLoad<T>(v: Option<Stored<T>>, current: seq<T>): seq<T>
  {
    match Loaded(v)
    case List(items) => items
    case _ => current
  }

  /** The non-list value a page holds after a load, in place of `current`. */
  function ForeignAfterLoad<T>(v: Option<Stored<T>>, current: Option<Json>): Option<Json>
  {
    match Loaded(v)
    case List(_) => None
    case Foreign(j) => Some(j)
    case Kept => current
  }

  /** A saved character (`savedCharacters`). */
  datatype SavedCharacter = SavedCharacter(
    id: string,
    name: string,
    kind: string,
    setting: string,
    data: Json,
    imageUrl: string,
    createdAt: string,
    isFavorite: bool)

  /** One storyboard shot as the generator returns it; `note` is optional. */
  datatype Shot = Shot(
    shotNumber: int,
    shotType: string,
    angle: string,
    movement: string,
    description: string,
    action: string,
    dialogue: string,
    duration: string,
    transition: string,
    lighting: string,
    colorTone: string,
    composition: string,
    mood: string,
    note: Option<string>)

  /** A saved storyboard (`savedStoryboards`). Entries written by the text-to-storyboard page
    * carry no favourite flag, hence the option. */
  datatype SavedStoryboard = SavedStoryboard(
    id: string,
    title: string,
    script: string,
    style: string,
    shots: int,
    storyboard: seq<Shot>,
    createdAt: string,
    isFavorite: Option<bool>)

  /** One search result as the search endpoint returns it. */
  datatype SearchResult = SearchResult(
    title: string,
    description: string,
    url: Option<string>,
    content: Option<string>,
    source: Option<string>)

  /** One search history entry (`searchHistory`). */
  datatype HistoryEntry = HistoryEntry(
    id: string,
    query: string,
    kind: string,
    results: seq<SearchResult>,
    createdAt: string)
}

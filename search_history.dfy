/** The search history page: the `searchHistory` list, its filter, delete, clear-all, the
  * reload on `searchHistoryUpdated`, and the export preview. */
module SearchHistory {
  import opened Wrappers
  import opened Text
  import opened Seqs
  import opened Artifacts
  import opened Json

  /** The query or the type contains the lower-cased term. The term is NOT trimmed here,
    * although blankness is decided on the trimmed term. */
  predicate Matches(e: HistoryEntry, term: string)
  {
    Contains(Lower(e.query), Lower(term)) || Contains(Lower(e.kind), Lower(term))
  }

  function Filtered(history: seq<HistoryEntry>, term: string): seq<HistoryEntry>
  {
    if IsBlank(term) then history else Filter(history, e => Matches(e, term))
  }

  /** A blank term shows the whole history; any other term shows exactly the matching
    * entries, in order. */
  lemma FilteredExact(history: seq<HistoryEntry>, term: string)
    ensures IsBlank(term) ==> Filtered(history, term) == history
    ensures !IsBlank(term) ==>
      (forall i :: 0 <= i < |Filtered(history, term)| ==> Matches(Filtered(history, term)[i], term)) &&
      (forall i :: 0 <= i < |history| && Matches(history[i], term) ==> history[i] in Filtered(history, term)) &&
      (forall x :: multiset(Filtered(history, term))[x] == if Matches(x, term) then multiset(history)[x] else 0)
    ensures IsSubsequence(Filtered(history, term), history)
  {
    if IsBlank(term) {
      FilterKeepsAll(history, (e: HistoryEntry) => true);
      FilterIsSubsequence(history, (e: HistoryEntry) => true);
    } else {
      FilterIsSubsequence(history, e => Matches(e, term));
      FilterMultiplicity(history, e => Matches(e, term));
    }
  }

  /** Because the match uses the untrimmed term, a leading space hides an entry whose query
    * would otherwise match. */
  lemma UntrimmedTermHidesMatch()
    ensures var e := HistoryEntry("1", "ab", "general", [], "");
      Filtered([e], "ab") == [e] && Filtered([e], " ab") == []
  {
    var e := HistoryEntry("1", "ab", "general", [], "");
    TermFacts();
    assert Filter([e], x => Matches(x, "ab")) == [e] + Filter([e][1..], x => Matches(x, "ab"));
    assert Filter([e], x => Matches(x, " ab")) == [] + Filter([e][1..], x => Matches(x, " ab"));
  }

  lemma TermFacts()
    ensures !IsBlank("ab") && !IsBlank(" ab")
    ensures Matches(HistoryEntry("1", "ab", "general", [], ""), "ab")
    ensures !Matches(HistoryEntry("1", "ab", "general", [], ""), " ab")
  {
    BlankFacts();
    HitFact();
    MissFact();
  }

  lemma HitFact()
    ensures Matches(HistoryEntry("1", "ab", "general", [], ""), "ab")
  {
    LowerFacts();
    assert StartsWith("ab", "ab");
  }

  lemma MissFact()
    ensures !Matches(HistoryEntry("1", "ab", "general", [], ""), " ab")
  {
    LowerFacts();
    MissFacts();
  }

  lemma BlankFacts()
    ensures !IsBlank("ab") && !IsBlank(" ab")
  {
    BlankIffAllSpace(" ab");
    assert !IsSpace(" ab"[1]);
    BlankIffAllSpace("ab");
    assert !IsSpace("ab"[0]);
  }

  lemma MissFacts()
    ensures !Contains("ab", " ab") && !Contains("general", " ab")
  {
    MissingFirstChar("ab", " ab");
    MissingFirstChar("general", " ab");
  }

  lemma LowerFacts()
    ensures Lower("ab") == "ab" && Lower(" ab") == " ab" && Lower("general") == "general"
  {
  }

  function EntryId(e: HistoryEntry): string { e.id }

  function WithoutId(history: seq<HistoryEntry>, id: string): seq<HistoryEntry>
  {
    RemoveKey(history, EntryId, id)
  }

  /** `getTypeLabel`: Chinese labels for the six search types, any other type as it is. */
  function TypeLabel(kind: string): (r: string)
    ensures kind !in {"general", "academic", "creative", "technical", "materials", "enhanced"} ==> r == kind
    ensures kind == "general" ==> r == "综合搜索"
    ensures kind == "academic" ==> r == "学术资料"
    ensures kind == "creative" ==> r == "创意灵感"
    ensures kind == "technical" ==> r == "技术文档"
    ensures kind == "materials" ==> r == "素材搜索"
    ensures kind == "enhanced" ==> r == "增强搜索"
  {
    match kind
    case "general" => "综合搜索"
    case "academic" => "学术资料"
    case "creative" => "创意灵感"
    case "technical" => "技术文档"
    case "materials" => "素材搜索"
    case "enhanced" => "增强搜索"
    case _ => kind
  }

  /** The export's result preview: numbered lines for at most the first three results, each
    * showing the title, or the description when the title is empty. */
  function ExportPreview(results: seq<SearchResult>): (lines: seq<string>)
    ensures |lines| <= 3 && |lines| <= |results|
    ensures |results| >= 3 ==> |lines| == 3
    ensures forall i :: 0 <= i < |lines| ==>
      lines[i] == NatToString(i + 1) + ". " + (if results[i].title != "" then results[i].title else results[i].description)
  {
    var shown := Take(results, 3);
    seq(|shown|, i requires 0 <= i < |shown| =>
      NatToString(i + 1) + ". " + (if shown[i].title != "" then shown[i].title else shown[i].description))
  }

  /** `x > 0` in JavaScript for a number or a boolean member. */
  predicate PositiveMember(x: Json)
  {
    (x.JNum? && x.n > 0) || x == JBool(true)
  }

  /** Whether the page throws while holding `j`, not a list, in place of its history: the
    * `searchHistory.length` of the buttons throws on `null`; with a blank term the effect shows
    * `j` itself, and `filteredHistory.map` throws on a non-empty text and on an object whose
    * `length` member is positive; with any other term the effect's `searchHistory.filter` throws. */
  predicate BreaksPage(j: Json, term: string)
  {
    j == JNull || (j.JStr? && j.s != "") ||
    (j.JObj? && "length" in j.fields && PositiveMember(j.fields["length"])) || !IsBlank(term)
  }

  class HistoryView {
    var history: seq<HistoryEntry>
    var searchTerm: string
    var selected: Option<HistoryEntry>
    /** Whether the `searchHistoryUpdated` listener is registered. */
    var listening: bool
    /** A parsed value, not a list, that a load installed in place of the history. */
    var foreign: Option<Json>
    /** The page threw while rendering or in an effect, so React took it down: the effect's
      * cleanup removed the listener and no later event reaches it. */
    var down: bool
    const storage: StorageKey<HistoryEntry>

    constructor (storage: StorageKey<HistoryEntry>)
      ensures this.storage == storage && history == [] && searchTerm == "" && selected == None
      ensures !listening && foreign == None && !down
    {
      this.storage := storage;
      history := [];
      searchTerm := "";
      selected := None;
      listening := false;
      foreign := None;
      down := false;
    }

    function Shown(): seq<HistoryEntry>
      reads this
    {
      Filtered(history, searchTerm)
    }

    /** `loadSearchHistory`: a stored list replaces the history; a missing, blank or unparsable
      * value leaves it as it was; a parsed value that is not a list is installed, and the page
      * goes down when it cannot show that value. */
    method Load()
      modifies this
      ensures old(down) ==> unchanged(this)
      ensures !old(down) ==> history == ListAfterLoad(storage.value, old(history))
      ensures !old(down) ==> foreign == ForeignAfterLoad(storage.value, old(foreign))
      ensures !old(down) ==> (down <==> Loaded(storage.value).Foreign? && BreaksPage(Loaded(storage.value).value, searchTerm))
      ensures !old(down) ==> listening == (old(listening) && !down)
      ensures searchTerm == old(searchTerm) && selected == old(selected)
    {
      if down {
        return;
      }
      match storage.value
      case Some(Entries(items)) =>
        history := items;
        foreign := None;
      case Some(Parsed(j)) =>
        foreign := Some(j);
        down := BreaksPage(j, searchTerm);
        listening := listening && !down;
      case _ =>
    }

    /** The mount effect: load, then register the update listener, which stays registered
      * unless the page went down. */
    method Mount()
      modifies this
      ensures old(down) ==> unchanged(this)
      ensures !old(down) ==> history == ListAfterLoad(storage.value, old(history))
      ensures !old(down) ==> foreign == ForeignAfterLoad(storage.value, old(foreign))
      ensures !old(down) ==> (down <==> Loaded(storage.value).Foreign? && BreaksPage(Loaded(storage.value).value, searchTerm))
      ensures !old(down) ==> listening == !down
      ensures searchTerm == old(searchTerm) && selected == old(selected)
    {
      if down {
        return;
      }
      Load();
      listening := !down;
    }

    /** The effect's cleanup removes the listener. */
    method Unmount()
      modifies this
      ensures !listening
      ensures history == old(history) && searchTerm == old(searchTerm) && selected == old(selected)
      ensures foreign == old(foreign) && down == old(down)
    {
      listening := false;
    }

    /** A `searchHistoryUpdated` event reloads while the listener is registered. */
    method OnHistoryUpdated()
      modifies this
      ensures !old(listening) || old(down) ==> unchanged(this)
      ensures old(listening) && !old(down) ==>
        history == ListAfterLoad(storage.value, old(history)) &&
        foreign == ForeignAfterLoad(storage.value, old(foreign)) &&
        (down <==> Loaded(storage.value).Foreign? && BreaksPage(Loaded(storage.value).value, searchTerm))
      ensures old(listening) && !old(down) ==> listening == !down
      ensures !old(listening) ==> !listening
      ensures searchTerm == old(searchTerm) && selected == old(selected)
    {
      if listening && !down {
        Load();
      }
    }

    /** `deleteEntry`: after confirmation, removes the id, persists the list and clears the
      * selection when it had that id. With a non-list value installed, `searchHistory.filter`
      * throws in the handler and nothing changes. */
    method Delete(id: string, confirmed: bool)
      modifies this, storage
      ensures old(down) || old(foreign).Some? ==> unchanged(this, storage)
      ensures !old(down) && old(foreign).None? ==>
        history == (if confirmed then WithoutId(old(history), id) else old(history)) &&
        storage.value == (if confirmed then Some(Entries(history)) else old(storage.value)) &&
        selected == (if confirmed && old(selected).Some? && old(selected).value.id == id then None else old(selected))
      ensures searchTerm == old(searchTerm) && listening == old(listening)
      ensures foreign == old(foreign) && down == old(down)
    {
      if confirmed && !down && foreign.None? {
        history := WithoutId(history, id);
        storage.value := Some(Entries(history));
        if selected.Some? && selected.value.id == id {
          selected := None;
        }
      }
    }

    /** `clearAllHistory`: after confirmation the history, the shown list and the selection
      * are empty, any installed non-list value is gone and the key is removed. */
    method ClearAll(confirmed: bool)
      modifies this, storage
      ensures old(down) || !confirmed ==> unchanged(this, storage)
      ensures !old(down) && confirmed ==>
        history == [] && Shown() == [] && selected == None && foreign == None && storage.value == None
      ensures searchTerm == old(searchTerm) && listening == old(listening) && down == old(down)
    {
      if confirmed && !down {
        history := [];
        selected := None;
        foreign := None;
        storage.value := None;
      }
    }

    method Select(e: HistoryEntry)
      modifies this
      ensures selected == (if old(down) then old(selected) else Some(e))
      ensures history == old(history) && searchTerm == old(searchTerm) && listening == old(listening)
      ensures foreign == old(foreign) && down == old(down)
    {
      if !down {
        selected := Some(e);
      }
    }

    /** A new term; with a non-list value installed, a non-blank term makes the filter effect
      * throw and the page goes down. */
    method SetSearchTerm(term: string)
      modifies this
      ensures searchTerm == (if old(down) then old(searchTerm) else term)
      ensures down == (old(down) || (old(foreign).Some? && !IsBlank(term)))
      ensures listening == (old(listening) && (old(down) || !down))
      ensures history == old(history) && selected == old(selected)
      ensures foreign == old(foreign)
    {
      if !down {
        searchTerm := term;
        down := foreign.Some? && !IsBlank(term);
        listening := listening && !down;
      }
    }
  }
}

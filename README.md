# Story Universe — a verified model of its sequential core

Story Universe is a creative-writing assistant. Its Next.js frontend offers novel, character,
storyboard and search tools. Its FastAPI backend forwards prompts to Zhipu's chat, search, image
and video models. Most of the system is form glue around remote calls. This project models the
parts that compute something by themselves and proves what they promise.

- **Browser-side artifact stores.** Saved characters and storyboards, the search history and the
  recent searches are classes. Each has a `seq` field mirroring its `localStorage` key, and methods
  for saving, prepending with a cap, de-duplicating, deleting, toggling favourites and clearing.
  One `localStorage` key is `Artifacts.StorageKey`. A missing key is `None`, the empty string is `Blank`,
  text on which `JSON.parse` throws is `Unparsable`, and text that parses to a value other than
  an array is `Parsed`. A page that loads such a value installs it in place of its list, just as
  the code does, and what happens next depends on the page: a gallery's filter effect throws and
  the page goes down (the `down` field), the history page goes down only when it must filter or
  show the value, and the recent-search list makes every later save fail.
- **Frontend rules.** Keyword lists, the appearance-feature rule of the character generator, file
  validation, video-URL classification and id extraction, the heat ordering of hot topics (an
  in-place insertion sort on an `array`), nav-link matching and responsive class builders.
- **Backend post-processing.** Code-fence stripping, the JSON shape rules (list, `storyboard`
  member, wrapping), parse-failure placeholders, long-text truncation, prompt building, and the
  minimum-count and first/last-frame rules of the image and video routes.
- **The Zhipu service.** Round-robin key switching, the retry loops with exponential backoff, the
  per-key retry schedule of image generation, bounded video polling, server-sent-event parsing
  and the MIME tables.
- **The two test scripts.** Result recording, counting, success rates and recommendations.

## Modelling conventions

- JSON parsing (`JSON.parse`, `json.loads`) is a parameter of type `string -> Option<Json>`. The
  model proves its rules for every parser.
- Network responses, confirmations, clock values and HTTP exchanges are inputs. A retried exchange
  is a function from the attempt or poll number to `Received(body)`, `Status(code, detail)` or
  `Broken(message)`.
- Waits are not performed. The model records the number of seconds each sleep would take.
- Python truthiness, `dict.get` with a default, JavaScript `||` and `?.`, and floor division are
  written out explicitly (`Json.PyTruthy`, `Json.FieldOr`, `Replies.TextOrDefault`, `Text.Percent`).
- Lower-casing and whitespace stripping are ASCII-only.
- Each imperative operation is a method proved equal to a reference function. The properties are
  lemmas about that function.

## Model

| member | source | states |
|---|---|---|
| Artifacts.ReadOrEmpty | frontend/app/storyboard/components/TextToStoryboard.tsx:130 | a missing or blank key, or a stored empty text, reads as the empty list, a stored list as itself; text that does not parse, or parses to anything else, abandons the operation |
| Artifacts.Loaded | frontend/app/character/components/CharacterGallery.tsx:43-53 | a load installs a list exactly when the key holds one and a foreign value exactly when the key parses to a non-list; a missing, blank or unparsable key leaves the state alone |
| Keywords.AddedExact | frontend/app/novel/components/OutlineGenerator.tsx:69-74 | adding appends the trimmed input exactly when it is non-blank and not yet listed, keeps earlier keywords in place, and keeps the list free of blanks and duplicates |
| Keywords.RemovedExact | frontend/app/novel/components/OutlineGenerator.tsx:76-78 | removing drops exactly the given keyword, keeps the others in order, and keeps the list well formed |
| Keywords.AddThenRemove | frontend/app/novel/components/OutlineGenerator.tsx:69-78 | removing a keyword that was just added restores the list |
| Fences.StripCodeFence | backend/api/routes/storyboard.py:89-97 | the five reassignments compute the fence-stripped text |
| Fences.StrippedIsTrimmed | backend/api/routes/storyboard.py:89-97 | the stripped text has no surrounding white space and is never longer than the input |
| Fences.TrimAroundNewlines | backend/api/routes/storyboard.py:90 | `strip()` removes the newlines a fence puts around trimmed text |
| Fences.JsonFenceRoundTrip | backend/api/routes/storyboard.py:89-97 | trimmed text wrapped in a "```json" fence comes back exactly |
| Fences.PlainFenceRoundTrip | backend/api/routes/storyboard.py:89-97 | trimmed text wrapped in a bare "```" fence comes back exactly |
| Fences.UnfencedIsTrimmed | backend/api/routes/storyboard.py:89-97 | text with no fence at either end is only trimmed |
| Fences.StripIdempotentOnUnfenced | backend/api/routes/storyboard.py:89-97 | stripping again changes nothing once no fence is left at either end |
| Json.AsList | backend/api/routes/search.py:183-185 | a parsed list is kept and any other value becomes a one-element list |
| Json.StoryboardShape | backend/api/routes/storyboard.py:107-113 | a list is kept, an object holding "storyboard" gives that member, anything else is wrapped in a list |
| Json.StoryboardShapeIsList | backend/api/routes/storyboard.py:107-113 | the shaped value is a list unless it came from an object whose "storyboard" member is not a list |
| Replies.MessageOf | backend/api/routes/character.py:122 | a reply without "choices" reads as an empty message; a reply whose first choice or message is not a dict fails |
| Replies.ModelText | backend/api/routes/character.py:123 | the model text is `content` when truthy, otherwise `reasoning_content` (or "") |
| Replies.ResponseText | backend/api/routes/character.py:122-126 | the text is present exactly when the message could be read and its model text is a string, and is that string |
| Replies.ContentWithReasoningFallback | backend/api/routes/novel.py:207-208 | an empty or null `content` falls back to `reasoning_content`; a reply without choices gives "" |
| Replies.StrictContent | backend/api/routes/storyboard.py:87 | strict indexing yields a value only when "choices", its first element, "message" and "content" are all present |
| Replies.StrictAgreesWithLenient | backend/api/routes/character.py:122-123 | on a well-formed reply with non-empty content the strict and the lenient chains read the same text |
| Replies.TextOrDefault | backend/api/routes/search.py:126 | Python's `x or default` on an optional request string: the string when non-empty, else the default |
| CharacterGallery.FilteredExact | frontend/app/character/components/CharacterGallery.tsx:33-41 | the filter keeps exactly the characters whose name, type or setting contains the term case-insensitively, each as often as it occurs in the saved list, in their original order; the empty term keeps all |
| CharacterGallery.EmptyTermKeepsAll | frontend/app/character/components/CharacterGallery.tsx:33-41 | the empty term, contained in every text, keeps the whole saved list |
| CharacterGallery.ToggledFavorite | frontend/app/character/components/CharacterGallery.tsx:88-91 | toggling flips the flag of the entries with that id and leaves every other entry and the order unchanged |
| CharacterGallery.ToggleTwiceRestores | frontend/app/character/components/CharacterGallery.tsx:88-94 | toggling the same id twice restores the list |
| CharacterGallery.NewCharacter | frontend/app/character/components/CharacterGallery.tsx:55-66 | the new record takes the given id, data and time, is not a favourite, copies a non-empty string `basic_info.name`, `type` and `setting` and the image URL, falls back to "未命名角色", "未知类型", "未知背景" and "" for falsy fields, and is not built for `null` data, where reading `basic_info` throws |
| CharacterGallery.SaveKeepsFavoriteCount | frontend/app/character/components/CharacterGallery.tsx:274 | saving a new, unfavoured character leaves the favourite count unchanged |
| CharacterGallery.Gallery.constructor | frontend/app/character/components/CharacterGallery.tsx:23-25 | the gallery starts up, with no characters and an empty search term |
| CharacterGallery.Gallery.Load | frontend/app/character/components/CharacterGallery.tsx:43-53 | a stored list replaces the in-memory one; a missing, blank or unparsable key leaves it as it was; a parsed non-list takes the gallery down, after which nothing changes any more |
| CharacterGallery.Gallery.Save | frontend/app/character/components/CharacterGallery.tsx:55-78 | while the gallery is up, a save appends exactly the new record and writes the whole list back; nothing changes when building the record throws or the gallery is down |
| CharacterGallery.Gallery.Delete | frontend/app/character/components/CharacterGallery.tsx:80-86 | while the gallery is up, a confirmed delete removes the entries with that id and writes the list back; an unconfirmed one changes nothing |
| CharacterGallery.Gallery.ToggleFavorite | frontend/app/character/components/CharacterGallery.tsx:88-94 | while the gallery is up, the in-memory and the stored list both become the toggled list |
| CharacterGallery.Gallery.SetSearchTerm | frontend/app/character/components/CharacterGallery.tsx:25 | while the gallery is up, typing changes the search term and nothing else |
| StoryboardGallery.FilteredExact | frontend/app/storyboard/components/StoryboardGallery.tsx:37-45 | the filter keeps exactly the storyboards whose title, script or style contains the term case-insensitively, each as often as it occurs in the saved list, in order; the empty term keeps all |
| StoryboardGallery.EmptyTermKeepsAll | frontend/app/storyboard/components/StoryboardGallery.tsx:37-45 | the empty term, contained in every text, keeps the whole saved list |
| StoryboardGallery.Flipped | frontend/app/storyboard/components/StoryboardGallery.tsx:72 | the flipped entry is a favourite exactly when the original was not, now carries an explicit flag, and is otherwise unchanged |
| StoryboardGallery.ToggledFavorite | frontend/app/storyboard/components/StoryboardGallery.tsx:70-73 | toggling flips the entries with that id and leaves every other entry and the order unchanged |
| StoryboardGallery.ToggleTwice | frontend/app/storyboard/components/StoryboardGallery.tsx:70-76 | toggling twice restores every flagged entry and keeps every entry's favourite status; an entry saved without a flag comes back with `false` |
| StoryboardGallery.ToggleTwiceRestoresFlagged | frontend/app/storyboard/components/StoryboardGallery.tsx:70-76 | when every entry with that id has a flag, toggling twice is the identity |
| StoryboardGallery.ShotTypeColor | frontend/app/storyboard/components/StoryboardGallery.tsx:217-226 | 全景, 中景, 近景, 特写 and 大远景 get the blue, green, yellow, red and purple badge classes and any other scale the grey default |
| StoryboardGallery.ShotTypeColorsDistinct | frontend/app/storyboard/components/StoryboardGallery.tsx:218-224 | the five known scales have five distinct colours, none of them the default |
| StoryboardGallery.ShotOverview | frontend/app/storyboard/components/StoryboardGallery.tsx:288-300 | a card shows at most the first six shots, in order, and a `+k` badge exactly when there are more, with k the number hidden |
| StoryboardGallery.Gallery.constructor | frontend/app/storyboard/components/StoryboardGallery.tsx:25-30 | the gallery starts up and empty, with nothing selected and no generated media |
| StoryboardGallery.Gallery.Load | frontend/app/storyboard/components/StoryboardGallery.tsx:47-57 | a stored list replaces the in-memory one; a missing, blank or unparsable key leaves it as it was; a parsed non-list takes the gallery down; nothing else changes |
| StoryboardGallery.Gallery.Delete | frontend/app/storyboard/components/StoryboardGallery.tsx:59-68 | while the gallery is up, a confirmed delete removes that id, writes the list back and clears the selection only when the selected storyboard had that id |
| StoryboardGallery.Gallery.ToggleFavorite | frontend/app/storyboard/components/StoryboardGallery.tsx:70-76 | while the gallery is up, the in-memory and the stored list both become the toggled list |
| StoryboardGallery.Gallery.GenerateImages | frontend/app/storyboard/components/StoryboardGallery.tsx:94-120 | fewer than three shots, or a gallery that is down, are refused; otherwise exactly the first three are sent and a successful answer is recorded under the storyboard's id |
| StoryboardGallery.Gallery.GenerateVideo | frontend/app/storyboard/components/StoryboardGallery.tsx:122-158 | a request is sent exactly when the gallery is up, at least two images were generated for this storyboard and the user confirms; it carries those images and the style-and-title prompt |
| StoryboardGallery.Gallery.Select | frontend/app/storyboard/components/StoryboardGallery.tsx:235 | while the gallery is up, clicking a card selects it and changes nothing else |
| TextToStoryboard.AngleIcon | frontend/app/storyboard/components/TextToStoryboard.tsx:161-169 | the four camera angles get their arrows and every other angle, and only those, the bullet |
| TextToStoryboard.ShotBlockLayout | frontend/app/storyboard/components/TextToStoryboard.tsx:92-114 | a shot's block starts with its number and scale and ends with the note line exactly when the note is truthy, else with the mood line and an empty line |
| TextToStoryboard.DownloadTextSnoc | frontend/app/storyboard/components/TextToStoryboard.tsx:92-115 | one more shot appends its block after a blank line |
| TextToStoryboard.DownloadTextSingle | frontend/app/storyboard/components/TextToStoryboard.tsx:92-115 | one shot downloads as its block alone and no shots give an empty text |
| TextToStoryboard.SliderValue | frontend/app/storyboard/components/TextToStoryboard.tsx:209-214 | the shot count is always within 3..15 and a value in range is kept |
| TextToStoryboard.Generator.constructor | frontend/app/storyboard/components/TextToStoryboard.tsx:31-38 | the form starts with an empty script, the cinematic style, six shots and no storyboard |
| TextToStoryboard.Generator.SetShots | frontend/app/storyboard/components/TextToStoryboard.tsx:213 | moving the slider sets the in-range shot count and changes nothing else |
| TextToStoryboard.Generator.Generate | frontend/app/storyboard/components/TextToStoryboard.tsx:58-84 | a blank script sends nothing; otherwise the form is sent with an empty scene description left out, and only a successful reply replaces the shots (`[]` when it carries none) |
| TextToStoryboard.Generator.NewEntry | frontend/app/storyboard/components/TextToStoryboard.tsx:131-139 | the saved entry copies the form and the shots and carries no favourite flag |
| TextToStoryboard.Generator.SaveToGallery | frontend/app/storyboard/components/TextToStoryboard.tsx:128-146 | the stored list (empty when missing) gets exactly the new entry at the end; an unreadable stored value is left untouched |
| SearchHistory.FilteredExact | frontend/app/search/components/SearchHistory.tsx:40-50 | a blank term shows the whole history; any other term shows exactly the entries whose query or type contains it case-insensitively, each as often as it occurs in the history, in order |
| SearchHistory.UntrimmedTermHidesMatch | frontend/app/search/components/SearchHistory.tsx:41-44 | blankness is decided on the trimmed term but matching uses the untrimmed one, so " ab" hides an entry that "ab" shows |
| SearchHistory.TypeLabel | frontend/app/search/components/SearchHistory.tsx:142-152 | general, academic, creative, technical, materials and enhanced read 综合搜索, 学术资料, 创意灵感, 技术文档, 素材搜索 and 增强搜索; any other type is shown as it is |
| SearchHistory.ExportPreview | frontend/app/search/components/SearchHistory.tsx:115 | the export preview numbers at most the first three results, each showing its title or, when that is empty, its description |
| SearchHistory.HistoryView.constructor | frontend/app/search/components/SearchHistory.tsx:19-23 | the page starts up, with no history, an empty term, nothing selected, no foreign value and no listener |
| SearchHistory.HistoryView.Load | frontend/app/search/components/SearchHistory.tsx:52-62 | a stored list replaces the in-memory one; a parsed non-list is installed and takes the page down exactly when it is null, a non-empty text, an object with a positive `length` member, or the term is non-blank; a missing, blank or unparsable key leaves it |
| SearchHistory.HistoryView.Mount | frontend/app/search/components/SearchHistory.tsx:25-33 | mounting loads the history and registers the update listener, which stays registered exactly when the page stays up |
| SearchHistory.HistoryView.Unmount | frontend/app/search/components/SearchHistory.tsx:35-37 | the cleanup removes the listener and changes nothing else |
| SearchHistory.HistoryView.OnHistoryUpdated | frontend/app/search/components/SearchHistory.tsx:29-31 | an update event reloads the history exactly while the listener is registered and the page is up |
| SearchHistory.HistoryView.Delete | frontend/app/search/components/SearchHistory.tsx:64-73 | with the page up and a list installed, a confirmed delete removes that id, writes the list back and clears the selection only when it had that id; with a non-list installed nothing changes |
| SearchHistory.HistoryView.ClearAll | frontend/app/search/components/SearchHistory.tsx:75-82 | with the page up, after confirmation the history, the shown list, the selection and any foreign value are gone and the key is removed; otherwise nothing changes |
| SearchHistory.HistoryView.Select | frontend/app/search/components/SearchHistory.tsx:223 | while the page is up, clicking an entry selects it and changes nothing else |
| SearchHistory.HistoryView.SetSearchTerm | frontend/app/search/components/SearchHistory.tsx:176 | while the page is up, typing changes the term; with a non-list installed a non-blank term takes the page down |
| BackgroundSearch.Prepended | frontend/app/search/components/BackgroundSearch.tsx:81 | the new entry leads, followed by at most 49 earlier entries, so the history never exceeds 50 |
| BackgroundSearch.PrependedKeepsOrder | frontend/app/search/components/BackgroundSearch.tsx:81 | the earlier entries keep their order behind the new one; a history under 50 loses nothing and a longer one loses only its oldest entries |
| BackgroundSearch.RequestFor | frontend/app/search/components/BackgroundSearch.tsx:36-49 | a blank query sends nothing; otherwise the trimmed query, the trimmed context (left out when blank), the type and a limit of 15 are sent |
| BackgroundSearch.Searcher.constructor | frontend/app/search/components/BackgroundSearch.tsx:21-27 | the form starts empty with the general type |
| BackgroundSearch.Searcher.SaveToHistory | frontend/app/search/components/BackgroundSearch.tsx:70-89 | the stored history (empty when missing) becomes the new entry followed by the first 49 earlier ones and the update is announced; an unreadable value is left alone and nothing is announced |
| BackgroundSearch.Searcher.PerformSearch | frontend/app/search/components/BackgroundSearch.tsx:36-68 | the request is the guarded one; only a successful reply replaces the results, topics and summary (with empty fallbacks) and is saved under the untrimmed query |
| BackgroundSearch.Searcher.ClearSearch | frontend/app/search/components/BackgroundSearch.tsx:105-111 | clearing empties the query, context, results, topics and summary and keeps the type |
| BackgroundSearch.SearchAndNotify | frontend/app/search/components/BackgroundSearch.tsx:85 | after an announced save, a history page that is up and listening on the same key shows exactly the stored list |
| GlobalSearchSidebar.RecentAfterShape | frontend/components/GlobalSearchSidebar.tsx:50-58 | the saved query leads and occurs once, the list holds at most ten entries, and the rest are the earlier entries without the query, in order, cut to nine |
| GlobalSearchSidebar.RecentAfterNoDuplicates | frontend/components/GlobalSearchSidebar.tsx:52 | a duplicate-free recent list stays duplicate-free |
| GlobalSearchSidebar.RecentAfterIdempotent | frontend/components/GlobalSearchSidebar.tsx:52 | saving the same query twice in a row gives the list that saving it once gives |
| GlobalSearchSidebar.OrText | frontend/components/GlobalSearchSidebar.tsx:110-112 | JavaScript `a \|\| b` on an optional string: a missing or empty first operand yields the second |
| GlobalSearchSidebar.QuickResultOf | frontend/components/GlobalSearchSidebar.tsx:109-114 | a quick result takes the title, else the text of the description before its first '.' when that is non-empty, else "搜索结果"; the description falls back to the content and "暂无描述"; the content to the description and "" |
| GlobalSearchSidebar.TitleIsFirstSentence | frontend/components/GlobalSearchSidebar.tsx:109-110 | without a title, a description `sentence + "." + rest` whose sentence is non-empty and holds no '.' gives that sentence as the title |
| GlobalSearchSidebar.RequestFor | frontend/components/GlobalSearchSidebar.tsx:60-75 | a blank query sends nothing; otherwise the trimmed query, the type and a limit of 10 |
| GlobalSearchSidebar.ShownRecentMeansBlankQuery | frontend/components/GlobalSearchSidebar.tsx:241 | the recent list is shown only while the box is empty, so a search with the box's value then sends nothing |
| GlobalSearchSidebar.Sidebar.constructor | frontend/components/GlobalSearchSidebar.tsx:27-32 | the sheet starts with an empty box, the general type, no results, no recent searches and no foreign value |
| GlobalSearchSidebar.Sidebar.Load | frontend/components/GlobalSearchSidebar.tsx:39-48 | a stored list replaces the recent searches; a parsed non-list is installed in their place; a missing, blank or unparsable key leaves them |
| GlobalSearchSidebar.Sidebar.SaveRecent | frontend/components/GlobalSearchSidebar.tsx:50-58 | with a list installed, the recent list and the key both become the most-recent-first, de-duplicated list of at most ten; with a non-list installed nothing is saved |
| GlobalSearchSidebar.Sidebar.Search | frontend/components/GlobalSearchSidebar.tsx:60-90 | a blank query sends nothing; a successful reply sets the results and, with a list installed, records the trimmed query; anything else changes nothing |
| GlobalSearchSidebar.Sidebar.ClickRecentAsWritten | frontend/components/GlobalSearchSidebar.tsx:250-253 | clicking a recent search fills the box but sends nothing, because the search reads the box's previous, empty value |
| GlobalSearchSidebar.Sidebar.ClickRecent | frontend/components/GlobalSearchSidebar.tsx:245-253 | the intended click searches for the clicked query and, on success with a list installed, puts it first in the recent list |
| OutlineGenerator.SectionsOf | frontend/app/novel/components/OutlineGenerator.tsx:130-136 | each of the seven sections is its English member when truthy, else its Chinese member |
| OutlineGenerator.RenderOutlinePrefersEnglish | frontend/app/novel/components/OutlineGenerator.tsx:120-136 | a truthy `raw_content` is shown as it is; otherwise every section takes its English member when truthy and its Chinese member otherwise |
| OutlineGenerator.RequestFor | frontend/app/novel/components/OutlineGenerator.tsx:87-102 | a request is sent exactly when genre and style are set and at least one keyword was added, and carries those fields |
| OutlineGenerator.OutlineOf | frontend/app/novel/components/OutlineGenerator.tsx:105 | the stored outline is the response's truthy `outline`, else a raw record of the printed response, which is then shown raw |
| OutlineGenerator.Form.constructor | frontend/app/novel/components/OutlineGenerator.tsx:33-39 | the form starts empty with the medium length, no outline and no materials |
| OutlineGenerator.Form.AddKeyword | frontend/app/novel/components/OutlineGenerator.tsx:69-74 | the keyword list becomes the added list and the input box is cleared only when its keyword was taken |
| OutlineGenerator.Form.RemoveKeyword | frontend/app/novel/components/OutlineGenerator.tsx:76-78 | the keyword list loses exactly that keyword and nothing else changes |
| OutlineGenerator.Form.KeyPress | frontend/app/novel/components/OutlineGenerator.tsx:80-85 | Enter adds the keyword and every other key does nothing |
| OutlineGenerator.Form.Generate | frontend/app/novel/components/OutlineGenerator.tsx:87-118 | the guarded request is sent; only a successful reply sets the outline and the background materials (`[]` when falsy) |
| OutlineGenerator.KeywordEditsKeepWellFormed | frontend/app/novel/components/OutlineGenerator.tsx:69-85 | any add, remove and key press keep the keyword list free of blanks and duplicates |
| Text.Optional | frontend/app/search/components/InspirationRecommendations.tsx:62-64 | an empty field is sent as undefined and any other value as itself (the same rule as the character form's optional fields) |
| Inspiration.RequestFor | frontend/app/search/components/InspirationRecommendations.tsx:61-66 | each empty field and an empty keyword list is left undefined, and every non-empty value is sent unchanged |
| Inspiration.CopyTextLayout | frontend/app/search/components/InspirationRecommendations.tsx:86-103 | trimming the template removes only its opening line break and the trailing white space: the copied text starts with the title line and keeps every section up to the technique header |
| Inspiration.CardOf | frontend/app/search/components/InspirationRecommendations.tsx:240-284 | the card shows at most three scenarios and applications and at most two resources and techniques, each a prefix of the full list and the whole list when it is short enough |
| Inspiration.Form.constructor | frontend/app/search/components/InspirationRecommendations.tsx:21-26 | the form starts with empty selections, keywords, input box and results |
| Inspiration.Form.AddKeyword | frontend/app/search/components/InspirationRecommendations.tsx:47-52 | the trimmed keyword is appended exactly when it is non-blank and new, and only then is the input box cleared |
| Inspiration.Form.RemoveKeyword | frontend/app/search/components/InspirationRecommendations.tsx:54-56 | every copy of the keyword is removed and nothing else changes |
| Inspiration.Form.Fetch | frontend/app/search/components/InspirationRecommendations.tsx:58-79 | the request shaped from the form is sent; only a successful reply replaces the list (`[]` when it has none) |
| Inspiration.Form.ClearForm | frontend/app/search/components/InspirationRecommendations.tsx:108-114 | the selections, keywords and results are reset while the keyword input box keeps its text |
| CharacterGenerator.RequestFor | frontend/app/character/components/CharacterGenerator.tsx:126-142 | no request without a type or a setting; otherwise type and setting are sent as typed and every other field only when filled in |
| CharacterGenerator.AppearanceValues | frontend/app/character/components/CharacterGenerator.tsx:174-180 | the six appearance members are read in their fixed order |
| CharacterGenerator.FeaturesUsable | frontend/app/character/components/CharacterGenerator.tsx:174-181 | at most six features are kept and none is blank or the placeholder '未设置' |
| CharacterGenerator.FeaturesKeepUsable | frontend/app/character/components/CharacterGenerator.tsx:181 | every usable appearance member is among the kept features |
| CharacterGenerator.FeaturesInKeyOrder | frontend/app/character/components/CharacterGenerator.tsx:174-181 | the kept members are a subsequence of the members in key order |
| CharacterGenerator.ImageRequestFor | frontend/app/character/components/CharacterGenerator.tsx:159-199 | refused without a character, without an appearance, or with fewer than three features; otherwise the request joins the features with ", " under the chosen style |
| CharacterGenerator.CharacterName | frontend/app/character/components/CharacterGenerator.tsx:165 | the generated name, else the typed name, else '未命名角色' |
| CharacterGenerator.Enriched | frontend/app/character/components/CharacterGenerator.tsx:243-247 | the form's type and setting override the data's own and every other member is kept |
| CharacterGenerator.SavedEntryUsesForm | frontend/app/character/components/CharacterGenerator.tsx:240-250 | the gallery entry made from the enriched data shows the form's type and setting, or the gallery's defaults when empty, with the current portrait |
| CharacterGenerator.Generator.constructor | frontend/app/character/components/CharacterGenerator.tsx:70-82 | every form field starts empty, with no character, materials or portrait |
| CharacterGenerator.Generator.InputChange | frontend/app/character/components/CharacterGenerator.tsx:119-124 | only the named field takes the new value |
| CharacterGenerator.Generator.Generate | frontend/app/character/components/CharacterGenerator.tsx:126-157 | the guarded request is sent; only a successful reply replaces the character and materials and clears the portrait |
| CharacterGenerator.Generator.GeneratePortrait | frontend/app/character/components/CharacterGenerator.tsx:159-219 | the portrait changes only when a request was made and the reply succeeded with a non-empty image URL |
| CharacterGenerator.Generator.SaveToGallery | frontend/app/character/components/CharacterGenerator.tsx:240-255 | with a character and a mounted gallery that is up, exactly one entry made from the enriched data is saved; otherwise the gallery is unchanged |
| HotTopics.Rank | frontend/app/search/components/HotTopics.tsx:78-81 | '高', '中' and '低' rank 0, 1 and 2 and any other heat -1 |
| HotTopics.SortedGroupsHeats | frontend/app/search/components/HotTopics.tsx:138-139 | in heat order every unknown heat comes before every known one and every '高' before every '低' |
| HotTopics.SortByHeat | frontend/app/search/components/HotTopics.tsx:138-139 | the topics array ends in non-decreasing heat rank and holds the same topics |
| HotTopics.Insert | frontend/app/search/components/HotTopics.tsx:138-139 | one insertion step extends the ordered prefix by one element and keeps the same topics |
| HotTopics.Swap | frontend/app/search/components/HotTopics.tsx:138-139 | two neighbours are exchanged and every other element stays |
| HotTopics.HeatColor | frontend/app/search/components/HotTopics.tsx:41-45 | an unknown heat takes the colour of '中' and only '中' and unknown heats do |
| HotTopics.TrendIcon | frontend/app/search/components/HotTopics.tsx:33-39 | 上升, 下降, 稳定, 热门 and 新兴 show 📈, 📉, ➡️, 🔥 and ✨, and exactly the unknown trends show '•' |
| HotTopics.KeywordBadges | frontend/app/search/components/HotTopics.tsx:159-174 | at most the first five keywords are shown, with a "+k" badge for exactly the k further ones |
| HotTopics.RequestFor | frontend/app/search/components/HotTopics.tsx:50-53 | twenty topics are asked for, and the category is left undefined exactly when it is 'all' |
| HotTopics.View.constructor | frontend/app/search/components/HotTopics.tsx:20-23 | the view starts on 'social' with no topics and no update time |
| HotTopics.View.Fetch | frontend/app/search/components/HotTopics.tsx:47-67 | the request for the current category is sent; only a successful reply replaces the topics (`[]` when none) and stamps the update time |
| HotTopics.View.Render | frontend/app/search/components/HotTopics.tsx:137-140 | rendering sorts the state array itself: the stored topics end in heat order as the same elements |
| VideoAnalyzer.IsVideoUrl | frontend/app/storyboard/components/VideoAnalyzer.tsx:149-164 | a URL is a video exactly when its lower-cased text contains one of the five extensions or one of the four host names |
| VideoAnalyzer.AlnumRun | frontend/app/storyboard/components/VideoAnalyzer.tsx:192 | the longest prefix of ASCII letters and digits: all its characters are alphanumeric and the next one is not |
| VideoAnalyzer.BvidAt | frontend/app/storyboard/components/VideoAnalyzer.tsx:192 | the leftmost place at or after the start where "BV" and a letter or digit begin, and none when there is no such place |
| VideoAnalyzer.Bvid | frontend/app/storyboard/components/VideoAnalyzer.tsx:192-193 | the match is absent exactly when no "BV" followed by a letter or digit occurs; otherwise it starts at the leftmost such place and runs to the end of the alphanumeric run |
| VideoAnalyzer.IdAfter | frontend/app/storyboard/components/VideoAnalyzer.tsx:169-181 | no id without the separator; otherwise the id is the text after the first separator up to the next separator, the next stop character or the end, whichever comes first |
| VideoAnalyzer.IdAfterAt | frontend/app/storyboard/components/VideoAnalyzer.tsx:168-169 | in `pre + sep + id + stop + tail`, with the separator's first character in neither `pre` nor `id` and no stop in `id`, the id read is `id` |
| VideoAnalyzer.PlayerFor | frontend/app/storyboard/components/VideoAnalyzer.tsx:166-204 | YouTube, Vimeo and Bilibili are tried in that order, case-sensitively, each needing a non-empty id; every other URL, and a platform URL without an id, gets the native player on the URL itself |
| VideoAnalyzer.ShortLinkPlayer | frontend/app/storyboard/components/VideoAnalyzer.tsx:166-170 | `youtu.be/<id>?<tail>` with a non-empty id holding no '?' (and no 'y') plays YouTube video `<id>` |
| VideoAnalyzer.VimeoLinkPlayer | frontend/app/storyboard/components/VideoAnalyzer.tsx:179-181 | `vimeo.com/<id>?<tail>` with a non-empty id holding no '?' (and no 'v' or 'y', nor a 'y' in the tail) plays Vimeo video `<id>` |
| VideoAnalyzer.HostIsVideoUrl | frontend/app/storyboard/components/VideoAnalyzer.tsx:149-166 | a host name found in the URL as written is also found in the lower-cased URL |
| VideoAnalyzer.EmbeddedIsVideoUrl | frontend/app/storyboard/components/VideoAnalyzer.tsx:149-202 | every URL that gets a platform player is also classified as a video URL |
| VideoAnalyzer.AnalysisRequestFor | frontend/app/storyboard/components/VideoAnalyzer.tsx:85-99 | the uploaded file's URL, else the trimmed input, with no request when both are empty; the description is sent trimmed and only when not blank |
| VideoAnalyzer.Analyzer.constructor | frontend/app/storyboard/components/VideoAnalyzer.tsx:14-18 | nothing uploaded, an empty input box, focus 'storyboard', no description and no analysis |
| VideoAnalyzer.Analyzer.FileUploaded | frontend/app/storyboard/components/VideoAnalyzer.tsx:68-73 | the upload becomes the source, its URL fills the input box and the previous analysis is cleared |
| VideoAnalyzer.Analyzer.SubmitUrl | frontend/app/storyboard/components/VideoAnalyzer.tsx:75-83 | only a non-blank input becomes the source, named '外部视频', and clears the analysis; a blank one changes nothing |
| VideoAnalyzer.Analyzer.Analyze | frontend/app/storyboard/components/VideoAnalyzer.tsx:85-112 | the guarded request is sent and only a successful reply sets the analysis |
| VideoAnalyzer.Analyzer.Reset | frontend/app/storyboard/components/VideoAnalyzer.tsx:142-147 | the source, input, analysis and description are cleared and the focus is kept |
| FileUpload.AcceptEntries | frontend/components/ui/file-upload.tsx:65 | one entry per comma-separated piece of the prop, each trimmed |
| FileUpload.Validate | frontend/components/ui/file-upload.tsx:56-81 | too large exactly when the size exceeds the limit in MiB; otherwise the wrong type exactly when a non-empty `accept` has no matching entry; each with its message |
| FileUpload.SizeLimitBoundary | frontend/components/ui/file-upload.tsx:58 | a file of exactly the limit passes and one byte more is refused |
| FileUpload.SingleEntry | frontend/components/ui/file-upload.tsx:65 | the prop " .mp4" gives the single entry ".mp4" |
| FileUpload.LowerName | frontend/components/ui/file-upload.tsx:68 | lower-casing turns "A.MP4" into "a.mp4" |
| FileUpload.ExtensionMatchIgnoresCase | frontend/components/ui/file-upload.tsx:64-71 | an extension entry matches whatever the case of the name, and spaces around entries do not matter |
| FileUpload.DefaultAccept | frontend/components/ui/file-upload.tsx:32-41 | images and videos have fixed patterns; otherwise the prop when non-empty, else '*/*' |
| FileUpload.Widget.constructor | frontend/components/ui/file-upload.tsx:16-29 | the widget starts idle with no progress, no file and no error, under the given limit and `accept` |
| FileUpload.Widget.Upload | frontend/components/ui/file-upload.tsx:84-110 | a refused file sets its message and makes no upload call; a successful upload shows full progress and hands the same result on; a failed one resets the progress and shows the thrown message or the default one; progress shows exactly while uploading |
| FileUpload.Widget.FinishAfterDelay | frontend/components/ui/file-upload.tsx:100-103 | the timer ends the upload state and keeps the file and the error |
| FileUpload.Widget.Remove | frontend/components/ui/file-upload.tsx:144-147 | the file and the error are cleared and the upload state is kept |
| Navbar.PrefixHighlightsLongerPath | frontend/components/Navbar.tsx:101-106 | the prefix rule is textual: '/novelx' highlights the '/novel' link but not the home link |
| Navbar.HrefsDiverge | frontend/components/Navbar.tsx:51-82 | two menu hrefs other than '/' differ at some position within both |
| Navbar.AtMostOneActive | frontend/components/Navbar.tsx:51-106 | for any path at most one of the top-level links is highlighted |
| Navbar.Bar.constructor | frontend/components/Navbar.tsx:85-87 | the menu starts closed and the bar unscrolled, on the current path |
| Navbar.Bar.Scroll | frontend/components/Navbar.tsx:89-95 | the bar is marked scrolled exactly past ten pixels |
| Navbar.Bar.Navigate | frontend/components/Navbar.tsx:97-99 | a change of path closes the menu; the same path leaves it as it was |
| Navbar.Bar.ToggleMenu | frontend/components/Navbar.tsx:242 | the menu button flips the menu and nothing else |
| Navbar.Bar.ClickMobileLink | frontend/components/Navbar.tsx:271-287 | a link in the mobile menu closes it |
| Responsive.ResponsiveValue | frontend/components/ui/responsive.tsx:268-287 | without a window the base value; the result is always the base or one of the supplied breakpoint values |
| Responsive.ResponsiveValueIsFirstFit | frontend/components/ui/responsive.tsx:281-286 | the result is the first of xl (1280), lg (1024), md (768), sm (640) that is defined and whose threshold the width reaches, else the base |
| Responsive.JoinedEndsWith | frontend/components/ui/responsive.tsx:102 | dropping empty classes and joining keeps a non-empty last class at the end |
| Responsive.UnprefixedGap | frontend/components/ui/responsive.tsx:109 | the closing gap class uses the `sm` gap, or '4' when it is missing or empty |
| Responsive.GridClassesEnd | frontend/components/ui/responsive.tsx:96-110 | the column classes always end with 'grid-cols-1' and the gap classes with the unprefixed gap |
| Responsive.UnprefixedSize | frontend/components/ui/responsive.tsx:153 | the closing size class is the `sm` size, or 'text-sm' when it is missing or empty |
| Responsive.TextSizesEnd | frontend/components/ui/responsive.tsx:148-154 | the size classes always end with the unprefixed size |
| Responsive.SpacingClasses | frontend/components/ui/responsive.tsx:211-259 | pushing each given side's five classes in turn yields the joined non-empty classes of the sides in the order top, bottom, left, right |
| Responsive.SideUnprefixed | frontend/components/ui/responsive.tsx:215-221 | among one side's classes only the last can be an unprefixed margin class, and only of that side's own code, exactly when its `sm` is given |
| Responsive.HasUnprefixedConcat | frontend/components/ui/responsive.tsx:211-255 | a joined class list has an unprefixed class exactly when one of its parts has |
| Responsive.PushedUnprefixed | frontend/components/ui/responsive.tsx:214-255 | the pushed classes hold a side's unprefixed class exactly when a side with that code is given with a non-empty `sm` |
| Responsive.NonEmptyKeepsUnprefixed | frontend/components/ui/responsive.tsx:259 | dropping empty classes keeps exactly the same unprefixed classes |
| Responsive.UnprefixedMarginIffSm | frontend/components/ui/responsive.tsx:214-259 | the unprefixed margin class of each side is emitted exactly when that side is given with a non-empty `sm` |
| CharacterRoutes.CharacterPlaceholder | backend/api/routes/character.py:142-148 | the fallback record holds exactly the raw text, the requested name or '未命名角色', and three sections pointing at the raw text |
| CharacterRoutes.CharacterOf | backend/api/routes/character.py:135-154 | a parsed object is returned as the character, unparsable text gives the placeholder, and the answer fails exactly for a parsed value that is neither an object nor null |
| CharacterRoutes.GenerateCharacter | backend/api/routes/character.py:122-154 | the reply text is read, stripped of its fences step by step and parsed, as the character rule says |
| CharacterRoutes.UnparsableCharacterKeepsName | backend/api/routes/character.py:139-148 | unparsable text keeps the requested name, or '未命名角色' when it is missing or empty, with the cleaned text |
| CharacterRoutes.StyleDescription | backend/api/routes/character.py:174-183 | a known style maps to its description and any other to '动漫风格' |
| CharacterRoutes.StyleMappingKeys | backend/api/routes/character.py:174-183 | exactly six styles are known; 'anime' maps to '日式动漫风格' and every other style to the default |
| CharacterRoutes.ImagePrompt | backend/api/routes/character.py:166-194 | the parts appended and extended in turn, joined with ", " |
| CharacterRoutes.PromptLayout | backend/api/routes/character.py:166-194 | name, appearance, the pose exactly when given, the style and the four fixed descriptors, in that order; the prompt starts with the name part and ends with the last descriptor |
| CharacterRoutes.NoPosePart | backend/api/routes/character.py:171-172 | without a pose no part carries the pose label |
| NovelRoutes.NovelContent | backend/api/routes/novel.py:70-73 | the reply never carries empty content: a non-empty text is kept and a missing or empty one is replaced by the failure notice |
| NovelRoutes.OutlineOf | backend/api/routes/novel.py:151-165 | a parsed object is the outline, unparsable text is kept under "raw_content", and the answer fails exactly for a parsed value that is neither an object nor null |
| NovelRoutes.GenerateOutline | backend/api/routes/novel.py:138-165 | the reply text is read, stripped of its fences step by step and parsed, as the outline rule says |
| NovelRoutes.ReplyWithText | backend/api/routes/novel.py:138-139 | a reply whose only choice carries a non-empty content yields that content as its text |
| NovelRoutes.FencedOutlineObject | backend/api/routes/novel.py:138-165 | an outline object in a "```json" fence comes back as that object |
| NovelRoutes.UnparsableOutlineKept | backend/api/routes/novel.py:151-159 | unparsable model text is answered whole, fence-stripped, under "raw_content" |
| NovelRoutes.OutlineListRefused | backend/api/routes/novel.py:151-170 | a parsed list is not an outline: the route answers with an error |
| NovelRoutes.TextReplyFor | backend/api/routes/novel.py:207-213 | a reply whose message reads is answered with the model's text when that is a string and with no text when it is null; the route fails exactly when the message does not read or the model text is neither |
| NovelRoutes.ContinuationUsesReasoning | backend/api/routes/novel.py:208 | an empty `content` falls back to `reasoning_content` |
| NovelRoutes.EnhanceLongText | backend/api/routes/novel.py:267-278 | text over 2000 characters becomes its first 500 and last 500 characters around the omission marker; shorter text is unchanged |
| NovelRoutes.EnhanceIdempotent | backend/api/routes/novel.py:267-276 | the shortened text is at most 2000 characters, so shortening twice is shortening once |
| StoryboardRoutes.TextFields | backend/api/routes/storyboard.py:121-138 | every given key is a member of the built object |
| StoryboardRoutes.PlaceholderShot | backend/api/routes/storyboard.py:121-139 | the placeholder shot is numbered 1 and carries the cleaned text as "raw_content" |
| StoryboardRoutes.StoryboardData | backend/api/routes/storyboard.py:98-139 | unparsable text gives the one-shot placeholder list; a parsed value shaped into something with a length is kept; the result always has a length |
| StoryboardRoutes.GenerateStoryboard | backend/api/routes/storyboard.py:86-144 | the message text is stripped of its fences step by step, shaped and checked as a list of objects, as the storyboard rule says |
| StoryboardRoutes.ParseFailureGivesPlaceholder | backend/api/routes/storyboard.py:116-139 | unparsable text gives exactly one placeholder shot, numbered 1, carrying the cleaned text |
| StoryboardRoutes.ShotListKept | backend/api/routes/storyboard.py:106 | a parsed list of shot objects is answered as it is |
| StoryboardRoutes.StoryboardMemberUnwrapped | backend/api/routes/storyboard.py:108-109 | an object holding a list of shots under "storyboard" gives that list |
| StoryboardRoutes.LoneObjectWrapped | backend/api/routes/storyboard.py:110-112 | a lone object without "storyboard" becomes a one-shot list |
| StoryboardRoutes.UnsizedStoryboardGivesPlaceholder | backend/api/routes/storyboard.py:108-139 | a "storyboard" member without a length makes `len` raise inside the guarded block, so the placeholder is answered |
| StoryboardRoutes.FailsOnlyForNonShotLists | backend/api/routes/storyboard.py:98-149 | the route fails exactly when the shaped value has a length but is not a list of objects |
| StoryboardRoutes.FencedObjectList | backend/api/routes/storyboard.py:86-144 | a shot list wrapped in a "```json" fence comes back shot for shot |
| StoryboardRoutes.GenerateImages | backend/api/routes/storyboard.py:335-365 | the route over its request body equals the reference definition: a missing "shots" is `[]`, a value without `len` or a non-list of length three or more is a Python error, fewer than three is refused, and the loop over the first three shots stops at a non-object shot or the first service error, one record per generated image |
| StoryboardRoutes.ItemsAgreeWithShots | backend/api/routes/storyboard.py:345-356 | over object shots, the route's loop from any position gives what the object-shot loop gives |
| StoryboardRoutes.RequestOfObjects | backend/api/routes/storyboard.py:339-360 | a request whose "shots" is a list with objects first is answered as the object-shot definition says |
| StoryboardRoutes.MissingShotsRefused | backend/api/routes/storyboard.py:339-341 | a body without "shots" is refused as fewer than three shots |
| StoryboardRoutes.NonListShotsFail | backend/api/routes/storyboard.py:339-346 | "shots" that is not a list never yields images, and is refused as too few exactly when its `len` exists and is below three |
| StoryboardRoutes.NonObjectShotFailsFrom | backend/api/routes/storyboard.py:345-346 | a non-object shot reached after the earlier calls succeeded ends the loop in a Python error |
| StoryboardRoutes.NonObjectShotFails | backend/api/routes/storyboard.py:345-346 | a non-object shot among the first three, reached after every earlier image was generated, makes the route answer a 500 |
| StoryboardRoutes.ImagesFromExact | backend/api/routes/storyboard.py:345-356 | from any position the remaining calls succeed exactly when each does, and the records are the earlier ones followed by one per remaining shot |
| StoryboardRoutes.ImagesExact | backend/api/routes/storyboard.py:339-365 | fewer than three shots is refused with the fixed message; otherwise success exactly when all three image calls succeed, with three records in order carrying prompt, URL and the shot's own number or its position plus one |
| StoryboardRoutes.ImagesIgnoreLaterShots | backend/api/routes/storyboard.py:345 | shots after the third play no part in the answer |
| StoryboardRoutes.ImagesFromPrefix | backend/api/routes/storyboard.py:345 | extending the shot list beyond the third shot does not change any step of the loop |
| StoryboardRoutes.EmptyShotPrompt | backend/api/routes/storyboard.py:346 | a shot without description, composition or mood still gives a prompt of two spaces |
| StoryboardRoutes.VideoCallFor | backend/api/routes/storyboard.py:371-383 | a request that is sent holds two frames and the given prompt, or the default one when absent |
| StoryboardRoutes.VideoFramesFirstLast | backend/api/routes/storyboard.py:371-378 | fewer than two images is refused with the fixed message; otherwise the first and last images are sent; the prompt defaults only when absent |
| StoryboardRoutes.NoImagesRefused | backend/api/routes/storyboard.py:371-373 | a body without images is refused as too few images |
| StoryboardRoutes.TwoImagesBothSent | backend/api/routes/storyboard.py:376-377 | with exactly two images both are sent, in order |
| StoryboardRoutes.UploadVideo | backend/api/routes/storyboard.py:294-323 | accepted exactly when the lower-cased last extension is one of the five; the stored URL is the fresh name followed by the file's own lower-cased extension, and the original name is returned |
| StoryboardRoutes.StoredNameKeepsExtension | backend/api/routes/storyboard.py:295-305 | a file `base.e` with an allowed extension is stored as the fresh name plus `.e` lower-cased, under its original name |
| StoryboardRoutes.UpperCaseExtensionAccepted | backend/api/routes/storyboard.py:295 | "clip.MP4" is accepted: the extension is compared lower-cased |
| StoryboardRoutes.HiddenFileRefused | backend/api/routes/storyboard.py:295-298 | ".mp4" has no extension and is refused |
| StoryboardRoutes.DoubleExtensionRefused | backend/api/routes/storyboard.py:295-298 | only the last extension counts: "clip.mp4.zip" is refused |
| StoryboardRoutes.AnalysisPrompt | backend/api/routes/storyboard.py:186-188 | the table text for a known key, else the default, followed by the focus marker and the description exactly when a non-empty description is given |
| StoryboardRoutes.VideoAnalysisPromptFor | backend/api/routes/storyboard.py:211-239 | a missing or empty video URL is refused with the fixed message, and only then |
| StoryboardRoutes.RouteTables | backend/api/routes/storyboard.py:156-186 | with tables keyed by exactly composition, lighting, color and style (and storyboard, cinematography, editing at lines 214-237), a listed key selects its table text, any other key the general prompt, and the request defaults are listed |
| StoryboardRoutes.PromptSelection | backend/api/routes/storyboard.py:186-188 | an unknown type gets the fixed prompt, a known one its table text, and a description always ends the prompt |
| SearchRoutes.EnhancedSearchFor | backend/api/routes/search.py:85-105 | a search response without choices is answered with no results and the not-found summary; with choices it fails exactly when the strictly read content is not a string, and otherwise its one result describes that content |
| SearchRoutes.EnhancedSearchShape | backend/api/routes/search.py:85-98 | a successful search gives one result titled with the query from source "web_search", the content as description, a summary that is its first 500 characters (all of it when shorter), and the query as the only related topic |
| SearchRoutes.HotTopicQueryCases | backend/api/routes/search.py:117-126 | no category or an empty one means the social query, a known category its own query, and any other the fallback query |
| SearchRoutes.MaxResults | backend/api/routes/search.py:131 | the search asks for the requested limit, capped at ten |
| SearchRoutes.FallbackTopics | backend/api/routes/search.py:180-189 | a fallback content that is not text, or text that does not parse, gives no topics |
| SearchRoutes.FallbackTopicsWrap | backend/api/routes/search.py:182-186 | a parsed object becomes the only topic and a parsed list of objects is kept |
| SearchRoutes.HotTopicsFor | backend/api/routes/search.py:135-192 | with choices the one search topic built from the content; without them the chat fallback's topics; a failure exactly where the selected response has no readable content |
| SearchRoutes.SearchTopicFields | backend/api/routes/search.py:139-148 | the search topic is titled after the category, or '社会' without one, lists its query as keyword and carries the content twice |
| SearchRoutes.DefaultInspiration | backend/api/routes/search.py:248-255 | the default entry is titled '创作灵感' and describes itself with the first 500 characters of the cleaned text, or the fixed hint when that is empty |
| SearchRoutes.InspirationsOf | backend/api/routes/search.py:242-255 | unparsable text gives the single default entry; the route fails exactly when the parsed value, taken as a list, holds a non-object |
| SearchRoutes.InspirationsKept | backend/api/routes/search.py:242-245 | a parsed list of objects is kept as it is and a parsed object becomes the only entry |
| SearchRoutes.GetInspiration | backend/api/routes/search.py:232-260 | the reply text is stripped of its fences step by step and parsed, as the inspiration rule says |
| SearchRoutes.FencedInspirationWrapped | backend/api/routes/search.py:232-247 | a fenced inspiration object comes back as the only inspiration |
| SearchRoutes.UnparsableInspiration | backend/api/routes/search.py:248-256 | unparsable text gives one entry whose description is a prefix of the cleaned text of at most 500 characters |
| SearchRoutes.KeywordsTextCases | backend/api/routes/search.py:211 | missing or empty keywords read '无'; otherwise the text starts with the first keyword and ends with the last, and one keyword stands alone |
| ZhipuService.Pow2 | backend/services/zhipu_service.py:80 | powers of two are at least one |
| ZhipuService.Backoff | backend/services/zhipu_service.py:78-83 | one wait per rate-limited attempt except the last, the i-th being `(2 ** i) * factor` seconds |
| ZhipuService.NextKeyIndex | backend/services/zhipu_service.py:28 | the next key index stays inside the key list |
| ZhipuService.KeyIndexAfter | backend/services/zhipu_service.py:26-30 | after any number of switches the index is inside the key list |
| ZhipuService.NextKeyIndexWraps | backend/services/zhipu_service.py:28 | one switch moves to the following key, and from the last key back to the first |
| ZhipuService.KeyIndexAfterIsOffset | backend/services/zhipu_service.py:26-30 | k switches move the index k places round the ring of keys |
| ZhipuService.SwitchesReturnToStart | backend/services/zhipu_service.py:26-30 | as many switches as there are keys return to the starting key, and fewer never do |
| ZhipuService.Service.constructor | backend/services/zhipu_service.py:8-24 | the primary and backup keys, the primary one current, and both header sets built from their keys |
| ZhipuService.Service.ChatHeaders | backend/services/zhipu_service.py:62 | the reserved key's headers when asked for, else the current key's |
| ZhipuService.Service.SwitchApiKey | backend/services/zhipu_service.py:26-31 | the next key round the ring becomes current and only the Authorization header changes |
| ZhipuService.Service.GenerateImage | backend/services/zhipu_service.py:253-330 | the nested loop over keys and retries equals the reference definition: outcome, the key each request used, the waits and the final key index |
| ZhipuService.Service.TryKey | backend/services/zhipu_service.py:272-325 | one key's pass of the retry loop: either the call ends, with the outcome, requests and waits the reference definition gives for this key attempt, or the key is given up (switched after its last rate-limited retry) and the reference continues with the next key attempt from the new key index |
| ZhipuService.RetryingPost | backend/services/zhipu_service.py:64-84 | the retry loop of chat completion and web search equals the reference definition: outcome, number of requests and waits |
| ZhipuService.RetryShape | backend/services/zhipu_service.py:64-84 | at most `max_retries` requests, one wait fewer than requests, doubling from `(2 ** attempt) * factor`; no answer exactly when no attempt is left; a 429 escapes only from the last attempt |
| ZhipuService.RetryAllRateLimited | backend/services/zhipu_service.py:77-84 | rate-limited throughout: all requests are made with the full backoff and the 429 escapes |
| ZhipuService.RetryAnsweredAfterRateLimits | backend/services/zhipu_service.py:64-83 | rate-limited until attempt k and answered there: k + 1 requests and the backoff of the first k |
| ZhipuService.OtherStatusNotRetried | backend/services/zhipu_service.py:77-84 | any status other than 429 escapes at once, without a retry |
| ZhipuService.LengthTokens | backend/services/zhipu_service.py:95-100 | 800 tokens for "short", 2500 for "long" and 1500 for anything else |
| ZhipuService.LengthTokensOrdered | backend/services/zhipu_service.py:95-100 | longer stories get larger budgets and no budget lies outside the three values |
| ZhipuService.DeltaContent | backend/services/zhipu_service.py:146-147 | a delta is only read from an object |
| ZhipuService.LineChunk | backend/services/zhipu_service.py:144-151 | a data payload yields only a truthy content; a payload that fails to parse or read yields nothing |
| ZhipuService.StreamChunks | backend/services/zhipu_service.py:139-151 | a stream yields at most one chunk per line, each truthy |
| ZhipuService.ParseStream | backend/services/zhipu_service.py:139-151 | the line loop equals the reference definition of the yielded chunks |
| ZhipuService.StreamConcat | backend/services/zhipu_service.py:139-151 | before any `[DONE]` the chunks of two pieces are those of the first followed by those of the second |
| ZhipuService.StreamStopsAtDone | backend/services/zhipu_service.py:142-143 | nothing after the `[DONE]` line is read |
| ZhipuService.DeltaLineYields | backend/services/zhipu_service.py:140-149 | a well-formed delta line yields its text; an unparsable line or empty content yields nothing |
| ZhipuService.StatusFailure | backend/services/zhipu_service.py:315-323 | 400, 401 and 403 each raise their own error and every other status the generic one |
| ZhipuService.ImageErrorMessage | backend/services/zhipu_service.py:314-330 | an unexpected message already naming image generation is re-raised as it is and any other is prefixed |
| ZhipuService.KeyRun | backend/services/zhipu_service.py:272-311 | blocks of `max_retries` requests per key, one block per key |
| ZhipuService.Schedule | backend/services/zhipu_service.py:272-311 | the remaining retries on this key followed by every remaining key's retries |
| ZhipuService.ImageFollowsSchedule | backend/services/zhipu_service.py:272-330 | with at least one retry the requests follow the schedule, so a key is given up only after all its retries, and the closing "all attempts failed" is never reached |
| ZhipuService.ImageWithoutRetries | backend/services/zhipu_service.py:272-330 | without any retry no request is made and the call ends in "all attempts failed" |
| ZhipuService.ImageAllRateLimited | backend/services/zhipu_service.py:301-314 | rate-limited throughout: every key gets all its retries in turn, the key moves on once per key but the last, and the quota message is raised |
| ZhipuService.KeyIndexAfterShift | backend/services/zhipu_service.py:26-30 | switching once and then k times is switching k + 1 times |
| ZhipuService.ImageClientErrorNotRetried | backend/services/zhipu_service.py:315-320 | a 400, 401 or 403 is not retried and raises that status's error |
| ZhipuService.VideoWrapped | backend/services/zhipu_service.py:421-424 | an error raised in the try body, other than the explicit HTTP-status errors of lines 414-420, leaves `generate_video` naming video generation: a message already naming it is kept, any other is prefixed |
| ZhipuService.WrappedPlain | backend/services/zhipu_service.py:421-424 | a message without '视' is prefixed |
| ZhipuService.SuccessOutcome | backend/services/zhipu_service.py:382-388 | a SUCCESS status gives the first result item's URL; a missing or empty result raises "视频URL未返回" |
| ZhipuService.StatusStep | backend/services/zhipu_service.py:380-393 | SUCCESS ends the polling with the video result; FAILED ends it with the generation job's error message prefixed by "生成失败: " and wrapped in "视频生成失败: "; a reply that is not an object ends it with a failure; any other status polls on |
| ZhipuService.FailedText | backend/services/zhipu_service.py:389-391 | the failure text starts with "生成失败: " and reads "生成失败: Unknown" when the error has no message |
| ZhipuService.VideoFailedAfterPolls | backend/services/zhipu_service.py:389-424 | a task that is pending until poll q and then FAILED makes the generation end, after one task and q + 1 polls, in the wrapped failure text |
| ZhipuService.PollFrom | backend/services/zhipu_service.py:369-399 | at most 120 polls, and a settled poll always carries a result or an error |
| ZhipuService.PollTask | backend/services/zhipu_service.py:369-399 | the polling loop equals the reference definition: how it ends and how many polls it made |
| ZhipuService.PollSettlesAt | backend/services/zhipu_service.py:369-393 | polls pending until poll q end with what poll q says, after q - p + 1 polls |
| ZhipuService.PollTimesOut | backend/services/zhipu_service.py:369-399 | a task pending on every poll times out, with the prefixed timeout text, after all 120 polls |
| ZhipuService.VideoFrom | backend/services/zhipu_service.py:354-424 | no result exactly when no attempt is left, and at most one task created per attempt |
| ZhipuService.GenerateVideo | backend/services/zhipu_service.py:354-424 | the retry loop around task creation and polling equals the reference definition: outcome, tasks created, polls and waits |
| ZhipuService.VideoPollsBounded | backend/services/zhipu_service.py:354-399 | every created task is polled at most 120 times |
| ZhipuService.VideoAllRateLimited | backend/services/zhipu_service.py:408-414 | task creation rate-limited throughout: each attempt but the last waits 60 seconds, nothing is polled, and the concurrency message is raised |
| ZhipuService.VideoFirstResultUrl | backend/services/zhipu_service.py:354-387 | a task reporting SUCCESS with a result list after pending polls gives the first item's URL on the first attempt |
| ZhipuService.MimeType | backend/services/zhipu_service.py:444-451 | the table entry of the lower-cased last extension, else the default |
| ZhipuService.DataUrl | backend/services/zhipu_service.py:452 | the inlined URL starts with the data scheme and MIME type and ends with the encoded data |
| ZhipuService.MimeExamples | backend/services/zhipu_service.py:444-451 | extensions match case-insensitively and a name without extension gets the default |
| ZhipuService.MimeDefaults | backend/services/zhipu_service.py:445-451 | an extension outside a table gets that table's default |
| ZhipuService.ServiceStoryboard | backend/services/zhipu_service.py:646-658 | no fence stripping; an unparsable text gives one record with the error and the raw text; a parsed value is shaped by the storyboard rule |
| ZhipuService.ServiceStoryboardIsList | backend/services/zhipu_service.py:649-658 | the storyboard is a list unless the reply was an object whose "storyboard" member is not one |
| TestComprehensive.Passed | backend/test_comprehensive.py:31 | the passed count never exceeds the number of records |
| TestComprehensive.TestAnalyzer.constructor | backend/test_comprehensive.py:14-16 | the analyser starts with no records |
| TestComprehensive.TestAnalyzer.AddResult | backend/test_comprehensive.py:18-26 | exactly one record is appended, with the given fields and timestamp |
| TestComprehensive.TestAnalyzer.Analyze | backend/test_comprehensive.py:28-86 | the step-by-step analysis equals the reference analysis of the records |
| TestComprehensive.AddResultCounts | backend/test_comprehensive.py:18-38 | one more record moves the passed, rate-limit and timeout counts by that record alone |
| TestComprehensive.SummaryCounts | backend/test_comprehensive.py:30-46 | passed plus failed is the total, failed is never negative, the rate is ⌊passed·100/total⌋ followed by "%" (so "100%" when all passed) and "0%" without records, and failed is zero exactly when every record succeeded |
| TestComprehensive.CategoriesOverlap | backend/test_comprehensive.py:37-38 | the two category counts together count an error in both categories twice |
| TestComprehensive.OtherCountsUnclassified | backend/test_comprehensive.py:37-39 | when successes carry no error and no error is in both categories, `other` counts the failures in neither category |
| TestComprehensive.BothSubtractedTwice | backend/test_comprehensive.py:37-39 | a failure in both categories alone leaves `other` at -1 |
| TestComprehensive.OtherGoesNegative | backend/test_comprehensive.py:37-39 | the error "429 timeout" makes `other` negative |
| TestComprehensive.RecommendationRules | backend/test_comprehensive.py:57-84 | each recommendation appears exactly when its condition holds, at most once, rate limiting first and "all passed" last |
| TestComprehensive.AnalysisRecommendations | backend/test_comprehensive.py:57-84 | the rate-limit and timeout advice appear exactly when such errors were counted, and "all passed", last, exactly when every record succeeded |
| TestComprehensive.NoRecordsAllPassed | backend/test_comprehensive.py:46-84 | without records the rate reads "0%" and the only recommendation is "all passed" |
| TestFinal.PassedOrFailed | backend/test_final.py:25-31 | the passed and failed entries together are all of them |
| TestFinal.SummaryOf | backend/test_final.py:23-34 | total is the number of entries, failed counts the failing ones, the rate is ⌊passed·100/total⌋ followed by "%" and "0%" without entries |
| TestFinal.TestResults.constructor | backend/test_final.py:12-13 | the result list starts empty |
| TestFinal.TestResults.Add | backend/test_final.py:15-21 | exactly one entry is appended |
| TestFinal.AddCounts | backend/test_final.py:15-25 | one more entry adds one to the total, and one to passed exactly when it passed |
| TestFinal.Test | backend/test_final.py:38-68 | the entry stored and the value returned are those of the test rule |
| TestFinal.PassRule | backend/test_final.py:47-58 | only a 200 reply with a `success` field passes; `true` passes, a missing or `false` one fails |
| TestFinal.ErrorText | backend/test_final.py:53-67 | a pass stores no error, an exception stores its text cut to 100 characters, another status stores "HTTP " and its code |
| TestFinal.BandMonotone | backend/test_final.py:124-129 | no results means "all passed"; more passes never give a worse band; only all passes give "all passed" |
| TestFinal.BandThreshold | backend/test_final.py:126 | the 70% threshold is inclusive: 7 of 10 is "most", 6 of 10 and 2 of 3 are not |
| TestFinal.SummaryBand | backend/test_final.py:114-129 | the summary's band is "all passed" exactly when every entry passed |
| Text.Before | frontend/components/GlobalSearchSidebar.tsx:110 | `split(sep)[0]`: a prefix of the text holding no `sep`, ending at the first `sep` or at the end of the text |
| Text.BeforeChar | frontend/components/GlobalSearchSidebar.tsx:110 | splitting `a + c + b` on a character `c` that `a` does not hold gives `a` |
| Text.BeforeWholeIffAbsent | frontend/app/storyboard/components/VideoAnalyzer.tsx:168 | the first piece is the whole text exactly when the separator does not occur, and is otherwise followed by the whole separator |
| Text.SplitSecond | frontend/app/storyboard/components/VideoAnalyzer.tsx:168 | `split(sep)[1]`: undefined exactly when `sep` does not occur, else the first piece of what follows the first `sep` |
| Seqs.FilterMultiplicity | frontend/app/character/components/CharacterGallery.tsx:35-39 | a filtered list holds each value satisfying the predicate as often as the list does, and no other value |
| Text.Percent | backend/test_final.py:32 | the rate is the decimal digits of ⌊part·100/whole⌋ followed by "%", "0%" for an empty whole and "100%" when the part is the whole |
| Text.Scaled | backend/test_final.py:32 | `part*100//whole`: the largest q with q·whole ≤ part·100 |
| Text.PercentRoundsDown | backend/test_final.py:32 | one of three reads "33%": the rate is rounded down |
| Text.PercentTwoThirds | backend/test_final.py:32 | two of three reads "66%", not "67%" |
| Text.SplitExt | backend/api/routes/storyboard.py:295 | the extension is empty or a final dot-led piece of the last path component holding no other dot |
| Text.SplitExtOfNamed | backend/api/routes/storyboard.py:295 | a named file's last extension is split off as it is |

## Left out

- All network I/O is left out: `fetch`, `axios`, `httpx`, `frontend/lib/api.ts` and `backend/main.py`'s route wiring. Responses, status codes and exceptions are inputs.
- `asyncio.sleep`, `setTimeout` and the abort timeout are left out. Waits appear only as computed numbers of seconds.
- `alert`, `console` and `print` output are left out. So are the clipboard, `navigator.share`, Blob downloads, `downloadCharacterData` and `downloadAnalysis`. `confirm()` is a boolean input.
- Window events are left out. The history-updated event is an explicit reload call, and the global `window.saveCharacterToGallery` is a direct call of `Save`.
- `Date.now`, `toISOString` and `datetime.now().isoformat()` values are parameters. `toLocaleString` formatting is not modelled.
- The floating-point parts of both test scripts are not modelled: `avg_time`, `response_time` and `elapsed`. In `test_comprehensive.py`, whether the average exceeds 20 seconds is a boolean input. The response-time lines printed by `test_final.py` are not modelled.
- JSON parsing is abstract and is not modelled; neither is base64 encoding. Reading local files for data URLs is not modelled either: only the URL layout is.
- Unicode lower-casing and Python's full `strip()` whitespace set are not modelled. Only ASCII is covered.
- The regular-expression MIME branch of `validateFile` is a predicate parameter.
- Text.Before, Text.SplitSecond: `split` on an empty separator, which JavaScript splits into single characters, is not modelled; every caller passes a non-empty literal separator.
- SearchHistory.BreaksPage: of an installed object's `length` member, only a positive number and `true` are taken to pass `filteredHistory.length > 0`. A string or list that JavaScript coerces to a positive number is read as not passing.
- JavaScript prototype keys in object-literal lookups are not modelled. An arbitrary string key such as `"constructor"` is treated as absent.
- Prompt texts are fixed strings; their wording is not checked. Only their structure is stated: order, separators, defaults and lookups.
- The `/types`, `/styles` and similar GET route tables are not modelled. Neither are the error-detail texts of `HTTPException`, or the `KeyError` and `AttributeError` texts Python would produce on a malformed reply (such a reply is `Failed`).
- The per-chunk HTTP details of `stream=True` responses are not modelled. The line-by-line parsing of `data:` lines is modelled (`ZhipuService.ParseStream`).
- The generator-exit edge case of the streaming methods is not modelled.
- `task_id` values are not modelled. A video task is identified by its attempt number.
- `convert_to_script` and the broken call sites are not modelled: `generate_novel` is called by `novel.py` but not defined, the stream routes call absent methods, and `style=` is passed to `generate_image`.
- `analyze_image` and `analyze_video` are not modelled beyond the prompt they are given.
- `handleVideoUpload` in `VideoAnalyzer.tsx` is not modelled: it is a network call. Only its success transition is modelled (`Analyzer.FileUploaded`).
- The drag handlers and `getFileIcon` of `file-upload.tsx` are not modelled, as they are presentational.
- `ResponsiveContainer`, `ResponsiveImage`, `useMediaQuery` and the text-weight classes of `responsive.tsx` are not modelled, as they are presentational.
- The duplicate `getShotTypeColor` in `TextToStoryboard.tsx` is not modelled separately. It is the same table as `StoryboardGallery.ShotTypeColor`.
- Cross-tab behaviour is not modelled: a `localStorage` key written by another tab between a read and a write is a concurrency matter.
- HotTopics.SortByHeat: stability of `Array.prototype.sort` is not claimed, since JavaScript only promises stability from ES2019. The contract states sortedness by rank and a permutation.
- Navbar is modelled as the `isActive` predicate, with its rule stated through lemmas. The predicate has no contract of its own.
- TestFinal.TestResults.Analyze: the average time is not part of the summary.
- TestFinal.EntryFor: only JSON-object bodies are modelled. A 200 reply whose body is a JSON list or scalar would raise in `result.get` and is not covered.
- The `start_time` field of `TestAnalyzer` is never read, so it is not modelled.
- Artifacts.ReadOrEmpty: a stored non-empty JSON string is not spread or sliced. `[...saved, entry]` at `TextToStoryboard.tsx:130-141` and `.slice(0, 49)` at `BackgroundSearch.tsx:72-81` would turn it into a list of its characters followed by the new record. The model abandons that save instead, as it does for the other non-list values, on which those expressions throw.
- GlobalSearchSidebar.Sidebar.Load: the render crash is not modelled. The recent-search list at `GlobalSearchSidebar.tsx:241` throws for an installed `null` or non-empty text, but only while the sheet is open. The model has no open state, so it states only that every later save fails.
- Json.TextOr: only string-valued members are modelled. JavaScript's `x || d` would also keep a truthy number, boolean, list or object; the model reads such a value as absent.
- CharacterGenerator.CharacterName: only a string `basic_info.name` is modelled. A truthy non-string name would be kept by `||`; the model falls back to the typed name.
- CharacterGenerator.IsFeature: only string features are modelled. A truthy non-string feature makes `part.trim()` throw at `CharacterGenerator.tsx:181`, outside any `try`; the model skips such a feature.
- `searchRelatedTopic` at `BackgroundSearch.tsx:100-103` is not modelled. Like the recent-search button under "## Findings", it calls `setSearchQuery(topic)` and then `performSearch()` in one handler. The search would therefore use the previous box value, not the topic.

## Findings

| source | as written | input that shows it | evidently intended | confidence | as-written member | corrected member |
|---|---|---|---|---|---|---|
| frontend/components/GlobalSearchSidebar.tsx:250-253 | the recent-search button calls `setSearchQuery(query)` and then `performSearch()` in the same handler; `performSearch` reads the `searchQuery` of the current render, which is empty whenever the recent list is shown (line 241), so the guard at line 61 returns and nothing is searched | recent searches `["dragon"]`, box empty, click "dragon": the box shows "dragon" but no request is sent | search for the clicked query and record it first among the recent searches | not executed | GlobalSearchSidebar.Sidebar.ClickRecentAsWritten | GlobalSearchSidebar.Sidebar.ClickRecent |

/** The text-to-storyboard page: the generation guard, the shot-count slider, the plain-text
  * download and saving into the shared `savedStoryboards` key. */
module TextToStoryboard {
  import opened Wrappers
  import opened Text
  import opened Seqs
  import opened Artifacts

  /** `getAngleIcon`: arrows for the four camera angles, a bullet for any other. */
  function AngleIcon(angle: string): (r: string)
    ensures angle !in {"俯视", "仰视", "平视", "斜角"} <==> r == "•"
    ensures angle == "俯视" ==> r == "↓"
    ensures angle == "仰视" ==> r == "↑"
    ensures angle == "平视" ==> r == "→"
    ensures angle == "斜角" ==> r == "↗"
  {
    match angle
    case "俯视" => "↓"
    case "仰视" => "↑"
    case "平视" => "→"
    case "斜角" => "↗"
    case _ => "•"
  }

  /** `${shot.note ? ... : ''}`: a missing or empty note is falsy. */
  predicate HasNote(s: Shot)
  {
    s.note.Some? && s.note.value != ""
  }

  /** The first two lines of a shot: its number and its scale. */
  function ShotHead(s: Shot): string
  {
    "镜头 " + IntToString(s.shotNumber) + "\n景别: " + s.shotType
  }

  /** The lines from the angle down to the composition. */
  function ShotMiddle(s: Shot): string
  {
    "\n角度: " + s.angle + "\n运动: " + s.movement + "\n时长: " + s.duration +
    "\n转场: " + s.transition + "\n\n画面描述:\n" + s.description + "\n\n动作指示:\n" + s.action +
    "\n\n对话:\n" + s.dialogue + "\n\n光线: " + s.lighting + "\n色调: " + s.colorTone +
    "\n构图: " + s.composition
  }

  /** The note line's text: the note when there is one, nothing otherwise. */
  function NoteText(s: Shot): string
  {
    if HasNote(s) then "备注: " + s.note.value else ""
  }

  /** One shot of the download: its fields, the note line when there is a note (an empty
    * line otherwise), and a `---` rule. */
  function ShotBlock(s: Shot): string
  {
    (ShotHead(s) + ShotMiddle(s)) + ("\n氛围: " + s.mood + ("\n" + NoteText(s) + "\n---"))
  }

  /** A block starts with the shot number and scale, and ends with the note line exactly when
    * the shot has a note, with the mood line followed by an empty line otherwise. */
  lemma ShotBlockLayout(s: Shot)
    ensures StartsWith(ShotBlock(s), "镜头 " + IntToString(s.shotNumber) + "\n景别: " + s.shotType)
    ensures HasNote(s) ==> EndsWith(ShotBlock(s), "\n备注: " + s.note.value + "\n---")
    ensures !HasNote(s) ==> EndsWith(ShotBlock(s), "\n氛围: " + s.mood + "\n\n---")
  {
    var front := ShotHead(s) + ShotMiddle(s);
    var mood := "\n氛围: " + s.mood;
    var tail := "\n" + NoteText(s) + "\n---";
    StartsWithAppend(ShotHead(s), ShotMiddle(s));
    StartsWithExtend(front, mood + tail, ShotHead(s));
    EndsWithAppend(front, mood + tail);
    EndsWithShrink(ShotBlock(s), mood, tail);
    if HasNote(s) {
      AppendAssoc("\n", "备注: ", s.note.value);
      assert "\n" + "备注: " == "\n备注: ";
    } else {
      assert "\n" + NoteText(s) == "\n";
      assert "\n" + "\n---" == "\n\n---";
    }
  }

  /** `downloadStoryboard`: the shot blocks joined by a blank line. */
  function DownloadText(shots: seq<Shot>): string
  {
    Join(Map(shots, ShotBlock), "\n\n")
  }

  /** Appending a shot appends its block after a blank line. */
  lemma DownloadTextSnoc(shots: seq<Shot>, s: Shot)
    requires shots != []
    ensures DownloadText(shots + [s]) == DownloadText(shots) + "\n\n" + ShotBlock(s)
  {
    assert Map(shots + [s], ShotBlock) == Map(shots, ShotBlock) + [ShotBlock(s)];
    JoinSnoc(Map(shots, ShotBlock), ShotBlock(s), "\n\n");
  }

  /** A single shot downloads as its block alone; no shots give an empty file. */
  lemma DownloadTextSingle(s: Shot)
    ensures DownloadText([s]) == ShotBlock(s)
    ensures DownloadText([]) == ""
  {
    assert Map([s], ShotBlock) == [ShotBlock(s)];
  }

  /** The browser keeps a range input's value within its `min`..`max`, here 3..15. */
  function SliderValue(requested: int): (r: int)
    ensures 3 <= r <= 15
    ensures 3 <= requested <= 15 ==> r == requested
  {
    if requested < 3 then 3 else if requested > 15 then 15 else requested
  }

  /** The body sent by `storyApi.generateStoryboard`. */
  datatype StoryboardRequest = StoryboardRequest(script: string, style: string, shots: int, sceneDescription: Option<string>)

  /** What the API call resolves to; a rejected call is `None` in the method parameters. */
  datatype StoryboardReply = StoryboardReply(success: bool, storyboard: Option<seq<Shot>>)

  class Generator {
    var script: string
    var style: string
    var shots: int
    var sceneDescription: string
    var storyboard: seq<Shot>
    const storage: StorageKey<SavedStoryboard>

    constructor (storage: StorageKey<SavedStoryboard>)
      ensures this.storage == storage && script == "" && style == "cinematic" && shots == 6
      ensures sceneDescription == "" && storyboard == []
    {
      this.storage := storage;
      script := "";
      style := "cinematic";
      shots := 6;
      sceneDescription := "";
      storyboard := [];
    }

    /** The shot-count slider's `onChange`. */
    method SetShots(requested: int)
      modifies this
      ensures shots == SliderValue(requested) && 3 <= shots <= 15
      ensures script == old(script) && style == old(style) && sceneDescription == old(sceneDescription)
      ensures storyboard == old(storyboard)
    {
      shots := SliderValue(requested);
    }

    /** `generateStoryboard`: refused for a blank script; a successful reply replaces the shot
      * list (with `[]` when it carries none), anything else leaves it. */
    method Generate(reply: Option<StoryboardReply>) returns (sent: Option<StoryboardRequest>)
      modifies this
      ensures IsBlank(script) <==> sent.None?
      ensures sent.Some? ==> sent.value == StoryboardRequest(script, style, shots,
                               if sceneDescription == "" then None else Some(sceneDescription))
      ensures storyboard == if sent.Some? && reply.Some? && reply.value.success
                            then reply.value.storyboard.GetOr([]) else old(storyboard)
      ensures script == old(script) && style == old(style) && shots == old(shots)
      ensures sceneDescription == old(sceneDescription)
    {
      if IsBlank(script) {
        return None;
      }
      sent := Some(StoryboardRequest(script, style, shots,
                   if sceneDescription == "" then None else Some(sceneDescription)));
      if reply.Some? && reply.value.success {
        storyboard := reply.value.storyboard.GetOr([]);
      }
    }

    /** The record `saveToGallery` appends; it carries no favourite flag. */
    function NewEntry(id: string, title: string, createdAt: string): (e: SavedStoryboard)
      reads this
      ensures e.isFavorite.None?
      ensures e.script == script && e.style == style && e.shots == shots && e.storyboard == storyboard
    {
      SavedStoryboard(id, title, script, style, shots, storyboard, createdAt, None)
    }

    /** `saveToGallery`: read the stored list (missing counts as empty), append one entry and
      * write it back; when the stored value cannot be read nothing is written. */
    method SaveToGallery(id: string, title: string, createdAt: string) returns (ok: bool)
      modifies storage
      ensures ok <==> ReadOrEmpty(old(storage.value)).Some?
      ensures ok ==> storage.value == Some(Entries(ReadOrEmpty(old(storage.value)).value + [NewEntry(id, title, createdAt)]))
      ensures !ok ==> storage.value == old(storage.value)
    {
      var stored := ReadOrEmpty(storage.value);
      if stored.None? {
        return false;
      }
      storage.value := Some(Entries(stored.value + [NewEntry(id, title, createdAt)]));
      ok := true;
    }
  }
}

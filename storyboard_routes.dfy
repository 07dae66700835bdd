/**
 * The storyboard API routes: turning the model's text into a shot list, the three-image and
 * first/last-frame video endpoints, the video upload extension check and the analysis prompts.
 * The chat, image, video and vision services are parameters; a service that raises is an `Err`.
 */
module StoryboardRoutes {
  import opened Wrappers
  import opened Text
  import opened Json
  import opened Fences

  // ---------------------------------------------------------------- POST /generate

  /** The text fields of the placeholder shot besides `raw_content`, in the order they appear. */
  const PlaceholderTexts: seq<(string, string)> := [
    ("shot_type", "说明"), ("angle", "-"), ("movement", "-"),
    ("description", "AI返回的内容无法解析为标准JSON格式，请查看原始内容"),
    ("action", "-"), ("dialogue", "-"), ("duration", "-"), ("transition", "-"),
    ("lighting", "-"), ("color_tone", "-"), ("composition", "-"), ("mood", "-"),
    ("note", "JSON解析失败，请查看raw_content字段")
  ]

  /** An object holding string members given as (key, text) pairs. */
  function TextFields(pairs: seq<(string, string)>): (m: map<string, Json>)
    ensures forall i :: 0 <= i < |pairs| ==> pairs[i].0 in m
  {
    if pairs == [] then map[]
    else TextFields(pairs[..|pairs| - 1])[pairs[|pairs| - 1].0 := JStr(pairs[|pairs| - 1].1)]
  }

  /** The one shot returned when the cleaned text is not a usable JSON list. */
  function PlaceholderShot(cleaned: string): (m: map<string, Json>)
    ensures "shot_number" in m && m["shot_number"] == JNum(1)
    ensures "raw_content" in m && m["raw_content"] == JStr(cleaned)
  {
    TextFields(PlaceholderTexts)["shot_number" := JNum(1)]["raw_content" := JStr(cleaned)]
  }

  /**
   * The value the route hands to the response model. Inside the guarded block the text is
   * parsed, normalised to a list and measured with `len`; a parse error, and equally a `len`
   * of a value that has none (an object whose "storyboard" member is a number, a boolean or
   * null), falls through to the placeholder.
   */
  function StoryboardData(cleaned: string, parse: Parser): (r: Json)
    ensures parse(cleaned).None? ==> r == JArr([JObj(PlaceholderShot(cleaned))])
    ensures parse(cleaned).Some? && HasLength(StoryboardShape(parse(cleaned).value)) ==>
      r == StoryboardShape(parse(cleaned).value)
    ensures HasLength(r)
  {
    match parse(cleaned)
    case None => JArr([JObj(PlaceholderShot(cleaned))])
    case Some(v) =>
      var shaped := StoryboardShape(v);
      if HasLength(shaped) then shaped else JArr([JObj(PlaceholderShot(cleaned))])
  }

  /**
   * What `POST /generate` answers for the model's message: the shot list, or `None` where the
   * response model rejects a value that is not a list of objects and the route answers 500.
   */
  function StoryboardOf(content: string, parse: Parser): Option<seq<map<string, Json>>>
  {
    ShotsOf(CodeFenceStripped(content), parse)
  }

  /** The shot list for the already cleaned text. */
  function ShotsOf(cleaned: string, parse: Parser): Option<seq<map<string, Json>>>
  {
    Objects(StoryboardData(cleaned, parse))
  }

  /** The route body after the chat call: fence stripping step by step, then shaping. */
  method GenerateStoryboard(content: string, parse: Parser) returns (shots: Option<seq<map<string, Json>>>)
    ensures shots == StoryboardOf(content, parse)
  {
    var cleaned := StripCodeFence(content);
    var data := StoryboardData(cleaned, parse);
    shots := Objects(data);
    assert shots == ShotsOf(cleaned, parse);
  }

  /** Unparsable text gives exactly one placeholder shot, numbered 1, carrying the cleaned text. */
  lemma ParseFailureGivesPlaceholder(cleaned: string, parse: Parser)
    requires parse(cleaned).None?
    ensures ShotsOf(cleaned, parse) == Some([PlaceholderShot(cleaned)])
    ensures ShotsOf(cleaned, parse).value[0]["shot_number"] == JNum(1)
    ensures ShotsOf(cleaned, parse).value[0]["raw_content"] == JStr(cleaned)
  {
    ObjectsOfOne(PlaceholderShot(cleaned));
  }

  /** A parsed list of shot objects is kept as it is. */
  lemma ShotListKept(cleaned: string, parse: Parser, shots: seq<map<string, Json>>)
    requires parse(cleaned) == Some(ObjectList(shots))
    ensures ShotsOf(cleaned, parse) == Some(shots)
  {
    ObjectsOfObjectList(shots);
  }

  /** An object holding a list of shots under "storyboard" gives that list. */
  lemma StoryboardMemberUnwrapped(cleaned: string, parse: Parser, m: map<string, Json>, shots: seq<map<string, Json>>)
    requires parse(cleaned) == Some(JObj(m))
    requires "storyboard" in m && m["storyboard"] == ObjectList(shots)
    ensures ShotsOf(cleaned, parse) == Some(shots)
  {
    ObjectsOfObjectList(shots);
  }

  /** A lone object without "storyboard" becomes a one-shot list. */
  lemma LoneObjectWrapped(cleaned: string, parse: Parser, m: map<string, Json>)
    requires parse(cleaned) == Some(JObj(m))
    requires "storyboard" !in m
    ensures ShotsOf(cleaned, parse) == Some([m])
  {
    ObjectsOfOne(m);
  }

  /** `{"storyboard": <number, boolean or null>}` has no length: the placeholder is returned. */
  lemma UnsizedStoryboardGivesPlaceholder(cleaned: string, parse: Parser, m: map<string, Json>)
    requires parse(cleaned) == Some(JObj(m))
    requires "storyboard" in m && !HasLength(m["storyboard"])
    ensures ShotsOf(cleaned, parse) == Some([PlaceholderShot(cleaned)])
  {
    ObjectsOfOne(PlaceholderShot(cleaned));
  }

  /** The route fails with 500 exactly when the shaped value is measurable but not a list of
    * objects: a string or object under "storyboard", or a list holding a non-object. */
  lemma FailsOnlyForNonShotLists(cleaned: string, parse: Parser)
    ensures ShotsOf(cleaned, parse).None? <==>
      (parse(cleaned).Some? && HasLength(StoryboardShape(parse(cleaned).value)) &&
       Objects(StoryboardShape(parse(cleaned).value)).None?)
  {
    ObjectsOfOne(PlaceholderShot(cleaned));
  }

  /** A shot list wrapped in a "```json" fence comes back unchanged, shot for shot. */
  lemma FencedObjectList(x: string, parse: Parser, shots: seq<map<string, Json>>)
    requires Trimmed(x)
    requires parse(x) == Some(ObjectList(shots))
    ensures StoryboardOf("```json\n" + x + "\n```", parse) == Some(shots)
  {
    JsonFenceRoundTrip(x);
    ShotListKept(x, parse, shots);
  }

  // ---------------------------------------------------------------- POST /generate-images

  /** One generated frame: the shot's number, the image URL and the prompt that produced it. */
  datatype ImageRecord = ImageRecord(shotNumber: Json, imageUrl: string, prompt: string)

  /** The image service's answer to its `call`-th request with `prompt`: a URL or an error text. */
  type ImageService = (nat, string) -> Result<string, string>

  const ImagesFailure := "批量图像生成失败: "
  const TooFewShots := ImagesFailure + "至少需要3个分镜描述"

  /** Description, composition and mood separated by single spaces. */
  function ShotPrompt(shot: map<string, Json>, repr: Json -> string): string
  {
    PyStr(FieldOr(shot, "description", JStr("")), repr) + " " +
    PyStr(FieldOr(shot, "composition", JStr("")), repr) + " " +
    PyStr(FieldOr(shot, "mood", JStr("")), repr)
  }

  /** The record for the `i`-th shot once the service returned `url`. */
  function Record(shot: map<string, Json>, i: nat, url: string, repr: Json -> string): ImageRecord
  {
    ImageRecord(FieldOr(shot, "shot_number", JNum(i + 1)), url, ShotPrompt(shot, repr))
  }

  /** The records for shots `i..3` appended to `done`, stopping at the first service error. */
  function ImagesFrom(shots: seq<map<string, Json>>, i: nat, done: seq<ImageRecord>,
                      repr: Json -> string, service: ImageService): Result<seq<ImageRecord>, string>
    requires i <= 3 <= |shots|
    decreases 3 - i
  {
    if i == 3 then Ok(done)
    else
      match service(i, ShotPrompt(shots[i], repr))
      case Err(e) => Err(ImagesFailure + e)
      case Ok(url) => ImagesFrom(shots, i + 1, done + [Record(shots[i], i, url, repr)], repr, service)
  }

  /** What `POST /generate-images` answers. */
  function ImagesFor(shots: seq<map<string, Json>>, repr: Json -> string, service: ImageService): Result<seq<ImageRecord>, string>
  {
    if |shots| < 3 then Err(TooFewShots) else ImagesFrom(shots, 0, [], repr, service)
  }

  /** An answer of the object-shot core seen from the route: every error carries its text. */
  function Detailed(r: Result<seq<ImageRecord>, string>): Result<seq<ImageRecord>, Option<string>>
  {
    match r
    case Ok(images) => Ok(images)
    case Err(e) => Err(Some(e))
  }

  /**
   * The records for the request's shots `i..3` appended to `done`. A shot that is not an object
   * raises at `shot.get` (`Err(None)`: the Python text is not modelled), after the earlier
   * shots' images were generated; a service error stops the loop.
   */
  function ImagesFromItems(items: seq<Json>, i: nat, done: seq<ImageRecord>,
                           repr: Json -> string, service: ImageService): Result<seq<ImageRecord>, Option<string>>
    requires i <= 3 <= |items|
    decreases 3 - i
  {
    if i == 3 then Ok(done)
    else if !items[i].JObj? then Err(None)
    else
      match service(i, ShotPrompt(items[i].fields, repr))
      case Err(e) => Err(Some(ImagesFailure + e))
      case Ok(url) => ImagesFromItems(items, i + 1, done + [Record(items[i].fields, i, url, repr)], repr, service)
  }

  /**
   * What `POST /generate-images` answers for its request body. A missing "shots" is `[]`;
   * `len` raises on a number, boolean or null; a string or object of length three or more
   * raises at `shots[:3]` or `shot.get`. `Err(None)` is such a Python error.
   */
  function ImagesForRequest(request: map<string, Json>, repr: Json -> string, service: ImageService): Result<seq<ImageRecord>, Option<string>>
  {
    var shots := FieldOr(request, "shots", JArr([]));
    if !HasLength(shots) then Err(None)
    else if PyLen(shots) < 3 then Err(Some(TooFewShots))
    else if !shots.JArr? then Err(None)
    else ImagesFromItems(shots.items, 0, [], repr, service)
  }

  /** The loop over `shots[:3]` appending one record per generated image. */
  method GenerateImages(request: map<string, Json>, repr: Json -> string, service: ImageService)
    returns (r: Result<seq<ImageRecord>, Option<string>>)
    ensures r == ImagesForRequest(request, repr, service)
  {
    var shots := FieldOr(request, "shots", JArr([]));
    if !HasLength(shots) {
      return Err(None);
    }
    if PyLen(shots) < 3 {
      return Err(Some(TooFewShots));
    }
    if !shots.JArr? {
      return Err(None);
    }
    var items := shots.items;
    var images: seq<ImageRecord> := [];
    var i := 0;
    while i < 3
      invariant 0 <= i <= 3
      invariant ImagesFromItems(items, i, images, repr, service) == ImagesForRequest(request, repr, service)
    {
      if !items[i].JObj? {
        return Err(None);
      }
      var shot := items[i].fields;
      var prompt := ShotPrompt(shot, repr);
      var url := service(i, prompt);
      if url.Err? {
        return Err(Some(ImagesFailure + url.error));
      }
      images := images + [ImageRecord(FieldOr(shot, "shot_number", JNum(i + 1)), url.value, prompt)];
      i := i + 1;
    }
    r := Ok(images);
  }

  /** The shots' objects, with `{}` standing in for any other value. */
  function Fields(items: seq<Json>): (r: seq<map<string, Json>>)
    ensures |r| == |items|
    ensures forall k :: 0 <= k < |items| && items[k].JObj? ==> r[k] == items[k].fields
  {
    seq(|items|, k requires 0 <= k < |items| => if items[k].JObj? then items[k].fields else map[])
  }

  /** Over shots that are objects, the route's loop is the object-shot core's. */
  lemma {:induction false} ItemsAgreeWithShots(items: seq<Json>, i: nat, done: seq<ImageRecord>,
                                               repr: Json -> string, service: ImageService)
    requires i <= 3 <= |items|
    requires forall k :: i <= k < 3 ==> items[k].JObj?
    ensures ImagesFromItems(items, i, done, repr, service) == Detailed(ImagesFrom(Fields(items), i, done, repr, service))
    decreases 3 - i
  {
    if i < 3 {
      var shot := items[i].fields;
      assert Fields(items)[i] == shot;
      match service(i, ShotPrompt(shot, repr))
      case Err(e) =>
      case Ok(url) =>
        ItemsAgreeWithShots(items, i + 1, done + [Record(shot, i, url, repr)], repr, service);
    }
  }

  /** A request whose first three shots are objects is answered as `ImagesFor` says. */
  lemma RequestOfObjects(request: map<string, Json>, items: seq<Json>, repr: Json -> string, service: ImageService)
    requires FieldOr(request, "shots", JArr([])) == JArr(items)
    requires forall k :: 0 <= k < |items| && k < 3 ==> items[k].JObj?
    ensures ImagesForRequest(request, repr, service) == Detailed(ImagesFor(Fields(items), repr, service))
  {
    if |items| >= 3 {
      ItemsAgreeWithShots(items, 0, [], repr, service);
    }
  }

  /** A request without "shots" is refused as too few. */
  lemma MissingShotsRefused(request: map<string, Json>, repr: Json -> string, service: ImageService)
    requires "shots" !in request
    ensures ImagesForRequest(request, repr, service) == Err(Some(TooFewShots))
  {
  }

  /** "shots" that is not a list never yields images: it is refused as too few exactly when
    * its `len` is defined and below three, and is a Python error otherwise. */
  lemma NonListShotsFail(request: map<string, Json>, repr: Json -> string, service: ImageService)
    requires !FieldOr(request, "shots", JArr([])).JArr?
    ensures ImagesForRequest(request, repr, service).Err?
    ensures ImagesForRequest(request, repr, service) == Err(Some(TooFewShots)) <==>
      (HasLength(FieldOr(request, "shots", JArr([]))) && PyLen(FieldOr(request, "shots", JArr([]))) < 3)
  {
  }

  /** A non-object shot among the first three, reached after every earlier call succeeded, is a
    * Python error. */
  lemma {:induction false} NonObjectShotFailsFrom(items: seq<Json>, i: nat, k: nat, done: seq<ImageRecord>,
                                                  repr: Json -> string, service: ImageService)
    requires i <= k < 3 <= |items| && !items[k].JObj?
    requires forall j :: i <= j < k ==> items[j].JObj? && service(j, ShotPrompt(items[j].fields, repr)).Ok?
    ensures ImagesFromItems(items, i, done, repr, service) == Err(None)
    decreases k - i
  {
    if i < k {
      var url := service(i, ShotPrompt(items[i].fields, repr)).value;
      NonObjectShotFailsFrom(items, i + 1, k, done + [Record(items[i].fields, i, url, repr)], repr, service);
    }
  }

  lemma NonObjectShotFails(request: map<string, Json>, items: seq<Json>, k: nat, repr: Json -> string, service: ImageService)
    requires FieldOr(request, "shots", JArr([])) == JArr(items)
    requires k < 3 <= |items| && !items[k].JObj?
    requires forall j :: 0 <= j < k ==> items[j].JObj? && service(j, ShotPrompt(items[j].fields, repr)).Ok?
    ensures ImagesForRequest(request, repr, service) == Err(None)
  {
    NonObjectShotFailsFrom(items, 0, k, [], repr, service);
  }

  /** The calls from `i` on all succeed. */
  predicate CallsSucceedFrom(shots: seq<map<string, Json>>, i: nat, repr: Json -> string, service: ImageService)
    requires i <= 3 <= |shots|
  {
    forall k :: i <= k < 3 ==> service(k, ShotPrompt(shots[k], repr)).Ok?
  }

  lemma {:induction false} ImagesFromExact(shots: seq<map<string, Json>>, i: nat, done: seq<ImageRecord>,
                                           repr: Json -> string, service: ImageService)
    requires i <= 3 <= |shots| && |done| == i
    ensures ImagesFrom(shots, i, done, repr, service).Ok? <==> CallsSucceedFrom(shots, i, repr, service)
    ensures ImagesFrom(shots, i, done, repr, service).Ok? ==>
      var images := ImagesFrom(shots, i, done, repr, service).value;
      |images| == 3 && images[..i] == done &&
      forall k :: i <= k < 3 ==>
        images[k] == Record(shots[k], k, service(k, ShotPrompt(shots[k], repr)).value, repr)
    decreases 3 - i
  {
    if i < 3 {
      var s := service(i, ShotPrompt(shots[i], repr));
      if s.Ok? {
        var next := done + [Record(shots[i], i, s.value, repr)];
        ImagesFromExact(shots, i + 1, next, repr, service);
        if ImagesFrom(shots, i, done, repr, service).Ok? {
          var images := ImagesFrom(shots, i, done, repr, service).value;
          assert images[..i + 1] == next;
          assert images[..i] == next[..i];
        }
      }
    }
  }

  /**
   * Fewer than three shots is refused with the fixed message; otherwise the answer succeeds
   * exactly when all three image calls do, and then holds one record per shot of the first
   * three, in order, with the shot's own number or its position plus one.
   */
  lemma ImagesExact(shots: seq<map<string, Json>>, repr: Json -> string, service: ImageService)
    ensures |shots| < 3 ==> ImagesFor(shots, repr, service) == Err(TooFewShots)
    ensures |shots| >= 3 ==>
      (ImagesFor(shots, repr, service).Ok? <==>
        forall k :: 0 <= k < 3 ==> service(k, ShotPrompt(shots[k], repr)).Ok?)
    ensures ImagesFor(shots, repr, service).Ok? ==>
      var images := ImagesFor(shots, repr, service).value;
      |images| == 3 &&
      forall k :: 0 <= k < 3 ==>
        images[k].prompt == ShotPrompt(shots[k], repr) &&
        images[k].imageUrl == service(k, ShotPrompt(shots[k], repr)).value &&
        images[k].shotNumber == (if "shot_number" in shots[k] then shots[k]["shot_number"] else JNum(k + 1))
  {
    if |shots| >= 3 {
      ImagesFromExact(shots, 0, [], repr, service);
    }
  }

  /** Shots after the third play no part in the answer. */
  lemma {:induction false} ImagesIgnoreLaterShots(shots: seq<map<string, Json>>, more: seq<map<string, Json>>,
                                                  repr: Json -> string, service: ImageService)
    requires |shots| >= 3
    ensures ImagesFor(shots + more, repr, service) == ImagesFor(shots, repr, service)
  {
    forall i: nat, done | i <= 3
      ensures ImagesFrom(shots + more, i, done, repr, service) == ImagesFrom(shots, i, done, repr, service)
    {
      ImagesFromPrefix(shots, more, i, done, repr, service);
    }
  }

  lemma {:induction false} ImagesFromPrefix(shots: seq<map<string, Json>>, more: seq<map<string, Json>>, i: nat,
                                            done: seq<ImageRecord>, repr: Json -> string, service: ImageService)
    requires i <= 3 <= |shots|
    ensures ImagesFrom(shots + more, i, done, repr, service) == ImagesFrom(shots, i, done, repr, service)
    decreases 3 - i
  {
    if i < 3 {
      assert (shots + more)[i] == shots[i];
      var s := service(i, ShotPrompt(shots[i], repr));
      if s.Ok? {
        ImagesFromPrefix(shots, more, i + 1, done + [Record(shots[i], i, s.value, repr)], repr, service);
      }
    }
  }

  /** A shot without description, composition or mood still yields a prompt: two spaces. */
  lemma EmptyShotPrompt(repr: Json -> string)
    ensures ShotPrompt(map[], repr) == "  "
  {
  }

  // ---------------------------------------------------------------- POST /generate-video

  /** The video service request: the two frames and the prompt. */
  datatype VideoCall = VideoCall(frames: seq<Json>, prompt: Json)

  const VideoFailure := "视频生成失败: "
  const TooFewImages := VideoFailure + "至少需要2张图片生成视频"
  const DefaultVideoPrompt := "让画面动起来，展现分镜内容"

  /**
   * The frames and prompt `POST /generate-video` sends for its request body. `Err(None)` is a
   * Python error whose text is not modelled: `len` of a number, boolean or null, or `images[0]`
   * on an object.
   */
  function VideoCallFor(request: map<string, Json>): (r: Result<VideoCall, Option<string>>)
    ensures r.Ok? ==> |r.value.frames| == 2
    ensures r.Ok? ==> r.value.prompt == FieldOr(request, "prompt", JStr(DefaultVideoPrompt))
  {
    var images := FieldOr(request, "images", JArr([]));
    var prompt := FieldOr(request, "prompt", JStr(DefaultVideoPrompt));
    match images
    case JArr(items) =>
      if |items| < 2 then Err(Some(TooFewImages))
      else Ok(VideoCall([items[0], items[|items| - 1]], prompt))
    case JStr(s) =>
      if |s| < 2 then Err(Some(TooFewImages))
      else Ok(VideoCall([JStr([s[0]]), JStr([s[|s| - 1]])], prompt))
    case JObj(m) =>
      if |m| < 2 then Err(Some(TooFewImages)) else Err(None)
    case _ => Err(None)
  }

  /** For a list of images: fewer than two is refused with the fixed message, otherwise the
    * frames are the first and the last image; the prompt defaults only when absent. */
  lemma VideoFramesFirstLast(request: map<string, Json>, items: seq<Json>)
    requires "images" in request && request["images"] == JArr(items)
    ensures |items| < 2 <==> VideoCallFor(request) == Err(Some(TooFewImages))
    ensures |items| >= 2 ==> VideoCallFor(request).Ok?
    ensures |items| >= 2 ==> VideoCallFor(request).value.frames == [items[0], items[|items| - 1]]
    ensures |items| >= 2 && "prompt" !in request ==>
      VideoCallFor(request).value.prompt == JStr(DefaultVideoPrompt)
  {
  }

  /** A body without "images" is refused as too few images. */
  lemma NoImagesRefused(request: map<string, Json>)
    requires "images" !in request
    ensures VideoCallFor(request) == Err(Some(TooFewImages))
  {
  }

  /** With exactly two images both are sent, in order. */
  lemma TwoImagesBothSent(request: map<string, Json>, a: Json, b: Json)
    requires "images" in request && request["images"] == JArr([a, b])
    ensures VideoCallFor(request).Ok? && VideoCallFor(request).value.frames == [a, b]
  {
  }

  // ---------------------------------------------------------------- POST /upload-video

  const AllowedVideoExtensions := [".mp4", ".mov", ".avi", ".mkv", ".webm"]

  /** A stored upload: the generated name keeps the lower-cased extension. */
  datatype StoredVideo = StoredVideo(fileUrl: string, originalName: string)

  const VideoUploadDir := "http://localhost:8000/uploads/storyboard/videos/"

  /** What `POST /upload-video` answers for `filename`, with `uuid` as the fresh name. */
  function UploadVideo(filename: string, uuid: string): (r: Result<StoredVideo, string>)
    ensures r.Ok? <==> Lower(SplitExt(filename)) in AllowedVideoExtensions
    ensures r.Ok? ==> r.value.originalName == filename
    ensures r.Ok? ==> exists x :: x in AllowedVideoExtensions && r.value.fileUrl == VideoUploadDir + uuid + x
    ensures r.Ok? ==> r.value.fileUrl == VideoUploadDir + uuid + Lower(SplitExt(filename))
  {
    var ext := Lower(SplitExt(filename));
    if ext !in AllowedVideoExtensions then
      Err("视频上传失败: 不支持的文件格式。支持的格式: " + Join(AllowedVideoExtensions, ", "))
    else Ok(StoredVideo(VideoUploadDir + uuid + ext, filename))
  }

  /** An upper-case extension is accepted. */
  lemma UpperCaseExtensionAccepted(uuid: string)
    ensures UploadVideo("clip.MP4", uuid).Ok?
  {
    assert LastIndexOf("clip", '/') == -1 && "clip"[0] != '.';
    SplitExtOfNamed("clip", "MP4");
    assert "clip" + "." + "MP4" == "clip.MP4";
    assert Lower(".MP4") == ".mp4";
  }

  /** A named file `base.e` with an allowed extension is stored under the fresh name followed by
    * its own extension, lower-cased, and keeps its original name. */
  lemma StoredNameKeepsExtension(base: string, e: string, uuid: string)
    requires '.' !in e && '/' !in e
    requires exists k :: LastIndexOf(base, '/') < k < |base| && base[k] != '.'
    requires Lower("." + e) in AllowedVideoExtensions
    ensures UploadVideo(base + "." + e, uuid) == Ok(StoredVideo(VideoUploadDir + uuid + Lower("." + e), base + "." + e))
  {
    SplitExtOfNamed(base, e);
  }

  /** A hidden file named ".mp4" has no extension and is refused. */
  lemma HiddenFileRefused(uuid: string)
    ensures UploadVideo(".mp4", uuid).Err?
  {
    assert LastIndexOf(".mp4", '/') == -1;
    var s := ".mp4";
    assert s[0] == '.' && s[1] != '.' && s[2] != '.' && s[3] != '.';
    assert LastIndexOf(s, '.') == 0;
    assert SplitExt(".mp4") == "";
  }

  /** Only the last extension counts. */
  lemma DoubleExtensionRefused(uuid: string)
    ensures UploadVideo("clip.mp4.zip", uuid).Err?
  {
    assert LastIndexOf("clip.mp4", '/') == -1 && "clip.mp4"[0] != '.';
    SplitExtOfNamed("clip.mp4", "zip");
    assert "clip.mp4" + "." + "zip" == "clip.mp4.zip";
    assert Lower(".zip") == ".zip";
  }

  // ---------------------------------------------------------------- POST /analyze, /analyze-video

  const ReferenceAnalysisTypes := {"composition", "lighting", "color", "style"}
  const VideoAnalysisFocuses := {"storyboard", "cinematography", "editing"}
  const DefaultReferencePrompt := "请全面分析这张图片的视觉特征"
  const DefaultVideoAnalysisPrompt := "请全面分析这个视频的制作技巧"
  const FocusMarker := "\n\n特别关注："

  /** `table.get(key, default)`, then the description after the focus marker when it is non-empty. */
  function AnalysisPrompt(table: map<string, string>, key: string, default: string, description: Option<string>): (r: string)
    ensures StartsWith(r, if key in table then table[key] else default)
    ensures description.Some? && description.value != "" ==>
      r == (if key in table then table[key] else default) + FocusMarker + description.value
    ensures !(description.Some? && description.value != "") ==>
      r == (if key in table then table[key] else default)
  {
    var base := if key in table then table[key] else default;
    var r := if description.Some? && description.value != "" then base + FocusMarker + description.value else base;
    StartsWithAppend(base, if description.Some? && description.value != "" then FocusMarker + description.value else "");
    assert base + "" == base;
    assert base + FocusMarker + description.GetOr("") == base + (FocusMarker + description.GetOr(""));
    r
  }

  /** `POST /analyze`: the prompt sent with the reference image. */
  function ReferencePrompt(table: map<string, string>, analysisType: string, description: Option<string>): string
  {
    AnalysisPrompt(table, analysisType, DefaultReferencePrompt, description)
  }

  /** `POST /analyze-video`: a missing or empty URL is refused before any prompt is built. */
  function VideoAnalysisPromptFor(table: map<string, string>, videoUrl: Option<string>, focus: string,
                                  description: Option<string>): (r: Result<string, string>)
    ensures r.Err? <==> videoUrl.None? || videoUrl.value == ""
    ensures r.Err? ==> r.error == "视频分析失败: 视频URL不能为空"
  {
    if videoUrl.None? || videoUrl.value == "" then Err("视频分析失败: 视频URL不能为空")
    else Ok(AnalysisPrompt(table, focus, DefaultVideoAnalysisPrompt, description))
  }

  /** An unknown type or focus falls back to the fixed prompt, a known one uses its table text,
    * and a description always ends the prompt. */
  lemma PromptSelection(table: map<string, string>, key: string, description: string)
    requires description != ""
    ensures key !in table ==> StartsWith(ReferencePrompt(table, key, Some(description)), DefaultReferencePrompt)
    ensures key in table ==> StartsWith(ReferencePrompt(table, key, None), table[key])
    ensures EndsWith(ReferencePrompt(table, key, Some(description)), FocusMarker + description)
  {
    var base := if key in table then table[key] else DefaultReferencePrompt;
    assert base + FocusMarker + description == base + (FocusMarker + description);
    EndsWithAppend(base, FocusMarker + description);
  }

  /** With the route's own tables, keyed by exactly the four analysis types and the three
    * focuses: a key among them selects its table text, any other key the general prompt, and
    * the request defaults (`composition`, `storyboard`) are among them. */
  lemma RouteTables(types: map<string, string>, focuses: map<string, string>, key: string, url: string,
                    description: Option<string>)
    requires types.Keys == ReferenceAnalysisTypes && focuses.Keys == VideoAnalysisFocuses && url != ""
    ensures StartsWith(ReferencePrompt(types, key, description),
                       if key in ReferenceAnalysisTypes then types[key] else DefaultReferencePrompt)
    ensures VideoAnalysisPromptFor(focuses, Some(url), key, description).Ok?
    ensures StartsWith(VideoAnalysisPromptFor(focuses, Some(url), key, description).value,
                       if key in VideoAnalysisFocuses then focuses[key] else DefaultVideoAnalysisPrompt)
    ensures "composition" in ReferenceAnalysisTypes && "storyboard" in VideoAnalysisFocuses
  {
  }
}

/** The lesson items page (LessonsClientPage.tsx): it loads the selected
    lesson into a form and saves the form as one multipart request. The
    form registers only the intro, the video and its placeholder, the
    description, and each item image with its description; the request
    also reads a name, an order, a duration and each image's alt text,
    which therefore always go out with their defaults. */
module LessonsPage {
  import opened JsValues
  import opened Text
  import opened CourseSteps

  /** The form's values: its plain fields and its two item images. */
  datatype LessonFormValues = LessonFormValues(fields: Record, itemImages: seq<Record>)

  const BlankItem: Record := map["image" := Null, "description" := Str(""), "previewUrl" := Str("")]

  /** `defaultValues` of `useForm`. */
  const DefaultValues := LessonFormValues(
    map["intro" := Str(""), "video" := Null, "videoPlaceholder" := Null, "description" := Str(""),
        "videoPreview" := Str(""), "videoPlaceholderPreview" := Str(""), "type" := Str("Video")],
    [BlankItem, BlankItem])

  /** `ItemImages[${index}].${field}` */
  function ItemKey(index: nat, field: string): string {
    "ItemImages[" + DigitString(index) + "]." + field
  }

  /** Different items, or different fields of one item, never share a key. */
  lemma ItemKeysDistinct(i: nat, f: string, j: nat, g: string)
    ensures ItemKey(i, f) == ItemKey(j, g) ==> i == j && f == g
  {
    var a, b := DigitString(i), DigitString(j);
    var ki, kj := ItemKey(i, f), ItemKey(j, g);
    if |a| < |b| {
      assert ki[11 + |a|] == ']' && IsDigit(kj[11 + |a|]);
    } else if |b| < |a| {
      assert kj[11 + |b|] == ']' && IsDigit(ki[11 + |b|]);
    } else if ki == kj {
      assert a == ki[11..11 + |a|] == kj[11..11 + |b|] == b;
      ParseDigitString(i);
      ParseDigitString(j);
      assert f == ki[13 + |a|..] == kj[13 + |b|..] == g;
    }
  }

  /** The seven parts every save starts with. */
  function HeaderParts(activeLessonId: Option<string>, fields: Record): seq<Part> {
    [Part("LessonId", Str(if Present(activeLessonId) then activeLessonId.value else "")),
     Part("Name", Or(Get(fields, "name"), Str("Untitled Lesson"))),
     Part("Intro", Get(fields, "intro")),
     Part("Order", Str(ToText(Or(Get(fields, "order"), Num(0))))),
     Part("Type", Str(ToText(Or(Get(fields, "type"), Str("Video"))))),
     Part("Description", Get(fields, "description")),
     Part("Duration", Or(Get(fields, "duration"), Str("0")))]
  }

  /** The video and its placeholder, each sent only when it is a picked file. */
  function FileParts(fields: Record): seq<Part> {
    (if Get(fields, "video").File? then [Part("Video", fields["video"])] else []) +
    (if Get(fields, "videoPlaceholder").File? then [Part("VideoPlaceholder", fields["videoPlaceholder"])] else [])
  }

  predicate HasKey(parts: seq<Part>, key: string) {
    exists p :: p in parts && p.key == key
  }

  /** A key is among two runs of parts exactly when it is among one of them. */
  lemma HasKeyAppend(a: seq<Part>, b: seq<Part>, key: string)
    ensures HasKey(a + b, key) <==> HasKey(a, key) || HasKey(b, key)
  {
    if HasKey(a + b, key) {
      var p :| p in a + b && p.key == key;
      assert p in a || p in b;
    }
    if HasKey(a, key) {
      var p :| p in a && p.key == key;
      assert p in a + b;
    }
    if HasKey(b, key) {
      var p :| p in b && p.key == key;
      assert p in a + b;
    }
  }

  /** A key of item `index`. */
  predicate KeyOfItem(key: string, index: nat) {
    key == ItemKey(index, "Image") || key == ItemKey(index, "AltText") || key == ItemKey(index, "Description")
  }

  /** The parts of one item image: its file when one is picked, then its
      alt text and its description, both defaulting to "". */
  function ItemParts(index: nat, item: Record): seq<Part> {
    (if Get(item, "image").File? then [Part(ItemKey(index, "Image"), item["image"])] else []) +
    [Part(ItemKey(index, "AltText"), Or(Get(item, "altText"), Str(""))),
     Part(ItemKey(index, "Description"), Or(Get(item, "description"), Str("")))]
  }

  /** An item's parts all carry its own keys; the image is there exactly
      when it is a file, the alt text and the description always. */
  lemma ItemPartsKeys(index: nat, item: Record)
    ensures forall p :: p in ItemParts(index, item) ==> KeyOfItem(p.key, index)
    ensures HasKey(ItemParts(index, item), ItemKey(index, "Image")) <==> Get(item, "image").File?
    ensures Part(ItemKey(index, "AltText"), Or(Get(item, "altText"), Str(""))) in ItemParts(index, item)
    ensures Part(ItemKey(index, "Description"), Or(Get(item, "description"), Str(""))) in ItemParts(index, item)
  {
    ItemKeysDistinct(index, "AltText", index, "Image");
    ItemKeysDistinct(index, "Description", index, "Image");
  }

  /** `formData.itemImages.forEach(...)` */
  function ItemsParts(items: seq<Record>): seq<Part> {
    if items == [] then []
    else ItemsParts(items[..|items| - 1]) + ItemParts(|items| - 1, items[|items| - 1])
  }

  /** The whole multipart body of a save. */
  function LessonParts(activeLessonId: Option<string>, values: LessonFormValues): seq<Part> {
    HeaderParts(activeLessonId, values.fields) + FileParts(values.fields) + ItemsParts(values.itemImages)
  }

  /** No item's parts use the keys of a later item. */
  lemma {:induction false} NoKeysOfLaterItems(items: seq<Record>, m: nat, g: string)
    requires m >= |items|
    ensures !HasKey(ItemsParts(items), ItemKey(m, g))
  {
    if items != [] {
      var n := |items| - 1;
      NoKeysOfLaterItems(items[..n], m, g);
      ItemPartsKeys(n, items[n]);
      ItemKeysDistinct(n, "Image", m, g);
      ItemKeysDistinct(n, "AltText", m, g);
      ItemKeysDistinct(n, "Description", m, g);
    }
  }

  /** For every item, the body holds an `Image` part exactly when a file is
      picked for it, and always its alt text and description. */
  lemma {:induction false} ItemPartsPerItem(items: seq<Record>, i: nat)
    requires i < |items|
    ensures HasKey(ItemsParts(items), ItemKey(i, "Image")) <==> Get(items[i], "image").File?
    ensures Part(ItemKey(i, "AltText"), Or(Get(items[i], "altText"), Str(""))) in ItemsParts(items)
    ensures Part(ItemKey(i, "Description"), Or(Get(items[i], "description"), Str(""))) in ItemsParts(items)
  {
    var n := |items| - 1;
    var init := items[..n];
    var key := ItemKey(i, "Image");
    assert ItemsParts(items) == ItemsParts(init) + ItemParts(n, items[n]);
    HasKeyAppend(ItemsParts(init), ItemParts(n, items[n]), key);
    ItemPartsKeys(n, items[n]);
    if i == n {
      NoKeysOfLaterItems(init, n, "Image");
    } else {
      ItemPartsPerItem(init, i);
      ItemKeysDistinct(n, "Image", i, "Image");
      ItemKeysDistinct(n, "AltText", i, "Image");
      ItemKeysDistinct(n, "Description", i, "Image");
      assert !HasKey(ItemParts(n, items[n]), key);
    }
  }

  /** The body holds a `Video` part exactly when a video file is picked. */
  lemma VideoPartExactlyForFile(activeLessonId: Option<string>, values: LessonFormValues)
    ensures HasKey(LessonParts(activeLessonId, values), "Video") <==> Get(values.fields, "video").File?
  {
    var header := HeaderParts(activeLessonId, values.fields);
    var files := FileParts(values.fields);
    HasKeyAppend(header + files, ItemsParts(values.itemImages), "Video");
    HasKeyAppend(header, files, "Video");
    ItemKeysStartWithI(values.itemImages);
    HeaderLacksVideo(activeLessonId, values.fields);
  }

  /** None of the seven fixed parts is keyed `Video`. */
  lemma HeaderLacksVideo(activeLessonId: Option<string>, fields: Record)
    ensures !HasKey(HeaderParts(activeLessonId, fields), "Video")
  {
    forall p | p in HeaderParts(activeLessonId, fields)
      ensures p.key != "Video"
    {
    }
  }

  /** The body holds a `VideoPlaceholder` part exactly when a placeholder
      file is picked. */
  lemma VideoPlaceholderPartExactlyForFile(activeLessonId: Option<string>, values: LessonFormValues)
    ensures HasKey(LessonParts(activeLessonId, values), "VideoPlaceholder") <==> Get(values.fields, "videoPlaceholder").File?
  {
    var header := HeaderParts(activeLessonId, values.fields);
    var files := FileParts(values.fields);
    var items := ItemsParts(values.itemImages);
    HasKeyAppend(header + files, items, "VideoPlaceholder");
    HasKeyAppend(header, files, "VideoPlaceholder");
    ItemsLackKey(values.itemImages, "VideoPlaceholder");
    HeaderLacksPlaceholder(activeLessonId, values.fields);
    PlaceholderFilePart(values.fields);
  }

  /** The file parts hold a `VideoPlaceholder` part exactly for a picked file. */
  lemma PlaceholderFilePart(fields: Record)
    ensures HasKey(FileParts(fields), "VideoPlaceholder") <==> Get(fields, "videoPlaceholder").File?
  {
    var parts := FileParts(fields);
    if Get(fields, "videoPlaceholder").File? {
      assert parts[|parts| - 1] == Part("VideoPlaceholder", fields["videoPlaceholder"]);
    } else {
      forall k | 0 <= k < |parts|
        ensures parts[k].key != "VideoPlaceholder"
      {
        assert parts[k].key == "Video";
      }
    }
  }

  /** No item part has a key that does not start with 'I'. */
  lemma ItemsLackKey(items: seq<Record>, key: string)
    requires |key| > 0 && key[0] != 'I'
    ensures !HasKey(ItemsParts(items), key)
  {
    ItemKeysStartWithI(items);
  }

  /** None of the seven fixed parts is keyed `VideoPlaceholder`. */
  lemma HeaderLacksPlaceholder(activeLessonId: Option<string>, fields: Record)
    ensures !HasKey(HeaderParts(activeLessonId, fields), "VideoPlaceholder")
  {
    forall p | p in HeaderParts(activeLessonId, fields)
      ensures p.key != "VideoPlaceholder"
    {
    }
  }

  /** No fixed part and no file part has a key whose second letter is 't'. */
  lemma FixedKeysLackT(activeLessonId: Option<string>, fields: Record, key: string)
    requires |key| > 1 && key[1] == 't'
    ensures !HasKey(HeaderParts(activeLessonId, fields) + FileParts(fields), key)
  {
    HeaderKeysLackT(activeLessonId, fields, key);
    FileKeysLackT(fields, key);
    HasKeyAppend(HeaderParts(activeLessonId, fields), FileParts(fields), key);
  }

  lemma HeaderKeysLackT(activeLessonId: Option<string>, fields: Record, key: string)
    requires |key| > 1 && key[1] == 't'
    ensures !HasKey(HeaderParts(activeLessonId, fields), key)
  {
    var parts := HeaderParts(activeLessonId, fields);
    forall k | 0 <= k < |parts|
      ensures parts[k].key != key
    {
      assert parts[k].key[1] != 't';
    }
  }

  lemma FileKeysLackT(fields: Record, key: string)
    requires |key| > 1 && key[1] == 't'
    ensures !HasKey(FileParts(fields), key)
  {
    var parts := FileParts(fields);
    forall k | 0 <= k < |parts|
      ensures parts[k].key != key
    {
      assert parts[k].key[1] == 'i';
    }
  }

  /** No fixed part and no file part has the key of an item. */
  lemma FixedKeysAreNotItemKeys(activeLessonId: Option<string>, fields: Record, i: nat, f: string)
    ensures !HasKey(HeaderParts(activeLessonId, fields) + FileParts(fields), ItemKey(i, f))
  {
    assert ItemKey(i, f)[1] == 't';
    FixedKeysLackT(activeLessonId, fields, ItemKey(i, f));
  }

  /** The body holds item i's `Image` part exactly when a file is picked
      for that item. */
  lemma ImagePartExactlyForFile(activeLessonId: Option<string>, values: LessonFormValues, i: nat)
    requires i < |values.itemImages|
    ensures HasKey(LessonParts(activeLessonId, values), ItemKey(i, "Image")) <==> Get(values.itemImages[i], "image").File?
  {
    FixedKeysAreNotItemKeys(activeLessonId, values.fields, i, "Image");
    ItemPartsPerItem(values.itemImages, i);
    var fixed := HeaderParts(activeLessonId, values.fields) + FileParts(values.fields);
    assert LessonParts(activeLessonId, values) == fixed + ItemsParts(values.itemImages);
  }

  lemma {:induction false} ItemKeysStartWithI(items: seq<Record>)
    ensures forall p :: p in ItemsParts(items) ==> |p.key| > 0 && p.key[0] == 'I'
  {
    if items != [] {
      var n := |items| - 1;
      ItemKeysStartWithI(items[..n]);
      ItemPartsKeys(n, items[n]);
      ItemKeyStartsWithI(n, "Image");
      ItemKeyStartsWithI(n, "AltText");
      ItemKeyStartsWithI(n, "Description");
      assert ItemsParts(items) == ItemsParts(items[..n]) + ItemParts(n, items[n]);
    }
  }

  lemma ItemKeyStartsWithI(index: nat, field: string)
    ensures |ItemKey(index, field)| > 0 && ItemKey(index, field)[0] == 'I'
  {
  }

  /** The seven fixed parts, appended one by one. */
  method AppendHeaderParts(activeLessonId: Option<string>, fields: Record) returns (form: seq<Part>)
    ensures form == HeaderParts(activeLessonId, fields)
  {
    var header := HeaderParts(activeLessonId, fields);
    form := [];
    form := form + [Part("LessonId", Str(if Present(activeLessonId) then activeLessonId.value else ""))];
    assert form == header[..1];
    form := form + [Part("Name", Or(Get(fields, "name"), Str("Untitled Lesson")))];
    assert form == header[..2];
    form := form + [Part("Intro", Get(fields, "intro"))];
    assert form == header[..3];
    form := form + [Part("Order", Str(ToText(Or(Get(fields, "order"), Num(0)))))];
    assert form == header[..4];
    form := form + [Part("Type", Str(ToText(Or(Get(fields, "type"), Str("Video")))))];
    assert form == header[..5];
    form := form + [Part("Description", Get(fields, "description"))];
    assert form == header[..6];
    form := form + [Part("Duration", Or(Get(fields, "duration"), Str("0")))];
    assert form == header[..7] == header;
  }

  /** One pass of the `forEach` over the item images. */
  method AppendItemParts(before: seq<Part>, index: nat, item: Record) returns (form: seq<Part>)
    ensures form == before + ItemParts(index, item)
  {
    form := before;
    if Get(item, "image").File? {
      form := form + [Part(ItemKey(index, "Image"), item["image"])];
    }
    form := form + [Part(ItemKey(index, "AltText"), Or(Get(item, "altText"), Str("")))];
    form := form + [Part(ItemKey(index, "Description"), Or(Get(item, "description"), Str("")))];
  }

  /** The picked files, appended after the fixed parts. */
  method AppendFileParts(before: seq<Part>, fields: Record) returns (form: seq<Part>)
    ensures form == before + FileParts(fields)
  {
    form := before;
    if Get(fields, "video").File? {
      form := form + [Part("Video", fields["video"])];
    }
    if Get(fields, "videoPlaceholder").File? {
      form := form + [Part("VideoPlaceholder", fields["videoPlaceholder"])];
    }
  }

  /** The parts of the first k + 1 items: those of the first k, then item k's. */
  lemma ItemsPartsStep(items: seq<Record>, k: nat)
    requires k < |items|
    ensures ItemsParts(items[..k + 1]) == ItemsParts(items[..k]) + ItemParts(k, items[k])
  {
    assert items[..k + 1][..k] == items[..k];
  }

  /** `formData.itemImages.forEach(...)`: each item's parts in order. */
  method AppendAllItemParts(before: seq<Part>, items: seq<Record>) returns (form: seq<Part>)
    ensures form == before + ItemsParts(items)
  {
    form := before;
    var index := 0;
    while index < |items|
      invariant index <= |items|
      invariant form == before + ItemsParts(items[..index])
    {
      ItemsPartsStep(items, index);
      form := AppendItemParts(form, index, items[index]);
      index := index + 1;
    }
    assert items[..index] == items;
  }

  /** `onSubmit` builds the body by appending part after part. */
  method BuildLessonFormData(activeLessonId: Option<string>, values: LessonFormValues) returns (form: seq<Part>)
    ensures form == LessonParts(activeLessonId, values)
  {
    form := AppendHeaderParts(activeLessonId, values.fields);
    form := AppendFileParts(form, values.fields);
    form := AppendAllItemParts(form, values.itemImages);
  }

  /** The form fields no input registers stay unset: there is no name,
      order or duration, and no item has an alt text. */
  predicate UnregisteredUnset(values: LessonFormValues) {
    "name" !in values.fields && "order" !in values.fields && "duration" !in values.fields &&
    forall k :: 0 <= k < |values.itemImages| ==> "altText" !in values.itemImages[k]
  }

  /** `String(0)` */
  lemma ZeroText()
    ensures ToText(Num(0)) == "0"
  {
    assert DigitString(0) == "0";
  }

  /** With no name, order or duration in the form, the fixed parts carry
      the defaults "Untitled Lesson", "0" and "0". */
  lemma UnsetHeaderDefaults(activeLessonId: Option<string>, fields: Record)
    requires "name" !in fields && "order" !in fields && "duration" !in fields
    ensures var parts := HeaderParts(activeLessonId, fields);
            parts[1] == Part("Name", Str("Untitled Lesson")) &&
            parts[3] == Part("Order", Str("0")) &&
            parts[6] == Part("Duration", Str("0"))
  {
    ZeroText();
  }

  /** With those fields unset a save sends the defaults: the name
      "Untitled Lesson", the order "0", the duration "0", and "" as the
      alt text of every item. */
  lemma UnsetFieldsSendDefaults(activeLessonId: Option<string>, values: LessonFormValues)
    requires UnregisteredUnset(values)
    ensures var parts := LessonParts(activeLessonId, values);
            parts[1] == Part("Name", Str("Untitled Lesson")) &&
            parts[3] == Part("Order", Str("0")) &&
            parts[6] == Part("Duration", Str("0"))
    ensures forall i :: 0 <= i < |values.itemImages| ==>
              Part(ItemKey(i, "AltText"), Str("")) in LessonParts(activeLessonId, values)
  {
    var header := HeaderParts(activeLessonId, values.fields);
    var rest := FileParts(values.fields) + ItemsParts(values.itemImages);
    UnsetHeaderDefaults(activeLessonId, values.fields);
    assert LessonParts(activeLessonId, values) == header + rest;
    forall i | 0 <= i < |values.itemImages|
      ensures Part(ItemKey(i, "AltText"), Str("")) in LessonParts(activeLessonId, values)
    {
      ItemPartsPerItem(values.itemImages, i);
    }
  }

  /** Saving the untouched defaults sends these seven fixed parts. */
  lemma DefaultFormHeader(activeLessonId: Option<string>)
    ensures HeaderParts(activeLessonId, DefaultValues.fields) ==
            [Part("LessonId", Str(if Present(activeLessonId) then activeLessonId.value else "")),
             Part("Name", Str("Untitled Lesson")), Part("Intro", Str("")), Part("Order", Str("0")),
             Part("Type", Str("Video")), Part("Description", Str("")), Part("Duration", Str("0"))]
  {
    ZeroText();
  }

  /** `data.lesson`, with its item images apart. */
  datatype LoadedLesson = LoadedLesson(fields: Record, itemImages: Option<seq<Record>>)

  /** `${Files_Url}${path}` when the path is truthy, else "". */
  function PreviewUrl(path: Value, filesUrl: string): (url: Value)
    ensures url.Str?
    ensures Truthy(path) ==> url == Str(filesUrl + ToText(path))
    ensures !Truthy(path) ==> url == Str("")
  {
    if Truthy(path) then Str(filesUrl + ToText(path)) else Str("")
  }

  /** Item k of the reset: no file, the loaded description `?? ""`, and the
      loaded image's URL as its preview. */
  function ResetItem(images: Option<seq<Record>>, k: nat, filesUrl: string): (item: Record)
    ensures item.Keys == BlankItem.Keys && item["image"] == Null
  {
    var loaded := if images.Some? && k < |images.value| then images.value[k] else map[];
    map["image" := Null,
        "description" := Coalesce(Get(loaded, "description"), Str("")),
        "previewUrl" := PreviewUrl(Get(loaded, "url"), filesUrl)]
  }

  /** The `reset(...)` after a lesson is loaded: the same fields as the
      defaults, and exactly two item images. */
  function ResetValues(lesson: LoadedLesson, filesUrl: string): (values: LessonFormValues)
    ensures values.fields.Keys == DefaultValues.fields.Keys && |values.itemImages| == 2
  {
    LessonFormValues(
      map["intro" := Coalesce(Get(lesson.fields, "intro"), Str("")),
          "video" := Null,
          "videoPreview" := PreviewUrl(Get(lesson.fields, "video"), filesUrl),
          "videoPlaceholder" := Null,
          "videoPlaceholderPreview" := PreviewUrl(Get(lesson.fields, "videoPlaceholder"), filesUrl),
          "description" := Coalesce(Get(lesson.fields, "description"), Str("")),
          "type" := Coalesce(Get(lesson.fields, "type"), Str("Video"))],
      [ResetItem(lesson.itemImages, 0, filesUrl), ResetItem(lesson.itemImages, 1, filesUrl)])
  }

  /** The reset picks no files, takes the loaded texts with their
      defaults, and shows the stored video as a preview. */
  lemma ResetLoadsTexts(lesson: LoadedLesson, filesUrl: string)
    ensures var values := ResetValues(lesson, filesUrl);
            values.fields["video"] == Null && values.fields["videoPlaceholder"] == Null &&
            values.fields["intro"] == Coalesce(Get(lesson.fields, "intro"), Str("")) &&
            values.fields["description"] == Coalesce(Get(lesson.fields, "description"), Str("")) &&
            values.fields["type"] == Coalesce(Get(lesson.fields, "type"), Str("Video")) &&
            values.fields["videoPreview"] == PreviewUrl(Get(lesson.fields, "video"), filesUrl)
  {
  }

  /** Each of the two reset item images is taken from the loaded one at
      the same position. */
  lemma ResetLoadsItems(lesson: LoadedLesson, filesUrl: string)
    ensures var values := ResetValues(lesson, filesUrl);
            forall k :: 0 <= k < 2 ==> values.itemImages[k] == ResetItem(lesson.itemImages, k, filesUrl)
  {
  }

  /** The `required` rules of the intro, the video and the description. */
  predicate RequiredFieldsFilled(fields: Record) {
    RequiredMet(Get(fields, "intro")) && RequiredMet(Get(fields, "video")) && RequiredMet(Get(fields, "description"))
  }

  /** The reset clears the picked video, which is required: a lesson just
      loaded cannot be saved until a video is picked again. */
  lemma LoadedLessonNeedsNewVideo(lesson: LoadedLesson, filesUrl: string)
    ensures !RequiredFieldsFilled(ResetValues(lesson, filesUrl).fields)
  {
  }

  /** Its body as it stands would carry no file at all. */
  lemma LoadedLessonSendsNoFiles(lesson: LoadedLesson, filesUrl: string, activeLessonId: Option<string>)
    ensures var values := ResetValues(lesson, filesUrl);
            !HasKey(LessonParts(activeLessonId, values), "Video") &&
            !HasKey(LessonParts(activeLessonId, values), "VideoPlaceholder") &&
            forall i :: 0 <= i < 2 ==> !HasKey(LessonParts(activeLessonId, values), ItemKey(i, "Image"))
  {
    var values := ResetValues(lesson, filesUrl);
    ResetLoadsTexts(lesson, filesUrl);
    ResetLoadsItems(lesson, filesUrl);
    VideoPartExactlyForFile(activeLessonId, values);
    VideoPlaceholderPartExactlyForFile(activeLessonId, values);
    forall i | 0 <= i < 2
      ensures !HasKey(LessonParts(activeLessonId, values), ItemKey(i, "Image"))
    {
      ImagePartExactlyForFile(activeLessonId, values, i);
    }
  }

  /** Two saves of the same form values under different lesson ids differ
      only in the leading `LessonId` part, which carries the id. */
  lemma LessonIdOnlyDiffers(a: Option<string>, b: Option<string>, values: LessonFormValues)
    ensures LessonParts(a, values)[1..] == LessonParts(b, values)[1..]
    ensures Present(b) ==> LessonParts(b, values)[0] == Part("LessonId", Str(b.value))
  {
    var ha := HeaderParts(a, values.fields);
    var hb := HeaderParts(b, values.fields);
    var rest := FileParts(values.fields) + ItemsParts(values.itemImages);
    assert LessonParts(a, values) == ha + rest;
    assert LessonParts(b, values) == hb + rest;
    assert ha[1..] == hb[1..];
    assert (ha + rest)[1..] == ha[1..] + rest;
    assert (hb + rest)[1..] == hb[1..] + rest;
  }

  /** What the user and the loader do to the form values. */
  datatype LessonEdit =
    | EditIntro(intro: Value)
    | EditDescription(description: Value)
    | PickVideo(video: Value)
    | PickVideoPlaceholder(placeholder: Value)
    | PickItemImage(index: nat, image: Value)
    | EditItemDescription(index: nat, itemDescription: Value)
    | LoadLesson(lesson: LoadedLesson)

  /** Field `key` of item `index`, when that item exists. */
  function SetItemField(items: seq<Record>, index: nat, key: string, v: Value): (r: seq<Record>)
    ensures |r| == |items|
    ensures forall k :: 0 <= k < |items| && k != index ==> r[k] == items[k]
    ensures index < |items| ==> r[index] == items[index][key := v]
  {
    if index < |items| then items[index := items[index][key := v]] else items
  }

  function ApplyLessonEdit(values: LessonFormValues, edit: LessonEdit, filesUrl: string): LessonFormValues {
    match edit
    case EditIntro(v) => values.(fields := values.fields["intro" := v])
    case EditDescription(v) => values.(fields := values.fields["description" := v])
    case PickVideo(v) => values.(fields := values.fields["video" := v])
    case PickVideoPlaceholder(v) => values.(fields := values.fields["videoPlaceholder" := v])
    case PickItemImage(index, v) => values.(itemImages := SetItemField(values.itemImages, index, "image", v))
    case EditItemDescription(index, v) => values.(itemImages := SetItemField(values.itemImages, index, "description", v))
    case LoadLesson(lesson) => ResetValues(lesson, filesUrl)
  }

  function ApplyLessonEdits(values: LessonFormValues, edits: seq<LessonEdit>, filesUrl: string): LessonFormValues {
    if edits == [] then values
    else ApplyLessonEdit(ApplyLessonEdits(values, edits[..|edits| - 1], filesUrl), edits[|edits| - 1], filesUrl)
  }

  /** Setting another field of an item leaves a field absent from every item absent. */
  lemma SetItemFieldKeepsAbsent(items: seq<Record>, index: nat, key: string, v: Value, absent: string)
    requires key != absent
    requires forall k :: 0 <= k < |items| ==> absent !in items[k]
    ensures forall k :: 0 <= k < |items| ==> absent !in SetItemField(items, index, key, v)[k]
  {
  }

  /** A loaded lesson sets only the default fields, and no alt text. */
  lemma ResetLeavesUnregisteredUnset(lesson: LoadedLesson, filesUrl: string)
    ensures UnregisteredUnset(ResetValues(lesson, filesUrl))
  {
    var r := ResetValues(lesson, filesUrl);
    ResetLoadsItems(lesson, filesUrl);
    assert forall k :: 0 <= k < 2 ==> r.itemImages[k].Keys == BlankItem.Keys;
  }

  lemma EditKeepsUnregisteredUnset(values: LessonFormValues, edit: LessonEdit, filesUrl: string)
    requires UnregisteredUnset(values)
    ensures UnregisteredUnset(ApplyLessonEdit(values, edit, filesUrl))
  {
    match edit
    case LoadLesson(lesson) =>
      ResetLeavesUnregisteredUnset(lesson, filesUrl);
    case PickItemImage(index, v) =>
      SetItemFieldKeepsAbsent(values.itemImages, index, "image", v, "altText");
    case EditItemDescription(index, v) =>
      SetItemFieldKeepsAbsent(values.itemImages, index, "description", v, "altText");
    case _ =>
  }

  /** From the defaults, whatever is typed, picked or loaded, the fields
      no input registers stay unset. */
  lemma {:induction false} EditsKeepUnregisteredUnset(edits: seq<LessonEdit>, filesUrl: string)
    ensures UnregisteredUnset(ApplyLessonEdits(DefaultValues, edits, filesUrl))
  {
    if edits != [] {
      EditsKeepUnregisteredUnset(edits[..|edits| - 1], filesUrl);
      EditKeepsUnregisteredUnset(ApplyLessonEdits(DefaultValues, edits[..|edits| - 1], filesUrl), edits[|edits| - 1], filesUrl);
    }
  }

  /** So every save of the page sends the default name, order and
      duration, and no alt text. */
  lemma EverySaveSendsDefaults(edits: seq<LessonEdit>, filesUrl: string, activeLessonId: Option<string>)
    ensures var values := ApplyLessonEdits(DefaultValues, edits, filesUrl);
            var parts := LessonParts(activeLessonId, values);
            parts[1] == Part("Name", Str("Untitled Lesson")) &&
            parts[3] == Part("Order", Str("0")) &&
            parts[6] == Part("Duration", Str("0")) &&
            forall i :: 0 <= i < |values.itemImages| ==> Part(ItemKey(i, "AltText"), Str("")) in parts
  {
    EditsKeepUnregisteredUnset(edits, filesUrl);
    UnsetFieldsSendDefaults(activeLessonId, ApplyLessonEdits(DefaultValues, edits, filesUrl));
  }

  /** The reply to `GetLesson`: the body's `lesson` (None when missing), a
      reply that is not ok, or a body that cannot be read. */
  datatype LessonReply = LessonFound(lesson: Option<LoadedLesson>) | LessonRejected | LessonUnreadable

  class LessonsClientPage {
    var refetchTrigger: nat
    var activeLessonId: Option<string>
    var isLoadingLesson: bool
    var values: LessonFormValues
    /** `Files_Url` */
    const filesUrl: string

    constructor (filesUrl: string)
      ensures refetchTrigger == 0 && activeLessonId.None? && !isLoadingLesson
      ensures values == DefaultValues && this.filesUrl == filesUrl
    {
      refetchTrigger := 0;
      activeLessonId := None;
      isLoadingLesson := false;
      values := DefaultValues;
      this.filesUrl := filesUrl;
    }

    /** The save button is disabled while submitting and with no lesson. */
    predicate SaveDisabled(isSubmitting: bool)
      reads this
    {
      isSubmitting || !Present(activeLessonId)
    }

    /** `fetchLessonData`: a found lesson resets the form and becomes the
        active one; a failed load reports it (`failed`) and changes nothing
        else; loading always ends. */
    method FetchLessonData(id: string, reply: LessonReply) returns (failed: bool)
      modifies this`values, this`activeLessonId, this`isLoadingLesson
      ensures !isLoadingLesson
      ensures failed <==> !reply.LessonFound?
      ensures reply.LessonFound? && reply.lesson.Some? ==>
                values == ResetValues(reply.lesson.value, filesUrl) && activeLessonId == Some(id)
      ensures !(reply.LessonFound? && reply.lesson.Some?) ==>
                values == old(values) && activeLessonId == old(activeLessonId)
    {
      isLoadingLesson := true;
      failed := !reply.LessonFound?;
      if reply.LessonFound? && reply.lesson.Some? {
        values := ResetValues(reply.lesson.value, filesUrl);
        activeLessonId := Some(id);
      }
      isLoadingLesson := false;
    }

    /** `onLessonClick`: the clicked lesson becomes active before its data
        is fetched, so a failed load leaves the previous form in place under
        the new lesson id. */
    method SelectLesson(id: string, reply: LessonReply) returns (failed: bool)
      modifies this`values, this`activeLessonId, this`isLoadingLesson
      ensures activeLessonId == Some(id) && !isLoadingLesson
      ensures failed <==> !reply.LessonFound?
      ensures reply.LessonFound? && reply.lesson.Some? ==> values == ResetValues(reply.lesson.value, filesUrl)
      ensures !(reply.LessonFound? && reply.lesson.Some?) ==> values == old(values)
    {
      activeLessonId := Some(id);
      failed := FetchLessonData(id, reply);
    }

    /** A user edit to the form. */
    method Edit(edit: LessonEdit)
      requires !edit.LoadLesson?
      modifies this`values
      ensures values == ApplyLessonEdit(old(values), edit, filesUrl)
      ensures UnregisteredUnset(old(values)) ==> UnregisteredUnset(values)
    {
      if UnregisteredUnset(values) {
        EditKeepsUnregisteredUnset(values, edit, filesUrl);
      }
      values := ApplyLessonEdit(values, edit, filesUrl);
    }

    /** `handleSubmit(onSubmit)`. `placeholderRuleMet` is the outcome of the
        placeholder's `required` rule, which depends on whether its uploader
        is on screen; `ok` is whether the upload resolved with `res.ok`.
        A request goes out only when the required fields are filled; the
        list of lessons is refetched exactly after a save succeeds. */
    method OnSubmit(placeholderRuleMet: bool, ok: bool) returns (request: Option<seq<Part>>, saved: bool)
      modifies this`refetchTrigger
      ensures request.Some? <==> RequiredFieldsFilled(values.fields) && placeholderRuleMet
      ensures request.Some? ==> request.value == LessonParts(activeLessonId, values)
      ensures saved <==> request.Some? && ok
      ensures refetchTrigger == old(refetchTrigger) + (if saved then 1 else 0)
    {
      request := None;
      saved := false;
      if !(RequiredFieldsFilled(values.fields) && placeholderRuleMet) {
        return;
      }
      var form := BuildLessonFormData(activeLessonId, values);
      request := Some(form);
      if !ok {
        return;
      }
      saved := true;
      refetchTrigger := refetchTrigger + 1;
    }
  }
}

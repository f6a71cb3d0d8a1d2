/** The admin product form shared by the add page and the edit sheet: the
    form object as a map from keys to JavaScript values, the initial form,
    the validity check and the data submitted with the uploaded images. */
module ProductForm {

  /** The JavaScript values a form field can hold. */
  datatype FieldValue =
    | Text(s: string)
    | Num(x: real)
    | Null
    | Undefined
    | TextList(items: seq<string>)

  /** A form object: its own keys and their values. */
  type FormData = map<string, FieldValue>

  /** The keys `isFormValid` does not look at. */
  const ExcludedKeys: set<string> := {"averageReview", "image", "images"}

  /** The keys `isFormValid` inspects in the initial form. */
  const RequiredKeys: set<string> := {"title", "description", "category", "brand", "price", "salePrice", "totalStock"}

  /** `formData.key` for a key that may be absent. */
  function Get(fd: FormData, key: string): (r: FieldValue)
    ensures key !in fd ==> r == Undefined
    ensures key in fd ==> r == fd[key]
  {
    if key in fd then fd[key] else Undefined
  }

  /** JavaScript truthiness of a field value (arrays are always truthy). */
  predicate TruthyValue(v: FieldValue)
  {
    match v
    case Text(s) => s != ""
    case Num(x) => x != 0.0
    case Null => false
    case Undefined => false
    case TextList(_) => true
  }

  /** `a || b`. */
  function Or(a: FieldValue, b: FieldValue): (r: FieldValue)
    ensures TruthyValue(a) ==> r == a
    ensures !TruthyValue(a) ==> r == b
  {
    if TruthyValue(a) then a else b
  }

  /** `v?.[0]`: the first element of a list, the first character of a
      string, undefined for anything else or an empty one. */
  function FirstOf(v: FieldValue): (r: FieldValue)
    ensures v.TextList? && v.items != [] ==> r == Text(v.items[0])
    ensures v.Text? && v.s != "" ==> r == Text([v.s[0]])
    ensures !(v.TextList? && v.items != []) && !(v.Text? && v.s != "") ==> r == Undefined
  {
    match v
    case TextList(items) => if |items| > 0 then Text(items[0]) else Undefined
    case Text(s) => if |s| > 0 then Text([s[0]]) else Undefined
    case _ => Undefined
  }

  /** `initialFormData`, the same on the add page and the edit sheet. */
  function InitialFormData(): (r: FormData)
    ensures r.Keys == RequiredKeys + {"image", "averageReview"}
    ensures r["image"] == Null && r["averageReview"] == Num(0.0)
    ensures forall k :: k in RequiredKeys ==> r[k] == Text("")
  {
    map["image" := Null, "title" := Text(""), "description" := Text(""), "category" := Text(""),
        "brand" := Text(""), "price" := Text(""), "salePrice" := Text(""), "totalStock" := Text(""),
        "averageReview" := Num(0.0)]
  }

  /** `isFormValid`: every key other than the excluded ones holds a value other than "". */
  predicate IsFormValid(fd: FormData)
  {
    forall k :: k in fd && k !in ExcludedKeys ==> fd[k] != Text("")
  }

  /** The chain `Object.keys(formData).filter(...).map(...).every(...)` over
      the keys in their enumeration order: excluded keys are skipped, and every
      other key must hold something other than "". */
  function KeysAllFilled(fd: FormData, keys: seq<string>): (r: bool)
    requires forall i :: 0 <= i < |keys| ==> keys[i] in fd
    ensures r <==> forall i :: 0 <= i < |keys| && keys[i] !in ExcludedKeys ==> fd[keys[i]] != Text("")
    decreases |keys|
  {
    if keys == [] then true
    else (keys[0] in ExcludedKeys || fd[keys[0]] != Text("")) && KeysAllFilled(fd, keys[1..])
  }

  /** Scanning the form's own keys in any order gives `IsFormValid`. */
  lemma KeyScanIsFormValid(fd: FormData, keys: seq<string>)
    requires forall i :: 0 <= i < |keys| ==> keys[i] in fd
    requires forall k :: k in fd ==> k in keys
    ensures KeysAllFilled(fd, keys) <==> IsFormValid(fd)
  {
    if KeysAllFilled(fd, keys) {
      forall k | k in fd && k !in ExcludedKeys
        ensures fd[k] != Text("")
      {
        var i :| 0 <= i < |keys| && keys[i] == k;
      }
    }
  }

  /** The fields that keep a form invalid. */
  function BlankFields(fd: FormData): (r: set<string>)
    ensures forall k :: k in r <==> k in fd && k !in ExcludedKeys && fd[k] == Text("")
  {
    set k | k in fd && k !in ExcludedKeys && fd[k] == Text("")
  }

  lemma ValidIffNoBlankField(fd: FormData)
    ensures IsFormValid(fd) <==> BlankFields(fd) == {}
  {
    if !IsFormValid(fd) {
      var k :| k in fd && k !in ExcludedKeys && fd[k] == Text("");
      assert k in BlankFields(fd);
    }
  }

  /** The initial form is invalid, and exactly its seven text fields are blank. */
  lemma InitialFormIsInvalid()
    ensures !IsFormValid(InitialFormData())
    ensures BlankFields(InitialFormData()) == RequiredKeys
  {
    var fd := InitialFormData();
    assert fd["title"] == Text("");
    assert BlankFields(fd) == RequiredKeys by {
      forall k | k in BlankFields(fd)
        ensures k in RequiredKeys
      {
      }
    }
  }

  /** Filling each of the seven text fields with something non-blank is
      enough to make the initial form valid. */
  lemma FilledInitialFormIsValid(values: map<string, FieldValue>)
    requires values.Keys == RequiredKeys
    requires forall k :: k in values ==> values[k] != Text("")
    ensures IsFormValid(InitialFormData() + values)
  {
  }

  /** The `image` submitted: the first uploaded URL, else the form's image
      when truthy, else the first of the form's images. */
  function SubmittedImage(fd: FormData, uploadedImageUrls: seq<string>): (r: FieldValue)
    ensures uploadedImageUrls != [] ==> r == Text(uploadedImageUrls[0])
    ensures uploadedImageUrls == [] && TruthyValue(Get(fd, "image")) ==> r == fd["image"]
    ensures uploadedImageUrls == [] && !TruthyValue(Get(fd, "image")) ==> r == FirstOf(Get(fd, "images"))
  {
    if |uploadedImageUrls| > 0 then Text(uploadedImageUrls[0])
    else Or(Get(fd, "image"), FirstOf(Get(fd, "images")))
  }

  /** The `images` submitted: the uploaded URLs, else the form's images when
      truthy, else an empty list. */
  function SubmittedImages(fd: FormData, uploadedImageUrls: seq<string>): (r: FieldValue)
    ensures uploadedImageUrls != [] ==> r == TextList(uploadedImageUrls)
    ensures uploadedImageUrls == [] && TruthyValue(Get(fd, "images")) ==> r == fd["images"]
    ensures uploadedImageUrls == [] && !TruthyValue(Get(fd, "images")) ==> r == TextList([])
  {
    if |uploadedImageUrls| > 0 then TextList(uploadedImageUrls)
    else Or(Get(fd, "images"), TextList([]))
  }

  /** `{...formData, image, images}`: every other field copied unchanged. */
  function SubmissionData(fd: FormData, uploadedImageUrls: seq<string>): (r: FormData)
    ensures r.Keys == fd.Keys + {"image", "images"}
    ensures r["image"] == SubmittedImage(fd, uploadedImageUrls)
    ensures r["images"] == SubmittedImages(fd, uploadedImageUrls)
    ensures forall k :: k in fd && k != "image" && k != "images" ==> r[k] == fd[k]
  {
    fd["image" := SubmittedImage(fd, uploadedImageUrls)]["images" := SubmittedImages(fd, uploadedImageUrls)]
  }

  /** Submission only touches excluded keys, so it keeps the form's validity. */
  lemma SubmissionKeepsValidity(fd: FormData, uploadedImageUrls: seq<string>)
    ensures IsFormValid(SubmissionData(fd, uploadedImageUrls)) <==> IsFormValid(fd)
  {
    var sd := SubmissionData(fd, uploadedImageUrls);
    if IsFormValid(fd) {
      forall k | k in sd && k !in ExcludedKeys
        ensures sd[k] != Text("")
      {
        assert k in fd;
      }
    }
    if IsFormValid(sd) {
      forall k | k in fd && k !in ExcludedKeys
        ensures fd[k] != Text("")
      {
        assert k in sd && sd[k] == fd[k];
      }
    }
  }

  /** The submitted data always carries a list of images, and with uploads an
      image equal to the first of them. */
  lemma SubmittedImagesAreAList(fd: FormData, uploadedImageUrls: seq<string>)
    requires "images" !in fd || fd["images"].TextList? || !TruthyValue(fd["images"])
    ensures SubmissionData(fd, uploadedImageUrls)["images"].TextList?
    ensures uploadedImageUrls != [] ==>
              SubmissionData(fd, uploadedImageUrls)["image"] == FirstOf(SubmissionData(fd, uploadedImageUrls)["images"])
  {
  }
}

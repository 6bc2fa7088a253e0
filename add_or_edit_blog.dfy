/**
 * The add/edit post page: the draft it starts from, the Formik values it
 * keeps (with the hidden `hasFile` flag), the validation schema as a
 * predicate, the two image callbacks it hands to the uploader, and submit.
 */
module AddOrEditBlog {
  import opened Types
  import UrlPattern
  import BlogContext

  const DefaultImage := "https://" + "revenuearchitects" + "." + "com" + "/wp-content/uploads/2017/02/Blog_pic-450x255.png"
  const PendingImage := "https://" + "placeholder" + "." + "image" + "/upload-pending"

  const TitleRequired := "Title is required"
  const TitleTooShort := "Title must be at least 3 characters long"
  const ContentRequired := "Content is required"
  const ImageRequired := "Image is required"
  const CategoryRequired := "Category is required"

  /** The page's `blog` state, from which Formik's initial values are built. */
  datatype Draft = Draft(title: string, content: string, image: string, categoryId: string)

  /** The fields the schema can report an error for. */
  datatype FieldName = Title | Content | Image | CategoryId

  /** The part of the page state the image callbacks write: Formik's values and the page's selectedFile. */
  datatype FormState = FormState(values: FormValues, selectedFile: Option<File>)

  /** A call the uploader made into this page. */
  datatype Callback = ImageSelected(file: Option<File>) | UrlEntered(url: string)

  /** What pressing submit does: either the schema reports errors, or a request is made. */
  datatype SubmitOutcome = Rejected(errors: map<FieldName, string>) | Submitted(completion: BlogContext.Completion)

  /** The draft of a new post. */
  function NewDraft(): Draft {
    Draft("", "", DefaultImage, "")
  }

  /** The draft seeded from the post being edited. */
  function SeedDraft(p: Post): Draft {
    Draft(p.title, p.content, p.image, p.category.id)
  }

  /** Formik's initial values: the draft with `hasFile` off. */
  function InitialValues(d: Draft): FormValues {
    FormValues(d.title, d.content, d.image, d.categoryId, false)
  }

  /** The schema's image test: the hasFile flag, or a non-empty string the URL pattern accepts. */
  predicate ImageAccepted(v: FormValues) {
    v.hasFile || (v.image != "" && UrlPattern.Matches(v.image))
  }

  /** The image test reads only `hasFile` and the regular expression; the emptiness test is subsumed. */
  lemma ImageRuleIff(v: FormValues)
    ensures ImageAccepted(v) <==> v.hasFile || UrlPattern.PatternMatches(v.image)
  {
    UrlPattern.MatchesIff(v.image);
    if UrlPattern.Matches(v.image) {
      UrlPattern.MatchedIsNonEmpty(v.image);
    }
  }

  /** The validation schema: one message per failing field, the first failing test's. */
  function Validate(v: FormValues): (errors: map<FieldName, string>)
    ensures Title in errors <==> |v.title| < 3
    ensures Title in errors ==> errors[Title] == (if v.title == "" then TitleRequired else TitleTooShort)
    ensures Content in errors <==> v.content == ""
    ensures Content in errors ==> errors[Content] == ContentRequired
    ensures Image in errors <==> !ImageAccepted(v)
    ensures Image in errors ==> errors[Image] == ImageRequired
    ensures CategoryId in errors <==> v.categoryId == ""
    ensures CategoryId in errors ==> errors[CategoryId] == CategoryRequired
  {
    var e1: map<FieldName, string> :=
      if v.title == "" then map[Title := TitleRequired]
      else if |v.title| < 3 then map[Title := TitleTooShort]
      else map[];
    var e2 := if v.content == "" then e1[Content := ContentRequired] else e1;
    var e3 := if !ImageAccepted(v) then e2[Image := ImageRequired] else e2;
    if v.categoryId == "" then e3[CategoryId := CategoryRequired] else e3
  }

  predicate IsValid(v: FormValues) {
    Validate(v) == map[]
  }

  /** The schema accepts exactly the values meeting all four rules. */
  lemma IsValidIff(v: FormValues)
    ensures IsValid(v) <==>
      && |v.title| >= 3
      && v.content != ""
      && v.categoryId != ""
      && (v.hasFile || UrlPattern.PatternMatches(v.image))
  {
    ImageRuleIff(v);
    var e := Validate(v);
    if !(|v.title| >= 3 && v.content != "" && v.categoryId != "" && ImageAccepted(v)) {
      assert Title in e || Content in e || CategoryId in e || Image in e;
      assert e != map[];
    }
  }

  /** The default image of a new post passes the image rule. */
  lemma DefaultImageAccepted()
    ensures ImageAccepted(InitialValues(NewDraft()))
  {
    UrlPattern.SchemeHostDotMatches("https://", "revenuearchitects", "com", "/wp-content/uploads/2017/02/Blog_pic-450x255.png");
  }

  /** The placeholder written for a selected file passes the image rule on its own. */
  lemma PendingImageAccepted(v: FormValues)
    requires v.image == PendingImage
    ensures ImageAccepted(v)
  {
    UrlPattern.SchemeHostDotMatches("https://", "placeholder", "image", "/upload-pending");
  }

  /** A new draft fails on title, content and category, but not on its image. */
  lemma NewDraftErrors()
    ensures Validate(InitialValues(NewDraft())).Keys == {Title, Content, CategoryId}
  {
    DefaultImageAccepted();
  }

  /** The effect of handleImageSelected(file): selectedFile, hasFile, and the placeholder image for a file. */
  function AfterImageSelected(s: FormState, file: Option<File>): FormState {
    FormState(
      s.values.(hasFile := file.Some?, image := if file.Some? then PendingImage else s.values.image),
      file)
  }

  /** The effect of handleImageUrlEntered(url): the image becomes url and hasFile goes off; selectedFile stays. */
  function AfterUrlEntered(s: FormState, url: string): FormState {
    FormState(s.values.(image := url, hasFile := false), s.selectedFile)
  }

  /**
   * The uploader reports an accepted file as onImageSelected(file) followed by
   * onUrlEntered(''). Afterwards the file is still selected, so submit would
   * send it, yet hasFile is off and the image is empty, so the schema rejects.
   */
  lemma FileThenEmptyUrlDisagree(s: FormState, f: File)
    ensures var r := AfterUrlEntered(AfterImageSelected(s, Some(f)), "");
      && r.selectedFile == Some(f)
      && !r.values.hasFile
      && r.values.image == ""
      && !ImageAccepted(r.values)
      && Image in Validate(r.values)
  {
  }

  /** In the other order the same two callbacks leave the file accepted by the schema. */
  lemma EmptyUrlThenFileAgree(s: FormState, f: File)
    ensures var r := AfterImageSelected(AfterUrlEntered(s, ""), Some(f));
      && r.selectedFile == Some(f)
      && r.values.hasFile
      && ImageAccepted(r.values)
  {
  }

  /** Clearing the file turns hasFile off but leaves the image value as it was. */
  lemma ClearFileKeepsImage(s: FormState)
    ensures var r := AfterImageSelected(s, None);
      r.selectedFile == None && !r.values.hasFile && r.values.image == s.values.image
  {
  }

  /** The page: the edit-mode state, the `blog` draft, Formik's values and the selected file. */
  class Editor {
    /** The router's location state: the post being edited, if any. */
    const state: Option<Post>
    var blog: Draft
    var isEditMode: bool
    var selectedFile: Option<File>
    var values: FormValues
    /** The callbacks the uploader has made, in order. */
    ghost var calls: seq<Callback>

    ghost predicate Valid()
      reads this
    {
      isEditMode ==> state.Some?
    }

    function Snapshot(): FormState
      reads this
    {
      FormState(values, selectedFile)
    }

    /** The first render: a new-post draft, Formik initialised from it, no file. */
    constructor(state: Option<Post>)
      ensures Valid() && this.state == state
      ensures blog == NewDraft() && !isEditMode && selectedFile == None
      ensures values == InitialValues(NewDraft()) && calls == []
    {
      this.state := state;
      blog := NewDraft();
      isEditMode := false;
      selectedFile := None;
      values := InitialValues(NewDraft());
      calls := [];
    }

    /**
     * The mount effect: with a post in the location state, seed the draft from
     * it and enter edit mode; Formik re-initialises (hasFile off) when the
     * draft changed. The selected file is not touched.
     */
    method Mount()
      requires Valid()
      modifies this
      ensures Valid()
      ensures state.Some? ==> blog == SeedDraft(state.value) && isEditMode
      ensures state.None? ==> blog == old(blog) && isEditMode == old(isEditMode)
      ensures values == (if blog != old(blog) then InitialValues(blog) else old(values))
      ensures selectedFile == old(selectedFile) && calls == old(calls)
    {
      if state.Some? {
        var seeded := SeedDraft(state.value);
        var changed := seeded != blog;
        blog := seeded;
        isEditMode := true;
        if changed {
          values := InitialValues(blog);
        }
      }
    }

    /** handleImageSelected: writes selectedFile, then hasFile, then for a file the placeholder image and hasFile again. */
    method HandleImageSelected(file: Option<File>)
      requires Valid()
      modifies this
      ensures Valid()
      ensures Snapshot() == AfterImageSelected(old(Snapshot()), file)
      ensures calls == old(calls) + [ImageSelected(file)]
      ensures blog == old(blog) && isEditMode == old(isEditMode)
    {
      selectedFile := file;
      values := values.(hasFile := file.Some?);
      if file.Some? {
        values := values.(image := PendingImage);
        values := values.(hasFile := true);
      }
      calls := calls + [ImageSelected(file)];
    }

    /** handleImageUrlEntered: writes the image verbatim, then hasFile off; selectedFile is not touched. */
    method HandleImageUrlEntered(url: string)
      requires Valid()
      modifies this
      ensures Valid()
      ensures Snapshot() == AfterUrlEntered(old(Snapshot()), url)
      ensures calls == old(calls) + [UrlEntered(url)]
      ensures blog == old(blog) && isEditMode == old(isEditMode)
    {
      values := values.(image := url);
      values := values.(hasFile := false);
      calls := calls + [UrlEntered(url)];
    }

    /** Typing in the title input. */
    method EditTitle(title: string)
      requires Valid()
      modifies this
      ensures Valid() && values == old(values).(title := title)
      ensures selectedFile == old(selectedFile) && blog == old(blog) && isEditMode == old(isEditMode) && calls == old(calls)
    {
      values := values.(title := title);
    }

    /** The content editor's change event. */
    method EditContent(content: string)
      requires Valid()
      modifies this
      ensures Valid() && values == old(values).(content := content)
      ensures selectedFile == old(selectedFile) && blog == old(blog) && isEditMode == old(isEditMode) && calls == old(calls)
    {
      values := values.(content := content);
    }

    /** Choosing an option of the category select. */
    method SelectCategory(categoryId: string)
      requires Valid()
      modifies this
      ensures Valid() && values == old(values).(categoryId := categoryId)
      ensures selectedFile == old(selectedFile) && blog == old(blog) && isEditMode == old(isEditMode) && calls == old(calls)
    {
      values := values.(categoryId := categoryId);
    }

    /**
     * Submit: Formik runs the schema and calls handleSubmit only when it
     * passes; handleSubmit creates, or in edit mode updates the post with the
     * seeded id, and hands over selectedFile, never hasFile.
     */
    method Submit(base: string, token: Option<string>, reply: BlogContext.Reply) returns (o: SubmitOutcome)
      requires Valid()
      ensures o.Rejected? <==> !IsValid(values)
      ensures o.Rejected? ==> o.errors == Validate(values)
      ensures o.Submitted? ==> o.completion.request.verb == (if isEditMode then BlogContext.PUT else BlogContext.POST)
      ensures o.Submitted? && !isEditMode ==> o.completion.request.url == base + "/blogs"
      ensures o.Submitted? && isEditMode ==> o.completion.request.url == base + "/blogs/" + state.value.id
      ensures o.Submitted? && selectedFile.Some? ==>
        o.completion.request.body == BlogContext.Multipart(BlogContext.MultipartFields(values, selectedFile.value))
      ensures o.Submitted? && selectedFile.None? ==> o.completion.request.body == BlogContext.Json(values)
      ensures o.Submitted? ==> (o.completion.navigatedTo.Some? <==> reply == BlogContext.Fulfilled)
      ensures o.Submitted? ==> o.completion.request.headers == [
        BlogContext.Header("Authorization", BlogContext.AuthorizationValue(token)),
        BlogContext.Header("Content-Type", if selectedFile.Some? then BlogContext.MultipartType else BlogContext.JsonType) ]
    {
      var errors := Validate(values);
      if errors != map[] {
        o := Rejected(errors);
        return;
      }
      var c;
      if !isEditMode {
        c := BlogContext.CreateBlog(base, values, selectedFile, token, reply);
      } else {
        c := BlogContext.UpdateBlog(base, values, state.value.id, selectedFile, token, reply);
      }
      o := Submitted(c);
    }
  }
}

/**
 * End-to-end runs of the post page with its image uploader: fresh page and
 * uploader objects, a sequence of UI events, and what submit then does.
 */
module Scenarios {
  import opened Types
  import UrlPattern
  import BlogContext
  import AddOrEditBlog
  import ImageUploader

  /** Typing a URL in URL mode, with the other fields filled, submits that URL as JSON with POST /blogs. */
  method UrlEntrySubmitsJson(base: string, title: string, content: string, categoryId: string, url: string,
                             token: Option<string>, reply: BlogContext.Reply)
    returns (o: AddOrEditBlog.SubmitOutcome)
    requires |title| >= 3 && content != "" && categoryId != ""
    requires UrlPattern.Matches(url)
    ensures o.Submitted?
    ensures o.completion.request.verb == BlogContext.POST && o.completion.request.url == base + "/blogs"
    ensures o.completion.request.body == BlogContext.Json(FormValues(title, content, url, categoryId, false))
  {
    var page := new AddOrEditBlog.Editor(None);
    page.Mount();
    var uploader := new ImageUploader.Uploader(page);
    page.EditTitle(title);
    page.EditContent(content);
    page.SelectCategory(categoryId);
    uploader.UrlChange(url);
    UrlPattern.MatchedIsNonEmpty(url);
    o := page.Submit(base, token, reply);
  }

  /** A new post whose image is never touched is sent with the default image URL. */
  method DefaultImageSubmitted(base: string, title: string, content: string, categoryId: string,
                               token: Option<string>, reply: BlogContext.Reply)
    returns (o: AddOrEditBlog.SubmitOutcome)
    requires |title| >= 3 && content != "" && categoryId != ""
    ensures o.Submitted?
    ensures o.completion.request.body ==
      BlogContext.Json(FormValues(title, content, AddOrEditBlog.DefaultImage, categoryId, false))
  {
    var page := new AddOrEditBlog.Editor(None);
    page.Mount();
    var uploader := new ImageUploader.Uploader(page);
    page.EditTitle(title);
    page.EditContent(content);
    page.SelectCategory(categoryId);
    AddOrEditBlog.DefaultImageAccepted();
    o := page.Submit(base, token, reply);
  }

  /**
   * Switching to file mode and dropping an image file with every other field
   * filled (the drop zone is shown only in file mode): the schema rejects
   * the image, although the request submit would build from the same page
   * state carries the file as a multipart upload.
   */
  method DroppedImageIsRejected(base: string, title: string, content: string, categoryId: string, f: File,
                                token: Option<string>, reply: BlogContext.Reply)
    returns (o: AddOrEditBlog.SubmitOutcome, wouldSend: BlogContext.Completion)
    requires |title| >= 3 && content != "" && categoryId != ""
    requires StartsWith(f.mediaType, "image/")
    ensures o.Rejected? && o.errors == map[AddOrEditBlog.Image := AddOrEditBlog.ImageRequired]
    ensures wouldSend.request.body == BlogContext.Multipart(BlogContext.MultipartFields(
      FormValues(title, content, "", categoryId, false), f))
  {
    var page := new AddOrEditBlog.Editor(None);
    page.Mount();
    var uploader := new ImageUploader.Uploader(page);
    page.EditTitle(title);
    page.EditContent(content);
    page.SelectCategory(categoryId);
    uploader.ToggleInput(false);
    uploader.DragOver();
    uploader.Drop([f]);
    o := page.Submit(base, token, reply);
    wouldSend := BlogContext.CreateBlog(base, page.values, page.selectedFile, token, reply);
  }

  /** In file mode, dropping a file that is not an image changes nothing on the page and shows no preview. */
  method NonImageDropIgnored(f: File)
    returns (before: AddOrEditBlog.FormState, after: AddOrEditBlog.FormState, preview: Option<ImageUploader.Handle>)
    requires !StartsWith(f.mediaType, "image/")
    ensures after == before
    ensures preview == None
  {
    var page := new AddOrEditBlog.Editor(None);
    page.Mount();
    var uploader := new ImageUploader.Uploader(page);
    uploader.ToggleInput(false);
    before := page.Snapshot();
    uploader.DragOver();
    uploader.Drop([f]);
    after := page.Snapshot();
    preview := uploader.previewUrl;
  }

  /**
   * Switching to file mode, picking a file and switching back to URL mode:
   * the URL input and the form's image are both empty, the file is gone, and
   * the schema rejects the image, so nothing is sent.
   */
  method PickThenUrlModeIsRejected(base: string, f: File, token: Option<string>, reply: BlogContext.Reply)
    returns (o: AddOrEditBlog.SubmitOutcome, shown: string, formImage: string)
    ensures o.Rejected? && AddOrEditBlog.Image in o.errors
    ensures shown == "" && formImage == ""
  {
    var page := new AddOrEditBlog.Editor(None);
    page.Mount();
    var uploader := new ImageUploader.Uploader(page);
    uploader.ToggleInput(false);
    uploader.PickFiles([f]);
    uploader.ToggleInput(true);
    o := page.Submit(base, token, reply);
    shown := uploader.imageUrl;
    formImage := page.values.image;
  }

  /**
   * Editing a stored post and submitting without touching the image: the
   * uploader shows the stored URL and the post is sent back as JSON with
   * PUT /blogs/{id}.
   */
  method EditKeepsStoredUrl(base: string, p: Post, token: Option<string>, reply: BlogContext.Reply)
    returns (o: AddOrEditBlog.SubmitOutcome, shown: string)
    requires |p.title| >= 3 && p.content != "" && p.category.id != ""
    requires UrlPattern.Matches(p.image)
    ensures o.Submitted?
    ensures o.completion.request.verb == BlogContext.PUT
    ensures o.completion.request.url == base + "/blogs/" + p.id
    ensures o.completion.request.body == BlogContext.Json(FormValues(p.title, p.content, p.image, p.category.id, false))
    ensures shown == p.image
  {
    var page := new AddOrEditBlog.Editor(Some(p));
    var uploader := new ImageUploader.Uploader(page);
    page.Mount();
    uploader.SyncInitialImageUrl();
    UrlPattern.MatchedIsNonEmpty(p.image);
    o := page.Submit(base, token, reply);
    shown := uploader.imageUrl;
  }

  /** Replacing a picked file revokes the first preview URL once and leaves only the new one live. */
  method ReplacedPreviewReleased(f1: File, f2: File)
    returns (live: set<ImageUploader.Handle>, revoked: set<ImageUploader.Handle>, preview: Option<ImageUploader.Handle>)
    requires f1 != f2
    ensures preview == Some(1) && live == {1} && revoked == {0}
  {
    var page := new AddOrEditBlog.Editor(None);
    page.Mount();
    var uploader := new ImageUploader.Uploader(page);
    uploader.ToggleInput(false);
    uploader.PickFiles([f1]);
    assert uploader.previewUrl == Some(0) && uploader.live == {0} && uploader.revoked == {};
    uploader.PickFiles([f2]);
    live, revoked, preview := uploader.live, uploader.revoked, uploader.previewUrl;
  }
}

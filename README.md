# Blog post image selection and submission, modelled in Dafny

This project models the authoring path of the blog front end:
- The **image uploader** (`ImageUploader.tsx`). It has a URL mode and a file mode. A file comes in by drop or by the file picker, and a selected file gets a preview object URL. Every accepted file, URL edit and mode toggle is reported to the page through `onImageSelected`/`onUrlEntered`; the `initialImageUrl` effect changes the URL text and the mode without a callback, and drag state changes reach no callback either.
- The **add/edit post page** (`AddOrEditBlog.tsx`). It holds the `blog` draft, Formik's values with the hidden `hasFile` flag, the page's own `selectedFile`, the yup validation schema and `handleSubmit`.
- The **blog API client** (`BlogContext.tsx`), as request descriptors. These say which method, URL, headers and body `createBlog`, `updateBlog`, `getBlog` and `getBlogs` send. They also say what the provider state and the navigation become once the reply arrives.

Modules, one per source file plus three helpers:
- `ImageUploader` (`image_uploader.dfy`): class `Uploader`, one method per UI event. The two callbacks are calls into the page object `parent`, so each event's contract states the page's new state. A registry of live and revoked object URLs models `URL.createObjectURL`/`revokeObjectURL`.
- `AddOrEditBlog` (`add_or_edit_blog.dfy`): class `Editor`. The image handlers write Formik fields one after another, last write wins. Their effect is specified by the pure functions `AfterImageSelected` and `AfterUrlEntered`. `Validate` is the schema as a pure function of the values.
- `BlogContext` (`blog_context.dfy`): the request descriptors, a `FormData` class built by `append`, and class `Provider` for `currentBlog`, `blogs`, `paginationData` and `page`.
- Helpers:
  - `UrlPattern`: the regular expression `/^https?:\/\/.+\..+/` as an executable matcher, proved equal to a declarative reading.
  - `Decimal`: `${page}` for integer pages of magnitude below 10^21, with a parser as its inverse.
  - `Types`: the shared datatypes.
- `Scenarios` (`scenarios.dfy`): end-to-end runs over fresh page and uploader objects.

What the model exposes about the code:
- The uploader reports every accepted file as `onImageSelected(file)` followed by `onUrlEntered('')`. The second handler turns `hasFile` off and empties the image value. Afterwards the page's `selectedFile` still holds the file.
- So the schema rejects the image, although `handleSubmit` would send the file: it chooses the multipart encoding from `selectedFile`, not from `hasFile`. See `AddOrEditBlog.FileThenEmptyUrlDisagree` and `Scenarios.DroppedImageIsRejected`. The model keeps this behaviour as written.
- Where the code's behaviour is surprising, the model follows the code (the comments at frontend/src/pages/AddOrEditBlog.tsx:106 and 226 say `hasFile` tracks whether a file is selected):
  - `hasFile` is a separately written field, not derived from the image source.
  - The file picker accepts files of any type, while a drop accepts only `image/` types.
  - Switching to URL mode keeps the old URL text.
  - `createBlog`/`updateBlog` send `Authorization: Token undefined` when there is no token, instead of refusing.
  - A JSON body is the whole Formik values object, `hasFile` included.

## Model

| member | source | states |
|---|---|---|
| `UrlPattern.LineEnd` | frontend/src/pages/AddOrEditBlog.tsx:72 | the first line terminator's index (or the length): every earlier character is matched by the regex `.`, and the one at that index is not |
| `UrlPattern.TailMatchesIff` | frontend/src/pages/AddOrEditBlog.tsx:72 | the scanner for `.+\..+` accepts exactly the strings where some dot has a non-line-terminator before and after it on the first line (both directions) |
| `UrlPattern.MatchesIff` | frontend/src/pages/AddOrEditBlog.tsx:72 | the executable matcher answers exactly as `/^https?:\/\/.+\..+/.test` does: `http://` or `https://` then `.+\..+`, with no end anchor |
| `UrlPattern.SchemeHostDotMatches` | frontend/src/pages/AddOrEditBlog.tsx:72 | any scheme + host label + "." + label + path URL, with no line terminator in the labels, passes the pattern |
| `UrlPattern.MatchedIsNonEmpty` | frontend/src/pages/AddOrEditBlog.tsx:70-72 | a string the pattern accepts is non-empty (at least 10 characters), so the `!!value` test adds nothing |
| `Decimal.NatToString` | frontend/src/context/BlogContext.tsx:86 | the decimal text of the page number is non-empty, made of digits, and has no leading zero |
| `Decimal.IntToString` | frontend/src/context/BlogContext.tsx:86 | `${page}` starts with a minus sign exactly when the page is negative, and no leading zero follows the sign |
| `Decimal.ParseNatToString` | frontend/src/context/BlogContext.tsx:86 | reading back the digits of a natural number gives the number |
| `Decimal.IntToStringRoundTrip` | frontend/src/context/BlogContext.tsx:86 | reading back `${page}` gives the page number |
| `BlogContext.FormDataGetIsFirst` | frontend/src/context/BlogContext.tsx:175-179 | reading a field back from the appended entries yields the entry at the first index carrying that name |
| `BlogContext.MultipartReadBack` | frontend/src/context/BlogContext.tsx:175-179 | the multipart body has exactly four entries, title, content and categoryId as text and the file under "image" as the only file entry; it carries neither hasFile nor the image URL |
| `BlogContext.FormData.constructor` | frontend/src/context/BlogContext.tsx:175 | a new FormData has no entries |
| `BlogContext.FormData.Append` | frontend/src/context/BlogContext.tsx:176-179 | append adds one entry at the end and keeps the earlier ones in order |
| `BlogContext.EncodeMultipart` | frontend/src/context/BlogContext.tsx:175-179 | four successive appends give the fixed field list title, content, categoryId, image(file) |
| `BlogContext.SubmissionRequest` | frontend/src/context/BlogContext.tsx:172-204 | multipart iff a file is given (fixed field list, multipart content type), else the form object unchanged as JSON; Authorization is always `Token ` + token |
| `BlogContext.CreateBlog` | frontend/src/context/BlogContext.tsx:162-219 | POST to /blogs, multipart iff a file is passed, else JSON of the form; headers are exactly Authorization (sent with no presence check, reading "Token undefined" when no token is stored) then Content-Type multipart/form-data with a file, application/json without; navigates to "/" iff the request settled successfully |
| `BlogContext.UpdateBlog` | frontend/src/context/BlogContext.tsx:295-336 | the same encoding rule, header list and navigation as create, with PUT to /blogs/{id} |
| `BlogContext.MissingTokenStillSent` | frontend/src/context/BlogContext.tsx:167-203 | `Token ${token}` renders as "Token undefined" for a missing token (that create/update still send it is in their own contracts) |
| `BlogContext.GetBlogRequest` | frontend/src/context/BlogContext.tsx:108-129 | a request exists iff the stored token is non-empty; it is a GET of /blogs/{id} with exactly the headers Content-Type JSON then Authorization `Token ` + token; otherwise the error is "Authentication required to view this blog post" |
| `BlogContext.ListUrl` | frontend/src/context/BlogContext.tsx:83-87 | the list URL starts with /blogs/?limit=10 and is exactly that iff the page is 0 (falsy) |
| `BlogContext.ListUrlRoundTrip` | frontend/src/context/BlogContext.tsx:86 | for a non-zero page the URL is /blogs/?limit=10&page= followed by a number text that reads back as the page |
| `BlogContext.Paginate` | frontend/src/context/BlogContext.tsx:91-96 | count, next and previous are copied; totalPages is the least number of 10-post pages holding totalRecords (ceiling division) |
| `BlogContext.Provider.constructor` | frontend/src/context/BlogContext.tsx:64-74 | no current post, no posts, page 1, pagination zeros and false flags |
| `BlogContext.Provider.GetBlogs` | frontend/src/context/BlogContext.tsx:83-105 | GET of the list URL with no headers; a reply replaces the posts and pagination (mapped by Paginate); an error changes nothing |
| `BlogContext.Provider.PageEffect` | frontend/src/context/BlogContext.tsx:76-80 | a fetch happens iff the page is non-zero, and then it names the page |
| `BlogContext.Provider.SetPage` | frontend/src/context/BlogContext.tsx:68-80 | the page becomes p; a fetch happens iff p differs from the old page and is non-zero |
| `BlogContext.Provider.GetBlog` | frontend/src/context/BlogContext.tsx:108-140 | without a non-empty token nothing is sent and currentBlog is unchanged; otherwise the request is GetBlogRequest's and a reply becomes currentBlog |
| `AddOrEditBlog.ImageRuleIff` | frontend/src/pages/AddOrEditBlog.tsx:57-75 | the image test accepts iff hasFile holds or the value matches the URL pattern |
| `AddOrEditBlog.Validate` | frontend/src/pages/AddOrEditBlog.tsx:52-78 | the fields reported and their messages: title iff shorter than 3 ("required" when empty), content iff empty, category iff empty, image iff the image test fails |
| `AddOrEditBlog.IsValidIff` | frontend/src/pages/AddOrEditBlog.tsx:52-78 | the schema passes iff title length ≥ 3, content and category non-empty, and hasFile or a matching URL |
| `AddOrEditBlog.DefaultImageAccepted` | frontend/src/pages/AddOrEditBlog.tsx:21-27 | the default image of a new post passes the image test |
| `AddOrEditBlog.PendingImageAccepted` | frontend/src/pages/AddOrEditBlog.tsx:112 | the upload-pending placeholder passes the image test by itself |
| `AddOrEditBlog.NewDraftErrors` | frontend/src/pages/AddOrEditBlog.tsx:21-50 | a fresh new-post form fails on exactly title, content and category |
| `AddOrEditBlog.FileThenEmptyUrlDisagree` | frontend/src/pages/AddOrEditBlog.tsx:99-125 | after handleImageSelected(file) then handleImageUrlEntered('') the file is still selected but hasFile is off, the image is empty, and the schema reports the image |
| `AddOrEditBlog.EmptyUrlThenFileAgree` | frontend/src/pages/AddOrEditBlog.tsx:99-125 | the same two handlers in the other order leave hasFile on and the image accepted |
| `AddOrEditBlog.ClearFileKeepsImage` | frontend/src/pages/AddOrEditBlog.tsx:99-116 | handleImageSelected(null) clears the file and hasFile but leaves the image value as it was |
| `AddOrEditBlog.Editor.constructor` | frontend/src/pages/AddOrEditBlog.tsx:21-50 | first render: new-post draft with the default image, not in edit mode, no file, Formik values from the draft with hasFile off |
| `AddOrEditBlog.Editor.Mount` | frontend/src/pages/AddOrEditBlog.tsx:32-50 | with a post in the location state the draft is seeded from its title, content, image and category id, edit mode is on, and Formik re-initialises with hasFile off; the selected file is untouched |
| `AddOrEditBlog.Editor.HandleImageSelected` | frontend/src/pages/AddOrEditBlog.tsx:99-116 | selectedFile := file, hasFile := (file present), image := the placeholder for a file and unchanged for null; the call is recorded in the ghost trace `calls` |
| `AddOrEditBlog.Editor.HandleImageUrlEntered` | frontend/src/pages/AddOrEditBlog.tsx:118-125 | image := url verbatim and hasFile := false; selectedFile is untouched; the call is recorded in the ghost trace `calls` |
| `AddOrEditBlog.Editor.EditTitle` | frontend/src/pages/AddOrEditBlog.tsx:141-148 | only the title value changes |
| `AddOrEditBlog.Editor.EditContent` | frontend/src/pages/AddOrEditBlog.tsx:177-184 | only the content value changes |
| `AddOrEditBlog.Editor.SelectCategory` | frontend/src/pages/AddOrEditBlog.tsx:154-166 | only the category value changes |
| `AddOrEditBlog.Editor.Submit` | frontend/src/pages/AddOrEditBlog.tsx:80-96 | rejected with the schema's errors iff validation fails; else POST /blogs, or PUT /blogs/{state._id} in edit mode, with the body chosen from selectedFile (multipart with the file, else JSON of the values), the headers Authorization then the matching Content-Type, and navigation iff the request settled successfully |
| `ImageUploader.DropAndPickDisagreeOnNonImages` | frontend/src/components/ImageUploader.tsx:55-78 | every drop the uploader takes the picker would take too; they differ exactly on a non-empty list whose first file is not `image/` |
| `ImageUploader.Uploader.constructor` | frontend/src/components/ImageUploader.tsx:14-18 | URL mode with the URL text = initialImageUrl, no file, no preview, not dragging, no object URLs |
| `ImageUploader.Uploader.RunPreviewEffect` | frontend/src/components/ImageUploader.tsx:30-43 | the previous object URL is revoked, a file gets one fresh object URL, and no file means no preview; at most one URL is live |
| `ImageUploader.Uploader.SyncInitialImageUrl` | frontend/src/components/ImageUploader.tsx:22-27 | a changed non-empty initialImageUrl replaces the URL text and forces URL mode; the selected file stays |
| `ImageUploader.Uploader.DragOver` | frontend/src/components/ImageUploader.tsx:45-48 | only isDragging changes, to true |
| `ImageUploader.Uploader.DragLeave` | frontend/src/components/ImageUploader.tsx:50-53 | only isDragging changes, to false |
| `ImageUploader.Uploader.TakeFile` | frontend/src/components/ImageUploader.tsx:62-65 | the file is selected, file mode is on, and the page receives onImageSelected(file) then onUrlEntered(''); the preview follows |
| `ImageUploader.Uploader.Drop` | frontend/src/components/ImageUploader.tsx:55-68 | dragging ends; an image first file is taken; anything else leaves the selection, the mode and the page untouched |
| `ImageUploader.Uploader.PickFiles` | frontend/src/components/ImageUploader.tsx:70-78 | the first chosen file is taken whatever its type; an empty choice changes nothing |
| `ImageUploader.Uploader.UrlChange` | frontend/src/components/ImageUploader.tsx:80-84 | the text is stored verbatim and exactly that string reaches onUrlEntered |
| `ImageUploader.Uploader.ToggleInput` | frontend/src/components/ImageUploader.tsx:86-95 | to URL mode clears the file and sends onImageSelected(null), keeping the URL text; to file mode clears the URL text and sends onUrlEntered(''), keeping the file |
| `ImageUploader.Uploader.Unmount` | frontend/src/components/ImageUploader.tsx:39-42 | the cleanup leaves no object URL live, revoking the one on display |
| `Scenarios.UrlEntrySubmitsJson` | frontend/src/components/ImageUploader.tsx:80-84 | a typed matching URL with the other fields filled is sent as JSON with POST /blogs, carrying that URL and hasFile false |
| `Scenarios.DefaultImageSubmitted` | frontend/src/pages/AddOrEditBlog.tsx:21-27 | a new post whose image is never touched is sent with the default image URL |
| `Scenarios.DroppedImageIsRejected` | frontend/src/components/ImageUploader.tsx:55-68 | after switching to file mode and dropping an image file, the only error is "Image is required", though the request built from the same state is a multipart upload of that file |
| `Scenarios.NonImageDropIgnored` | frontend/src/components/ImageUploader.tsx:59-61 | in file mode, a non-image drop leaves the page state unchanged and shows no preview |
| `Scenarios.PickThenUrlModeIsRejected` | frontend/src/components/ImageUploader.tsx:86-95 | file mode, a pick, then URL mode: the URL text and the form image are empty and submit is rejected on the image |
| `Scenarios.EditKeepsStoredUrl` | frontend/src/pages/AddOrEditBlog.tsx:32-50 | editing a stored post without touching the image shows its URL and sends it back unchanged as JSON with PUT /blogs/{id} |
| `Scenarios.ReplacedPreviewReleased` | frontend/src/components/ImageUploader.tsx:30-43 | replacing a picked file revokes the first object URL once and leaves only the new one live |

## Left out

- The network, `localStorage`, JSON parsing, `toast` and `console.log`.
  - The reply to each request is a parameter of the operation.
  - The stored token is an `Option<string>`; a stored token that is not a string is not modelled.
  - The API base URL (an environment value) is a parameter.
  - Toast texts are not modelled, including the create fallback "Failed to create blog post".
- `addComment`, `addLike`, `deleteBlog` and `getCategories`: fixed-URL requests with no decision in them.
- `uploadImage`: a placeholder that always throws and returns null.
- Rendering, the rich-text editor widget, the debug panel and Formik/yup internals.
  - Touched/blur re-validation, `setSubmitting` and validate-on-change are not modelled.
  - Validation runs once, at submit.
  - The drop zone and the file input are rendered only in file mode, and the URL input only in URL mode. The event methods do not require the mode.
- Asynchrony: every request is taken to settle before the next event, and a second submit while one is in flight is not modelled.
- Object URLs are numbered handles from a counter, not strings.
- A file's bytes are not modelled, because the code never reads them. `Math.round(size / 1024)` is display only.
- `AddOrEditBlog.Validate`: counts the title's length in Unicode scalar values. yup counts UTF-16 code units, so a title with characters outside the Basic Multilingual Plane can be judged differently.
- `BlogContext.ListUrl`: the page is an unbounded integer. NaN and fractional page numbers are not modelled. Neither are pages of magnitude 10^21 or more, which a JavaScript template literal prints in exponent form (`${1e21}` is "1e+21"), nor integers above 2^53, which a JavaScript number cannot hold exactly. For such pages `IntToString` and the read-back in `ListUrlRoundTrip` do not describe `${page}`.
- `BlogContext.Paginate`: `totalRecords` is taken to be a non-negative integer.
- `ImageUploader.Uploader.Unmount`: the component is gone afterwards, so its invariant is not re-established.

/**
 * The image selector of the post form: URL entry or file acquisition (drop
 * or file picker), the preview object URL of the selected file, and the two
 * callbacks into the page, onImageSelected and onUrlEntered, which are the
 * page's HandleImageSelected and HandleImageUrlEntered.
 */
module ImageUploader {
  import opened Types
  import AddOrEditBlog

  /** An object URL from URL.createObjectURL; the registry hands out each number once. */
  type Handle = nat

  /** A drop is taken when something was dropped and the first file's type starts with "image/". */
  predicate DropAccepted(files: seq<File>) {
    |files| > 0 && StartsWith(files[0].mediaType, "image/")
  }

  /** The file picker takes its first file whatever its type (`accept` is only a hint to the dialog). */
  predicate PickAccepted(files: seq<File>) {
    |files| > 0
  }

  /** The two acquisition paths disagree exactly on a first file that is not an image. */
  lemma DropAndPickDisagreeOnNonImages(files: seq<File>)
    ensures DropAccepted(files) ==> PickAccepted(files)
    ensures PickAccepted(files) && !DropAccepted(files) <==>
      |files| > 0 && !StartsWith(files[0].mediaType, "image/")
  {
  }

  class Uploader {
    /** The page the callbacks go to. */
    const parent: AddOrEditBlog.Editor
    /** The initialImageUrl prop as the effect last saw it: the page's blog.image. */
    var initialImageUrl: string
    var isDragging: bool
    var selectedFile: Option<File>
    var imageUrl: string
    var useUrlInput: bool
    var previewUrl: Option<Handle>
    /** The object URLs created and not yet revoked. */
    var live: set<Handle>
    /** The object URLs revoked so far. */
    var revoked: set<Handle>
    /** The next object URL the registry will hand out. */
    var nextHandle: Handle

    /** The object URLs held by the preview: at most the one on display, never one revoked. */
    ghost predicate HandlesValid()
      reads this
    {
      && live == (if previewUrl.Some? then {previewUrl.value} else {})
      && live !! revoked
      && (forall h :: h in live ==> h < nextHandle)
      && (forall h :: h in revoked ==> h < nextHandle)
    }

    /** Between events: a preview exists exactly when a file is selected. */
    ghost predicate Valid()
      reads this
    {
      HandlesValid() && (previewUrl.None? <==> selectedFile.None?)
    }

    /**
     * The preview effect ran iff selectedFile changed: then the previous object
     * URL was revoked (once) and a fresh one created for a new file.
     */
    twostate predicate PreviewFollows()
      reads this
    {
      if selectedFile == old(selectedFile) then
        && previewUrl == old(previewUrl) && live == old(live)
        && revoked == old(revoked) && nextHandle == old(nextHandle)
      else
        && revoked == old(revoked) + old(live)
        && previewUrl == (if selectedFile.Some? then Some(old(nextHandle)) else None)
        && nextHandle == old(nextHandle) + (if selectedFile.Some? then 1 else 0)
    }

    /**
     * An accepted file f: selected, file mode on, the URL text kept, and the
     * page told onImageSelected(f) and then onUrlEntered('').
     */
    twostate predicate Accepted(f: File)
      reads this, parent
    {
      && selectedFile == Some(f) && !useUrlInput && imageUrl == old(imageUrl)
      && parent.calls == old(parent.calls) + [AddOrEditBlog.ImageSelected(Some(f)), AddOrEditBlog.UrlEntered("")]
      && parent.Snapshot() ==
           AddOrEditBlog.AfterUrlEntered(AddOrEditBlog.AfterImageSelected(old(parent.Snapshot()), Some(f)), "")
    }

    /** Nothing taken: the selection, the mode, the URL text and the page are as they were. */
    twostate predicate Ignored()
      reads this, parent
    {
      && selectedFile == old(selectedFile) && useUrlInput == old(useUrlInput) && imageUrl == old(imageUrl)
      && parent.calls == old(parent.calls) && parent.Snapshot() == old(parent.Snapshot())
    }

    /** The page's own state that no uploader event writes. */
    twostate predicate PageKept()
      reads parent
    {
      parent.blog == old(parent.blog) && parent.isEditMode == old(parent.isEditMode)
    }

    /** Mounting: URL mode with the initial URL, no file, no preview, not dragging. */
    constructor(parent: AddOrEditBlog.Editor)
      ensures Valid() && this.parent == parent
      ensures initialImageUrl == parent.blog.image && imageUrl == parent.blog.image
      ensures useUrlInput && !isDragging && selectedFile == None && previewUrl == None
      ensures live == {} && revoked == {} && nextHandle == 0
    {
      this.parent := parent;
      initialImageUrl := parent.blog.image;
      isDragging := false;
      selectedFile := None;
      imageUrl := parent.blog.image;
      useUrlInput := true;
      previewUrl := None;
      live := {};
      revoked := {};
      nextHandle := 0;
    }

    /** The preview effect: the previous run's cleanup revokes its URL, then a file gets a fresh one. */
    method RunPreviewEffect()
      requires HandlesValid()
      modifies this
      ensures Valid()
      ensures revoked == old(revoked) + old(live)
      ensures previewUrl == (if selectedFile.Some? then Some(old(nextHandle)) else None)
      ensures nextHandle == old(nextHandle) + (if selectedFile.Some? then 1 else 0)
      ensures selectedFile == old(selectedFile) && imageUrl == old(imageUrl) && useUrlInput == old(useUrlInput)
      ensures isDragging == old(isDragging) && initialImageUrl == old(initialImageUrl)
    {
      if previewUrl.Some? {
        var url := previewUrl.value;
        live := live - {url};
        revoked := revoked + {url};
      }
      if selectedFile.None? {
        previewUrl := None;
      } else {
        var url := nextHandle;
        nextHandle := nextHandle + 1;
        live := live + {url};
        previewUrl := Some(url);
      }
    }

    /** The effect on initialImageUrl: a new non-empty value replaces the URL text and forces URL mode. */
    method SyncInitialImageUrl()
      requires Valid()
      modifies this
      ensures Valid() && PreviewFollows()
      ensures initialImageUrl == parent.blog.image
      ensures old(initialImageUrl) != parent.blog.image && parent.blog.image != "" ==>
        imageUrl == parent.blog.image && useUrlInput
      ensures !(old(initialImageUrl) != parent.blog.image && parent.blog.image != "") ==>
        imageUrl == old(imageUrl) && useUrlInput == old(useUrlInput)
      ensures selectedFile == old(selectedFile) && isDragging == old(isDragging)
    {
      if parent.blog.image != initialImageUrl {
        initialImageUrl := parent.blog.image;
        if initialImageUrl != "" {
          imageUrl := initialImageUrl;
          useUrlInput := true;
        }
      }
    }

    method DragOver()
      requires Valid()
      modifies this
      ensures Valid() && PreviewFollows() && isDragging
      ensures selectedFile == old(selectedFile) && imageUrl == old(imageUrl) && useUrlInput == old(useUrlInput)
      ensures initialImageUrl == old(initialImageUrl)
    {
      isDragging := true;
    }

    method DragLeave()
      requires Valid()
      modifies this
      ensures Valid() && PreviewFollows() && !isDragging
      ensures selectedFile == old(selectedFile) && imageUrl == old(imageUrl) && useUrlInput == old(useUrlInput)
      ensures initialImageUrl == old(initialImageUrl)
    {
      isDragging := false;
    }

    /** Takes file f: the shared tail of a drop and a pick. */
    method TakeFile(f: File)
      requires Valid() && parent.Valid()
      modifies this, parent
      ensures Valid() && PreviewFollows() && parent.Valid() && PageKept()
      ensures Accepted(f)
      ensures isDragging == old(isDragging) && initialImageUrl == old(initialImageUrl)
    {
      var before := selectedFile;
      selectedFile := Some(f);
      useUrlInput := false;
      parent.HandleImageSelected(Some(f));
      parent.HandleImageUrlEntered("");
      if selectedFile != before {
        RunPreviewEffect();
      }
    }

    /** handleDrop: dragging ends; an image file is taken, anything else is silently ignored. */
    method Drop(files: seq<File>)
      requires Valid() && parent.Valid()
      modifies this, parent
      ensures Valid() && PreviewFollows() && parent.Valid() && PageKept()
      ensures !isDragging && initialImageUrl == old(initialImageUrl)
      ensures DropAccepted(files) ==> Accepted(files[0])
      ensures !DropAccepted(files) ==> Ignored()
    {
      isDragging := false;
      if |files| > 0 {
        var file := files[0];
        if StartsWith(file.mediaType, "image/") {
          TakeFile(file);
        }
      }
    }

    /** handleFileInputChange: the first chosen file is taken, with no type check. */
    method PickFiles(files: seq<File>)
      requires Valid() && parent.Valid()
      modifies this, parent
      ensures Valid() && PreviewFollows() && parent.Valid() && PageKept()
      ensures isDragging == old(isDragging) && initialImageUrl == old(initialImageUrl)
      ensures PickAccepted(files) ==> Accepted(files[0])
      ensures !PickAccepted(files) ==> Ignored()
    {
      if |files| > 0 {
        TakeFile(files[0]);
      }
    }

    /** handleUrlChange: the text is stored verbatim and forwarded unchanged to onUrlEntered. */
    method UrlChange(url: string)
      requires Valid() && parent.Valid()
      modifies this, parent
      ensures Valid() && PreviewFollows() && parent.Valid() && PageKept()
      ensures imageUrl == url
      ensures selectedFile == old(selectedFile) && useUrlInput == old(useUrlInput)
      ensures parent.calls == old(parent.calls) + [AddOrEditBlog.UrlEntered(url)]
      ensures parent.Snapshot() == AddOrEditBlog.AfterUrlEntered(old(parent.Snapshot()), url)
      ensures isDragging == old(isDragging) && initialImageUrl == old(initialImageUrl)
    {
      imageUrl := url;
      parent.HandleImageUrlEntered(url);
    }

    /**
     * handleToggleInput: to URL mode drops the file and reports onImageSelected(null),
     * keeping the URL text; to file mode clears the URL text and reports
     * onUrlEntered(''), keeping the file.
     */
    method ToggleInput(useUrl: bool)
      requires Valid() && parent.Valid()
      modifies this, parent
      ensures Valid() && PreviewFollows() && parent.Valid() && PageKept()
      ensures useUrlInput == useUrl
      ensures useUrl ==>
        && selectedFile == None && imageUrl == old(imageUrl)
        && parent.calls == old(parent.calls) + [AddOrEditBlog.ImageSelected(None)]
        && parent.Snapshot() == AddOrEditBlog.AfterImageSelected(old(parent.Snapshot()), None)
      ensures !useUrl ==>
        && selectedFile == old(selectedFile) && imageUrl == ""
        && parent.calls == old(parent.calls) + [AddOrEditBlog.UrlEntered("")]
        && parent.Snapshot() == AddOrEditBlog.AfterUrlEntered(old(parent.Snapshot()), "")
      ensures isDragging == old(isDragging) && initialImageUrl == old(initialImageUrl)
    {
      var before := selectedFile;
      useUrlInput := useUrl;
      if useUrl {
        selectedFile := None;
        parent.HandleImageSelected(None);
      } else {
        imageUrl := "";
        parent.HandleImageUrlEntered("");
      }
      if selectedFile != before {
        RunPreviewEffect();
      }
    }

    /** Unmounting runs the preview cleanup: no object URL stays live. */
    method Unmount()
      requires Valid()
      modifies this
      ensures live == {} && revoked == old(revoked) + old(live)
      ensures selectedFile == old(selectedFile)
    {
      if previewUrl.Some? {
        var url := previewUrl.value;
        live := live - {url};
        revoked := revoked + {url};
      }
    }
  }
}

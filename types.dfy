/** Values shared by the blog authoring form, the image uploader and the blog API client. */
module Types {

  datatype Option<+T> = None | Some(value: T)

  /** The outcome of a step that may throw: `Err` carries the thrown message. */
  datatype Result<+T> = Ok(value: T) | Err(message: string)

  /**
   * A browser `File` object. Two File objects are different even when their
   * contents agree, so `id` stands for the object's identity.
   */
  datatype File = File(id: nat, name: string, mediaType: string, size: nat)

  /** The values Formik holds for the post form: the blog fields plus the hidden `hasFile` flag. */
  datatype FormValues = FormValues(
    title: string,
    content: string,
    image: string,
    categoryId: string,
    hasFile: bool)

  datatype Category = Category(id: string, name: string)

  /** A stored post, as handed to the edit page in the navigation state. */
  datatype Post = Post(id: string, title: string, content: string, image: string, category: Category)

  /** JavaScript's `s.startsWith(prefix)`. */
  predicate StartsWith(s: string, prefix: string) {
    |prefix| <= |s| && s[..|prefix|] == prefix
  }
}

/**
 * The request-shaping half of the blog API client: which HTTP request
 * createBlog, updateBlog, getBlog and getBlogs send, what the provider state
 * becomes when a reply arrives, and whether the caller is navigated away.
 * The network itself is a parameter: each operation is given the reply.
 */
module BlogContext {
  import opened Types
  import Decimal

  datatype Verb = GET | POST | PUT

  datatype Header = Header(name: string, value: string)

  /** One entry of a multipart body: a text field or the attached file. */
  datatype Part = TextPart(name: string, text: string) | FilePart(name: string, file: File)

  /** A JSON body is the form object exactly as given; a multipart body is the FormData entries in order. */
  datatype Body = NoBody | Json(form: FormValues) | Multipart(parts: seq<Part>)

  datatype Request = Request(verb: Verb, url: string, headers: seq<Header>, body: Body)

  /** How a request settled: a 2xx reply, or an error thrown by the client. */
  datatype Reply = Fulfilled | Failed

  /** What a submission did: the request it sent and where it navigated afterwards, if anywhere. */
  datatype Completion = Completion(request: Request, navigatedTo: Option<string>)

  datatype Details = Details(totalRecords: nat, next: bool, previous: bool)

  /** The body of a list reply: one page of posts and the paging details. */
  datatype ListPayload = ListPayload(data: seq<Post>, details: Details)

  datatype PaginationData = PaginationData(count: nat, next: bool, previous: bool, totalPages: nat)

  const PageLimit: nat := 10
  const ListPath := "/blogs/?limit=10"
  const HomePath := "/"
  const AuthRequired := "Authentication required to view this blog post"
  const MultipartType := "multipart/form-data"
  const JsonType := "application/json"

  /** `Token ${token}`: a token that is not there renders as "undefined". */
  function AuthorizationValue(token: Option<string>): string {
    "Token " + (if token.Some? then token.value else "undefined")
  }

  /** The fixed field list of a multipart submission. */
  function MultipartFields(data: FormValues, file: File): seq<Part> {
    [ TextPart("title", data.title),
      TextPart("content", data.content),
      TextPart("categoryId", data.categoryId),
      FilePart("image", file) ]
  }

  function PartName(p: Part): string {
    match p
    case TextPart(n, _) => n
    case FilePart(n, _) => n
  }

  /** `formData.get(name)`: the first entry with that name. */
  function FormDataGet(parts: seq<Part>, name: string): (r: Option<Part>)
    ensures r.Some? ==> r.value in parts && PartName(r.value) == name
    ensures r.None? <==> forall i :: 0 <= i < |parts| ==> PartName(parts[i]) != name
  {
    if parts == [] then None
    else if PartName(parts[0]) == name then Some(parts[0])
    else FormDataGet(parts[1..], name)
  }

  /** `formData.get` returns the entry at the first index carrying the name, not a later one. */
  lemma {:induction false} FormDataGetIsFirst(parts: seq<Part>, name: string, i: nat)
    requires i < |parts| && PartName(parts[i]) == name
    requires forall j :: 0 <= j < i ==> PartName(parts[j]) != name
    ensures FormDataGet(parts, name) == Some(parts[i])
  {
    if i > 0 {
      FormDataGetIsFirst(parts[1..], name, i - 1);
    }
  }

  /**
   * What a server reads back from a multipart submission: each blog field
   * under its own name, the file under "image", and neither the image URL
   * nor the hasFile flag.
   */
  lemma MultipartReadBack(data: FormValues, file: File)
    ensures var parts := MultipartFields(data, file);
      && |parts| == 4
      && FormDataGet(parts, "title") == Some(TextPart("title", data.title))
      && FormDataGet(parts, "content") == Some(TextPart("content", data.content))
      && FormDataGet(parts, "categoryId") == Some(TextPart("categoryId", data.categoryId))
      && FormDataGet(parts, "image") == Some(FilePart("image", file))
      && FormDataGet(parts, "hasFile") == None
      && (forall i :: 0 <= i < |parts| ==> (parts[i].FilePart? <==> i == 3))
  {
    var parts := MultipartFields(data, file);
    var tail3 := [FilePart("image", file)];
    var tail2 := [TextPart("categoryId", data.categoryId)] + tail3;
    assert parts[1..][1..] == tail2 && tail2[1..] == tail3;
    assert FormDataGet(tail2, "image") == FormDataGet(tail3, "image");
  }

  /** A browser FormData object: entries appended in order. */
  class FormData {
    var entries: seq<Part>

    constructor()
      ensures entries == []
    {
      entries := [];
    }

    method Append(p: Part)
      modifies this
      ensures entries == old(entries) + [p]
    {
      entries := entries + [p];
    }
  }

  /** Builds the multipart body by successive appends, as createBlog and updateBlog do. */
  method EncodeMultipart(data: FormValues, file: File) returns (parts: seq<Part>)
    ensures parts == MultipartFields(data, file)
  {
    var formData := new FormData();
    formData.Append(TextPart("title", data.title));
    formData.Append(TextPart("content", data.content));
    formData.Append(TextPart("categoryId", data.categoryId));
    formData.Append(FilePart("image", file));
    parts := formData.entries;
  }

  /**
   * The request createBlog and updateBlog send to `url` with method `verb`:
   * multipart with the fixed field list when there is a file, else the form
   * object as JSON; the Authorization header is sent whether or not there is a token.
   */
  method SubmissionRequest(verb: Verb, url: string, data: FormValues, file: Option<File>, token: Option<string>)
    returns (req: Request)
    ensures req.verb == verb && req.url == url
    ensures req.body.Multipart? <==> file.Some?
    ensures file.Some? ==> req.body == Multipart(MultipartFields(data, file.value))
    ensures file.None? ==> req.body == Json(data)
    ensures req.headers == [
      Header("Authorization", AuthorizationValue(token)),
      Header("Content-Type", if file.Some? then MultipartType else JsonType) ]
  {
    if file.Some? {
      var parts := EncodeMultipart(data, file.value);
      req := Request(verb, url, [Header("Authorization", AuthorizationValue(token)), Header("Content-Type", MultipartType)],
        Multipart(parts));
    } else {
      req := Request(verb, url, [Header("Authorization", AuthorizationValue(token)), Header("Content-Type", JsonType)],
        Json(data));
    }
  }

  /** createBlog: POST to /blogs, then navigate home only if the request settled successfully. */
  method CreateBlog(base: string, data: FormValues, file: Option<File>, token: Option<string>, reply: Reply)
    returns (c: Completion)
    ensures c.request.verb == POST && c.request.url == base + "/blogs"
    ensures c.request.body.Multipart? <==> file.Some?
    ensures file.Some? ==> c.request.body == Multipart(MultipartFields(data, file.value))
    ensures file.None? ==> c.request.body == Json(data)
    ensures c.request.headers == [
      Header("Authorization", AuthorizationValue(token)),
      Header("Content-Type", if file.Some? then MultipartType else JsonType) ]
    ensures token.None? ==> c.request.headers[0] == Header("Authorization", "Token undefined")
    ensures c.navigatedTo.Some? <==> reply == Fulfilled
    ensures c.navigatedTo.Some? ==> c.navigatedTo.value == HomePath
  {
    var req := SubmissionRequest(POST, base + "/blogs", data, file, token);
    c := Completion(req, if reply == Fulfilled then Some(HomePath) else None);
  }

  /** updateBlog: the same encoding rule as createBlog, with PUT to /blogs/{id}. */
  method UpdateBlog(base: string, data: FormValues, id: string, file: Option<File>, token: Option<string>, reply: Reply)
    returns (c: Completion)
    ensures c.request.verb == PUT && c.request.url == base + "/blogs/" + id
    ensures c.request.body.Multipart? <==> file.Some?
    ensures file.Some? ==> c.request.body == Multipart(MultipartFields(data, file.value))
    ensures file.None? ==> c.request.body == Json(data)
    ensures c.request.headers == [
      Header("Authorization", AuthorizationValue(token)),
      Header("Content-Type", if file.Some? then MultipartType else JsonType) ]
    ensures token.None? ==> c.request.headers[0] == Header("Authorization", "Token undefined")
    ensures c.navigatedTo.Some? <==> reply == Fulfilled
    ensures c.navigatedTo.Some? ==> c.navigatedTo.value == HomePath
  {
    var req := SubmissionRequest(PUT, base + "/blogs/" + id, data, file, token);
    c := Completion(req, if reply == Fulfilled then Some(HomePath) else None);
  }

  /**
   * The rendering of `Token ${token}` for a missing token. That createBlog and
   * updateBlog still send it is stated in their own contracts.
   */
  lemma MissingTokenStillSent()
    ensures AuthorizationValue(None) == "Token undefined"
    ensures StartsWith(AuthorizationValue(None), "Token ")
  {
  }

  /**
   * getBlog's request: it is sent only when the stored token is non-empty,
   * and then carries that token; otherwise getBlog throws before any request.
   */
  function GetBlogRequest(base: string, id: string, token: Option<string>): (r: Result<Request>)
    ensures r.Ok? <==> token.Some? && token.value != ""
    ensures r.Ok? ==> r.value.verb == GET && r.value.url == base + "/blogs/" + id && r.value.body == NoBody
    ensures r.Ok? ==> r.value.headers == [Header("Content-Type", JsonType), Header("Authorization", "Token " + token.value)]
    ensures r.Err? ==> r.message == AuthRequired
  {
    if token.Some? && token.value != "" then
      Ok(Request(GET, base + "/blogs/" + id,
        [Header("Content-Type", JsonType), Header("Authorization", "Token " + token.value)], NoBody))
    else
      Err(AuthRequired)
  }

  /** The list URL: the page is named only when it is non-zero (0 and undefined are falsy). */
  function ListUrl(base: string, page: int): (url: string)
    ensures StartsWith(url, base + ListPath)
    ensures page == 0 <==> url == base + ListPath
  {
    if page != 0 then base + ListPath + "&page=" + Decimal.IntToString(page) else base + ListPath
  }

  /** The page number can be read back from the list URL. */
  lemma ListUrlRoundTrip(base: string, page: int)
    requires page != 0
    ensures var url := ListUrl(base, page);
      var tail := url[|base| + |ListPath| + 6..];
      && url == base + ListPath + "&page=" + tail
      && |tail| >= 1
      && (tail[0] == '-' || Decimal.IsDigit(tail[0]))
      && (forall i :: 0 < i < |tail| ==> Decimal.IsDigit(tail[i]))
      && Decimal.ParseInt(tail) == page
  {
    var url := ListUrl(base, page);
    var tail := url[|base| + |ListPath| + 6..];
    assert tail == Decimal.IntToString(page);
    if page < 0 {
      assert tail[1..] == Decimal.NatToString(-page);
    }
    Decimal.IntToStringRoundTrip(page);
  }

  /** The pagination mapping: counts and flags copied, totalPages the ceiling of totalRecords / 10. */
  function Paginate(d: Details): (p: PaginationData)
    ensures p.count == d.totalRecords && p.next == d.next && p.previous == d.previous
    ensures p.totalPages * PageLimit >= d.totalRecords
    ensures p.totalPages == 0 || (p.totalPages - 1) * PageLimit < d.totalRecords
  {
    PaginationData(d.totalRecords, d.next, d.previous, (d.totalRecords + PageLimit - 1) / PageLimit)
  }

  /** The provider's state: the open post, the listed posts, the paging data and the current page. */
  class Provider {
    const base: string
    var currentBlog: Option<Post>
    var blogs: seq<Post>
    var paginationData: PaginationData
    var page: int

    /** The state before any effect has run. */
    constructor(base: string)
      ensures this.base == base
      ensures currentBlog == None && blogs == [] && page == 1
      ensures paginationData == PaginationData(0, false, false, 0)
    {
      this.base := base;
      currentBlog := None;
      blogs := [];
      page := 1;
      paginationData := PaginationData(0, false, false, 0);
    }

    /** getBlogs(page): GET the list URL; a reply replaces the posts and the paging data, an error changes nothing. */
    method GetBlogs(p: int, reply: Result<ListPayload>) returns (req: Request)
      modifies this
      ensures req.verb == GET && req.url == ListUrl(base, p) && req.headers == [] && req.body == NoBody
      ensures reply.Ok? ==> blogs == reply.value.data && paginationData == Paginate(reply.value.details)
      ensures reply.Err? ==> blogs == old(blogs) && paginationData == old(paginationData)
      ensures page == old(page) && currentBlog == old(currentBlog)
    {
      req := Request(GET, ListUrl(base, p), [], NoBody);
      if reply.Ok? {
        blogs := reply.value.data;
        paginationData := Paginate(reply.value.details);
      }
    }

    /** The page effect: fetch the current page, but only when it is non-zero. */
    method PageEffect(reply: Result<ListPayload>) returns (req: Option<Request>)
      modifies this
      ensures req.Some? <==> old(page) != 0
      ensures req.Some? ==> req.value.url == ListUrl(base, page) && req.value.url != base + ListPath
      ensures req.Some? && reply.Ok? ==> blogs == reply.value.data && paginationData == Paginate(reply.value.details)
      ensures req.None? || reply.Err? ==> blogs == old(blogs) && paginationData == old(paginationData)
      ensures page == old(page) && currentBlog == old(currentBlog)
    {
      if page != 0 {
        var r := GetBlogs(page, reply);
        req := Some(r);
      } else {
        req := None;
      }
    }

    /** setPage(p): a new page value re-runs the page effect; the same value re-renders nothing. */
    method SetPage(p: int, reply: Result<ListPayload>) returns (req: Option<Request>)
      modifies this
      ensures page == p && currentBlog == old(currentBlog)
      ensures req.Some? <==> p != old(page) && p != 0
      ensures req.Some? ==> req.value.url == ListUrl(base, p)
      ensures req.Some? && reply.Ok? ==> blogs == reply.value.data && paginationData == Paginate(reply.value.details)
      ensures req.None? || reply.Err? ==> blogs == old(blogs) && paginationData == old(paginationData)
    {
      if p != page {
        page := p;
        req := PageEffect(reply);
      } else {
        req := None;
      }
    }

    /**
     * getBlog(id): without a non-empty token it throws before any request and
     * leaves currentBlog alone; otherwise a reply becomes the current post.
     */
    method GetBlog(id: string, token: Option<string>, reply: Result<Post>) returns (req: Option<Request>)
      modifies this
      ensures req.Some? <==> token.Some? && token.value != ""
      ensures req.Some? ==> GetBlogRequest(base, id, token) == Ok(req.value)
      ensures currentBlog == (if req.Some? && reply.Ok? then Some(reply.value) else old(currentBlog))
      ensures blogs == old(blogs) && paginationData == old(paginationData) && page == old(page)
    {
      var r := GetBlogRequest(base, id, token);
      if r.Err? {
        req := None;
        return;
      }
      req := Some(r.value);
      if reply.Ok? {
        currentBlog := Some(reply.value);
      }
    }
  }
}

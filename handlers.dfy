/**
 * The snippet handlers of the web application: the home page, viewing one
 * snippet, the empty creation form, and the submission of a new snippet.
 *
 * A handler is a method from its inputs and the snippet store to the writes it
 * makes on the response (see module Http) and the store calls it makes, in
 * order.  The store is an abstract collaborator: what each operation replies.
 */
module Handlers {
  import opened Models
  import opened Decimal
  import opened Http

  /** The submitted creation form, re-rendered with its field errors when it is rejected. */
  datatype SnippetCreateForm = SnippetCreateForm(title: string, content: string, expires: int, fieldErrors: map<string, string>)

  /** The pages the handlers render, with the data each one carries. */
  datatype Page =
    | HomePage(snippets: seq<Snippet>)
    | ViewPage(snippet: Snippet)
    | CreatePage(form: SnippetCreateForm)

  /** What the snippet store replies to each of its three operations. */
  datatype SnippetStore = SnippetStore(
    insert: (string, string, int) -> Reply<Int64>,
    get: int -> Reply<Snippet>,
    latest: Reply<seq<Snippet>>)

  /** A call a handler makes on the store. */
  datatype StoreCall =
    | InsertCall(title: string, content: string, expires: int)
    | GetCall(id: int)
    | LatestCall

  /** Parsed form values: each key maps to the values submitted for it. */
  type Values = map<string, seq<string>>

  /** url.Values.Get: the first value submitted for `key`, or "" when there is none. */
  function FormValue(values: Values, key: string): (v: string)
    ensures key !in values || values[key] == [] ==> v == ""
    ensures key in values && values[key] != [] ==> v == values[key][0]
  {
    if key in values && |values[key]| > 0 then values[key][0] else ""
  }

  const TitleBlankMessage := "标题不能为空值..."
  const TitleTooLongMessage := "标题长度不能超过100个字符..."
  const ContentBlankMessage := "内容不能为空值..."
  const ExpiresMessage := "日期必须为1,7,365..."
  const TitleMaxChars := 100
  const PermittedExpiries: seq<int> := [1, 7, 365]
  const ViewPathPrefix := "/snippet/view/"

  // ---------------------------------------------------------------------------
  // The status helpers
  // ---------------------------------------------------------------------------

  /** serverError: a plain 500 response. */
  function ServerError(): (w: Write<Page>)
    ensures w.HttpError? && StatusOf(w) == StatusInternalServerError
  {
    HttpError(StatusInternalServerError)
  }

  /** clientError: a plain response with the status it is given. */
  function ClientError(status: int): (w: Write<Page>)
    ensures w.HttpError? && StatusOf(w) == status
  {
    HttpError(status)
  }

  /** notFound: clientError with 404. */
  function NotFound(): (w: Write<Page>)
    ensures w == ClientError(StatusNotFound) && StatusOf(w) == StatusNotFound
  {
    ClientError(StatusNotFound)
  }

  // ---------------------------------------------------------------------------
  // home
  // ---------------------------------------------------------------------------

  /**
   * home, as written: any path but "/" is 404 without touching the store.  When
   * Latest fails, serverError is called but the handler goes on to render the
   * page with no snippets, so the client gets a 500 whose body holds the error
   * text followed by the rendered page.
   */
  method Home(path: string, store: SnippetStore) returns (writes: seq<Write<Page>>, calls: seq<StoreCall>)
    ensures path != "/" ==> writes == [NotFound()] && calls == []
    ensures path == "/" ==> calls == [LatestCall]
    ensures path == "/" && store.latest.Found? ==> writes == [Render(StatusOK, HomePage(store.latest.value))]
    ensures path == "/" && !store.latest.Found? ==> writes == [ServerError(), Render(StatusOK, HomePage([]))]
    ensures Sent(writes).status ==
            if path != "/" then StatusNotFound
            else if store.latest.Found? then StatusOK
            else StatusInternalServerError
  {
    if path != "/" {
      writes, calls := [NotFound()], [];
      return;
    }
    calls := [LatestCall];
    var snippets: seq<Snippet> := [];
    writes := [];
    var reply := store.latest;
    if !reply.Found? {
      writes := writes + [ServerError()];
    } else {
      snippets := reply.value;
    }
    writes := writes + [Render(StatusOK, HomePage(snippets))];
  }

  /** home with the missing `return` after serverError: a failed Latest yields the 500 alone. */
  method HomeReturningOnError(path: string, store: SnippetStore) returns (writes: seq<Write<Page>>, calls: seq<StoreCall>)
    ensures path != "/" ==> writes == [NotFound()] && calls == []
    ensures path == "/" ==> calls == [LatestCall]
    ensures path == "/" && store.latest.Found? ==> writes == [Render(StatusOK, HomePage(store.latest.value))]
    ensures path == "/" && !store.latest.Found? ==> writes == [ServerError()]
    ensures |writes| == 1
    ensures Sent(writes).status ==
            if path != "/" then StatusNotFound
            else if store.latest.Found? then StatusOK
            else StatusInternalServerError
  {
    if path != "/" {
      writes, calls := [NotFound()], [];
      return;
    }
    calls := [LatestCall];
    var reply := store.latest;
    if !reply.Found? {
      writes := [ServerError()];
      return;
    }
    writes := [Render(StatusOK, HomePage(reply.value))];
  }

  // ---------------------------------------------------------------------------
  // snippetView
  // ---------------------------------------------------------------------------

  /**
   * snippetView: an id that is not a decimal integer, or is negative, is 404
   * without a store lookup (0 passes).  Otherwise the store is asked once:
   * no record is 404, any other error 500, and a snippet is rendered with 200.
   */
  method SnippetView(idParam: string, store: SnippetStore) returns (writes: seq<Write<Page>>, calls: seq<StoreCall>)
    ensures Atoi(idParam).None? || Atoi(idParam).value < 0 ==> writes == [NotFound()] && calls == []
    ensures Atoi(idParam).Some? && Atoi(idParam).value >= 0 ==>
            var id := Atoi(idParam).value;
            && calls == [GetCall(id)]
            && writes == match store.get(id)
                         case Found(s) => [Render(StatusOK, ViewPage(s))]
                         case NoRecord => [NotFound()]
                         case Failed => [ServerError()]
    ensures |writes| == 1 && |calls| <= 1
    ensures Sent(writes).status in {StatusOK, StatusNotFound, StatusInternalServerError}
  {
    calls := [];
    var parsed := Atoi(idParam);
    if parsed.None? || parsed.value < 0 {
      writes := [NotFound()];
      return;
    }
    var id := parsed.value;
    calls := [GetCall(id)];
    var reply := store.get(id);
    if !reply.Found? {
      if reply.NoRecord? {
        writes := [NotFound()];
        return;
      }
      writes := [ServerError()];
      return;
    }
    writes := [Render(StatusOK, ViewPage(reply.value))];
  }

  // ---------------------------------------------------------------------------
  // snippetCreate and snippetCreatePost
  // ---------------------------------------------------------------------------

  /** snippetCreate: the empty creation form, whose expiry already holds a permitted value. */
  method SnippetCreate() returns (writes: seq<Write<Page>>)
    ensures |writes| == 1 && writes[0].Render? && writes[0].status == StatusOK
    ensures writes[0].page.CreatePage?
    ensures var form := writes[0].page.form;
            form.title == "" && form.content == "" && form.fieldErrors == map[]
            && form.expires == 365 && form.expires in PermittedExpiries
  {
    var form := SnippetCreateForm("", "", 365, map[]);
    writes := [Render(StatusOK, CreatePage(form))];
  }

  /** The error a title gets, if any: "empty" takes precedence over "too long". */
  function TitleError(title: string): (e: Option<string>)
    ensures e.Some? <==> !NotBlank(title) || !MaxChars(title, TitleMaxChars)
    ensures e.Some? ==> e.value == if NotBlank(title) then TitleTooLongMessage else TitleBlankMessage
  {
    if !NotBlank(title) then Some(TitleBlankMessage)
    else if !MaxChars(title, TitleMaxChars) then Some(TitleTooLongMessage)
    else None
  }

  /** The error a content gets, if any: only a blank one is refused, whatever its length. */
  function ContentError(content: string): (e: Option<string>)
    ensures e.Some? <==> !NotBlank(content)
    ensures e.Some? ==> e.value == ContentBlankMessage
  {
    if NotBlank(content) then None else Some(ContentBlankMessage)
  }

  /** The error an expiry gets, if any: it must be one of the permitted numbers of days. */
  function ExpiresError(expires: int): (e: Option<string>)
    ensures e.Some? <==> expires !in PermittedExpiries
    ensures e.Some? ==> e.value == ExpiresMessage
  {
    if expires in PermittedExpiries then None else Some(ExpiresMessage)
  }

  /** A one-entry map for a present error, an empty one otherwise. */
  function Entry(key: string, e: Option<string>): (m: map<string, string>)
    ensures m.Keys == if e.Some? then {key} else {}
    ensures e.Some? ==> m[key] == e.value
  {
    if e.Some? then map[key := e.value] else map[]
  }

  /** The field-error map holding whichever of the three errors are present. */
  function FormErrors(title: Option<string>, content: Option<string>, expires: Option<string>): (errs: map<string, string>)
    ensures errs.Keys <= {"title", "content", "expires"}
    ensures "title" in errs <==> title.Some?
    ensures "title" in errs ==> errs["title"] == title.value
    ensures "content" in errs <==> content.Some?
    ensures "content" in errs ==> errs["content"] == content.value
    ensures "expires" in errs <==> expires.Some?
    ensures "expires" in errs ==> errs["expires"] == expires.value
  {
    Entry("title", title) + Entry("content", content) + Entry("expires", expires)
  }

  /**
   * The field errors the creation form gets, from three independent checks;
   * no key outside "title", "content" and "expires" is ever set.
   */
  function CreateFormErrors(title: string, content: string, expires: int): (errs: map<string, string>)
    ensures errs.Keys <= {"title", "content", "expires"}
    ensures "title" in errs <==> TitleError(title).Some?
    ensures "title" in errs ==> errs["title"] == TitleError(title).value
    ensures "content" in errs <==> ContentError(content).Some?
    ensures "content" in errs ==> errs["content"] == ContentError(content).value
    ensures "expires" in errs <==> ExpiresError(expires).Some?
    ensures "expires" in errs ==> errs["expires"] == ExpiresError(expires).value
  {
    FormErrors(TitleError(title), ContentError(content), ExpiresError(expires))
  }

  /** A form has no field error exactly when all of the validator's checks pass. */
  lemma CreateFormValidIff(title: string, content: string, expires: int)
    ensures CreateFormErrors(title, content, expires) == map[] <==>
            NotBlank(title) && MaxChars(title, TitleMaxChars) && NotBlank(content) && expires in PermittedExpiries
  {
    var errs := CreateFormErrors(title, content, expires);
    if errs == map[] {
      assert "title" !in errs && "content" !in errs && "expires" !in errs;
    }
  }

  /** Where a created snippet is shown: "/snippet/view/" and the id in decimal. */
  function ViewPath(id: Int64): (p: string)
    ensures |p| > |ViewPathPrefix| && p[..|ViewPathPrefix|] == ViewPathPrefix
  {
    ViewPathPrefix + FormatInt(id)
  }

  /** The id in a view path reads back as the same id with Atoi. */
  lemma ViewPathRoundTrip(id: Int64)
    ensures Atoi(ViewPath(id)[|ViewPathPrefix|..]) == Some(id)
  {
    assert ViewPath(id)[|ViewPathPrefix|..] == FormatInt(id);
    AtoiFormatInt(id);
  }

  // The three rule blocks of snippetCreatePost; each one writes at most its
  // own key of the form's field-error map, overwriting it.

  /** Adding a one-entry map is a map update; adding the empty map changes nothing. */
  lemma MergeEntry(m: map<string, string>, key: string, e: Option<string>)
    ensures e.Some? ==> m + Entry(key, e) == m[key := e.value]
    ensures e.None? ==> m + Entry(key, e) == m
  {
  }

  /** Adding a map to the empty map gives that map. */
  lemma MergeIntoEmpty(m: map<string, string>)
    ensures map[] + m == m
  {
  }

  /** The title block: blank after trimming is "empty", else over 100 runes is "too long". */
  method CheckTitle(errs: map<string, string>, title: string) returns (r: map<string, string>)
    ensures r == errs + Entry("title", TitleError(title))
  {
    var e := TitleError(title);
    MergeEntry(errs, "title", e);
    r := errs;
    if TrimSpace(title) == "" {
      r := r["title" := TitleBlankMessage];
    } else if |title| > TitleMaxChars {
      r := r["title" := TitleTooLongMessage];
    }
  }

  /** The content block: blank after trimming is an error. */
  method CheckContent(errs: map<string, string>, content: string) returns (r: map<string, string>)
    ensures r == errs + Entry("content", ContentError(content))
  {
    MergeEntry(errs, "content", ContentError(content));
    r := errs;
    if TrimSpace(content) == "" {
      r := r["content" := ContentBlankMessage];
    }
  }

  /** The expires block: anything but 1, 7 or 365 days is an error. */
  method CheckExpires(errs: map<string, string>, expires: int) returns (r: map<string, string>)
    ensures r == errs + Entry("expires", ExpiresError(expires))
  {
    MergeEntry(errs, "expires", ExpiresError(expires));
    r := errs;
    if expires != 1 && expires != 7 && expires != 365 {
      r := r["expires" := ExpiresMessage];
    }
  }

  /** The three blocks in order, starting from the empty map: the errors are CreateFormErrors. */
  method ValidateCreateForm(title: string, content: string, expires: int) returns (errs: map<string, string>)
    ensures errs == CreateFormErrors(title, content, expires)
  {
    errs := CheckTitle(map[], title);
    errs := CheckContent(errs, content);
    errs := CheckExpires(errs, expires);
    MergeIntoEmpty(Entry("title", TitleError(title)));
  }

  /**
   * snippetCreatePost: a form that does not parse, or an expiry that is not a
   * decimal integer, is 400 before any validation.  A form with field errors
   * is re-rendered with 422, carrying what was submitted.  Only a form without
   * field errors is inserted, exactly once; a failed insert is 500, and a new
   * id is a 303 redirect to its view path.
   */
  method SnippetCreatePost(postForm: Option<Values>, store: SnippetStore)
    returns (writes: seq<Write<Page>>, calls: seq<StoreCall>)
    ensures postForm.None? ==> writes == [ClientError(StatusBadRequest)] && calls == []
    ensures postForm.Some? && Atoi(FormValue(postForm.value, "expires")).None? ==>
            writes == [ClientError(StatusBadRequest)] && calls == []
    ensures postForm.Some? && Atoi(FormValue(postForm.value, "expires")).Some? ==>
            var title := FormValue(postForm.value, "title");
            var content := FormValue(postForm.value, "content");
            var expires := Atoi(FormValue(postForm.value, "expires")).value;
            var errs := CreateFormErrors(title, content, expires);
            && (errs != map[] ==>
                  && calls == []
                  && writes == [Render(StatusUnprocessableEntity, CreatePage(SnippetCreateForm(title, content, expires, errs)))])
            && (errs == map[] ==>
                  && calls == [InsertCall(title, content, expires)]
                  && writes == match store.insert(title, content, expires)
                               case Found(id) => [Redirect(StatusSeeOther, ViewPath(id))]
                               case _ => [ServerError()])
    ensures |writes| == 1 && |calls| <= 1
    ensures Sent(writes).status in {StatusSeeOther, StatusBadRequest, StatusUnprocessableEntity, StatusInternalServerError}
  {
    calls := [];
    if postForm.None? {
      writes := [ClientError(StatusBadRequest)];
      return;
    }
    var values := postForm.value;
    var parsed := Atoi(FormValue(values, "expires"));
    if parsed.None? {
      writes := [ClientError(StatusBadRequest)];
      return;
    }
    var expires := parsed.value;
    var form := SnippetCreateForm(FormValue(values, "title"), FormValue(values, "content"), expires, map[]);
    var errs := ValidateCreateForm(form.title, form.content, form.expires);
    form := form.(fieldErrors := errs);
    if |form.fieldErrors| > 0 {
      writes := [Render(StatusUnprocessableEntity, CreatePage(form))];
      return;
    }
    calls := [InsertCall(form.title, form.content, form.expires)];
    var inserted := store.insert(form.title, form.content, form.expires);
    if !inserted.Found? {
      writes := [ServerError()];
      return;
    }
    writes := [Redirect(StatusSeeOther, ViewPath(inserted.value))];
  }
}

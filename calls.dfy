/** The pure half of the site, list and library layer: where a site sends
    its requests, the request each operation builds (method, path, headers,
    parameters, body), and what each operation makes of the reply. Every
    operation is a function from what it reads of its site and the requests
    sent so far to the requests sent afterwards and its outcome; the
    classes in module Models are proved to behave as these functions say. */
module Calls {
  import opened Errors
  import opened JsonValue
  import opened Text
  import opened Utils
  import opened Http

  // ---------------------------------------------------------------------
  // Sites and requests
  // ---------------------------------------------------------------------

  /** What an operation reads from its site: the base path, the relative
      URL, whether a session exists, the cached digest, and the server. */
  datatype Env = Env(
    sitePath: string,
    relativeUrl: string,
    connected: bool,
    digest: Option<Json>,
    server: Server)

  /** The requests sent so far, and the outcome of the operation. */
  datatype Trace<T> = Trace(log: seq<Request>, result: Result<T>) {
    /** Post-processing that issues no request. */
    function Then<U>(f: T -> Result<U>): (t: Trace<U>)
      ensures t.log == log
      ensures result.Failure? ==> t.result == Failure(result.error)
      ensures result.Success? ==> t.result == f(result.value)
    {
      Trace(log, if result.Failure? then Failure(result.error) else f(result.value))
    }
  }

  /** The site's base path: the host without trailing slashes, a slash, and
      the site's relative URL without outer slashes. */
  function SitePath(host: string, siteRelativeUrl: string): string
  {
    RStrip(host) + "/" + Strip(siteRelativeUrl)
  }

  /** The URL a request for `path` goes to. */
  function Url(sitePath: string, path: string): string
  {
    RStrip(sitePath) + "/" + Strip(path)
  }

  /** Host, site and path meet with exactly one slash between each pair,
      and an empty site adds nothing. */
  lemma RequestUrl(host: string, siteRelativeUrl: string, path: string)
    ensures Url(SitePath(host, siteRelativeUrl), path) ==
            RStrip(host) + "/"
            + (if Strip(siteRelativeUrl) == "" then "" else Strip(siteRelativeUrl) + "/")
            + Strip(path)
  {
    var h := RStrip(host);
    RStripSpec(host);
    StripSpec(siteRelativeUrl);
    assert SitePath(host, siteRelativeUrl) == h + "/" + Strip(siteRelativeUrl);
    UrlOverSite(h, Strip(siteRelativeUrl), Strip(path));
  }

  /** RequestUrl, over the stripped pieces. */
  lemma UrlOverSite(h: string, s: string, p: string)
    requires h == [] || h[|h| - 1] != '/'
    requires Trimmed(s)
    ensures RStrip(h + "/" + s) + "/" + p == h + "/" + (if s == "" then "" else s + "/") + p
  {
    if s == "" {
      UrlOverEmptySite(h, p);
    } else {
      UrlOverNamedSite(h, s, p);
    }
  }

  /** UrlOverSite when the site's relative URL is empty. */
  lemma UrlOverEmptySite(h: string, p: string)
    requires h == [] || h[|h| - 1] != '/'
    ensures RStrip(h + "/" + "") + "/" + p == h + "/" + "" + p
  {
    SitePathEmpty(h, "");
  }

  /** UrlOverSite when the site's relative URL names a site. */
  lemma UrlOverNamedSite(h: string, s: string, p: string)
    requires s != "" && s[|s| - 1] != '/'
    ensures RStrip(h + "/" + s) + "/" + p == h + "/" + (s + "/") + p
  {
    SitePathNonEmpty(h, s);
  }

  /** A site path over an empty site ends in one slash that rstrip drops. */
  lemma SitePathEmpty(h: string, s: string)
    requires h == [] || h[|h| - 1] != '/'
    requires s == ""
    ensures RStrip(h + "/" + s) == h
  {
    assert h + "/" + s == h + "/";
    RStripUnique(h, "/");
  }

  /** A site path over a site with a name ends in that name. */
  lemma SitePathNonEmpty(h: string, s: string)
    requires s != "" && s[|s| - 1] != '/'
    ensures RStrip(h + "/" + s) == h + "/" + s
  {
    var t := h + "/" + s;
    assert t[|t| - 1] == s[|s| - 1];
    assert t == t + [];
    RStripUnique(t, []);
  }

  /** The request a site sends for `call`. */
  function Req(env: Env, call: Call): Request
  {
    Request(Url(env.sitePath, call.path), call)
  }

  /** The reply the server gives to `call` after `log`. */
  function ReplyTo(env: Env, log: seq<Request>, call: Call): Reply
  {
    env.server(log, Req(env, call))
  }

  /** The reply was not a 4xx or 5xx. */
  predicate Accepted(reply: Reply)
  {
    !(400 <= reply.status < 600)
  }

  /** The site's request method: without a session it raises SessionError
      and sends nothing; with one it sends exactly one request, to the
      site's URL for the call's path, and raises on a 4xx or 5xx reply. */
  function Issue(env: Env, log: seq<Request>, call: Call): (t: Trace<Reply>)
    ensures !env.connected ==> t == Trace(log, Failure(SessionError))
    ensures env.connected ==> t.log == log + [Req(env, call)]
    ensures env.connected ==> t.result == RaiseForStatus(env.server(log, Req(env, call)))
    ensures env.connected ==> t.result != Failure(SessionError)
  {
    if env.connected then
      var req := Req(env, call);
      Trace(log + [req], RaiseForStatus(env.server(log, req)))
    else
      Trace(log, Failure(SessionError))
  }

  /** The error a call ends with before its reply is post-processed: no
      session, a 4xx or 5xx reply, or, when the reply is read as JSON, a
      body that is not JSON. None when the reply reaches post-processing. */
  function EarlyError(env: Env, log: seq<Request>, call: Call, readsJson: bool): Option<Error>
  {
    var reply := ReplyTo(env, log, call);
    if !env.connected then Some(SessionError)
    else if !Accepted(reply) then Some(HttpError(reply.status))
    else if readsJson && reply.json.None? then Some(JsonDecodeError)
    else None
  }

  /** The decoded body of the reply to `call` (null when it is not JSON). */
  function BodyOf(env: Env, log: seq<Request>, call: Call): Json
  {
    var reply := ReplyTo(env, log, call);
    if reply.json.Some? then reply.json.value else JNull
  }

  /** The member at `path` is present and is not the parser's sentinel. */
  predicate Found(body: Json, path: seq<string>, sentinel: string)
  {
    Lookup(body, path).Some? && Lookup(body, path).value != JStr(sentinel)
  }

  /** The error a top-level parser raises on a body lacking the member. */
  function MissingFieldError(body: Json, sentinel: string): Error
  {
    if body.JObj? then ResponseFormatError(sentinel) else AttributeError
  }

  /** `value` is the member `key` of the object `body`, or `default` when the
      object has no such member. */
  predicate MemberOf(body: Json, key: string, default: Json, value: Json)
  {
    body.JObj? && value == (if key in body.fields then body.fields[key] else default)
  }

  // ---------------------------------------------------------------------
  // Headers and paths
  // ---------------------------------------------------------------------

  const Verbose := JStr("application/json;odata=verbose")
  const NoMetadata := JStr("application/json;odata=nometadata")
  const AnyMatch := JStr("*")

  /** The digest header carries the cached digest; a missing one is None,
      rendered as null. */
  function DigestHeader(digest: Option<Json>): Json
  {
    if digest.Some? then digest.value else JNull
  }

  /** Headers of a read. */
  function ReadHeaders(): map<string, Json>
  {
    map["Accept" := NoMetadata]
  }

  /** Headers of a write whose body is `contentType`. */
  function WriteHeaders(accept: Json, contentType: Json, digest: Option<Json>): map<string, Json>
  {
    map["Accept" := accept, "Content-Type" := contentType, "X-RequestDigest" := DigestHeader(digest)]
  }

  /** Headers of a POST that the server is to treat as `verb` on whatever
      version of the target it holds. */
  function OverrideHeaders(verb: string, digest: Option<Json>): map<string, Json>
  {
    map["X-HTTP-Method" := JStr(verb), "If-Match" := AnyMatch, "X-RequestDigest" := DigestHeader(digest)]
  }

  /** Each name as a part of a path-builder argument list. */
  function Parts(names: seq<string>): (parts: seq<Option<string>>)
    ensures |parts| == |names|
    ensures forall i | 0 <= i < |names| :: parts[i] == Some(names[i])
  {
    seq(|names|, i requires 0 <= i < |names| => Some(names[i]))
  }

  /** The server-relative URL of a folder of a library, from the parts after
      the library name; a None part is skipped. */
  function FolderPartsUrl(relativeUrl: string, library: string, parts: seq<Option<string>>): string
  {
    BuildPath([Some(relativeUrl), Some(library)] + parts)
  }

  /** The server-relative URL of a folder of a library. */
  function FolderUrl(relativeUrl: string, library: string, folders: seq<string>): string
  {
    FolderPartsUrl(relativeUrl, library, Parts(folders))
  }

  /** A folder argument of None is skipped: the URL is that of the
      subfolders alone, the library itself when there are none. */
  lemma NoneFolderSkipped(relativeUrl: string, library: string, subfolders: seq<string>)
    ensures FolderPartsUrl(relativeUrl, library, [None] + Parts(subfolders)) ==
            FolderUrl(relativeUrl, library, subfolders)
    ensures FolderPartsUrl(relativeUrl, library, [None]) == FolderUrl(relativeUrl, library, [])
  {
    var head: seq<Option<string>> := [Some(relativeUrl), Some(library)];
    BuildPathSkipsNone(head, Parts(subfolders));
    assert head + ([None] + Parts(subfolders)) == head + [None] + Parts(subfolders);
    BuildPathSkipsNone(head, []);
    assert head + [None] == head + [None] + [];
    assert Parts([]) == [];
    assert head + Parts([]) == head + [];
  }

  /** A folder argument that is a name is one more part of the URL. */
  lemma NamedFolderPart(relativeUrl: string, library: string, folder: string, subfolders: seq<string>)
    ensures FolderPartsUrl(relativeUrl, library, [Some(folder)] + Parts(subfolders)) ==
            FolderUrl(relativeUrl, library, [folder] + subfolders)
  {
    assert [Some(folder)] + Parts(subfolders) == Parts([folder] + subfolders);
  }

  /** A folder URL is the site, the library and the folders, each without
      outer slashes and each behind one slash. */
  lemma FolderUrlShape(relativeUrl: string, library: string, folders: seq<string>)
    ensures FolderUrl(relativeUrl, library, folders) ==
            "/" + Strip(relativeUrl) + "/" + Strip(library)
            + (if folders == [] then "" else BuildPath(Parts(folders)))
  {
    var head: seq<Option<string>> := [Some(relativeUrl), Some(library)];
    BuildPathPair(relativeUrl, library);
    if folders == [] {
      assert head + Parts(folders) == head;
    } else {
      assert head[0].Some?;
      assert Parts(folders)[0].Some?;
      BuildPathConcat(head, Parts(folders));
    }
  }

  /** The list's endpoint. */
  function ListPath(list: string): string
  {
    "_api/web/lists/GetByTitle('" + list + "')"
  }

  /** One item's endpoint; the id is printed in decimal. */
  function ItemPath(list: string, spId: int): string
  {
    ListPath(list) + "/items('" + IntToString(spId) + "')"
  }

  /** Distinct ids address distinct items of a list. */
  lemma ItemPathInjective(list: string, m: int, n: int)
    requires ItemPath(list, m) == ItemPath(list, n)
    ensures m == n
  {
    var prefix := ListPath(list) + "/items('";
    var a := IntToString(m);
    var b := IntToString(n);
    assert ItemPath(list, m) == prefix + (a + "')");
    assert ItemPath(list, n) == prefix + (b + "')");
    assert a + "')" == b + "')" by {
      assert (prefix + (a + "')"))[|prefix|..] == a + "')";
      assert (prefix + (b + "')"))[|prefix|..] == b + "')";
    }
    assert a == (a + "')")[..|a + "')"| - 2];
    assert b == (b + "')")[..|b + "')"| - 2];
    IntToStringInjective(m, n);
  }

  // ---------------------------------------------------------------------
  // The call each operation makes
  // ---------------------------------------------------------------------

  /** Fetching the digest: a POST of an empty body to the context endpoint. */
  function ContextInfoCall(): Call
  {
    Call(POST, "/_api/contextinfo", map["Accept" := Verbose, "Content-Type" := Verbose],
         map[], Data(""), false)
  }

  function ItemTypeCall(list: string): Call
  {
    Call(GET, ListPath(list), ReadHeaders(),
         map["$select" := "ListItemEntityTypeFullName"], NoBody, false)
  }

  function AddItemCall(list: string, digest: Option<Json>, item: map<string, Json>): Call
  {
    Call(POST, ListPath(list) + "/items", WriteHeaders(NoMetadata, Verbose, digest),
         map[], JsonPayload(JObj(item)), false)
  }

  function AddAttachmentCall(list: string, spId: int, fileName: string, digest: Option<Json>,
                             attachment: Bytes): Call
  {
    Call(POST, ItemPath(list, spId) + "/AttachmentFiles/add(FileName='" + fileName + "')",
         WriteHeaders(NoMetadata, Verbose, digest), map[], Raw(attachment), false)
  }

  function DeleteItemCall(list: string, spId: int, digest: Option<Json>): Call
  {
    Call(POST, ItemPath(list, spId),
         OverrideHeaders("DELETE", digest)["Accept" := Verbose]["Content-Type" := Verbose],
         map[], NoBody, false)
  }

  function GetContentsCall(list: string, params: map<string, string>): Call
  {
    Call(GET, ListPath(list) + "/items", ReadHeaders(), params, NoBody, false)
  }

  function GetItemCall(list: string, spId: int): Call
  {
    Call(GET, ItemPath(list, spId), ReadHeaders(), map[], NoBody, false)
  }

  function UpdateItemCall(list: string, spId: int, digest: Option<Json>, patch: map<string, Json>): Call
  {
    Call(POST, ItemPath(list, spId),
         OverrideHeaders("MERGE", digest)["Accept" := NoMetadata]["Content-Type" := Verbose],
         map[], JsonPayload(JObj(patch)), false)
  }

  /** Creating a folder: the URL sent is the library name followed by the
      folder path, without the site's relative URL. */
  function AddFolderCall(library: string, folder: string, subfolders: seq<string>,
                         digest: Option<Json>): Call
  {
    Call(POST, "_api/web/folders",
         WriteHeaders(NoMetadata, JStr("application/json"), digest), map[],
         JsonPayload(JObj(map["ServerRelativeUrl" :=
           JStr(library + BuildPath(Parts([folder] + subfolders)))])), false)
  }

  function AddDocumentCall(relativeUrl: string, library: string, fileName: string,
                           subfolders: seq<string>, digest: Option<Json>, document: Bytes): Call
  {
    Call(POST,
         "_api/web/GetFolderByServerRelativeUrl('" + FolderUrl(relativeUrl, library, subfolders)
         + "')/Files/add(url='" + fileName + "',overwrite=true)",
         WriteHeaders(NoMetadata, JStr("application/octet-stream"), digest), map[],
         Raw(document), false)
  }

  function FolderExistsCall(relativeUrl: string, library: string, folder: Option<string>,
                            subfolders: seq<string>): Call
  {
    Call(GET,
         "_api/web/GetFolderByServerRelativeUrl('"
         + FolderPartsUrl(relativeUrl, library, [folder] + Parts(subfolders)) + "')/Exists",
         ReadHeaders(), map[], NoBody, false)
  }

  function DeleteDocumentCall(relativeUrl: string, library: string, fileName: string,
                              subfolders: seq<string>, digest: Option<Json>): Call
  {
    Call(POST,
         "_api/web/GetFileByServerRelativeUrl('"
         + FolderUrl(relativeUrl, library, subfolders + [fileName]) + "')",
         OverrideHeaders("DELETE", digest), map[], NoBody, false)
  }

  /** Deleting a folder: the endpoint prefix appears twice. */
  function DeleteFolderCall(relativeUrl: string, library: string, folder: Option<string>,
                            subfolders: seq<string>, digest: Option<Json>): Call
  {
    Call(POST,
         "_api/web/_api/web/GetFolderByServerRelativeUrl('"
         + FolderPartsUrl(relativeUrl, library, [folder] + Parts(subfolders)) + "')",
         OverrideHeaders("DELETE", digest), map[], NoBody, false)
  }

  function ListContentsCall(relativeUrl: string, library: string, folders: seq<string>,
                            params: map<string, string>): Call
  {
    Call(GET,
         "_api/web/GetFolderByServerRelativeUrl('" + FolderUrl(relativeUrl, library, folders)
         + "')/Files",
         ReadHeaders(), params, NoBody, false)
  }

  function GetDocumentCall(relativeUrl: string, library: string, fileName: string,
                           folders: seq<string>): Call
  {
    Call(GET,
         "/_api/web/GetFolderByServerRelativeUrl('" + FolderUrl(relativeUrl, library, folders)
         + "')/Files('" + fileName + "')/$value",
         ReadHeaders(), map[], NoBody, true)
  }

  /** The headers of a POST that asks for DELETE on any version of its target. */
  predicate DeletesAnyVersion(c: Call)
  {
    && c.verb == POST
    && "X-HTTP-Method" in c.headers && c.headers["X-HTTP-Method"] == JStr("DELETE")
    && "If-Match" in c.headers && c.headers["If-Match"] == AnyMatch
  }

  /** Every deletion is a POST overridden to DELETE, whatever the version. */
  lemma DeletionsOverride(relativeUrl: string, list: string, spId: int, library: string,
                          target: Option<string>, subfolders: seq<string>, fileName: string,
                          digest: Option<Json>)
    ensures DeletesAnyVersion(DeleteItemCall(list, spId, digest))
    ensures DeletesAnyVersion(DeleteDocumentCall(relativeUrl, library, fileName, subfolders, digest))
    ensures DeletesAnyVersion(DeleteFolderCall(relativeUrl, library, target, subfolders, digest))
  {
  }

  /** The folder deletion repeats the endpoint prefix. */
  lemma DeleteFolderPrefix(relativeUrl: string, library: string, target: Option<string>,
                           subfolders: seq<string>, digest: Option<Json>)
    ensures "_api/web/_api/web/" <= DeleteFolderCall(relativeUrl, library, target, subfolders, digest).path
  {
  }

  /** The folder creation names the folder by the library name, as given,
      and the folder path, without the site's relative URL, which every other
      library operation puts in front; for a library name without outer
      slashes this is the folder's URL with the relative URL taken off. */
  lemma AddFolderOmitsRelativeUrl(relativeUrl: string, library: string, folder: string,
                                  subfolders: seq<string>, digest: Option<Json>)
    ensures var payload := AddFolderCall(library, folder, subfolders, digest).body;
            && payload.JsonPayload? && payload.json.JObj? && "ServerRelativeUrl" in payload.json.fields
            && payload.json.fields["ServerRelativeUrl"]
               == JStr(library + BuildPath(Parts([folder] + subfolders)))
    ensures FolderUrl(relativeUrl, library, [folder] + subfolders)
            == "/" + Strip(relativeUrl) + "/" + Strip(library) + BuildPath(Parts([folder] + subfolders))
    ensures var payload := AddFolderCall(library, folder, subfolders, digest).body;
            Strip(library) == library ==>
              "/" + Strip(relativeUrl) + "/" + payload.json.fields["ServerRelativeUrl"].s
              == FolderUrl(relativeUrl, library, [folder] + subfolders)
  {
    var tail := BuildPath(Parts([folder] + subfolders));
    FolderUrlShape(relativeUrl, library, [folder] + subfolders);
    assert "/" + Strip(relativeUrl) + "/" + (library + tail)
        == "/" + Strip(relativeUrl) + "/" + library + tail;
  }

  // ---------------------------------------------------------------------
  // What each operation does
  // ---------------------------------------------------------------------

  /** Fetching and parsing the digest. */
  function FetchDigest(env: Env, log: seq<Request>): (t: Trace<Json>)
    ensures t.result == Failure(SessionError) <==> !env.connected
    ensures !env.connected ==> t.log == log
    ensures env.connected ==> t.log == log + [Req(env, ContextInfoCall())]
    ensures var early := EarlyError(env, log, ContextInfoCall(), true);
            var body := BodyOf(env, log, ContextInfoCall());
            && (early.Some? ==> t.result == Failure(early.value))
            && (t.result.Success? <==> early.None? && Found(body, FormDigestPath, FormDigestSentinel))
            && (t.result.Success? ==> Lookup(body, FormDigestPath) == Some(t.result.value))
            && (early.None? && t.result.Failure? ==>
                  t.result.error == (if ObjectAt(body, ContextInfoPath) then ResponseFormatError(FormDigestSentinel)
                                     else AttributeError))
  {
    Issue(env, log, ContextInfoCall()).Then(ReadJson).Then(ParseFormDigest)
  }

  /** Fetching the list's entity type name. */
  function ItemTypeRun(env: Env, log: seq<Request>, list: string): (t: Trace<Json>)
    ensures t.result == Failure(SessionError) <==> !env.connected
    ensures !env.connected ==> t.log == log
    ensures env.connected ==> t.log == log + [Req(env, ItemTypeCall(list))]
    ensures var early := EarlyError(env, log, ItemTypeCall(list), true);
            var body := BodyOf(env, log, ItemTypeCall(list));
            && (early.Some? ==> t.result == Failure(early.value))
            && (t.result.Success? <==>
                  early.None? && Found(body, ["ListItemEntityTypeFullName"], ItemTypeSentinel))
            && (t.result.Success? ==> Lookup(body, ["ListItemEntityTypeFullName"]) == Some(t.result.value))
            && (early.None? && t.result.Failure? ==>
                  t.result.error == MissingFieldError(body, ItemTypeSentinel))
    ensures Grows(env, log, t.log, 1)
  {
    IssueGrows(env, log, ItemTypeCall(list));
    Issue(env, log, ItemTypeCall(list)).Then(ReadJson).Then(ParseItemType)
  }

  const MetadataKey := "__metadata"

  /** The type marker inserted into an item that lacks one. */
  function TypeMarker(itemType: Json): Json
  {
    JObj(map["type" := itemType])
  }

  /** The item as it is sent: untouched when it has a type marker; otherwise
      the entity type is fetched first and its marker inserted. */
  function EnsureType(env: Env, log: seq<Request>, list: string, item: map<string, Json>)
    : Trace<map<string, Json>>
  {
    if MetadataKey in item then Trace(log, Success(item))
    else ItemTypeRun(env, log, list).Then(t => Success(item[MetadataKey := TypeMarker(t)]))
  }

  /** The caller's dictionary after the type step: changed only when the
      marker was inserted. */
  function ItemAfter(item: map<string, Json>, typed: Trace<map<string, Json>>): map<string, Json>
  {
    if typed.result.Success? then typed.result.value else item
  }

  /** `add_item`: the item is posted once its type marker is in place, and
      the server's ID for it is returned. A failed type lookup ends the
      operation with its error; a reply without an ID (or with the
      sentinel as its ID) is refused. */
  function AddItemRun(env: Env, log: seq<Request>, list: string, item: map<string, Json>)
    : (t: Trace<Json>)
    ensures t.result == Failure(SessionError) <==> !env.connected
    ensures !env.connected ==> t.log == log
    ensures var typed := EnsureType(env, log, list, item);
            typed.result.Failure? ==> t == Trace(typed.log, Failure(typed.result.error))
    ensures var typed := EnsureType(env, log, list, item);
            var call := AddItemCall(list, env.digest, ItemAfter(item, typed));
            var early := EarlyError(env, typed.log, call, true);
            var body := BodyOf(env, typed.log, call);
            typed.result.Success? ==>
              && MetadataKey in ItemAfter(item, typed)
              && (env.connected ==> t.log == typed.log + [Req(env, call)])
              && (early.Some? ==> t.result == Failure(early.value))
              && (t.result.Success? <==> early.None? && Found(body, ["ID"], ItemIdSentinel))
              && (t.result.Success? ==> Lookup(body, ["ID"]) == Some(t.result.value))
              && (early.None? && t.result.Failure? ==> t.result.error == MissingFieldError(body, ItemIdSentinel))
  {
    var typed := EnsureType(env, log, list, item);
    if typed.result.Failure? then Trace(typed.log, Failure(typed.result.error))
    else Issue(env, typed.log, AddItemCall(list, env.digest, typed.result.value))
           .Then(ReadJson).Then(ParseAddItem)
  }

  /** `update_item`: the patch is posted as a MERGE once its type marker is
      in place; the item's id is returned when the server accepts it. */
  function UpdateItemRun(env: Env, log: seq<Request>, list: string, spId: int,
                         patch: map<string, Json>): (t: Trace<int>)
    ensures t.result == Failure(SessionError) <==> !env.connected
    ensures !env.connected ==> t.log == log
    ensures var typed := EnsureType(env, log, list, patch);
            typed.result.Failure? ==> t == Trace(typed.log, Failure(typed.result.error))
    ensures var typed := EnsureType(env, log, list, patch);
            var call := UpdateItemCall(list, spId, env.digest, ItemAfter(patch, typed));
            var early := EarlyError(env, typed.log, call, false);
            typed.result.Success? ==>
              && MetadataKey in ItemAfter(patch, typed)
              && (env.connected ==> t.log == typed.log + [Req(env, call)])
              && (early.Some? ==> t.result == Failure(early.value))
              && (early.None? ==> t.result == Success(spId))
  {
    var typed := EnsureType(env, log, list, patch);
    if typed.result.Failure? then Trace(typed.log, Failure(typed.result.error))
    else Issue(env, typed.log, UpdateItemCall(list, spId, env.digest, typed.result.value))
           .Then(_ => Success(spId))
  }

  /** `add_attachment`: the item's id once the upload was accepted. */
  function AddAttachmentRun(env: Env, log: seq<Request>, list: string, spId: int,
                            fileName: string, attachment: Bytes): (t: Trace<int>)
    ensures t.result == Failure(SessionError) <==> !env.connected
    ensures !env.connected ==> t.log == log
    ensures env.connected ==> t.log == log + [Req(env, AddAttachmentCall(list, spId, fileName, env.digest, attachment))]
    ensures var early := EarlyError(env, log, AddAttachmentCall(list, spId, fileName, env.digest, attachment), false);
            && (early.Some? ==> t.result == Failure(early.value))
            && (early.None? ==> t.result == Success(spId))
    ensures Grows(env, log, t.log, 1)
  {
    IssueGrows(env, log, AddAttachmentCall(list, spId, fileName, env.digest, attachment));
    Issue(env, log, AddAttachmentCall(list, spId, fileName, env.digest, attachment))
      .Then(_ => Success(spId))
  }

  /** `delete_item`: True once the deletion was accepted. */
  function DeleteItemRun(env: Env, log: seq<Request>, list: string, spId: int): (t: Trace<bool>)
    ensures t.result == Failure(SessionError) <==> !env.connected
    ensures !env.connected ==> t.log == log
    ensures env.connected ==> t.log == log + [Req(env, DeleteItemCall(list, spId, env.digest))]
    ensures var early := EarlyError(env, log, DeleteItemCall(list, spId, env.digest), false);
            && (early.Some? ==> t.result == Failure(early.value))
            && (early.None? ==> t.result == Success(true))
    ensures Grows(env, log, t.log, 1)
  {
    IssueGrows(env, log, DeleteItemCall(list, spId, env.digest));
    Issue(env, log, DeleteItemCall(list, spId, env.digest)).Then(_ => Success(true))
  }

  /** `get_contents`: the decoded reply. */
  function GetContentsRun(env: Env, log: seq<Request>, list: string,
                          params: map<string, string>): (t: Trace<Json>)
    ensures t.result == Failure(SessionError) <==> !env.connected
    ensures !env.connected ==> t.log == log
    ensures env.connected ==> t.log == log + [Req(env, GetContentsCall(list, params))]
    ensures var early := EarlyError(env, log, GetContentsCall(list, params), true);
            && (early.Some? ==> t.result == Failure(early.value))
            && (early.None? ==> t.result == Success(BodyOf(env, log, GetContentsCall(list, params))))
    ensures Grows(env, log, t.log, 1)
  {
    IssueGrows(env, log, GetContentsCall(list, params));
    Issue(env, log, GetContentsCall(list, params)).Then(ReadJson)
  }

  /** `get_item`: the decoded reply. */
  function GetItemRun(env: Env, log: seq<Request>, list: string, spId: int): (t: Trace<Json>)
    ensures t.result == Failure(SessionError) <==> !env.connected
    ensures !env.connected ==> t.log == log
    ensures env.connected ==> t.log == log + [Req(env, GetItemCall(list, spId))]
    ensures var early := EarlyError(env, log, GetItemCall(list, spId), true);
            && (early.Some? ==> t.result == Failure(early.value))
            && (early.None? ==> t.result == Success(BodyOf(env, log, GetItemCall(list, spId))))
    ensures Grows(env, log, t.log, 1)
  {
    IssueGrows(env, log, GetItemCall(list, spId));
    Issue(env, log, GetItemCall(list, spId)).Then(ReadJson)
  }

  /** `r.json().get(key, default)` */
  function Member(key: string, default: Json): Json -> Result<Json>
  {
    body => Get(body, key, default)
  }

  /** `add_folder`: the reply's Exists member, False when absent. */
  function AddFolderRun(env: Env, log: seq<Request>, library: string, folder: string,
                        subfolders: seq<string>): (t: Trace<Json>)
    ensures t.result == Failure(SessionError) <==> !env.connected
    ensures !env.connected ==> t.log == log
    ensures env.connected ==> t.log == log + [Req(env, AddFolderCall(library, folder, subfolders, env.digest))]
    ensures var call := AddFolderCall(library, folder, subfolders, env.digest);
            var early := EarlyError(env, log, call, true);
            var body := BodyOf(env, log, call);
            && (early.Some? ==> t.result == Failure(early.value))
            && (t.result.Success? <==> early.None? && body.JObj?)
            && (t.result.Success? ==> MemberOf(body, "Exists", JBool(false), t.result.value))
            && (early.None? && !body.JObj? ==> t.result == Failure(AttributeError))
    ensures Grows(env, log, t.log, 1)
  {
    IssueGrows(env, log, AddFolderCall(library, folder, subfolders, env.digest));
    Issue(env, log, AddFolderCall(library, folder, subfolders, env.digest))
      .Then(ReadJson).Then(Member("Exists", JBool(false)))
  }

  /** `add_document`: the UniqueId of the uploaded file. */
  function AddDocumentRun(env: Env, log: seq<Request>, library: string, fileName: string,
                          document: Bytes, subfolders: seq<string>): (t: Trace<Json>)
    ensures t.result == Failure(SessionError) <==> !env.connected
    ensures !env.connected ==> t.log == log
    ensures env.connected ==> t.log == log + [Req(env, AddDocumentCall(env.relativeUrl, library, fileName, subfolders, env.digest, document))]
    ensures var call := AddDocumentCall(env.relativeUrl, library, fileName, subfolders, env.digest, document);
            var early := EarlyError(env, log, call, true);
            var body := BodyOf(env, log, call);
            && (early.Some? ==> t.result == Failure(early.value))
            && (t.result.Success? <==> early.None? && Found(body, ["UniqueId"], DocumentIdSentinel))
            && (t.result.Success? ==> Lookup(body, ["UniqueId"]) == Some(t.result.value))
            && (early.None? && t.result.Failure? ==> t.result.error == MissingFieldError(body, DocumentIdSentinel))
    ensures Grows(env, log, t.log, 1)
  {
    IssueGrows(env, log, AddDocumentCall(env.relativeUrl, library, fileName, subfolders, env.digest, document));
    Issue(env, log, AddDocumentCall(env.relativeUrl, library, fileName, subfolders, env.digest, document))
      .Then(ReadJson).Then(ParseAddDocument)
  }

  /** `folder_exists`: the reply's value member, False when absent. */
  function FolderExistsRun(env: Env, log: seq<Request>, library: string, folder: Option<string>,
                           subfolders: seq<string>): (t: Trace<Json>)
    ensures t.result == Failure(SessionError) <==> !env.connected
    ensures !env.connected ==> t.log == log
    ensures env.connected ==> t.log == log + [Req(env, FolderExistsCall(env.relativeUrl, library, folder, subfolders))]
    ensures var call := FolderExistsCall(env.relativeUrl, library, folder, subfolders);
            var early := EarlyError(env, log, call, true);
            var body := BodyOf(env, log, call);
            && (early.Some? ==> t.result == Failure(early.value))
            && (t.result.Success? <==> early.None? && body.JObj?)
            && (t.result.Success? ==> MemberOf(body, "value", JBool(false), t.result.value))
            && (early.None? && !body.JObj? ==> t.result == Failure(AttributeError))
    ensures Grows(env, log, t.log, 1)
  {
    IssueGrows(env, log, FolderExistsCall(env.relativeUrl, library, folder, subfolders));
    Issue(env, log, FolderExistsCall(env.relativeUrl, library, folder, subfolders))
      .Then(ReadJson).Then(Member("value", JBool(false)))
  }

  /** `delete_document`: True once the deletion was accepted. */
  function DeleteDocumentRun(env: Env, log: seq<Request>, library: string, fileName: string,
                             subfolders: seq<string>): (t: Trace<bool>)
    ensures t.result == Failure(SessionError) <==> !env.connected
    ensures !env.connected ==> t.log == log
    ensures env.connected ==> t.log == log + [Req(env, DeleteDocumentCall(env.relativeUrl, library, fileName, subfolders, env.digest))]
    ensures var early := EarlyError(env, log, DeleteDocumentCall(env.relativeUrl, library, fileName,
                                                                 subfolders, env.digest), false);
            && (early.Some? ==> t.result == Failure(early.value))
            && (early.None? ==> t.result == Success(true))
    ensures Grows(env, log, t.log, 1)
  {
    IssueGrows(env, log, DeleteDocumentCall(env.relativeUrl, library, fileName, subfolders, env.digest));
    Issue(env, log, DeleteDocumentCall(env.relativeUrl, library, fileName, subfolders, env.digest))
      .Then(_ => Success(true))
  }

  /** `delete_folder`: True once the deletion was accepted. */
  function DeleteFolderRun(env: Env, log: seq<Request>, library: string, folder: Option<string>,
                           subfolders: seq<string>): (t: Trace<bool>)
    ensures t.result == Failure(SessionError) <==> !env.connected
    ensures !env.connected ==> t.log == log
    ensures env.connected ==> t.log == log + [Req(env, DeleteFolderCall(env.relativeUrl, library, folder, subfolders, env.digest))]
    ensures var early := EarlyError(env, log, DeleteFolderCall(env.relativeUrl, library, folder,
                                                               subfolders, env.digest), false);
            && (early.Some? ==> t.result == Failure(early.value))
            && (early.None? ==> t.result == Success(true))
    ensures Grows(env, log, t.log, 1)
  {
    IssueGrows(env, log, DeleteFolderCall(env.relativeUrl, library, folder, subfolders, env.digest));
    Issue(env, log, DeleteFolderCall(env.relativeUrl, library, folder, subfolders, env.digest))
      .Then(_ => Success(true))
  }

  /** `list_contents`: the reply's value member, an empty list when absent. */
  function ListContentsRun(env: Env, log: seq<Request>, library: string, folders: seq<string>,
                           params: map<string, string>): (t: Trace<Json>)
    ensures t.result == Failure(SessionError) <==> !env.connected
    ensures !env.connected ==> t.log == log
    ensures env.connected ==> t.log == log + [Req(env, ListContentsCall(env.relativeUrl, library, folders, params))]
    ensures var call := ListContentsCall(env.relativeUrl, library, folders, params);
            var early := EarlyError(env, log, call, true);
            var body := BodyOf(env, log, call);
            && (early.Some? ==> t.result == Failure(early.value))
            && (t.result.Success? <==> early.None? && body.JObj?)
            && (t.result.Success? ==> MemberOf(body, "value", JArr([]), t.result.value))
            && (early.None? && !body.JObj? ==> t.result == Failure(AttributeError))
    ensures Grows(env, log, t.log, 1)
  {
    IssueGrows(env, log, ListContentsCall(env.relativeUrl, library, folders, params));
    Issue(env, log, ListContentsCall(env.relativeUrl, library, folders, params))
      .Then(ReadJson).Then(Member("value", JArr([])))
  }

  /** An accepted object reply that lacks the member is not an error: the
      folder queries answer False and the listing answers an empty list. */
  lemma MissingMemberDefaults(env: Env, log: seq<Request>, library: string, folder: Option<string>,
                              folders: seq<string>, params: map<string, string>)
    ensures var call := FolderExistsCall(env.relativeUrl, library, folder, folders);
            var body := BodyOf(env, log, call);
            EarlyError(env, log, call, true).None? && body.JObj? && "value" !in body.fields ==>
              FolderExistsRun(env, log, library, folder, folders).result == Success(JBool(false))
    ensures var call := ListContentsCall(env.relativeUrl, library, folders, params);
            var body := BodyOf(env, log, call);
            EarlyError(env, log, call, true).None? && body.JObj? && "value" !in body.fields ==>
              ListContentsRun(env, log, library, folders, params).result == Success(JArr([]))
  {
  }

  /** `get_document`: the raw content of the reply, never decoded. */
  function GetDocumentRun(env: Env, log: seq<Request>, library: string, fileName: string,
                          folders: seq<string>): (t: Trace<Bytes>)
    ensures t.result == Failure(SessionError) <==> !env.connected
    ensures !env.connected ==> t.log == log
    ensures env.connected ==> t.log == log + [Req(env, GetDocumentCall(env.relativeUrl, library, fileName, folders))]
    ensures var call := GetDocumentCall(env.relativeUrl, library, fileName, folders);
            var early := EarlyError(env, log, call, false);
            && (early.Some? ==> t.result == Failure(early.value))
            && (early.None? ==> t.result == Success(ReplyTo(env, log, call).content))
    ensures Grows(env, log, t.log, 1)
  {
    IssueGrows(env, log, GetDocumentCall(env.relativeUrl, library, fileName, folders));
    Issue(env, log, GetDocumentCall(env.relativeUrl, library, fileName, folders))
      .Then((reply: Reply) => Success(reply.content))
  }
  // ---------------------------------------------------------------------
  // All list and library operations together
  // ---------------------------------------------------------------------

  /** An operation on a list or a library, with its arguments. */
  datatype Op =
    | AddItem(list: string, item: map<string, Json>)
    | AddAttachment(list: string, spId: int, fileName: string, attachment: Bytes)
    | DeleteItem(list: string, spId: int)
    | GetContents(list: string, params: map<string, string>)
    | GetItemType(list: string)
    | GetItem(list: string, spId: int)
    | UpdateItem(list: string, spId: int, patch: map<string, Json>)
    | AddFolder(library: string, folder: string, subfolders: seq<string>)
    | AddDocument(library: string, fileName: string, document: Bytes, subfolders: seq<string>)
    | FolderExists(library: string, target: Option<string>, subfolders: seq<string>)
    | DeleteDocument(library: string, fileName: string, subfolders: seq<string>)
    | DeleteFolder(library: string, target: Option<string>, subfolders: seq<string>)
    | ListContents(library: string, folders: seq<string>, params: map<string, string>)
    | GetDocument(library: string, fileName: string, folders: seq<string>)

  /** What an operation returns. */
  datatype Outcome = Value(json: Json) | Id(id: int) | Flag(flag: bool) | Content(bytes: Bytes)

  function AsValue(v: Json): Result<Outcome> { Success(Value(v)) }
  function AsId(n: int): Result<Outcome> { Success(Id(n)) }
  function AsFlag(b: bool): Result<Outcome> { Success(Flag(b)) }
  function AsContent(c: Bytes): Result<Outcome> { Success(Content(c)) }

  /** Performing an operation: the requests sent afterwards and the outcome. */
  function Perform(env: Env, log: seq<Request>, op: Op): Trace<Outcome>
  {
    match op
    case AddItem(list, item) =>
      AddItemRun(env, log, list, item).Then(AsValue)
    case AddAttachment(list, spId, fileName, attachment) =>
      AddAttachmentRun(env, log, list, spId, fileName, attachment).Then(AsId)
    case DeleteItem(list, spId) =>
      DeleteItemRun(env, log, list, spId).Then(AsFlag)
    case GetContents(list, params) =>
      GetContentsRun(env, log, list, params).Then(AsValue)
    case GetItemType(list) =>
      ItemTypeRun(env, log, list).Then(AsValue)
    case GetItem(list, spId) =>
      GetItemRun(env, log, list, spId).Then(AsValue)
    case UpdateItem(list, spId, patch) =>
      UpdateItemRun(env, log, list, spId, patch).Then(AsId)
    case AddFolder(library, folder, subfolders) =>
      AddFolderRun(env, log, library, folder, subfolders).Then(AsValue)
    case AddDocument(library, fileName, document, subfolders) =>
      AddDocumentRun(env, log, library, fileName, document, subfolders).Then(AsValue)
    case FolderExists(library, folder, subfolders) =>
      FolderExistsRun(env, log, library, folder, subfolders).Then(AsValue)
    case DeleteDocument(library, fileName, subfolders) =>
      DeleteDocumentRun(env, log, library, fileName, subfolders).Then(AsFlag)
    case DeleteFolder(library, folder, subfolders) =>
      DeleteFolderRun(env, log, library, folder, subfolders).Then(AsFlag)
    case ListContents(library, folders, params) =>
      ListContentsRun(env, log, library, folders, params).Then(AsValue)
    case GetDocument(library, fileName, folders) =>
      GetDocumentRun(env, log, library, fileName, folders).Then(AsContent)
  }

  /** The operations that may look up the list's entity type first. */
  predicate NeedsType(op: Op)
  {
    (op.AddItem? && MetadataKey !in op.item) || (op.UpdateItem? && MetadataKey !in op.patch)
  }

  /** The discipline every call of a list or library keeps: a write carries
      the cached digest, a method override is unconditional, and a read has
      no body and asks for JSON without metadata. */
  predicate CallSound(digest: Option<Json>, call: Call)
  {
    && (call.verb == POST ==>
          "X-RequestDigest" in call.headers && call.headers["X-RequestDigest"] == DigestHeader(digest))
    && ("X-HTTP-Method" in call.headers ==>
          call.verb == POST && "If-Match" in call.headers && call.headers["If-Match"] == AnyMatch)
    && (call.verb == GET ==> call.body == NoBody && call.headers == ReadHeaders())
  }

  /** A request of the site: sent to the site's URL for its path, and sound. */
  predicate Sound(env: Env, req: Request)
  {
    req.url == Url(env.sitePath, req.call.path) && CallSound(env.digest, req.call)
  }

  /** `out` is `log` followed by at most `n` sound requests of the site:
      none without a session, at least one with it. */
  predicate Grows(env: Env, log: seq<Request>, out: seq<Request>, n: nat)
  {
    && |log| <= |out| <= |log| + n
    && out[..|log|] == log
    && (forall i | |log| <= i < |out| :: Sound(env, out[i]))
    && (!env.connected ==> out == log)
    && (env.connected ==> |out| > |log|)
  }

  lemma IssueGrows(env: Env, log: seq<Request>, call: Call)
    requires CallSound(env.digest, call)
    ensures Grows(env, log, Issue(env, log, call).log, 1)
  {
    if env.connected {
      var out := Issue(env, log, call).log;
      assert out == log + [Req(env, call)];
      assert out[..|log|] == log;
      assert forall i | |log| <= i < |out| :: out[i] == Req(env, call);
    }
  }

  /** One call after another. */
  lemma GrowsTrans(env: Env, log: seq<Request>, mid: seq<Request>, out: seq<Request>, m: nat, n: nat)
    requires Grows(env, log, mid, m) && Grows(env, mid, out, n)
    ensures Grows(env, log, out, m + n)
  {
    assert out[..|log|] == out[..|mid|][..|log|];
  }

  /** The type lookup and the marker: with a marker nothing is sent and the
      item is kept; without one the type request goes first, and the item
      gains the marker exactly when that request succeeds. Every other key
      is kept as it was. */
  lemma EnsureTypeSpec(env: Env, log: seq<Request>, list: string, item: map<string, Json>)
    ensures var typed := EnsureType(env, log, list, item);
            var lookup := ItemTypeRun(env, log, list);
            && (MetadataKey in item ==> typed == Trace(log, Success(item)))
            && (MetadataKey !in item ==> typed.log == lookup.log)
            && (MetadataKey !in item && env.connected ==>
                  |lookup.log| == |log| + 1 && lookup.log[|log|] == Req(env, ItemTypeCall(list)))
            && (MetadataKey !in item && lookup.result.Success? ==>
                  typed.result == Success(item[MetadataKey := TypeMarker(lookup.result.value)]))
            && (MetadataKey !in item && lookup.result.Failure? ==>
                  typed.result == Failure(lookup.result.error))
            && (MetadataKey in ItemAfter(item, typed)
                <==> MetadataKey in item || lookup.result.Success?)
            && (forall k | k != MetadataKey ::
                  (k in ItemAfter(item, typed) <==> k in item) &&
                  (k in item ==> ItemAfter(item, typed)[k] == item[k]))
  {
  }

  /** The shared shape of the typed writes (add_item and update_item). */
  lemma TypedWriteGrows(env: Env, log: seq<Request>, list: string, item: map<string, Json>,
                        mk: map<string, Json> -> Call)
    requires forall fields :: CallSound(env.digest, mk(fields))
    ensures var typed := EnsureType(env, log, list, item);
            var out := if typed.result.Failure? then typed.log
                       else Issue(env, typed.log, mk(typed.result.value)).log;
            Grows(env, log, out, if MetadataKey in item then 1 else 2)
  {
    var typed := EnsureType(env, log, list, item);
    if MetadataKey in item {
      assert typed.log == log;
      IssueGrows(env, log, mk(item));
    } else {
      IssueGrows(env, log, ItemTypeCall(list));
      assert typed.log == Issue(env, log, ItemTypeCall(list)).log;
      if typed.result.Success? {
        IssueGrows(env, typed.log, mk(typed.result.value));
        GrowsTrans(env, log, typed.log, Issue(env, typed.log, mk(typed.result.value)).log, 1, 1);
      }
    }
  }

  /** Every list and library operation sends one request, or two when it
      must look up the item type first, appends them to what was sent
      before, and keeps the call discipline; without a session it sends
      nothing. */
  lemma PerformGrows(env: Env, log: seq<Request>, op: Op)
    ensures Grows(env, log, Perform(env, log, op).log, if NeedsType(op) then 2 else 1)
  {
    if op.AddItem? {
      TypedWriteGrows(env, log, op.list, op.item, fields => AddItemCall(op.list, env.digest, fields));
      assert Perform(env, log, op).log == AddItemRun(env, log, op.list, op.item).log;
    } else if op.UpdateItem? {
      TypedWriteGrows(env, log, op.list, op.patch,
                      fields => UpdateItemCall(op.list, op.spId, env.digest, fields));
      assert Perform(env, log, op).log == UpdateItemRun(env, log, op.list, op.spId, op.patch).log;
    } else {
      SingleCallGrows(env, log, op);
    }
  }

  /** PerformGrows for the operations that make exactly one call. */
  lemma SingleCallGrows(env: Env, log: seq<Request>, op: Op)
    requires !op.AddItem? && !op.UpdateItem?
    ensures Grows(env, log, Perform(env, log, op).log, 1)
  {
  }

  /** SessionError is raised exactly when there is no session. */
  lemma PerformSessionError(env: Env, log: seq<Request>, op: Op)
    ensures Perform(env, log, op).result == Failure(SessionError) <==> !env.connected
  {
    if op.AddItem? || op.UpdateItem? || op.AddAttachment? || op.DeleteItem? || op.GetContents?
       || op.GetItemType? || op.GetItem? {
      ListOpSessionError(env, log, op);
    } else if op.AddFolder? || op.AddDocument? || op.FolderExists? {
      LibraryOpSessionError(env, log, op);
    } else {
      LibraryDeleteOrReadSessionError(env, log, op);
    }
  }

  /** PerformSessionError, split by the class the operation belongs to. */
  lemma ListOpSessionError(env: Env, log: seq<Request>, op: Op)
    requires op.AddItem? || op.UpdateItem? || op.AddAttachment? || op.DeleteItem? || op.GetContents?
             || op.GetItemType? || op.GetItem?
    ensures Perform(env, log, op).result == Failure(SessionError) <==> !env.connected
  {
  }

  lemma LibraryOpSessionError(env: Env, log: seq<Request>, op: Op)
    requires op.AddFolder? || op.AddDocument? || op.FolderExists?
    ensures Perform(env, log, op).result == Failure(SessionError) <==> !env.connected
  {
  }

  lemma LibraryDeleteOrReadSessionError(env: Env, log: seq<Request>, op: Op)
    requires op.DeleteDocument? || op.DeleteFolder? || op.ListContents? || op.GetDocument?
    ensures Perform(env, log, op).result == Failure(SessionError) <==> !env.connected
  {
  }
}

# sppyte, modelled in Dafny

sppyte is a thin client for SharePoint's legacy REST API. It works in three layers:

- A `Site` holds an NTLM-authenticated session and a cached form digest. The form digest is the token SharePoint requires on every mutating request.
- `List` and `Library` handles turn method calls into REST requests. Each request has a method, a path, headers, parameters and a body.
- Small parsers pull one named field out of SharePoint's JSON replies.

This project models those layers and proves what each operation sends and returns.

Modules:

- `Errors` (errors.dfy): the client's exceptions as an `Error` datatype, plus `Option` and `Result`. It also models what a bare `raise Cls` does to the package's exception classes.
- `JsonValue` (json.dfy): decoded JSON values. It defines Python's `dict.get` on them, which raises AttributeError on a value that is not an object. `Lookup` is an independent reference reading of nested members.
- `Text` (text.dfy): the Python string operations the client relies on: `strip('/')`, `lstrip('/')`, `rstrip('/')`, `'/'.join` and `str(int)`. Each is characterised by lemmas: strip by its result's shape and uniqueness, and `str(int)` by canonical digits, value and injectivity.
- `Utils` (utils.dfy): `build_path` and the four `parse_*` functions.
- `Http` (http.dfy): the surface of the HTTP library, as seen from the client.
  - A `Call` is what the client hands to its site's request method. A `Request` is a call together with its absolute URL.
  - A `Reply` has a status, its body as decoded JSON when it is JSON, and its raw content.
  - `raise_for_status` and `r.json()` are modelled as functions.
  - A `Transport` class appends every request it sends to its `sent` field. It asks a server oracle for the reply. The oracle sees the request and every request sent before it.
  - A `Session` class can be closed.
- `Calls` (calls.dfy): the pure half of `models.py`.
  - Where a site sends a request, and the exact `Call` each operation builds.
  - For each list and library operation, a function (`…Run`) from the site's state and the requests sent so far to the requests sent afterwards and the outcome.
  - Lemmas over all operations together.
- `Models` (models.dfy): the classes `Site`, `List` and `Library`, plus `JsonDict` for the caller's dictionary that `add_item` and `update_item` change in place.
  - Each method updates its fields and the transport's log step by step, as the source does.
  - Each method is proved to send exactly the requests, and to return exactly the outcome, that its `Calls` function describes.

## Model

| member | source | states |
|---|---|---|
| Text.LStripSpec | src/sppyte/utils.py:6 | `lstrip('/')` returns a suffix of its input. Only slashes are dropped before it, and the suffix does not start with a slash. |
| Text.RStripSpec | src/sppyte/models.py:25 | `rstrip('/')` returns a prefix of its input. Only slashes are dropped after it, and the prefix does not end with a slash. |
| Text.StripSpec | src/sppyte/utils.py:6 | `strip('/')` never lengthens a string, and its result neither starts nor ends with a slash. |
| Text.LStripUnique | src/sppyte/utils.py:6 | Slashes followed by a text that does not start with a slash lstrip to exactly that text. |
| Text.RStripUnique | src/sppyte/models.py:38 | A text that does not end with a slash, followed by slashes, rstrips to exactly that text. |
| Text.StripUnique | src/sppyte/utils.py:6 | Slashes, a trimmed middle, then slashes: `strip` returns exactly the middle. This characterises strip completely. |
| Text.StripIdempotent | src/sppyte/utils.py:6 | Stripping twice is the same as stripping once. |
| Text.RStripAppendSlash | src/sppyte/models.py:38 | rstrip ignores a slash appended at the end. |
| Text.JoinAppend | src/sppyte/utils.py:6 | Joining two non-empty lists puts exactly one slash between their joins. |
| Text.JoinEmpty | src/sppyte/utils.py:7 | The join is empty exactly when there is nothing to join or the only segment is empty. |
| Text.NatToString | src/sppyte/models.py:117 | The decimal digits of an id are non-empty and all digits, with no leading zero except for zero itself. |
| Text.IntToString | src/sppyte/models.py:117 | `str(n)` starts with a minus sign exactly when n is negative. Every other character is a digit, there is at least one, and the first is 0 only for zero itself. |
| Text.NatToStringValue | src/sppyte/models.py:117 | Reading the printed digits back gives the number. |
| Text.IntToStringValue | src/sppyte/models.py:117 | The digits after the sign read back as the magnitude of the number. |
| Text.NatToStringInjective | src/sppyte/models.py:117 | Distinct naturals print differently. |
| Text.IntToStringInjective | src/sppyte/models.py:153 | Distinct integers print differently. |
| Utils.Segments | src/sppyte/utils.py:6 | The comprehension yields at most one segment per part, and every segment is free of outer slashes. |
| Utils.BuildPath | src/sppyte/utils.py:5-7 | `build_path` always returns a string that starts with "/". |
| Utils.SegmentsAppend | src/sppyte/utils.py:6 | The segments of two argument lists are those of each list, in order. |
| Utils.SegmentsEmpty | src/sppyte/utils.py:6 | There are no segments exactly when every part is None. |
| Utils.BuildPathIsRoot | src/sppyte/utils.py:6-7 | The result is exactly "/" if and only if no part is given, or the only surviving segment is empty. |
| Utils.BuildPathSingle | src/sppyte/utils.py:5-7 | One part gives "/" followed by the part without its outer slashes. |
| Utils.BuildPathSkipsNone | src/sppyte/utils.py:6 | Removing a None part from anywhere in the argument list leaves the result unchanged. |
| Utils.BuildPathStripInsensitive | src/sppyte/utils.py:6 | Argument lists that agree part by part up to outer slashes give the same segments and the same path. |
| Utils.BuildPathConcat | src/sppyte/utils.py:6-7 | The path of two argument lists, each with some part, is the path of the first followed by the path of the second. Order is kept, with one slash between. |
| Utils.BuildPathPair | src/sppyte/utils.py:6-7 | Two parts give "/", the first part stripped, "/", then the second part stripped. |
| Utils.StripTrimmed | src/sppyte/utils.py:6 | A part with no outer slashes is its own segment. |
| Utils.BuildPathStripsOuterSlashes | src/sppyte/utils.py:6-7 | `build_path("a/", "/b/")` and `build_path("a", "b")` both equal "/a/b". |
| Utils.StripSlashes | src/sppyte/utils.py:6 | A part made only of slashes, including the empty part, strips to the empty segment. |
| Utils.BuildPathAppendPart | src/sppyte/utils.py:6-7 | One more part adds one slash and that part's segment. |
| Utils.BuildPathTrailingEmpty | src/sppyte/utils.py:6-7 | A part followed by an empty one leaves a trailing slash. |
| Utils.BuildPathKeepsEmptySegments | src/sppyte/utils.py:6-7 | Empty segments are kept: `build_path("a", "", "b")` is "/a//b". |
| Utils.BuildPathTwoEmptyParts | src/sppyte/utils.py:6-7 | `build_path("", "")` is "//". |
| Utils.FormDigestLookup | src/sppyte/utils.py:12 | The two nested `.get` levels of the digest reply agree with the reference lookup along `d`, `GetContextWebInformation`. |
| Utils.ParseFormDigest | src/sppyte/utils.py:10-15 | Succeeds exactly when `d.GetContextWebInformation.FormDigestValue` exists and is not the sentinel text, and then returns that value. Fails with ResponseFormatError("Form digest value") when only the innermost level is missing or equals the sentinel. Fails with AttributeError when an outer level is missing. |
| Utils.ParseField | src/sppyte/utils.py:18-39 | The shared shape of the top-level parsers: the member if it is present and not the sentinel; ResponseFormatError carrying the sentinel otherwise; AttributeError on a reply that is not an object. |
| Utils.ParseItemType | src/sppyte/utils.py:18-23 | Returns `ListItemEntityTypeFullName` if and only if it is present and is not "List item type". Otherwise ResponseFormatError with that text, or AttributeError for a reply that is not an object. |
| Utils.ParseAddItem | src/sppyte/utils.py:26-31 | The same for `ID` with the text "Item id". |
| Utils.ParseAddDocument | src/sppyte/utils.py:34-39 | The same for `UniqueId` with the text "Document id". |
| Utils.ParsersKeepNonStrings | src/sppyte/utils.py:13 | In any reply, a member that is not a string never matches a sentinel, so every parser returns it unchanged. |
| Utils.ParserQuirks | src/sppyte/utils.py:12-14 | A genuine value equal to the sentinel is refused. `{"d": {}}` fails with AttributeError. The verbose digest envelope around "X" parses to "X". |
| JsonValue.Get | src/sppyte/utils.py:20 | `.get(key, default)` succeeds exactly on objects, returning the member or the default. Any other value raises AttributeError. |
| JsonValue.LookupStep | src/sppyte/utils.py:12 | A nested lookup is one `.get` level followed by the rest of the path. |
| Http.RaiseForStatus | src/sppyte/models.py:41 | A reply fails exactly when its status is 4xx or 5xx, with HttpError carrying that status. Otherwise the reply is returned unchanged. |
| Http.ReadJson | src/sppyte/models.py:137 | `r.json()` succeeds exactly when the body is JSON, and then returns the decoded value. Otherwise it raises JsonDecodeError. |
| Http.Transport.Send | src/sppyte/models.py:40 | The request is appended to the log, and the reply is the server's answer to it given the earlier log. |
| Http.Session.Close | src/sppyte/models.py:66 | The session is closed. |
| Errors.Instantiate | src/sppyte/error.py:12-14 | The base constructor takes exactly one message. Any other number of arguments raises TypeError. |
| Errors.RaiseClass | src/sppyte/models.py:44 | A bare `raise SessionError` propagates TypeError, not SessionError. |
| Calls.Trace.Then | src/sppyte/models.py:99 | Post-processing a reply sends nothing. It keeps an earlier failure and otherwise applies the step. |
| Calls.RequestUrl | src/sppyte/models.py:25-38 | The URL of a request is the host without trailing slashes, "/", the site's relative URL stripped and followed by "/" when it is not empty, then the path stripped. |
| Calls.UrlOverSite | src/sppyte/models.py:38 | The same over the already-stripped pieces. |
| Calls.SitePathEmpty | src/sppyte/models.py:38 | Over an empty site, the site path's single trailing slash is dropped again by rstrip. |
| Calls.SitePathNonEmpty | src/sppyte/models.py:38 | Over a named site, the site path is kept whole by rstrip. |
| Calls.Issue | src/sppyte/models.py:37-44 | Without a session: SessionError, and nothing is sent. With a session: exactly one request is appended, to the site's URL for the call's path, and a 4xx or 5xx reply fails. |
| Calls.Parts | src/sppyte/models.py:210 | Each folder name becomes one part that is not None, in order. |
| Calls.FolderUrlShape | src/sppyte/models.py:210 | A library folder URL is "/", the relative URL stripped, "/", the library stripped, then the folder path. The same builder is used at lines 223, 233, 245, 257 and 268. |
| Calls.NoneFolderSkipped | src/sppyte/models.py:223 | A folder argument of None is skipped by the path builder: the URL is that of the subfolders alone, the library itself when there are none. `delete_folder` passes its folder the same way at line 245. |
| Calls.NamedFolderPart | src/sppyte/models.py:223 | A folder argument that is a name is one more part of the URL, in front of the subfolders. |
| Calls.ItemPathInjective | src/sppyte/models.py:117 | Distinct item ids address distinct item endpoints of a list. The item endpoint is also used at lines 153 and 167. |
| Calls.DeletionsOverride | src/sppyte/models.py:114-126 | `delete_item` is a POST with `X-HTTP-Method: DELETE` and `If-Match: *`. So are `delete_document` (lines 235-236) and `delete_folder` (lines 247-248). |
| Calls.DeleteFolderPrefix | src/sppyte/models.py:245 | The path `delete_folder` sends starts with `_api/web/_api/web/`. |
| Calls.AddFolderOmitsRelativeUrl | src/sppyte/models.py:186-198 | The `ServerRelativeUrl` that `add_folder` posts is the library name, as given, followed by the folder path, with no relative URL. For a library name without outer slashes, putting the site's relative URL in front of it gives the folder's URL as every other library operation builds it. For other names it does not: the posted name keeps its slashes, and the folder URL strips them. |
| Calls.FetchDigest | src/sppyte/models.py:46-56 | SessionError exactly when there is no session, and then nothing is sent. With a session, exactly one context-info request is sent. A refused reply fails with HttpError and a body that is not JSON with JsonDecodeError. Otherwise it succeeds exactly when `d.GetContextWebInformation.FormDigestValue` is present and is not the sentinel, and returns that value. It fails with ResponseFormatError when only the innermost member is missing or is the sentinel, and with AttributeError when an outer level is missing. |
| Calls.ItemTypeRun | src/sppyte/models.py:139-148 | SessionError exactly when there is no session. With a session, exactly one GET of the list is sent. HttpError and JsonDecodeError as for every JSON read. Otherwise it succeeds exactly when `ListItemEntityTypeFullName` is present and is not the sentinel, and returns it. It fails with ResponseFormatError on an object lacking it, and with AttributeError on a body that is not an object. |
| Calls.AddItemRun | src/sppyte/models.py:84-99 | SessionError exactly when there is no session, and then nothing is sent. A failed type lookup ends the operation with its error and sends nothing more. Otherwise the item, now carrying a type marker, is posted as the last request. HttpError and JsonDecodeError as for every JSON read. It succeeds exactly when the reply has an `ID` that is not the sentinel, and returns that ID. It fails with ResponseFormatError or AttributeError otherwise. |
| Calls.UpdateItemRun | src/sppyte/models.py:160-177 | SessionError exactly when there is no session. A failed type lookup ends the operation with its error. Otherwise the patch, now carrying a type marker, is posted as a MERGE as the last request. It fails with HttpError on a refused reply and otherwise returns the id passed in. |
| Calls.AddAttachmentRun | src/sppyte/models.py:101-112 | SessionError without a session, HttpError on a refused upload, and otherwise the id passed in. Exactly one sound request is sent with a session. Without a session nothing is sent. With one, exactly the request built by `AddAttachmentCall` is sent, to the site's URL for its path. |
| Calls.DeleteItemRun | src/sppyte/models.py:114-126 | SessionError without a session, HttpError on a refused deletion, and otherwise True. Without a session nothing is sent. With one, exactly the request built by `DeleteItemCall` is sent, to the site's URL for its path. |
| Calls.GetContentsRun | src/sppyte/models.py:128-137 | SessionError without a session, HttpError on a refused reply, JsonDecodeError on a body that is not JSON, and otherwise the decoded body. Without a session nothing is sent. With one, exactly the request built by `GetContentsCall` is sent, to the site's URL for its path. |
| Calls.GetItemRun | src/sppyte/models.py:150-158 | SessionError without a session, HttpError on a refused reply, JsonDecodeError on a body that is not JSON, and otherwise the decoded body. Without a session nothing is sent. With one, exactly the request built by `GetItemCall` is sent, to the site's URL for its path. |
| Calls.AddFolderRun | src/sppyte/models.py:185-200 | SessionError, HttpError and JsonDecodeError as for every JSON read. Otherwise it succeeds exactly when the body is an object, and returns its `Exists` member, or False when that is absent. A body that is not an object gives AttributeError. Without a session nothing is sent. With one, exactly the request built by `AddFolderCall` is sent, to the site's URL for its path. |
| Calls.AddDocumentRun | src/sppyte/models.py:202-218 | SessionError, HttpError and JsonDecodeError as for every JSON read. Otherwise it succeeds exactly when the reply has a `UniqueId` that is not the sentinel, and returns it. It fails with ResponseFormatError or AttributeError otherwise. Without a session nothing is sent. With one, exactly the request built by `AddDocumentCall` is sent, to the site's URL for its path. |
| Calls.FolderExistsRun | src/sppyte/models.py:220-228 | SessionError, HttpError and JsonDecodeError as for every JSON read. Otherwise it succeeds exactly when the body is an object, and returns its `value` member, or False when that is absent. A body that is not an object gives AttributeError. Without a session nothing is sent. With one, exactly the request built by `FolderExistsCall` is sent, to the site's URL for its path. |
| Calls.DeleteDocumentRun | src/sppyte/models.py:230-240 | SessionError without a session, HttpError on a refused deletion, and otherwise True. Without a session nothing is sent. With one, exactly the request built by `DeleteDocumentCall` is sent, to the site's URL for its path. |
| Calls.DeleteFolderRun | src/sppyte/models.py:242-252 | SessionError without a session, HttpError on a refused deletion, and otherwise True. Without a session nothing is sent. With one, exactly the request built by `DeleteFolderCall` is sent, to the site's URL for its path. |
| Calls.ListContentsRun | src/sppyte/models.py:254-263 | SessionError, HttpError and JsonDecodeError as for every JSON read. Otherwise it succeeds exactly when the body is an object, and returns its `value` member, or an empty list when that is absent. A body that is not an object gives AttributeError. Without a session nothing is sent. With one, exactly the request built by `ListContentsCall` is sent, to the site's URL for its path. |
| Calls.MissingMemberDefaults | src/sppyte/models.py:228 | An accepted object reply without `value` is no error: `folder_exists` answers False, and `list_contents` answers an empty list (line 263). |
| Calls.GetDocumentRun | src/sppyte/models.py:265-274 | SessionError without a session, HttpError on a refused reply, and otherwise the raw content, never decoded. A body that is not JSON is no error here. Without a session nothing is sent. With one, exactly the request built by `GetDocumentCall` is sent, to the site's URL for its path. |
| Calls.IssueGrows | src/sppyte/models.py:37-44 | A request whose call keeps the call discipline extends the log by at most that one sound request, and by none without a session. |
| Calls.GrowsTrans | src/sppyte/models.py:86-89 | Two sound extensions of the log in sequence form one. |
| Calls.EnsureTypeSpec | src/sppyte/models.py:85-87 | With `__metadata` present, nothing is sent and the item is untouched. Without it, the type GET goes first. The item gains the marker exactly when that GET succeeds, and every other key is kept. update_item does the same at lines 161-163. |
| Calls.TypedWriteGrows | src/sppyte/models.py:84-99 | A typed write sends one sound request, or two when the type must be fetched first. This is add_item here, and update_item at lines 160-177. |
| Calls.PerformGrows | src/sppyte/models.py:84-274 | Every list and library operation appends one request, or two when it must fetch the item type, to what was sent before. Each request goes to the site's URL for its path. Every POST carries the cached digest. Every method override carries `If-Match: *`. Every GET has no body and asks for JSON without metadata. Without a session nothing is sent. |
| Calls.SingleCallGrows | src/sppyte/models.py:101-158 | PerformGrows for the operations that never fetch the type: these list operations, and the library operations at lines 185-274. |
| Calls.PerformSessionError | src/sppyte/models.py:44 | Every list and library operation raises SessionError exactly when the site has no session. |
| Calls.ListOpSessionError | src/sppyte/models.py:84-177 | PerformSessionError for the list operations. |
| Calls.LibraryOpSessionError | src/sppyte/models.py:185-228 | PerformSessionError for add_folder, add_document and folder_exists. |
| Calls.LibraryDeleteOrReadSessionError | src/sppyte/models.py:230-274 | PerformSessionError for the remaining library operations. |
| Models.JsonDict.constructor | src/sppyte/models.py:84 | The dictionary holds the given fields. |
| Models.Site.constructor | src/sppyte/models.py:25-28 | The site path is the host rstripped, "/", then the relative URL stripped. The relative URL and credentials are kept as given. There is no session or digest yet. |
| Models.Site.Open | src/sppyte/models.py:18-29 | Creating a site connects it. It sends exactly the context-info request, and yields a site only when the digest was parsed. That site keeps the given credentials, its session is fresh, open and carries those credentials, and its digest is the parsed one. |
| Models.Site.Request | src/sppyte/models.py:37-44 | The log and the result are exactly those of `Calls.Issue`. |
| Models.Site.GetFormDigest | src/sppyte/models.py:46-56 | The log and the result are exactly those of `Calls.FetchDigest`. |
| Models.Site.Connect | src/sppyte/models.py:58-62 | A fresh open session with the site's credentials replaces the old one, and stays in place even when fetching the digest fails. The digest is replaced only on success. Afterwards requests no longer raise SessionError. |
| Models.Site.Close | src/sppyte/models.py:64-66 | Closes the session if there is one. The site's session and digest fields are unchanged. |
| Models.Site.EnsureConnected | src/sppyte/models.py:69-70 | With a session, nothing changes and nothing is sent. Without one, the site connects as `Connect` states: a fresh open session carrying the site's credentials, the digest request sent, and the digest replaced only on success. `library` does the same at lines 74-75. |
| Models.Site.OpenList | src/sppyte/models.py:68-71 | With a session: the session, the digest and the log are unchanged, and a list is returned. Without one: the site connects as `Connect` states, with a fresh open session carrying the site's credentials, and a list is returned exactly when the digest was fetched. The list is fresh, with the given name, on this site. |
| Models.Site.OpenLibrary | src/sppyte/models.py:73-76 | With a session: the session, the digest and the log are unchanged, and a library is returned. Without one: the site connects as `Connect` states, with a fresh open session carrying the site's credentials, and a library is returned exactly when the digest was fetched. The library is fresh, with the given name, on this site. |
| Models.List.constructor | src/sppyte/models.py:80-82 | Keeps the name and the site. |
| Models.List.AddItem | src/sppyte/models.py:84-99 | Log and result as `Calls.AddItemRun`. The caller's dictionary gains the type marker exactly as `Calls.EnsureTypeSpec` states. |
| Models.List.AddAttachment | src/sppyte/models.py:101-112 | Log and result as `Calls.AddAttachmentRun`. |
| Models.List.DeleteItem | src/sppyte/models.py:114-126 | Log and result as `Calls.DeleteItemRun`. |
| Models.List.GetContents | src/sppyte/models.py:128-137 | Log and result as `Calls.GetContentsRun`. |
| Models.List.GetItemType | src/sppyte/models.py:139-148 | Log and result as `Calls.ItemTypeRun`. |
| Models.List.GetItem | src/sppyte/models.py:150-158 | Log and result as `Calls.GetItemRun`. |
| Models.List.UpdateItem | src/sppyte/models.py:160-177 | Log and result as `Calls.UpdateItemRun`. The caller's patch gains the type marker exactly as `Calls.EnsureTypeSpec` states. |
| Models.Library.constructor | src/sppyte/models.py:181-183 | Keeps the name and the site. |
| Models.Library.AddFolder | src/sppyte/models.py:185-200 | Log and result as `Calls.AddFolderRun`. |
| Models.Library.AddDocument | src/sppyte/models.py:202-218 | Log and result as `Calls.AddDocumentRun`. |
| Models.Library.FolderExists | src/sppyte/models.py:220-228 | Log and result as `Calls.FolderExistsRun`. The folder may be None. |
| Models.Library.DeleteDocument | src/sppyte/models.py:230-240 | Log and result as `Calls.DeleteDocumentRun`. |
| Models.Library.DeleteFolder | src/sppyte/models.py:242-252 | Log and result as `Calls.DeleteFolderRun`. The folder may be None. |
| Models.Library.ListContents | src/sppyte/models.py:254-263 | Log and result as `Calls.ListContentsRun`. |
| Models.Library.GetDocument | src/sppyte/models.py:265-274 | Log and result as `Calls.GetDocumentRun`. |

The model reproduces these behaviours of the code, including the surprising ones:

- `build_path` keeps empty segments, so a path can contain "//".
- A digest reply lacking `d` or `GetContextWebInformation` raises AttributeError, not ResponseFormatError.
- A failed `connect` leaves the new session in place and keeps the previous digest.
- `close` does not forget the session.

One behaviour is modelled as the code means it rather than as it runs. A request without a session raises SessionError in the model. `SessionError` exists for exactly this case: its docstring at src/sppyte/error.py:21-22 says it is raised when the session is not connected. The code's bare `raise SessionError` raises TypeError instead (see Findings), and `Errors.RaiseClass` models that.

The request paths reproduce three quirks of the code:

- `delete_folder` repeats the `_api/web/` prefix (`Calls.DeleteFolderPrefix`).
- `add_folder` posts the library name and the folder path without the site's relative URL (`Calls.AddFolderOmitsRelativeUrl`).
- `get_document` uses a path with a leading slash, which the URL computation strips anyway.

## Left out

- `src/sppyte/api.py` and `src/sppyte/main.py` are not part of this model. The first is a factory over foreign classes. The second imports a class that does not exist.
- NTLM authentication, the network and SharePoint itself are left out. The server is an oracle parameter of the transport: it may answer each request however it likes, given every request before it. Authentication failures surface only as the statuses the oracle returns. Transport-level exceptions that `session.request` can raise (src/sppyte/models.py:40), such as a connection error or a timeout, are not represented: the oracle always returns a reply.
- JSON decoding of reply bodies is left out. A reply carries its decoded body, or none when the body is not JSON. Streaming and the file objects behind uploads are left out: bytes are opaque.
- Header values: `requests` drops a header whose value is None. The model shows a missing digest as a JSON null in the header map instead.
- `Site.__enter__` and `Site.__exit__` are not modelled as separate members. Leaving the context is `Models.Site.Close`.
- Exception messages other than the parsers' sentinel texts, and exception chaining, are left out.
- The `folder` argument of `folder_exists` and `delete_folder` is `Option<string>`: None is skipped by `build_path`, so it addresses the subfolders alone (`Calls.NoneFolderSkipped`). Every other path argument (subfolders, `add_folder`'s folder, file names) is a string. A None among the subfolders would also be skipped in Python, and that case is not expressed. A value that is neither None nor a string makes `strip` raise in Python, and that case is not expressed either.
- No percent-encoding is done anywhere: names are spliced into paths verbatim, as the code does.
- A closed session stays usable in the model, as it does in the code, which never consults it. Reuse after close is not modelled as an error.
- Models.Site.Open: the Python constructor raises whatever connecting raises. `Open` returns that error as a `Failure` instead of handing out a half-built site.

## Findings

| source | as written | input that shows it | evidently intended | confidence | as-written member | corrected member |
|---|---|---|---|---|---|---|
| src/sppyte/models.py:44 | `raise SessionError` raises the bare class. Python instantiates it with no arguments, but the base constructor (src/sppyte/error.py:12-14) requires a message, so the caller receives TypeError. | Any `request` on a site whose `session` attribute was assigned None by hand. The public API never reaches this state: `__init__` sets the session before fetching the digest, and `close` never clears it. | A SessionError reaches the caller. | high; not executed | Errors.RaiseClass | Calls.Issue |

/** The client's objects: a site holding a session and a cached digest, and
    the lists and libraries opened from it. Every operation goes through
    the site's request method to the transport, and each is proved to send
    exactly the requests, and to return exactly the outcome, that the
    matching function of module Calls describes. */
module Models {
  import opened Errors
  import opened JsonValue
  import opened Text
  import opened Utils
  import opened Http
  import opened Calls

  /** A dictionary the caller passes in and the client may add a key to. */
  class JsonDict {
    var fields: map<string, Json>

    constructor (fields: map<string, Json>)
      ensures this.fields == fields
    {
      this.fields := fields;
    }
  }

  class Site {
    const sitePath: string
    const relativeUrl: string
    const username: string
    const password: string
    const transport: Transport
    var session: Session?
    var formDigest: Option<Json>

    /** What the site's operations read from it. */
    function Env(): Env
      reads this
    {
      Calls.Env(sitePath, relativeUrl, session != null, formDigest, transport.server)
    }

    /** The fields set before connecting: the base path, the relative URL as
        given, the credentials; no session and no digest yet. */
    constructor (host: string, siteRelativeUrl: string, username: string, password: string,
                 transport: Transport)
      ensures sitePath == SitePath(host, siteRelativeUrl)
      ensures relativeUrl == siteRelativeUrl
      ensures this.username == username && this.password == password
      ensures this.transport == transport
      ensures session == null && formDigest == None
    {
      sitePath := RStrip(host) + "/" + Strip(siteRelativeUrl);
      relativeUrl := siteRelativeUrl;
      this.username := username;
      this.password := password;
      this.transport := transport;
      session := null;
      formDigest := None;
    }

    /** Creating a site connects it: a site is handed out only when the
        digest could be fetched. */
    static method Open(host: string, siteRelativeUrl: string, username: string, password: string,
                       transport: Transport) returns (r: Result<Site>)
      modifies transport
      ensures var env := Calls.Env(SitePath(host, siteRelativeUrl), siteRelativeUrl, true, None,
                                   transport.server);
              var t := FetchDigest(env, old(transport.sent));
              && transport.sent == t.log
              && (r.Success? <==> t.result.Success?)
              && (r.Failure? ==> r.error == t.result.error)
              && (r.Success? ==> fresh(r.value) && r.value.transport == transport
                                 && r.value.Env() == env.(digest := Some(t.result.value)))
      ensures r.Success? ==>
                && r.value.username == username && r.value.password == password
                && r.value.session != null && fresh(r.value.session) && !r.value.session.closed
                && r.value.session.username == username && r.value.session.password == password
    {
      var site := new Site(host, siteRelativeUrl, username, password, transport);
      var c := site.Connect();
      if c.Failure? {
        return Failure(c.error);
      }
      return Success(site);
    }

    /** The request method: with a session, one request to the site's URL
        for `call.path`, failing on a 4xx or 5xx reply; without one,
        SessionError and nothing sent. */
    method Request(call: Call) returns (r: Result<Reply>)
      modifies transport
      ensures var t := Issue(Env(), old(transport.sent), call);
              transport.sent == t.log && r == t.result
    {
      if session != null {
        var reply := transport.Send(Req(Env(), call));
        r := RaiseForStatus(reply);
      } else {
        r := Failure(SessionError);
      }
    }

    /** Fetches the request digest from the context endpoint. */
    method GetFormDigest() returns (r: Result<Json>)
      modifies transport
      ensures var t := FetchDigest(Env(), old(transport.sent));
              transport.sent == t.log && r == t.result
    {
      var reply :- Request(ContextInfoCall());
      var body :- ReadJson(reply);
      r := ParseFormDigest(body);
    }

    /** A fresh session replaces the old one, then the digest is fetched;
        the digest is replaced only when that succeeds, and the new session
        stays in place either way. */
    method Connect() returns (r: Result<()>)
      modifies this, transport
      ensures fresh(session) && !session.closed && Env().connected
      ensures session.username == username && session.password == password
      ensures var t := FetchDigest(old(Env()).(connected := true), old(transport.sent));
              && transport.sent == t.log
              && (r.Success? <==> t.result.Success?)
              && (r.Failure? ==> r.error == t.result.error)
              && formDigest == (if t.result.Success? then Some(t.result.value) else old(formDigest))
    {
      var s := new Session(username, password);
      session := s;
      var d := GetFormDigest();
      if d.Success? {
        formDigest := Some(d.value);
        r := Success(());
      } else {
        r := Failure(d.error);
      }
    }

    /** Closes the session if there is one; the site keeps it, and keeps
        its digest. */
    method Close()
      modifies session
      ensures session == old(session) && formDigest == old(formDigest)
      ensures session != null ==> session.closed
    {
      if session != null {
        session.Close();
      }
    }

    /** Connects first when there is no session yet. */
    method EnsureConnected() returns (r: Result<()>)
      modifies this, transport
      ensures old(session) != null ==>
                r.Success? && session == old(session) && formDigest == old(formDigest)
                && transport.sent == old(transport.sent)
      ensures old(session) == null ==>
                var t := FetchDigest(old(Env()).(connected := true), old(transport.sent));
                && fresh(session) && !session.closed
                && session.username == username && session.password == password
                && transport.sent == t.log
                && (r.Success? <==> t.result.Success?)
                && (r.Failure? ==> r.error == t.result.error)
                && formDigest == (if t.result.Success? then Some(t.result.value) else old(formDigest))
    {
      if session == null {
        r := Connect();
      } else {
        r := Success(());
      }
    }

    /** Opens a list by its title, connecting first if need be. */
    method OpenList(name: string) returns (r: Result<List>)
      modifies this, transport
      ensures old(session) != null ==>
                r.Success? && session == old(session) && formDigest == old(formDigest)
                && transport.sent == old(transport.sent)
      ensures old(session) == null ==>
                var t := FetchDigest(old(Env()).(connected := true), old(transport.sent));
                && fresh(session) && !session.closed
                && session.username == username && session.password == password
                && transport.sent == t.log
                && (r.Success? <==> t.result.Success?)
                && (r.Failure? ==> r.error == t.result.error)
                && formDigest == (if t.result.Success? then Some(t.result.value) else old(formDigest))
      ensures r.Success? ==> fresh(r.value) && r.value.name == name && r.value.site == this
                             && session != null
    {
      var c := EnsureConnected();
      if c.Failure? {
        return Failure(c.error);
      }
      var l := new List(name, this);
      return Success(l);
    }

    /** Opens a document library by its name, connecting first if need be. */
    method OpenLibrary(name: string) returns (r: Result<Library>)
      modifies this, transport
      ensures old(session) != null ==>
                r.Success? && session == old(session) && formDigest == old(formDigest)
                && transport.sent == old(transport.sent)
      ensures old(session) == null ==>
                var t := FetchDigest(old(Env()).(connected := true), old(transport.sent));
                && fresh(session) && !session.closed
                && session.username == username && session.password == password
                && transport.sent == t.log
                && (r.Success? <==> t.result.Success?)
                && (r.Failure? ==> r.error == t.result.error)
                && formDigest == (if t.result.Success? then Some(t.result.value) else old(formDigest))
      ensures r.Success? ==> fresh(r.value) && r.value.name == name && r.value.site == this
                             && session != null
    {
      var c := EnsureConnected();
      if c.Failure? {
        return Failure(c.error);
      }
      var l := new Library(name, this);
      return Success(l);
    }
  }

  /** A SharePoint list, addressed by its title. */
  class List {
    const name: string
    const site: Site

    constructor (name: string, site: Site)
      ensures this.name == name && this.site == site
    {
      this.name := name;
      this.site := site;
    }

    /** Adds the item, inserting a type marker first when it has none. */
    method AddItem(item: JsonDict) returns (r: Result<Json>)
      modifies site.transport, item
      ensures var typed := EnsureType(site.Env(), old(site.transport.sent), name, old(item.fields));
              var t := AddItemRun(site.Env(), old(site.transport.sent), name, old(item.fields));
              site.transport.sent == t.log && r == t.result
              && item.fields == ItemAfter(old(item.fields), typed)
    {
      if MetadataKey !in item.fields {
        var itemType :- GetItemType();
        item.fields := item.fields[MetadataKey := TypeMarker(itemType)];
      }
      var reply :- site.Request(AddItemCall(name, site.formDigest, item.fields));
      var body :- ReadJson(reply);
      r := ParseAddItem(body);
    }

    method AddAttachment(spId: int, fileName: string, attachment: Bytes) returns (r: Result<int>)
      modifies site.transport
      ensures var t := AddAttachmentRun(site.Env(), old(site.transport.sent), name, spId,
                                        fileName, attachment);
              site.transport.sent == t.log && r == t.result
    {
      var _ :- site.Request(AddAttachmentCall(name, spId, fileName, site.formDigest, attachment));
      r := Success(spId);
    }

    method DeleteItem(spId: int) returns (r: Result<bool>)
      modifies site.transport
      ensures var t := DeleteItemRun(site.Env(), old(site.transport.sent), name, spId);
              site.transport.sent == t.log && r == t.result
    {
      var _ :- site.Request(DeleteItemCall(name, spId, site.formDigest));
      r := Success(true);
    }

    method GetContents(params: map<string, string>) returns (r: Result<Json>)
      modifies site.transport
      ensures var t := GetContentsRun(site.Env(), old(site.transport.sent), name, params);
              site.transport.sent == t.log && r == t.result
    {
      var reply :- site.Request(GetContentsCall(name, params));
      r := ReadJson(reply);
    }

    method GetItemType() returns (r: Result<Json>)
      modifies site.transport
      ensures var t := ItemTypeRun(site.Env(), old(site.transport.sent), name);
              site.transport.sent == t.log && r == t.result
    {
      var reply :- site.Request(ItemTypeCall(name));
      var body :- ReadJson(reply);
      r := ParseItemType(body);
    }

    method GetItem(spId: int) returns (r: Result<Json>)
      modifies site.transport
      ensures var t := GetItemRun(site.Env(), old(site.transport.sent), name, spId);
              site.transport.sent == t.log && r == t.result
    {
      var reply :- site.Request(GetItemCall(name, spId));
      r := ReadJson(reply);
    }

    /** Merges the patch into the item, inserting a type marker first when
        it has none. */
    method UpdateItem(spId: int, patch: JsonDict) returns (r: Result<int>)
      modifies site.transport, patch
      ensures var typed := EnsureType(site.Env(), old(site.transport.sent), name, old(patch.fields));
              var t := UpdateItemRun(site.Env(), old(site.transport.sent), name, spId, old(patch.fields));
              site.transport.sent == t.log && r == t.result
              && patch.fields == ItemAfter(old(patch.fields), typed)
    {
      if MetadataKey !in patch.fields {
        var itemType :- GetItemType();
        patch.fields := patch.fields[MetadataKey := TypeMarker(itemType)];
      }
      var _ :- site.Request(UpdateItemCall(name, spId, site.formDigest, patch.fields));
      r := Success(spId);
    }
  }

  /** A SharePoint document library, addressed by its name. */
  class Library {
    const name: string
    const site: Site

    constructor (name: string, site: Site)
      ensures this.name == name && this.site == site
    {
      this.name := name;
      this.site := site;
    }

    method AddFolder(folder: string, subfolders: seq<string>) returns (r: Result<Json>)
      modifies site.transport
      ensures var t := AddFolderRun(site.Env(), old(site.transport.sent), name, folder, subfolders);
              site.transport.sent == t.log && r == t.result
    {
      var reply :- site.Request(AddFolderCall(name, folder, subfolders, site.formDigest));
      var body :- ReadJson(reply);
      r := Get(body, "Exists", JBool(false));
    }

    method AddDocument(fileName: string, document: Bytes, subfolders: seq<string>)
      returns (r: Result<Json>)
      modifies site.transport
      ensures var t := AddDocumentRun(site.Env(), old(site.transport.sent), name, fileName,
                                      document, subfolders);
              site.transport.sent == t.log && r == t.result
    {
      var reply :- site.Request(AddDocumentCall(site.relativeUrl, name, fileName, subfolders,
                                                site.formDigest, document));
      var body :- ReadJson(reply);
      r := ParseAddDocument(body);
    }

    /** `folder` may be None, which addresses the subfolders alone. */
    method FolderExists(folder: Option<string>, subfolders: seq<string>) returns (r: Result<Json>)
      modifies site.transport
      ensures var t := FolderExistsRun(site.Env(), old(site.transport.sent), name, folder, subfolders);
              site.transport.sent == t.log && r == t.result
    {
      var reply :- site.Request(FolderExistsCall(site.relativeUrl, name, folder, subfolders));
      var body :- ReadJson(reply);
      r := Get(body, "value", JBool(false));
    }

    method DeleteDocument(fileName: string, subfolders: seq<string>) returns (r: Result<bool>)
      modifies site.transport
      ensures var t := DeleteDocumentRun(site.Env(), old(site.transport.sent), name, fileName,
                                         subfolders);
              site.transport.sent == t.log && r == t.result
    {
      var _ :- site.Request(DeleteDocumentCall(site.relativeUrl, name, fileName, subfolders,
                                               site.formDigest));
      r := Success(true);
    }

    /** `folder` may be None, which addresses the subfolders alone. */
    method DeleteFolder(folder: Option<string>, subfolders: seq<string>) returns (r: Result<bool>)
      modifies site.transport
      ensures var t := DeleteFolderRun(site.Env(), old(site.transport.sent), name, folder, subfolders);
              site.transport.sent == t.log && r == t.result
    {
      var _ :- site.Request(DeleteFolderCall(site.relativeUrl, name, folder, subfolders,
                                             site.formDigest));
      r := Success(true);
    }

    method ListContents(folders: seq<string>, params: map<string, string>) returns (r: Result<Json>)
      modifies site.transport
      ensures var t := ListContentsRun(site.Env(), old(site.transport.sent), name, folders, params);
              site.transport.sent == t.log && r == t.result
    {
      var reply :- site.Request(ListContentsCall(site.relativeUrl, name, folders, params));
      var body :- ReadJson(reply);
      r := Get(body, "value", JArr([]));
    }

    method GetDocument(fileName: string, folders: seq<string>) returns (r: Result<Bytes>)
      modifies site.transport
      ensures var t := GetDocumentRun(site.Env(), old(site.transport.sent), name, fileName, folders);
              site.transport.sent == t.log && r == t.result
    {
      var reply :- site.Request(GetDocumentCall(site.relativeUrl, name, fileName, folders));
      r := Success(reply.content);
    }
  }
}

/** The path builder and the reply-field parsers of the client: pure
    functions over strings and decoded JSON. */
module Utils {
  import opened Errors
  import opened JsonValue
  import opened Text

  // ---------------------------------------------------------------------
  // Path builder
  // ---------------------------------------------------------------------

  /** Some part of the argument list is not None. */
  predicate HasPart(parts: seq<Option<string>>)
  {
    exists i | 0 <= i < |parts| :: parts[i].Some?
  }

  /** The list comprehension of the path builder: every part that is not
      None, stripped of slashes at both ends, in argument order. */
  function Segments(parts: seq<Option<string>>): (segs: seq<string>)
    ensures |segs| <= |parts|
    ensures forall i | 0 <= i < |segs| :: Trimmed(segs[i])
  {
    if parts == [] then []
    else (if parts[0].Some? then (StripSpec(parts[0].value); [Strip(parts[0].value)]) else [])
         + Segments(parts[1..])
  }

  /** `build_path(*parts)`: the segments joined by slashes behind one
      leading slash, or just "/" when the join is empty. */
  function BuildPath(parts: seq<Option<string>>): (r: string)
    ensures r != [] && r[0] == '/'
  {
    var path := Join(Segments(parts));
    if path != "" then "/" + path else "/"
  }

  /** The segments of two argument lists are those of each, in order. */
  lemma {:induction false} SegmentsAppend(p: seq<Option<string>>, q: seq<Option<string>>)
    ensures Segments(p + q) == Segments(p) + Segments(q)
  {
    if p != [] {
      assert (p + q)[0] == p[0];
      assert (p + q)[1..] == p[1..] + q;
      SegmentsAppend(p[1..], q);
    } else {
      assert p + q == q;
    }
  }

  /** There are no segments exactly when every part is None. */
  lemma {:induction false} SegmentsEmpty(parts: seq<Option<string>>)
    ensures Segments(parts) == [] <==> !HasPart(parts)
  {
    if parts != [] {
      SegmentsEmpty(parts[1..]);
      if HasPart(parts[1..]) {
        var i :| 0 <= i < |parts[1..]| && parts[1..][i].Some?;
        assert parts[i + 1].Some?;
      }
      if parts[0].None? && HasPart(parts) {
        var i :| 0 <= i < |parts| && parts[i].Some?;
        assert parts[1..][i - 1].Some?;
      }
    }
  }

  /** The result is the bare root "/" exactly when no part is given, or the
      only part given consists of slashes; in particular no arguments, or
      only None arguments, give "/". */
  lemma BuildPathIsRoot(parts: seq<Option<string>>)
    ensures BuildPath(parts) == "/" <==> !HasPart(parts) || Segments(parts) == [""]
  {
    SegmentsEmpty(parts);
    JoinEmpty(Segments(parts));
  }

  /** A single part gives a slash and the part without its outer slashes. */
  lemma BuildPathSingle(s: string)
    ensures BuildPath([Some(s)]) == "/" + Strip(s)
  {
    assert Segments([Some(s)]) == [Strip(s)] by {
      assert [Some(s)][1..] == [];
    }
  }

  /** None parts are skipped: dropping one anywhere changes nothing. */
  lemma BuildPathSkipsNone(a: seq<Option<string>>, b: seq<Option<string>>)
    ensures BuildPath(a + [None] + b) == BuildPath(a + b)
  {
    var none: seq<Option<string>> := [None];
    assert a + [None] + b == (a + none) + b;
    SegmentsAppend(a + none, b);
    SegmentsAppend(a, none);
    SegmentsAppend(a, b);
    assert Segments(none) == [] by {
      assert none[1..] == [];
    }
    calc {
      Segments(a + [None] + b);
      Segments(a + none) + Segments(b);
      Segments(a) + Segments(none) + Segments(b);
      { assert Segments(a) + [] == Segments(a); }
      Segments(a + b);
    }
  }

  /** Two parts agree up to their outer slashes. */
  predicate SameSegment(x: Option<string>, y: Option<string>)
  {
    x.None? == y.None? && (x.Some? ==> Strip(x.value) == Strip(y.value))
  }

  /** Outer slashes of a part do not matter: argument lists that agree part
      by part up to them build the same path. */
  lemma {:induction false} BuildPathStripInsensitive(p: seq<Option<string>>, q: seq<Option<string>>)
    requires |p| == |q|
    requires forall i | 0 <= i < |p| :: SameSegment(p[i], q[i])
    ensures Segments(p) == Segments(q)
    ensures BuildPath(p) == BuildPath(q)
  {
    if p != [] {
      assert SameSegment(p[0], q[0]);
      assert forall i | 0 <= i < |p[1..]| :: p[1..][i] == p[i + 1] && q[1..][i] == q[i + 1];
      BuildPathStripInsensitive(p[1..], q[1..]);
    }
  }

  /** Order is kept and exactly one slash separates: the path of a
      concatenation is the concatenation of the paths, as long as each side
      has a part. With BuildPathSingle this fixes every result. */
  lemma BuildPathConcat(p: seq<Option<string>>, q: seq<Option<string>>)
    requires HasPart(p) && HasPart(q)
    ensures BuildPath(p + q) == BuildPath(p) + BuildPath(q)
  {
    SegmentsEmpty(p);
    SegmentsEmpty(q);
    SegmentsAppend(p, q);
    JoinAppend(Segments(p), Segments(q));
  }

  /** Two parts that are not None. */
  lemma BuildPathPair(x: string, y: string)
    ensures BuildPath([Some(x), Some(y)]) == "/" + Strip(x) + "/" + Strip(y)
  {
    var p: seq<Option<string>> := [Some(x)];
    var q: seq<Option<string>> := [Some(y)];
    assert p[0].Some? && q[0].Some?;
    BuildPathConcat(p, q);
    BuildPathSingle(x);
    BuildPathSingle(y);
    assert [Some(x), Some(y)] == p + q;
  }

  /** A part without outer slashes is its own segment. */
  lemma StripTrimmed(s: string)
    requires Trimmed(s)
    ensures Strip(s) == s
  {
    assert s == [] + s + [];
    StripUnique([], s, []);
  }

  /** Outer slashes are dropped, as in build_path("a/", "/b/") ==
      build_path("a", "b") == "/a/b". */
  lemma BuildPathStripsOuterSlashes(x: string, y: string)
    requires Trimmed(x) && Trimmed(y)
    ensures BuildPath([Some(x + "/"), Some("/" + y + "/")]) == "/" + x + "/" + y
    ensures BuildPath([Some(x), Some(y)]) == "/" + x + "/" + y
  {
    assert x + "/" == [] + x + "/";
    StripUnique([], x, "/");
    StripUnique("/", y, "/");
    StripTrimmed(x);
    StripTrimmed(y);
    BuildPathPair(x + "/", "/" + y + "/");
    BuildPathPair(x, y);
  }

  /** A part made only of slashes, the empty part included, strips to an
      empty segment. */
  lemma StripSlashes(e: string)
    requires IsSlashes(e)
    ensures Strip(e) == ""
  {
    assert e == e + [] + [];
    StripUnique(e, [], []);
  }

  /** Adding one more part adds a slash and that part's segment. */
  lemma BuildPathAppendPart(p: seq<Option<string>>, s: string)
    requires HasPart(p)
    ensures BuildPath(p + [Some(s)]) == BuildPath(p) + "/" + Strip(s)
  {
    var q: seq<Option<string>> := [Some(s)];
    assert q[0].Some?;
    BuildPathConcat(p, q);
    BuildPathSingle(s);
  }

  /** A part followed by an empty one leaves a trailing slash. */
  lemma BuildPathTrailingEmpty(x: string, e: string)
    requires Trimmed(x) && IsSlashes(e)
    ensures BuildPath([Some(x), Some(e)]) == "/" + x + "/" + ""
  {
    StripTrimmed(x);
    StripSlashes(e);
    BuildPathPair(x, e);
  }

  /** Empty segments survive and give a double slash, as in
      build_path("a", "", "b") == "/a//b". */
  lemma BuildPathKeepsEmptySegments(x: string, e: string, y: string)
    requires Trimmed(x) && Trimmed(y) && IsSlashes(e)
    ensures BuildPath([Some(x), Some(e), Some(y)]) == "/" + x + "//" + y
  {
    var p: seq<Option<string>> := [Some(x), Some(e)];
    assert p[0].Some?;
    assert [Some(x), Some(e), Some(y)] == p + [Some(y)];
    BuildPathAppendPart(p, y);
    BuildPathTrailingEmpty(x, e);
    StripTrimmed(y);
    DoubleSlashJoin(x, y);
  }

  /** The string identity behind the double slash. */
  lemma DoubleSlashJoin(x: string, y: string)
    ensures ("/" + x + "/" + "") + "/" + y == "/" + x + "//" + y
  {
    assert "//" == "/" + "/";
  }

  /** Two empty parts give "//", as in build_path("", "") == "//". */
  lemma BuildPathTwoEmptyParts(e: string, e': string)
    requires IsSlashes(e) && IsSlashes(e')
    ensures BuildPath([Some(e), Some(e')]) == "//"
  {
    StripSlashes(e);
    StripSlashes(e');
    BuildPathPair(e, e');
  }

  // ---------------------------------------------------------------------
  // Reply-field parsers
  // ---------------------------------------------------------------------

  /** The text each parser uses both as its stand-in for "absent" and as
      the message of the error it raises. */
  const FormDigestSentinel := "Form digest value"
  const ItemTypeSentinel := "List item type"
  const ItemIdSentinel := "Item id"
  const DocumentIdSentinel := "Document id"

  /** Where the digest sits in the context-information reply. */
  const ContextInfoPath: seq<string> := ["d", "GetContextWebInformation"]
  const FormDigestPath: seq<string> := ContextInfoPath + ["FormDigestValue"]

  /** The two lookups of the digest reply, one level at a time. */
  lemma FormDigestLookup(body: Json)
    ensures Lookup(body, ContextInfoPath) ==
              if body.JObj? && "d" in body.fields
                 && body.fields["d"].JObj? && "GetContextWebInformation" in body.fields["d"].fields
              then Some(body.fields["d"].fields["GetContextWebInformation"])
              else None
    ensures Lookup(body, FormDigestPath) ==
              if ObjectAt(body, ContextInfoPath)
                 && "FormDigestValue" in Lookup(body, ContextInfoPath).value.fields
              then Some(Lookup(body, ContextInfoPath).value.fields["FormDigestValue"])
              else None
  {
    LookupStep(body, "d", ["GetContextWebInformation"]);
    LookupStep(body, "d", ["GetContextWebInformation", "FormDigestValue"]);
    if body.JObj? && "d" in body.fields {
      var d := body.fields["d"];
      LookupStep(d, "GetContextWebInformation", []);
      LookupStep(d, "GetContextWebInformation", ["FormDigestValue"]);
      if d.JObj? && "GetContextWebInformation" in d.fields {
        LookupStep(d.fields["GetContextWebInformation"], "FormDigestValue", []);
      }
    }
  }

  /** `parse_form_digest`: the FormDigestValue member under the verbose
      envelope. Absence is detected by comparing with the sentinel, so a
      digest equal to it is refused; a missing outer level makes a `.get`
      land on the sentinel string, which is an AttributeError. */
  function ParseFormDigest(body: Json): (r: Result<Json>)
    ensures r.Success? <==>
              Lookup(body, FormDigestPath).Some? &&
              Lookup(body, FormDigestPath).value != JStr(FormDigestSentinel)
    ensures r.Success? ==> Lookup(body, FormDigestPath) == Some(r.value)
    ensures ObjectAt(body, ContextInfoPath) && r.Failure? ==>
              r.error == ResponseFormatError(FormDigestSentinel)
    ensures !ObjectAt(body, ContextInfoPath) ==> r == Failure(AttributeError)
  {
    FormDigestLookup(body);
    var val := JStr(FormDigestSentinel);
    var d :- Get(body, "d", val);
    var info :- Get(d, "GetContextWebInformation", val);
    var digest :- Get(info, "FormDigestValue", val);
    if digest == val then Failure(ResponseFormatError(FormDigestSentinel)) else Success(digest)
  }

  /** The shared shape of the three top-level parsers: the member `key`
      unless it is absent or equal to `sentinel`. */
  function ParseField(body: Json, key: string, sentinel: string): (r: Result<Json>)
    ensures body.JObj? && key in body.fields && body.fields[key] != JStr(sentinel) ==>
              r == Success(body.fields[key])
    ensures body.JObj? && (key !in body.fields || body.fields[key] == JStr(sentinel)) ==>
              r == Failure(ResponseFormatError(sentinel))
    ensures !body.JObj? ==> r == Failure(AttributeError)
  {
    var value :- Get(body, key, JStr(sentinel));
    if value == JStr(sentinel) then Failure(ResponseFormatError(sentinel)) else Success(value)
  }

  /** `parse_item_type`: the list's ListItemEntityTypeFullName. */
  function ParseItemType(body: Json): (r: Result<Json>)
    ensures r.Success? <==>
              Lookup(body, ["ListItemEntityTypeFullName"]).Some? &&
              Lookup(body, ["ListItemEntityTypeFullName"]).value != JStr(ItemTypeSentinel)
    ensures r.Success? ==> Lookup(body, ["ListItemEntityTypeFullName"]) == Some(r.value)
    ensures body.JObj? && r.Failure? ==> r.error == ResponseFormatError(ItemTypeSentinel)
    ensures !body.JObj? ==> r == Failure(AttributeError)
  {
    LookupStep(body, "ListItemEntityTypeFullName", []);
    ParseField(body, "ListItemEntityTypeFullName", ItemTypeSentinel)
  }

  /** `parse_add_item`: the ID the server gave the new item. */
  function ParseAddItem(body: Json): (r: Result<Json>)
    ensures r.Success? <==>
              Lookup(body, ["ID"]).Some? && Lookup(body, ["ID"]).value != JStr(ItemIdSentinel)
    ensures r.Success? ==> Lookup(body, ["ID"]) == Some(r.value)
    ensures body.JObj? && r.Failure? ==> r.error == ResponseFormatError(ItemIdSentinel)
    ensures !body.JObj? ==> r == Failure(AttributeError)
  {
    LookupStep(body, "ID", []);
    ParseField(body, "ID", ItemIdSentinel)
  }

  /** `parse_add_document`: the UniqueId of the uploaded document. */
  function ParseAddDocument(body: Json): (r: Result<Json>)
    ensures r.Success? <==>
              Lookup(body, ["UniqueId"]).Some? && Lookup(body, ["UniqueId"]).value != JStr(DocumentIdSentinel)
    ensures r.Success? ==> Lookup(body, ["UniqueId"]) == Some(r.value)
    ensures body.JObj? && r.Failure? ==> r.error == ResponseFormatError(DocumentIdSentinel)
    ensures !body.JObj? ==> r == Failure(AttributeError)
  {
    LookupStep(body, "UniqueId", []);
    ParseField(body, "UniqueId", DocumentIdSentinel)
  }

  /** A member that is not a string can never equal a sentinel, so every
      parser returns it as it is, in any reply that holds it. */
  lemma ParsersKeepNonStrings(body: Json, v: Json)
    requires !v.JStr?
    ensures Lookup(body, ["ListItemEntityTypeFullName"]) == Some(v) ==> ParseItemType(body) == Success(v)
    ensures Lookup(body, ["ID"]) == Some(v) ==> ParseAddItem(body) == Success(v)
    ensures Lookup(body, ["UniqueId"]) == Some(v) ==> ParseAddDocument(body) == Success(v)
    ensures Lookup(body, FormDigestPath) == Some(v) ==> ParseFormDigest(body) == Success(v)
    ensures ParseItemType(JObj(map["ListItemEntityTypeFullName" := v])) == Success(v)
    ensures ParseAddItem(JObj(map["ID" := v])) == Success(v)
    ensures ParseAddDocument(JObj(map["UniqueId" := v])) == Success(v)
    ensures ParseFormDigest(JObj(map["d" := JObj(map["GetContextWebInformation" :=
              JObj(map["FormDigestValue" := v])])])) == Success(v)
  {
    var inner := JObj(map["FormDigestValue" := v]);
    var info := JObj(map["GetContextWebInformation" := inner]);
    var body := JObj(map["d" := info]);
    LookupStep(body, "d", ["GetContextWebInformation", "FormDigestValue"]);
    LookupStep(info, "GetContextWebInformation", ["FormDigestValue"]);
    LookupStep(inner, "FormDigestValue", []);
  }

  /** The sentinel comparison at work: a genuine value equal to the
      sentinel is refused, and a reply lacking the inner envelope fails
      with AttributeError rather than ResponseFormatError. */
  lemma ParserQuirks()
    ensures ParseItemType(JObj(map["ListItemEntityTypeFullName" := JStr("List item type")])) ==
            Failure(ResponseFormatError("List item type"))
    ensures ParseFormDigest(JObj(map["d" := JObj(map[])])) == Failure(AttributeError)
    ensures ParseFormDigest(JObj(map["d" := JObj(map["GetContextWebInformation" :=
              JObj(map["FormDigestValue" := JStr("X")])])])) == Success(JStr("X"))
  {
    var body := JObj(map["d" := JObj(map[])]);
    LookupStep(body, "d", ["GetContextWebInformation"]);
    LookupStep(JObj(map[]), "GetContextWebInformation", []);
    var inner := JObj(map["FormDigestValue" := JStr("X")]);
    var info := JObj(map["GetContextWebInformation" := inner]);
    var full := JObj(map["d" := info]);
    LookupStep(full, "d", ["GetContextWebInformation", "FormDigestValue"]);
    LookupStep(info, "GetContextWebInformation", ["FormDigestValue"]);
    LookupStep(inner, "FormDigestValue", []);
  }
}

/** The document manager page: it lists the knowledge-base documents,
    filters them by a search term, keeps a selection of names and deletes
    the selected documents. The network calls are inputs: what the list
    request answers and where a run of deletes stops. */
module ManageDocuments {
  import opened Common

  // ---------------------------------------------------------------------------
  // encodeURIComponent

  /** The characters `encodeURIComponent` leaves as they are. */
  predicate Unreserved(c: char) {
    ('A' <= c <= 'Z') || ('a' <= c <= 'z') || ('0' <= c <= '9') || c in "-_.!~*'()"
  }

  /** The UTF-8 bytes of one code point. */
  function Utf8(c: char): (bytes: seq<nat>)
    ensures 1 <= |bytes| <= 4
    ensures forall i :: 0 <= i < |bytes| ==> bytes[i] < 256
  {
    var cp := c as int;
    if cp < 0x80 then [cp]
    else if cp < 0x800 then [0xC0 + cp / 64, 0x80 + cp % 64]
    else if cp < 0x10000 then [0xE0 + cp / 4096, 0x80 + (cp / 64) % 64, 0x80 + cp % 64]
    else [0xF0 + cp / 262144, 0x80 + (cp / 4096) % 64, 0x80 + (cp / 64) % 64, 0x80 + cp % 64]
  }

  function HexDigit(d: nat): char
    requires d < 16
  {
    "0123456789ABCDEF"[d]
  }

  function PercentBytes(bytes: seq<nat>): (r: string)
    requires forall i :: 0 <= i < |bytes| ==> bytes[i] < 256
    ensures |r| == 3 * |bytes|
    ensures forall i :: 0 <= i < |r| ==> r[i] == '%' || Unreserved(r[i])
    decreases |bytes|
  {
    if bytes == [] then ""
    else ['%', HexDigit(bytes[0] / 16), HexDigit(bytes[0] % 16)] + PercentBytes(bytes[1..])
  }

  function EncodeChar(c: char): string {
    if Unreserved(c) then [c] else PercentBytes(Utf8(c))
  }

  /** `encodeURIComponent(s)`: unreserved characters stay, every other one
      becomes the percent-escapes of its UTF-8 bytes. */
  function EncodeURIComponent(s: string): (r: string)
    ensures forall i :: 0 <= i < |r| ==> r[i] == '%' || Unreserved(r[i])
    ensures |s| <= |r|
    decreases |s|
  {
    if s == [] then "" else EncodeChar(s[0]) + EncodeURIComponent(s[1..])
  }

  /** A key made of unreserved characters is its own encoding. */
  lemma {:induction false} EncodeUnreserved(s: string)
    requires forall i :: 0 <= i < |s| ==> Unreserved(s[i])
    ensures EncodeURIComponent(s) == s
    decreases |s|
  {
    if s != [] {
      EncodeUnreserved(s[1..]);
    }
  }

  // ---------------------------------------------------------------------------
  // Parsing the listing

  /** One entry of the listing's `files`: its key, size and last change. */
  datatype RawDoc = RawDoc(key: string, size: Option<int>, lastModified: Option<string>)

  /** A size or a date as shown: "--", or the value formatted for the
      locale (that formatting is not modelled). */
  datatype Shown<T> = Dashes | Formatted(value: T)

  datatype Doc = Doc(name: string, docType: string, size: Shown<int>, lastModified: Shown<string>,
                     url: string, deleteEndpoint: string)

  /** `formatSize` for an absent size; a present one is shown formatted. */
  function FormatSize(bytes: Option<int>): (r: Shown<int>)
    ensures r.Dashes? <==> bytes.None?
  {
    if bytes.None? then Dashes else Formatted(bytes.value)
  }

  /** `formatDate`: an absent or empty date is "--". */
  function FormatDate(iso: Option<string>): (r: Shown<string>)
    ensures r.Dashes? <==> iso.None? || iso.value == ""
  {
    if iso.None? || iso.value == "" then Dashes else Formatted(iso.value)
  }

  function FileUrl(api: string, key: string): string {
    api + "files/" + EncodeURIComponent(key)
  }

  function ParseDoc(api: string, d: RawDoc): Doc {
    Doc(d.key, Upper(LastSegment(d.key, '.')), FormatSize(d.size), FormatDate(d.lastModified),
        FileUrl(api, d.key), FileUrl(api, d.key))
  }

  function ParseAll(api: string, files: seq<RawDoc>): (docs: seq<Doc>)
    ensures |docs| == |files|
    ensures forall i :: 0 <= i < |files| ==> docs[i] == ParseDoc(api, files[i])
  {
    seq(|files|, i requires 0 <= i < |files| => ParseDoc(api, files[i]))
  }

  /** A parsed document: its type is the upper-cased text after the last
      '.' of its key (the whole key when there is none); its link and its
      delete endpoint are the same URL, the key encoded as one path
      segment under `files/`. */
  lemma ParseDocSpec(api: string, d: RawDoc)
    ensures var doc := ParseDoc(api, d); var ext := LastSegment(d.key, '.');
      doc.name == d.key
      && |ext| <= |d.key| && d.key[|d.key| - |ext|..] == ext && '.' !in ext
      && ('.' in d.key ==> |ext| < |d.key| && d.key[|d.key| - |ext| - 1] == '.')
      && doc.docType == Upper(ext)
      && doc.url == doc.deleteEndpoint
      && StartsWith(doc.url, api + "files/")
      && (forall i :: |api| + 6 <= i < |doc.url| ==> doc.url[i] != '/' && doc.url[i] != '?' && doc.url[i] != '#')
  {
    LastSegmentIsSuffix(d.key, '.');
    var doc := ParseDoc(api, d);
    var enc := EncodeURIComponent(d.key);
    assert doc.url == (api + "files/") + enc;
    forall i | |api| + 6 <= i < |doc.url| ensures doc.url[i] != '/' && doc.url[i] != '?' && doc.url[i] != '#' {
      assert doc.url[i] == enc[i - |api| - 6];
    }
  }

  // ---------------------------------------------------------------------------
  // Selection and search

  /** `prev.filter(n => n !== name)`. */
  function Remove(s: seq<string>, name: string): (r: seq<string>)
    ensures name !in r
    ensures forall x :: x != name ==> (x in r <==> x in s)
    ensures multiset(r) == multiset(s)[name := 0]
    decreases |s|
  {
    if s == [] then []
    else
      assert s == [s[0]] + s[1..];
      (if s[0] == name then [] else [s[0]]) + Remove(s[1..], name)
  }

  /** `handleCheckboxChange`: a selected name is removed, any other is
      added at the end. */
  function Toggle(s: seq<string>, name: string): seq<string> {
    if name in s then Remove(s, name) else s + [name]
  }

  predicate NoDuplicates(s: seq<string>) {
    forall i, j :: 0 <= i < j < |s| ==> s[i] != s[j]
  }

  lemma {:induction false} RemoveAbsent(s: seq<string>, name: string)
    requires name !in s
    ensures Remove(s, name) == s
    decreases |s|
  {
    if s != [] {
      RemoveAbsent(s[1..], name);
    }
  }

  /** A toggle flips the membership of the name and of no other; it never
      makes a duplicate. */
  lemma ToggleSpec(s: seq<string>, name: string)
    ensures (name in Toggle(s, name)) <==> name !in s
    ensures forall x :: x != name ==> (x in Toggle(s, name) <==> x in s)
    ensures NoDuplicates(s) ==> NoDuplicates(Toggle(s, name))
  {
    if NoDuplicates(s) {
      var t := Toggle(s, name);
      forall x | x in t ensures multiset(t)[x] == 1 {
        if name in s {
          NoDupCounts(s, x);
        } else if x != name {
          NoDupCounts(s, x);
          assert multiset(t) == multiset(s) + multiset{name};
        } else {
          assert multiset(t) == multiset(s) + multiset{name};
        }
      }
      CountsNoDup(t);
    }
  }

  lemma NoDupCounts(s: seq<string>, x: string)
    requires NoDuplicates(s)
    ensures multiset(s)[x] <= 1
    decreases |s|
  {
    if s != [] {
      assert s == [s[0]] + s[1..];
      NoDupCounts(s[1..], x);
      if s[0] == x {
        assert x !in s[1..];
      }
    }
  }

  lemma CountsNoDup(s: seq<string>)
    requires forall x :: x in s ==> multiset(s)[x] == 1
    ensures NoDuplicates(s)
  {
    forall i, j | 0 <= i < j < |s| ensures s[i] != s[j] {
      Twice(s, i, j);
    }
  }

  lemma Twice(s: seq<string>, i: nat, j: nat)
    requires i < j < |s|
    ensures s[i] == s[j] ==> multiset(s)[s[i]] >= 2
  {
    assert s == s[..i] + [s[i]] + s[i + 1..j] + [s[j]] + s[j + 1..];
  }

  /** Toggling twice gives back the selection when the name was absent;
      when it was selected (once), the same names come back, the name now
      last. */
  lemma ToggleTwice(s: seq<string>, name: string)
    ensures name !in s ==> Toggle(Toggle(s, name), name) == s
    ensures name in s ==> Toggle(Toggle(s, name), name) == Remove(s, name) + [name]
    ensures name in s && NoDuplicates(s) ==> multiset(Toggle(Toggle(s, name), name)) == multiset(s)
  {
    if name !in s {
      RemoveAbsent(s, name);
      assert Toggle(s, name) == s + [name];
      RemoveAppend(s, [name], name);
    } else if NoDuplicates(s) {
      NoDupCounts(s, name);
      assert multiset(s)[name] == 1;
    }
  }

  lemma {:induction false} RemoveAppend(a: seq<string>, b: seq<string>, name: string)
    ensures Remove(a + b, name) == Remove(a, name) + Remove(b, name)
    decreases |a|
  {
    if a == [] {
      assert a + b == b;
    } else {
      assert (a + b)[0] == a[0] && (a + b)[1..] == a[1..] + b;
      RemoveAppend(a[1..], b, name);
    }
  }

  /** The rows shown: the documents whose lower-cased name contains the
      lower-cased search term. */
  function Visible(docs: seq<Doc>, term: string): seq<Doc> {
    Filter(docs, (d: Doc) => Contains(Lower(d.name), Lower(term)))
  }

  /** Exactly the matching documents are shown, in their order; an empty
      term shows them all. */
  lemma VisibleSpec(docs: seq<Doc>, term: string)
    ensures forall d :: d in Visible(docs, term) <==> d in docs && Contains(Lower(d.name), Lower(term))
    ensures term == "" ==> Visible(docs, term) == docs
  {
    if term == "" {
      forall d | d in docs ensures Contains(Lower(d.name), Lower(term)) {
        assert StartsWith(Lower(d.name), "");
      }
      FilterAll(docs, (d: Doc) => Contains(Lower(d.name), Lower(term)));
    }
  }

  /** The documents a bulk delete targets: those whose name is selected, in
      the listing's order. */
  function Targets(docs: seq<Doc>, selected: seq<string>): (r: seq<Doc>)
    ensures forall d :: d in r <==> d in docs && d.name in selected
  {
    Filter(docs, (d: Doc) => d.name in selected)
  }

  function Endpoints(docs: seq<Doc>): (r: seq<string>)
    ensures |r| == |docs| && forall i :: 0 <= i < |docs| ==> r[i] == docs[i].deleteEndpoint
  {
    seq(|docs|, i requires 0 <= i < |docs| => docs[i].deleteEndpoint)
  }

  // ---------------------------------------------------------------------------
  // The page

  /** What the list request gives: the token lookup raised, the response
      was not OK, its body was not JSON, or the `files` of the body
      (absent or null as None). */
  datatype Listing =
    | TokenFailed(message: string)
    | NotOk(status: int)
    | BadBody(message: string)
    | Files(files: Option<seq<RawDoc>>)

  function ListError(l: Listing): string {
    match l
    case TokenFailed(m) => m
    case NotOk(status) => "List failed: " + IntToString(status)
    case BadBody(m) => m
    case Files(_) => ""
  }

  /** How a run of deletes goes: all requests made, the token lookup
      raised, or the request for the target at index `at` raised. */
  datatype DeleteRun = Completed | TokenThrew(message: string) | DeleteThrew(at: nat, message: string)

  /** The number of delete requests a run sends out of `n`. */
  function Sent(run: DeleteRun, n: nat): (k: nat)
    ensures k <= n
  {
    match run
    case Completed => n
    case TokenThrew(_) => 0
    case DeleteThrew(at, _) => if at < n then at + 1 else n
  }

  predicate Interrupted(run: DeleteRun, n: nat) {
    run.TokenThrew? || (run.DeleteThrew? && run.at < n)
  }

  class DocumentsPage {
    /** `DOCUMENTS_API`, the API's base URL. */
    const api: string
    var documents: seq<Doc>
    var selectedFiles: seq<string>
    var searchTerm: string
    var loading: bool
    var error: string
    /** The DELETE requests sent, by endpoint, oldest first. */
    var deletes: seq<string>

    constructor(api: string)
      ensures this.api == api && documents == [] && selectedFiles == [] && searchTerm == ""
      ensures !loading && error == "" && deletes == []
    {
      this.api := api;
      documents := [];
      selectedFiles := [];
      searchTerm := "";
      loading := false;
      error := "";
      deletes := [];
    }

    /** `fetchDocuments`: a listing replaces the documents (an absent
        `files` reads as none); any failure sets the error and keeps the
        documents. Loading is over either way. */
    method FetchDocuments(l: Listing)
      modifies this
      ensures documents == (if l.Files? then ParseAll(api, if l.files.Some? then l.files.value else []) else old(documents))
      ensures error == ListError(l) && !loading
      ensures selectedFiles == old(selectedFiles) && searchTerm == old(searchTerm) && deletes == old(deletes)
    {
      loading := true;
      error := "";
      match l {
        case Files(files) =>
          documents := ParseAll(api, if files.Some? then files.value else []);
        case _ =>
          error := ListError(l);
      }
      loading := false;
    }

    /** `handleCheckboxChange`. */
    method HandleCheckboxChange(name: string)
      modifies this
      ensures selectedFiles == Toggle(old(selectedFiles), name)
      ensures documents == old(documents) && error == old(error) && loading == old(loading) && deletes == old(deletes)
    {
      selectedFiles := Toggle(selectedFiles, name);
    }

    /** `handleDeleteFiles`: one DELETE per selected document, in listing
        order; then the list is fetched again and the selection cleared.
        A request that raises stops the run: its error is shown and the
        selection kept. */
    method HandleDeleteFiles(run: DeleteRun, refresh: Listing)
      modifies this
      ensures var targets := Targets(old(documents), old(selectedFiles));
        deletes == old(deletes) + Endpoints(targets[..Sent(run, |targets|)])
      ensures var n := |Targets(old(documents), old(selectedFiles))|;
        if Interrupted(run, n) then
          error == run.message && documents == old(documents) && selectedFiles == old(selectedFiles) && !loading
        else
          selectedFiles == [] && error == ListError(refresh) && !loading
          && documents == (if refresh.Files? then ParseAll(api, if refresh.files.Some? then refresh.files.value else []) else old(documents))
    {
      loading := true;
      error := "";
      var sent, stopped := SendDeletes(Targets(documents, selectedFiles), run);
      deletes := deletes + sent;
      if stopped {
        error := run.message;
        loading := false;
      } else {
        FetchDocuments(refresh);
        selectedFiles := [];
      }
    }
  }

  /** The loop of `handleDeleteFiles` over the targets: the requests it
      sends, and whether a raised error stopped it. */
  method SendDeletes(targets: seq<Doc>, run: DeleteRun) returns (sent: seq<string>, stopped: bool)
    ensures sent == Endpoints(targets[..Sent(run, |targets|)])
    ensures stopped == Interrupted(run, |targets|)
  {
    sent := [];
    if run.TokenThrew? {
      return sent, true;
    }
    for i := 0 to |targets|
      invariant sent == Endpoints(targets[..i])
      invariant run.DeleteThrew? ==> run.at >= i
    {
      sent := sent + [targets[i].deleteEndpoint];
      assert targets[..i + 1] == targets[..i] + [targets[i]];
      if run.DeleteThrew? && run.at == i {
        return sent, true;
      }
    }
    assert targets[..|targets|] == targets;
    stopped := false;
  }

  /** Every request of a bulk delete is for a selected document's
      endpoint; a run that completes sends exactly one per target. */
  lemma DeletesOnlySelected(docs: seq<Doc>, selected: seq<string>, run: DeleteRun, e: string)
    requires e in Endpoints(Targets(docs, selected)[..Sent(run, |Targets(docs, selected)|)])
    ensures exists d :: d in docs && d.name in selected && d.deleteEndpoint == e
  {
    var t := Targets(docs, selected);
    var k := Sent(run, |t|);
    var i :| 0 <= i < k && Endpoints(t[..k])[i] == e;
    assert t[i] in t;
  }
}

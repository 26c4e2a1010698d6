/** The batch normaliser of the blob-container adapter's `upload` and
    `upload_async`: single arguments are wrapped into lists, names that are
    not strings are replaced by generated UUIDs, and the name list is cut or
    padded to the number of files. Also the result-shape rule: one URL comes
    back bare, any other number as a list.

    UUID generation is a parameter `uuid: nat -> string`: `uuid(i)` is the
    UUID generated for the name that ends up in slot `i`. Each slot gets at
    most one generated UUID, so "fresh" means `uuid` is injective and never
    yields a name the caller passed (`FreshSupply`). */
module BatchNames {
  import opened Common

  /** One entry of the `file_name` argument: a string, `None`, or any other value. */
  datatype NameValue = Str(s: string) | NoneName | NonString

  /** The `file_name` argument: a list, or one value that is wrapped into a list. */
  datatype NameArg = NameList(items: seq<NameValue>) | OneName(item: NameValue)

  /** The `file` argument: a list, or one file that is wrapped into a list. */
  datatype FileArg = FileList(items: seq<MediaFile>) | OneFile(item: MediaFile)

  function FileEntries(arg: FileArg): seq<MediaFile> {
    match arg
    case FileList(items) => items
    case OneFile(item) => [item]
  }

  function NameEntries(arg: NameArg): seq<NameValue> {
    match arg
    case NameList(items) => items
    case OneName(item) => [item]
  }

  /** The list comprehension that keeps string names and replaces `None` and
      non-string entries by a UUID. */
  function ReplaceNonStrings(names: seq<NameValue>, uuid: nat -> string): seq<string> {
    seq(|names|, i requires 0 <= i < |names| => if names[i].Str? then names[i].s else uuid(i))
  }

  /** The second comprehension: when the lengths differ, keep the first `n`
      names and fill slot `i` beyond the given names with `pad(i)`. */
  function FitToCount(names: seq<string>, n: nat, pad: nat -> string): seq<string> {
    if |names| != n then
      seq(n, i requires 0 <= i < n => if i < |names| then names[i] else pad(i))
    else
      names
  }

  /** The name the non-blocking path gives to a file that has no name: `file_name_{i}`. */
  function Placeholder(i: nat): string {
    "file_name_" + DecimalString(i)
  }

  /** Names after normalisation in the blocking `upload`. */
  function SyncNames(fileCount: nat, arg: NameArg, uuid: nat -> string): (r: seq<string>)
    ensures |r| == fileCount
    ensures forall i :: 0 <= i < fileCount && i < |NameEntries(arg)| && NameEntries(arg)[i].Str? ==>
              r[i] == NameEntries(arg)[i].s
    ensures forall i :: 0 <= i < fileCount && i < |NameEntries(arg)| && !NameEntries(arg)[i].Str? ==>
              r[i] == uuid(i)
    ensures forall i :: |NameEntries(arg)| <= i < fileCount ==> r[i] == uuid(i)
  {
    FitToCount(ReplaceNonStrings(NameEntries(arg), uuid), fileCount, uuid)
  }

  /** Names after normalisation in `upload_async`: the same, except that a
      missing name becomes `file_name_{i}` rather than a UUID. */
  function AsyncNames(fileCount: nat, arg: NameArg, uuid: nat -> string): (r: seq<string>)
    ensures |r| == fileCount
    ensures forall i :: 0 <= i < fileCount && i < |NameEntries(arg)| && NameEntries(arg)[i].Str? ==>
              r[i] == NameEntries(arg)[i].s
    ensures forall i :: 0 <= i < fileCount && i < |NameEntries(arg)| && !NameEntries(arg)[i].Str? ==>
              r[i] == uuid(i)
    ensures forall i :: |NameEntries(arg)| <= i < fileCount ==> r[i] == "file_name_" + DecimalString(i)
  {
    var r := FitToCount(ReplaceNonStrings(NameEntries(arg), uuid), fileCount, Placeholder);
    assert forall i :: |NameEntries(arg)| <= i < fileCount ==> r[i] == Placeholder(i);
    r
  }

  /** The caller's string names, in order of appearance. */
  ghost predicate DistinctGivenNames(names: seq<NameValue>) {
    forall j, k :: 0 <= j < k < |names| && names[j].Str? && names[k].Str? ==> names[j].s != names[k].s
  }

  /** The UUID supply is fresh: it never repeats and never yields a name the caller gave. */
  ghost predicate FreshSupply(uuid: nat -> string, names: seq<NameValue>) {
    && (forall i: nat, j: nat :: i != j ==> uuid(i) != uuid(j))
    && (forall i: nat, k :: 0 <= k < |names| && names[k].Str? ==> uuid(i) != names[k].s)
  }

  /** With a fresh supply and distinct given names, the blocking path gives
      every file its own blob name. */
  lemma SyncNamesDistinct(fileCount: nat, arg: NameArg, uuid: nat -> string)
    requires DistinctGivenNames(NameEntries(arg))
    requires FreshSupply(uuid, NameEntries(arg))
    ensures forall j, k :: 0 <= j < k < fileCount ==>
              SyncNames(fileCount, arg, uuid)[j] != SyncNames(fileCount, arg, uuid)[k]
  {
    var names := NameEntries(arg);
    var r := SyncNames(fileCount, arg, uuid);
    forall j, k | 0 <= j < k < fileCount
      ensures r[j] != r[k]
    {
      var given := (i: nat) => i < |names| && names[i].Str?;
      if given(j) && given(k) {
      } else if given(j) {
        assert r[k] == uuid(k);
      } else if given(k) {
        assert r[j] == uuid(j);
      } else {
        assert r[j] == uuid(j) && r[k] == uuid(k);
      }
    }
  }

  /** The example of the contract's documentation: `[None, "a"]` for two files
      gives two different names with `"a"` kept in slot 1 (a UUID string is 36
      characters long, so it is never `"a"`). */
  lemma NoneThenNamedExample(uuid: nat -> string)
    requires |uuid(0)| == 36
    ensures SyncNames(2, NameList([NoneName, Str("a")]), uuid) == [uuid(0), "a"]
    ensures uuid(0) != "a"
  {
  }

  /** The placeholders of the non-blocking path never repeat among themselves. */
  lemma {:induction false} PlaceholdersDistinct(i: nat, j: nat)
    requires i != j
    ensures Placeholder(i) != Placeholder(j)
  {
    if Placeholder(i) == Placeholder(j) {
      var p := "file_name_";
      assert DecimalString(i) == Placeholder(i)[|p|..];
      assert DecimalString(j) == Placeholder(j)[|p|..];
      DecimalStringInjective(i, j);
    }
  }

  /** A given name can coincide with a placeholder: `["file_name_1"]` for two
      files sends both files to the same blob, the second overwriting the
      first. The blocking path, padding with fresh UUIDs, cannot do this. */
  lemma AsyncPlaceholderCanCollide(uuid: nat -> string)
    ensures AsyncNames(2, NameList([Str("file_name_1")]), uuid) == ["file_name_1", "file_name_1"]
  {
    var arg := NameList([Str("file_name_1")]);
    var r := AsyncNames(2, arg, uuid);
    assert NameEntries(arg) == [Str("file_name_1")];
    assert DecimalString(1) == "1";
    assert r[0] == "file_name_1";
    assert r[1] == "file_name_" + DecimalString(1) == "file_name_1";
  }

  /** The two paths agree whenever no padding is needed. */
  lemma SyncAsyncAgreeWithoutPadding(fileCount: nat, arg: NameArg, uuid: nat -> string)
    requires fileCount <= |NameEntries(arg)|
    ensures SyncNames(fileCount, arg, uuid) == AsyncNames(fileCount, arg, uuid)
  {
    var s, a := SyncNames(fileCount, arg, uuid), AsyncNames(fileCount, arg, uuid);
    assert forall i :: 0 <= i < fileCount ==> s[i] == a[i];
  }

  /** What an upload returns: one URL bare, any other number as a list. */
  datatype UploadResult = SingleUrl(url: string) | UrlList(urls: seq<string>)

  /** The URLs an upload result carries, in order. */
  function AllUrls(r: UploadResult): seq<string> {
    match r
    case SingleUrl(u) => [u]
    case UrlList(us) => us
  }

  /** The result-shape rule: a bare URL exactly when there is one, and no URL
      is lost, added or reordered. */
  function Collapse(urls: seq<string>): (r: UploadResult)
    ensures r.SingleUrl? <==> |urls| == 1
    ensures AllUrls(r) == urls
  {
    if |urls| == 1 then SingleUrl(urls[0]) else UrlList(urls)
  }
}

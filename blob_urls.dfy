/** Blob URLs of the blob-container adapter: the path component of a URL
    (section 3.3 of RFC 3986, cut out the way Python's `urlparse` does), the
    split of that path into container and blob name, the
    `{root}/{container}/{blob_name}` addressing of blobs, and the substring
    test that decides whether a URL belongs to the configured account. */
module BlobUrls {
  import opened Common

  /** The longest prefix of `s` that holds none of the characters in `stops`. */
  function PrefixUntil(s: string, stops: set<char>): string
    decreases |s|
  {
    if s == [] || s[0] in stops then [] else [s[0]] + PrefixUntil(s[1..], stops)
  }

  /** What `PrefixUntil` finds: a prefix free of stops, followed by a stop
      unless it is all of `s`. */
  lemma {:induction false} PrefixUntilStops(s: string, stops: set<char>)
    ensures PrefixUntil(s, stops) <= s
    ensures NoneOf(PrefixUntil(s, stops), stops)
    ensures |PrefixUntil(s, stops)| < |s| ==> s[|PrefixUntil(s, stops)|] in stops
    decreases |s|
  {
    if s != [] && s[0] !in stops {
      PrefixUntilStops(s[1..], stops);
      var p := PrefixUntil(s[1..], stops);
      assert PrefixUntil(s, stops) == [s[0]] + p;
      assert s == [s[0]] + s[1..];
    }
  }

  /** The prefix `PrefixUntil` finds is the only one with those properties. */
  lemma PrefixUntilIs(s: string, stops: set<char>, x: string)
    requires x <= s
    requires NoneOf(x, stops)
    requires |x| < |s| ==> s[|x|] in stops
    ensures PrefixUntil(s, stops) == x
  {
    PrefixUntilStops(s, stops);
    var p := PrefixUntil(s, stops);
    if |p| < |x| {
      assert false;
    } else if |x| < |p| {
      assert false;
    }
  }

  /** The rest of `s` from its first stop character on (empty when it has none). */
  function SkipUntil(s: string, stops: set<char>): string
    decreases |s|
  {
    if s == [] || s[0] in stops then s else SkipUntil(s[1..], stops)
  }

  /** Skipping a stretch free of stops lands on what follows it. */
  lemma {:induction false} SkipUntilPast(x: string, rest: string, stops: set<char>)
    requires NoneOf(x, stops)
    requires rest == [] || rest[0] in stops
    ensures SkipUntil(x + rest, stops) == rest
    decreases |x|
  {
    if x == [] {
      assert x + rest == rest;
    } else {
      assert (x + rest)[1..] == x[1..] + rest;
      SkipUntilPast(x[1..], rest, stops);
    }
  }

  /** And so does taking the prefix before the first stop. */
  lemma {:induction false} PrefixUntilPast(x: string, rest: string, stops: set<char>)
    requires NoneOf(x, stops)
    requires rest == [] || rest[0] in stops
    ensures PrefixUntil(x + rest, stops) == x
    decreases |x|
  {
    if x == [] {
      assert x + rest == rest;
    } else {
      assert (x + rest)[1..] == x[1..] + rest;
      PrefixUntilPast(x[1..], rest, stops);
      assert [x[0]] + x[1..] == x;
    }
  }

  predicate IsAsciiLetter(c: char) {
    'a' <= c <= 'z' || 'A' <= c <= 'Z'
  }

  /** The characters Python's `urlparse` accepts in a scheme. */
  predicate IsSchemeChar(c: char) {
    IsAsciiLetter(c) || '0' <= c <= '9' || c == '+' || c == '-' || c == '.'
  }

  /** ASCII lower-casing of one character, which is what `str.lower()` does
      to a scheme character. */
  function LowerChar(c: char): char {
    if 'A' <= c <= 'Z' then (c as int + 32) as char else c
  }

  function LowerAscii(s: string): (t: string)
    ensures |t| == |s|
    decreases |s|
  {
    if s == [] then [] else [LowerChar(s[0])] + LowerAscii(s[1..])
  }

  /** Scans `s` up to its first `:`: when every character before it is a
      scheme character, those characters lower-cased and the rest after the
      `:`; otherwise nothing. */
  function ScanScheme(s: string): Option<(string, string)>
    decreases |s|
  {
    if s == [] then None
    else if s[0] == ':' then Some(([], s[1..]))
    else if !IsSchemeChar(s[0]) then None
    else
      match ScanScheme(s[1..])
      case None => None
      case Some((scheme, rest)) => Some(([LowerChar(s[0])] + scheme, rest))
  }

  /** `urlsplit`'s scheme rule: the scheme (`""` when there is none) and the
      rest. A scheme is non-empty and starts with an ASCII letter. */
  function SplitScheme(url: string): (string, string) {
    if url != [] && IsAsciiLetter(url[0]) && ScanScheme(url).Some? then ScanScheme(url).value else ("", url)
  }

  /** The schemes whose URLs may carry `;params` (Python's `uses_params`). */
  const UsesParams: set<string> :=
    {"", "ftp", "hdl", "prospero", "http", "imap", "https", "shttp", "rtsp", "rtsps", "rtspu", "sip", "sips", "mms", "sftp", "tel"}

  /** The rest after a `//authority` part, when there is one; the authority
      ends at the first `/`, `?` or `#`. */
  function AfterAuthority(rest: string): string {
    if 2 <= |rest| && rest[0] == '/' && rest[1] == '/' then SkipUntil(rest[2..], {'/', '?', '#'}) else rest
  }

  /** Python's `_splitparams`: when the last segment of the path holds a `;`,
      the path ends before the first `;` of that segment. Scanned from the
      right: a cut found in all but the last character stands; otherwise a
      final `;` is the cut. */
  function CutParams(path: string): string
    decreases |path|
  {
    if path == [] || path[|path| - 1] == '/' then path
    else
      var init := path[..|path| - 1];
      var cut := CutParams(init);
      if cut != init then cut
      else if path[|path| - 1] == ';' then init
      else path
  }

  /** The path component of a URL as Python's `urlparse` gives it: what is
      left after the scheme and the authority, up to the query (`?`) or the
      fragment (`#`), less any `;params` for the schemes that have them. */
  function UrlPath(url: string): string {
    var (scheme, rest) := SplitScheme(url);
    var path := PrefixUntil(AfterAuthority(rest), {'?', '#'});
    if scheme in UsesParams then CutParams(path) else path
  }

  /** Python's `s.split(sep)`: the pieces between the separators, always at least one. */
  function Split(s: string, sep: char): (parts: seq<string>)
    ensures 1 <= |parts|
    ensures |parts| == 1 <==> forall k :: 0 <= k < |s| ==> s[k] != sep
    decreases |s|
  {
    if s == [] then
      [""]
    else
      var rest := Split(s[1..], sep);
      if s[0] == sep then [""] + rest else [[s[0]] + rest[0]] + rest[1..]
  }

  /** Python's `sep.join(parts)`. */
  function Join(parts: seq<string>, sep: char): string
    decreases |parts|
  {
    if parts == [] then ""
    else if |parts| == 1 then parts[0]
    else parts[0] + [sep] + Join(parts[1..], sep)
  }

  /** Joining pieces whose first one gains a leading character; the step of `JoinSplit` needs it. */
  lemma JoinConsFirst(x: char, parts: seq<string>, sep: char)
    requires parts != []
    ensures Join([[x] + parts[0]] + parts[1..], sep) == [x] + Join(parts, sep)
  {
    var q := [[x] + parts[0]] + parts[1..];
    assert q[1..] == parts[1..];
  }

  /** Joining the pieces of a split gives back the string. */
  lemma {:induction false} JoinSplit(s: string, sep: char)
    ensures Join(Split(s, sep), sep) == s
    decreases |s|
  {
    if s != [] {
      var rest := Split(s[1..], sep);
      JoinSplit(s[1..], sep);
      if s[0] == sep {
        assert ([""] + rest)[1..] == rest;
      } else {
        JoinConsFirst(s[0], rest, sep);
      }
      assert s == [s[0]] + s[1..];
    }
  }

  /** A first piece without separators splits off on its own. */
  lemma {:induction false} SplitAfterPiece(c: string, sep: char, b: string)
    requires forall k :: 0 <= k < |c| ==> c[k] != sep
    ensures Split(c + [sep] + b, sep) == [c] + Split(b, sep)
    decreases |c|
  {
    var s := c + [sep] + b;
    if c == [] {
      assert s[1..] == b;
    } else {
      assert s[1..] == c[1..] + [sep] + b;
      SplitAfterPiece(c[1..], sep, b);
      assert [c[0]] + c[1..] == c;
    }
  }

  /** Lines 199-200 and 231-232: path segment 1 is the container, the
      remaining segments joined with `/` are the blob name; a path without a
      `/` has no segment 1 and raises `IndexError`. */
  function ParsePath(path: string): (r: Result<(string, string)>)
    ensures r.Err? <==> forall k :: 0 <= k < |path| ==> path[k] != '/'
    ensures r.Ok? ==> forall k :: 0 <= k < |r.value.0| ==> r.value.0[k] != '/'
  {
    var segments := Split(path, '/');
    if |segments| < 2 then
      Err(IndexError)
    else
      SplitPieceHasNoSeparator(path, '/', 1);
      Ok((segments[1], Join(segments[2..], '/')))
  }

  /** No piece of a split holds the separator. */
  lemma {:induction false} SplitPieceHasNoSeparator(s: string, sep: char, i: nat)
    requires i < |Split(s, sep)|
    ensures forall k :: 0 <= k < |Split(s, sep)[i]| ==> Split(s, sep)[i][k] != sep
    decreases |s|
  {
    if s != [] {
      var rest := Split(s[1..], sep);
      if s[0] == sep {
        if 0 < i { SplitPieceHasNoSeparator(s[1..], sep, i - 1); }
      } else if i == 0 {
        SplitPieceHasNoSeparator(s[1..], sep, 0);
      } else {
        SplitPieceHasNoSeparator(s[1..], sep, i);
      }
    }
  }

  /** The container and blob name a blob URL addresses. */
  function ParseBlobUrl(url: string): Result<(string, string)> {
    ParsePath(UrlPath(url))
  }

  /** A path `/c/b` with no `/` in `c` names container `c` and blob `b`; the
      blob name may hold further `/`. */
  lemma {:induction false} ParsePathOfBlobPath(container: string, blob: string)
    requires forall k :: 0 <= k < |container| ==> container[k] != '/'
    ensures ParsePath("/" + container + "/" + blob) == Ok((container, blob))
  {
    var path := "/" + container + "/" + blob;
    assert path == "" + ['/'] + (container + ['/'] + blob);
    SplitAfterPiece("", '/', container + ['/'] + blob);
    SplitAfterPiece(container, '/', blob);
    var segments := Split(path, '/');
    assert segments == ["", container] + Split(blob, '/');
    assert segments[2..] == Split(blob, '/');
    JoinSplit(blob, '/');
  }

  /** The address of a blob under the account's root: `{root}/{container}/{blob_name}`,
      with the name left unencoded. */
  function BlobUrl(root: string, container: string, blob: string): string {
    root + "/" + container + "/" + blob
  }

  predicate NoneOf(s: string, stops: set<char>) {
    forall k :: 0 <= k < |s| ==> s[k] !in stops
  }

  /** A blob-URL root `scheme://host` with no path, query or fragment. */
  predicate IsServiceRoot(scheme: string, host: string) {
    && 0 < |scheme| && IsAsciiLetter(scheme[0])
    && (forall k :: 0 <= k < |scheme| ==> IsSchemeChar(scheme[k]))
    && NoneOf(host, {'/', '?', '#'})
  }

  /** Cutting params only ever removes a tail: the result is a prefix of the path. */
  lemma {:induction false} CutParamsIsPrefix(path: string)
    ensures CutParams(path) <= path
    decreases |path|
  {
    if path != [] && path[|path| - 1] != '/' {
      var init := path[..|path| - 1];
      CutParamsIsPrefix(init);
    }
  }

  /** The path never holds the query or the fragment. */
  lemma UrlPathHasNoQuery(url: string)
    ensures NoneOf(UrlPath(url), {'?', '#'})
  {
    var path := PrefixUntil(AfterAuthority(SplitScheme(url).1), {'?', '#'});
    PrefixUntilStops(AfterAuthority(SplitScheme(url).1), {'?', '#'});
    CutParamsIsPrefix(path);
  }

  /** A scheme followed by `:` splits off, lower-cased. */
  lemma {:induction false} ScanSchemeOf(scheme: string, rest: string)
    requires forall k :: 0 <= k < |scheme| ==> IsSchemeChar(scheme[k])
    ensures ScanScheme(scheme + ":" + rest) == Some((LowerAscii(scheme), rest))
    decreases |scheme|
  {
    var s := scheme + ":" + rest;
    if scheme == [] {
      assert s[1..] == rest;
    } else {
      assert s[0] == scheme[0];
      assert s[1..] == scheme[1..] + ":" + rest;
      ScanSchemeOf(scheme[1..], rest);
    }
  }

  lemma SplitSchemeOf(scheme: string, rest: string)
    requires 0 < |scheme| && IsAsciiLetter(scheme[0])
    requires forall k :: 0 <= k < |scheme| ==> IsSchemeChar(scheme[k])
    ensures SplitScheme(scheme + ":" + rest) == (LowerAscii(scheme), rest)
  {
    ScanSchemeOf(scheme, rest);
  }

  /** A path without `;` has no params to cut. */
  lemma {:induction false} CutParamsWithoutSemicolon(path: string)
    requires NoneOf(path, {';'})
    ensures CutParams(path) == path
    decreases |path|
  {
    if path != [] && path[|path| - 1] != '/' {
      CutParamsWithoutSemicolon(path[..|path| - 1]);
    }
  }

  /** A URL whose rest after the authority is a path free of `?`, `#` and `;`,
      followed by a query, has that path. */
  lemma UrlPathOf(url: string, path: string, query: string)
    requires AfterAuthority(SplitScheme(url).1) == path + query
    requires NoneOf(path, {'?', '#', ';'})
    requires query == [] || query[0] == '?'
    ensures UrlPath(url) == path
  {
    PrefixUntilPast(path, query, {'?', '#'});
    CutParamsWithoutSemicolon(path);
  }

  lemma AfterAuthorityOf(host: string, rest: string)
    requires NoneOf(host, {'/', '?', '#'})
    requires rest == [] || rest[0] in {'/', '?', '#'}
    ensures AfterAuthority("//" + host + rest) == rest
  {
    var s := "//" + host + rest;
    assert s[2..] == host + rest;
    SkipUntilPast(host, rest, {'/', '?', '#'});
  }

  /** The path of a blob URL, with or without a query string after it, is
      `/container/blob`. */
  lemma BlobUrlPath(scheme: string, host: string, container: string, blob: string, query: string)
    requires IsServiceRoot(scheme, host)
    requires NoneOf(container, {'/', '?', '#', ';'})
    requires NoneOf(blob, {'?', '#', ';'})
    requires query == [] || query[0] == '?'
    ensures UrlPath(BlobUrl(scheme + "://" + host, container, blob) + query) == "/" + container + "/" + blob
  {
    var path := "/" + container + "/" + blob;
    var url := BlobUrl(scheme + "://" + host, container, blob) + query;
    assert url == scheme + ":" + ("//" + host + (path + query));
    SplitSchemeOf(scheme, "//" + host + (path + query));
    AfterAuthorityOf(host, path + query);
    BlobPathIsPlain(container, blob, {'?', '#', ';'});
    UrlPathOf(url, path, query);
  }

  /** A path `/c/b` holds a character other than `/` only when `c` or `b` does. */
  lemma BlobPathIsPlain(container: string, blob: string, stops: set<char>)
    requires '/' !in stops
    requires NoneOf(container, stops) && NoneOf(blob, stops)
    ensures NoneOf("/" + container + "/" + blob, stops)
  {
    var path := "/" + container + "/" + blob;
    forall k | 0 <= k < |path|
      ensures path[k] !in stops
    {
      if 1 <= k < 1 + |container| {
        assert path[k] == container[k - 1];
      } else if 2 + |container| <= k {
        assert path[k] == blob[k - 2 - |container|];
      }
    }
  }

  /** A blob URL under a plain root, with an unencoded name, parses back to
      its container and blob name. */
  lemma BlobUrlParsesBack(scheme: string, host: string, container: string, blob: string, query: string)
    requires IsServiceRoot(scheme, host)
    requires NoneOf(container, {'/', '?', '#', ';'})
    requires NoneOf(blob, {'?', '#', ';'})
    requires query == [] || query[0] == '?'
    ensures ParseBlobUrl(BlobUrl(scheme + "://" + host, container, blob) + query) == Ok((container, blob))
  {
    BlobUrlPath(scheme, host, container, blob, query);
    ParsePathOfBlobPath(container, blob);
  }

  /** `needle` occurs in `hay` starting at index `i`. */
  predicate OccursAt(hay: string, needle: string, i: nat) {
    i + |needle| <= |hay| && hay[i..i + |needle|] == needle
  }

  /** Python's `needle in hay` on strings. */
  predicate Contains(hay: string, needle: string)
    decreases |hay|
  {
    needle <= hay || (hay != [] && Contains(hay[1..], needle))
  }

  /** `Contains` holds exactly when the needle occurs at some index. */
  lemma {:induction false} ContainsIffOccurs(hay: string, needle: string)
    ensures Contains(hay, needle) <==> exists i: nat :: OccursAt(hay, needle, i)
    decreases |hay|
  {
    if needle <= hay {
      assert OccursAt(hay, needle, 0);
    } else if hay == [] {
      forall i: nat ensures !OccursAt(hay, needle, i) {
      }
    } else {
      ContainsIffOccurs(hay[1..], needle);
      if exists i: nat :: OccursAt(hay[1..], needle, i) {
        var i: nat :| OccursAt(hay[1..], needle, i);
        assert hay[i + 1..i + 1 + |needle|] == hay[1..][i..i + |needle|];
        assert OccursAt(hay, needle, i + 1);
      }
      if exists i: nat :: OccursAt(hay, needle, i) {
        var i: nat :| OccursAt(hay, needle, i);
        assert i != 0;
        assert hay[1..][i - 1..i - 1 + |needle|] == hay[i..i + |needle|];
        assert OccursAt(hay[1..], needle, i - 1);
      }
    }
  }

  /** A blob URL passes the ownership test against a client URL that is a
      prefix of its root followed by `/`; a client URL that carries a query
      (a SAS credential) or more than the root is not such a prefix. */
  lemma BlobUrlIsOwned(clientUrl: string, root: string, container: string, blob: string, query: string)
    requires clientUrl <= root + "/"
    ensures Contains(BlobUrl(root, container, blob) + query, clientUrl)
  {
    var url := BlobUrl(root, container, blob) + query;
    assert url == (root + "/") + (container + "/" + blob + query);
    assert url[..|clientUrl|] == (root + "/")[..|clientUrl|];
  }

  /** A last segment free of `/` and `;` is not cut. */
  lemma {:induction false} CutParamsOfPlainSegment(p: string, t: string)
    requires NoneOf(t, {'/', ';'})
    ensures CutParams(p + "/" + t) == p + "/" + t
    decreases |t|
  {
    var s := p + "/" + t;
    if t != [] {
      var init := t[..|t| - 1];
      assert s[..|s| - 1] == p + "/" + init;
      CutParamsOfPlainSegment(p, init);
    }
  }

  /** Once the last segment reaches a `;`, the rest of that segment is cut off. */
  lemma {:induction false} CutParamsAtSemicolon(q: string, y: string)
    requires CutParams(q) == q
    requires NoneOf(y, {'/'})
    ensures CutParams(q + ";" + y) == q
    decreases |y|
  {
    var s := q + ";" + y;
    if y == [] {
      assert s[..|s| - 1] == q;
    } else {
      var init := y[..|y| - 1];
      assert s[..|s| - 1] == q + ";" + init;
      CutParamsAtSemicolon(q, init);
    }
  }

  /** The `;params` of a blob path's last segment are cut off. */
  lemma CutParamsOfBlobPath(container: string, x: string, y: string)
    requires NoneOf(x, {'/', ';'}) && NoneOf(y, {'/'})
    ensures CutParams("/" + container + "/" + (x + ";" + y)) == "/" + container + "/" + x
  {
    CutParamsOfPlainSegment("/" + container, x);
    CutParamsAtSemicolon("/" + container + "/" + x, y);
    assert "/" + container + "/" + (x + ";" + y) == ("/" + container + "/" + x) + ";" + y;
  }

  /** A concatenation of stop-free strings is stop-free; `ParamsPathIsPlain` needs it. */
  lemma NoneOfConcat(a: string, b: string, stops: set<char>)
    requires NoneOf(a, stops) && NoneOf(b, stops)
    ensures NoneOf(a + b, stops)
  {
    var s := a + b;
    forall k | 0 <= k < |s|
      ensures s[k] !in stops
    {
      if k >= |a| { assert s[k] == b[k - |a|]; }
    }
  }

  /** For a scheme that carries params, a `;` in the last segment of a blob
      name starts the params: the blob `x;y` is addressed as the blob `x`. */
  lemma ParamsAreCut(scheme: string, host: string, container: string, x: string, y: string)
    requires IsServiceRoot(scheme, host) && LowerAscii(scheme) in UsesParams
    requires NoneOf(container, {'/', '?', '#'})
    requires NoneOf(x, {'/', '?', '#', ';'}) && NoneOf(y, {'/', '?', '#'})
    ensures ParseBlobUrl(BlobUrl(scheme + "://" + host, container, x + ";" + y)) == Ok((container, x))
  {
    ParamsUrlPath(scheme, host, container, x, y);
    ParsePathOfBlobPath(container, x);
  }

  lemma ParamsUrlPath(scheme: string, host: string, container: string, x: string, y: string)
    requires IsServiceRoot(scheme, host) && LowerAscii(scheme) in UsesParams
    requires NoneOf(container, {'/', '?', '#'})
    requires NoneOf(x, {'/', '?', '#', ';'}) && NoneOf(y, {'/', '?', '#'})
    ensures UrlPath(BlobUrl(scheme + "://" + host, container, x + ";" + y)) == "/" + container + "/" + x
  {
    var path := "/" + container + "/" + (x + ";" + y);
    var url := scheme + ":" + ("//" + host + path);
    BlobUrlShape(scheme, host, container, x + ";" + y);
    SplitSchemeOf(scheme, "//" + host + path);
    AfterAuthorityOf(host, path);
    ParamsPathIsPlain(container, x, y);
    PrefixUntilPast(path, [], {'?', '#'});
    assert path + [] == path;
    CutParamsOfBlobPath(container, x, y);
  }

  /** A blob URL regrouped as scheme, `:` and the rest; `ParamsUrlPath` needs it. */
  lemma BlobUrlShape(scheme: string, host: string, container: string, blob: string)
    ensures BlobUrl(scheme + "://" + host, container, blob) == scheme + ":" + ("//" + host + ("/" + container + "/" + blob))
  {
  }

  /** A blob path `/c/x;y` free of `?` and `#`; `ParamsUrlPath` needs it. */
  lemma ParamsPathIsPlain(container: string, x: string, y: string)
    requires NoneOf(container, {'?', '#'})
    requires NoneOf(x, {'?', '#'}) && NoneOf(y, {'?', '#'})
    ensures NoneOf("/" + container + "/" + (x + ";" + y), {'?', '#'})
  {
    BlobPathIsPlain(container, x, {'?', '#'});
    NoneOfConcat("/" + container + "/" + x, ";" + y, {'?', '#'});
    assert "/" + container + "/" + (x + ";" + y) == ("/" + container + "/" + x) + (";" + y);
  }
}

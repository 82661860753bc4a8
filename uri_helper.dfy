/** ScoreflexUriHelper: the static helpers that tell a Scoreflex API URI from any other,
    extract its resource path and its query parameters, and build absolute URLs from a
    resource path. The base URL, the API version, Uri.decode and Uri.getQueryParameter
    reach the helpers as parameters. */
module UriHelper {
  import opened Wrappers
  import opened Params

  /** android.net.Uri through the accessors the helpers read: getScheme, getHost, getPath
      and getEncodedQuery (each may be null), toString and isOpaque. */
  datatype Uri = Uri(scheme: Option<string>, host: Option<string>, path: Option<string>,
                     query: Option<string>, text: string, isOpaque: bool)

  /** String.startsWith. */
  predicate StartsWith(s: string, prefix: string) {
    |prefix| <= |s| && s[..|prefix|] == prefix
  }

  /* ---------------------------------------------------------------- API URIs */

  /** isAPIUri(uri): a null URI is not one; otherwise its host must be the base URI's. */
  function IsAPIUri(uri: Option<Uri>, base: Uri): (b: bool)
    requires base.host.Some?
    ensures uri.None? ==> !b
    ensures b <==> uri.Some? && uri.value.host.Some? && uri.value.host.value == base.host.value
  {
    uri.Some? && base.host == uri.value.host
  }

  /** getResource(uri): null (None) for a URI that is not an API URI or whose text after the
      scheme does not start with the base URI's; otherwise the URI's path without as many
      leading characters as the base URI's path has. A null scheme or path throws
      NullPointerException and a too short string StringIndexOutOfBoundsException. */
  function GetResource(uri: Option<Uri>, base: Uri): (r: Outcome<Option<string>>)
    requires base.host.Some?
    ensures !IsAPIUri(uri, base) ==> r == Returned(None)
    ensures r.Returned? && r.value.Some? ==>
              && IsAPIUri(uri, base) && uri.value.path.Some? && base.path.Some?
              && |base.path.value| <= |uri.value.path.value|
              && uri.value.path.value == uri.value.path.value[..|base.path.value|] + r.value.value
  {
    if !IsAPIUri(uri, base) then Returned(None)
    else
      var u := uri.value;
      if u.scheme.None? then Thrown(NullPointerException)
      else if |u.scheme.value| > |u.text| then Thrown(StringIndexOutOfBoundsException)
      else if base.scheme.None? then Thrown(NullPointerException)
      else if |base.scheme.value| > |base.text| then Thrown(StringIndexOutOfBoundsException)
      else
        var remainder := u.text[|u.scheme.value|..];
        var apiRemainder := base.text[|base.scheme.value|..];
        if !StartsWith(remainder, apiRemainder) then Returned(None)
        else if u.path.None? || base.path.None? then Thrown(NullPointerException)
        else if |base.path.value| > |u.path.value| then Thrown(StringIndexOutOfBoundsException)
        else Returned(Some(u.path.value[|base.path.value|..]))
  }

  /** The API URI of resource `x`: the base URI with `x` appended to its text and its path. */
  function Under(base: Uri, x: string): Uri
    requires base.path.Some?
  {
    Uri(base.scheme, base.host, Some(base.path.value + x), None, base.text + x, false)
  }

  /** getResource undoes the appending of a resource path to a well-formed base URI. */
  lemma ResourceOfUnder(base: Uri, x: string)
    requires base.host.Some? && base.scheme.Some? && base.path.Some?
    requires StartsWith(base.text, base.scheme.value)
    ensures GetResource(Some(Under(base, x)), base) == Returned(Some(x))
  {
    var u := Under(base, x);
    var s := |base.scheme.value|;
    assert u.text[s..] == base.text[s..] + x;
    assert StartsWith(u.text[s..], base.text[s..]);
    assert u.path.value[|base.path.value|..] == x;
  }

  /* ---------------------------------------------------------------- absolute URLs */

  /** A resource path without its leading "/" + API_VERSION, which is removed once. */
  function StripVersion(resource: string, apiVersion: string): (s: string)
    ensures StartsWith(resource, "/" + apiVersion) ==> "/" + apiVersion + s == resource
    ensures !StartsWith(resource, "/" + apiVersion) ==> s == resource
  {
    if StartsWith(resource, "/" + apiVersion) then resource[1 + |apiVersion|..] else resource
  }

  /** getAbsoluteUrl(resource): the base URL followed by the resource path. */
  function GetAbsoluteUrl(resource: string, apiVersion: string, baseUrl: string): (u: string)
    ensures |baseUrl| <= |u| && u[..|baseUrl|] == baseUrl
    ensures StartsWith(resource, "/" + apiVersion) ==> "/" + apiVersion + u[|baseUrl|..] == resource
    ensures !StartsWith(resource, "/" + apiVersion) ==> u[|baseUrl|..] == resource
  {
    baseUrl + StripVersion(resource, apiVersion)
  }

  /** getNonSecureAbsoluteUrl(resource): the non-secure base URL followed by the resource path. */
  function GetNonSecureAbsoluteUrl(resource: string, apiVersion: string, nonSecureBaseUrl: string): (u: string)
    ensures |nonSecureBaseUrl| <= |u| && u[..|nonSecureBaseUrl|] == nonSecureBaseUrl
    ensures StartsWith(resource, "/" + apiVersion) ==> "/" + apiVersion + u[|nonSecureBaseUrl|..] == resource
    ensures !StartsWith(resource, "/" + apiVersion) ==> u[|nonSecureBaseUrl|..] == resource
  {
    nonSecureBaseUrl + StripVersion(resource, apiVersion)
  }

  /** A resource under the API version and the same resource without it give one URL; the
      version is stripped once only, and a path that does not start with it is kept whole. */
  lemma AbsoluteUrlStripsVersionOnce(x: string, apiVersion: string, baseUrl: string)
    ensures GetAbsoluteUrl("/" + apiVersion + x, apiVersion, baseUrl) == baseUrl + x
    ensures GetAbsoluteUrl("/" + apiVersion + "/" + apiVersion + x, apiVersion, baseUrl)
            == baseUrl + "/" + apiVersion + x
    ensures !StartsWith(x, "/" + apiVersion) ==> GetAbsoluteUrl(x, apiVersion, baseUrl) == baseUrl + x
  {
    var p := "/" + apiVersion;
    assert StartsWith(p + x, p) by { assert (p + x)[..|p|] == p; }
    assert (p + x)[1 + |apiVersion|..] == x;
    var y := p + x;
    assert p + "/" + apiVersion + x == p + y;
    assert StartsWith(p + y, p) by { assert (p + y)[..|p|] == p; }
    assert (p + y)[1 + |apiVersion|..] == y;
  }

  /** The secure and the non-secure URL of a resource differ only in their base. */
  lemma NonSecureUrlSharesResource(resource: string, apiVersion: string, baseUrl: string, nonSecureBaseUrl: string)
    ensures GetNonSecureAbsoluteUrl(resource, apiVersion, nonSecureBaseUrl)
            == nonSecureBaseUrl + GetAbsoluteUrl(resource, apiVersion, baseUrl)[|baseUrl|..]
  {
    assert (baseUrl + StripVersion(resource, apiVersion))[|baseUrl|..] == StripVersion(resource, apiVersion);
  }

  /* ---------------------------------------------------------------- query names */

  /** String.indexOf(c, from): the first index at or after `from` holding `c`, or -1. */
  function IndexOf(s: string, c: char, from: nat): (i: int)
    ensures i == -1 || from <= i < |s|
    decreases |s| - from
  {
    if from >= |s| then -1 else if s[from] == c then from else IndexOf(s, c, from + 1)
  }

  /** indexOf finds `c` where it says, and nowhere before that. */
  lemma {:induction false} IndexOfIsFirst(s: string, c: char, from: nat)
    ensures IndexOf(s, c, from) != -1 ==> s[IndexOf(s, c, from)] == c
    ensures forall k | from <= k < |s| && (IndexOf(s, c, from) == -1 || k < IndexOf(s, c, from)) :: s[k] != c
    decreases |s| - from
  {
    if from < |s| && s[from] != c {
      IndexOfIsFirst(s, c, from + 1);
    }
  }

  /** One more character at the end of the string is found only where nothing earlier is. */
  lemma {:induction false} IndexOfAppend(s: string, c: char, d: char, from: nat)
    requires from <= |s|
    ensures IndexOf(s + [d], c, from)
            == if IndexOf(s, c, from) != -1 then IndexOf(s, c, from) else if d == c then |s| else -1
    decreases |s| - from
  {
    if from < |s| {
      assert (s + [d])[from] == s[from];
      if s[from] != c {
        IndexOfAppend(s, c, d, from + 1);
      }
    }
  }

  /** Where the segment starting at `start` ends: the next '&', or the end of the query. */
  function SegmentEnd(q: string, start: nat): (e: nat)
    requires start <= |q|
    ensures start <= e <= |q|
  {
    var next := IndexOf(q, '&', start);
    if next == -1 then |q| else next
  }

  /** A segment that ends before the end of the query ends at an '&'. */
  lemma SegmentEndsAtAmpersand(q: string, start: nat)
    requires start <= |q| && SegmentEnd(q, start) < |q|
    ensures q[SegmentEnd(q, start)] == '&'
  {
    IndexOfIsFirst(q, '&', start);
  }

  /** Where the name of the segment start..end ends: its first '=', or the segment's end. */
  function NameEnd(q: string, start: nat, end: nat): (n: nat)
    requires start <= end <= |q|
    ensures start <= n <= end
  {
    var separator := IndexOf(q, '=', start);
    if separator > end || separator == -1 then end else separator
  }

  /** The decoded names of the segments from `start` on, one per segment, repeats
      included. At least one segment is read, so an empty query has one name; a segment
      is read after an '&' only if a character follows it. */
  function SegmentNames(q: string, start: nat, decode: string -> string): (names: seq<string>)
    requires start <= |q|
    ensures |names| >= 1
    decreases |q| - start
  {
    var end := SegmentEnd(q, start);
    [decode(q[start..NameEnd(q, start, end)])] + (if end + 1 < |q| then SegmentNames(q, end + 1, decode) else [])
  }

  predicate NoDuplicates(s: seq<string>) {
    forall i, j | 0 <= i < j < |s| :: s[i] != s[j]
  }

  /** LinkedHashSet.add: a name not yet present goes last. */
  function Insert(names: seq<string>, x: string): seq<string> {
    if x in names then names else names + [x]
  }

  /** The names `xs` added one after the other to the ordered set `acc`. */
  function InsertAll(acc: seq<string>, xs: seq<string>): seq<string>
    decreases |xs|
  {
    if xs == [] then acc else InsertAll(Insert(acc, xs[0]), xs[1..])
  }

  /** The ordered set holds each name once: those it started with and those added. */
  lemma {:induction false} InsertAllContents(acc: seq<string>, xs: seq<string>)
    ensures NoDuplicates(acc) ==> NoDuplicates(InsertAll(acc, xs))
    ensures forall x :: x in InsertAll(acc, xs) <==> x in acc || x in xs
    decreases |xs|
  {
    if xs != [] {
      var acc' := Insert(acc, xs[0]);
      InsertAllContents(acc', xs[1..]);
      assert xs == [xs[0]] + xs[1..];
      assert NoDuplicates(acc) ==> NoDuplicates(acc');
    }
  }

  /** Adding the names `xs`, then `x`, is adding `xs + [x]`. */
  lemma {:induction false} InsertAllSnoc(acc: seq<string>, xs: seq<string>, x: string)
    ensures InsertAll(acc, xs + [x]) == Insert(InsertAll(acc, xs), x)
    decreases |xs|
  {
    if xs == [] {
      assert ([] + [x])[1..] == [];
    } else {
      assert (xs + [x])[0] == xs[0] && (xs + [x])[1..] == xs[1..] + [x];
      InsertAllSnoc(Insert(acc, xs[0]), xs[1..], x);
    }
  }

  /** The position of the first occurrence of `x` in `xs`. */
  function FirstIndex(xs: seq<string>, x: string): (i: nat)
    requires x in xs
    ensures i < |xs| && xs[i] == x && forall k | 0 <= k < i :: xs[k] != x
  {
    if xs[0] == x then 0 else 1 + FirstIndex(xs[1..], x)
  }

  /** A name already present keeps its first position when more names follow. */
  lemma FirstIndexExtend(xs: seq<string>, x: string, y: string)
    requires y in xs
    ensures FirstIndex(xs + [x], y) == FirstIndex(xs, y)
  {
    var i, j := FirstIndex(xs + [x], y), FirstIndex(xs, y);
    assert (xs + [x])[j] == y;
    assert xs[i] == y by { assert i <= j; }
  }

  /** The ordered set lists every name once, in the order of the names' first occurrences. */
  lemma {:induction false} InsertAllInFirstOrder(xs: seq<string>)
    ensures forall x | x in InsertAll([], xs) :: x in xs
    ensures forall i, j | 0 <= i < j < |InsertAll([], xs)| ::
              FirstIndex(xs, InsertAll([], xs)[i]) < FirstIndex(xs, InsertAll([], xs)[j])
    decreases |xs|
  {
    if xs != [] {
      var p, x := xs[..|xs| - 1], xs[|xs| - 1];
      assert xs == p + [x];
      InsertAllSnoc([], p, x);
      InsertAllInFirstOrder(p);
      InsertAllContents([], p);
      InsertKeepsFirstOrder(p, x, InsertAll([], p));
    }
  }

  /** Adding `x` to an ordered set that lists the names of `p` in first-occurrence order
      lists the names of `p + [x]` in first-occurrence order. */
  lemma InsertKeepsFirstOrder(p: seq<string>, x: string, rp: seq<string>)
    requires forall y :: y in rp <==> y in p
    requires forall i, j | 0 <= i < j < |rp| :: FirstIndex(p, rp[i]) < FirstIndex(p, rp[j])
    ensures forall y | y in Insert(rp, x) :: y in p + [x]
    ensures forall i, j | 0 <= i < j < |Insert(rp, x)| ::
              FirstIndex(p + [x], Insert(rp, x)[i]) < FirstIndex(p + [x], Insert(rp, x)[j])
  {
    forall y | y in p
      ensures FirstIndex(p + [x], y) == FirstIndex(p, y)
    {
      FirstIndexExtend(p, x, y);
    }
    if x !in rp {
      assert FirstIndex(p + [x], x) == |p|;
    }
  }

  /** The names getQueryParameterNames returns for a non-null encoded query. */
  function QueryNames(q: string, decode: string -> string): seq<string> {
    InsertAll([], SegmentNames(q, 0, decode))
  }

  /** getQueryParameterNames(uri) on a hierarchical URI: none for a null query. */
  function NamesOf(uri: Uri, decode: string -> string): seq<string> {
    if uri.query.None? then [] else QueryNames(uri.query.value, decode)
  }

  /** The names of a query are distinct, and each is the decoded name of one of its
      segments, listed at the first segment that has it. */
  lemma QueryNamesAreFirstOccurrences(q: string, decode: string -> string)
    ensures NoDuplicates(QueryNames(q, decode))
    ensures forall x :: x in QueryNames(q, decode) <==> x in SegmentNames(q, 0, decode)
    ensures forall i, j | 0 <= i < j < |QueryNames(q, decode)| ::
              FirstIndex(SegmentNames(q, 0, decode), QueryNames(q, decode)[i])
              < FirstIndex(SegmentNames(q, 0, decode), QueryNames(q, decode)[j])
  {
    InsertAllContents([], SegmentNames(q, 0, decode));
    InsertAllInFirstOrder(SegmentNames(q, 0, decode));
  }

  /** A present but empty query has exactly one name, the decoded empty one. */
  lemma EmptyQueryHasOneName(decode: string -> string)
    ensures QueryNames("", decode) == [decode("")]
  {
    assert SegmentNames("", 0, decode) == [decode("")];
    assert InsertAll([], [decode("")]) == [decode("")] by {
      assert [decode("")][1..] == [];
    }
  }

  /** A trailing '&' after a query that does not already end with one adds no name. */
  lemma {:induction false} TrailingAmpersandAddsNothing(q: string, start: nat, acc: seq<string>,
                                                      decode: string -> string)
    requires start < |q| || start == 0 == |q|
    requires q == [] || q[|q| - 1] != '&'
    ensures NamesFrom(q + "&", start, acc, decode) == NamesFrom(q, start, acc, decode)
    decreases |q| - start
  {
    var end := SegmentEnd(q, start);
    SameFirstSegment(q, start);
    if end < |q| {
      SegmentEndsAtAmpersand(q, start);
      TrailingAmpersandAddsNothing(q, end + 1, Insert(acc, decode(q[start..NameEnd(q, start, end)])), decode);
    }
  }

  /** An '&' appended to the query leaves the segment at `start` and its name as they were. */
  lemma SameFirstSegment(q: string, start: nat)
    requires start <= |q|
    ensures SegmentEnd(q + "&", start) == SegmentEnd(q, start)
    ensures NameEnd(q + "&", start, SegmentEnd(q, start)) == NameEnd(q, start, SegmentEnd(q, start))
    ensures (q + "&")[start..NameEnd(q, start, SegmentEnd(q, start))] == q[start..NameEnd(q, start, SegmentEnd(q, start))]
  {
    IndexOfAppend(q, '&', '&', start);
    IndexOfAppend(q, '=', '&', start);
  }

  /** The same, for the names getQueryParameterNames returns. */
  lemma TrailingAmpersandKeepsNames(q: string, decode: string -> string)
    requires q == [] || q[|q| - 1] != '&'
    ensures QueryNames(q + "&", decode) == QueryNames(q, decode)
  {
    TrailingAmpersandAddsNothing(q, 0, [], decode);
    NamesFromReadsAll(q + "&", 0, [], decode);
    NamesFromReadsAll(q, 0, [], decode);
  }

  /** The ordered set `acc` after reading the segments from `start` on, one at a time. */
  function NamesFrom(q: string, start: nat, acc: seq<string>, decode: string -> string): seq<string>
    requires start <= |q|
    decreases |q| - start
  {
    var end := SegmentEnd(q, start);
    var acc' := Insert(acc, decode(q[start..NameEnd(q, start, end)]));
    if end + 1 < |q| then NamesFrom(q, end + 1, acc', decode) else acc'
  }

  /** Adding a first name, then the rest, is adding all of them. */
  lemma InsertAllCons(acc: seq<string>, x: string, rest: seq<string>)
    ensures InsertAll(acc, [x] + rest) == InsertAll(Insert(acc, x), rest)
  {
    assert ([x] + rest)[0] == x && ([x] + rest)[1..] == rest;
  }

  /** Reading the segments one at a time adds their names in order. */
  lemma {:induction false} NamesFromReadsAll(q: string, start: nat, acc: seq<string>, decode: string -> string)
    requires start <= |q|
    ensures NamesFrom(q, start, acc, decode) == InsertAll(acc, SegmentNames(q, start, decode))
    decreases |q| - start
  {
    var end := SegmentEnd(q, start);
    var name := decode(q[start..NameEnd(q, start, end)]);
    var rest := if end + 1 < |q| then SegmentNames(q, end + 1, decode) else [];
    assert SegmentNames(q, start, decode) == [name] + rest;
    InsertAllCons(acc, name, rest);
    if end + 1 < |q| {
      NamesFromReadsAll(q, end + 1, Insert(acc, name), decode);
    }
  }

  /** The query "a=1&b&a=2&" names "a" then "b": a repeated name is listed once, at its
      first segment, a segment without '=' is all name, and the trailing '&' adds nothing. */
  lemma QueryNamesExample()
    ensures QueryNames("a=1&b&a=2&", s => s) == ["a", "b"]
  {
    var q := "a=1&b&a=2&";
    var same := (s: string) => s;
    assert SegmentEnd(q, 0) == 3 && NameEnd(q, 0, 3) == 1;
    assert SegmentEnd(q, 4) == 5 && NameEnd(q, 4, 5) == 5;
    assert SegmentEnd(q, 6) == 9 && NameEnd(q, 6, 9) == 7;
    assert q[0..1] == "a" && q[4..5] == "b" && q[6..7] == "a";
    assert same("a") == "a" && same("b") == "b";
    assert NamesFrom(q, 6, ["a", "b"], same) == ["a", "b"];
    assert NamesFrom(q, 4, ["a"], same) == ["a", "b"];
    assert NamesFrom(q, 0, [], same) == ["a", "b"];
    NamesFromReadsAll(q, 0, [], same);
  }

  /** getQueryParameterNames(uri): an opaque URI throws UnsupportedOperationException, a
      null query has no names, and otherwise the segments between '&'s are read one after
      the other (at least one, even for an empty query), each contributing the decoded
      text before its first '=' to an insertion-ordered set. */
  method GetQueryParameterNames(uri: Uri, decode: string -> string) returns (r: Outcome<seq<string>>)
    ensures r == if uri.isOpaque then Thrown(UnsupportedOperationException) else Returned(NamesOf(uri, decode))
  {
    if uri.isOpaque {
      return Thrown(UnsupportedOperationException);
    }
    if uri.query.None? {
      return Returned([]);
    }
    var query := uri.query.value;
    var names: seq<string> := [];
    var start := 0;
    while true
      invariant start < |query| || start == 0 == |query|
      invariant NamesFrom(query, 0, [], decode) == NamesFrom(query, start, names, decode)
      decreases |query| - start
    {
      var next := IndexOf(query, '&', start);
      var end := if next == -1 then |query| else next;
      var separator := IndexOf(query, '=', start);
      if separator > end || separator == -1 {
        separator := end;
      }
      var name := query[start..separator];
      assert end == SegmentEnd(query, start) && separator == NameEnd(query, start, end);
      names := Insert(names, decode(name));
      start := end + 1;
      if !(start < |query|) {
        NamesFromReadsAll(query, 0, [], decode);
        return Returned(names);
      }
    }
  }

  /** TextUtils.isEmpty on a value: null and "" both become null. */
  function NonEmpty(v: Option<string>): (w: Option<string>)
    ensures w.Some? ==> w == v && w.value != ""
    ensures v.Some? && v.value != "" ==> w == v
  {
    if v.None? || v.value == "" then None else v
  }

  /** The parameters getParams builds from the names `keys`, put one after the other. */
  function ParamsOf(keys: seq<string>, queryParameter: string -> Option<string>): map<string, Option<string>>
    decreases |keys|
  {
    if keys == [] then map[]
    else ParamsOf(keys[..|keys| - 1], queryParameter)[keys[|keys| - 1] := NonEmpty(queryParameter(keys[|keys| - 1]))]
  }

  /** One entry per distinct name, holding the query's value for it, or null when that is
      absent or empty: no entry is ever the empty string. */
  lemma {:induction false} ParamsOfEntries(keys: seq<string>, queryParameter: string -> Option<string>)
    ensures ParamsOf(keys, queryParameter).Keys == set k | k in keys
    ensures forall k | k in ParamsOf(keys, queryParameter) ::
              ParamsOf(keys, queryParameter)[k] == NonEmpty(queryParameter(k))
    ensures forall k | k in ParamsOf(keys, queryParameter) ::
              ParamsOf(keys, queryParameter)[k].None? || ParamsOf(keys, queryParameter)[k].value != ""
    decreases |keys|
  {
    if keys != [] {
      var p := keys[..|keys| - 1];
      ParamsOfEntries(p, queryParameter);
      assert keys == p + [keys[|keys| - 1]];
      assert (set k | k in keys) == (set k | k in p) + {keys[|keys| - 1]};
    }
  }

  /** getParams(uri): a fresh parameter table with one entry per query name. */
  method GetParams(uri: Uri, decode: string -> string, queryParameter: string -> Option<string>)
    returns (r: Outcome<RequestParams>)
    ensures r.Thrown? <==> uri.isOpaque
    ensures r.Thrown? ==> r.exception == UnsupportedOperationException
    ensures r.Returned? ==> fresh(r.value) && r.value.entries == ParamsOf(NamesOf(uri, decode), queryParameter)
  {
    var params := new RequestParams();
    var keys := GetQueryParameterNames(uri, decode);
    if keys.Thrown? {
      return Thrown(keys.exception);
    }
    var names := keys.value;
    for i := 0 to |names|
      invariant params.entries == ParamsOf(names[..i], queryParameter)
    {
      var value := queryParameter(names[i]);
      if value.None? || value.value == "" {
        value := None;
      }
      params.Put(names[i], value);
      assert names[..i + 1] == names[..i] + [names[i]];
    }
    assert names[..|names|] == names;
    return Returned(params);
  }
}

/**
 * `normalizeUrl` (index.js:58-68). The WHATWG URL parser is a foreign step: it is
 * the parameter `parse`, which either fails (`None`) or yields the parsed record.
 */
module UrlNorm {
  import opened Wrappers
  import opened Text

  /** One `name=value` pair of the query string. */
  type Param = (string, string)

  /**
   * A parsed URL. `protocol` keeps its colon (`"http:"`), as the URL object's
   * `protocol` does; `username` and `password` are the credentials before `@`, empty
   * when absent, and `pathname` is the path, all three as the parser's percent-encoded
   * text; `hostname` is the ASCII host after the parser has percent-decoded it;
   * `query` holds the decoded `searchParams` pairs, not their encoded serialisation;
   * `hash` is the fragment without its `#`, empty when there is none.
   */
  datatype Url = Url(
    protocol: string,
    username: string,
    password: string,
    hostname: string,
    port: string,
    pathname: string,
    query: seq<Param>,
    hash: string)

  /** The tracking parameters `normalizeUrl` deletes, in the order it deletes them. */
  const TRACKING_PARAMS: seq<string> :=
    ["utm_source", "utm_medium", "utm_campaign", "utm_term", "utm_content", "gclid", "fbclid"]

  /** The query pairs whose name is not one of `names`, in their original order. */
  function RemoveKeys(query: seq<Param>, names: seq<string>): (r: seq<Param>)
    ensures |r| <= |query|
    ensures forall p :: p in r ==> p in query && p.0 !in names
    ensures forall p :: p in query && p.0 !in names ==> p in r
  {
    if query == [] then []
    else (if query[0].0 in names then [] else [query[0]]) + RemoveKeys(query[1..], names)
  }

  /** `searchParams.delete(name)`: drops every pair called `name`. */
  function DeleteParam(query: seq<Param>, name: string): seq<Param> {
    RemoveKeys(query, [name])
  }

  /** Removing no names keeps the query as it is. */
  lemma {:induction false} RemoveNothing(query: seq<Param>)
    ensures RemoveKeys(query, []) == query
  {
    if query != [] {
      RemoveNothing(query[1..]);
    }
  }

  /** Removing pairs keeps the survivors in order: the filter distributes over concatenation. */
  lemma {:induction false} RemoveKeysAppend(a: seq<Param>, b: seq<Param>, names: seq<string>)
    ensures RemoveKeys(a + b, names) == RemoveKeys(a, names) + RemoveKeys(b, names)
  {
    if a != [] {
      assert (a + b)[1..] == a[1..] + b;
      RemoveKeysAppend(a[1..], b, names);
    } else {
      assert a + b == b;
    }
  }

  /** Deleting one more name after a batch of deletions is one batch with that name added. */
  lemma {:induction false} DeleteAfterRemove(query: seq<Param>, names: seq<string>, name: string)
    ensures DeleteParam(RemoveKeys(query, names), name) == RemoveKeys(query, names + [name])
  {
    if query != [] {
      DeleteAfterRemove(query[1..], names, name);
      var head := if query[0].0 in names then [] else [query[0]];
      RemoveKeysAppend(head, RemoveKeys(query[1..], names), [name]);
    }
  }

  /** One more deletion from a list of names extends the prefix already deleted. */
  lemma DeleteStep(query: seq<Param>, names: seq<string>, i: nat)
    requires i < |names|
    ensures DeleteParam(RemoveKeys(query, names[..i]), names[i]) == RemoveKeys(query, names[..i + 1])
  {
    DeleteAfterRemove(query, names[..i], names[i]);
    assert names[..i] + [names[i]] == names[..i + 1];
  }

  /** Filtering twice by the same names is filtering once. */
  lemma {:induction false} RemoveKeysIdempotent(query: seq<Param>, names: seq<string>)
    ensures RemoveKeys(RemoveKeys(query, names), names) == RemoveKeys(query, names)
  {
    if query != [] {
      RemoveKeysIdempotent(query[1..], names);
      var head := if query[0].0 in names then [] else [query[0]];
      RemoveKeysAppend(head, RemoveKeys(query[1..], names), names);
    }
  }

  /** The normal form of a parsed URL: no fragment, no tracking pairs, lower-case host. */
  function Normalize(u: Url): Url {
    u.(hash := "", query := RemoveKeys(u.query, TRACKING_PARAMS), hostname := Lower(u.hostname))
  }

  /** What `normalizeUrl` guarantees of a URL it returns. */
  predicate IsNormal(u: Url) {
    u.hash == ""
    && (forall p :: p in u.query ==> p.0 !in TRACKING_PARAMS)
    && (forall i :: 0 <= i < |u.hostname| ==> !IsUpper(u.hostname[i]))
  }

  /**
   * The normal form has no fragment, no tracking pair and a lower-case host; it keeps
   * the scheme, port and path, and the remaining pairs in their relative order.
   */
  lemma NormalizeSpec(u: Url, before: seq<Param>, after: seq<Param>)
    requires u.query == before + after
    ensures IsNormal(Normalize(u))
    ensures Normalize(u).protocol == u.protocol && Normalize(u).port == u.port
    ensures Normalize(u).pathname == u.pathname
    ensures Normalize(u).query == RemoveKeys(before, TRACKING_PARAMS) + RemoveKeys(after, TRACKING_PARAMS)
    ensures forall p :: p in u.query && p.0 !in TRACKING_PARAMS ==> p in Normalize(u).query
  {
    RemoveKeysAppend(before, after, TRACKING_PARAMS);
  }

  /** Normalising a normalised URL changes nothing. */
  lemma NormalizeIdempotent(u: Url)
    ensures Normalize(Normalize(u)) == Normalize(u)
  {
    RemoveKeysIdempotent(u.query, TRACKING_PARAMS);
    LowerIdempotent(u.hostname);
  }

  /**
   * `normalizeUrl(input)`: parses the trimmed input, clears the fragment, deletes the
   * tracking parameters one by one, and lower-cases the host; `None` when parsing fails.
   */
  method NormalizeUrl(input: string, parse: string -> Option<Url>) returns (r: Option<Url>)
    ensures r.None? <==> parse(Trim(input)).None?
    ensures r.Some? ==> r.value == Normalize(parse(Trim(input)).value) && IsNormal(r.value)
  {
    var parsed := parse(Trim(input));
    if parsed.None? {
      return None;
    }
    var original := parsed.value;
    var u := original.(hash := "");
    var i := 0;
    RemoveNothing(original.query);
    assert TRACKING_PARAMS[..0] == [];
    while i < |TRACKING_PARAMS|
      invariant 0 <= i <= |TRACKING_PARAMS|
      invariant u == original.(hash := "", query := RemoveKeys(original.query, TRACKING_PARAMS[..i]))
    {
      DeleteStep(original.query, TRACKING_PARAMS, i);
      u := u.(query := DeleteParam(u.query, TRACKING_PARAMS[i]));
      i := i + 1;
    }
    assert TRACKING_PARAMS[..i] == TRACKING_PARAMS;
    u := u.(hostname := Lower(u.hostname));
    assert u == Normalize(original);
    NormalizeSpec(original, original.query, []);
    return Some(u);
  }

  /** The query string as `toString` writes it, without the `?`. */
  function JoinParams(query: seq<Param>): string {
    if query == [] then ""
    else query[0].0 + "=" + query[0].1 + (if |query| == 1 then "" else "&" + JoinParams(query[1..]))
  }

  /** The credentials as `toString` writes them: `user[:pass]@`, or nothing. */
  function Userinfo(u: Url): string {
    if u.username == "" && u.password == "" then ""
    else u.username + (if u.password == "" then "" else ":" + u.password) + "@"
  }

  /**
   * `url.toString()`, the serialisation the keyword rule searches, with its components
   * taken as they are stored: the path and credentials already percent-encoded, the
   * query pairs decoded and written without the form-urlencoded escapes.
   */
  function Href(u: Url): string {
    u.protocol + "//" + Userinfo(u) + u.hostname
    + (if u.port == "" then "" else ":" + u.port)
    + u.pathname
    + (if u.query == [] then "" else "?" + JoinParams(u.query))
    + (if u.hash == "" then "" else "#" + u.hash)
  }
}

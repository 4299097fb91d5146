/**
  The API key read from the key file: Go's `strings.TrimSpace` and the
  empty-key check of `getAPIKeyFromFile`.
 */
module ApiKey {
  import opened Results

  /** Go's `unicode.IsSpace`: the Unicode White_Space characters. */
  predicate IsSpace(c: char) {
    ('\t' <= c <= '\r') || c == ' ' || c == '\U{85}' || c == '\U{A0}' || c == '\U{1680}'
    || ('\U{2000}' <= c <= '\U{200A}') || c == '\U{2028}' || c == '\U{2029}'
    || c == '\U{202F}' || c == '\U{205F}' || c == '\U{3000}'
  }

  /** Length of the longest all-space prefix. */
  function LeadingSpaces(s: string): (n: nat)
    ensures n <= |s|
    ensures forall k :: 0 <= k < n ==> IsSpace(s[k])
    ensures n < |s| ==> !IsSpace(s[n])
  {
    if s == [] || !IsSpace(s[0]) then 0 else 1 + LeadingSpaces(s[1..])
  }

  /** Length of the longest all-space suffix. */
  function TrailingSpaces(s: string): (n: nat)
    ensures n <= |s|
    ensures forall k :: |s| - n <= k < |s| ==> IsSpace(s[k])
    ensures n < |s| ==> !IsSpace(s[|s| - n - 1])
  {
    if s == [] || !IsSpace(s[|s| - 1]) then 0 else 1 + TrailingSpaces(s[..|s| - 1])
  }

  /**
    `strings.TrimSpace`: what is left of `s` once every leading and every
    trailing space is removed.
   */
  function TrimSpace(s: string): string {
    var rest := s[LeadingSpaces(s)..];
    rest[..|rest| - TrailingSpaces(rest)]
  }

  /** `TrimSpace(s)` is the slice `s[i..i + |r|]` with `i` the count of leading spaces, and only spaces follow it. */
  lemma TrimSpaceSlice(s: string)
    ensures LeadingSpaces(s) + |TrimSpace(s)| <= |s|
    ensures TrimSpace(s) == s[LeadingSpaces(s)..LeadingSpaces(s) + |TrimSpace(s)|]
    ensures forall k :: LeadingSpaces(s) + |TrimSpace(s)| <= k < |s| ==> IsSpace(s[k])
  {
    var i := LeadingSpaces(s);
    var rest := s[i..];
    var j := TrailingSpaces(rest);
    assert TrimSpace(s) == rest[..|rest| - j];
    forall k | i + |rest| - j <= k < |s|
      ensures IsSpace(s[k])
    {
      assert s[k] == rest[k - i];
    }
  }

  /**
    The trimmed text starts at the first non-space of `s` and ends at its
    last non-space; it is empty exactly when `s` is all spaces.
   */
  lemma TrimSpaceSpec(s: string)
    ensures TrimSpace(s) == [] <==> forall k :: 0 <= k < |s| ==> IsSpace(s[k])
    ensures TrimSpace(s) != [] ==> !IsSpace(TrimSpace(s)[0]) && !IsSpace(TrimSpace(s)[|TrimSpace(s)| - 1])
  {
    TrimSpaceSlice(s);
    var i := LeadingSpaces(s);
    var rest := s[i..];
    var j := TrailingSpaces(rest);
    var r := TrimSpace(s);
    assert r == rest[..|rest| - j];
    if r != [] {
      assert r[0] == s[i];
      assert r[|r| - 1] == rest[|rest| - j - 1];
    }
  }

  lemma TrimSpaceIdempotent(s: string)
    ensures TrimSpace(TrimSpace(s)) == TrimSpace(s)
  {
    var r := TrimSpace(s);
    TrimSpaceSpec(s);
    if r != [] {
      assert LeadingSpaces(r) == 0;
      assert TrailingSpaces(r) == 0;
      assert r[0..] == r;
      assert r[..|r|] == r;
    }
  }

  datatype KeyError = KeyFileUnreadable | KeyFileEmpty

  /**
    `getAPIKeyFromFile` after the file is read: `None` when it could not be
    read, otherwise its contents, trimmed and refused when nothing is left.
   */
  function KeyFromFile(contents: Option<string>): (r: Result<string, KeyError>)
    ensures r == Err(KeyFileUnreadable) <==> contents.None?
    ensures r == Err(KeyFileEmpty) <==>
      contents.Some? && forall k :: 0 <= k < |contents.value| ==> IsSpace(contents.value[k])
    ensures r.Ok? ==> r.value != [] && !IsSpace(r.value[0]) && !IsSpace(r.value[|r.value| - 1])
    ensures r.Ok? ==> r.value == TrimSpace(r.value)
    ensures contents.Some? && r.Ok? ==> r.value == TrimSpace(contents.value)
  {
    match contents
    case None => Err(KeyFileUnreadable)
    case Some(data) =>
      var key := TrimSpace(data);
      TrimSpaceSlice(data);
      TrimSpaceSpec(data);
      TrimSpaceIdempotent(data);
      if key == [] then Err(KeyFileEmpty) else Ok(key)
  }

  /** The `-key` flag wins; only when it is empty is the key file consulted. */
  function ResolveKey(flagKey: string, contents: Option<string>): (r: Result<string, KeyError>)
    ensures r.Ok? ==> r.value != []
    ensures flagKey != [] ==> r == Ok(flagKey)
    ensures flagKey == [] ==> r == KeyFromFile(contents)
  {
    if flagKey == [] then KeyFromFile(contents) else Ok(flagKey)
  }
}

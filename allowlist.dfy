/**
  The allow-list of upstream targets: `getAllowedURLs` turns the comma-separated
  value of an environment variable into a set of exact tokens, and
  `isAllowedURL` is plain membership in that set.
 */
module Allowlist {
  import opened GoMaps
  import opened GoStrings

  /**
    The set the loader builds from the variable's value: nothing for an empty
    value, otherwise every comma-separated piece, empty pieces included.
   */
  function AllowedSet(envValue: string): (urls: set<string>)
    ensures envValue == "" ==> urls == {}
    ensures envValue != "" ==> forall u :: u in urls <==> u in Split(envValue)
    ensures forall u :: u in urls ==> CommaFree(u)
  {
    if envValue == "" then {}
    else var pieces := Split(envValue); set i | 0 <= i < |pieces| :: pieces[i]
  }

  /** `getAllowedURLs(envKey)`: reads the variable and adds each piece to the set. */
  method GetAllowedURLs(env: Environment, envKey: string) returns (allowedURLs: set<string>)
    ensures allowedURLs == AllowedSet(Getenv(env, envKey))
  {
    allowedURLs := {};
    var envValue := Getenv(env, envKey);
    if envValue != "" {
      var pieces := Split(envValue);
      for i := 0 to |pieces|
        invariant allowedURLs == set j | 0 <= j < i :: pieces[j]
      {
        allowedURLs := allowedURLs + {pieces[i]};
      }
    }
  }

  /** `isAllowedURL(path, allowedURLs)`: exact membership, no normalisation of any kind. */
  predicate IsAllowedURL(path: string, allowedURLs: set<string>)
    ensures IsAllowedURL(path, allowedURLs) <==> path in allowedURLs
    ensures allowedURLs == {} ==> !IsAllowedURL(path, allowedURLs)
  {
    path in allowedURLs
  }

  /**
    A target is allowed by the list `s` exactly when it equals, character for
    character, one of the comma-separated pieces of a non-empty `s`.
   */
  lemma AllowedIffPiece(s: string, path: string)
    ensures IsAllowedURL(path, AllowedSet(s)) <==>
            s != "" && exists i :: 0 <= i < |Split(s)| && Split(s)[i] == path
  {
    var pieces := Split(s);
    if s != "" && exists i :: 0 <= i < |pieces| && pieces[i] == path {
      var i :| 0 <= i < |pieces| && pieces[i] == path;
      assert pieces[i] in pieces;
      assert path in Split(s);
      assert path in AllowedSet(s);
    }
  }

  /** An empty list admits no target at all, not even the empty one. */
  lemma EmptyListAllowsNothing(path: string)
    ensures !IsAllowedURL(path, AllowedSet(""))
  {
  }

  /** A target containing a comma can never be allowed. */
  lemma CommaTargetNeverAllowed(s: string, path: string)
    requires !CommaFree(path)
    ensures !IsAllowedURL(path, AllowedSet(s))
  {
  }

  /**
    Writing a list of comma-free entries into the variable yields exactly those
    entries; the one exception is the list [""], whose text is the empty value.
   */
  lemma {:induction false} ListRoundTrip(entries: seq<string>)
    requires |entries| >= 1
    requires forall i :: 0 <= i < |entries| ==> CommaFree(entries[i])
    ensures entries != [""] ==> AllowedSet(Join(entries)) == set i | 0 <= i < |entries| :: entries[i]
    ensures entries == [""] ==> AllowedSet(Join(entries)) == {}
  {
    JoinEmpty(entries);
    if entries != [""] {
      SplitJoin(entries);
    }
  }

  /** A list of one non-empty entry without commas loads as exactly that entry. */
  lemma SingleEntryList(entry: string)
    requires entry != "" && CommaFree(entry)
    ensures AllowedSet(entry) == {entry}
  {
    SplitCommaFree(entry);
  }

  /** Consecutive or trailing commas put the empty target on the list. */
  lemma EmptyPiecesAreAllowed(a: string, b: string)
    ensures IsAllowedURL("", AllowedSet(a + ",," + b))
    ensures IsAllowedURL("", AllowedSet(a + ","))
  {
    DoubleCommaGivesEmptyPiece(a, b);
    assert (a + ",," + b)[|a|] == ',';
    TrailingCommaGivesEmptyPiece(a);
    assert (a + ",")[|a|] == ',';
  }
}

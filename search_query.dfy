/**
 * The page's search helpers: the text shown in the transaction search bar,
 * and the location query a new search navigates to.
 */
module SearchQuery {

  /** What the search-query tokenizer yields for a query string. */
  datatype SearchConditions = SearchConditions(
    transactionValues: seq<string>,  // values of the `transaction` filter, in order
    freeText: seq<string>)           // the free-text tokens, in order

  /** `tokens.join(sep)`. */
  function Join(tokens: seq<string>, sep: string): string
  {
    if tokens == [] then ""
    else if |tokens| == 1 then tokens[0]
    else tokens[0] + sep + Join(tokens[1..], sep)
  }

  /** Reference splitting of a string at every space (`s.split(' ')`). */
  function SplitAtSpaces(s: string): (r: seq<string>)
    ensures |r| > 0
  {
    if s == [] then [""]
    else
      var rest := SplitAtSpaces(s[1..]);
      if s[0] == ' ' then [""] + rest else [[s[0]] + rest[0]] + rest[1..]
  }

  lemma {:induction false} SplitToken(t: string, u: string)
    requires ' ' !in t
    ensures SplitAtSpaces(t + u) == [t + SplitAtSpaces(u)[0]] + SplitAtSpaces(u)[1..]
  {
    var su := SplitAtSpaces(u);
    if t == [] {
      assert t + u == u && t + su[0] == su[0];
      assert su == [su[0]] + su[1..];
    } else {
      assert (t + u)[1..] == t[1..] + u;
      SplitToken(t[1..], u);
      assert [t[0]] + (t[1..] + su[0]) == t + su[0];
    }
  }

  /** Joining space-free tokens with `' '` and splitting at spaces gives the tokens back. */
  lemma {:induction false} SplitJoin(tokens: seq<string>)
    requires tokens != []
    requires forall k :: 0 <= k < |tokens| ==> ' ' !in tokens[k]
    ensures SplitAtSpaces(Join(tokens, " ")) == tokens
  {
    if |tokens| == 1 {
      SplitToken(tokens[0], "");
      assert tokens[0] + "" == tokens[0];
    } else {
      var rest := Join(tokens[1..], " ");
      SplitJoin(tokens[1..]);
      assert tokens[0] + " " + rest == tokens[0] + (" " + rest);
      SplitToken(tokens[0], " " + rest);
      assert (" " + rest)[1..] == rest;
      assert SplitAtSpaces(" " + rest) == [""] + SplitAtSpaces(rest);
      assert tokens[0] + "" == tokens[0];
      assert tokens == [tokens[0]] + tokens[1..];
    }
  }

  /** `getFreeTextFromQuery`: the first `transaction` value, else the free text, else "". */
  function FreeTextFromQuery(conditions: SearchConditions): (r: string)
    ensures |conditions.transactionValues| > 0 ==> r == conditions.transactionValues[0]
    ensures |conditions.transactionValues| == 0 && |conditions.freeText| > 0 ==>
              r == Join(conditions.freeText, " ")
    ensures |conditions.transactionValues| == 0 && |conditions.freeText| == 0 ==> r == ""
  {
    if |conditions.transactionValues| > 0 then conditions.transactionValues[0]
    else if |conditions.freeText| > 0 then Join(conditions.freeText, " ")
    else ""
  }

  /**
   * Without a `transaction` filter, the text shown splits back into the
   * free-text tokens (when they hold no space).
   */
  lemma FreeTextRoundTrip(conditions: SearchConditions)
    requires |conditions.transactionValues| == 0 && |conditions.freeText| > 0
    requires forall k :: 0 <= k < |conditions.freeText| ==> ' ' !in conditions.freeText[k]
    ensures SplitAtSpaces(FreeTextFromQuery(conditions)) == conditions.freeText
  {
    SplitJoin(conditions.freeText);
  }

  /** The characters `String.prototype.trim` removes: ECMAScript WhiteSpace and LineTerminator. */
  const Whitespace: set<char> := {
    '\U{9}', '\U{A}', '\U{B}', '\U{C}', '\U{D}',   // tab, line feed, vertical tab, form feed, carriage return
    ' ', '\U{A0}', '\U{1680}',                       // space, no-break space, ogham space mark
    '\U{2000}', '\U{2001}', '\U{2002}', '\U{2003}', '\U{2004}', '\U{2005}',
    '\U{2006}', '\U{2007}', '\U{2008}', '\U{2009}', '\U{200A}',  // en quad .. hair space
    '\U{2028}', '\U{2029}',                          // line and paragraph separators
    '\U{202F}', '\U{205F}', '\U{3000}',             // narrow no-break, math and ideographic spaces
    '\U{FEFF}'                                        // byte order mark
  }

  predicate IsWhitespace(c: char)
  {
    c in Whitespace
  }

  /** The length of the run of whitespace that starts `s`. */
  function LeadingWhitespace(s: string): (n: nat)
    ensures n <= |s|
    ensures forall k :: 0 <= k < n ==> IsWhitespace(s[k])
    ensures n == |s| || !IsWhitespace(s[n])
  {
    if s != [] && IsWhitespace(s[0]) then 1 + LeadingWhitespace(s[1..]) else 0
  }

  /** The length of the run of whitespace that ends `s`. */
  function TrailingWhitespace(s: string): (n: nat)
    ensures n <= |s|
    ensures forall k :: |s| - n <= k < |s| ==> IsWhitespace(s[k])
    ensures n == |s| || !IsWhitespace(s[|s| - n - 1])
  {
    if s != [] && IsWhitespace(s[|s| - 1]) then 1 + TrailingWhitespace(s[..|s| - 1]) else 0
  }

  /** Drops leading whitespace: the result is a suffix of `s`, everything dropped is whitespace. */
  function TrimStart(s: string): (r: string)
    ensures |r| <= |s| && r == s[|s| - |r|..]
    ensures forall k :: 0 <= k < |s| - |r| ==> IsWhitespace(s[k])
    ensures r == [] || !IsWhitespace(r[0])
  {
    s[LeadingWhitespace(s)..]
  }

  /** Drops trailing whitespace: the result is a prefix of `s`, everything dropped is whitespace. */
  function TrimEnd(s: string): (r: string)
    ensures |r| <= |s| && r == s[..|r|]
    ensures forall k :: |r| <= k < |s| ==> IsWhitespace(s[k])
    ensures r == [] || !IsWhitespace(r[|r| - 1])
  {
    s[..|s| - TrailingWhitespace(s)]
  }

  /** `s.trim()`. */
  function Trim(s: string): (r: string)
    ensures |r| <= |s|
    ensures r == [] || (!IsWhitespace(r[0]) && !IsWhitespace(r[|r| - 1]))
    ensures r == [] <==> forall k :: 0 <= k < |s| ==> IsWhitespace(s[k])
    ensures var lead := |s| - |TrimStart(s)|;
            && lead + |r| <= |s| && r == s[lead..lead + |r|]
            && (forall k :: 0 <= k < lead ==> IsWhitespace(s[k]))
            && (forall k :: lead + |r| <= k < |s| ==> IsWhitespace(s[k]))
  {
    var front := TrimStart(s);
    var r := TrimEnd(front);
    TrimIsSlice(s, front, r);
    r
  }

  /** What trimming both ends leaves: the slice between the leading and the trailing whitespace. */
  lemma {:induction false} TrimIsSlice(s: string, front: string, r: string)
    requires front == TrimStart(s) && r == TrimEnd(front)
    ensures var lead := |s| - |front|;
            && lead + |r| <= |s| && r == s[lead..lead + |r|]
            && (forall k :: lead + |r| <= k < |s| ==> IsWhitespace(s[k]))
            && (r == [] <==> forall k :: 0 <= k < |s| ==> IsWhitespace(s[k]))
            && (r == [] || (!IsWhitespace(r[0]) && !IsWhitespace(r[|r| - 1])))
  {
    var lead := |s| - |front|;
    assert r == s[lead..lead + |r|];
    forall k | lead + |r| <= k < |s|
      ensures IsWhitespace(s[k])
    {
      assert front[k - lead] == s[k];
    }
    if r != [] {
      assert r[0] == front[0] == s[lead];
    }
  }

  /** Trimming a trimmed string changes nothing. */
  lemma TrimIdempotent(s: string)
    ensures Trim(Trim(s)) == Trim(s)
  {
    var t := Trim(s);
    if t != [] {
      assert TrimStart(t) == t;
      assert TrimEnd(t) == t;
    }
  }

  /** A value of the location query. `Undefined` keys are dropped when the URL is written. */
  datatype QueryValue = Undefined | Text(string) | Flag(bool) | Texts(seq<string>)

  datatype Location = Location(pathname: string, query: map<string, QueryValue>)

  /** The target handed to `navigate`. */
  datatype NavigateTarget = NavigateTarget(pathname: string, query: map<string, QueryValue>)

  /** `String(searchQuery).trim() || undefined`. */
  function QueryParam(searchQuery: string): (v: QueryValue)
    ensures v == Undefined <==> Trim(searchQuery) == ""
    ensures v != Undefined ==> v == Text(Trim(searchQuery))
  {
    var t := Trim(searchQuery);
    if t == "" then Undefined else Text(t)
  }

  /** `handleSearch`: the old query with `cursor` cleared, `query` replaced and `isDefaultQuery` false. */
  function HandleSearch(location: Location, searchQuery: string): (t: NavigateTarget)
    ensures t.pathname == location.pathname
    ensures t.query.Keys == location.query.Keys + {"cursor", "query", "isDefaultQuery"}
    ensures t.query["cursor"] == Undefined
    ensures t.query["query"] == QueryParam(searchQuery)
    ensures t.query["isDefaultQuery"] == Flag(false)
    ensures forall k :: k in location.query && k != "cursor" && k != "query" && k != "isDefaultQuery" ==>
              t.query[k] == location.query[k]
  {
    NavigateTarget(
      location.pathname,
      location.query["cursor" := Undefined]["query" := QueryParam(searchQuery)]["isDefaultQuery" := Flag(false)])
  }

  /** Searching again for the same text from the resulting location changes nothing. */
  lemma HandleSearchIdempotent(location: Location, searchQuery: string)
    ensures var t := HandleSearch(location, searchQuery);
            HandleSearch(Location(t.pathname, t.query), searchQuery) == t
  {
    var t := HandleSearch(location, searchQuery);
    var t2 := HandleSearch(Location(t.pathname, t.query), searchQuery);
    assert t2.query == t.query;
  }

  /** Searching for a string and for its trimmed form navigates to the same place. */
  lemma HandleSearchTrims(location: Location, searchQuery: string)
    ensures HandleSearch(location, searchQuery) == HandleSearch(location, Trim(searchQuery))
  {
    TrimIdempotent(searchQuery);
  }
}

/** Comma lists: the loop that joins role keys, GROUP_CONCAT, and the getline loop that splits. */
module Text {

  const COMMA := ','

  predicate Free(c: char, s: string) { c !in s }

  ghost predicate AllFree(items: seq<string>) {
    forall i :: 0 <= i < |items| ==> Free(COMMA, items[i])
  }

  function Join(items: seq<string>): string {
    if items == [] then ""
    else if |items| == 1 then items[0]
    else items[0] + [COMMA] + Join(items[1..])
  }

  /** The position of the first comma, or the length. */
  function Cut(s: string): (i: nat)
    ensures i <= |s| && Free(COMMA, s[..i]) && (i < |s| ==> s[i] == COMMA)
  {
    if s == "" || s[0] == COMMA then 0
    else
      var i := Cut(s[1..]);
      assert s[..i + 1] == [s[0]] + s[1..][..i];
      i + 1
  }

  /** What successive std::getline(ss, item, ',') calls extract: nothing follows a final comma. */
  function Split(s: string): seq<string>
    decreases |s|
  {
    if s == "" then []
    else if Cut(s) == |s| then [s]
    else [s[..Cut(s)]] + Split(s[Cut(s) + 1..])
  }

  // ---- the source's loops ----------------------------------------------------------------

  method JoinLoop(items: seq<string>) returns (out: string)
    requires items != []
    ensures out == Join(items)
  {
    out := items[0];
    for i := 1 to |items|
      invariant out == Join(items[..i])
    {
      JoinSnoc(items[..i], items[i]);
      assert items[..i + 1] == items[..i] + [items[i]];
      out := out + ([COMMA] + items[i]);
    }
    assert items[..|items|] == items;
  }

  /** One std::getline: the characters up to the next comma, which is consumed. */
  method GetLine(s: string, pos: nat) returns (item: string, next: nat)
    requires pos < |s|
    ensures item == s[pos..][..Cut(s[pos..])]
    ensures next == if pos + |item| < |s| then pos + |item| + 1 else |s|
  {
    var n := 0;
    while pos + n < |s| && s[pos + n] != COMMA
      invariant pos + n <= |s| && Free(COMMA, s[pos..pos + n])
    {
      assert s[pos..pos + n + 1] == s[pos..pos + n] + [s[pos + n]];
      n := n + 1;
    }
    assert s[pos..][..n] == s[pos..pos + n];
    CutIs(s[pos..], n);
    item := s[pos..pos + n];
    next := if pos + n < |s| then pos + n + 1 else |s|;
  }

  method SplitLoop(s: string) returns (items: seq<string>)
    ensures items == Split(s)
  {
    items := [];
    var pos := 0;
    while pos < |s|
      invariant 0 <= pos <= |s|
      invariant items + Split(s[pos..]) == Split(s)
    {
      var item, next := GetLine(s, pos);
      ghost var rest := s[pos..];
      assert s[|s|..] == "";
      if Cut(rest) < |rest| {
        assert rest[Cut(rest) + 1..] == s[next..];
      } else {
        assert item == rest && s[next..] == "";
      }
      assert Split(rest) == [item] + Split(s[next..]);
      items := items + [item];
      pos := next;
    }
  }

  lemma {:induction false} JoinSnoc(items: seq<string>, last: string)
    requires items != []
    ensures Join(items + [last]) == Join(items) + ([COMMA] + last)
  {
    if |items| == 1 {
      assert (items + [last])[1..] == [last];
    } else {
      JoinSnoc(items[1..], last);
      assert (items + [last])[1..] == items[1..] + [last];
    }
  }

  lemma {:induction false} CutIs(s: string, n: nat)
    requires n <= |s| && Free(COMMA, s[..n]) && (n < |s| ==> s[n] == COMMA)
    ensures Cut(s) == n
  {
    if n > 0 {
      assert s[..n][0] == s[0];
      assert s[1..][..n - 1] == s[..n][1..];
      CutIs(s[1..], n - 1);
    }
  }

  // ---- how far they undo each other ---------------------------------------------------------

  lemma {:induction false} SplitPieces(s: string)
    ensures AllFree(Split(s))
    ensures s != "" ==> Split(s) != []
    ensures Split(s) != [] && Split(s)[|Split(s)| - 1] == "" ==> s[|s| - 1] == COMMA
    ensures Split(s) == [""] ==> s == [COMMA]
    decreases |s|
  {
    if s != "" && Cut(s) < |s| {
      SplitPieces(s[Cut(s) + 1..]);
    }
  }

  lemma {:induction false} SplitOfJoin(items: seq<string>)
    requires AllFree(items) && (items != [] ==> items[|items| - 1] != "")
    ensures Split(Join(items)) == items
  {
    if |items| == 1 {
      CutIs(items[0], |items[0]|);
    } else if items != [] {
      var s, n := Join(items), |items[0]|;
      assert s[..n] == items[0] && s[n] == COMMA && s[n + 1..] == Join(items[1..]);
      CutIs(s, n);
      assert items == [items[0]] + items[1..];
      SplitOfJoin(items[1..]);
    }
  }

  /** Splitting a joined list gives it back exactly when no item holds a comma and the last is not empty. */
  lemma RoundTripIff(items: seq<string>)
    ensures Split(Join(items)) == items
       <==> (forall i :: 0 <= i < |items| ==> ',' !in items[i]) && (items != [] ==> items[|items| - 1] != "")
  {
    if AllFree(items) && (items != [] ==> items[|items| - 1] != "") {
      SplitOfJoin(items);
    } else {
      SplitPieces(Join(items));
      if items != [] && items[|items| - 1] == "" {
        LastEmptyIsLost(items);
      }
    }
  }

  /** The string of a list whose last item is empty splits into one item fewer (or is lost entirely). */
  lemma {:induction false} LastEmptyIsLost(items: seq<string>)
    requires items != [] && items[|items| - 1] == ""
    ensures Split(Join(items)) != items
  {
    if |items| > 1 {
      var s, n := Join(items), |items[0]|;
      assert s[..n] == items[0] && s[n] == COMMA && s[n + 1..] == Join(items[1..]);
      assert items == [items[0]] + items[1..];
      LastEmptyIsLost(items[1..]);
      SplitPieces(s);
      if AllFree(items) {
        CutIs(s, n);
        assert Split(s) == [items[0]] + Split(Join(items[1..]));
        assert Split(s)[1..] == Split(Join(items[1..]));
      }
    }
  }

  /** A string less a final comma. */
  function Trimmed(s: string): string {
    if s != "" && s[|s| - 1] == ',' then s[..|s| - 1] else s
  }

  /** Joining what was split gives the string back, less a final comma. */
  lemma {:induction false} JoinOfSplit(s: string)
    ensures Join(Split(s)) == Trimmed(s)
    decreases |s|
  {
    if s != "" && Cut(s) < |s| {
      var n := Cut(s);
      var rest := s[n + 1..];
      JoinOfSplit(rest);
      if rest != "" {
        SplitPieces(rest);
        JoinCons(s[..n], Split(rest));
        TrimmedTail(s[..n] + [COMMA], rest);
        assert s == s[..n] + [COMMA] + rest;
      }
    }
  }

  lemma JoinCons(item: string, items: seq<string>)
    requires items != []
    ensures Join([item] + items) == item + [COMMA] + Join(items)
  {
    assert ([item] + items)[1..] == items;
  }

  lemma TrimmedTail(s: string, rest: string)
    requires rest != ""
    ensures Trimmed(s + rest) == s + Trimmed(rest)
  {
  }

  // ---- cache keys -----------------------------------------------------------------------------

  const COLON := ':'

  function CacheKey(app: string, user: string): string {
    app + [COLON] + user
  }

  function AppPrefix(app: string): string {
    app + [COLON]
  }

  /** With ':'-free app codes a key names one app and user, even when user ids contain ':'. */
  lemma CacheKeyInjective(app: string, user: string, app2: string, user2: string)
    requires ':' !in app && ':' !in app2
    ensures CacheKey(app, user) == CacheKey(app2, user2) <==> app == app2 && user == user2
  {
    if CacheKey(app, user) == CacheKey(app2, user2) {
      PrefixIsApp(app, app2, user2);
      var k := CacheKey(app, user);
      assert AppPrefix(app) == k[..|app| + 1];
      assert user == k[|app| + 1..] && user2 == CacheKey(app2, user2)[|app2| + 1..];
    }
  }

  /** ... and the prefix "app:" matches exactly that app's keys. */
  lemma PrefixIsApp(app: string, app2: string, user2: string)
    requires ':' !in app && ':' !in app2
    ensures AppPrefix(app) <= CacheKey(app2, user2) <==> app == app2
  {
    var k := CacheKey(app2, user2);
    if AppPrefix(app) <= k {
      assert k[|app|] == COLON && k[|app2|] == COLON;
      assert forall i :: 0 <= i < |app| ==> k[i] == app[i];
      assert forall i :: 0 <= i < |app2| ==> k[i] == app2[i];
      assert app == k[..|app|] && app2 == k[..|app2|];
    }
    if app == app2 {
      assert k == AppPrefix(app) + user2;
    }
  }

  /** Two app codes share a key for some users exactly when one is the other, or the other's start up to a ':'. */
  lemma KeysCollideIff(app: string, app2: string)
    ensures (exists user, user2 :: CacheKey(app, user) == CacheKey(app2, user2))
       <==> AppPrefix(app) <= AppPrefix(app2) || AppPrefix(app2) <= AppPrefix(app)
  {
    if AppPrefix(app) <= AppPrefix(app2) {
      var user := AppPrefix(app2)[|app| + 1..];
      assert CacheKey(app, user) == CacheKey(app2, "");
    } else if AppPrefix(app2) <= AppPrefix(app) {
      var user2 := AppPrefix(app)[|app2| + 1..];
      assert CacheKey(app, "") == CacheKey(app2, user2);
    }
    forall user, user2 | CacheKey(app, user) == CacheKey(app2, user2)
      ensures AppPrefix(app) <= AppPrefix(app2) || AppPrefix(app2) <= AppPrefix(app)
    {
      var k := CacheKey(app, user);
      assert AppPrefix(app) == k[..|app| + 1] && AppPrefix(app2) == k[..|app2| + 1];
    }
  }
}

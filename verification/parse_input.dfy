/**
  parse_input.py: the deterministic part of `extract_sectors`. The language
  model's reply is searched for a JSON object whose `sectors` list is cleaned
  up; when that yields nothing, the prompt itself is scanned for ETF tickers
  written as whole words.
*/
module ParseInput {
  import opened Common
  import opened Strings
  import opened Universe
  import opened Values
  import FetchData

  /** `s.find(c)`: the first index of `c`, or -1. */
  function Find(s: string, c: char): (i: int)
    ensures -1 <= i < |s|
    ensures i == -1 <==> c !in s
    ensures i >= 0 ==> s[i] == c && c !in s[..i]
  {
    if s == [] then -1
    else if s[0] == c then 0
    else
      var k := Find(s[1..], c);
      assert k >= 0 ==> s[..k + 1] == [s[0]] + s[1..][..k];
      if k == -1 then -1 else k + 1
  }

  /** `s.rfind(c)`: the last index of `c`, or -1. */
  function RFind(s: string, c: char): (i: int)
    ensures -1 <= i < |s|
    ensures i == -1 <==> c !in s
    ensures i >= 0 ==> s[i] == c && c !in s[i + 1..]
  {
    if s == [] then -1
    else if s[|s| - 1] == c then |s| - 1
    else
      var init := s[..|s| - 1];
      var k := RFind(init, c);
      if k == -1 then
        assert s == init + [s[|s| - 1]];
        -1
      else
        assert s[k + 1..] == init[k + 1..] + [s[|s| - 1]];
        k
  }

  /**
    `raw[start:end + 1]` for the first "{" and the last "}", when both occur.
    Python's slice is empty when the last "}" comes before the first "{".
  */
  function JsonCandidate(raw: string): (c: Option<string>)
    ensures c.None? <==> '{' !in raw || '}' !in raw
    ensures c.Some? && c.value != [] ==>
      c.value[0] == '{' && c.value[|c.value| - 1] == '}'
      && (exists start :: 0 <= start <= |raw| - |c.value| && raw[start..start + |c.value|] == c.value
                          && '{' !in raw[..start] && '}' !in raw[start + |c.value|..])
    ensures c.Some? && c.value == [] ==> RFind(raw, '}') < Find(raw, '{')
  {
    var start := Find(raw, '{');
    var end := RFind(raw, '}');
    if start == -1 || end == -1 then None
    else if end + 1 <= start then Some([])
    else
      var slice := raw[start..end + 1];
      assert raw[start..start + |slice|] == slice;
      Some(slice)
  }

  /**
    `[str(t).upper() for t in val if isinstance(t, str) and str(t).upper() in SECTOR_ETFS]`:
    the string items that name an ETF, upper-cased, in order, repeats kept.
  */
  function KnownUpper(items: seq<Value>): (etfs: seq<string>)
    ensures |etfs| <= |items|
    ensures forall t :: t in etfs ==> IsKnownEtf(t)
    ensures forall t :: t in etfs <==> exists i :: 0 <= i < |items| && items[i].Str? && Upper(items[i].s) == t && IsKnownEtf(t)
  {
    if items == [] then []
    else
      var rest := KnownUpper(items[1..]);
      assert forall i :: 0 <= i < |items[1..]| ==> items[1..][i] == items[i + 1];
      if items[0].Str? && IsKnownEtf(Upper(items[0].s)) then [Upper(items[0].s)] + rest else rest
  }

  /** Cleaning two lists one after the other is cleaning them joined: order and repeats carry over. */
  lemma {:induction false} KnownUpperAppend(a: seq<Value>, b: seq<Value>)
    ensures KnownUpper(a + b) == KnownUpper(a) + KnownUpper(b)
  {
    if a != [] {
      var ab := a + b;
      assert ab[0] == a[0];
      assert ab[1..] == a[1..] + b;
      KnownUpperAppend(a[1..], b);
      assert KnownUpper(ab) == (if a[0].Str? && IsKnownEtf(Upper(a[0].s)) then [Upper(a[0].s)] else []) + KnownUpper(ab[1..]);
    } else {
      assert a + b == b;
    }
  }

  /**
    The list taken from the reply: the cleaned `sectors` list of the JSON
    candidate; nothing when there is no candidate, it does not decode, it is
    not an object, or `sectors` is not a list.
  */
  function ReplySectors(reply: string, parse: string -> Option<Value>): (etfs: seq<string>)
    ensures forall t :: t in etfs ==> IsKnownEtf(t)
    ensures JsonCandidate(reply).None? ==> etfs == []
    ensures JsonCandidate(reply).Some? && parse(JsonCandidate(reply).value).None? ==> etfs == []
    ensures JsonCandidate(reply).Some? && parse(JsonCandidate(reply).value).Some? ==>
      var obj := parse(JsonCandidate(reply).value).value;
      && (!obj.Dict? ==> etfs == [])
      && (obj.Dict? && !Get(obj.fields, "sectors").List? ==> etfs == [])
      && (obj.Dict? && Get(obj.fields, "sectors").List? ==> etfs == KnownUpper(Get(obj.fields, "sectors").items))
  {
    match JsonCandidate(reply)
    case None => []
    case Some(candidate) =>
      match parse(candidate)
      case None => []
      case Some(obj) =>
        if !obj.Dict? then []
        else
          var val := Get(obj.fields, "sectors");
          if val.List? then KnownUpper(val.items) else []
  }

  /**
    The fallback's list after scanning `tickers` in order: a ticker is added
    when it occurs as a whole word in `text` and is not yet listed.
  */
  function Scan(text: string, tickers: seq<string>): (found: seq<string>)
    ensures NoDuplicates(found)
    ensures forall t :: t in found <==> t in tickers && ContainsWholeWord(text, t)
    ensures IsSubsequence(found, tickers)
  {
    if tickers == [] then []
    else
      var init := tickers[..|tickers| - 1];
      var t := tickers[|tickers| - 1];
      assert tickers == init + [t];
      var found := Scan(text, init);
      if ContainsWholeWord(text, t) && t !in found then
        SubsequenceSnoc(found, init, t);
        found + [t]
      else
        SubsequenceSnoc(found, init, t);
        found
  }

  /** The fallback loop over `SECTOR_ETFS`, with its `seen` set. */
  method ScanTickers(text: string, tickers: seq<string>) returns (found: seq<string>)
    ensures found == Scan(text, tickers)
  {
    found := [];
    var seen: set<string> := {};
    for i := 0 to |tickers|
      invariant found == Scan(text, tickers[..i])
      invariant seen == set t | t in found
    {
      assert tickers[..i + 1][..i] == tickers[..i];
      var ticker := tickers[i];
      if FindWholeWordFrom(text, ticker, 0) {
        if ticker !in seen {
          seen := seen + {ticker};
          found := found + [ticker];
        }
      }
    }
    assert tickers[..|tickers|] == tickers;
  }

  /**
    `extract_sectors(prompt)` after the model has replied: the cleaned reply
    list when it is not empty, otherwise the ETFs named as whole words in the
    upper-cased prompt, in table order.
  */
  method ExtractSectors(prompt: string, reply: string, parse: string -> Option<Value>)
    returns (sectors: seq<string>)
    ensures ReplySectors(reply, parse) != [] ==> sectors == ReplySectors(reply, parse)
    ensures ReplySectors(reply, parse) == [] ==> sectors == Scan(Upper(prompt), Etfs)
    ensures forall t :: t in sectors ==> IsKnownEtf(t)
  {
    sectors := ReplySectors(reply, parse);
    if sectors == [] {
      var upperPrompt := Upper(prompt);
      sectors := ScanTickers(upperPrompt, Etfs);
      EtfTable();
    }
  }

  /**
    The fallback lists each ETF at most once, in the order of the ETF table,
    and exactly those whose ticker the upper-cased prompt contains as a word.
  */
  lemma FallbackFacts(prompt: string)
    ensures NoDuplicates(Scan(Upper(prompt), Etfs))
    ensures IsSubsequence(Scan(Upper(prompt), Etfs), Etfs)
    ensures forall t :: t in Scan(Upper(prompt), Etfs) <==> IsKnownEtf(t) && ContainsWholeWord(Upper(prompt), t)
  {
    EtfTable();
  }

  /**
    Whatever `extract_sectors` returns, the dashboard accepts it as its
    selection: an empty list selects every ETF, any other list is used as is.
  */
  lemma SelectionIsAccepted(sectors: seq<string>)
    requires forall t :: t in sectors ==> IsKnownEtf(t)
    ensures FetchData.ResolveUniverse(Some(sectors)) == Ok(if sectors == [] then Etfs else sectors)
  {
    if sectors != [] {
      FetchData.KnownOfKnown(sectors);
    }
  }
}

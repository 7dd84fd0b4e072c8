/**
  interpret_results.py: the deterministic parts around the two language-model
  calls. `classify_style` tags each table row with a trading style,
  `format_raw_rows` renders the table as prompt text, and
  `normalize_small_universe` and `scrub_basing` repair the JSON view the model
  returns.
*/
module Interpret {
  import opened Common
  import opened Values

  datatype Style = Durable | Momentum | Volatile | Neutral

  function StyleName(s: Style): string
  {
    match s
    case Durable => "durable"
    case Momentum => "momentum"
    case Volatile => "volatile"
    case Neutral => "neutral"
  }

  /** `row.get("RVOL") or 0.0`. */
  function RvolOf(row: Row): Value { Or(Get(row, "RVOL"), Float(0.0)) }

  /** `br` when `row.get("Breadth20")` is an int or float, else `0.0`; a "-" therefore counts as 0. */
  function BreadthOf(row: Row): Value
  {
    var br := Get(row, "Breadth20");
    if IsNumber(br) then br else Float(0.0)
  }

  /** `row.get("5D%") or 0.0`. */
  function Ret5Of(row: Row): Value { Or(Get(row, "5D%"), Float(0.0)) }

  /** `row.get("ATR%") or 0.0`. */
  function AtrOf(row: Row): Value { Or(Get(row, "ATR%"), Float(0.0)) }

  /** Durable leadership: normal volume, broad participation, controlled range. */
  predicate DurableRule(row: Row)
  {
    Below(RvolOf(row), 1.2) && Above(BreadthOf(row), 0.6) && Below(AtrOf(row), 2.5)
  }

  /** Momentum thrust: a big five-day move with a wide range. */
  predicate MomentumRule(row: Row)
  {
    Above(Ret5Of(row), 3.0) && Above(AtrOf(row), 2.5)
  }

  /** Volatile leadership: heavy volume or a wild range. */
  predicate VolatileRule(row: Row)
  {
    Above(RvolOf(row), 1.5) || Above(AtrOf(row), 2.8)
  }

  /** Every value the rules compare is a number, so no comparison can raise. */
  predicate Comparable(row: Row)
  {
    IsNumber(RvolOf(row)) && IsNumber(Ret5Of(row)) && IsNumber(AtrOf(row))
  }

  /**
    `classify_style(row)`: the first rule that fires, in the order durable,
    momentum, volatile, else neutral. Comparing a value that is not a number
    (a non-empty string, say) raises `TypeError`, but only when that
    comparison is reached.
  */
  function ClassifyStyle(row: Row): (r: Result<Style>)
    ensures Comparable(row) ==> r.Ok?
    ensures r.Err? ==> !Comparable(row) && r.error == TypeError
    ensures !IsNumber(RvolOf(row)) ==> r.Err?
    ensures r.Ok? ==> (r.value == Durable <==> DurableRule(row))
    ensures r.Ok? ==> (r.value == Momentum <==> !DurableRule(row) && MomentumRule(row))
    ensures r.Ok? ==> (r.value == Volatile <==> !DurableRule(row) && !MomentumRule(row) && VolatileRule(row))
    ensures r.Ok? ==> (r.value == Neutral <==> !DurableRule(row) && !MomentumRule(row) && !VolatileRule(row))
  {
    var rvol := RvolOf(row);
    var brVal := BreadthOf(row);
    var ret5 := Ret5Of(row);
    var atr := AtrOf(row);
    var durable := AndThen(AndThen(LessThan(rvol, 1.2), GreaterThan(brVal, 0.6)), LessThan(atr, 2.5));
    if durable.Err? then Err(TypeError)
    else if durable.value then Ok(Durable)
    else
      var momentum := AndThen(GreaterThan(ret5, 3.0), GreaterThan(atr, 2.5));
      if momentum.Err? then Err(TypeError)
      else if momentum.value then Ok(Momentum)
      else
        var volatile := OrElse(GreaterThan(rvol, 1.5), GreaterThan(atr, 2.8));
        if volatile.Err? then Err(TypeError)
        else if volatile.value then Ok(Volatile)
        else Ok(Neutral)
  }

  /** A row of plain numbers. */
  function NumericRow(rvol: real, breadth: real, ret5: real, atr: real): Row
  {
    map["RVOL" := Float(rvol), "Breadth20" := Float(breadth), "5D%" := Float(ret5), "ATR%" := Float(atr)]
  }

  /** On plain numbers the classifier is the priority-ordered threshold table. */
  lemma ClassifyNumbers(rvol: real, breadth: real, ret5: real, atr: real)
    ensures ClassifyStyle(NumericRow(rvol, breadth, ret5, atr)) ==
      if rvol < 1.2 && breadth > 0.6 && atr < 2.5 then Ok(Durable)
      else if ret5 > 3.0 && atr > 2.5 then Ok(Momentum)
      else if rvol > 1.5 || atr > 2.8 then Ok(Volatile)
      else Ok(Neutral)
  {
    var row := NumericRow(rvol, breadth, ret5, atr);
    assert Get(row, "RVOL") == Float(rvol) && Get(row, "Breadth20") == Float(breadth);
    assert Get(row, "5D%") == Float(ret5) && Get(row, "ATR%") == Float(atr);
    assert Comparable(row);
  }

  /** A missing or falsy RVOL, 5D% or ATR% reads as 0. */
  lemma FalsyReadsAsZero(row: Row, k: string)
    requires k == "RVOL" || k == "5D%" || k == "ATR%"
    requires !Truthy(Get(row, k))
    ensures ClassifyStyle(row) == ClassifyStyle(row[k := Float(0.0)])
  {
    var row' := row[k := Float(0.0)];
    assert Get(row', k) == Float(0.0);
    assert RvolOf(row) == RvolOf(row') && Ret5Of(row) == Ret5Of(row') && AtrOf(row) == AtrOf(row');
    assert BreadthOf(row) == BreadthOf(row');
  }

  /** A breadth that is not a number (the table's "-") reads as 0. */
  lemma NonNumericBreadthReadsAsZero(row: Row)
    requires !IsNumber(Get(row, "Breadth20"))
    ensures ClassifyStyle(row) == ClassifyStyle(row["Breadth20" := Float(0.0)])
  {
    var row' := row["Breadth20" := Float(0.0)];
    assert Get(row', "Breadth20") == Float(0.0);
    assert RvolOf(row) == RvolOf(row') && Ret5Of(row) == Ret5Of(row') && AtrOf(row) == AtrOf(row');
  }

  /** The nine ` | `-separated fields of a prompt line, from the printed values. */
  function LineFields(etf: string, sector: string, score: string, style: string, rvol: string,
                      breadth: string, ret5: string, atr: string, tops: string): (fields: seq<string>)
    ensures |fields| == 9
  {
    [etf, sector, "Score=" + score, "Style=" + style, "RVOL=" + rvol,
     "Breadth20=" + breadth, "5D%=" + ret5, "ATR%=" + atr, "Top=" + tops]
  }

  /** The f-string line `format_raw_rows` emits for one row. */
  function FormatLine(row: Row, style: Style, show: Value -> string): string
  {
    Join(LineFields(PyStr(Get(row, "ETF"), show), PyStr(Get(row, "Sector"), show),
                    PyStr(Get(row, "Score"), show), StyleName(style),
                    PyStr(Get(row, "RVOL"), show), PyStr(Get(row, "Breadth20"), show),
                    PyStr(Get(row, "5D%"), show), PyStr(Get(row, "ATR%"), show),
                    PyStr(Get(row, "TopCandidates"), show)), " | ")
  }

  /** The prompt line of every row, each with the style its row classifies as. */
  function Lines(rows: seq<Row>, show: Value -> string): (lines: seq<string>)
    requires forall i :: 0 <= i < |rows| ==> ClassifyStyle(rows[i]).Ok?
    ensures |lines| == |rows|
  {
    seq(|rows|, i requires 0 <= i < |rows| => FormatLine(rows[i], ClassifyStyle(rows[i]).value, show))
  }

  /**
    `format_raw_rows(raw_rows)`: one line per row, joined with newlines. It
    raises exactly when some row's style cannot be computed.
  */
  method FormatRawRows(rows: seq<Row>, show: Value -> string) returns (r: Result<string>)
    ensures r.Err? <==> exists i :: 0 <= i < |rows| && ClassifyStyle(rows[i]).Err?
    ensures r.Err? ==> r.error == TypeError
    ensures r.Ok? ==> r.value == Join(Lines(rows, show), "\n")
  {
    var lines: seq<string> := [];
    for i := 0 to |rows|
      invariant |lines| == i
      invariant forall j :: 0 <= j < i ==>
        ClassifyStyle(rows[j]).Ok? && lines[j] == FormatLine(rows[j], ClassifyStyle(rows[j]).value, show)
    {
      var style := ClassifyStyle(rows[i]);
      if style.Err? {
        return Err(TypeError);
      }
      lines := lines + [FormatLine(rows[i], style.value, show)];
    }
    assert lines == Lines(rows, show);
    r := Ok(Join(lines, "\n"));
  }

  /** Every value a prompt line shows prints without a newline. */
  predicate PrintsOnOneLine(row: Row, show: Value -> string)
  {
    && '\n' !in PyStr(Get(row, "ETF"), show)
    && '\n' !in PyStr(Get(row, "Sector"), show)
    && '\n' !in PyStr(Get(row, "Score"), show)
    && '\n' !in PyStr(Get(row, "RVOL"), show)
    && '\n' !in PyStr(Get(row, "Breadth20"), show)
    && '\n' !in PyStr(Get(row, "5D%"), show)
    && '\n' !in PyStr(Get(row, "ATR%"), show)
    && '\n' !in PyStr(Get(row, "TopCandidates"), show)
  }

  /** Values without newlines make a line without newlines. */
  lemma FieldsMakeOneLine(etf: string, sector: string, score: string, style: string, rvol: string,
                          breadth: string, ret5: string, atr: string, tops: string)
    requires '\n' !in etf && '\n' !in sector && '\n' !in score && '\n' !in style && '\n' !in rvol
    requires '\n' !in breadth && '\n' !in ret5 && '\n' !in atr && '\n' !in tops
    ensures '\n' !in Join(LineFields(etf, sector, score, style, rvol, breadth, ret5, atr, tops), " | ")
  {
    JoinAvoids(LineFields(etf, sector, score, style, rvol, breadth, ret5, atr, tops), " | ", '\n');
  }

  /** A row whose values print on one line gives a line without a newline. */
  lemma FormatLineIsOneLine(row: Row, style: Style, show: Value -> string)
    requires PrintsOnOneLine(row, show)
    ensures '\n' !in FormatLine(row, style, show)
  {
    assert '\n' !in StyleName(style);
    FieldsMakeOneLine(PyStr(Get(row, "ETF"), show), PyStr(Get(row, "Sector"), show),
                      PyStr(Get(row, "Score"), show), StyleName(style),
                      PyStr(Get(row, "RVOL"), show), PyStr(Get(row, "Breadth20"), show),
                      PyStr(Get(row, "5D%"), show), PyStr(Get(row, "ATR%"), show),
                      PyStr(Get(row, "TopCandidates"), show));
  }

  /**
    The prompt table has exactly one line per row: joined, the lines hold one
    newline fewer than there are rows.
  */
  lemma OneLinePerRow(rows: seq<Row>, show: Value -> string)
    requires rows != []
    requires forall i :: 0 <= i < |rows| ==> ClassifyStyle(rows[i]).Ok? && PrintsOnOneLine(rows[i], show)
    ensures CountChar(Join(Lines(rows, show), "\n"), '\n') == |rows| - 1
  {
    var lines := Lines(rows, show);
    forall i | 0 <= i < |lines|
      ensures CountChar(lines[i], '\n') == 0
    {
      FormatLineIsOneLine(rows[i], ClassifyStyle(rows[i]).value, show);
      CountAbsentChar(lines[i], '\n');
    }
    JoinLineCount(lines);
  }

  /** The style field sits between the score and the RVOL fields. */
  lemma StyleFieldInLine(etf: string, sector: string, score: string, style: string, rvol: string,
                         breadth: string, ret5: string, atr: string, tops: string)
    ensures exists before, after ::
      Join(LineFields(etf, sector, score, style, rvol, breadth, ret5, atr, tops), " | ")
        == before + " | " + ("Style=" + style) + " | " + after
  {
    var f := LineFields(etf, sector, score, style, rvol, breadth, ret5, atr, tops);
    var sep := " | ";
    JoinCons(f, sep);
    JoinCons(f[1..], sep);
    JoinCons(f[2..], sep);
    JoinCons(f[3..], sep);
    assert f[1..][1..] == f[2..] && f[2..][1..] == f[3..] && f[3..][1..] == f[4..];
    var after := Join(f[4..], sep);
    var before := f[0] + sep + f[1] + sep + f[2];
    assert Join(f, sep) == f[0] + sep + (f[1] + sep + (f[2] + sep + (f[3] + sep + after)));
    assert Join(f, sep) == before + sep + f[3] + sep + after;
  }

  /** Each line names its row's style between the score and the RVOL fields. */
  lemma LineCarriesStyle(row: Row, style: Style, show: Value -> string)
    ensures exists before, after ::
      FormatLine(row, style, show) == before + " | " + ("Style=" + StyleName(style)) + " | " + after
  {
    StyleFieldInLine(PyStr(Get(row, "ETF"), show), PyStr(Get(row, "Sector"), show),
                     PyStr(Get(row, "Score"), show), StyleName(style),
                     PyStr(Get(row, "RVOL"), show), PyStr(Get(row, "Breadth20"), show),
                     PyStr(Get(row, "5D%"), show), PyStr(Get(row, "ATR%"), show),
                     PyStr(Get(row, "TopCandidates"), show));
  }

  // ---------------------------------------------------------------------
  // normalize_small_universe

  /** `d.get("etf")` of a dict entry. */
  function EtfOf(d: Value): Value
    requires d.Dict?
  {
    Get(d.fields, "etf")
  }

  /** `strong[:1]` when `len(strong) > 1`: a list or a string keeps its first item; `len` of a number raises, slicing a dict raises. */
  function KeepTop(strong: Value): (r: Result<Value>)
    ensures r.Err? ==> r.error == TypeError
  {
    match strong
    case List(items) => Ok(List(Take(items, 1)))
    case Str(s) => Ok(Str(Take(s, 1)))
    case Dict(fields) => if |fields| > 1 then Err(TypeError) else Ok(strong)
    case _ => Err(TypeError)
  }

  /** A dict entry of the list whose `etf` cannot be hashed (a list or a dict). */
  predicate HasUnhashableEtf(items: seq<Value>)
  {
    exists i :: 0 <= i < |items| && items[i].Dict? && !Hashable(EtfOf(items[i]))
  }

  /**
    `{s.get("etf") for s in strong if isinstance(s, dict)}`: iterating a string
    yields characters and a dict yields its keys, neither of them a dict.
  */
  function StrongEtfs(strong: Value): (r: Result<set<Value>>)
    ensures r.Err? <==> strong.List? && HasUnhashableEtf(strong.items)
    ensures r.Err? ==> r.error == TypeError
    ensures r.Ok? && strong.List? ==>
      forall v :: v in r.value <==> exists i :: 0 <= i < |strong.items| && strong.items[i].Dict? && v == Canon(EtfOf(strong.items[i]))
    ensures r.Ok? && !strong.List? ==> r.value == {}
  {
    if strong.List? then
      if HasUnhashableEtf(strong.items) then Err(TypeError)
      else Ok(set i | 0 <= i < |strong.items| && strong.items[i].Dict? :: Canon(EtfOf(strong.items[i])))
    else Ok({})
  }

  /** `[w for w in weak if isinstance(w, dict) and w.get("etf") not in strong_etfs]` over a list. */
  function OutsideStrong(items: seq<Value>, etfs: set<Value>): (kept: seq<Value>)
    ensures IsSubsequence(kept, items)
    ensures forall w :: w in kept <==> w in items && w.Dict? && Canon(EtfOf(w)) !in etfs
  {
    if items == [] then []
    else
      var rest := OutsideStrong(items[1..], etfs);
      var w := items[0];
      if w.Dict? && Canon(EtfOf(w)) !in etfs then
        assert ([w] + rest)[1..] == rest;
        [w] + rest
      else rest
  }

  /** The comprehension over `weak`: a number cannot be iterated; a string or a dict yields no dict. */
  function KeepWeak(weak: Value, etfs: set<Value>): (r: Result<Value>)
    ensures r.Err? ==> r.error == TypeError
    ensures r.Ok? ==> r.value.List?
  {
    match weak
    case List(items) => if HasUnhashableEtf(items) then Err(TypeError) else Ok(List(OutsideStrong(items, etfs)))
    case Str(_) => Ok(List([]))
    case Dict(_) => Ok(List([]))
    case _ => Err(TypeError)
  }

  /** `structured.get(k) or []`. */
  function ListOr(fields: map<string, Value>, k: string): Value
  {
    Or(Get(fields, k), List([]))
  }

  /** The dict that `normalize_small_universe` leaves, or the error it raises. */
  function Normalized(fields: map<string, Value>): Result<map<string, Value>>
  {
    var top := KeepTop(ListOr(fields, "strong_sectors"));
    if top.Err? then Err(TypeError)
    else
      var etfs := StrongEtfs(top.value);
      if etfs.Err? then Err(TypeError)
      else
        var weak := KeepWeak(ListOr(fields, "weak_sectors"), etfs.value);
        if weak.Err? then Err(TypeError)
        else Ok(fields["strong_sectors" := top.value]["weak_sectors" := weak.value])
  }

  /**
    What normalizing promises: `strong_sectors` becomes the first entry (or
    character) of the original, or stays a dict of at most one key; a missing
    or empty value becomes `[]`. `weak_sectors` becomes the dict entries of the
    original list, in order, whose etf is not a kept strong etf. No other key
    changes. It raises only on a value that cannot be measured, sliced,
    iterated or hashed.
  */
  lemma NormalizedFacts(fields: map<string, Value>)
    ensures Normalized(fields).Err? <==>
      var strong := ListOr(fields, "strong_sectors");
      var weak := ListOr(fields, "weak_sectors");
      || !(strong.List? || strong.Str? || (strong.Dict? && |strong.fields| <= 1))
      || (strong.List? && HasUnhashableEtf(Take(strong.items, 1)))
      || !(weak.List? || weak.Str? || weak.Dict?)
      || (weak.List? && HasUnhashableEtf(weak.items))
    ensures Normalized(fields).Ok? ==>
      var n := Normalized(fields).value;
      var strong := ListOr(fields, "strong_sectors");
      && n.Keys == fields.Keys + {"strong_sectors", "weak_sectors"}
      && (forall k :: k in fields && k != "strong_sectors" && k != "weak_sectors" ==> n[k] == fields[k])
      && (strong.List? ==> n["strong_sectors"].List? && |n["strong_sectors"].items| <= 1
                           && n["strong_sectors"].items == strong.items[..|n["strong_sectors"].items|])
      && (strong.Str? ==> n["strong_sectors"].Str? && |n["strong_sectors"].s| <= 1
                          && n["strong_sectors"].s == strong.s[..|n["strong_sectors"].s|])
      && (strong.Dict? ==> n["strong_sectors"] == strong)
      && n["weak_sectors"].List?
  {
  }

  /** After normalizing, no weak entry shares its etf with a strong entry. */
  lemma NormalizedDisjoint(fields: map<string, Value>)
    requires Normalized(fields).Ok?
    ensures var n := Normalized(fields).value;
      var strong := n["strong_sectors"];
      var weak := n["weak_sectors"].items;
      strong.List? ==>
        forall s, w :: s in strong.items && s.Dict? && w in weak ==> w.Dict? && Canon(EtfOf(w)) != Canon(EtfOf(s))
  {
    var n := Normalized(fields).value;
    var top := KeepTop(ListOr(fields, "strong_sectors")).value;
    var etfs := StrongEtfs(top).value;
    var weak := ListOr(fields, "weak_sectors");
    if top.List? {
      forall s, w | s in top.items && s.Dict? && w in n["weak_sectors"].items
        ensures w.Dict? && Canon(EtfOf(w)) != Canon(EtfOf(s))
      {
        var i :| 0 <= i < |top.items| && top.items[i] == s;
        assert Canon(EtfOf(s)) in etfs;
        if weak.List? {
          assert w in OutsideStrong(weak.items, etfs);
        }
      }
    }
  }

  /** A weak dict entry is dropped exactly when its etf is the etf of a kept strong entry. */
  lemma NormalizedKeepsOtherWeak(fields: map<string, Value>, w: Value)
    requires Normalized(fields).Ok?
    requires ListOr(fields, "strong_sectors").List? && ListOr(fields, "weak_sectors").List?
    requires w in ListOr(fields, "weak_sectors").items && w.Dict?
    ensures var n := Normalized(fields).value;
      w in n["weak_sectors"].items <==>
        forall s :: s in n["strong_sectors"].items && s.Dict? ==> Canon(EtfOf(s)) != Canon(EtfOf(w))
  {
    var top := KeepTop(ListOr(fields, "strong_sectors")).value;
    var etfs := StrongEtfs(top).value;
    if Canon(EtfOf(w)) in etfs {
      var i :| 0 <= i < |top.items| && top.items[i].Dict? && Canon(EtfOf(w)) == Canon(EtfOf(top.items[i]));
      assert top.items[i] in top.items;
    }
  }

  // ---------------------------------------------------------------------
  // scrub_basing

  /** `raw_map`: each string ETF to its row, a later row replacing an earlier one. */
  function RawMap(rows: seq<Row>): (m: map<string, Row>)
    ensures forall e :: e in m ==> exists i :: 0 <= i < |rows| && Get(rows[i], "ETF") == Str(e)
    ensures forall i :: 0 <= i < |rows| && Get(rows[i], "ETF").Str? ==> Get(rows[i], "ETF").s in m
  {
    if rows == [] then map[]
    else
      var init := rows[..|rows| - 1];
      var last := rows[|rows| - 1];
      var m := RawMap(init);
      assert forall i :: 0 <= i < |init| ==> init[i] == rows[i];
      var etf := Get(last, "ETF");
      if etf.Str? then m[etf.s := last] else m
  }

  /** The row `raw_map` keeps for an ETF is the last row naming it. */
  lemma {:induction false} RawMapLastWins(rows: seq<Row>, i: nat)
    requires i < |rows| && Get(rows[i], "ETF").Str?
    requires forall j :: i < j < |rows| ==> Get(rows[j], "ETF") != Get(rows[i], "ETF")
    ensures RawMap(rows)[Get(rows[i], "ETF").s] == rows[i]
  {
    var init := rows[..|rows| - 1];
    if i < |rows| - 1 {
      assert init[i] == rows[i];
      RawMapLastWins(init, i);
    }
  }

  /** The breadth `scrub_basing` reads for `etf`: a number from its row, otherwise `0.0`. */
  function BasingBreadth(rawMap: map<string, Row>, etf: string): Value
  {
    var row := if etf in rawMap then rawMap[etf] else map[];
    var br := Get(row, "Breadth20");
    if IsNumber(br) then br else Float(0.0)
  }

  /** An entry is kept unless its breadth compares below 0.25; a NaN compares below nothing. */
  predicate KeepsBasing(rawMap: map<string, Row>, etf: string)
  {
    !Below(BasingBreadth(rawMap, etf), 0.25)
  }

  /** The string entries of a list, in order. */
  function StringsOf(items: seq<Value>): (strs: seq<string>)
    ensures forall s :: s in strs <==> Str(s) in items
  {
    if items == [] then []
    else
      var init := items[..|items| - 1];
      assert forall i :: 0 <= i < |init| ==> init[i] == items[i];
      var last := items[|items| - 1];
      if last.Str? then StringsOf(init) + [last.s] else StringsOf(init)
  }

  /**
    The `filtered` and `removed` lists: the string entries split by breadth,
    each part in the entries' order, together as many as there are strings.
  */
  function SplitBasing(items: seq<Value>, rawMap: map<string, Row>): (p: (seq<string>, seq<string>))
    ensures IsSubsequence(p.0, StringsOf(items)) && IsSubsequence(p.1, StringsOf(items))
    ensures |p.0| + |p.1| == |StringsOf(items)|
    ensures forall s :: s in p.0 <==> Str(s) in items && KeepsBasing(rawMap, s)
    ensures forall s :: s in p.1 <==> Str(s) in items && !KeepsBasing(rawMap, s)
  {
    if items == [] then ([], [])
    else
      var init := items[..|items| - 1];
      var last := items[|items| - 1];
      assert items == init + [last];
      assert forall v :: v in items <==> v in init || v == last;
      var p := SplitBasing(init, rawMap);
      if !last.Str? then p
      else
        SubsequenceSnoc(p.0, StringsOf(init), last.s);
        SubsequenceSnoc(p.1, StringsOf(init), last.s);
        if KeepsBasing(rawMap, last.s) then (p.0 + [last.s], p.1) else (p.0, p.1 + [last.s])
  }

  /** Python's `str.isspace()` on one character (ASCII whitespace and the separators 0x1c-0x1f). */
  predicate IsSpace(c: char)
  {
    c == ' ' || (9 <= c as int <= 13) || (28 <= c as int <= 31)
  }

  /** `s.lstrip()`. */
  function LStrip(s: string): (r: string)
    ensures |r| <= |s| && r == s[|s| - |r|..]
    ensures r == [] || !IsSpace(r[0])
    ensures forall i :: 0 <= i < |s| - |r| ==> IsSpace(s[i])
  {
    if s != [] && IsSpace(s[0]) then LStrip(s[1..]) else s
  }

  /** `s.rstrip()`. */
  function RStrip(s: string): (r: string)
    ensures |r| <= |s| && r == s[..|r|]
    ensures r == [] || !IsSpace(r[|r| - 1])
    ensures forall i :: |r| <= i < |s| ==> IsSpace(s[i])
  {
    if s != [] && IsSpace(s[|s| - 1]) then RStrip(s[..|s| - 1]) else s
  }

  /** `s.strip()`. */
  function Strip(s: string): string
  {
    LStrip(RStrip(s))
  }

  /** The sentence naming the scrubbed ETFs. */
  function RemovalNote(removed: seq<string>): (note: string)
    ensures note != [] && note[0] == 'R' && note[|note| - 1] == '.'
  {
    "Removed low-breadth basing flags for: " + Join(removed, ", ") + "."
  }

  /** The `notes` value `scrub_basing` stores. */
  function NotesAfter(notes: Value, removed: seq<string>, show: Value -> string): Value
  {
    var current := Or(notes, Str(""));
    if removed == [] then current
    else Str(Strip(PyStr(current, show) + " " + RemovalNote(removed)))
  }

  /**
    Stripping text that ends in a sentence keeps the sentence whole: only the
    whitespace in front of the text goes.
  */
  lemma StripKeepsSentence(prefix: string, sentence: string)
    requires sentence != [] && !IsSpace(sentence[0]) && !IsSpace(sentence[|sentence| - 1])
    ensures Strip(prefix + sentence) == LStrip(prefix) + sentence
  {
    var s := prefix + sentence;
    assert s[|s| - 1] == sentence[|sentence| - 1];
    assert RStrip(s) == s;
    LStripKeepsSentence(prefix, sentence);
  }

  /** Left-stripping text that goes on with a non-blank sentence strips only the text in front of it. */
  lemma {:induction false} LStripKeepsSentence(prefix: string, sentence: string)
    requires sentence != [] && !IsSpace(sentence[0])
    ensures LStrip(prefix + sentence) == LStrip(prefix) + sentence
  {
    if prefix == [] {
      assert prefix + sentence == sentence;
    } else {
      assert (prefix + sentence)[0] == prefix[0];
      if IsSpace(prefix[0]) {
        assert (prefix + sentence)[1..] == prefix[1..] + sentence;
        LStripKeepsSentence(prefix[1..], sentence);
      }
    }
  }

  /** The removal note is appended after the old notes, or stands alone when there were none. */
  lemma NotesEndWithRemovalNote(notes: Value, removed: seq<string>, show: Value -> string)
    requires removed != []
    ensures var current := PyStr(Or(notes, Str("")), show);
      NotesAfter(notes, removed, show) == Str(LStrip(current + " ") + RemovalNote(removed))
    ensures !Truthy(notes) ==> NotesAfter(notes, removed, show) == Str(RemovalNote(removed))
  {
    var current := PyStr(Or(notes, Str("")), show);
    var note := RemovalNote(removed);
    assert current + " " + note == (current + " ") + note;
    StripKeepsSentence(current + " ", note);
    if !Truthy(notes) {
      assert current + " " == " ";
      assert LStrip(" ") == [];
    }
  }

  /**
    The decoded JSON view of `structure_results`, which the post-processing
    steps update in place.
  */
  class StructuredView {
    var fields: map<string, Value>

    constructor (fields: map<string, Value>)
      ensures this.fields == fields
    {
      this.fields := fields;
    }

    /**
      `normalize_small_universe(structured)`: keep the top strong sector and
      drop the weak sectors that collide with it. When it raises, the dict is
      left as it was.
    */
    method NormalizeSmallUniverse() returns (r: Result<()>)
      modifies this
      ensures r.Err? <==> Normalized(old(fields)).Err?
      ensures r.Err? ==> r.error == TypeError && fields == old(fields)
      ensures r.Ok? ==> fields == Normalized(old(fields)).value
    {
      var strong := Or(Get(fields, "strong_sectors"), List([]));
      var weak := Or(Get(fields, "weak_sectors"), List([]));
      var top := KeepTop(strong);
      if top.Err? {
        return Err(TypeError);
      }
      var strongEtfs := StrongEtfs(top.value);
      if strongEtfs.Err? {
        return Err(TypeError);
      }
      var kept := KeepWeak(weak, strongEtfs.value);
      if kept.Err? {
        return Err(TypeError);
      }
      fields := fields["strong_sectors" := top.value];
      fields := fields["weak_sectors" := kept.value];
      r := Ok(());
    }

    /**
      `scrub_basing(structured, raw_rows)`: a `basing_or_reverting` value that
      is present but not a list leaves the dict untouched. Otherwise the list
      becomes its string entries whose breadth is at least 0.25 (the last row
      of an ETF supplying the breadth), and the notes name the entries removed.
    */
    method ScrubBasing(rawRows: seq<Row>, show: Value -> string)
      modifies this
      ensures !ListOr(old(fields), "basing_or_reverting").List? ==> fields == old(fields)
      ensures ListOr(old(fields), "basing_or_reverting").List? ==>
        var p := SplitBasing(ListOr(old(fields), "basing_or_reverting").items, RawMap(rawRows));
        fields == old(fields)["basing_or_reverting" := List(AsValues(p.0))]
                             ["notes" := NotesAfter(Get(old(fields), "notes"), p.1, show)]
    {
      var basing := Or(Get(fields, "basing_or_reverting"), List([]));
      if !basing.List? {
        return;
      }
      var rawMap := BuildRawMap(rawRows);
      var filtered, removed := SplitEntries(basing.items, rawMap);
      var notes := Get(fields, "notes");
      fields := fields["basing_or_reverting" := List(AsValues(filtered))];
      fields := fields["notes" := NotesAfter(notes, removed, show)];
    }
  }

  /** The loop that fills `raw_map`. */
  method BuildRawMap(rawRows: seq<Row>) returns (rawMap: map<string, Row>)
    ensures rawMap == RawMap(rawRows)
  {
    rawMap := map[];
    for i := 0 to |rawRows|
      invariant rawMap == RawMap(rawRows[..i])
    {
      assert rawRows[..i + 1][..i] == rawRows[..i];
      var etf := Get(rawRows[i], "ETF");
      if etf.Str? {
        rawMap := rawMap[etf.s := rawRows[i]];
      }
    }
    assert rawRows[..|rawRows|] == rawRows;
  }

  /** The loop over `basing` that fills `filtered` and `removed`. */
  method SplitEntries(items: seq<Value>, rawMap: map<string, Row>) returns (filtered: seq<string>, removed: seq<string>)
    ensures (filtered, removed) == SplitBasing(items, rawMap)
  {
    filtered, removed := [], [];
    for i := 0 to |items|
      invariant (filtered, removed) == SplitBasing(items[..i], rawMap)
    {
      assert items[..i + 1][..i] == items[..i];
      var item := items[i];
      if item.Str? {
        var row := if item.s in rawMap then rawMap[item.s] else map[];
        var br := Get(row, "Breadth20");
        var brVal := if IsNumber(br) then br else Float(0.0);
        if Below(brVal, 0.25) {
          removed := removed + [item.s];
        } else {
          filtered := filtered + [item.s];
        }
      }
    }
    assert items[..|items|] == items;
  }

  /** A list of strings as a Python list value. */
  function AsValues(strs: seq<string>): (vs: seq<Value>)
    ensures |vs| == |strs| && forall i :: 0 <= i < |strs| ==> vs[i] == Str(strs[i])
  {
    seq(|strs|, i requires 0 <= i < |strs| => Str(strs[i]))
  }

  /**
    What scrubbing promises: the new list holds, in order, exactly the string
    entries whose breadth is at least 0.25 (or NaN); every other string entry
    is named, in order, in the removal note, and non-strings are gone.
  */
  lemma ScrubFacts(items: seq<Value>, rawMap: map<string, Row>)
    ensures var p := SplitBasing(items, rawMap);
      && IsSubsequence(p.0, StringsOf(items)) && IsSubsequence(p.1, StringsOf(items))
      && (forall v :: v in AsValues(p.0) ==> v.Str? && Str(v.s) in items && KeepsBasing(rawMap, v.s))
      && (forall s :: Str(s) in items && KeepsBasing(rawMap, s) ==> Str(s) in AsValues(p.0))
      && (forall s :: Str(s) in items && !KeepsBasing(rawMap, s) ==> s in p.1)
  {
    var p := SplitBasing(items, rawMap);
    forall s | Str(s) in items && KeepsBasing(rawMap, s)
      ensures Str(s) in AsValues(p.0)
    {
      var k :| 0 <= k < |p.0| && p.0[k] == s;
      assert AsValues(p.0)[k] == Str(s);
    }
  }

  /** With nothing removed the notes stay as they were, or become "" when absent or falsy. */
  lemma NothingRemovedKeepsNotes(notes: Value, show: Value -> string)
    ensures NotesAfter(notes, [], show) == (if Truthy(notes) then notes else Str(""))
  {
  }

  /** The breadth of the last row listing an ETF decides, whatever earlier rows said. */
  lemma LastRowDecides(rows: seq<Row>, row: Row, etf: string)
    requires Get(row, "ETF") == Str(etf)
    ensures KeepsBasing(RawMap(rows + [row]), etf) <==>
      !Below(if IsNumber(Get(row, "Breadth20")) then Get(row, "Breadth20") else Float(0.0), 0.25)
  {
    var all := rows + [row];
    assert all[..|all| - 1] == rows;
  }
}

/**
 * The payment-schedule query of main.py (getCostPaySchedule): building the
 * `params` value of the request, and turning each `<result>` node of the
 * response into one seven-field record.
 *
 * The HTTP request and the HTML/XML parser are not modelled: a response is
 * given as the sequence of its `<result>` nodes in document order, and a node
 * as a map from a child element name to the attributes of the first such
 * descendant (what `result.find(name)` returns).
 */
module Schedule {
  import opened Wrappers
  import opened Text

  /** The key of the mandatory parameter, the first day of the payment period. */
  const DateKey: string := "TH1_PAY_TERM_BEGIN_DT:"
  /** The key of the optional parameter, the payment type codes. */
  const CodesKey: string := "PAY_COST_TPCD:"

  /** What a `params` value asks for: a start date and a list of type codes. */
  datatype ParamQuery = ParamQuery(payTermBeginDate: string, payCostTypeCodes: seq<int>)

  /** The type codes as `map(str, codes)` renders them. */
  function RenderCodes(codes: seq<int>): (r: seq<string>)
    ensures |r| == |codes|
    ensures forall i :: 0 <= i < |codes| ==> r[i] == IntToDecimal(codes[i])
  {
    if codes == [] then [] else [IntToDecimal(codes[0])] + RenderCodes(codes[1..])
  }

  function ParseInts(xs: seq<string>): Option<seq<int>> {
    if xs == [] then Some([])
    else
      var head :- ParseInt(xs[0]);
      var tail :- ParseInts(xs[1..]);
      Some([head] + tail)
  }

  lemma {:induction false} ParseRenderCodes(codes: seq<int>)
    ensures ParseInts(RenderCodes(codes)) == Some(codes)
  {
    if codes != [] {
      IntRoundTrip(codes[0]);
      assert RenderCodes(codes)[1..] == RenderCodes(codes[1..]);
      ParseRenderCodes(codes[1..]);
      assert [codes[0]] + codes[1..] == codes;
    }
  }

  /**
   * How the parameter string reads: comma-separated pieces, the first the
   * start date after its key, and, when there are more, the second the first
   * type code after its key and the rest the further type codes.
   */
  function ParseParams(params: string): Option<ParamQuery> {
    ParseParts(Split(params, ','), DateKey, CodesKey)
  }

  /** Reads the comma-separated pieces of a params string, given the two keys. */
  function ParseParts(parts: seq<string>, dateKey: string, codesKey: string): Option<ParamQuery> {
    if parts == [] || !(dateKey <= parts[0]) then None
    else
      var date := parts[0][|dateKey|..];
      if |parts| == 1 then Some(ParamQuery(date, []))
      else if !(codesKey <= parts[1]) then None
      else
        var codes :- ParseInts([parts[1][|codesKey|..]] + parts[2..]);
        Some(ParamQuery(date, codes))
  }

  lemma {:induction false} PrefixJoin(prefix: string, xs: seq<string>, sep: char)
    requires |xs| >= 1
    ensures prefix + Join(xs, sep) == Join([prefix + xs[0]] + xs[1..], sep)
  {
  }

  lemma KeysHaveNoComma()
    ensures ',' !in DateKey && ',' !in CodesKey
  {
  }

  /** The codes' key followed by the joined codes splits into the key glued to the first code, then the rest. */
  lemma CodesSplit(codesKey: string, strs: seq<string>)
    requires ',' !in codesKey && |strs| > 0
    requires forall i :: 0 <= i < |strs| ==> ',' !in strs[i]
    ensures Split(codesKey + Join(strs, ','), ',') == [codesKey + strs[0]] + strs[1..]
  {
    var ys := [codesKey + strs[0]] + strs[1..];
    PrefixJoin(codesKey, strs, ',');
    forall i | 0 <= i < |ys|
      ensures ',' !in ys[i]
    {
      if i > 0 {
        assert ys[i] == strs[i];
      }
    }
    SplitJoin(ys, ',');
  }

  /** A key is a prefix of the key followed by its value, and cutting it off leaves the value. */
  lemma KeyPrefix(key: string, value: string)
    ensures key <= key + value && (key + value)[|key|..] == value
  {
  }

  /** The pieces of a params string with type codes read as its date and codes. */
  lemma ParsePieces(dateKey: string, date: string, codesKey: string, strs: seq<string>, codes: seq<int>)
    requires |strs| > 0 && ParseInts(strs) == Some(codes)
    ensures ParseParts([dateKey + date] + ([codesKey + strs[0]] + strs[1..]), dateKey, codesKey)
         == Some(ParamQuery(date, codes))
  {
    var parts := [dateKey + date] + ([codesKey + strs[0]] + strs[1..]);
    KeyPrefix(dateKey, date);
    KeyPrefix(codesKey, strs[0]);
    assert parts[0] == dateKey + date && parts[1] == codesKey + strs[0];
    assert |parts| != 1 && parts != [];
    assert parts[2..] == strs[1..];
    assert [strs[0]] + strs[1..] == strs;
  }

  /** Regrouping a params string around its first comma. */
  lemma Regroup(dateKey: string, date: string, codesKey: string, codes: string)
    ensures dateKey + date + "," + codesKey + codes == (dateKey + date) + [','] + (codesKey + codes)
  {
  }

  /**
   * A params string with comma-free type-code pieces reads back as the date
   * and the codes those pieces read as, for any comma-free keys.
   */
  lemma PiecesRoundTrip(dateKey: string, date: string, codesKey: string, strs: seq<string>, codes: seq<int>)
    requires ',' !in dateKey && ',' !in date && ',' !in codesKey && |strs| > 0
    requires forall i :: 0 <= i < |strs| ==> ',' !in strs[i]
    requires ParseInts(strs) == Some(codes)
    ensures ParseParts(Split(dateKey + date + "," + codesKey + Join(strs, ','), ','), dateKey, codesKey)
         == Some(ParamQuery(date, codes))
  {
    var joined := Join(strs, ',');
    Regroup(dateKey, date, codesKey, joined);
    SplitAtSeparator(dateKey + date, ',', codesKey + joined);
    CodesSplit(codesKey, strs);
    ParsePieces(dateKey, date, codesKey, strs, codes);
  }

  lemma ParamsRoundTrip(date: string, codes: seq<int>)
    requires ',' !in date && |codes| > 0
    ensures ParseParams(DateKey + date + "," + CodesKey + Join(RenderCodes(codes), ','))
         == Some(ParamQuery(date, codes))
  {
    KeysHaveNoComma();
    ParseRenderCodes(codes);
    PiecesRoundTrip(DateKey, date, CodesKey, RenderCodes(codes), codes);
  }

  /**
   * The `params` construction of main.py:53-56: the start date after its key,
   * then, only when there are type codes, a comma, the codes' key and the
   * comma-joined codes in list order.  Python's `None` for the codes behaves
   * as the empty list.
   */
  method BuildParams(payTermBeginDate: string, payCostTypeCodes: seq<int>) returns (params: string)
    ensures DateKey + payTermBeginDate <= params
    ensures payCostTypeCodes == [] <==> params == DateKey + payTermBeginDate
    ensures payCostTypeCodes != [] ==>
      params == DateKey + payTermBeginDate + "," + CodesKey + Join(RenderCodes(payCostTypeCodes), ',')
    ensures ',' !in payTermBeginDate ==>
      ParseParams(params) == Some(ParamQuery(payTermBeginDate, payCostTypeCodes))
  {
    var codesParam := if payCostTypeCodes != [] then Join(RenderCodes(payCostTypeCodes), ',') else "";
    params := DateKey + payTermBeginDate;
    if codesParam != "" {
      params := params + "," + CodesKey + codesParam;
    }
    if ',' !in payTermBeginDate {
      if payCostTypeCodes == [] {
        assert ',' !in params;
        SplitNoSeparator(params, ',');
        assert params[|DateKey|..] == payTermBeginDate;
      } else {
        ParamsRoundTrip(payTermBeginDate, payCostTypeCodes);
      }
    }
  }

  /** The sentinel a record holds for a field whose child element is missing. */
  const Absent: string := "없음"

  /** A `<result>` node: child element name to that child's attributes. */
  type ResultNode = map<string, map<string, string>>

  /** A child that is present but has no `value` attribute: Python raises KeyError. */
  datatype ExtractError = MissingValue(child: string)

  /**
   * One schedule entry; each field is named after the child element it
   * comes from, and the report's column heading is given beside it.
   */
  datatype ScheduleRecord = ScheduleRecord(
    issucoCustno: string,        // 발행회사고객번호, issuer customer number
    isin: string,                // 종목번호, security identifier
    korSecnNm: string,           // 한글종목명, Korean security name
    secnKacd: string,            // 종목종류코드, security kind code
    rgtStdDt: string,            // 권리기준일자, rights record date
    rgtRacdNm: string,           // 배당구분, dividend classification
    rgtRsnDtailSortCd: string)   // 권리사유세부유형코드, rights reason detail code

  /** The child element names, in the order the record's fields are read. */
  const ChildNames: seq<string> :=
    ["issuco_custno", "isin", "kor_secn_nm", "secn_kacd", "rgt_std_dt", "rgt_racd_nm", "rgt_rsn_dtail_sort_cd"]

  function Fields(rec: ScheduleRecord): (vs: seq<string>)
    ensures |vs| == |ChildNames|
  {
    [rec.issucoCustno, rec.isin, rec.korSecnNm, rec.secnKacd, rec.rgtStdDt, rec.rgtRacdNm, rec.rgtRsnDtailSortCd]
  }

  /** A child can be read: either it is absent, or it carries a `value`. */
  predicate Readable(node: ResultNode, child: string) {
    child in node ==> "value" in node[child]
  }

  /** The per-field rule: the child's `value`, or the sentinel when the child is absent. */
  function Field(node: ResultNode, child: string): (r: Result<string, ExtractError>)
    ensures r.Ok? <==> Readable(node, child)
    ensures child !in node ==> r == Ok(Absent)
    ensures child in node && r.Ok? ==> r.value == node[child]["value"]
    ensures r.Err? ==> r.error == MissingValue(child)
  {
    if child !in node then Ok(Absent)
    else if "value" in node[child] then Ok(node[child]["value"])
    else Err(MissingValue(child))
  }

  /**
   * The per-field rule applied to each name in turn; the first child that is
   * present without a `value` stops the reading.
   */
  function ExtractFields(node: ResultNode, names: seq<string>): (r: Result<seq<string>, ExtractError>)
    ensures r.Ok? <==> forall i :: 0 <= i < |names| ==> Readable(node, names[i])
    ensures r.Ok? ==> |r.value| == |names| && forall i :: 0 <= i < |names| ==>
      if names[i] in node then r.value[i] == node[names[i]]["value"] else r.value[i] == Absent
    ensures r.Err? ==>
      exists i :: 0 <= i < |names| && !Readable(node, names[i]) &&
        (forall j :: 0 <= j < i ==> Readable(node, names[j])) &&
        r.error == MissingValue(names[i])
  {
    if names == [] then Ok([])
    else
      var v :- Field(node, names[0]);
      var rest :- ExtractFields(node, names[1..]);
      Ok([v] + rest)
  }

  /** The dictionary literal of main.py:66-74, one field per child element. */
  function ExtractRecord(node: ResultNode): (r: Result<ScheduleRecord, ExtractError>)
    ensures r.Ok? <==> forall i :: 0 <= i < |ChildNames| ==> Readable(node, ChildNames[i])
    ensures r.Ok? ==> forall i :: 0 <= i < |ChildNames| ==>
      if ChildNames[i] in node then Fields(r.value)[i] == node[ChildNames[i]]["value"]
      else Fields(r.value)[i] == Absent
    ensures r.Err? ==>
      exists i :: 0 <= i < |ChildNames| && !Readable(node, ChildNames[i]) &&
        (forall j :: 0 <= j < i ==> Readable(node, ChildNames[j])) &&
        r.error == MissingValue(ChildNames[i])
  {
    var vs :- ExtractFields(node, ChildNames);
    var rec := ScheduleRecord(vs[0], vs[1], vs[2], vs[3], vs[4], vs[5], vs[6]);
    assert Fields(rec) == vs;
    Ok(rec)
  }

  /**
   * A node without a `kor_secn_nm` child, all other children carrying a
   * value: the Korean-name field alone holds the sentinel and every other
   * present child's value lands in its own field.
   */
  lemma MissingSecurityName(node: ResultNode)
    requires "kor_secn_nm" !in node
    requires forall c :: c in node ==> "value" in node[c]
    ensures ExtractRecord(node).Ok?
    ensures ExtractRecord(node).value.korSecnNm == Absent
    ensures forall i :: 0 <= i < |ChildNames| && i != 2 && ChildNames[i] in node ==>
      Fields(ExtractRecord(node).value)[i] == node[ChildNames[i]]["value"]
  {
  }

  /**
   * Applies a fallible step to each element in order: all results when every
   * step succeeds, otherwise the error of the first step that fails.
   */
  function MapInOrder<A, B, E>(step: A -> Result<B, E>, xs: seq<A>): (r: Result<seq<B>, E>)
    ensures r.Ok? <==> forall i :: 0 <= i < |xs| ==> step(xs[i]).Ok?
    ensures r.Ok? ==> (|r.value| == |xs|
                       && forall i :: 0 <= i < |xs| ==> r.value[i] == step(xs[i]).value)
    ensures r.Err? ==>
      exists i :: 0 <= i < |xs| && step(xs[i]) == Err(r.error) &&
        forall j :: 0 <= j < i ==> step(xs[j]).Ok?
  {
    if xs == [] then Ok([])
    else
      var first :- step(xs[0]);
      var rest :- MapInOrder(step, xs[1..]);
      Ok([first] + rest)
  }

  /** When every step before `i` succeeds and step `i` fails, the traversal fails with step `i`'s error. */
  lemma MapInOrderFirstFailure<A, B, E>(step: A -> Result<B, E>, xs: seq<A>, i: nat)
    requires i < |xs| && step(xs[i]).Err?
    requires forall j :: 0 <= j < i ==> step(xs[j]).Ok?
    ensures MapInOrder(step, xs) == Err(step(xs[i]).error)
  {
    var r := MapInOrder(step, xs);
    var k :| 0 <= k < |xs| && step(xs[k]) == Err(r.error) && forall j :: 0 <= j < k ==> step(xs[j]).Ok?;
    assert k == i;
  }

  /** When every step succeeds, the traversal yields exactly their results. */
  lemma MapInOrderAllOk<A, B, E>(step: A -> Result<B, E>, xs: seq<A>, ys: seq<B>)
    requires |ys| == |xs|
    requires forall j :: 0 <= j < |xs| ==> step(xs[j]) == Ok(ys[j])
    ensures MapInOrder(step, xs) == Ok(ys)
  {
    var r := MapInOrder(step, xs);
    assert r.Ok?;
    assert r.value == ys;
  }

  /** All records of a response, in document order; the first failing node's error otherwise. */
  function ExtractAll(nodes: seq<ResultNode>): (r: Result<seq<ScheduleRecord>, ExtractError>)
    ensures r.Ok? <==> forall i :: 0 <= i < |nodes| ==> ExtractRecord(nodes[i]).Ok?
    ensures r.Ok? ==> (|r.value| == |nodes|
                       && forall i :: 0 <= i < |nodes| ==> r.value[i] == ExtractRecord(nodes[i]).value)
    ensures r.Err? ==>
      exists i :: 0 <= i < |nodes| && ExtractRecord(nodes[i]) == Err(r.error) &&
        forall j :: 0 <= j < i ==> ExtractRecord(nodes[j]).Ok?
  {
    MapInOrder(ExtractRecord, nodes)
  }

  /**
   * The loop of main.py:62-75: one record appended per `<result>` node.  The
   * `count` argument of getCostPaySchedule plays no part.
   */
  method ExtractSchedule(results: seq<ResultNode>, count: int) returns (r: Result<seq<ScheduleRecord>, ExtractError>)
    ensures r == ExtractAll(results)
  {
    var extract := ExtractRecord;
    var items: seq<ScheduleRecord> := [];
    for i := 0 to |results|
      invariant |items| == i
      invariant forall j :: 0 <= j < i ==> extract(results[j]) == Ok(items[j])
    {
      var rec := extract(results[i]);
      if rec.Err? {
        MapInOrderFirstFailure(extract, results, i);
        return Err(rec.error);
      }
      items := items + [rec.value];
    }
    MapInOrderAllOk(extract, results, items);
    r := Ok(items);
  }

  /**
   * getCostPaySchedule (main.py:50-77) with the request and the parser
   * injected: `respond` gives the `<result>` nodes of the response to a
   * `params` value.
   */
  method GetCostPaySchedule(payTermBeginDate: string, payCostTypeCodes: seq<int>, count: int,
                            respond: string -> seq<ResultNode>)
    returns (params: string, r: Result<seq<ScheduleRecord>, ExtractError>)
    ensures DateKey + payTermBeginDate <= params
    ensures payCostTypeCodes == [] ==> params == DateKey + payTermBeginDate
    ensures payCostTypeCodes != [] ==>
      params == DateKey + payTermBeginDate + "," + CodesKey + Join(RenderCodes(payCostTypeCodes), ',')
    ensures ',' !in payTermBeginDate ==>
      ParseParams(params) == Some(ParamQuery(payTermBeginDate, payCostTypeCodes))
    ensures r == ExtractAll(respond(params))
  {
    params := BuildParams(payTermBeginDate, payCostTypeCodes);
    var results := respond(params);
    r := ExtractSchedule(results, count);
  }
}

/**
 * `parse_human_activity_response`: the ordered fallback chain that turns the
 * vision model's free-text reply into candidate boxes. The first strategy that
 * gives a defined answer wins:
 *   1. a negative phrase anywhere (any case) gives no boxes;
 *   2. the literal `"humans":[]` or `"humans": []` gives no boxes;
 *   3. the outermost `{...}`, decoded as JSON, gives its `humans` list (else its
 *      `faces` list), keeping the dicts that hold all four keys; an exception
 *      from `json.loads` other than a decoding error gives no boxes;
 *   4. otherwise every strict `{"x": n, "y": n, "width": n, "height": n}` object;
 *   5. if there is none, every loose `x=n, y=n, width=n, height=n` quadruple.
 * `json.loads` is the parameter `decode`; the two regular expressions are
 * written out as deterministic scanners.
 */
module ResponseParser {
  import opened Wrappers
  import opened Decimal
  import opened JsonValues
  import opened TextScan

  const NoHumanIndicators: seq<string> := [
    "no human", "no humans", "no person", "no people", "no activity",
    "cannot detect", "didn't detect", "not detect", "no one"
  ]

  const EmptyHumansTight: string := "\"humans\":[]"
  const EmptyHumansSpaced: string := "\"humans\": []"

  /** `any(indicator in response.lower() for indicator in no_human_indicators)`. */
  predicate HasNegativePhrase(response: string) {
    exists k :: 0 <= k < |NoHumanIndicators| && Contains(LowerAll(response), NoHumanIndicators[k])
  }

  predicate HasEmptyHumansLiteral(response: string) {
    Contains(response, EmptyHumansTight) || Contains(response, EmptyHumansSpaced)
  }

  /** The four numbers one regular-expression match captures. */
  datatype Quad = Quad(x: nat, y: nat, width: nat, height: nat)

  /** The dict the program builds from a match: four Python ints. */
  function QuadToBox(q: Quad): Box {
    IntBox(q.x, q.y, q.width, q.height)
  }

  function Boxes(qs: seq<Quad>): seq<Box> {
    seq(|qs|, i requires 0 <= i < |qs| => QuadToBox(qs[i]))
  }

  // ---------------------------------------------------------------------------
  // Strategy 3: the decoded JSON document

  /** The record a list element contributes: itself when it is a dict with all four keys. */
  function CompleteRecord(v: Json): seq<Box> {
    if v.JObject? && HasAllKeys(v.fields) then [v.fields] else []
  }

  /** The list filtered to dicts holding `x`, `y`, `width` and `height`, in order. */
  function KeepComplete(items: seq<Json>): seq<Box>
    decreases |items|
  {
    if items == [] then [] else CompleteRecord(items[0]) + KeepComplete(items[1..])
  }

  lemma {:induction false} KeepCompleteAppend(a: seq<Json>, b: seq<Json>)
    ensures KeepComplete(a + b) == KeepComplete(a) + KeepComplete(b)
    decreases |a|
  {
    if a == [] {
      assert a + b == b;
    } else {
      assert (a + b)[1..] == a[1..] + b;
      KeepCompleteAppend(a[1..], b);
    }
  }

  /** Every kept record holds all four keys, and every dict in the list that holds them is kept. */
  lemma {:induction false} KeepCompleteSpec(items: seq<Json>)
    ensures forall h :: h in KeepComplete(items) ==> HasAllKeys(h) && JObject(h) in items
    ensures forall i :: 0 <= i < |items| && items[i].JObject? && HasAllKeys(items[i].fields)
                        ==> items[i].fields in KeepComplete(items)
    ensures |KeepComplete(items)| <= |items|
    decreases |items|
  {
    if items != [] {
      KeepCompleteSpec(items[1..]);
      forall i | 0 < i < |items| ensures items[i] == items[1..][i - 1] {
      }
    }
  }

  /** A list made only of complete dicts comes back whole and in its own order. */
  lemma {:induction false} KeepCompleteOfCompleteRecords(items: seq<Json>)
    requires forall i :: 0 <= i < |items| ==> items[i].JObject? && HasAllKeys(items[i].fields)
    ensures KeepComplete(items) == seq(|items|, i requires 0 <= i < |items| => items[i].fields)
    decreases |items|
  {
    if items != [] {
      KeepCompleteOfCompleteRecords(items[1..]);
    }
  }

  /** The loop that filters a decoded list into `valid_humans`. */
  method KeepCompleteRecords(items: seq<Json>) returns (valid: seq<Box>)
    ensures valid == KeepComplete(items)
  {
    valid := [];
    for i := 0 to |items|
      invariant valid == KeepComplete(items[..i])
    {
      var item := items[i];
      if item.JObject? && HasAllKeys(item.fields) {
        valid := valid + [item.fields];
      }
      assert items[..i + 1] == items[..i] + [item];
      KeepCompleteAppend(items[..i], [item]);
    }
    assert items[..|items|] == items;
  }

  /**
   * What the JSON step decides: a list of records when the decoded document
   * has a `humans` list (else a `faces` list); no records when `json.loads`
   * raises anything but a `JSONDecodeError`, since that exception leaves the
   * parser through its outer handler; None when the step does not apply and
   * the scanners are tried.
   */
  function JsonCandidates(response: string, decode: string -> Decoded): Option<seq<Box>> {
    match OutermostBraces(response)
    case None => None
    case Some(text) =>
      match decode(text)
      case DecodeError => None
      case OtherError => Some([])
      case Document(data) =>
        if "humans" in data && data["humans"].JArray? then Some(KeepComplete(data["humans"].items))
        else if "faces" in data && data["faces"].JArray? then Some(KeepComplete(data["faces"].items))
        else None
  }

  // ---------------------------------------------------------------------------
  // Strategy 4: a brace, the four quoted keys in order each followed by a colon
  // and a digit run, commas between them, a closing brace; white space allowed
  // around every token

  /** `\s*"key"\s*:\s*(\d+)\s*` */
  function StrictField(t: string, key: string): (r: Option<(nat, string)>)
    ensures r.Some? ==> |r.value.1| < |t|
  {
    var t1 :- Expect(SkipSpace(t), "\"" + key + "\"");
    var t2 :- Expect(SkipSpace(t1), ":");
    var d :- Digits(SkipSpace(t2));
    Some((d.0, SkipSpace(d.1)))
  }

  /** The comma-separated fields of the strict pattern, one per key, in order. */
  function StrictFieldList(t: string, keys: seq<string>): (r: Option<(seq<nat>, string)>)
    requires keys != []
    ensures r.Some? ==> |r.value.0| == |keys| && |r.value.1| < |t|
    decreases |keys|
  {
    var f :- StrictField(t, keys[0]);
    if |keys| == 1 then Some(([f.0], f.1))
    else
      var t1 :- Expect(f.1, ",");
      var more :- StrictFieldList(t1, keys[1..]);
      Some(([f.0] + more.0, more.1))
  }

  /** The strict object pattern matched at the start of `t`: the four numbers and the rest. */
  function MatchStrict(t: string): (r: Option<(Quad, string)>)
    ensures r.Some? ==> |r.value.1| < |t|
  {
    var t0 :- Expect(t, "{");
    var fs :- StrictFieldList(t0, BoxKeys);
    var t1 :- Expect(fs.1, "}");
    Some((Quad(fs.0[0], fs.0[1], fs.0[2], fs.0[3]), t1))
  }

  /** `re.finditer` with the strict pattern: all non-overlapping matches, left to right. */
  function StrictMatches(t: string): seq<Quad>
    decreases |t|
  {
    if t == [] then []
    else match MatchStrict(t)
      case Some(m) => [m.0] + StrictMatches(m.1)
      case None => StrictMatches(t[1..])
  }

  // ---------------------------------------------------------------------------
  // Strategy 5: the four bare keys in order, each followed by `:` or `=` and a
  // digit run, separated by runs of commas and white space, letters matched in
  // either case

  predicate IsSeparator(c: char) {
    c == ',' || IsSpace(c)
  }

  /** `[,\s]*` */
  function SkipSeparators(t: string): (r: string)
    ensures |r| <= |t|
    ensures r == [] || !IsSeparator(r[0])
    decreases |t|
  {
    if t != [] && IsSeparator(t[0]) then SkipSeparators(t[1..]) else t
  }

  /** `[,\s]+` */
  function Separators(t: string): (r: Option<string>)
    ensures r.Some? ==> |r.value| < |t|
  {
    if t != [] && IsSeparator(t[0]) then Some(SkipSeparators(t[1..])) else None
  }

  /** `key\s*[:=]\s*(\d+)` with the key matched case-insensitively. */
  function LooseField(t: string, key: string): (r: Option<(nat, string)>)
    requires key != []
    ensures r.Some? ==> |r.value.1| < |t|
  {
    var t1 :- ExpectFolded(t, key);
    var t2 :- OneOf(SkipSpace(t1), {':', '='});
    var d :- Digits(SkipSpace(t2));
    Some(d)
  }

  /** The fields of the loose pattern, one per key, separated by `[,\s]+`. */
  function LooseFieldList(t: string, keys: seq<string>): (r: Option<(seq<nat>, string)>)
    requires keys != [] && forall k :: 0 <= k < |keys| ==> keys[k] != []
    ensures r.Some? ==> |r.value.0| == |keys| && |r.value.1| < |t|
    decreases |keys|
  {
    var f :- LooseField(t, keys[0]);
    if |keys| == 1 then Some(([f.0], f.1))
    else
      var t1 :- Separators(f.1);
      var more :- LooseFieldList(t1, keys[1..]);
      Some(([f.0] + more.0, more.1))
  }

  /** The loose pattern matched at the start of `t`: the four numbers and the rest. */
  function MatchLoose(t: string): (r: Option<(Quad, string)>)
    ensures r.Some? ==> |r.value.1| < |t|
  {
    var fs :- LooseFieldList(t, BoxKeys);
    Some((Quad(fs.0[0], fs.0[1], fs.0[2], fs.0[3]), fs.1))
  }

  /** `re.finditer` with the loose pattern: all non-overlapping matches, left to right. */
  function LooseMatches(t: string): seq<Quad>
    decreases |t|
  {
    if t == [] then []
    else match MatchLoose(t)
      case Some(m) => [m.0] + LooseMatches(m.1)
      case None => LooseMatches(t[1..])
  }

  // ---------------------------------------------------------------------------
  // The whole chain

  /** The candidates `parse_human_activity_response` returns for `response`. */
  function Parse(response: string, decode: string -> Decoded): seq<Box> {
    if HasNegativePhrase(response) then []
    else if HasEmptyHumansLiteral(response) then []
    else match JsonCandidates(response, decode)
      case Some(records) => records
      case None =>
        var strict := StrictMatches(response);
        if strict != [] then Boxes(strict) else Boxes(LooseMatches(response))
  }

  /** The JSON step as the program runs it, with its early returns on an empty list. */
  method DecodeCandidates(response: string, decode: string -> Decoded)
    returns (found: Option<seq<Box>>)
    ensures found == JsonCandidates(response, decode)
  {
    var jsonText := OutermostBraces(response);
    if jsonText.None? {
      return None;
    }
    var decoded := decode(jsonText.value);
    if decoded.DecodeError? {
      return None;
    }
    if decoded.OtherError? {
      // caught by the outer handler, which returns an empty list
      return Some([]);
    }
    var data := decoded.data;
    if "humans" in data && data["humans"].JArray? {
      if data["humans"].items == [] {
        return Some([]);
      }
      var valid := KeepCompleteRecords(data["humans"].items);
      return Some(valid);
    } else if "faces" in data && data["faces"].JArray? {
      if data["faces"].items == [] {
        return Some([]);
      }
      var valid := KeepCompleteRecords(data["faces"].items);
      return Some(valid);
    }
    return None;
  }

  /** The loop that appends one dict per regular-expression match to `extracted`. */
  method AppendBoxes(extracted: seq<Box>, matches: seq<Quad>) returns (r: seq<Box>)
    ensures r == extracted + Boxes(matches)
  {
    r := extracted;
    for k := 0 to |matches|
      invariant r == extracted + Boxes(matches[..k])
    {
      r := r + [QuadToBox(matches[k])];
    }
    assert matches[..|matches|] == matches;
  }

  /** The parser as the program runs it: the same chain, with the appending loops. */
  method ParseHumanActivityResponse(response: string, decode: string -> Decoded)
    returns (humans: seq<Box>)
    ensures humans == Parse(response, decode)
  {
    if HasNegativePhrase(response) {
      return [];
    }
    if Contains(response, EmptyHumansTight) || Contains(response, EmptyHumansSpaced) {
      return [];
    }
    var found := DecodeCandidates(response, decode);
    if found.Some? {
      return found.value;
    }
    var extracted := AppendBoxes([], StrictMatches(response));
    assert [] + Boxes(StrictMatches(response)) == Boxes(StrictMatches(response));
    if extracted != [] {
      return extracted;
    }
    humans := AppendBoxes(extracted, LooseMatches(response));
    assert [] + Boxes(LooseMatches(response)) == Boxes(LooseMatches(response));
  }

  // ---------------------------------------------------------------------------
  // What the chain promises

  /** A negative phrase, written in any mix of upper and lower case, empties the result. */
  lemma NegativePhraseAnyCase(a: string, t: string, b: string, decode: string -> Decoded)
    requires LowerAll(t) in NoHumanIndicators
    ensures Parse(a + t + b, decode) == []
  {
    LowerAllKeepsOccurrence(a, t, b);
    var k :| 0 <= k < |NoHumanIndicators| && NoHumanIndicators[k] == LowerAll(t);
    assert HasNegativePhrase(a + t + b);
  }

  lemma ContainsInfix(a: string, p: string, b: string)
    ensures Contains(a + p + b, p)
  {
    assert (a + p + b)[|a|..|a| + |p|] == p;
    assert OccursAt(a + p + b, p, |a|);
    ContainsIffOccurs(a + p + b, p);
  }

  /** The empty-list literal, in either spacing, empties the result wherever it stands. */
  lemma EmptyHumansLiteralGivesNothing(a: string, b: string, spaced: bool, decode: string -> Decoded)
    ensures Parse(a + (if spaced then EmptyHumansSpaced else EmptyHumansTight) + b, decode) == []
  {
    ContainsInfix(a, if spaced then EmptyHumansSpaced else EmptyHumansTight, b);
  }

  /** Once no negative phrase and no empty literal is present, a decoded `humans` list decides the result. */
  lemma JsonHumansDecide(response: string, decode: string -> Decoded, text: string, data: map<string, Json>)
    requires !HasNegativePhrase(response) && !HasEmptyHumansLiteral(response)
    requires OutermostBraces(response) == Some(text) && decode(text) == Document(data)
    requires "humans" in data && data["humans"].JArray?
    ensures Parse(response, decode) == KeepComplete(data["humans"].items)
    ensures forall i :: 0 <= i < |data["humans"].items| && data["humans"].items[i].JObject?
                        && HasAllKeys(data["humans"].items[i].fields)
                        ==> data["humans"].items[i].fields in Parse(response, decode)
  {
    KeepCompleteSpec(data["humans"].items);
  }

  /** Without a `humans` list, a decoded `faces` list decides the result. */
  lemma JsonFacesFallback(response: string, decode: string -> Decoded, text: string, data: map<string, Json>)
    requires !HasNegativePhrase(response) && !HasEmptyHumansLiteral(response)
    requires OutermostBraces(response) == Some(text) && decode(text) == Document(data)
    requires !("humans" in data && data["humans"].JArray?)
    requires "faces" in data && data["faces"].JArray?
    ensures Parse(response, decode) == KeepComplete(data["faces"].items)
    ensures forall i :: 0 <= i < |data["faces"].items| && data["faces"].items[i].JObject?
                        && HasAllKeys(data["faces"].items[i].fields)
                        ==> data["faces"].items[i].fields in Parse(response, decode)
  {
    KeepCompleteSpec(data["faces"].items);
  }

  /**
   * An exception other than a decoding error from `json.loads` ends the parse
   * with no boxes: the scanners are not tried.
   */
  lemma OtherDecodeErrorGivesNothing(response: string, decode: string -> Decoded, text: string)
    requires OutermostBraces(response) == Some(text) && decode(text) == OtherError
    ensures Parse(response, decode) == []
  {
  }

  /** Every candidate the parser returns holds the four keys `x`, `y`, `width`, `height`. */
  lemma ParsedRecordsHaveAllKeys(response: string, decode: string -> Decoded)
    ensures forall h :: h in Parse(response, decode) ==> HasAllKeys(h)
  {
    if !HasNegativePhrase(response) && !HasEmptyHumansLiteral(response) {
      match OutermostBraces(response)
      case None =>
      case Some(text) =>
        match decode(text)
        case DecodeError =>
        case OtherError =>
        case Document(data) =>
          if "humans" in data && data["humans"].JArray? {
            KeepCompleteSpec(data["humans"].items);
          } else if "faces" in data && data["faces"].JArray? {
            KeepCompleteSpec(data["faces"].items);
          }
    }
  }

  // ---------------------------------------------------------------------------
  // Round trips through the two scanners

  /** One field as `json.dumps` writes it: `"key": n`. */
  function FieldText(key: string, n: nat): string {
    "\"" + key + "\": " + ShowNat(n)
  }

  /** The fields of a box as `json.dumps` writes them: `"k1": n1, "k2": n2, ...`. */
  function RenderFields(keys: seq<string>, ns: seq<nat>): string
    requires |keys| == |ns| > 0
    decreases |keys|
  {
    FieldText(keys[0], ns[0]) + (if |keys| == 1 then "" else ", " + RenderFields(keys[1..], ns[1..]))
  }

  function QuadValues(q: Quad): seq<nat> {
    [q.x, q.y, q.width, q.height]
  }

  /** A box of four non-negative ints as `json.dumps` writes it. */
  function RenderStrict(q: Quad): string {
    "{" + RenderFields(BoxKeys, QuadValues(q)) + "}"
  }

  /** Several boxes, one per line, as a model might list them outside any JSON document. */
  function RenderAll(qs: seq<Quad>): string
    decreases |qs|
  {
    if qs == [] then "" else RenderStrict(qs[0]) + "\n" + RenderAll(qs[1..])
  }

  /** One loose field: `key=n`. */
  function LooseFieldText(key: string, n: nat): string {
    key + ("=" + ShowNat(n))
  }

  /** The fields of a quadruple in the loose form: `k1=n1, k2=n2, ...`. */
  function RenderLooseFields(keys: seq<string>, ns: seq<nat>): string
    requires |keys| == |ns| > 0
    decreases |keys|
  {
    LooseFieldText(keys[0], ns[0]) + (if |keys| == 1 then "" else ", " + RenderLooseFields(keys[1..], ns[1..]))
  }

  /** A quadruple in the loose `x=n, y=n, width=n, height=n` form. */
  function RenderLoose(q: Quad): string {
    RenderLooseFields(BoxKeys, QuadValues(q))
  }

  lemma Assoc(a: string, b: string, c: string)
    ensures (a + b) + c == a + (b + c)
  {
  }

  lemma HeadTail<T>(s: seq<T>)
    requires s != []
    ensures [s[0]] + s[1..] == s
  {
  }

  lemma SkipNoSpace(u: string)
    requires u == [] || !IsSpace(u[0])
    ensures SkipSpace(u) == u
  {
  }

  lemma SkipOneSpace(u: string)
    requires u == [] || !IsSpace(u[0])
    ensures SkipSpace(" " + u) == u
  {
    assert (" " + u)[1..] == u;
  }

  lemma ExpectPrefix(lit: string, u: string)
    ensures Expect(lit + u, lit) == Some(u)
  {
    assert (lit + u)[..|lit|] == lit;
    assert (lit + u)[|lit|..] == u;
  }

  /** `StrictField` step by step: each sub-scan's result feeds the next. */
  lemma StrictFieldSteps(t: string, key: string, a: string, b: string, d: (nat, string))
    requires Expect(SkipSpace(t), "\"" + key + "\"") == Some(a)
    requires Expect(SkipSpace(a), ":") == Some(b)
    requires Digits(SkipSpace(b)) == Some(d)
    ensures StrictField(t, key) == Some((d.0, SkipSpace(d.1)))
  {
  }

  lemma StrictFieldOfText(pad: string, key: string, n: nat, rest: string)
    requires pad == "" || pad == " "
    requires |key| > 0 && rest != [] && !IsSpace(rest[0]) && !IsDigit(rest[0])
    ensures StrictField(pad + (FieldText(key, n) + rest), key) == Some((n, rest))
  {
    var lit := "\"" + key + "\"";
    var v := ShowNat(n) + rest;
    var u := ":" + (" " + v);
    var t := lit + u;
    assert pad + (FieldText(key, n) + rest) == pad + t;
    assert t[0] == '"';
    if pad == " " {
      SkipOneSpace(t);
    } else {
      assert pad + t == t;
      SkipNoSpace(t);
    }
    ExpectPrefix(lit, u);
    SkipNoSpace(u);
    ExpectPrefix(":", " " + v);
    assert v[0] == ShowNat(n)[0];
    SkipOneSpace(v);
    DigitsOfShowNat(n, rest);
    SkipNoSpace(rest);
    StrictFieldSteps(pad + t, key, u, " " + v, (n, rest));
  }

  /** `StrictFieldList` for several keys, step by step. */
  lemma StrictFieldListStep(t: string, keys: seq<string>, f: (nat, string), t1: string, more: (seq<nat>, string))
    requires |keys| > 1
    requires StrictField(t, keys[0]) == Some(f) && Expect(f.1, ",") == Some(t1)
    requires StrictFieldList(t1, keys[1..]) == Some(more)
    ensures StrictFieldList(t, keys) == Some(([f.0] + more.0, more.1))
  {
  }

  /** The separator `", "` between two rendered fields, re-associated around the text that follows. */
  lemma CommaShape(a: string, tail: string, rest: string)
    ensures (a + (", " + tail)) + rest == a + ("," + (" " + (tail + rest)))
  {
    Assoc(a, ", " + tail, rest);
    Assoc(", ", tail, rest);
    Assoc(",", " ", tail + rest);
  }

  lemma RenderFieldsSplit(keys: seq<string>, ns: seq<nat>, rest: string)
    requires |keys| == |ns| > 1
    ensures RenderFields(keys, ns) + rest
            == FieldText(keys[0], ns[0]) + ("," + (" " + (RenderFields(keys[1..], ns[1..]) + rest)))
  {
    var tail := RenderFields(keys[1..], ns[1..]);
    assert RenderFields(keys, ns) == FieldText(keys[0], ns[0]) + (", " + tail);
    CommaShape(FieldText(keys[0], ns[0]), tail, rest);
  }

  lemma StrictFieldListOfOne(pad: string, keys: seq<string>, ns: seq<nat>, rest: string)
    requires pad == "" || pad == " "
    requires |keys| == |ns| == 1 && keys[0] != []
    requires rest != [] && rest[0] == '}'
    ensures StrictFieldList(pad + (RenderFields(keys, ns) + rest), keys) == Some((ns, rest))
  {
    assert RenderFields(keys, ns) == FieldText(keys[0], ns[0]);
    StrictFieldOfText(pad, keys[0], ns[0], rest);
    assert ns == [ns[0]];
  }

  /** The first rendered field reads back, leaving the separator and the other fields. */
  lemma StrictFieldHead(pad: string, keys: seq<string>, ns: seq<nat>, rest: string)
    requires pad == "" || pad == " "
    requires |keys| == |ns| > 1 && keys[0] != []
    ensures StrictField(pad + (RenderFields(keys, ns) + rest), keys[0])
            == Some((ns[0], "," + (" " + (RenderFields(keys[1..], ns[1..]) + rest))))
  {
    var after := "," + (" " + (RenderFields(keys[1..], ns[1..]) + rest));
    RenderFieldsSplit(keys, ns, rest);
    StrictFieldOfText(pad, keys[0], ns[0], after);
  }

  /** A field, a comma and a field list that reads back make a longer field list. */
  lemma StrictFieldListCons(t: string, keys: seq<string>, ns: seq<nat>, inner: string, rest: string)
    requires |keys| == |ns| > 1
    requires StrictField(t, keys[0]) == Some((ns[0], "," + inner))
    requires StrictFieldList(inner, keys[1..]) == Some((ns[1..], rest))
    ensures StrictFieldList(t, keys) == Some((ns, rest))
  {
    ExpectPrefix(",", inner);
    StrictFieldListStep(t, keys, (ns[0], "," + inner), inner, (ns[1..], rest));
    HeadTail(ns);
  }

  /** The field list reads back the numbers of rendered fields, for any text after them that starts with `}`. */
  lemma {:induction false} StrictFieldListRoundTrip(pad: string, keys: seq<string>, ns: seq<nat>, rest: string)
    requires pad == "" || pad == " "
    requires |keys| == |ns| > 0 && forall k :: 0 <= k < |keys| ==> keys[k] != []
    requires rest != [] && rest[0] == '}'
    ensures StrictFieldList(pad + (RenderFields(keys, ns) + rest), keys) == Some((ns, rest))
    decreases |keys|
  {
    if |keys| == 1 {
      StrictFieldListOfOne(pad, keys, ns, rest);
    } else {
      StrictFieldListRoundTrip(" ", keys[1..], ns[1..], rest);
      StrictFieldHead(pad, keys, ns, rest);
      StrictFieldListCons(pad + (RenderFields(keys, ns) + rest), keys, ns,
                          " " + (RenderFields(keys[1..], ns[1..]) + rest), rest);
    }
  }

  /** `MatchStrict` step by step. */
  lemma MatchStrictSteps(t: string, t0: string, fs: (seq<nat>, string), rest: string)
    requires Expect(t, "{") == Some(t0)
    requires StrictFieldList(t0, BoxKeys) == Some(fs)
    requires Expect(fs.1, "}") == Some(rest)
    ensures MatchStrict(t) == Some((Quad(fs.0[0], fs.0[1], fs.0[2], fs.0[3]), rest))
  {
  }

  lemma BraceShape(fields: string, rest: string)
    ensures ("{" + fields + "}") + rest == "{" + ("" + (fields + ("}" + rest)))
  {
    Assoc("{" + fields, "}", rest);
    Assoc("{", fields, "}" + rest);
    assert "" + (fields + ("}" + rest)) == fields + ("}" + rest);
  }

  /** The strict scanner reads back exactly the numbers of a dumped box, and stops right after it. */
  lemma StrictRoundTrip(q: Quad, rest: string)
    ensures MatchStrict(RenderStrict(q) + rest) == Some((q, rest))
  {
    var fields := RenderFields(BoxKeys, QuadValues(q));
    var t0 := "" + (fields + ("}" + rest));
    BraceShape(fields, rest);
    ExpectPrefix("{", t0);
    StrictFieldListRoundTrip("", BoxKeys, QuadValues(q), "}" + rest);
    ExpectPrefix("}", rest);
    MatchStrictSteps(RenderStrict(q) + rest, t0, (QuadValues(q), "}" + rest), rest);
  }

  /** A match is reported and the scan goes on right after it. */
  lemma StrictMatchesAfterMatch(t: string, q: Quad, u: string)
    requires MatchStrict(t) == Some((q, u))
    ensures StrictMatches(t) == [q] + StrictMatches(u)
  {
  }

  /** A line break never starts a match and is stepped over. */
  lemma StrictMatchesSkipsNewline(u: string)
    ensures StrictMatches("\n" + u) == StrictMatches(u)
  {
    assert MatchStrict("\n" + u) == None;
    assert ("\n" + u)[1..] == u;
  }

  /** The first dumped box of a listing and its line break add that box in front of the other matches. */
  lemma StrictMatchesOfListingStep(qs: seq<Quad>)
    requires qs != []
    ensures StrictMatches(RenderAll(qs)) == [qs[0]] + StrictMatches(RenderAll(qs[1..]))
  {
    var tail := RenderAll(qs[1..]);
    Assoc(RenderStrict(qs[0]), "\n", tail);
    StrictRoundTrip(qs[0], "\n" + tail);
    StrictMatchesAfterMatch(RenderAll(qs), qs[0], "\n" + tail);
    StrictMatchesSkipsNewline(tail);
  }

  /** Scanning a listing of dumped boxes gives back every box, in order. */
  lemma {:induction false} StrictMatchesOfListing(qs: seq<Quad>)
    ensures StrictMatches(RenderAll(qs)) == qs
    decreases |qs|
  {
    if qs != [] {
      StrictMatchesOfListing(qs[1..]);
      StrictMatchesOfListingStep(qs);
      HeadTail(qs);
    }
  }

  /** `LooseField` step by step. */
  lemma LooseFieldSteps(t: string, key: string, a: string, b: string, d: (nat, string))
    requires key != []
    requires ExpectFolded(t, key) == Some(a)
    requires OneOf(SkipSpace(a), {':', '='}) == Some(b)
    requires Digits(SkipSpace(b)) == Some(d)
    ensures LooseField(t, key) == Some(d)
  {
  }

  /** Text `w` that lower-cases to `lit` is accepted where `lit` is expected, in any letter case. */
  lemma ExpectFoldedPrefix(w: string, lit: string, u: string)
    requires LowerAll(w) == lit
    ensures ExpectFolded(w + u, lit) == Some(u)
  {
    assert (w + u)[..|lit|] == w;
    assert (w + u)[|lit|..] == u;
  }

  /** A field whose key is written as `w`, in any letter case, reads back under its key. */
  lemma LooseFieldOfText(w: string, key: string, n: nat, rest: string)
    requires |key| > 0 && LowerAll(w) == key
    requires rest == [] || !IsDigit(rest[0])
    ensures LooseField(LooseFieldText(w, n) + rest, key) == Some((n, rest))
  {
    var v := ShowNat(n) + rest;
    Assoc(w, "=" + ShowNat(n), rest);
    Assoc("=", ShowNat(n), rest);
    ExpectFoldedPrefix(w, key, "=" + v);
    SkipNoSpace("=" + v);
    assert ("=" + v)[1..] == v;
    assert v[0] == ShowNat(n)[0];
    SkipNoSpace(v);
    DigitsOfShowNat(n, rest);
    LooseFieldSteps(w + ("=" + v), key, "=" + v, v, (n, rest));
  }

  lemma SeparatorsOfComma(u: string)
    requires u != [] && !IsSeparator(u[0])
    ensures Separators(", " + u) == Some(u)
  {
    assert (", " + u)[0] == ',';
    assert (", " + u)[1..] == " " + u;
    assert (" " + u)[0] == ' ';
    assert (" " + u)[1..] == u;
    assert SkipSeparators(u) == u;
    assert SkipSeparators(" " + u) == u;
  }

  /** `LooseFieldList` for several keys, step by step. */
  lemma LooseFieldListStep(t: string, keys: seq<string>, f: (nat, string), t1: string, more: (seq<nat>, string))
    requires |keys| > 1 && forall k :: 0 <= k < |keys| ==> keys[k] != []
    requires LooseField(t, keys[0]) == Some(f) && Separators(f.1) == Some(t1)
    requires LooseFieldList(t1, keys[1..]) == Some(more)
    ensures LooseFieldList(t, keys) == Some(([f.0] + more.0, more.1))
  {
  }

  lemma RenderLooseFieldsSplit(keys: seq<string>, ns: seq<nat>, rest: string)
    requires |keys| == |ns| > 1
    ensures RenderLooseFields(keys, ns) + rest
            == LooseFieldText(keys[0], ns[0]) + (", " + (RenderLooseFields(keys[1..], ns[1..]) + rest))
  {
    var tail := RenderLooseFields(keys[1..], ns[1..]);
    assert RenderLooseFields(keys, ns) == LooseFieldText(keys[0], ns[0]) + (", " + tail);
    CommaJoinShape(LooseFieldText(keys[0], ns[0]), tail, rest);
  }

  lemma CommaJoinShape(a: string, tail: string, rest: string)
    ensures (a + (", " + tail)) + rest == a + (", " + (tail + rest))
  {
    Assoc(a, ", " + tail, rest);
    Assoc(", ", tail, rest);
  }

  lemma LooseFieldListOfOne(written: seq<string>, keys: seq<string>, ns: seq<nat>, rest: string)
    requires |written| == |keys| == |ns| == 1 && keys[0] != [] && LowerAll(written[0]) == keys[0]
    requires rest == [] || !IsDigit(rest[0])
    ensures LooseFieldList(RenderLooseFields(written, ns) + rest, keys) == Some((ns, rest))
  {
    assert RenderLooseFields(written, ns) == LooseFieldText(written[0], ns[0]);
    LooseFieldOfText(written[0], keys[0], ns[0], rest);
    assert ns == [ns[0]];
  }

  /** The first rendered loose field reads back, leaving the separator and the other fields. */
  lemma LooseFieldHead(written: seq<string>, keys: seq<string>, ns: seq<nat>, rest: string)
    requires |written| == |keys| == |ns| > 1 && keys[0] != [] && LowerAll(written[0]) == keys[0]
    ensures LooseField(RenderLooseFields(written, ns) + rest, keys[0])
            == Some((ns[0], ", " + (RenderLooseFields(written[1..], ns[1..]) + rest)))
  {
    RenderLooseFieldsSplit(written, ns, rest);
    LooseFieldOfText(written[0], keys[0], ns[0], ", " + (RenderLooseFields(written[1..], ns[1..]) + rest));
  }

  /** A loose field, a separator and a loose field list that reads back make a longer list. */
  lemma LooseFieldListCons(t: string, keys: seq<string>, ns: seq<nat>, inner: string, rest: string)
    requires |keys| == |ns| > 1 && forall k :: 0 <= k < |keys| ==> keys[k] != []
    requires inner != [] && !IsSeparator(inner[0])
    requires LooseField(t, keys[0]) == Some((ns[0], ", " + inner))
    requires LooseFieldList(inner, keys[1..]) == Some((ns[1..], rest))
    ensures LooseFieldList(t, keys) == Some((ns, rest))
  {
    SeparatorsOfComma(inner);
    LooseFieldListStep(t, keys, (ns[0], ", " + inner), inner, (ns[1..], rest));
    HeadTail(ns);
  }

  /**
   * The loose field list reads back the numbers of rendered fields, whose keys
   * are written as `written`: each one the key in any letter case.
   */
  lemma {:induction false} LooseFieldListRoundTrip(written: seq<string>, keys: seq<string>, ns: seq<nat>, rest: string)
    requires |written| == |keys| == |ns| > 0
    requires forall k :: 0 <= k < |keys| ==> keys[k] != [] && LowerAll(written[k]) == keys[k]
    requires forall k :: 0 <= k < |written| ==> written[k] != [] && !IsSeparator(written[k][0])
    requires rest == [] || !IsDigit(rest[0])
    ensures LooseFieldList(RenderLooseFields(written, ns) + rest, keys) == Some((ns, rest))
    decreases |keys|
  {
    if |keys| == 1 {
      LooseFieldListOfOne(written, keys, ns, rest);
    } else {
      var inner := RenderLooseFields(written[1..], ns[1..]) + rest;
      LooseFieldListRoundTrip(written[1..], keys[1..], ns[1..], rest);
      LooseFieldHead(written, keys, ns, rest);
      assert inner[0] == written[1][0];
      LooseFieldListCons(RenderLooseFields(written, ns) + rest, keys, ns, inner, rest);
    }
  }

  /** The loose scanner reads back exactly the numbers of a `x=n, y=n, width=n, height=n` quadruple. */
  lemma LooseRoundTrip(q: Quad, rest: string)
    requires rest == [] || !IsDigit(rest[0])
    ensures MatchLoose(RenderLoose(q) + rest) == Some((q, rest))
  {
    assert LowerAll("x") == "x" && LowerAll("y") == "y";
    assert LowerAll("width") == "width" && LowerAll("height") == "height";
    LooseFieldListRoundTrip(BoxKeys, BoxKeys, QuadValues(q), rest);
  }

  /** A key written in any letter case starts with a letter, so not with a separator. */
  lemma FoldedKeyStartsWithLetter(w: string, key: string)
    requires key != [] && 'a' <= key[0] <= 'z' && LowerAll(w) == key
    ensures w != [] && !IsSeparator(w[0])
  {
    assert Lower(w[0]) == key[0];
  }

  /**
   * `re.IGNORECASE`: the loose scanner reads back the four numbers whatever
   * the letter case the keys are written in, such as `X=1, Y=2, WIDTH=3, HEIGHT=4`.
   */
  lemma LooseRoundTripAnyCase(written: seq<string>, q: Quad, rest: string)
    requires |written| == 4 && forall k :: 0 <= k < 4 ==> LowerAll(written[k]) == BoxKeys[k]
    requires rest == [] || !IsDigit(rest[0])
    ensures MatchLoose(RenderLooseFields(written, QuadValues(q)) + rest) == Some((q, rest))
  {
    forall k | 0 <= k < 4
      ensures written[k] != [] && !IsSeparator(written[k][0])
    {
      FoldedKeyStartsWithLetter(written[k], BoxKeys[k]);
    }
    LooseFieldListRoundTrip(written, BoxKeys, QuadValues(q), rest);
  }

  /** The upper-case spelling of the keys is matched. */
  lemma UpperCaseKeysMatch(q: Quad)
    ensures MatchLoose(RenderLooseFields(["X", "Y", "WIDTH", "HEIGHT"], QuadValues(q))) == Some((q, []))
  {
    var written := ["X", "Y", "WIDTH", "HEIGHT"];
    assert LowerAll("X") == "x" && LowerAll("Y") == "y";
    assert LowerAll("WIDTH") == "width" && LowerAll("HEIGHT") == "height";
    LooseRoundTripAnyCase(written, q, []);
    assert RenderLooseFields(written, QuadValues(q)) + [] == RenderLooseFields(written, QuadValues(q));
  }

  /** A lone loose quadruple is found by the scan, and nothing else is. */
  lemma LooseMatchesOfOne(q: Quad)
    ensures LooseMatches(RenderLoose(q)) == [q]
  {
    var t := RenderLoose(q);
    assert t + [] == t;
    LooseRoundTrip(q, []);
    assert LooseMatches(t) == [q] + LooseMatches([]);
  }

  // ---------------------------------------------------------------------------
  // End to end: a listing of boxes outside any JSON document

  /** Text without the letter n in either case, so without any of the short-circuit phrases. */
  predicate WithoutN(s: string) {
    forall k :: 0 <= k < |s| ==> s[k] != 'n' && s[k] != 'N'
  }

  lemma WithoutNConcat(a: string, b: string)
    requires WithoutN(a) && WithoutN(b)
    ensures WithoutN(a + b)
  {
    forall k | 0 <= k < |a + b| ensures (a + b)[k] != 'n' && (a + b)[k] != 'N' {
      if k < |a| {
        assert (a + b)[k] == a[k];
      } else {
        assert (a + b)[k] == b[k - |a|];
      }
    }
  }

  /** A text lacking the character `p[j]` does not contain `p`. */
  lemma NotContainsMissingChar(s: string, p: string, j: int)
    requires 0 <= j < |p| && forall k :: 0 <= k < |s| ==> s[k] != p[j]
    ensures !Contains(s, p)
  {
    ContainsIffOccurs(s, p);
    forall i ensures !OccursAt(s, p, i) {
      if 0 <= i && i + |p| <= |s| {
        assert s[i..i + |p|][j] == s[i + j];
      }
    }
  }

  lemma WithoutNShortCircuits(s: string)
    requires WithoutN(s)
    ensures !HasNegativePhrase(s) && !HasEmptyHumansLiteral(s)
  {
    var lower := LowerAll(s);
    assert forall k :: 0 <= k < |lower| ==> lower[k] != 'n';
    forall k | 0 <= k < |NoHumanIndicators| ensures !Contains(lower, NoHumanIndicators[k]) {
      var j := if k == 5 then 2 else if k == 6 then 3 else 0;
      assert NoHumanIndicators[k][j] == 'n';
      NotContainsMissingChar(lower, NoHumanIndicators[k], j);
    }
    assert EmptyHumansTight[5] == 'n' && EmptyHumansSpaced[5] == 'n';
    NotContainsMissingChar(s, EmptyHumansTight, 5);
    NotContainsMissingChar(s, EmptyHumansSpaced, 5);
  }

  lemma {:induction false} WithoutNRenderFields(keys: seq<string>, ns: seq<nat>)
    requires |keys| == |ns| > 0 && forall k :: 0 <= k < |keys| ==> WithoutN(keys[k])
    ensures WithoutN(RenderFields(keys, ns))
    decreases |keys|
  {
    var key, n := keys[0], ns[0];
    assert WithoutN(ShowNat(n));
    WithoutNConcat("\"", key);
    WithoutNConcat("\"" + key, "\": ");
    WithoutNConcat("\"" + key + "\": ", ShowNat(n));
    if |keys| == 1 {
      WithoutNConcat(FieldText(key, n), "");
    } else {
      WithoutNRenderFields(keys[1..], ns[1..]);
      WithoutNConcat(", ", RenderFields(keys[1..], ns[1..]));
      WithoutNConcat(FieldText(key, n), ", " + RenderFields(keys[1..], ns[1..]));
    }
  }

  lemma {:induction false} WithoutNRenderAll(qs: seq<Quad>)
    ensures WithoutN(RenderAll(qs))
    decreases |qs|
  {
    if qs != [] {
      WithoutNRenderFields(BoxKeys, QuadValues(qs[0]));
      var fields := RenderFields(BoxKeys, QuadValues(qs[0]));
      WithoutNConcat("{", fields);
      WithoutNConcat("{" + fields, "}");
      WithoutNConcat(RenderStrict(qs[0]), "\n");
      WithoutNRenderAll(qs[1..]);
      WithoutNConcat(RenderStrict(qs[0]) + "\n", RenderAll(qs[1..]));
    }
  }

  /**
   * A reply that lists boxes one per line, with no JSON `humans` or `faces`
   * list to decode, parses to exactly those boxes, in order.
   */
  lemma ParseOfListing(qs: seq<Quad>, decode: string -> Decoded)
    requires qs != []
    requires JsonCandidates(RenderAll(qs), decode) == None
    ensures Parse(RenderAll(qs), decode) == Boxes(qs)
  {
    WithoutNRenderAll(qs);
    WithoutNShortCircuits(RenderAll(qs));
    StrictMatchesOfListing(qs);
  }
}

/**
 * Turning the items of a decoded AI reply into audit issues, as the AI analyzers do in a
 * `for` loop that appends one issue per item: an item the conversion cannot handle raises,
 * which ends the loop with the issues appended so far kept.
 */
module AiIssues {
  import opened Outcomes
  import opened Json
  import opened Messages
  import opened Results

  /** The issues converted before the first failure, and that failure's message if any. */
  datatype Converted = Converted(issues: seq<Issue>, error: Option<string>)

  /** Converters that only yield impacts on the 1-10 scale. */
  ghost predicate ImpactsBounded(convert: Json -> Outcome<Issue>) {
    forall x :: convert(x).Ok? ==> 1 <= convert(x).value.impact <= 10
  }

  /** Converting `items` in order until one raises. */
  function ConvertEach(items: seq<Json>, convert: Json -> Outcome<Issue>): (c: Converted)
    ensures |c.issues| <= |items|
    ensures forall i :: 0 <= i < |c.issues| ==> convert(items[i]) == Ok(c.issues[i])
    ensures c.error.None? <==> |c.issues| == |items|
    ensures c.error.Some? ==> convert(items[|c.issues|]) == Raised(c.error.value)
    decreases |items|
  {
    if |items| == 0 then Converted([], None)
    else
      match convert(items[0])
      case Raised(m) => Converted([], Some(m))
      case Ok(issue) =>
        var rest := ConvertEach(items[1..], convert);
        assert forall i :: 0 < i <= |rest.issues| ==> items[i] == items[1..][i - 1];
        Converted([issue] + rest.issues, rest.error)
  }

  /** Converting one more item after a run without failure. */
  lemma {:induction false} ConvertEachSnoc(items: seq<Json>, x: Json, convert: Json -> Outcome<Issue>)
    requires ConvertEach(items, convert).error.None?
    ensures convert(x).Ok? ==>
              ConvertEach(items + [x], convert) == Converted(ConvertEach(items, convert).issues + [convert(x).value], None)
    ensures convert(x).Raised? ==>
              ConvertEach(items + [x], convert) == Converted(ConvertEach(items, convert).issues, Some(convert(x).msg))
    decreases |items|
  {
    if |items| > 0 {
      assert (items + [x])[1..] == items[1..] + [x];
      ConvertEachSnoc(items[1..], x, convert);
    } else {
      assert items + [x] == [x];
    }
  }

  /** Once a conversion has failed, later items change nothing. */
  lemma {:induction false} ConvertEachStops(items: seq<Json>, more: seq<Json>, convert: Json -> Outcome<Issue>)
    requires ConvertEach(items, convert).error.Some?
    ensures ConvertEach(items + more, convert) == ConvertEach(items, convert)
    decreases |items|
  {
    assert (items + more)[0] == items[0];
    if convert(items[0]).Ok? {
      assert (items + more)[1..] == items[1..] + more;
      ConvertEachStops(items[1..], more, convert);
    }
  }

  /**
   * The append loop: each item converted in turn and appended to `issues`; the first
   * conversion that raises stops the loop and its message is returned.
   */
  method AppendConverted(issues: seq<Issue>, items: seq<Json>, convert: Json -> Outcome<Issue>)
    returns (out: seq<Issue>, error: Option<string>)
    ensures out == issues + ConvertEach(items, convert).issues
    ensures error == ConvertEach(items, convert).error
  {
    out := issues;
    var k := 0;
    while k < |items|
      invariant 0 <= k <= |items|
      invariant ConvertEach(items[..k], convert).error.None?
      invariant out == issues + ConvertEach(items[..k], convert).issues
    {
      assert items[..k + 1] == items[..k] + [items[k]];
      ConvertEachSnoc(items[..k], items[k], convert);
      match convert(items[k])
      case Raised(m) =>
        assert k + 1 <= |items|;
        assert items[..k + 1] + items[k + 1..] == items;
        ConvertEachStops(items[..k + 1], items[k + 1..], convert);
        return out, Some(m);
      case Ok(issue) =>
        out := out + [issue];
      k := k + 1;
    }
    assert items[..k] == items;
    error := None;
  }

  /** A bounded converter yields bounded issues. */
  lemma ConvertEachInRange(items: seq<Json>, convert: Json -> Outcome<Issue>)
    requires ImpactsBounded(convert)
    ensures ImpactsInRange(ConvertEach(items, convert).issues)
  {
    var c := ConvertEach(items, convert);
    forall i | 0 <= i < |c.issues| ensures 1 <= c.issues[i].impact <= 10 {
      assert convert(items[i]) == Ok(c.issues[i]);
    }
  }
}

/** Choice of the logo URL among the candidate cells of a row (`first_non_nan_url`). */
module Urls {
  import opened Text
  import opened Values

  /** The test of one candidate: trimmed and lower-cased, it begins with
      `http://` or `https://`. */
  predicate IsHttpUrl(s: string) {
    var t := Lower(Strip(s));
    StartsWith(t, "http://") || StartsWith(t, "https://")
  }

  /** A candidate qualifies when it is a string that passes IsHttpUrl. */
  predicate Qualifies(v: Value) {
    v.Str? && IsHttpUrl(v.s)
  }

  /** The trimmed text of the first qualifying candidate, if any. Whatever it
      returns is the trimmed text of some qualifying candidate. */
  function FirstUrl(values: seq<Value>): (url: Option<string>)
    ensures url.Some? ==>
      exists i :: 0 <= i < |values| && Qualifies(values[i]) && url.value == Strip(values[i].s)
  {
    if values == [] then None
    else if Qualifies(values[0]) then Some(Strip(values[0].s))
    else FirstUrl(values[1..])
  }

  /** Nothing is chosen exactly when no candidate qualifies. */
  lemma {:induction false} FirstUrlNone(values: seq<Value>)
    ensures FirstUrl(values) == None <==> forall i :: 0 <= i < |values| ==> !Qualifies(values[i])
  {
    if values != [] {
      FirstUrlNone(values[1..]);
      assert forall i :: 1 <= i < |values| ==> values[i] == values[1..][i - 1];
    }
  }

  /** When candidate `i` is the first to qualify, its trimmed text is chosen: the
      earlier candidates are skipped and the later ones are never looked at. */
  lemma {:induction false} FirstUrlFirstMatch(values: seq<Value>, i: nat)
    requires i < |values| && Qualifies(values[i])
    requires forall j :: 0 <= j < i ==> !Qualifies(values[j])
    ensures FirstUrl(values) == Some(Strip(values[i].s))
  {
    if i > 0 {
      var rest := values[1..];
      assert !Qualifies(values[0]);
      assert rest[i - 1] == values[i];
      forall j | 0 <= j < i - 1
        ensures !Qualifies(rest[j])
      {
        assert rest[j] == values[j + 1];
      }
      FirstUrlFirstMatch(rest, i - 1);
    }
  }

  /** A chosen URL is already trimmed and passes the URL test itself. */
  lemma {:induction false} FirstUrlShape(values: seq<Value>)
    requires FirstUrl(values).Some?
    ensures var u := FirstUrl(values).value; Strip(u) == u && IsHttpUrl(u)
  {
    if Qualifies(values[0]) {
      StripIdempotent(values[0].s);
    } else {
      FirstUrlShape(values[1..]);
    }
  }

  /** `first_non_nan_url`: scans the candidates in order and returns at the first
      one that qualifies. */
  method FirstNonNanUrl(values: seq<Value>) returns (url: Option<string>)
    ensures url == FirstUrl(values)
  {
    for k := 0 to |values|
      invariant FirstUrl(values[k..]) == FirstUrl(values)
    {
      assert values[k..][1..] == values[k + 1..];
      if Qualifies(values[k]) {
        return Some(Strip(values[k].s));
      }
    }
    assert values[|values|..] == [];
    return None;
  }
}

/** Request addresses as the clients build them by interpolation: a fixed
    key, a rendered value, then the rest of the address. */
module Query {
  import opened Common
  import opened Text

  /** `key` followed by `value`, then the rest of the address. */
  function Param(key: string, value: string, rest: string): string
  {
    key + value + rest
  }

  /** Reads a parameter back: the text after `key` up to the next `stop`,
      and what follows it. */
  function ReadParam(s: string, key: string, stop: char): (r: Option<(string, string)>)
    ensures r.Some? ==> s == key + r.value.0 + r.value.1 && stop !in r.value.0
  {
    if |s| < |key| || s[..|key|] != key then None
    else
      var cut := CutAt(s[|key|..], stop);
      assert s == s[..|key|] + s[|key|..];
      Some(cut)
  }

  /** A value without `stop`, followed by a rest that starts with `stop`,
      reads back exactly. */
  lemma ReadParamOf(key: string, value: string, rest: string, stop: char)
    requires stop !in value && |rest| > 0 && rest[0] == stop
    ensures ReadParam(Param(key, value, rest), key, stop) == Some((value, rest))
  {
    var s := Param(key, value, rest);
    assert s[..|key|] == key && s[|key|..] == value + rest;
    CutAtConcat(value, rest, stop);
  }
}

/**
 * The unit a statement's figures are given in, and the divisor `get_scaler`
 * derives from it.
 */
module Scaler {
  import opened Outcomes

  /**
   * A unit token as Python compares it with `in`: a string, a number (ints,
   * floats and booleans compare by value, so `True` is `NumToken(1.0)`) or `None`.
   */
  datatype Token = StrToken(s: string) | NumToken(v: real) | NoneToken

  const ThousandParams: seq<Token> := [
    StrToken("Thousands"), StrToken("thousands"), StrToken("Thousand"), StrToken("thousand"),
    StrToken("T"), StrToken("t"), StrToken("Th"), StrToken("th"),
    StrToken("1000"), StrToken("1,000"), NumToken(1000.0)]

  const MillionParams: seq<Token> := [
    StrToken("Millions"), StrToken("millions"), StrToken("Million"), StrToken("million"),
    StrToken("M"), StrToken("m"), StrToken("Mi"), StrToken("mi"),
    StrToken("1000000"), StrToken("1,000,000"), NumToken(1000000.0)]

  const BillionParams: seq<Token> := [
    StrToken("Billions"), StrToken("billions"), StrToken("Billion"), StrToken("billion"),
    StrToken("B"), StrToken("b"),
    StrToken("1000000000"), StrToken("1,000,000,000"), NumToken(1000000000.0)]

  const NoScaling: seq<Token> := [
    StrToken("None"), NoneToken, StrToken("no"), NumToken(1.0), StrToken("1"),
    NumToken(0.0), StrToken("0")]

  /**
   * A coarse fingerprint of each group: the first character of a string token
   * and, for the digit spellings, its length. Used to tell the groups apart.
   */
  predicate Shaped(t: Token, letters: string, digitLengths: set<nat>, value: real) {
    match t
    case StrToken(s) => |s| > 0 && (s[0] in letters || (s[0] == '1' && |s| in digitLengths))
    case NumToken(v) => v == value
    case NoneToken => false
  }

  lemma ThousandShaped(t: Token)
    requires t in ThousandParams
    ensures Shaped(t, "Tt", {4, 5}, 1000.0)
  {
  }

  lemma MillionShaped(t: Token)
    requires t in MillionParams
    ensures Shaped(t, "Mm", {7, 9}, 1000000.0)
  {
  }

  lemma BillionShaped(t: Token)
    requires t in BillionParams
    ensures Shaped(t, "Bb", {10, 13}, 1000000000.0)
  {
  }

  lemma NoScalingShaped(t: Token)
    requires t in NoScaling
    ensures t.NoneToken? || Shaped(t, "Nn0", {1}, 1.0) || t == NumToken(0.0)
  {
  }

  lemma ThousandApart(t: Token)
    requires t in ThousandParams
    ensures t !in MillionParams && t !in BillionParams && t !in NoScaling
  {
    ThousandShaped(t);
    assert t !in MillionParams by { if t in MillionParams { MillionShaped(t); } }
    assert t !in BillionParams by { if t in BillionParams { BillionShaped(t); } }
    assert t !in NoScaling by { if t in NoScaling { NoScalingShaped(t); } }
  }

  lemma MillionApart(t: Token)
    requires t in MillionParams
    ensures t !in BillionParams && t !in NoScaling
  {
    MillionShaped(t);
    assert t !in BillionParams by { if t in BillionParams { BillionShaped(t); } }
    assert t !in NoScaling by { if t in NoScaling { NoScalingShaped(t); } }
  }

  lemma BillionApart(t: Token)
    requires t in BillionParams
    ensures t !in NoScaling
  {
    BillionShaped(t);
    if t in NoScaling { NoScalingShaped(t); }
  }

  /** The four unit groups share no token. */
  lemma GroupsDisjoint(t: Token)
    ensures t in ThousandParams ==> t !in MillionParams && t !in BillionParams && t !in NoScaling
    ensures t in MillionParams ==> t !in BillionParams && t !in NoScaling
    ensures t in BillionParams ==> t !in NoScaling
  {
    if t in ThousandParams { ThousandApart(t); }
    if t in MillionParams { MillionApart(t); }
    if t in BillionParams { BillionApart(t); }
  }

  /**
   * `get_scaler`: the divisor for the group the token belongs to. A token in
   * no group falls off the end of the `elif` chain and yields `None`. As the
   * groups are disjoint, each divisor is returned exactly for its group's tokens.
   */
  function GetScaler(inX: Token): (r: Option<nat>)
    ensures r == Some(1000) <==> inX in ThousandParams
    ensures r == Some(1000000) <==> inX in MillionParams
    ensures r == Some(1000000000) <==> inX in BillionParams
    ensures r == Some(1) <==> inX in NoScaling
    ensures r.None? <==>
      inX !in ThousandParams && inX !in MillionParams && inX !in BillionParams && inX !in NoScaling
  {
    GroupsDisjoint(inX);
    if inX in ThousandParams then Some(1000)
    else if inX in MillionParams then Some(1000000)
    else if inX in BillionParams then Some(1000000000)
    else if inX in NoScaling then Some(1)
    else None
  }

  /** The constructor's default unit and the one the manager passes both mean thousands. */
  lemma DefaultUnits()
    ensures GetScaler(StrToken("thousands")) == Some(1000)
    ensures GetScaler(StrToken("th")) == Some(1000)
  {
  }

  /** A letter that is in no list, though it abbreviates thousands elsewhere, resolves to nothing. */
  lemma UnlistedLetter()
    ensures GetScaler(StrToken("k")) == None
  {
    var k := StrToken("k");
    assert k !in ThousandParams by { if k in ThousandParams { ThousandShaped(k); } }
    assert k !in MillionParams by { if k in MillionParams { MillionShaped(k); } }
    assert k !in BillionParams by { if k in BillionParams { BillionShaped(k); } }
    assert k !in NoScaling by { if k in NoScaling { NoScalingShaped(k); } }
  }

  /** A number that is in no list, a trillion, resolves to nothing. */
  lemma UnlistedNumber()
    ensures GetScaler(NumToken(1000000000000.0)) == None
  {
  }
}

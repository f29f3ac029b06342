/**
 * config.py: the admin list read from the comma-separated ADMIN_IDS setting, and the
 * admin test every bot handler starts with. The setting's raw text is an input here;
 * reading it from the environment is outside the model.
 */
module Config {
  import opened Wrappers
  import opened Text

  /** The id one comma-separated token contributes: `int(tok.strip())` when `tok.strip().isdigit()`. */
  function AdminId(token: string): (r: Option<int>)
    ensures r.Some? <==> IsDigits(Strip(token))
    ensures r.Some? ==> r.value >= 0
  {
    var t := Strip(token);
    if IsDigits(t) then Some(DigitsValue(t)) else None
  }

  /** Whitespace around a token does not change what it contributes. */
  lemma AdminIdPadded(w1: string, token: string, w2: string)
    requires AllSpace(w1) && AllSpace(w2)
    ensures AdminId(w1 + token + w2) == AdminId(token)
  {
    StripPadded(w1, token, w2);
  }

  /** A rendered number, however padded, is read back as that number. */
  lemma AdminIdOfNumber(w1: string, n: nat, w2: string)
    requires AllSpace(w1) && AllSpace(w2)
    ensures AdminId(w1 + NatToString(n) + w2) == Some(n)
  {
    AdminIdPadded(w1, NatToString(n), w2);
    var s := NatToString(n);
    assert TrimLeft(s) == s;
    assert TrimRight(s) == s;
    DigitsValueOfNat(n);
  }

  /** The list comprehension of config.py over already split tokens, in token order. */
  function IdsOf(tokens: seq<string>): (r: seq<int>)
    ensures |r| <= |tokens|
    ensures forall x :: x in r <==> exists i :: 0 <= i < |tokens| && AdminId(tokens[i]) == Some(x)
  {
    if tokens == [] then []
    else
      var head := match AdminId(tokens[0]) case Some(v) => [v] case None => [];
      var rest := IdsOf(tokens[1..]);
      assert forall i :: 1 <= i < |tokens| ==> tokens[1..][i - 1] == tokens[i];
      head + rest
  }

  lemma {:induction false} IdsOfAppend(a: seq<string>, b: seq<string>)
    ensures IdsOf(a + b) == IdsOf(a) + IdsOf(b)
  {
    if a != [] {
      assert (a + b)[1..] == a[1..] + b;
      IdsOfAppend(a[1..], b);
    } else {
      assert a + b == b;
    }
  }

  /** ADMIN_IDS for a given setting. */
  function AdminIds(setting: string): (r: seq<int>)
    ensures forall x :: x in r ==> x >= 0
  {
    IdsOf(Split(setting, ','))
  }

  /** An empty setting (the default) gives no admins. */
  lemma AdminIdsOfEmpty()
    ensures AdminIds("") == []
  {
    assert Split("", ',') == [""];
    assert !IsDigits(Strip(""));
  }

  /** One token without a comma gives its own id, or nothing. */
  lemma AdminIdsOfToken(token: string)
    requires ',' !in token
    ensures AdminIds(token) == if AdminId(token).Some? then [AdminId(token).value] else []
  {
    SplitWhole(token, ',');
    assert Split(token, ',')[1..] == [];
  }

  /** Ids come out in the order of the tokens they were read from. */
  lemma AdminIdsGlued(a: string, b: string)
    ensures AdminIds(a + "," + b) == AdminIds(a) + AdminIds(b)
  {
    SplitGlued(a, ',', b);
    IdsOfAppend(Split(a, ','), Split(b, ','));
  }

  /** `is_admin(user_id)`: the id is one that some token of the setting spells out. */
  function IsAdmin(setting: string, userId: int): (r: bool)
    ensures r <==> exists token :: token in Split(setting, ',') && AdminId(token) == Some(userId)
  {
    var tokens := Split(setting, ',');
    assert (exists i :: 0 <= i < |tokens| && AdminId(tokens[i]) == Some(userId)) <==>
           (exists token :: token in tokens && AdminId(token) == Some(userId));
    userId in IdsOf(tokens)
  }
}

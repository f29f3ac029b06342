/**
 * The arithmetic both panel clients do on a plan before sending it: a data cap in GB
 * becomes bytes, a day count becomes an absolute expiry instant. Python floats are
 * modelled as exact reals.
 */
module Units {
  import opened Text

  /** 1024 * 1024 * 1024. */
  const BytesPerGb: real := 1073741824.0

  const SecondsPerDay: int := 86400

  /** `gb * 1024 * 1024 * 1024 if gb > 0 else 0`: the cap a panel is given, 0 standing for unlimited. */
  function CapBytes(gb: real): (r: real)
    ensures r >= 0.0
    ensures r == 0.0 <==> gb <= 0.0
    ensures gb > 0.0 ==> r / BytesPerGb == gb
  {
    if gb > 0.0 then gb * 1024.0 * 1024.0 * 1024.0 else 0.0
  }

  /** `int(now + days * 86400)`: the expiry in whole seconds since the epoch (Marzban). */
  function ExpirySeconds(now: real, days: int): (r: int)
    ensures now + (days * SecondsPerDay) as real >= 0.0 ==>
      r as real <= now + (days * SecondsPerDay) as real < r as real + 1.0
  {
    Trunc(now + (days * SecondsPerDay) as real)
  }

  /** `int((now + days * 86400) * 1000)`: the expiry in whole milliseconds since the epoch (3x-ui). */
  function ExpiryMillis(now: real, days: int): (r: int)
    ensures now + (days * SecondsPerDay) as real >= 0.0 ==>
      r as real <= (now + (days * SecondsPerDay) as real) * 1000.0 < r as real + 1.0
  {
    Trunc((now + (days * SecondsPerDay) as real) * 1000.0)
  }

  /** Both panels are told the same expiry instant: the milliseconds cut to seconds are the seconds. */
  lemma SameExpiryInstant(now: real, days: int)
    requires now + (days * SecondsPerDay) as real >= 0.0
    ensures ExpiryMillis(now, days) / 1000 == ExpirySeconds(now, days)
  {
    var x := now + (days * SecondsPerDay) as real;
    var f, m := ExpirySeconds(now, days), ExpiryMillis(now, days);
    assert (f * 1000) as real <= x * 1000.0 < (f * 1000 + 1000) as real;
    assert f * 1000 <= m < f * 1000 + 1000;
  }

  /** The trial plans' 0.5 GB is exactly 2^29 bytes. */
  lemma HalfGigabyte()
    ensures CapBytes(0.5) == 536870912.0
  {
  }
}

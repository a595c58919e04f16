/**
 * The few Python string operations the controller relies on, stated over
 * `seq<char>`: `str.startswith` (with a string or a tuple of strings), the
 * substring test `in`, `str.find` for one character, slicing with
 * non-negative bounds, `int(...)` of a decimal literal and `str(...)` of an int.
 */
module PyStr {
  import opened Wrappers

  /** `s.startswith(p)`. */
  predicate StartsWith(s: string, p: string)
  {
    |p| <= |s| && s[..|p|] == p
  }

  /** `s.startswith(ps)` for a tuple `ps`; an empty tuple matches nothing. */
  predicate StartsWithAny(s: string, ps: seq<string>)
    decreases |ps|
  {
    |ps| > 0 && (StartsWith(s, ps[0]) || StartsWithAny(s, ps[1..]))
  }

  lemma {:induction false} StartsWithAnyIff(s: string, ps: seq<string>)
    ensures StartsWithAny(s, ps) <==> exists i :: 0 <= i < |ps| && StartsWith(s, ps[i])
    decreases |ps|
  {
    if |ps| > 0 {
      StartsWithAnyIff(s, ps[1..]);
      if StartsWithAny(s, ps[1..]) {
        var i :| 0 <= i < |ps[1..]| && StartsWith(s, ps[1..][i]);
        assert StartsWith(s, ps[i + 1]);
      }
      if !StartsWith(s, ps[0]) && exists i :: 0 <= i < |ps| && StartsWith(s, ps[i]) {
        var i :| 0 <= i < |ps| && StartsWith(s, ps[i]);
        assert i > 0 && ps[1..][i - 1] == ps[i];
      }
    }
  }

  /** The configured prefix tuple `()` matches no command at all. */
  lemma EmptyPrefixTupleMatchesNothing(s: string)
    ensures !StartsWithAny(s, [])
  {
  }

  /** `sub in s`. */
  predicate Contains(s: string, sub: string)
    decreases |s|
  {
    StartsWith(s, sub) || (|s| > 0 && Contains(s[1..], sub))
  }

  /** `sub` occurs in `s` starting at index `i`. */
  predicate OccursAt(s: string, sub: string, i: int)
  {
    0 <= i <= |s| - |sub| && s[i..i + |sub|] == sub
  }

  lemma {:induction false} ContainsIff(s: string, sub: string)
    ensures Contains(s, sub) <==> exists i :: OccursAt(s, sub, i)
    decreases |s|
  {
    if StartsWith(s, sub) {
      assert OccursAt(s, sub, 0);
    }
    if |s| > 0 {
      ContainsIff(s[1..], sub);
      if Contains(s[1..], sub) {
        var i :| OccursAt(s[1..], sub, i);
        assert s[i + 1..i + 1 + |sub|] == s[1..][i..i + |sub|];
        assert OccursAt(s, sub, i + 1);
      }
      if exists i :: OccursAt(s, sub, i) {
        var i :| OccursAt(s, sub, i);
        if i > 0 {
          assert s[1..][i - 1..i - 1 + |sub|] == s[i..i + |sub|];
          assert OccursAt(s[1..], sub, i - 1);
        } else {
          assert StartsWith(s, sub);
        }
      }
    } else {
      if exists i :: OccursAt(s, sub, i) {
        var i :| OccursAt(s, sub, i);
        assert StartsWith(s, sub);
      }
    }
  }

  /** A string that contains `sub` is at least as long as `sub`. */
  lemma {:induction false} ContainsLength(s: string, sub: string)
    requires Contains(s, sub)
    ensures |sub| <= |s|
    decreases |s|
  {
    if !StartsWith(s, sub) {
      ContainsLength(s[1..], sub);
    }
  }

  /** `s.find(c)`: the first index holding `c`, or -1. */
  function Find(s: string, c: char): (r: int)
    ensures -1 <= r < |s|
    ensures r == -1 <==> c !in s
    ensures r >= 0 ==> s[r] == c && c !in s[..r]
    decreases |s|
  {
    if |s| == 0 then -1
    else if s[0] == c then 0
    else
      var k := Find(s[1..], c);
      assert s[1..] == s[1..|s|];
      if k == -1 then -1
      else
        assert s[..k + 1] == [s[0]] + s[1..][..k];
        k + 1
  }

  /** `s[lo:hi]` for non-negative bounds: out-of-range bounds are clamped. */
  function Slice(s: string, lo: nat, hi: nat): (r: string)
    ensures |r| <= |s|
    ensures lo <= hi <= |s| ==> r == s[lo..hi]
    ensures lo <= |s| < hi ==> r == s[lo..]
    ensures hi <= lo || |s| <= lo ==> r == ""
  {
    var h := if hi <= |s| then hi else |s|;
    if h <= lo then "" else s[lo..h]
  }

  predicate IsDigit(c: char)
  {
    '0' <= c <= '9'
  }

  predicate AllDigits(s: string)
  {
    forall i :: 0 <= i < |s| ==> IsDigit(s[i])
  }

  /** The value of a string of decimal digits, most significant first. */
  function DigitsValue(s: string): nat
    requires AllDigits(s)
    decreases |s|
  {
    if |s| == 0 then 0
    else DigitsValue(s[..|s| - 1]) * 10 + (s[|s| - 1] as int - '0' as int)
  }

  /**
   * `int(s)` for a decimal literal with an optional sign; None is the
   * `ValueError` Python raises for anything else (the empty string included).
   */
  function ParseInt(s: string): (r: Option<int>)
    ensures r.Some? ==> |s| > 0
    ensures r.Some? <==> (|s| > 0 && AllDigits(s)) || (|s| > 1 && (s[0] == '-' || s[0] == '+') && AllDigits(s[1..]))
    ensures |s| > 0 && AllDigits(s) ==> r == Some(DigitsValue(s))
    ensures |s| > 1 && s[0] == '-' && AllDigits(s[1..]) ==> r == Some(-(DigitsValue(s[1..]) as int))
    ensures |s| > 1 && s[0] == '+' && AllDigits(s[1..]) ==> r == Some(DigitsValue(s[1..]) as int)
  {
    if |s| > 1 && (s[0] == '-' || s[0] == '+') && AllDigits(s[1..]) then
      var n: int := DigitsValue(s[1..]);
      Some(if s[0] == '-' then -n else n)
    else if |s| > 0 && AllDigits(s) then Some(DigitsValue(s))
    else None
  }

  function DigitChar(n: nat): (c: char)
    requires n < 10
    ensures IsDigit(c)
  {
    ('0' as int + n) as char
  }

  /** `str(n)` for a natural number. */
  function NatToString(n: nat): (r: string)
    ensures |r| > 0 && AllDigits(r)
  {
    if n < 10 then [DigitChar(n)] else NatToString(n / 10) + [DigitChar(n % 10)]
  }

  /** `str(n)` for any int. */
  function IntToString(n: int): (r: string)
    ensures |r| > 0
  {
    if n < 0 then "-" + NatToString(-n) else NatToString(n)
  }

  lemma {:induction false} NatToStringValue(n: nat)
    ensures DigitsValue(NatToString(n)) == n
  {
    var r := NatToString(n);
    if n >= 10 {
      NatToStringValue(n / 10);
      assert r[..|r| - 1] == NatToString(n / 10);
    }
  }

  /** A leading zero does not change the value of a string of digits. */
  lemma {:induction false} DigitsValueLeadingZero(t: string)
    requires AllDigits(t)
    ensures AllDigits("0" + t) && DigitsValue("0" + t) == DigitsValue(t)
    decreases |t|
  {
    var z := "0" + t;
    assert forall i :: 0 <= i < |z| ==> IsDigit(z[i]) by {
      forall i | 0 <= i < |z|
        ensures IsDigit(z[i])
      {
        if i > 0 {
          assert z[i] == t[i - 1];
        }
      }
    }
    if |t| > 0 {
      var u := t[..|t| - 1];
      assert AllDigits(u) by {
        forall i | 0 <= i < |u|
          ensures IsDigit(u[i])
        {
          assert u[i] == t[i];
        }
      }
      DigitsValueLeadingZero(u);
      assert z[..|z| - 1] == "0" + u;
    }
  }

  /**
   * `int()` ignores leading zeros: "00" reads as 0 and "010" as 10, as in
   * the commands FW00 and FW010.
   */
  lemma LeadingZerosIgnored(t: string)
    requires |t| > 0 && AllDigits(t)
    ensures ParseInt("0" + t) == ParseInt(t)
    ensures ParseInt("00") == Some(0)
  {
    DigitsValueLeadingZero(t);
    DigitsValueLeadingZero("0");
  }

  /** `int(str(n)) == n`: the decimal rendering of an int reads back as the same int. */
  lemma IntToStringRoundTrip(n: int)
    ensures ParseInt(IntToString(n)) == Some(n)
  {
    if n < 0 {
      NatToStringValue(-n);
      assert IntToString(n)[1..] == NatToString(-n);
    } else {
      NatToStringValue(n);
    }
  }
}

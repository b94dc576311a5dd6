/**
 * Small helpers of JobsList.jsx: the role toggle of the job form and the
 * value a CurrencyInput delivers, with the decimal rendering it inverts.
 */
module FormHelpers {
  import opened Wrappers
  import Jobs

  // ---------------------------------------------------------------------------
  // toggleRole
  // ---------------------------------------------------------------------------

  /** `prev.roles.filter((r) => r.id !== id)`. */
  function WithoutId(roles: seq<Jobs.Role>, id: string): (r: seq<Jobs.Role>)
    ensures forall x :: x in r <==> x in roles && x.id != id
    ensures |r| <= |roles|
  {
    if roles == [] then []
    else if roles[0].id == id then WithoutId(roles[1..], id)
    else [roles[0]] + WithoutId(roles[1..], id)
  }

  /** `filter` role by role: the kept roles appear once each, in their order. */
  lemma {:induction false} WithoutIdConcat(a: seq<Jobs.Role>, b: seq<Jobs.Role>, id: string)
    ensures WithoutId(a + b, id) == WithoutId(a, id) + WithoutId(b, id)
  {
    if a == [] {
      assert a + b == b;
    } else {
      assert (a + b)[1..] == a[1..] + b;
      WithoutIdConcat(a[1..], b, id);
    }
  }

  /** A single role is kept as it is, or dropped. */
  lemma WithoutIdSingle(x: Jobs.Role, id: string)
    ensures WithoutId([x], id) == (if x.id != id then [x] else [])
  {
  }


  predicate HasId(roles: seq<Jobs.Role>, id: string) {
    exists x :: x in roles && x.id == id
  }

  /** Removes every role with the toggled role's id when one is selected, otherwise appends the role. */
  function ToggleRole(roles: seq<Jobs.Role>, role: Jobs.Role): (r: seq<Jobs.Role>)
    ensures HasId(roles, role.id) ==> r == WithoutId(roles, role.id) && !HasId(r, role.id)
    ensures !HasId(roles, role.id) ==> r == roles + [role] && HasId(r, role.id)
  {
    if HasId(roles, role.id) then WithoutId(roles, role.id) else roles + [role]
  }

  /** A list without the id keeps every role under the filter. */
  lemma {:induction false} WithoutAbsentId(roles: seq<Jobs.Role>, id: string)
    requires !HasId(roles, id)
    ensures WithoutId(roles, id) == roles
  {
    if roles != [] {
      assert roles[0] in roles;
      assert !HasId(roles[1..], id) by {
        forall x | x in roles[1..]
          ensures x.id != id
        {
          assert x in roles;
        }
      }
      WithoutAbsentId(roles[1..], id);
    }
  }

  /** Toggling a role that was not selected, and toggling it again, gives back the original list. */
  lemma ToggleTwiceRestores(roles: seq<Jobs.Role>, role: Jobs.Role)
    requires !HasId(roles, role.id)
    ensures ToggleRole(ToggleRole(roles, role), role) == roles
  {
    var once := roles + [role];
    assert once[|roles|] == role;
    assert forall x :: x in roles ==> x.id != role.id;
    assert WithoutId(once, role.id) == roles by {
      WithoutIdAppend(roles, role, role.id);
      WithoutAbsentId(roles, role.id);
    }
  }

  lemma {:induction false} WithoutIdAppend(roles: seq<Jobs.Role>, last: Jobs.Role, id: string)
    requires last.id == id
    ensures WithoutId(roles + [last], id) == WithoutId(roles, id)
  {
    if roles == [] {
      assert [] + [last] == [last];
    } else {
      assert (roles + [last])[1..] == roles[1..] + [last];
      WithoutIdAppend(roles[1..], last, id);
    }
  }

  // ---------------------------------------------------------------------------
  // CurrencyInput.handleChange
  // ---------------------------------------------------------------------------

  predicate IsDigit(c: char) {
    '0' <= c <= '9'
  }

  /** `input.replace(/[^\d.,]/g, '')`: digits and the two separators survive. */
  function Cleaned(s: string): (r: string)
    ensures forall i :: 0 <= i < |r| ==> IsDigit(r[i]) || r[i] == '.' || r[i] == ','
    ensures |r| <= |s|
  {
    if s == [] then []
    else if IsDigit(s[0]) || s[0] == '.' || s[0] == ',' then [s[0]] + Cleaned(s[1..])
    else Cleaned(s[1..])
  }

  /** `cleaned.replace(/[^\d]/g, '')`: only the digits, in order. */
  function DigitsOnly(s: string): (r: string)
    ensures forall i :: 0 <= i < |r| ==> IsDigit(r[i])
    ensures |r| <= |s|
  {
    if s == [] then []
    else if IsDigit(s[0]) then [s[0]] + DigitsOnly(s[1..])
    else DigitsOnly(s[1..])
  }

  /** `Number(digits)` for a string of decimal digits. */
  function DigitsValue(ds: string): nat
    requires forall i :: 0 <= i < |ds| ==> IsDigit(ds[i])
  {
    if ds == [] then 0
    else
      assert IsDigit(ds[|ds| - 1]);
      DigitsValue(ds[..|ds| - 1]) * 10 + (ds[|ds| - 1] as int - '0' as int)
  }

  /** What the input hands its parent: a whole number, or blank (`''`) when no digit was typed. */
  function CurrencyValue(input: string): (v: Option<nat>)
    ensures v.None? <==> DigitsOnly(Cleaned(input)) == []
  {
    var numericOnly := DigitsOnly(Cleaned(input));
    if numericOnly == [] then None else Some(DigitsValue(numericOnly))
  }

  /** The first cleaning step keeps every digit, so the value is the digits of the raw input. */
  lemma {:induction false} CleaningKeepsDigits(s: string)
    ensures DigitsOnly(Cleaned(s)) == DigitsOnly(s)
  {
    if s != [] {
      CleaningKeepsDigits(s[1..]);
      if IsDigit(s[0]) || s[0] == '.' || s[0] == ',' {
        assert ([s[0]] + Cleaned(s[1..]))[1..] == Cleaned(s[1..]);
      }
    }
  }

  /** Extraction works piecewise over a concatenation. */
  lemma {:induction false} DigitsOnlyAppend(a: string, b: string)
    ensures DigitsOnly(a + b) == DigitsOnly(a) + DigitsOnly(b)
  {
    if a == [] {
      assert [] + b == b;
    } else {
      assert (a + b)[1..] == a[1..] + b;
      DigitsOnlyAppend(a[1..], b);
    }
  }

  /** The decimal digits of a whole number, without leading zeros ("0" for zero). */
  function NatToDigits(n: nat): (ds: string)
    ensures forall i :: 0 <= i < |ds| ==> IsDigit(ds[i])
    ensures |ds| >= 1
  {
    if n < 10 then [('0' as int + n) as char]
    else NatToDigits(n / 10) + [('0' as int + n % 10) as char]
  }

  /** Reading back the digits of a number gives the number. */
  lemma {:induction false} DigitsRoundTrip(n: nat)
    ensures DigitsValue(NatToDigits(n)) == n
  {
    var ds := NatToDigits(n);
    if n >= 10 {
      DigitsRoundTrip(n / 10);
      assert ds[..|ds| - 1] == NatToDigits(n / 10);
      assert ds[|ds| - 1] as int - '0' as int == n % 10;
    }
  }

  /** A separator between two runs of digits is dropped and the runs are joined. */
  lemma SeparatorDropped(a: string, b: string)
    requires forall i :: 0 <= i < |a| ==> IsDigit(a[i])
    requires forall i :: 0 <= i < |b| ==> IsDigit(b[i])
    ensures DigitsOnly(a + "." + b) == a + b
  {
    var sep := ".";
    assert DigitsOnly(sep[1..]) == [];
    assert DigitsOnly(sep) == [];
    DigitsOnlyAppend(a, sep);
    AllDigitsKept(a);
    assert DigitsOnly(a + sep) == a;
    DigitsOnlyAppend(a + sep, b);
    AllDigitsKept(b);
  }

  /** Typing a number's digits, with a thousands separator anywhere in between, delivers that number. */
  lemma CurrencyValueOfFormatted(n: nat, k: nat)
    requires k <= |NatToDigits(n)|
    ensures CurrencyValue(NatToDigits(n)[..k] + "." + NatToDigits(n)[k..]) == Some(n)
  {
    var ds := NatToDigits(n);
    var typed := ds[..k] + "." + ds[k..];
    CleaningKeepsDigits(typed);
    SeparatorDropped(ds[..k], ds[k..]);
    assert ds[..k] + ds[k..] == ds;
    DigitsRoundTrip(n);
  }

  lemma {:induction false} AllDigitsKept(s: string)
    requires forall i :: 0 <= i < |s| ==> IsDigit(s[i])
    ensures DigitsOnly(s) == s
  {
    if s != [] {
      AllDigitsKept(s[1..]);
    }
  }

  /** `${n}` for an integer, with a leading minus sign when negative. */
  function IntToText(n: int): (t: string)
    ensures n >= 0 ==> t == NatToDigits(n)
    ensures n < 0 ==> t == "-" + NatToDigits(-n)
  {
    if n >= 0 then NatToDigits(n) else "-" + NatToDigits(-n)
  }
}

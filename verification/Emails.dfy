/** The notification addresses: the entries notification-email-0, notification-email-1, ... up to the first gap. */
module Emails {

  const DIGITS := "0123456789"

  /** The decimal notation of `n`, as %v prints it. */
  function Decimal(n: nat): (d: string)
    ensures |d| >= 1 && (|d| == 1 <==> n < 10)
  {
    if n < 10 then [DIGITS[n]] else Decimal(n / 10) + [DIGITS[n % 10]]
  }

  lemma DigitsDiffer(a: nat, b: nat)
    requires a < 10 && b < 10 && DIGITS[a] == DIGITS[b]
    ensures a == b
  {
  }

  lemma {:induction false} DecimalInjective(a: nat, b: nat)
    requires Decimal(a) == Decimal(b)
    ensures a == b
  {
    var da, db := Decimal(a), Decimal(b);
    if a < 10 {
      assert b < 10;
      assert da[0] == DIGITS[a] && db[0] == DIGITS[b];
      DigitsDiffer(a, b);
    } else {
      assert b >= 10;
      assert da[..|da| - 1] == Decimal(a / 10) && db[..|db| - 1] == Decimal(b / 10);
      DecimalInjective(a / 10, b / 10);
      assert da[|da| - 1] == DIGITS[a % 10] && db[|db| - 1] == DIGITS[b % 10];
      DigitsDiffer(a % 10, b % 10);
    }
  }

  const EMAIL_PREFIX := "notification-email-"

  function EmailKey(i: nat): string {
    EMAIL_PREFIX + Decimal(i)
  }

  lemma EmailKeyInjective(i: nat, j: nat)
    requires EmailKey(i) == EmailKey(j)
    ensures i == j
  {
    assert EmailKey(i)[|EMAIL_PREFIX|..] == Decimal(i);
    assert EmailKey(j)[|EMAIL_PREFIX|..] == Decimal(j);
    DecimalInjective(i, j);
  }

  // Reading the keys back

  predicate Digit(c: char) {
    '0' <= c <= '9'
  }

  /** Decimal digits without a leading zero. */
  predicate Numeral(d: string) {
    d != "" && (forall i :: 0 <= i < |d| ==> Digit(d[i])) && (|d| > 1 ==> d[0] != '0')
  }

  /** The number that decimal digits stand for. */
  function ValueOf(d: string): nat
    requires forall i :: 0 <= i < |d| ==> Digit(d[i])
  {
    if d == "" then 0 else assert Digit(d[|d| - 1]); 10 * ValueOf(d[..|d| - 1]) + (d[|d| - 1] as int - '0' as int)
  }

  /** `key` is the one under which the address of index `i` is looked up. */
  predicate AddressKey(key: string, i: nat) {
    |key| > 19 && key[..19] == "notification-email-" && Numeral(key[19..]) && ValueOf(key[19..]) == i
  }

  lemma DigitIs(n: nat)
    requires n < 10
    ensures Digit(DIGITS[n]) && DIGITS[n] as int - '0' as int == n && (n > 0 ==> DIGITS[n] != '0')
  {
  }

  lemma {:induction false} DecimalReads(n: nat)
    ensures Numeral(Decimal(n)) && ValueOf(Decimal(n)) == n && (n > 0 ==> Decimal(n)[0] != '0')
  {
    var d := Decimal(n);
    DigitIs(n % 10);
    if n < 10 {
      assert d[..0] == "" && ValueOf(d[..0]) == 0;
    } else {
      DecimalReads(n / 10);
      assert d[..|d| - 1] == Decimal(n / 10);
    }
  }

  lemma SameDigit(c: char, v: nat)
    requires Digit(c) && v == c as int - '0' as int
    ensures v < 10 && DIGITS[v] == c && (c != '0' ==> v > 0)
  {
    DigitIs(v);
  }

  lemma DecimalOneMore(f: nat, v: nat)
    requires f > 0 && v < 10
    ensures Decimal(10 * f + v) == Decimal(f) + [DIGITS[v]]
  {
    assert (10 * f + v) / 10 == f && (10 * f + v) % 10 == v;
  }

  lemma EmptyIsNothing(d: string)
    requires d == ""
    ensures ValueOf(d) == 0
  {
  }

  lemma ValueOneMore(d: string, v: nat)
    requires (forall i :: 0 <= i < |d| ==> Digit(d[i])) && d != "" && v == d[|d| - 1] as int - '0' as int
    ensures ValueOf(d) == 10 * ValueOf(d[..|d| - 1]) + v
  {
  }

  /** A numeral is the notation of its value. */
  lemma {:induction false} NumeralIsDecimal(d: string)
    requires Numeral(d)
    ensures Decimal(ValueOf(d)) == d && (d[0] != '0' ==> ValueOf(d) > 0)
  {
    assert Digit(d[|d| - 1]);
    var v := d[|d| - 1] as int - '0' as int;
    var front := d[..|d| - 1];
    SameDigit(d[|d| - 1], v);
    ValueOneMore(d, v);
    hide ValueOf;
    assert d == front + [d[|d| - 1]];
    if |d| == 1 {
      EmptyIsNothing(front);
    } else {
      NumeralIsDecimal(front);
      DecimalOneMore(ValueOf(front), v);
    }
  }

  /** The keys of the operator's loop are those, and no others. */
  lemma AddressKeyIs(key: string, i: nat)
    ensures AddressKey(key, i) <==> key == EmailKey(i)
  {
    assert |EMAIL_PREFIX| == 19 && EmailKey(i)[19..] == Decimal(i);
    DecimalReads(i);
    if AddressKey(key, i) {
      NumeralIsDecimal(key[19..]);
      assert key == key[..19] + key[19..];
    }
  }

  /** The addresses in `params` at 0, 1, ... up to the first index that has none. */
  ghost predicate AddressList(params: map<string, string>, addresses: seq<string>) {
    && (forall i :: 0 <= i < |addresses| ==> exists key :: AddressKey(key, i) && key in params && params[key] == addresses[i])
    && (forall key :: AddressKey(key, |addresses|) ==> key !in params)
  }

  lemma FirstKeyIs()
    ensures EmailKey(0) == "notification-email-0"
  {
    assert Decimal(0) == "0";
  }

  /** What the loop collects is that list; it is empty exactly if there is no address at 0. */
  lemma AddressesAreListed(params: map<string, string>)
    ensures AddressList(params, Addresses(params, 0))
    ensures Addresses(params, 0) == [] <==> "notification-email-0" !in params
  {
    hide EmailKey, AddressKey, Addresses;
    var a := Addresses(params, 0);
    AddressesUpToFirstGap(params, 0);
    FirstKeyIs();
    forall i | 0 <= i < |a| ensures exists key :: AddressKey(key, i) && key in params && params[key] == a[i] {
      var key := EmailKey(i);
      AddressKeyIs(key, i);
      assert AddressKey(key, i) && key in params && params[key] == a[i];
    }
    forall key | AddressKey(key, |a|) ensures key !in params {
      AddressKeyIs(key, |a|);
      assert key == EmailKey(|a|);
    }
    assert a != [] ==> EmailKey(0) in params;
  }

  ghost function FirstKeys(n: nat): set<string> {
    set i | 0 <= i < n :: EmailKey(i)
  }

  lemma {:induction false} FirstKeysCount(n: nat)
    ensures |FirstKeys(n)| == n
  {
    if n > 0 {
      FirstKeysCount(n - 1);
      if EmailKey(n - 1) in FirstKeys(n - 1) {
        var i :| 0 <= i < n - 1 && EmailKey(i) == EmailKey(n - 1);
        EmailKeyInjective(i, n - 1);
      }
      assert FirstKeys(n) == FirstKeys(n - 1) + {EmailKey(n - 1)};
    }
  }

  /** No more consecutive addresses than parameters: this is what makes the unbounded loop of the operator end. */
  lemma AddressesBounded(params: map<string, string>, n: nat)
    requires forall i :: 0 <= i < n ==> EmailKey(i) in params
    ensures n <= |params|
  {
    FirstKeysCount(n);
    assert FirstKeys(n) <= params.Keys;
    SubsetSize(FirstKeys(n), params.Keys);
  }

  lemma {:induction false} SubsetSize(a: set<string>, b: set<string>)
    requires a <= b
    ensures |a| <= |b|
  {
    if a != {} {
      var x :| x in a;
      SubsetSize(a - {x}, b - {x});
    }
  }

  /** The addresses from index `from` on, up to the first missing one. */
  function Addresses(params: map<string, string>, from: nat): seq<string>
    requires forall i :: 0 <= i < from ==> EmailKey(i) in params
    decreases |params| - from
  {
    if EmailKey(from) in params then
      AddressesBounded(params, from + 1);
      [params[EmailKey(from)]] + Addresses(params, from + 1)
    else []
  }

  /** The addresses are, in order, those at 0 .. n-1, where n is the least index that has none. */
  lemma {:induction false} AddressesUpToFirstGap(params: map<string, string>, from: nat)
    requires forall i :: 0 <= i < from ==> EmailKey(i) in params
    ensures var a := Addresses(params, from);
      && EmailKey(from + |a|) !in params
      && (forall i :: from <= i < from + |a| ==> EmailKey(i) in params && a[i - from] == params[EmailKey(i)])
      && from + |a| <= |params|
    decreases |params| - from
  {
    AddressesBounded(params, from);
    if EmailKey(from) in params {
      AddressesBounded(params, from + 1);
      AddressesUpToFirstGap(params, from + 1);
      var a, rest := Addresses(params, from), Addresses(params, from + 1);
      assert a == [params[EmailKey(from)]] + rest;
    }
  }

  lemma NextAddress(params: map<string, string>, taken: seq<string>, i: nat)
    requires forall k :: 0 <= k < i ==> EmailKey(k) in params
    requires EmailKey(i) in params
    ensures i < |params|
    ensures taken + Addresses(params, i) == (taken + [params[EmailKey(i)]]) + Addresses(params, i + 1)
  {
    AddressesBounded(params, i + 1);
    hide EmailKey;
    assert Addresses(params, i) == [params[EmailKey(i)]] + Addresses(params, i + 1);
  }

  lemma NoNextAddress(params: map<string, string>, taken: seq<string>, i: nat)
    requires forall k :: 0 <= k < i ==> EmailKey(k) in params
    requires EmailKey(i) !in params
    ensures taken + Addresses(params, i) == taken && i <= |params|
  {
    AddressesBounded(params, i);
    assert taken + [] == taken;
  }

  /** The operator's loop: it stops at the first missing key, after at most |params| + 1 lookups. */
  method CollectAddresses(params: map<string, string>) returns (addresses: seq<string>, lookups: nat)
    ensures addresses == Addresses(params, 0) && AddressList(params, addresses)
    ensures lookups == |addresses| + 1 <= |params| + 1
  {
    hide EmailKey, Addresses, AddressList;
    AddressesAreListed(params);
    addresses := [];
    lookups := 0;
    var i := 0;
    assert addresses + Addresses(params, 0) == Addresses(params, 0);
    while true
      invariant i == |addresses| == lookups
      invariant forall k :: 0 <= k < i ==> EmailKey(k) in params
      invariant addresses + Addresses(params, i) == Addresses(params, 0)
      decreases |params| - i
    {
      lookups := lookups + 1;
      var alertingAddressKey := EmailKey(i);
      if alertingAddressKey !in params {
        NoNextAddress(params, addresses, i);
        break;
      }
      NextAddress(params, addresses, i);
      addresses := addresses + [params[alertingAddressKey]];
      i := i + 1;
    }
  }
}

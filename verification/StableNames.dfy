/** Stable application names: base, index and replica in decimal, separated by dashes. */
module StableNames {

  function Digit(d: nat): char
    requires d < 10
  {
    "0123456789"[d]
  }

  /** Decimal printing. */
  function Decimal(n: nat): string {
    if n < 10 then [Digit(n)] else Decimal(n / 10) + [Digit(n % 10)]
  }

  function DigitValue(c: char): nat {
    if '0' <= c <= '9' then (c - '0') as nat else 0
  }

  function Value(s: string): nat {
    if s == [] then 0 else 10 * Value(s[..|s| - 1]) + DigitValue(s[|s| - 1])
  }

  lemma DigitRoundTrip(d: nat)
    requires d < 10
    ensures DigitValue(Digit(d)) == d && '0' <= Digit(d) <= '9'
  {
  }

  lemma {:induction false} DecimalRoundTrip(n: nat)
    ensures Value(Decimal(n)) == n
    ensures Decimal(n) != [] && forall i :: 0 <= i < |Decimal(n)| ==> '0' <= Decimal(n)[i] <= '9'
  {
    DigitRoundTrip(n % 10);
    if n < 10 {
      assert Decimal(n)[..0] == [];
    } else {
      DecimalRoundTrip(n / 10);
      assert Decimal(n)[..|Decimal(n)| - 1] == Decimal(n / 10);
    }
  }

  function StringDefault(s: string, def: string): string {
    if s != "" then s else def
  }

  function StableIdentifier(index: nat, replica: nat): string {
    Decimal(index) + "-" + Decimal(replica)
  }

  /** The name of a replica of the application at an index of a namespace. */
  function AppName(base: string, waypoint: bool, index: nat, replica: nat): string {
    StringDefault(base, "app") + "-" + if waypoint then "static" else StableIdentifier(index, replica)
  }

  predicate DashFree(s: string) {
    forall i :: 0 <= i < |s| ==> s[i] != '-'
  }

  /** What follows the last dash is determined. */
  lemma LastDash(x: string, d: string, y: string, e: string)
    requires x + "-" + d == y + "-" + e && DashFree(d) && DashFree(e)
    ensures x == y && d == e
  {
    var s := x + "-" + d;
    assert s[|x|] == '-' && s[|y|] == '-';
    assert forall i :: |x| < i < |s| ==> s[i] == d[i - |x| - 1];
    assert forall i :: |y| < i < |s| ==> s[i] == e[i - |y| - 1];
    assert s[..|x|] == x && s[..|y|] == y;
    assert s[|x| + 1..] == d && s[|y| + 1..] == e;
  }

  lemma DecimalDashFree(n: nat)
    ensures DashFree(Decimal(n))
  {
    DecimalRoundTrip(n);
  }

  /** Whatever the base names, applications at different places get different names. */
  lemma NamesDistinct(base: string, index: nat, replica: nat, base': string, index': nat, replica': nat)
    requires AppName(base, false, index, replica) == AppName(base', false, index', replica')
    ensures index == index' && replica == replica'
  {
    var x, y := StringDefault(base, "app") + "-" + Decimal(index), StringDefault(base', "app") + "-" + Decimal(index');
    assert AppName(base, false, index, replica) == x + "-" + Decimal(replica);
    assert AppName(base', false, index', replica') == y + "-" + Decimal(replica');
    DecimalDashFree(replica);
    DecimalDashFree(replica');
    LastDash(x, Decimal(replica), y, Decimal(replica'));
    DecimalDashFree(index);
    DecimalDashFree(index');
    LastDash(StringDefault(base, "app"), Decimal(index), StringDefault(base', "app"), Decimal(index'));
    DecimalRoundTrip(index);
    DecimalRoundTrip(index');
    DecimalRoundTrip(replica);
    DecimalRoundTrip(replica');
  }

  /** And never the name of a waypoint. */
  lemma NotAWaypointName(base: string, index: nat, replica: nat, waypoint: string, index': nat, replica': nat)
    ensures AppName(base, false, index, replica) != AppName(waypoint, true, index', replica')
  {
    var x := StringDefault(base, "app") + "-" + Decimal(index);
    assert AppName(base, false, index, replica) == x + "-" + Decimal(replica);
    DecimalDashFree(replica);
    DecimalRoundTrip(replica);
    assert Decimal(replica) != "static" by {
      assert "static"[0] == 's';
    }
    if AppName(base, false, index, replica) == AppName(waypoint, true, index', replica') {
      LastDash(x, Decimal(replica), StringDefault(waypoint, "app"), "static");
    }
  }

  /** A number as it is usually written. */
  ghost predicate Spells(d: string, n: nat) {
    && d != [] && (forall i :: 0 <= i < |d| ==> '0' <= d[i] <= '9') && (d[0] == '0' ==> d == "0")
    && Value(d) == n
  }

  lemma {:induction false} DecimalSpells(n: nat)
    ensures Spells(Decimal(n), n)
  {
    DecimalRoundTrip(n);
    if n >= 10 {
      var tens := n / 10;
      DecimalSpells(tens);
      assert Decimal(n)[0] == Decimal(tens)[0];
      ZeroIsZero();
    }
  }

  lemma ZeroIsZero()
    ensures Value("0") == 0
  {
    assert "0"[..0] == [];
  }

  /** Reading a number is base ten: one more digit on the right. */
  lemma ValueOfDigits(s: string, c: char)
    requires '0' <= c <= '9'
    ensures Value([]) == 0 && Value(s + [c]) == 10 * Value(s) + (c - '0') as nat
  {
    assert (s + [c])[..|s|] == s;
  }

  /** The name is the base, or app, with index and replica spelled out, or static for a waypoint. */
  lemma NameSpelled(base: string, index: nat, replica: nat) returns (d: string, e: string)
    ensures Spells(d, index) && Spells(e, replica)
    ensures AppName(base, false, index, replica) == (if base == "" then "app" else base) + "-" + d + "-" + e
    ensures AppName(base, true, index, replica) == (if base == "" then "app" else base) + "-" + "static"
  {
    d, e := Decimal(index), Decimal(replica);
    DecimalSpells(index);
    DecimalSpells(replica);
    var b := StringDefault(base, "app");
    assert b + "-" + (d + "-" + e) == b + "-" + d + "-" + e;
  }
}

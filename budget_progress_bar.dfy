/**
 * The budget progress card: the colour palette chosen by name, and the
 * "remaining" text, which for savings repeats the saved amount and otherwise
 * subtracts the used amount from the allocated one, both read back from
 * their display strings by keeping only their digits.
 */
module BudgetProgressBar {
  import opened Common
  import opened Text

  datatype Palette = Palette(bg: string, text: string, light: string)

  const Blue := Palette("bg-blue-500", "text-blue-600", "bg-blue-50")
  const Purple := Palette("bg-purple-500", "text-purple-600", "bg-purple-50")
  const Green := Palette("bg-green-500", "text-green-600", "bg-green-50")

  /** The `colors` table. */
  function Colors(color: string): Option<Palette> {
    if color == "blue" then Some(Blue)
    else if color == "purple" then Some(Purple)
    else if color == "green" then Some(Green)
    else None
  }

  /** `colors[color] ?? colors.blue` */
  function PaletteFor(color: string): (p: Palette)
    ensures Colors(color).Some? ==> p == Colors(color).value
    ensures Colors(color).None? ==> p == Blue
    ensures p == Blue || p == Purple || p == Green
  {
    Colors(color).GetOr(Blue)
  }

  /** `parseInt(s.replace(/[^\d]/g, ""))`: the number the digits of s spell, or nothing (NaN) when s has none. */
  function StripInt(s: string): (r: Option<nat>)
    ensures r.None? <==> DigitsOf(s) == []
    ensures r.Some? ==> r.value == Value(DigitsOf(s))
  {
    var d := DigitsOf(s);
    if d == [] then None else Some(Value(d))
  }

  /** The `remaining` text. A missing number makes the difference NaN, which prints as "NaN". */
  function Remaining(amount: string, used: string, kind: string): (r: string)
    ensures kind == "savings" ==> r == used
    ensures kind != "savings" && StripInt(amount).Some? && StripInt(used).Some? ==>
              r == "Rp" + IdLocale(StripInt(amount).value - StripInt(used).value)
    ensures kind != "savings" && (StripInt(amount).None? || StripInt(used).None?) ==> r == "RpNaN"
  {
    var a, u := StripInt(amount), StripInt(used);
    if kind == "savings" then used
    else if a.Some? && u.Some? then "Rp" + IdLocale(a.value as int - u.value as int)
    else "RpNaN"
  }

  /** How the cards show an amount: "Rp" and the id-ID grouping of the number. */
  function Rupiah(n: int): string {
    "Rp" + IdLocale(n)
  }

  /** Stripping the digits of a displayed amount gives the amount back. */
  lemma StripRupiah(n: nat)
    ensures StripInt(Rupiah(n)) == Some(n)
  {
    var g := Grouped(n);
    assert Rupiah(n) == "Rp" + g;
    DigitsOfAppend("Rp", g);
    PrefixHasNoDigits();
    assert DigitsOf(Rupiah(n)) == DigitsOf(g);
    GroupedValue(n);
    GroupedNonEmptyDigits(n);
  }

  lemma PrefixHasNoDigits()
    ensures DigitsOf("Rp") == []
  {
    assert "Rp"[1..] == "p";
    assert "p"[1..] == [];
  }

  lemma {:induction false} GroupedNonEmptyDigits(n: nat)
    ensures DigitsOf(Grouped(n)) != []
  {
    if n < 1000 {
      DigitsOfDigits(Decimal(n));
    } else {
      var rest := "." + PadStart(Decimal(n % 1000), 3, '0');
      assert Grouped(n) == Grouped(n / 1000) + rest;
      GroupedNonEmptyDigits(n / 1000);
      DigitsOfAppend(Grouped(n / 1000), rest);
    }
  }

  /** For amounts the cards display, the remaining text is the displayed difference of the two. */
  lemma RemainingOfDisplayed(allotted: nat, used: nat, kind: string)
    requires kind != "savings"
    ensures Remaining(Rupiah(allotted), Rupiah(used), kind) == Rupiah(allotted - used)
  {
    StripRupiah(allotted);
    StripRupiah(used);
  }

  /** The dashboard's needs card: "Rp6.250.000" reads as 6 250 000, and with "Rp4.850.000" used 1 400 000 remain. */
  lemma SampleNeedsCard()
    ensures StripInt("Rp6.250.000") == Some(6_250_000)
    ensures Remaining("Rp6.250.000", "Rp4.850.000", "needs") == Rupiah(1_400_000)
  {
    SampleAllotted();
    SampleUsed();
  }

  lemma SampleAllotted()
    ensures StripInt("Rp6.250.000") == Some(6_250_000)
  {
    assert "Rp6.250.000" == "Rp" + "6" + "." + "250" + "." + "000";
    Value3("250");
    Value3("000");
    SampleDigits("Rp6.250.000", "6", "250", "000", 6_250_000);
  }

  lemma SampleUsed()
    ensures StripInt("Rp4.850.000") == Some(4_850_000)
  {
    assert "Rp4.850.000" == "Rp" + "4" + "." + "850" + "." + "000";
    Value3("850");
    Value3("000");
    SampleDigits("Rp4.850.000", "4", "850", "000", 4_850_000);
  }

  lemma Value3(s: string)
    requires |s| == 3 && AllDigits(s)
    ensures Value(s) == (s[0] as int - '0' as int) * 100 + (s[1] as int - '0' as int) * 10 + (s[2] as int - '0' as int)
  {
    var p := s[..2];
    assert p[..1] == [s[0]] && p[1] == s[1];
    assert [s[0]][..0] == [];
    assert Value([s[0]]) == s[0] as int - '0' as int;
    assert Value(p) == Value([s[0]]) * 10 + (s[1] as int - '0' as int);
  }

  lemma SampleDigits(s: string, h: string, m: string, l: string, n: nat)
    requires s == "Rp" + h + "." + m + "." + l
    requires |h| == 1 && |m| == 3 && |l| == 3
    requires AllDigits(h) && AllDigits(m) && AllDigits(l)
    requires n == Value(h) * 1_000_000 + Value(m) * 1000 + Value(l)
    ensures StripInt(s) == Some(n)
  {
    var d := h + m + l;
    assert DigitsOf(s) == d by {
      StripDotted(h, m, l);
    }
    assert Value(d) == n by {
      ThreeDigits(h, m, l);
    }
  }

  /** The digits of "Rp" h "." m "." l are h m l. */
  lemma StripDotted(h: string, m: string, l: string)
    requires AllDigits(h) && AllDigits(m) && AllDigits(l)
    ensures DigitsOf("Rp" + h + "." + m + "." + l) == h + m + l
  {
    var a1 := "Rp" + h;
    var a2 := a1 + ".";
    var a3 := a2 + m;
    var a4 := a3 + ".";
    PrefixHasNoDigits();
    DotHasNoDigits();
    DigitsOfDigits(h);
    DigitsOfDigits(m);
    DigitsOfDigits(l);
    DigitsOfAppend("Rp", h);
    assert DigitsOf(a1) == h;
    DigitsOfAppend(a1, ".");
    assert DigitsOf(a2) == h;
    DigitsOfAppend(a2, m);
    assert DigitsOf(a3) == h + m;
    DigitsOfAppend(a3, ".");
    assert DigitsOf(a4) == h + m;
    DigitsOfAppend(a4, l);
  }

  lemma DotHasNoDigits()
    ensures DigitsOf(".") == []
  {
    assert "."[1..] == [];
  }

  lemma ThreeDigits(h: string, m: string, l: string)
    requires |h| == 1 && |m| == 3 && |l| == 3
    requires AllDigits(h) && AllDigits(m) && AllDigits(l)
    ensures AllDigits(h + m + l)
    ensures Value(h + m + l) == Value(h) * 1_000_000 + Value(m) * 1000 + Value(l)
  {
    ValueAppend(h, m);
    ValueAppend(h + m, l);
    assert Pow10(3) == 1000;
  }
}

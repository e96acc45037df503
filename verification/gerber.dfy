/** The string helpers of dxfgerber.py: the output file name derived from
    the input name, and the markers around the ENTITIES section. */
module Gerber {
  import opened Wrappers

  predicate IsDigit(c: char) { '0' <= c <= '9' }

  predicate AllDigits(s: string) { forall i :: 0 <= i < |s| ==> IsDigit(s[i]) }

  predicate EndsWith(s: string, suffix: string) {
    |suffix| <= |s| && s[|s| - |suffix|..] == suffix
  }

  /** s.rstrip('0123456789'): s without its trailing decimal digits. */
  function StripDigits(s: string): (r: string)
    ensures |r| <= |s| && s == r + s[|r|..]
    ensures AllDigits(s[|r|..])
    ensures r == [] || !IsDigit(r[|r| - 1])
  {
    if s != [] && IsDigit(s[|s| - 1]) then
      var r := StripDigits(s[..|s| - 1]);
      assert s == s[..|s| - 1] + [s[|s| - 1]];
      r
    else s
  }

  /** int(s) for a string of decimal digits (leading zeros allowed). */
  function DigitsValue(s: string): nat
    requires AllDigits(s)
  {
    if s == [] then 0 else DigitsValue(s[..|s| - 1]) * 10 + (s[|s| - 1] as int - '0' as int)
  }

  /** str(n): the decimal form of n, without leading zeros. */
  function Decimal(n: nat): (r: string)
    ensures |r| >= 1 && AllDigits(r)
    ensures r[0] != '0' || n == 0
  {
    var d := ['0' + (n % 10) as char];
    if n < 10 then d else Decimal(n / 10) + d
  }

  /** Reading back the decimal form gives the number. */
  lemma {:induction false} DecimalRoundTrip(n: nat)
    ensures DigitsValue(Decimal(n)) == n
  {
    var d := ['0' + (n % 10) as char];
    if n >= 10 {
      DecimalRoundTrip(n / 10);
      assert Decimal(n)[..|Decimal(n)| - 1] == Decimal(n / 10);
    }
  }

  /** newname: the output name for input `oldname`. The name must end in
      ".dxf" or ".DXF" and have something before that; trailing digits of
      the base are read as a number and replaced by that number plus one,
      and a base without them gets 1. The extension becomes ".dxf". */
  function NewName(oldname: string): (r: Result<string>)
    ensures r.Success? ==> EndsWith(r.value, ".dxf") && |r.value| > 4
    ensures r.Failure? ==> r.error == "probably not a DXF file!" || r.error == "zero-length file name!"
  {
    if !(EndsWith(oldname, ".dxf") || EndsWith(oldname, ".DXF")) then
      Failure("probably not a DXF file!")
    else
      var oldbase := oldname[..|oldname| - 4];
      if |oldbase| == 0 then Failure("zero-length file name!")
      else
        var newbase := StripDigits(oldbase);
        var dstr := oldbase[|newbase|..];
        var num := if |dstr| > 0 then DigitsValue(dstr) + 1 else 1;
        Success(newbase + Decimal(num) + ".dxf")
  }

  /** The name without its four-character extension. */
  function Base(name: string): string
    requires |name| >= 4
  {
    name[..|name| - 4]
  }

  /** The base without its trailing digits: what newname keeps. */
  function Stem(name: string): string
    requires |name| >= 4
  {
    StripDigits(Base(name))
  }

  /** The number the base ends in, or 0 when it ends in no digit. */
  function Counter(name: string): nat
    requires |name| >= 4
  {
    var digits := Base(name)[|Stem(name)|..];
    if digits == [] then 0 else DigitsValue(digits)
  }

  /** newname fails exactly when the extension is neither ".dxf" nor ".DXF"
      (so ".Dxf" is refused too), or nothing precedes it; each failure
      carries its own message. */
  lemma NewNameFails(oldname: string)
    ensures (NewName(oldname) == Failure("probably not a DXF file!")) <==>
            !(EndsWith(oldname, ".dxf") || EndsWith(oldname, ".DXF"))
    ensures (NewName(oldname) == Failure("zero-length file name!")) <==>
            (oldname == ".dxf" || oldname == ".DXF")
    ensures NewName(oldname).Success? <==>
            (EndsWith(oldname, ".dxf") || EndsWith(oldname, ".DXF")) && |oldname| > 4
  {
  }

  /** Digits appended to a string that does not end in a digit are exactly
      what rstrip removes again. */
  lemma {:induction false} StripDigitsAppended(p: string, d: string)
    requires AllDigits(d) && (p == [] || !IsDigit(p[|p| - 1]))
    ensures StripDigits(p + d) == p
  {
    if d == [] {
      assert p + d == p;
    } else {
      var init := d[..|d| - 1];
      assert (p + d)[..|p + d| - 1] == p + init;
      StripDigitsAppended(p, init);
    }
  }

  /** A successful newname is the stem, the decimal form of the counter
      plus one, and ".dxf". */
  lemma NewNameValue(oldname: string)
    requires NewName(oldname).Success?
    ensures NewName(oldname).value == Stem(oldname) + Decimal(Counter(oldname) + 1) + ".dxf"
  {
  }

  /** How a name built from a stem and a digit string splits up again. */
  lemma NameParts(stem: string, d: string)
    requires AllDigits(d) && |d| >= 1 && (stem == [] || !IsDigit(stem[|stem| - 1]))
    ensures var name := stem + d + ".dxf";
      && EndsWith(name, ".dxf") && |name| > 4
      && Base(name) == stem + d && Stem(name) == stem && Base(name)[|stem|..] == d
  {
    var name := stem + d + ".dxf";
    assert name[|name| - 4..] == ".dxf";
    assert Base(name) == stem + d;
    StripDigitsAppended(stem, d);
    assert (stem + d)[|stem|..] == d;
  }

  /** A new name ends in ".dxf", keeps the stem of the old one, and carries
      the old counter plus one; so it is itself a valid input to newname. */
  lemma NewNameIncrements(oldname: string)
    requires NewName(oldname).Success?
    ensures var name := NewName(oldname).value;
      && EndsWith(name, ".dxf") && |name| > 4
      && Stem(name) == Stem(oldname) && Counter(name) == Counter(oldname) + 1
      && NewName(name).Success?
  {
    var stem, n := Stem(oldname), Counter(oldname) + 1;
    var d := Decimal(n);
    NewNameValue(oldname);
    NameParts(stem, d);
    DecimalRoundTrip(n);
    NewNameFails(stem + d + ".dxf");
  }

  /** Leading zeros do not survive: "part007.dxf" becomes "part8.dxf". */
  lemma NewNameDropsZeros()
    ensures NewName("part007.dxf") == Success("part8.dxf")
  {
    var name := "part007.dxf";
    assert Base(name) == "part" + "007";
    assert Stem(name) == "part" by {
      StripDigitsAppended("part", "007");
    }
    assert Base(name)[4..] == "007";
    assert Counter(name) == 7 by {
      assert "007"[..2] == "00" && "00"[..1] == "0" && "0"[..0] == "";
    }
    assert name[7..] == ".dxf";
    NewNameValue(name);
    assert Decimal(8) == "8";
    assert "part" + "8" + ".dxf" == "part8.dxf";
  }

  /** mixed case is not accepted as a DXF extension. */
  lemma NewNameRefusesMixedCase()
    ensures NewName("part.Dxf") == Failure("probably not a DXF file!")
  {
    assert "part.Dxf"[4..] == ".Dxf";
  }

  /** One DXF group: the code right-aligned in three columns on its own line,
      then the value on the next. */
  function Group(code: nat, value: string): string
    requires code < 1000
  {
    var digits := Decimal(code);
    seq(if |digits| < 3 then 3 - |digits| else 0, _ => ' ') + digits + "\n" + value + "\n"
  }

  /** A one-digit group code is padded with two spaces. */
  lemma GroupOneDigit(code: nat, value: string)
    requires code < 10
    ensures Group(code, value) == "  " + ['0' + code as char] + "\n" + value + "\n"
  {
    assert seq(2, _ => ' ') == "  ";
  }

  /** The two groups that open the entities section, written out. */
  lemma StartGroups()
    ensures Group(0, "SECTION") == "  0\nSECTION\n" && Group(2, "ENTITIES") == "  2\nENTITIES\n"
  {
    GroupOneDigit(0, "SECTION");
    GroupOneDigit(2, "ENTITIES");
  }

  /** The two groups that close the entities section and the file, written out. */
  lemma EndGroups()
    ensures Group(0, "ENDSEC") == "  0\nENDSEC\n" && Group(0, "EOF") == "  0\nEOF\n"
  {
    GroupOneDigit(0, "ENDSEC");
    GroupOneDigit(0, "EOF");
  }

  /** start_entities: two DXF groups, code 0 with SECTION, then code 2
      with ENTITIES. */
  function StartEntities(): (r: string)
    ensures r == Group(0, "SECTION") + Group(2, "ENTITIES")
  {
    StartGroups();
    "  0\nSECTION\n  2\nENTITIES\n"
  }

  /** end_entities: two DXF groups, code 0 with ENDSEC and code 0 with EOF,
      without the newline after EOF. */
  function EndEntities(): (r: string)
    ensures r + "\n" == Group(0, "ENDSEC") + Group(0, "EOF")
  {
    EndGroups();
    "  0\nENDSEC\n  0\nEOF"
  }
}

/** IPv4 texts: the addresses the allocator prints and the parser that reads them back. */
module Addressing {
  import opened Common

  type Address = a: seq<nat> | |a| == 4 witness [0, 0, 0, 0]

  function Digit(d: nat): char
    requires d < 10
  {
    '0' + d as char
  }

  /** Decimal text of n, as Sprintf's %d prints it. */
  function Decimal(n: nat): string {
    if n < 10 then [Digit(n)] else Decimal(n / 10) + [Digit(n % 10)]
  }

  function HostText(subnet: nat): string {
    "172.16." + Decimal(subnet) + ".1"
  }

  function GuestText(subnet: nat): string {
    "172.16." + Decimal(subnet) + ".2/24"
  }

  // ---- net.ParseIP and net.ParseCIDR, restricted to dotted decimal ----

  /** State of the left-to-right scan of a dotted address. */
  datatype Scan = Bad | Scan(fields: seq<nat>, val: nat, digits: nat)

  predicate IsDigit(c: char) {
    '0' <= c <= '9'
  }

  function DigitValue(c: char): nat
    requires IsDigit(c)
  {
    c as nat - '0' as nat
  }

  function ScanChar(st: Scan, c: char): Scan {
    if st.Bad? then Bad
    else if IsDigit(c) then
      var v := st.val * 10 + DigitValue(c);
      if (st.digits == 1 && st.val == 0) || v > 255 then Bad else Scan(st.fields, v, st.digits + 1)
    else if c == '.' && st.digits != 0 && |st.fields| < 3 then Scan(st.fields + [st.val], 0, 0)
    else Bad
  }

  function ScanText(st: Scan, s: string): Scan
    decreases |s|
  {
    if s == [] then st else ScanText(ScanChar(st, s[0]), s[1..])
  }

  function ParseIP(s: string): (r: Option<Address>) {
    var st := ScanText(Scan([], 0, 0), s);
    if st.Scan? && |st.fields| == 3 && st.digits != 0 then Some(st.fields + [st.val]) else None
  }

  /** Position of the first slash, or the length when there is none. */
  function SlashAt(s: string): (i: nat)
    ensures i <= |s|
    ensures i < |s| ==> s[i] == '/'
    ensures forall j :: 0 <= j < i ==> s[j] != '/'
  {
    if s == [] || s[0] == '/' then 0 else 1 + SlashAt(s[1..])
  }

  function PrefixLength(s: string): (r: Option<nat>) {
    if s == [] || !IsDigit(s[|s| - 1]) then None
    else if |s| == 1 then Some(DigitValue(s[0]))
    else match PrefixLength(s[..|s| - 1])
      case None => None
      case Some(n) => Some(n * 10 + DigitValue(s[|s| - 1]))
  }

  datatype CIDR = CIDR(address: Address, bits: nat)

  function ParseCIDR(s: string): (r: Option<CIDR>) {
    var i := SlashAt(s);
    if i == |s| then None
    else
      match (ParseIP(s[..i]), PrefixLength(s[i + 1..]))
      case (Some(a), Some(n)) => if n <= 32 then Some(CIDR(a, n)) else None
      case _ => None
  }

  // ---- what is printed is read back ----

  lemma {:induction false} ScanConcat(st: Scan, a: string, b: string)
    ensures ScanText(st, a + b) == ScanText(ScanText(st, a), b)
    decreases |a|
  {
    if a == [] {
      assert a + b == b;
    } else {
      assert (a + b)[1..] == a[1..] + b;
      ScanConcat(ScanChar(st, a[0]), a[1..], b);
    }
  }

  lemma ScanOne(st: Scan, c: char)
    ensures ScanText(st, [c]) == ScanChar(st, c)
  {
    assert ScanText(ScanChar(st, c), [c][1..]) == ScanChar(st, c);
  }

  lemma {:induction false} ScanDecimal(fields: seq<nat>, n: nat)
    requires n < 256
    ensures var st := ScanText(Scan(fields, 0, 0), Decimal(n));
            st.Scan? && st.fields == fields && st.val == n && st.digits > 0 && (st.digits == 1 ==> n < 10)
    decreases n
  {
    var d := Digit(n % 10);
    assert DigitValue(d) == n % 10;
    if n < 10 {
      ScanOne(Scan(fields, 0, 0), d);
    } else {
      ScanDecimal(fields, n / 10);
      ScanConcat(Scan(fields, 0, 0), Decimal(n / 10), [d]);
      ScanOne(ScanText(Scan(fields, 0, 0), Decimal(n / 10)), d);
    }
  }

  /** A printed field and the dot after it append one field. */
  lemma ScanField(fields: seq<nat>, n: nat, rest: string)
    requires n < 256 && |fields| < 3
    ensures ScanText(Scan(fields, 0, 0), Decimal(n) + ['.'] + rest) == ScanText(Scan(fields + [n], 0, 0), rest)
  {
    var st := Scan(fields, 0, 0);
    ScanConcat(st, Decimal(n) + ['.'], rest);
    ScanConcat(st, Decimal(n), ['.']);
    ScanDecimal(fields, n);
    ScanOne(ScanText(st, Decimal(n)), '.');
  }

  /** The text of an address: four printed fields with dots between them. */
  function Dotted(a: Address): string {
    Decimal(a[0]) + ['.'] + Decimal(a[1]) + ['.'] + Decimal(a[2]) + ['.'] + Decimal(a[3])
  }

  predicate Octets(a: Address) {
    a[0] < 256 && a[1] < 256 && a[2] < 256 && a[3] < 256
  }

  /** Three printed fields, each with its dot, append three fields. */
  lemma ScanThree(a: nat, b: nat, c: nat, rest: string)
    requires a < 256 && b < 256 && c < 256
    ensures ScanText(Scan([], 0, 0), Decimal(a) + ['.'] + (Decimal(b) + ['.'] + (Decimal(c) + ['.'] + rest))) ==
            ScanText(Scan([a, b, c], 0, 0), rest)
  {
    var none: seq<nat> := [];
    ScanField(none, a, Decimal(b) + ['.'] + (Decimal(c) + ['.'] + rest));
    assert none + [a] == [a];
    ScanField([a], b, Decimal(c) + ['.'] + rest);
    assert [a] + [b] == [a, b];
    ScanField([a, b], c, rest);
    assert [a, b] + [c] == [a, b, c];
  }

  lemma DottedSplits(a: Address)
    ensures Dotted(a) ==
            Decimal(a[0]) + ['.'] + (Decimal(a[1]) + ['.'] + (Decimal(a[2]) + ['.'] + Decimal(a[3])))
  {
  }

  lemma DottedIsRead(a: Address)
    requires Octets(a)
    ensures ParseIP(Dotted(a)) == Some(a)
  {
    DottedSplits(a);
    ScanThree(a[0], a[1], a[2], Decimal(a[3]));
    ScanDecimal([a[0], a[1], a[2]], a[3]);
    assert [a[0], a[1], a[2]] + [a[3]] == a;
  }

  // ---- only what is printed is read ----

  function Fields(fields: seq<nat>): string {
    if fields == [] then "" else Fields(fields[..|fields| - 1]) + Decimal(fields[|fields| - 1]) + ['.']
  }

  /** The scan state st is what the text u, printed in canonical form, leads to. */
  ghost predicate Reads(st: Scan, u: string) {
    && st.Scan? && (forall n :: n in st.fields ==> n < 256) && st.val < 256
    && u == Fields(st.fields) + (if st.digits == 0 then "" else Decimal(st.val))
    && (if st.digits == 0 then st.val == 0 else st.digits == |Decimal(st.val)|)
  }

  lemma DecimalGrows(n: nat, d: nat)
    requires 0 < n && d < 10
    ensures Decimal(n * 10 + d) == Decimal(n) + [Digit(d)]
  {
  }

  lemma ScanCharReads(st: Scan, u: string, c: char)
    requires Reads(st, u) && ScanChar(st, c).Scan?
    ensures Reads(ScanChar(st, c), u + [c])
  {
    var st' := ScanChar(st, c);
    if IsDigit(c) {
      var d := DigitValue(c);
      assert Digit(d) == c;
      if st.digits == 0 {
        assert Decimal(d) == [c];
      } else {
        if st.val == 0 { assert |Decimal(0)| == 1; }
        DecimalGrows(st.val, d);
      }
    } else {
      assert st'.fields[..|st'.fields| - 1] == st.fields;
    }
  }

  lemma {:induction false} ScanReads(st: Scan, u: string, s: string)
    requires Reads(st, u) && ScanText(st, s).Scan?
    ensures Reads(ScanText(st, s), u + s)
    decreases |s|
  {
    if s == [] {
      assert u + s == u;
    } else {
      if ScanChar(st, s[0]).Bad? { BadStays(s[1..]); }
      ScanCharReads(st, u, s[0]);
      ScanReads(ScanChar(st, s[0]), u + [s[0]], s[1..]);
      assert u + [s[0]] + s[1..] == u + s;
    }
  }

  lemma {:induction false} BadStays(s: string)
    ensures ScanText(Bad, s) == Bad
    decreases |s|
  {
    if s != [] { BadStays(s[1..]); }
  }

  lemma ThreeFields(f: seq<nat>)
    requires |f| == 3
    ensures Fields(f) == Decimal(f[0]) + ['.'] + Decimal(f[1]) + ['.'] + Decimal(f[2]) + ['.']
  {
    var f2, f1 := f[..2], f[..1];
    assert f2[..1] == f1 && f1[..0] == [];
    assert Fields(f1) == Fields([]) + Decimal(f[0]) + ['.'];
    assert Fields(f2) == Fields(f1) + Decimal(f[1]) + ['.'];
  }

  /** ParseIP accepts exactly the printed texts of addresses, and reads each back to its address. */
  lemma ParseIPIsExact(s: string, a: Address)
    ensures ParseIP(s) == Some(a) <==> Octets(a) && s == Dotted(a)
  {
    if Octets(a) && s == Dotted(a) { DottedIsRead(a); }
    if ParseIP(s) == Some(a) {
      var st := ScanText(Scan([], 0, 0), s);
      assert Reads(Scan([], 0, 0), "") by { assert Fields([]) == ""; }
      ScanReads(Scan([], 0, 0), "", s);
      assert "" + s == s;
      ThreeFields(st.fields);
      assert st.fields[0] == a[0] && st.fields[1] == a[1] && st.fields[2] == a[2] && st.val == a[3];
      assert st.fields[0] in st.fields && st.fields[1] in st.fields && st.fields[2] in st.fields;
    }
  }

  lemma Prefix172(subnet: nat)
    ensures Dotted([172, 16, subnet, 1]) == HostText(subnet)
    ensures Dotted([172, 16, subnet, 2]) + "/24" == GuestText(subnet)
  {
    assert Decimal(172) == "172" by { assert Decimal(17) == "17"; }
    assert Decimal(16) == "16" && Decimal(1) == "1" && Decimal(2) == "2";
    assert "172.16." == "172" + ['.'] + "16" + ['.'];
    assert ".2/24" == ['.'] + "2" + "/24";
    assert ".1" == ['.'] + "1";
  }

  lemma HostRoundTrip(subnet: nat)
    requires subnet < 256
    ensures ParseIP(HostText(subnet)) == Some([172, 16, subnet, 1])
  {
    Prefix172(subnet);
    DottedIsRead([172, 16, subnet, 1]);
  }

  lemma {:induction false} DecimalHasNoSlash(n: nat)
    ensures '/' !in Decimal(n)
    decreases n
  {
    if n >= 10 { DecimalHasNoSlash(n / 10); }
  }

  lemma SlashUnique(a: string, b: string)
    requires '/' !in a
    ensures SlashAt(a + ['/'] + b) == |a|
  {
    var s := a + ['/'] + b;
    assert s[|a|] == '/';
    assert forall j :: 0 <= j < |a| ==> s[j] == a[j];
  }

  /** The third octet survives printing by Allocate and parsing by Release. */
  lemma GuestRoundTrip(subnet: nat)
    requires subnet < 256
    ensures ParseCIDR(GuestText(subnet)) == Some(CIDR([172, 16, subnet, 2], 24))
  {
    var addr := Dotted([172, 16, subnet, 2]);
    Prefix172(subnet);
    assert "/24" == ['/'] + "24";
    assert GuestText(subnet) == addr + ['/'] + "24";
    DecimalHasNoSlash(172);
    DecimalHasNoSlash(16);
    DecimalHasNoSlash(subnet);
    SlashUnique(addr, "24");
    var s := GuestText(subnet);
    assert s[..|addr|] == addr;
    assert s[|addr| + 1..] == "24";
    DottedIsRead([172, 16, subnet, 2]);
    assert PrefixLength("24") == Some(24) by {
      assert "24"[..1] == "2";
      assert PrefixLength("2") == Some(2);
    }
  }
}

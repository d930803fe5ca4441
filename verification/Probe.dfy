/** The search for a driver's init function: the newest compatible minor version whose
    init symbol the library exports. */
module Probe {
  import opened CStrings

  const INT_LIMIT: nat := 0x8000_0000
  const NAME_SIZE: nat := 256

  function Digit(n: nat): (c: char)
    requires n < 10
  {
    "0123456789"[n]
  }

  function Decimal(n: nat): (s: string) {
    if n < 10 then [Digit(n)] else Decimal(n / 10) + [Digit(n % 10)]
  }

  function InitName(major: nat, minor: nat): (s: string) {
    "__vaDriverInit_" + Decimal(major) + ['_'] + Decimal(minor)
  }

  function Power10(k: nat): (r: nat) {
    if k == 0 then 1 else 10 * Power10(k - 1)
  }

  lemma {:induction false} DecimalLength(n: nat, k: nat)
    requires k > 0 && n < Power10(k)
    ensures 0 < |Decimal(n)| <= k
  {
    if n >= 10 {
      assert k > 1 by { assert Power10(1) == 10 * Power10(0); }
      DecimalLength(n / 10, k - 1);
    }
  }

  lemma {:induction false} DecimalShape(n: nat)
    ensures forall c :: c in Decimal(n) ==> c != '_' && c != NUL
  {
    if n >= 10 {
      DecimalShape(n / 10);
    }
  }

  /** The number that a decimal numeral stands for. */
  function Number(s: string): (n: nat) {
    if s == "" then 0
    else
      var c := s[|s| - 1];
      10 * Number(s[..|s| - 1]) + if '0' <= c <= '9' then (c - '0') as nat else 0
  }

  lemma {:induction false} DecimalReads(n: nat)
    ensures Number(Decimal(n)) == n
  {
    var s := Decimal(n);
    assert Number(s[..|s| - 1]) == n / 10 by {
      if n >= 10 {
        DecimalReads(n / 10);
        assert s[..|s| - 1] == Decimal(n / 10);
      }
    }
  }

  /** The init symbol reads: prefix, major version, minor version. */
  lemma InitNameReads(major: nat, minor: nat)
    ensures "__vaDriverInit_" <= InitName(major, minor)
    ensures var fields := Segments(InitName(major, minor), "_");
            && |fields| == 3 && fields[0] == "vaDriverInit"
            && Number(fields[1]) == major && Number(fields[2]) == minor
  {
    hide Segments, Decimal, Number;
    var a, b := Decimal(major), Decimal(minor);
    DecimalShape(major);
    DecimalShape(minor);
    DecimalReads(major);
    DecimalReads(minor);
    DecimalSome(major);
    DecimalSome(minor);
    SegmentsWhole(b, "_");
    SegmentsAt(a, '_', b, "_");
    PrefixFields(a + ['_'] + b);
    assert InitName(major, minor) == "__vaDriverInit_" + (a + ['_'] + b);
  }

  lemma DecimalSome(n: nat)
    ensures Decimal(n) != ""
  {
  }

  lemma PrefixFields(rest: string)
    ensures Segments("__vaDriverInit_" + rest, "_") == ["vaDriverInit"] + Segments(rest, "_")
  {
    hide Segments;
    var s := "vaDriverInit" + ['_'] + rest;
    SegmentsAt("vaDriverInit", '_', rest, "_");
    SegmentsAt("", '_', s, "_");
    SegmentsAt("", '_', "" + ['_'] + s, "_");
    assert "__vaDriverInit_" + rest == "" + ['_'] + ("" + ['_'] + s);
  }

  /** So distinct versions have distinct init symbols. */
  lemma InitNameInjective(a: nat, b: nat, c: nat, d: nat)
    requires InitName(a, b) == InitName(c, d)
    ensures a == c && b == d
  {
    InitNameReads(a, b);
    InitNameReads(c, d);
  }

  /** Every symbol fits the buffer it is printed to. */
  lemma InitNameFits(major: nat, minor: nat)
    requires major < INT_LIMIT && minor < INT_LIMIT
    ensures 0 < |InitName(major, minor)| < NAME_SIZE && NUL !in InitName(major, minor)
  {
    assert Power10(10) == 10_000_000_000 by {
      assert Power10(2) == 100 && Power10(4) == 100 * Power10(2);
      assert Power10(6) == 100 * Power10(4) && Power10(8) == 100 * Power10(6);
      assert Power10(10) == 100 * Power10(8);
    }
    DecimalLength(major, 10);
    DecimalLength(minor, 10);
    DecimalShape(major);
    DecimalShape(minor);
  }

  /** The search as a recursion from the newest minor version down. */
  function FindMinor(major: nat, minor: nat, exports: string -> bool): (r: Option<nat>) {
    if exports(InitName(major, minor)) then Some(minor)
    else if minor == 0 then None
    else FindMinor(major, minor - 1, exports)
  }

  /** It finds the greatest exported minor version, and fails only if there is none. */
  lemma {:induction false} FindMinorGreatest(major: nat, minor: nat, exports: string -> bool)
    ensures var r := FindMinor(major, minor, exports);
            && (r.None? <==> forall m: nat :: m <= minor ==> !exports(InitName(major, m)))
            && (r.Some? ==> r.value <= minor && exports(InitName(major, r.value))
                            && forall m: nat :: r.value < m <= minor ==> !exports(InitName(major, m)))
  {
    if !exports(InitName(major, minor)) && minor > 0 {
      FindMinorGreatest(major, minor - 1, exports);
    }
  }

  method GetDriverInitName(name: array<char>, namelen: nat, major: nat, minor: nat) returns (fits: bool)
    requires 0 < namelen <= name.Length
    modifies name
    ensures fits <==> |InitName(major, minor)| < namelen
    ensures fits ==> CStringAt(name[..], 0, InitName(major, minor))
  {
    DecimalShape(major);
    DecimalShape(minor);
    UpToNulWhole(InitName(major, minor));
    var ret := Snprintf(name, namelen, InitName(major, minor), false);
    fits := ret > 0 && ret < namelen;
  }

  /** The sentinel-terminated table of versions and the loop over it. */
  method ProbeInit(major: nat, minor: nat, exports: string -> bool) returns (found: Option<nat>)
    requires major < INT_LIMIT && minor < INT_LIMIT
    ensures found == FindMinor(major, minor, exports)
  {
    var versions := new (int, int)[minor + 2];
    var i := 0;
    while i <= minor
      invariant i <= minor + 1
      invariant forall k :: 0 <= k < i ==> versions[k] == (major, minor - k)
    {
      versions[i] := (major, minor - i);
      i := i + 1;
    }
    versions[i] := (-1, -1);
    var name := new char[NAME_SIZE];
    i := 0;
    while versions[i].0 >= 0
      invariant i <= minor + 1
      invariant i <= minor ==> FindMinor(major, minor, exports) == FindMinor(major, minor - i, exports)
      invariant i == minor + 1 ==> FindMinor(major, minor, exports) == None
      invariant forall k :: 0 <= k <= minor ==> versions[k] == (major, minor - k)
      invariant versions[minor + 1].0 < 0
      decreases minor + 1 - i
    {
      InitNameFits(major, minor - i);
      var fits := GetDriverInitName(name, NAME_SIZE, versions[i].0, versions[i].1);
      if fits {
        var symbol := TextAt(name, 0, InitName(major, minor - i));
        if exports(symbol) {
          break;
        }
      }
      i := i + 1;
    }
    found := if versions[i].0 < 0 then None else Some(versions[i].1);
  }
}

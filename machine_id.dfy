/** `getMachineUniqueID`: the hardware address of the first network interface
    that has one, written as upper-case two-digit hexadecimal bytes joined by
    dashes. The interface enumeration is given as a sequence: one entry per
    interface, `None` where the interface reports no hardware address. */
module MachineId {
  import opened JsonValues

  /** A Java `byte`. */
  type JByte = x: int | -128 <= x < 128

  const NoMacFound := "No MAC Address Found"

  /** `%X` formats a negative byte as its value plus 2^8. */
  function Unsigned(b: JByte): (u: nat)
    ensures u < 256 && u % 256 == b % 256
  {
    if b < 0 then b + 256 else b
  }

  function Signed(u: nat): JByte
    requires u < 256
  {
    if u < 128 then u else u - 256
  }

  function HexDigit(n: nat): char
    requires n < 16
  {
    if n < 10 then ('0' as int + n) as char else ('A' as int + n - 10) as char
  }

  predicate IsHexDigit(c: char) {
    '0' <= c <= '9' || 'A' <= c <= 'F'
  }

  function HexValue(c: char): (n: nat)
    requires IsHexDigit(c)
    ensures n < 16 && HexDigit(n) == c
  {
    if c <= '9' then c as int - '0' as int else c as int - 'A' as int + 10
  }

  /** `String.format("%02X", b)`. */
  function HexPair(b: JByte): (r: string)
    ensures |r| == 2 && IsHexDigit(r[0]) && IsHexDigit(r[1])
    ensures Signed(16 * HexValue(r[0]) + HexValue(r[1])) == b
  {
    var u := Unsigned(b);
    [HexDigit(u / 16), HexDigit(u % 16)]
  }

  /** The bytes of one address, each as two hexadecimal digits, with a dash
      between neighbours and none after the last. */
  function MacText(mac: seq<JByte>): (r: string)
    ensures |r| == if mac == [] then 0 else 3 * |mac| - 1
    ensures forall k :: 0 <= k < |r| ==> IsHexDigit(r[k]) || r[k] == '-'
  {
    if |mac| == 0 then ""
    else if |mac| == 1 then HexPair(mac[0])
    else HexPair(mac[0]) + "-" + MacText(mac[1..])
  }

  /** The address of the first interface that reports one. */
  function FirstMac(interfaces: seq<Option<seq<JByte>>>): (r: Option<seq<JByte>>)
    ensures r.Some? <==> exists k :: 0 <= k < |interfaces| && interfaces[k].Some?
    ensures r.Some? ==> exists k :: 0 <= k < |interfaces| && interfaces[k] == r
                                    && forall j :: 0 <= j < k ==> interfaces[j].None?
  {
    if interfaces == [] then None
    else if interfaces[0].Some? then interfaces[0]
    else
      var r := FirstMac(interfaces[1..]);
      assert forall k :: 1 <= k < |interfaces| ==> interfaces[k] == interfaces[1..][k - 1];
      if r.Some? then
        var k :| 0 <= k < |interfaces[1..]| && interfaces[1..][k] == r
                 && forall j :: 0 <= j < k ==> interfaces[1..][j].None?;
        assert interfaces[k + 1] == r;
        r
      else
        r
  }

  /** The identifier `getMachineUniqueID` returns. */
  function MachineIdOf(interfaces: seq<Option<seq<JByte>>>): string {
    match FirstMac(interfaces)
    case Some(mac) => MacText(mac)
    case None => NoMacFound
  }

  /** Appending a byte to a non-empty address appends a dash and its two
      digits to the text. */
  lemma {:induction false} MacTextSnoc(mac: seq<JByte>, b: JByte)
    requires mac != []
    ensures MacText(mac + [b]) == MacText(mac) + "-" + HexPair(b)
  {
    if |mac| == 1 {
      assert (mac + [b])[1..] == [b];
    } else {
      assert (mac + [b])[1..] == mac[1..] + [b];
      MacTextSnoc(mac[1..], b);
    }
  }

  /** The loop of `getMachineUniqueID`: walk the interfaces, and for the first
      one with an address append each byte with its separator. */
  method GetMachineUniqueId(interfaces: seq<Option<seq<JByte>>>) returns (id: string)
    ensures id == MachineIdOf(interfaces)
    ensures FirstMac(interfaces) == None <==> id == NoMacFound
  {
    var i := 0;
    while i < |interfaces|
      invariant 0 <= i <= |interfaces|
      invariant FirstMac(interfaces[i..]) == FirstMac(interfaces)
    {
      assert interfaces[i..][1..] == interfaces[i + 1..];
      if interfaces[i].Some? {
        var mac := interfaces[i].value;
        var sb := "";
        var j := 0;
        while j < |mac|
          invariant 0 <= j <= |mac|
          invariant sb == MacText(mac[..j]) + (if 0 < j < |mac| then "-" else "")
        {
          if j > 0 {
            MacTextSnoc(mac[..j], mac[j]);
          }
          assert mac[..j + 1] == mac[..j] + [mac[j]];
          sb := sb + HexPair(mac[j]) + (if j < |mac| - 1 then "-" else "");
          j := j + 1;
        }
        assert mac[..j] == mac;
        MachineIdNotSentinel(mac);
        return sb;
      }
      i := i + 1;
    }
    id := NoMacFound;
  }

  lemma MachineIdNotSentinel(mac: seq<JByte>)
    ensures MacText(mac) != NoMacFound
  {
    if |MacText(mac)| == |NoMacFound| {
      assert !IsHexDigit(NoMacFound[0]) && NoMacFound[0] != '-';
    }
  }

  /** Reads a dash-separated hexadecimal address back into its bytes. */
  function ParseMac(s: string): Option<seq<JByte>>
  {
    if |s| == 0 then Some([])
    else if |s| < 2 || !IsHexDigit(s[0]) || !IsHexDigit(s[1]) then None
    else
      var b := Signed(16 * HexValue(s[0]) + HexValue(s[1]));
      if |s| == 2 then Some([b])
      else if |s| > 3 && s[2] == '-' then
        match ParseMac(s[3..])
        case Some(rest) => Some([b] + rest)
        case None => None
      else None
  }

  /** The text determines the address: formatting loses nothing. */
  lemma {:induction false} ParseMacText(mac: seq<JByte>)
    ensures ParseMac(MacText(mac)) == Some(mac)
  {
    var s := MacText(mac);
    if |mac| == 1 {
      var p := HexPair(mac[0]);
      assert s == p;
      assert ParseMac(s) == Some([Signed(16 * HexValue(p[0]) + HexValue(p[1]))]);
      assert [mac[0]] == mac;
    } else if |mac| > 1 {
      var p := HexPair(mac[0]);
      assert s == p + "-" + MacText(mac[1..]);
      assert s[0] == p[0] && s[1] == p[1] && s[2] == '-';
      assert s[3..] == MacText(mac[1..]);
      ParseMacText(mac[1..]);
      assert [mac[0]] + mac[1..] == mac;
    }
  }

  /** Two interfaces whose addresses differ get different identifiers. */
  lemma MacTextInjective(m1: seq<JByte>, m2: seq<JByte>)
    requires MacText(m1) == MacText(m2)
    ensures m1 == m2
  {
    ParseMacText(m1);
    ParseMacText(m2);
  }
}

/** Names and numbers derived from a tunnel id. */
module Naming {
  import opened Text

  function TunName(id: nat): string { "tun-wg" + Decimal(id) }

  function ChainName(id: nat): string { "XRAY2WG_" + Decimal(id) }

  function XrayPort(id: nat): nat { 13000 + id }

  function Fwmark(id: nat): nat { 0x1000 + id }

  /** What the kernel stores: uint32(fwmark). */
  function RuleMark(id: nat): nat { Fwmark(id) % 0x1_0000_0000 }

  function RouteTable(id: nat): nat { 100 + id }

  /** Distinct tunnels never share a device, chain, port, mark or table. */
  lemma NamesDiffer(a: nat, b: nat)
    requires a != b
    ensures TunName(a) != TunName(b) && ChainName(a) != ChainName(b)
    ensures XrayPort(a) != XrayPort(b) && Fwmark(a) != Fwmark(b) && RouteTable(a) != RouteTable(b)
  {
    PrefixedDecimalInjective("tun-wg", a, b);
    PrefixedDecimalInjective("XRAY2WG_", a, b);
  }

  /** The names and numbers of tunnel 12. */
  lemma NamesOfTwelve()
    ensures TunName(12) == "tun-wg12" && ChainName(12) == "XRAY2WG_12"
    ensures XrayPort(12) == 13012 && Fwmark(12) == 4108 && RuleMark(12) == 4108 && RouteTable(12) == 112
  {
    assert Decimal(12) == Decimal(1) + "2" && Decimal(1) == "1";
  }

  /** default, main, local. */
  const KERNEL_TABLES: set<nat> := {253, 254, 255}

  /** The route table is one of the kernel's for three ids only. */
  lemma KernelTableIds(id: nat)
    ensures RouteTable(id) in KERNEL_TABLES <==> 153 <= id <= 155
  {
  }
}

/** Resource quantities of the Kubernetes API: an amount, and its canonical text in the format it was written in. */
module Quantities {
  import opened Strings

  datatype Format = DecimalSI | BinarySI | DecimalExponent

  /** nano is the amount in billionths; text is what String() and the JSON encoding give. */
  datatype Quantity = Quantity(nano: int, text: string)

  const BILLION := 1_000_000_000
  const DECIMAL_SUFFIXES := ["n", "u", "m", "", "k", "M", "G", "T", "P", "E"]
  const BINARY_SUFFIXES := ["", "Ki", "Mi", "Gi", "Ti", "Pi", "Ei"]

  /** Divides by base as often as it goes, at most limit times; returns what is left and how often. */
  function Reduce(n: int, base: int, limit: nat): (r: (int, nat))
    requires base > 1
    ensures r.1 <= limit
    decreases limit
  {
    if limit > 0 && n % base == 0 then
      var r := Reduce(n / base, base, limit - 1);
      (r.0, r.1 + 1)
    else (n, 0)
  }

  function Exponent(e: int): (r: string) { if e == 0 then "" else "e" + Decimal(e) }

  /** The canonical text: binary suffixes only for whole amounts of at least 1024. */
  function Canonical(nano: int, format: Format): (r: string) {
    if nano == 0 then "0"
    else if format.BinarySI? && nano % BILLION == 0 && !(-1024 < nano / BILLION < 1024) then
      var r := Reduce(nano / BILLION, 1024, 6);
      Decimal(r.0) + BINARY_SUFFIXES[r.1]
    else
      var r := Reduce(nano, 1000, 9);
      Decimal(r.0) + (if format.DecimalExponent? then Exponent(3 * r.1 - 9) else DECIMAL_SUFFIXES[r.1])
  }

  function Parsed(nano: int, format: Format): (r: Quantity) { Quantity(nano, Canonical(nano, format)) }

  /** What Semantic.DeepEqual looks at. */
  function Amount(q: Quantity): (r: Quantity) { q.(text := "") }

  /** One gibibyte, written with a binary suffix and in plain figures. */
  lemma GibibyteTwice()
    ensures Parsed(1073741824 * BILLION, BinarySI).text == "1Gi"
    ensures Parsed(1073741824 * BILLION, DecimalSI).text == "1073741824"
  {
    assert Reduce(1, 1024, 3) == (1, 0);
    assert Reduce(1024, 1024, 4) == (1, 1);
    assert Reduce(1048576, 1024, 5) == (1, 2);
    assert Reduce(1073741824, 1024, 6) == (1, 3);
    assert Decimal(1) == "1";
    assert Reduce(1073741824, 1000, 6) == (1073741824, 0);
    assert Reduce(1073741824_000, 1000, 7) == (1073741824, 1);
    assert Reduce(1073741824_000_000, 1000, 8) == (1073741824, 2);
    assert Reduce(1073741824_000_000_000, 1000, 9) == (1073741824, 3);
    assert Decimal(10) == "10";
    assert Decimal(107) == "107";
    assert Decimal(1073) == "1073";
    assert Decimal(10737) == "10737";
    assert Decimal(107374) == "107374";
    assert Decimal(1073741) == "1073741";
    assert Decimal(10737418) == "10737418";
    assert Decimal(107374182) == "107374182";
    assert Decimal(1073741824) == "1073741824";
  }

  // ---- what a container asks for ----

  datatype Demand = Demand(limits: map<string, Quantity>, requests: map<string, Quantity>)

  const NO_DEMAND := Demand(map[], map[])

  /** Limits.Memory().String(): an absent limit reads as zero. */
  function MemoryLimit(d: Demand): (r: string) { if "memory" in d.limits then d.limits["memory"].text else "0" }

  function Amounts(m: map<string, Quantity>): (r: map<string, Quantity>) { map k | k in m :: Amount(m[k]) }

  function DemandAmount(d: Demand): (r: Demand) { Demand(Amounts(d.limits), Amounts(d.requests)) }
}

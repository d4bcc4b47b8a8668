/**
 * The block list. Families are the strings the code stores and compares: an add keeps its
 * caller's spelling, a check compares with "IPv4" or "IPv6".
 */
module BlockList {
  import opened Base
  import opened Prefix

  datatype BlockRule =
    | Address(address: Ip, family: string)
    | Subnet(network: Ip, prefix: nat, family: string)
    | Range(start: Ip, end: Ip, family: string)

  // ------------------------------------------------------ block_list_check

  predicate RuleMatches(rule: BlockRule, address: Ip, family: string) {
    match rule
    case Address(known, ruleFamily) => ruleFamily == family && known == address
    case Subnet(network, prefix, ruleFamily) =>
      ruleFamily == family && network.version == address.version
      && And(network.bits, CheckMask(network.version, prefix)) == And(address.bits, CheckMask(network.version, prefix))
    case Range(start, end, ruleFamily) =>
      ruleFamily == family && start.version == end.version == address.version
      && address.bits >= start.bits && address.bits <= end.bits
  }

  /** `block_list_check`: some rule matches. */
  predicate BlockListCheck(rules: seq<BlockRule>, address: Ip, family: string) {
    rules != [] && (RuleMatches(rules[0], address, family) || BlockListCheck(rules[1..], address, family))
  }

  lemma {:induction false} CheckIsAny(rules: seq<BlockRule>, address: Ip, family: string)
    ensures BlockListCheck(rules, address, family)
            <==> exists i | 0 <= i < |rules| :: RuleMatches(rules[i], address, family)
  {
    if rules == [] {
    } else {
      CheckIsAny(rules[1..], address, family);
      assert forall i | 0 < i < |rules| :: rules[i] == rules[1..][i - 1];
    }
  }

  // -------------------------------------------------- rules are intervals

  /** The addresses `lo` to `hi` of one version; none when `hi < lo`. */
  datatype Interval = Interval(version: Version, lo: nat, hi: int)

  predicate Contains(iv: Interval, a: Ip) {
    a.version == iv.version && iv.lo <= a.bits <= iv.hi
  }

  /** What a rule covers, family aside. */
  function Cover(rule: BlockRule): Interval {
    match rule
    case Address(a, _) => Interval(a.version, a.bits, a.bits)
    case Subnet(n, p, _) => Interval(n.version, Floor(n, p), Floor(n, p) + BlockSize(n.version, p) - 1)
    case Range(a, b, _) => Interval(a.version, a.bits, if a.version == b.version then b.bits else -1)
  }

  lemma RuleIsInterval(rule: BlockRule, address: Ip, family: string)
    ensures RuleMatches(rule, address, family) <==> rule.family == family && Contains(Cover(rule), address)
  {
    if rule.Subnet? && rule.network.version == address.version {
      MaskedEqualityIsInterval(rule.network, address, rule.prefix);
    }
  }

  /** Whether a subnet rule matches the address with the given bits; `size` is its block's size. */
  lemma SubnetMatches(network: Ip, prefix: nat, size: nat, bits: nat, family: string)
    requires size == BlockSize(network.version, prefix) && bits < Pow2(network.version.Width())
    ensures RuleMatches(Subnet(network, prefix, family), RawIp(network.version, bits), family)
            <==> Floor(network, prefix) <= bits < Floor(network, prefix) + size
  {
    RuleIsInterval(Subnet(network, prefix, family), RawIp(network.version, bits), family);
  }

  /** `SubnetSize` for a network of any width `w` and a block of any size. */
  lemma SubnetCovers(network: Ip, prefix: nat, w: nat, size: nat, family: string)
    requires w == network.version.Width() && size == BlockSize(network.version, prefix)
    ensures var covered := Addresses(Floor(network, prefix), size);
            && |covered| == size
            && forall bits: nat :: bits in covered <==>
                 bits < Pow2(w) && RuleMatches(Subnet(network, prefix, family), RawIp(network.version, bits), family)
  {
    AddressesAreAnInterval(Floor(network, prefix), size);
    CeilingFits(network, prefix);
    forall bits: nat | bits < Pow2(w)
      ensures RuleMatches(Subnet(network, prefix, family), RawIp(network.version, bits), family)
              <==> bits in Addresses(Floor(network, prefix), size)
    {
      SubnetMatches(network, prefix, size, bits, family);
    }
  }

  /** A subnet rule covers exactly two to the free bits of addresses, all of the version's width. */
  lemma SubnetSize(network: Ip, prefix: nat, family: string)
    ensures var covered := Addresses(Floor(network, prefix), BlockSize(network.version, prefix));
            && |covered| == Pow2(network.version.Width() - Min(prefix, network.version.Width()))
            && forall bits: nat :: bits in covered <==>
                 bits < Pow2(network.version.Width())
                 && RuleMatches(Subnet(network, prefix, family), RawIp(network.version, bits), family)
  {
    SubnetCovers(network, prefix, network.version.Width(), BlockSize(network.version, prefix), family);
  }

  /** Masking the network when the rule is added never changes a later verdict. */
  lemma InsertionMaskIsHarmless(network: Ip, prefix: nat, ruleFamily: string, address: Ip, family: string)
    ensures RuleMatches(Subnet(ParsePrefix(network, prefix), prefix, ruleFamily), address, family)
            <==> RuleMatches(Subnet(network, prefix, ruleFamily), address, family)
  {
    RuleIsInterval(Subnet(ParsePrefix(network, prefix), prefix, ruleFamily), address, family);
    RuleIsInterval(Subnet(network, prefix, ruleFamily), address, family);
    ParsePrefixIsIdempotent(network, prefix);
  }

  // ------------------------------------------------------ subnets are laminar

  ghost predicate Within(inner: Interval, outer: Interval) {
    forall a: Ip :: Contains(inner, a) ==> Contains(outer, a)
  }

  ghost predicate Apart(x: Interval, y: Interval) {
    forall a: Ip :: !(Contains(x, a) && Contains(y, a))
  }

  /** The shorter of two prefixes does not tell the networks apart. */
  predicate Agree(n: Ip, p: nat, m: Ip, q: nat) {
    n.version == m.version && ParsePrefix(n, Min(p, q)) == ParsePrefix(m, Min(p, q))
  }

  lemma LongerPrefixesAreFiner(n: Ip, p: nat, q: nat)
    requires p <= q
    ensures Floor(n, p) <= Floor(n, q) && Floor(n, q) + BlockSize(n.version, q) <= Floor(n, p) + BlockSize(n.version, p)
  {
    BlocksNest(n.bits, FreeBits(n.version, q), FreeBits(n.version, p));
  }

  lemma {:induction false} BlocksNest(x: nat, j: nat, k: nat)
    requires j <= k
    ensures RoundDown(x, Pow2(k)) <= RoundDown(x, Pow2(j))
    ensures RoundDown(x, Pow2(j)) + Pow2(j) <= RoundDown(x, Pow2(k)) + Pow2(k)
  {
    if j == 0 {
      assert x % 1 == 0;
    } else {
      BlocksNest(x / 2, j - 1, k - 1);
      RoundDownHalves(x, Pow2(j - 1));
      RoundDownHalves(x, Pow2(k - 1));
    }
  }

  lemma FloorsAgree(n: Ip, m: Ip, p: nat)
    requires n.version == m.version
    ensures ParsePrefix(n, p) == ParsePrefix(m, p) <==> Floor(n, p) == Floor(m, p)
    ensures Floor(n, p) == Floor(m, p) <==> Floor(n, p) <= m.bits < Floor(n, p) + BlockSize(n.version, p)
  {
    MaskingIsFloor(n, p);
    MaskingIsFloor(m, p);
    RoundDownAgrees(m.bits, n.bits, BlockSize(n.version, p));
  }

  /** The longer prefix lies inside the shorter when the shorter prefix of both networks agrees,
      and shares nothing with it when it does not. */
  lemma LongerIsInsideOrApart(n: Ip, p: nat, m: Ip, q: nat, family: string)
    requires n.version == m.version && p <= q
    ensures var outer, inner := Cover(Subnet(n, p, family)), Cover(Subnet(m, q, family));
            if Agree(n, p, m, q) then Within(inner, outer) else Apart(inner, outer)
  {
    var outer, inner := Cover(Subnet(n, p, family)), Cover(Subnet(m, q, family));
    LongerPrefixesAreFiner(m, p, q);
    FloorsAgree(n, m, p);
    if Floor(n, p) != Floor(m, p) {
      forall a: Ip ensures !(Contains(inner, a) && Contains(outer, a)) {
        if Contains(inner, a) {
          FloorsAgree(m, a, p);
          FloorsAgree(n, a, p);
        }
      }
    }
  }

  /** The sets matched by any two subnets are nested or disjoint: nested exactly when the shorter
      prefix of both networks agrees, disjoint exactly when it does not. */
  lemma SubnetsAreLaminar(n: Ip, p: nat, m: Ip, q: nat, family: string)
    requires n.version == m.version
    ensures var x, y := Cover(Subnet(n, p, family)), Cover(Subnet(m, q, family));
            && (Agree(n, p, m, q) <==> Within(x, y) || Within(y, x))
            && (!Agree(n, p, m, q) <==> Apart(x, y))
  {
    var x, y := Cover(Subnet(n, p, family)), Cover(Subnet(m, q, family));
    assert Contains(x, n) && Contains(y, m);
    if p <= q {
      LongerIsInsideOrApart(n, p, m, q, family);
    } else {
      LongerIsInsideOrApart(m, q, n, p, family);
    }
  }

  // ---------------------------------------------------- rewriting rule lists

  /** The equivalent range rule. */
  function AsRange(rule: BlockRule): BlockRule {
    match rule
    case Address(a, f) => Range(a, a, f)
    case Subnet(n, p, f) =>
      CeilingFits(n, p);
      Range(RawIp(n.version, Floor(n, p)), RawIp(n.version, Floor(n, p) + BlockSize(n.version, p) - 1), f)
    case Range(_, _, _) => rule
  }

  function AllAsRanges(rules: seq<BlockRule>): seq<BlockRule> {
    if rules == [] then [] else [AsRange(rules[0])] + AllAsRanges(rules[1..])
  }

  lemma {:induction false} CompilingToRangesKeepsVerdicts(rules: seq<BlockRule>, address: Ip, family: string)
    ensures BlockListCheck(AllAsRanges(rules), address, family) == BlockListCheck(rules, address, family)
    ensures forall i | 0 <= i < |AllAsRanges(rules)| :: AllAsRanges(rules)[i].Range?
  {
    if rules == [] {
    } else {
      CompilingToRangesKeepsVerdicts(rules[1..], address, family);
      RuleIsInterval(rules[0], address, family);
      RuleIsInterval(AsRange(rules[0]), address, family);
      assert AllAsRanges(rules)[1..] == AllAsRanges(rules[1..]);
    }
  }

  /** Order and repetition of rules do not matter: lists with the same rules give the same verdicts. */
  lemma OnlyTheSetOfRulesMatters(rules: seq<BlockRule>, others: seq<BlockRule>, address: Ip, family: string)
    requires forall r :: r in rules <==> r in others
    ensures BlockListCheck(rules, address, family) == BlockListCheck(others, address, family)
  {
    CheckIsAny(rules, address, family);
    CheckIsAny(others, address, family);
    forall i | 0 <= i < |rules| ensures exists j | 0 <= j < |others| :: others[j] == rules[i] {
      assert rules[i] in others;
    }
    forall j | 0 <= j < |others| ensures exists i | 0 <= i < |rules| :: rules[i] == others[j] {
      assert others[j] in rules;
    }
  }

  // ------------------------------------------------------- adds and checks

  /** `address_family`: the parsed value, if its version is the one the family text asks for. */
  function AddressFamily(value: Option<Ip>, family: string): Option<Ip> {
    if value.Some? && value.value.version == Expected(family) then value else None
  }

  function Expected(family: string): Version {
    if family == "ipv6" then V6 else V4
  }

  /** The text a check compares rule families with. */
  function Canonical(family: string): string {
    if family == "ipv6" then "IPv6" else "IPv4"
  }

  /** A call of an add operation; `None` is a value that does not parse. */
  datatype Add =
    | AddAddress(value: Option<Ip>, family: string)
    | AddRange(start: Option<Ip>, end: Option<Ip>, family: string)
    | AddSubnet(value: Option<Ip>, prefix: int, family: string)

  /** `prefix.max(0) as u32`. */
  function PrefixOf(prefix: int): nat {
    (if prefix < 0 then 0 else prefix) % 0x1_0000_0000
  }

  /** The rule an add pushes, if any. */
  function RuleOf(add: Add): Option<BlockRule> {
    match add
    case AddAddress(value, family) =>
      (match AddressFamily(value, family)
       case None => None
       case Some(a) => Some(Address(a, family)))
    case AddRange(start, end, family) =>
      (match (AddressFamily(start, family), AddressFamily(end, family))
       case (Some(a), Some(b)) => Some(Range(a, b, family))
       case _ => None)
    case AddSubnet(value, prefix, family) =>
      (match AddressFamily(value, family)
       case None => None
       case Some(n) => Some(Subnet(ParsePrefix(n, PrefixOf(prefix)), PrefixOf(prefix), family)))
  }

  /** What an add appends to the rule vector. */
  function Pushed(add: Add): seq<BlockRule> {
    match RuleOf(add)
    case None => []
    case Some(rule) => [rule]
  }

  /** The rule vector after a sequence of adds. */
  function RulesAfter(adds: seq<Add>): seq<BlockRule> {
    if adds == [] then [] else RulesAfter(adds[..|adds| - 1]) + Pushed(adds[|adds| - 1])
  }

  /** `checkImpl`. */
  predicate CheckValue(rules: seq<BlockRule>, value: Option<Ip>, family: string) {
    match AddressFamily(value, family)
    case None => false
    case Some(a) => BlockListCheck(rules, a, Canonical(family))
  }

  /** The object: its rule vector only grows, by the rule of each accepted add. */
  class BlockListState {
    var rules: seq<BlockRule>

    constructor ()
      ensures rules == []
    {
      rules := [];
    }

    method PushAddress(value: Option<Ip>, family: string)
      modifies this
      ensures rules == old(rules) + Pushed(AddAddress(value, family))
    {
      match AddressFamily(value, family) {
        case Some(address) => rules := rules + [Address(address, family)];
        case None =>
      }
    }

    method PushRange(start: Option<Ip>, end: Option<Ip>, family: string)
      modifies this
      ensures rules == old(rules) + Pushed(AddRange(start, end, family))
    {
      var first, last := AddressFamily(start, family), AddressFamily(end, family);
      if first.Some? && last.Some? {
        rules := rules + [Range(first.value, last.value, family)];
      }
    }

    method PushSubnet(value: Option<Ip>, prefix: int, family: string)
      modifies this
      ensures rules == old(rules) + Pushed(AddSubnet(value, prefix, family))
    {
      match AddressFamily(value, family) {
        case Some(network) =>
          var p := PrefixOf(prefix);
          rules := rules + [Subnet(ParsePrefix(network, p), p, family)];
        case None =>
      }
    }

    method Check(value: Option<Ip>, family: string) returns (matched: bool)
      ensures matched == CheckValue(rules, value, family)
    {
      match AddressFamily(value, family) {
        case Some(address) => matched := BlockListCheck(rules, address, Canonical(family));
        case None => matched := false;
      }
    }
  }

  // ------------------------------------------------- what a verdict means

  /** The addresses an add asks to block; meaningful for accepted adds. */
  function AskedFor(add: Add): Interval
    requires RuleOf(add).Some?
  {
    match add
    case AddAddress(Some(a), _) => Interval(a.version, a.bits, a.bits)
    case AddRange(Some(a), Some(b), _) => Interval(a.version, a.bits, b.bits)
    case AddSubnet(Some(n), prefix, _) =>
      var p := PrefixOf(prefix);
      Interval(n.version, Floor(n, p), Floor(n, p) + BlockSize(n.version, p) - 1)
  }

  predicate Covers(add: Add, a: Ip) {
    RuleOf(add).Some? && Contains(AskedFor(add), a)
  }

  /** The width of an address, in the standards' numbers. */
  function AddressBits(version: Version): nat {
    match version case V4 => 32 case V6 => 128
  }

  /** A subnet is added with the number of leading bits its caller passes: it covers the addresses
      that share those bits. A negative number covers every address of the version, one from the
      width up to 32 bits the network's own address only. */
  lemma SubnetCoversItsPrefix(n: Ip, prefix: int, family: string, a: Ip)
    requires n.version == Expected(family) && a.version == n.version && prefix < 0x1_0000_0000
    ensures var w := AddressBits(n.version);
            Covers(AddSubnet(Some(n), prefix, family), a)
            <==> if prefix < 0 then true
                 else if prefix <= w then a.bits / Pow2(w - prefix) == n.bits / Pow2(w - prefix)
                 else a.bits == n.bits
  {
    SubnetCoversFor(n, prefix, family, a, AddressBits(n.version));
  }

  lemma SubnetCoversFor(n: Ip, prefix: int, family: string, a: Ip, w: nat)
    requires n.version == Expected(family) && a.version == n.version && prefix < 0x1_0000_0000
    requires w == n.version.Width()
    ensures Covers(AddSubnet(Some(n), prefix, family), a)
            <==> if prefix < 0 then true
                 else if prefix <= w then a.bits / Pow2(w - prefix) == n.bits / Pow2(w - prefix)
                 else a.bits == n.bits
  {
    BlockSizeFor(n.version, if prefix < 0 then 0 else prefix, w);
    if prefix < 0 {
      CoversQuotient(n, prefix, 0, family, a, Pow2(w));
      WholeRangeIsOneBlock(a.bits, Pow2(w));
      WholeRangeIsOneBlock(n.bits, Pow2(w));
    } else if prefix <= w {
      CoversQuotient(n, prefix, prefix, family, a, Pow2(w - prefix));
    } else {
      CoversQuotient(n, prefix, prefix, family, a, 1);
    }
  }

  lemma BlockSizeFor(version: Version, p: nat, w: nat)
    requires w == version.Width()
    ensures BlockSize(version, p) == Pow2(if p <= w then w - p else 0)
  {
  }

  lemma CoversQuotient(n: Ip, prefix: int, p: nat, family: string, a: Ip, size: nat)
    requires n.version == Expected(family) && a.version == n.version
    requires p == PrefixOf(prefix) && size == BlockSize(n.version, p)
    ensures Covers(AddSubnet(Some(n), prefix, family), a) <==> a.bits / size == n.bits / size
  {
    CoversBlock(n, prefix, p, family, a, size);
    SameBlock(a.bits, n.bits, size);
  }

  lemma CoversBlock(n: Ip, prefix: int, p: nat, family: string, a: Ip, size: nat)
    requires n.version == Expected(family) && a.version == n.version
    requires p == PrefixOf(prefix) && size == BlockSize(n.version, p)
    ensures Covers(AddSubnet(Some(n), prefix, family), a) <==> RoundDown(a.bits, size) == RoundDown(n.bits, size)
  {
    RoundDownAgrees(a.bits, n.bits, size);
    assert AskedFor(AddSubnet(Some(n), prefix, family))
        == Interval(n.version, RoundDown(n.bits, size), RoundDown(n.bits, size) + size - 1);
  }

  lemma SameBlock(x: nat, y: nat, size: nat)
    requires size > 0
    ensures RoundDown(x, size) == RoundDown(y, size) <==> x / size == y / size
  {
    assert RoundDown(x, size) == size * (x / size) && RoundDown(y, size) == size * (y / size);
    if x / size != y / size {
      MultiplesAreFarApart(x / size - y / size, size);
      assert size * (x / size) - size * (y / size) == (x / size - y / size) * size;
    }
  }

  lemma WholeRangeIsOneBlock(x: nat, size: nat)
    requires x < size
    ensures x / size == 0
  {
    QuotientIsUnique(x, size, 0, x);
  }

  /** Of a longer number only the low 32 bits count. */
  lemma WidePrefixesAreCut(value: Option<Ip>, prefix: nat, family: string)
    ensures RuleOf(AddSubnet(value, prefix + 0x1_0000_0000, family)) == RuleOf(AddSubnet(value, prefix, family))
  {
    var p := PrefixOf(prefix);
    assert PrefixOf(prefix + 0x1_0000_0000) == p;
  }

  lemma RuleOfCovers(add: Add, a: Ip, family: string)
    ensures (RuleOf(add).Some? && RuleMatches(RuleOf(add).value, a, family)) <==> add.family == family && Covers(add, a)
  {
    if RuleOf(add).Some? {
      RuleIsInterval(RuleOf(add).value, a, family);
      if add.AddSubnet? {
        ParsePrefixIsIdempotent(add.value.value, PrefixOf(add.prefix));
      }
    }
  }

  predicate SomeAddCovers(adds: seq<Add>, a: Ip, family: string) {
    exists i | 0 <= i < |adds| :: adds[i].family == family && Covers(adds[i], a)
  }

  lemma CheckOfAppend(rules: seq<BlockRule>, rule: BlockRule, a: Ip, family: string)
    ensures BlockListCheck(rules + [rule], a, family) <==> BlockListCheck(rules, a, family) || RuleMatches(rule, a, family)
  {
    CheckIsAny(rules, a, family);
    CheckIsAny(rules + [rule], a, family);
    assert (rules + [rule])[|rules|] == rule;
    assert forall i | 0 <= i < |rules| :: (rules + [rule])[i] == rules[i];
  }

  /** What one more add covers. */
  lemma OneMoreCovers(init: seq<Add>, last: Add, a: Ip, family: string)
    ensures SomeAddCovers(init + [last], a, family)
            <==> SomeAddCovers(init, a, family) || (last.family == family && Covers(last, a))
  {
    var adds := init + [last];
    assert adds[|init|] == last;
    assert forall i | 0 <= i < |init| :: adds[i] == init[i];
  }

  /** What one more add makes the list match. */
  lemma OneMoreMatches(init: seq<Add>, last: Add, a: Ip, family: string)
    ensures BlockListCheck(RulesAfter(init + [last]), a, family)
            <==> BlockListCheck(RulesAfter(init), a, family) || (last.family == family && Covers(last, a))
  {
    assert (init + [last])[..|init|] == init;
    RuleOfCovers(last, a, family);
    if RuleOf(last).Some? {
      CheckOfAppend(RulesAfter(init), RuleOf(last).value, a, family);
    } else {
      assert RulesAfter(init) + [] == RulesAfter(init);
    }
  }

  lemma {:induction false} RulesCover(adds: seq<Add>, a: Ip, family: string)
    ensures BlockListCheck(RulesAfter(adds), a, family) <==> SomeAddCovers(adds, a, family)
  {
    if adds == [] {
    } else {
      var init, last := adds[..|adds| - 1], adds[|adds| - 1];
      assert adds == init + [last];
      RulesCover(init, a, family);
      OneMoreMatches(init, last, a, family);
      OneMoreCovers(init, last, a, family);
    }
  }

  /** After any adds, a check answers yes exactly when the value's version is the one asked for and
      the address lies in the union of the intervals of the accepted adds whose family text is
      letter for letter the one the check compares with. */
  lemma VerdictIsUnion(adds: seq<Add>, value: Option<Ip>, family: string)
    ensures CheckValue(RulesAfter(adds), value, family)
            <==> AddressFamily(value, family).Some? && SomeAddCovers(adds, value.value, Canonical(family))
  {
    if value.Some? {
      RulesCover(adds, value.value, Canonical(family));
    }
  }

  /** What the list is meant to answer: the union of the accepted intervals, spelling aside. */
  predicate Intended(adds: seq<Add>, value: Option<Ip>, family: string) {
    AddressFamily(value, family).Some? && exists i | 0 <= i < |adds| :: Covers(adds[i], value.value)
  }

  /** No add makes any check of an IPv6 address, nor any check under the text "ipv6", answer yes. */
  lemma Ipv6IsNeverBlocked(adds: seq<Add>, value: Option<Ip>, family: string)
    requires (value.Some? && value.value.version == V6) || family == "ipv6"
    ensures !CheckValue(RulesAfter(adds), value, family)
  {
    if AddressFamily(value, family).Some? {
      VerdictIsUnion(adds, value, family);
      NoAddSpelledIPv6Covers(adds, value.value);
    }
  }

  /** An add spelled "IPv6" accepts IPv4 values only. */
  lemma NoAddSpelledIPv6Covers(adds: seq<Add>, a: Ip)
    requires a.version == V6
    ensures !SomeAddCovers(adds, a, "IPv6")
  {
    assert "IPv6"[0] == 'I' && "ipv6"[0] == 'i';
    assert Expected("IPv6") == V4;
  }

  /** The spelling the string wrappers pass for IPv4 blocks nothing either, under any text of the
      check, though every text but "ipv6" asks about the very address that was added. */
  lemma LowercaseAddIsIgnored(a: Ip, value: Option<Ip>, family: string)
    requires a.version == V4
    ensures Intended([AddAddress(Some(a), "ipv4")], Some(a), family) <==> family != "ipv6"
    ensures !CheckValue(RulesAfter([AddAddress(Some(a), "ipv4")]), value, family)
  {
    var adds := [AddAddress(Some(a), "ipv4")];
    assert "ipv4"[3] == '4' && "ipv6"[3] == '6' && "IPv4"[0] == "IPv6"[0] == 'I' && "ipv4"[0] == 'i';
    VerdictIsUnion(adds, value, family);
    assert Covers(adds[0], a);
  }

  /** The list answers every check as intended. */
  ghost predicate AnswersAsIntended(adds: seq<Add>) {
    forall value, family :: CheckValue(RulesAfter(adds), value, family) == Intended(adds, value, family)
  }

  /** Every address an add spelled otherwise covers is covered by one spelled "IPv4" as well. */
  ghost predicate SpelledWell(adds: seq<Add>) {
    forall i, a: Ip | 0 <= i < |adds| && adds[i].family != "IPv4" && Covers(adds[i], a) :: SomeAddCovers(adds, a, "IPv4")
  }

  /** For one query: the verdict is the intended one iff the address is covered by no add, or by
      one with the spelling that is compared. */
  lemma VerdictAsIntended(adds: seq<Add>, value: Option<Ip>, family: string)
    requires AddressFamily(value, family).Some?
    ensures CheckValue(RulesAfter(adds), value, family) == Intended(adds, value, family)
            <==> (Intended(adds, value, family) ==> SomeAddCovers(adds, value.value, Canonical(family)))
  {
    VerdictIsUnion(adds, value, family);
  }

  lemma CanonicalCoversOnlyV4(adds: seq<Add>, a: Ip, family: string)
    requires a.version == Expected(family)
    ensures SomeAddCovers(adds, a, Canonical(family)) <==> SomeAddCovers(adds, a, "IPv4")
  {
    assert "IPv4"[0] == "IPv6"[0] == 'I' && "ipv6"[0] == 'i';
    assert forall i | 0 <= i < |adds| ::
      adds[i].family == "IPv6" || adds[i].family == "IPv4" ==> Expected(adds[i].family) == V4;
  }

  /** The list answers as intended exactly when nothing depends on an add spelled otherwise than
      "IPv4". A caller who spells every accepted add so has that for nothing. */
  lemma SpellingDecides(adds: seq<Add>)
    ensures AnswersAsIntended(adds) <==> SpelledWell(adds)
    ensures (forall i | 0 <= i < |adds| && RuleOf(adds[i]).Some? :: adds[i].family == "IPv4") ==> SpelledWell(adds)
  {
    if AnswersAsIntended(adds) {
      forall i, a: Ip | 0 <= i < |adds| && adds[i].family != "IPv4" && Covers(adds[i], a)
        ensures SomeAddCovers(adds, a, "IPv4")
      {
        var family := if a.version == V6 then "ipv6" else "ipv4";
        assert "ipv4"[3] == '4' && "ipv6"[3] == '6';
        assert Intended(adds, Some(a), family);
        VerdictAsIntended(adds, Some(a), family);
        CanonicalCoversOnlyV4(adds, a, family);
      }
    }
    if SpelledWell(adds) {
      forall value, family ensures CheckValue(RulesAfter(adds), value, family) == Intended(adds, value, family) {
        if AddressFamily(value, family).Some? {
          VerdictAsIntended(adds, value, family);
          CanonicalCoversOnlyV4(adds, value.value, family);
        }
      }
    }
  }

  /** One accepted add that covers anything is answered as intended iff it is spelled "IPv4". */
  lemma OneAddNeedsTheSpelling(add: Add, a: Ip)
    requires Covers(add, a)
    ensures AnswersAsIntended([add]) <==> add.family == "IPv4"
  {
    SpellingDecides([add]);
    assert [add][0] == add;
    assert SpelledWell([add]) ==> add.family == "IPv4" || SomeAddCovers([add], a, "IPv4");
  }
}

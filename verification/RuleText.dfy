/** The text `rules` prints for a rule can be read back. */
module RuleText {
  import opened Base
  import opened Prefix
  import opened BlockList

  /** `IpAddr`'s own text form and its parser, which are not part of this model. */
  type Printer = Ip -> string
  type Reader = string -> Ip

  predicate Separator(c: char) {
    c == ' ' || c == '/' || c == '-'
  }

  /** The printed form holds no separator and the reader undoes it, so the printer is injective. */
  ghost predicate ReadsBack(show: Printer, read: Reader) {
    forall a: Ip :: read(show(a)) == a && forall i | 0 <= i < |show(a)| :: !Separator(show(a)[i])
  }

  // ---------------------------------------------------------------- decimals

  function Digit(d: nat): char
    requires d < 10
  {
    '0' + d as char
  }

  /** A number in decimal. */
  function Decimal(n: nat): string {
    if n < 10 then [Digit(n)] else Decimal(n / 10) + [Digit(n % 10)]
  }

  function DigitValue(c: char): nat {
    if '0' <= c <= '9' then (c - '0') as nat else 0
  }

  function ReadDecimal(s: string): nat {
    if s == [] then 0 else 10 * ReadDecimal(s[..|s| - 1]) + DigitValue(s[|s| - 1])
  }

  lemma {:induction false} DecimalReadsBack(n: nat)
    ensures ReadDecimal(Decimal(n)) == n
    ensures forall i | 0 <= i < |Decimal(n)| :: !Separator(Decimal(n)[i])
  {
    if n >= 10 {
      DecimalReadsBack(n / 10);
      var text := Decimal(n);
      assert text[..|text| - 1] == Decimal(n / 10);
    } else {
      assert Decimal(n)[..0] == [];
    }
  }

  // --------------------------------------------------------- texts and fields

  /** `block_list_rule_text`. */
  function Text(rule: BlockRule, show: Printer): string {
    match rule
    case Address(a, f) => "Address" + ": " + (show(a) + (" " + f))
    case Subnet(n, p, f) => "Subnet" + ": " + (show(n) + ("/" + (Decimal(p) + (" " + f))))
    case Range(a, b, f) => "Range" + ": " + (show(a) + ("-" + (show(b) + (" " + f))))
  }

  /** What stands before the first `c`, or the whole text. */
  function Before(s: string, c: char): (r: string)
    ensures |r| <= |s|
  {
    if s == [] || s[0] == c then [] else [s[0]] + Before(s[1..], c)
  }

  /** What stands after the first `c`. */
  function AfterFirst(s: string, c: char): string {
    var k := |Before(s, c)| + 1;
    if k <= |s| then s[k..] else []
  }

  lemma {:induction false} FieldIsFound(field: string, c: char, rest: string)
    requires forall i | 0 <= i < |field| :: field[i] != c
    ensures Before(field + ([c] + rest), c) == field
    ensures AfterFirst(field + ([c] + rest), c) == rest
  {
    var s := field + ([c] + rest);
    if field == [] {
      assert s == [c] + rest;
    } else {
      FieldIsFound(field[1..], c, rest);
      assert s[1..] == field[1..] + ([c] + rest);
    }
  }

  /** Reads a rule text by its label: the three words the program prints, and no other. */
  function ReadRule(s: string, read: Reader): Option<BlockRule> {
    var body := AfterFirst(s, ' ');
    if Before(s, ':') == "Address" then
      Some(Address(read(Before(body, ' ')), AfterFirst(body, ' ')))
    else if Before(s, ':') == "Subnet" then
      var tail := AfterFirst(body, '/');
      Some(Subnet(read(Before(body, '/')), ReadDecimal(Before(tail, ' ')), AfterFirst(tail, ' ')))
    else if Before(s, ':') == "Range" then
      var tail := AfterFirst(body, '-');
      Some(Range(read(Before(body, '-')), read(Before(tail, ' ')), AfterFirst(tail, ' ')))
    else
      None
  }

  lemma LabelIsFound(kind: string, body: string)
    requires forall i | 0 <= i < |kind| :: kind[i] != ':' && kind[i] != ' '
    ensures var s := kind + ": " + body;
            Before(s, ':') == kind && AfterFirst(s, ' ') == body
  {
    var s := kind + ": " + body;
    assert s == kind + ([':'] + (" " + body));
    FieldIsFound(kind, ':', " " + body);
    assert s == (kind + ":") + ([' '] + body);
    FieldIsFound(kind + ":", ' ', body);
  }

  lemma AddressReadsBack(a: Ip, f: string, show: Printer, read: Reader)
    requires ReadsBack(show, read)
    ensures ReadRule(Text(Address(a, f), show), read) == Some(Address(a, f))
  {
    LabelIsFound("Address", show(a) + (" " + f));
    FieldIsFound(show(a), ' ', f);
  }

  lemma SubnetReadsBack(n: Ip, p: nat, f: string, show: Printer, read: Reader)
    requires ReadsBack(show, read)
    ensures ReadRule(Text(Subnet(n, p, f), show), read) == Some(Subnet(n, p, f))
  {
    DecimalReadsBack(p);
    LabelIsFound("Subnet", show(n) + ("/" + (Decimal(p) + (" " + f))));
    assert "Subnet"[0] != "Address"[0];
    FieldIsFound(show(n), '/', Decimal(p) + (" " + f));
    FieldIsFound(Decimal(p), ' ', f);
  }

  lemma RangeReadsBack(a: Ip, b: Ip, f: string, show: Printer, read: Reader)
    requires ReadsBack(show, read)
    ensures ReadRule(Text(Range(a, b, f), show), read) == Some(Range(a, b, f))
  {
    LabelIsFound("Range", show(a) + ("-" + (show(b) + (" " + f))));
    assert "Range"[0] != "Address"[0] && "Range"[0] != "Subnet"[0];
    FieldIsFound(show(a), '-', show(b) + (" " + f));
    FieldIsFound(show(b), ' ', f);
  }

  /** Every rule, with any prefix and any family text, is read back from its text. */
  lemma RuleTextIsDecodable(rule: BlockRule, show: Printer, read: Reader)
    requires ReadsBack(show, read)
    ensures ReadRule(Text(rule, show), read) == Some(rule)
  {
    match rule {
      case Address(a, f) => AddressReadsBack(a, f, show, read);
      case Subnet(n, p, f) => SubnetReadsBack(n, p, f, show, read);
      case Range(a, b, f) => RangeReadsBack(a, b, f, show, read);
    }
  }

  /** `rulesImpl`. */
  function Texts(rules: seq<BlockRule>, show: Printer): (texts: seq<string>)
    ensures |texts| == |rules|
  {
    if rules == [] then [] else [Text(rules[0], show)] + Texts(rules[1..], show)
  }

  function ReadRules(texts: seq<string>, read: Reader): seq<Option<BlockRule>> {
    if texts == [] then [] else [ReadRule(texts[0], read)] + ReadRules(texts[1..], read)
  }

  /** `rules` lists the rule vector faithfully and in order. */
  lemma {:induction false} RulesAreListedFaithfully(rules: seq<BlockRule>, show: Printer, read: Reader)
    requires ReadsBack(show, read)
    ensures |ReadRules(Texts(rules, show), read)| == |rules|
    ensures forall i | 0 <= i < |rules| :: ReadRules(Texts(rules, show), read)[i] == Some(rules[i])
  {
    if rules == [] {
    } else {
      RuleTextIsDecodable(rules[0], show, read);
      RulesAreListedFaithfully(rules[1..], show, read);
      assert Texts(rules, show)[1..] == Texts(rules[1..], show);
    }
  }
}

/**
 * The driver-pack matcher: which of the candidate pack versions a machine gets, and in which order.
 * Ids are modelled as numbers, since only their order matters.
 */
module DriverPacks {
  import opened StableSort
  import opened Text
  import Lex

  // ----- text -----

  const LONG_S: char := '\U{017F}'
  const KELVIN_SIGN: char := '\U{212A}'

  function LowerChar(c: char): char {
    if 'A' <= c <= 'Z' then (c as int + 32) as char else if c == KELVIN_SIGN then 'k' else c
  }

  /** strings.ToLower and SQL's lower. */
  function Lower(s: string): string { seq(|s|, i requires 0 <= i < |s| => LowerChar(s[i])) }

  /** Case folding also identifies the long s with s, which lower-casing does not. */
  function FoldChar(c: char): char { if c == LONG_S then 's' else LowerChar(c) }

  function Fold(s: string): string { seq(|s|, i requires 0 <= i < |s| => FoldChar(s[i])) }

  predicate EqualFold(a: string, b: string) { Fold(a) == Fold(b) }

  predicate IsSpace(c: char) {
    || c in "\t\n\U{0B}\U{0C}\r \U{85}\U{A0}\U{1680}\U{2028}\U{2029}\U{202F}\U{205F}\U{3000}"
    || '\U{2000}' <= c <= '\U{200A}'
  }

  function TrimSpace(s: string): string {
    if s == "" then ""
    else if IsSpace(s[0]) then TrimSpace(s[1..])
    else if IsSpace(s[|s| - 1]) then TrimSpace(s[..|s| - 1])
    else s
  }

  function Normalize(s: string): string { Lower(TrimSpace(s)) }

  predicate HasPrefix(s: string, p: string) { p <= s }

  lemma {:induction false} TrimBack(s: string, c: char)
    requires IsSpace(c)
    ensures TrimSpace(s + [c]) == TrimSpace(s)
  {
    hide IsSpace;
    var t := s + [c];
    assert t[..|t| - 1] == s;
    if s != "" && IsSpace(s[0]) {
      assert t[1..] == s[1..] + [c];
      TrimBack(s[1..], c);
    }
  }

  lemma TrimFront(s: string, c: char)
    requires IsSpace(c)
    ensures TrimSpace([c] + s) == TrimSpace(s)
  {
    hide IsSpace;
    assert ([c] + s)[1..] == s;
  }

  lemma LowerKeepsSpace(c: char)
    ensures IsSpace(LowerChar(c)) <==> IsSpace(c)
  {
  }

  lemma {:induction false} LowerThenTrim(s: string)
    ensures Lower(TrimSpace(s)) == TrimSpace(Lower(s))
  {
    hide IsSpace, LowerChar;
    if s != "" {
      var low := Lower(s);
      LowerKeepsSpace(s[0]);
      LowerKeepsSpace(s[|s| - 1]);
      assert low[0] == LowerChar(s[0]) && low[|low| - 1] == LowerChar(s[|s| - 1]);
      assert low[1..] == Lower(s[1..]) && low[..|low| - 1] == Lower(s[..|s| - 1]);
      if IsSpace(s[0]) {
        LowerThenTrim(s[1..]);
      } else if IsSpace(s[|s| - 1]) {
        LowerThenTrim(s[..|s| - 1]);
      }
    }
  }

  ghost predicate AllSpace(s: string) { forall i :: 0 <= i < |s| ==> IsSpace(s[i]) }

  /** Names compare without regard to case or surrounding white space. */
  lemma {:induction false} NormalizeForgets(front: string, a: string, b: string, back: string)
    requires AllSpace(front) && AllSpace(back) && Lower(a) == Lower(b)
    ensures Normalize(front + a + back) == Normalize(b)
    decreases |front| + |back|
  {
    hide IsSpace, Lower, TrimSpace;
    if front != "" {
      NormalizeForgets(front[1..], a, b, back);
      TrimFront(front[1..] + a + back, front[0]);
      assert front + a + back == [front[0]] + (front[1..] + a + back);
    } else if back != "" {
      var last := |back| - 1;
      NormalizeForgets(front, a, b, back[..last]);
      TrimBack(front + a + back[..last], back[last]);
      assert front + a + back == front + a + back[..last] + [back[last]];
    } else {
      assert front + a + back == a;
      LowerThenTrim(a);
      LowerThenTrim(b);
    }
  }

  ghost predicate Bare(s: string) { s != "" ==> !IsSpace(s[0]) && !IsSpace(s[|s| - 1]) }

  /** Every string is a bare one between white space. */
  lemma {:induction false} TrimSpaceMeaning(s: string) returns (front: string, back: string)
    ensures s == front + TrimSpace(s) + back && AllSpace(front) && AllSpace(back) && Bare(TrimSpace(s))
  {
    hide IsSpace;
    front, back := "", "";
    if s != "" {
      var last := |s| - 1;
      if IsSpace(s[0]) {
        front, back := TrimSpaceMeaning(s[1..]);
        front := [s[0]] + front;
        assert s == [s[0]] + s[1..];
      } else if IsSpace(s[last]) {
        front, back := TrimSpaceMeaning(s[..last]);
        back := back + [s[last]];
        assert s == s[..last] + [s[last]];
      }
    }
  }

  /** And what names are compared by is that string in lower case. */
  lemma NormalizeIs(front: string, mid: string, back: string)
    requires AllSpace(front) && AllSpace(back) && Bare(mid)
    ensures Normalize(front + mid + back) == Lower(mid)
  {
    NormalizeForgets(front, mid, mid, back);
    assert TrimSpace(mid) == mid;
  }

  /** Lower-casing works letter by letter on the Latin letters and the Kelvin sign, and on nothing else. */
  lemma LowerMeaning(s: string, i: nat, k: nat)
    requires i < |s| && k < 26
    ensures |Lower(s)| == |s|
    ensures s[i] == CAPITALS[k] ==> Lower(s)[i] == SMALL[k]
    ensures s[i] == KELVIN_SIGN ==> Lower(s)[i] == 'k'
    ensures s[i] !in CAPITALS && s[i] != KELVIN_SIGN ==> Lower(s)[i] == s[i]
  {
    Alphabets(s[i]);
    Letter(k);
  }

  /** Two names fold alike exactly when, letter by letter, they lower alike or are both a form of s. */
  lemma EqualFoldMeaning(a: string, b: string)
    ensures EqualFold(a, b) <==> |a| == |b| && forall i :: 0 <= i < |a| ==>
                                   LowerChar(a[i]) == LowerChar(b[i]) || (a[i] in "sS\U{017F}" && b[i] in "sS\U{017F}")
  {
    if EqualFold(a, b) {
      assert |Fold(a)| == |a| && |Fold(b)| == |b|;
      forall i | 0 <= i < |a|
        ensures LowerChar(a[i]) == LowerChar(b[i]) || (a[i] in "sS\U{017F}" && b[i] in "sS\U{017F}")
      {
        assert Fold(a)[i] == FoldChar(a[i]) && Fold(b)[i] == FoldChar(b[i]);
      }
    }
  }

  // ----- fingerprints, packs, tiers -----

  datatype PciId = PciId(vid: string, did: string)

  datatype Fingerprint = Fingerprint(dmiVendor: string, dmiProduct: string, dmiBaseboard: string,
                                     pciDevices: seq<PciId>, osFamily: string, osVersion: string)

  datatype Rule = Rule(kind: string, value: string)

  datatype PackVersion = PackVersion(id: nat, packId: nat, vendor: string, model: string, osFamily: string,
                                     osVersion: string, tag: string, rules: seq<Rule>)

  const TIER_PCI: nat := 1
  const TIER_PRODUCT: nat := 2
  const TIER_BOARD: nat := 3
  const TIER_VENDOR_OS: nat := 4
  const TIER_VENDOR: nat := 5
  const NO_MATCH: nat := 99

  function EvalRule(r: Rule, pci: set<string>, vendor: string, product: string, board: string, os: string): nat {
    match r.kind
    case "pci-vid-did" => if Lower(r.value) in pci then TIER_PCI else NO_MATCH
    case "dmi-product" => if product != "" && Normalize(r.value) == product then TIER_PRODUCT else NO_MATCH
    case "dmi-product-prefix" =>
      if product != "" && r.value != "" && HasPrefix(product, Normalize(r.value)) then TIER_PRODUCT else NO_MATCH
    case "dmi-baseboard" => if board != "" && Normalize(r.value) == board then TIER_BOARD else NO_MATCH
    case "dmi-vendor" => if vendor != "" && Normalize(r.value) == vendor then TIER_VENDOR else NO_MATCH
    case "os-version" => if os != "" && HasPrefix(os, r.value) then TIER_VENDOR_OS else NO_MATCH
    case _ => NO_MATCH
  }

  predicate OsCompatible(pv: PackVersion, fp: Fingerprint) {
    && EqualFold(pv.osFamily, fp.osFamily)
    && (pv.osVersion == "" || pv.osVersion == "any" || HasPrefix(fp.osVersion, pv.osVersion))
  }

  /** A pack fits when the families fold alike and its version begins the machine's, unless it is for any version. */
  lemma OsCompatibleMeaning(pv: PackVersion, fp: Fingerprint)
    ensures OsCompatible(pv, fp) <==>
            && EqualFold(pv.osFamily, fp.osFamily)
            && (pv.osVersion in {"", "any"} || exists rest :: fp.osVersion == pv.osVersion + rest)
  {
    hide EqualFold;
    PrefixMeaning(fp.osVersion, pv.osVersion);
  }

  lemma PrefixMeaning(s: string, p: string)
    ensures HasPrefix(s, p) <==> exists rest :: s == p + rest
  {
    if HasPrefix(s, p) {
      assert s == p + s[|p|..];
    }
  }

  /** A pack for a version covers every later release of it, and one for any version or none covers them all. */
  lemma CoversReleases(pv: PackVersion, fp: Fingerprint, suffix: string)
    ensures OsCompatible(pv, fp) ==> OsCompatible(pv, fp.(osVersion := fp.osVersion + suffix))
    ensures pv.osVersion in {"", "any", fp.osVersion} ==> (OsCompatible(pv, fp) <==> EqualFold(pv.osFamily, fp.osFamily))
    ensures OsCompatible(pv, fp) && |pv.osVersion| > 3 ==> |fp.osVersion| >= |pv.osVersion|
  {
    hide EqualFold;
  }

  function PciKey(p: PciId): string { Lower(p.vid + ":" + p.did) }

  function PciKeys(devices: seq<PciId>): set<string> { set p | p in devices :: PciKey(p) }

  function RuleTier(fp: Fingerprint, r: Rule): nat {
    EvalRule(r, PciKeys(fp.pciDevices), Normalize(fp.dmiVendor), Normalize(fp.dmiProduct),
             Normalize(fp.dmiBaseboard), fp.osVersion)
  }

  function BestTier(fp: Fingerprint, rules: seq<Rule>): nat {
    if rules == [] then NO_MATCH
    else
      var best := BestTier(fp, rules[..|rules| - 1]);
      var t := RuleTier(fp, rules[|rules| - 1]);
      if t < best then t else best
  }

  lemma {:induction false} BestTierIsLeast(fp: Fingerprint, rules: seq<Rule>)
    ensures forall r :: r in rules ==> BestTier(fp, rules) <= RuleTier(fp, r)
    ensures BestTier(fp, rules) == NO_MATCH || exists r :: r in rules && RuleTier(fp, r) == BestTier(fp, rules)
    ensures BestTier(fp, rules) <= NO_MATCH
  {
    hide RuleTier;
    if rules != [] {
      var front, last := rules[..|rules| - 1], rules[|rules| - 1];
      BestTierIsLeast(fp, front);
      assert rules == front + [last];
      assert last in rules;
    }
  }

  /** The same rules, leaving aside order, repetition and rules with an empty type. */
  ghost predicate SameRules(a: seq<Rule>, b: seq<Rule>) { forall r: Rule :: r.kind != "" ==> (r in a <==> r in b) }

  /** The tier of a pack depends on which rules it has, not on their order or repetition. */
  lemma BestTierOfSet(fp: Fingerprint, a: seq<Rule>, b: seq<Rule>)
    requires SameRules(a, b)
    ensures BestTier(fp, a) == BestTier(fp, b)
  {
    hide RuleTier, BestTier;
    BestTierIsLeast(fp, a);
    BestTierIsLeast(fp, b);
    forall r: Rule | r.kind == ""
      ensures RuleTier(fp, r) == NO_MATCH
    {
      BlankRule(fp, r);
    }
  }

  lemma BlankRule(fp: Fingerprint, r: Rule)
    requires r.kind == ""
    ensures RuleTier(fp, r) == NO_MATCH
  {
    hide Normalize, Lower, PciKeys, HasPrefix;
  }

  // ----- the answer -----

  /** What the sort looks at, and the id. */
  datatype Card = Card(tier: nat, vendor: string, model: string, tag: string, id: nat)

  predicate Less(a: Card, b: Card) {
    if a.tier != b.tier then a.tier < b.tier
    else if a.vendor != b.vendor then Lex.Le(a.vendor, b.vendor)
    else if a.model != b.model then Lex.Le(a.model, b.model)
    else Lex.Le(a.tag, b.tag) && a.tag != b.tag
  }

  predicate NotAfter(a: Card, b: Card) { !Less(b, a) }

  function CardOf(fp: Fingerprint, pv: PackVersion): Card {
    Card(BestTier(fp, pv.rules), pv.vendor, pv.model, pv.tag, pv.id)
  }

  function VersionOrder(fp: Fingerprint): (PackVersion, PackVersion) -> bool {
    (p: PackVersion, q: PackVersion) => NotAfter(CardOf(fp, p), CardOf(fp, q))
  }

  predicate Wanted(fp: Fingerprint, pv: PackVersion) {
    OsCompatible(pv, fp) && BestTier(fp, pv.rules) != NO_MATCH
  }

  function Chosen(fp: Fingerprint, s: seq<PackVersion>): seq<PackVersion> {
    if s == [] then []
    else Chosen(fp, s[..|s| - 1]) + (if Wanted(fp, s[|s| - 1]) then [s[|s| - 1]] else [])
  }

  function Answer(fp: Fingerprint, s: seq<PackVersion>): seq<PackVersion> { Sort(VersionOrder(fp), Chosen(fp, s)) }

  lemma LessTotal(a: Card, b: Card)
    ensures NotAfter(a, b) || NotAfter(b, a)
    ensures NotAfter(a, a)
  {
    if Less(a, b) && Less(b, a) {
      if a.vendor != b.vendor {
        Lex.Antisymmetric(a.vendor, b.vendor);
      } else if a.model != b.model {
        Lex.Antisymmetric(a.model, b.model);
      } else {
        Lex.Antisymmetric(a.tag, b.tag);
      }
    }
  }

  /** The same order said positively: key by key. */
  predicate Before(a: Card, b: Card) {
    || a.tier < b.tier
    || (a.tier == b.tier &&
        if a.vendor != b.vendor then Lex.Le(a.vendor, b.vendor)
        else if a.model != b.model then Lex.Le(a.model, b.model)
        else Lex.Le(a.tag, b.tag))
  }

  lemma NotAfterIsBefore(a: Card, b: Card)
    ensures NotAfter(a, b) <==> Before(a, b)
  {
    hide Lex.Le;
    Lex.Total(a.vendor, b.vendor);
    Lex.Total(a.model, b.model);
    Lex.Total(a.tag, b.tag);
    if Lex.Le(a.vendor, b.vendor) && Lex.Le(b.vendor, a.vendor) { Lex.Antisymmetric(a.vendor, b.vendor); }
    if Lex.Le(a.model, b.model) && Lex.Le(b.model, a.model) { Lex.Antisymmetric(a.model, b.model); }
    if Lex.Le(a.tag, b.tag) && Lex.Le(b.tag, a.tag) { Lex.Antisymmetric(a.tag, b.tag); }
  }

  lemma BeforeTransitive(a: Card, b: Card, c: Card)
    requires Before(a, b) && Before(b, c)
    ensures Before(a, c)
  {
    hide Lex.Le;
    if a.tier == b.tier == c.tier {
      if a.vendor != b.vendor && b.vendor != c.vendor {
        Lex.Transitive(a.vendor, b.vendor, c.vendor);
        if a.vendor == c.vendor { Lex.Antisymmetric(a.vendor, b.vendor); }
      } else if a.vendor == b.vendor == c.vendor {
        if a.model != b.model && b.model != c.model {
          Lex.Transitive(a.model, b.model, c.model);
          if a.model == c.model { Lex.Antisymmetric(a.model, b.model); }
        } else if a.model == b.model == c.model {
          Lex.Transitive(a.tag, b.tag, c.tag);
        }
      }
    }
  }

  lemma NotAfterIsPreorder()
    ensures TotalPreorder(NotAfter)
  {
    hide Less, Before, NotAfter;
    forall a, b
      ensures NotAfter(a, b) || NotAfter(b, a)
    {
      LessTotal(a, b);
    }
    forall a, b, c | NotAfter(a, b) && NotAfter(b, c)
      ensures NotAfter(a, c)
    {
      NotAfterIsBefore(a, b);
      NotAfterIsBefore(b, c);
      NotAfterIsBefore(a, c);
      BeforeTransitive(a, b, c);
    }
  }

  lemma VersionOrderIsPreorder(fp: Fingerprint)
    ensures TotalPreorder(VersionOrder(fp))
  {
    hide NotAfter, CardOf;
    NotAfterIsPreorder();
  }

  // ----- what the answer is -----

  /** A version is wanted when it fits the operating system and at least one of its rules matches. */
  lemma WantedMeaning(fp: Fingerprint, pv: PackVersion)
    ensures Wanted(fp, pv) <==>
            && EqualFold(pv.osFamily, fp.osFamily)
            && (pv.osVersion in {"", "any"} || exists rest :: fp.osVersion == pv.osVersion + rest)
            && exists r :: r in pv.rules && Applies(fp, r)
  {
    hide RuleTier, BestTier, Applies, OsCompatible, EqualFold;
    OsCompatibleMeaning(pv, fp);
    BestTierIsLeast(fp, pv.rules);
    forall r
      ensures RuleTier(fp, r) <= NO_MATCH && (Applies(fp, r) <==> RuleTier(fp, r) != NO_MATCH)
    {
      RuleTierMeaning(fp, r);
    }
  }

  lemma {:induction false} ChosenCounts(fp: Fingerprint, s: seq<PackVersion>, pv: PackVersion)
    ensures multiset(Chosen(fp, s))[pv] == if Wanted(fp, pv) then multiset(s)[pv] else 0
  {
    hide Wanted;
    if s != [] {
      ChosenCounts(fp, s[..|s| - 1], pv);
      assert s == s[..|s| - 1] + [s[|s| - 1]];
    }
  }

  /** The answer holds each wanted candidate exactly as often as it was given, and nothing else; it is in
      priority order, and candidates that tie stay in the order they came in. */
  lemma AnswerIsExact(fp: Fingerprint, s: seq<PackVersion>)
    ensures forall pv :: multiset(Answer(fp, s))[pv] == if Wanted(fp, pv) then multiset(s)[pv] else 0
    ensures StableSortOf(VersionOrder(fp), Chosen(fp, s), Answer(fp, s))
  {
    hide Wanted, Chosen, VersionOrder;
    VersionOrderIsPreorder(fp);
    SortIsStable(VersionOrder(fp), Chosen(fp, s));
    SortKeeps(VersionOrder(fp), Chosen(fp, s));
    forall pv
      ensures multiset(Answer(fp, s))[pv] == if Wanted(fp, pv) then multiset(s)[pv] else 0
    {
      ChosenCounts(fp, s, pv);
    }
  }

  /** No other list meets the stable-sort promise. */
  lemma AnswerIsTheOnlyOne(fp: Fingerprint, s: seq<PackVersion>, out: seq<PackVersion>)
    requires StableSortOf(VersionOrder(fp), Chosen(fp, s), out)
    ensures out == Answer(fp, s)
  {
    hide Chosen, VersionOrder;
    VersionOrderIsPreorder(fp);
    AnswerIsExact(fp, s);
    StableSortUnique(VersionOrder(fp), out, Answer(fp, s));
  }

  // ----- independence of rule order -----

  ghost predicate SameUpToRuleOrder(p: PackVersion, q: PackVersion) {
    p.(rules := []) == q.(rules := []) && SameRules(p.rules, q.rules)
  }

  ghost predicate AllSameUpToRuleOrder(a: seq<PackVersion>, b: seq<PackVersion>) {
    |a| == |b| && forall i :: 0 <= i < |a| ==> SameUpToRuleOrder(a[i], b[i])
  }

  function Cards(fp: Fingerprint, s: seq<PackVersion>): seq<Card> { Map((pv: PackVersion) => CardOf(fp, pv), s) }

  lemma CardsOfAnswer(fp: Fingerprint, s: seq<PackVersion>)
    ensures Cards(fp, Answer(fp, s)) == Sort(NotAfter, Cards(fp, Chosen(fp, s)))
  {
    hide CardOf, NotAfter, Chosen;
    SortThroughMap(VersionOrder(fp), NotAfter, (pv: PackVersion) => CardOf(fp, pv), Chosen(fp, s));
  }

  lemma SameCard(fp: Fingerprint, p: PackVersion, q: PackVersion)
    requires SameUpToRuleOrder(p, q)
    ensures CardOf(fp, p) == CardOf(fp, q) && (Wanted(fp, p) <==> Wanted(fp, q))
  {
    hide BestTier, EqualFold, HasPrefix;
    BestTierOfSet(fp, p.rules, q.rules);
    var bare := p.(rules := []);
    assert p.vendor == bare.vendor && p.osFamily == bare.osFamily && p.osVersion == bare.osVersion;
  }

  lemma {:induction false} SameCardsChosen(fp: Fingerprint, a: seq<PackVersion>, b: seq<PackVersion>)
    requires AllSameUpToRuleOrder(a, b)
    ensures Cards(fp, Chosen(fp, a)) == Cards(fp, Chosen(fp, b))
    decreases |a|
  {
    hide Wanted, CardOf, SameUpToRuleOrder;
    if a != [] {
      SameCardsChosen(fp, a[..|a| - 1], b[..|b| - 1]);
      SameCard(fp, a[|a| - 1], b[|b| - 1]);
      CardsPush(fp, Chosen(fp, a[..|a| - 1]), a[|a| - 1]);
      CardsPush(fp, Chosen(fp, b[..|b| - 1]), b[|b| - 1]);
    }
  }

  lemma CardsPush(fp: Fingerprint, s: seq<PackVersion>, pv: PackVersion)
    ensures Cards(fp, s + [pv]) == Cards(fp, s) + [CardOf(fp, pv)]
    ensures s + [] == s
  {
    hide CardOf;
  }

  /** The order and repetition of rules within a version change nothing that the answer shows. */
  lemma AnswerForgetsRuleOrder(fp: Fingerprint, a: seq<PackVersion>, b: seq<PackVersion>)
    requires AllSameUpToRuleOrder(a, b)
    ensures Cards(fp, Answer(fp, a)) == Cards(fp, Answer(fp, b))
  {
    hide Cards, Chosen, Answer, AllSameUpToRuleOrder;
    CardsOfAnswer(fp, a);
    CardsOfAnswer(fp, b);
    SameCardsChosen(fp, a, b);
  }

  // ----- extra rules and devices -----

  /** The same version with at least the same rules. */
  ghost predicate Extends(p: PackVersion, more: PackVersion) {
    p.(rules := []) == more.(rules := []) && forall r :: r in p.rules ==> r in more.rules
  }

  ghost predicate MoreDevices(fp: Fingerprint, more: Fingerprint) {
    fp.(pciDevices := []) == more.(pciDevices := []) && forall p :: p in fp.pciDevices ==> p in more.pciDevices
  }

  lemma MoreDevicesNoWorse(fp: Fingerprint, more: Fingerprint, r: Rule)
    requires MoreDevices(fp, more)
    ensures RuleTier(more, r) <= RuleTier(fp, r)
  {
    hide Normalize, Lower, HasPrefix, PciKey;
    var bare := fp.(pciDevices := []);
    assert fp.dmiVendor == bare.dmiVendor && fp.dmiProduct == bare.dmiProduct;
    assert fp.dmiBaseboard == bare.dmiBaseboard && fp.osVersion == bare.osVersion;
    assert PciKeys(fp.pciDevices) <= PciKeys(more.pciDevices);
  }

  lemma ExtrasNoWorse(fp: Fingerprint, moreFp: Fingerprint, p: PackVersion, more: PackVersion)
    requires MoreDevices(fp, moreFp) && Extends(p, more)
    ensures BestTier(moreFp, more.rules) <= BestTier(fp, p.rules)
    ensures Wanted(fp, p) ==> Wanted(moreFp, more)
  {
    hide RuleTier, BestTier, MoreDevices, EqualFold, HasPrefix;
    BestTierIsLeast(fp, p.rules);
    BestTierIsLeast(moreFp, more.rules);
    forall r | r in p.rules
      ensures RuleTier(moreFp, r) <= RuleTier(fp, r)
    {
      MoreDevicesNoWorse(fp, moreFp, r);
    }
    SameOs(fp, moreFp, p, more);
  }

  lemma SameOs(fp: Fingerprint, moreFp: Fingerprint, p: PackVersion, more: PackVersion)
    requires MoreDevices(fp, moreFp) && Extends(p, more)
    ensures OsCompatible(p, fp) <==> OsCompatible(more, moreFp)
  {
    hide EqualFold, HasPrefix;
    var bareFp, bare := fp.(pciDevices := []), p.(rules := []);
    assert fp.osFamily == bareFp.osFamily && fp.osVersion == bareFp.osVersion;
    assert p.osFamily == bare.osFamily && p.osVersion == bare.osVersion;
  }

  /** Adding rules or PCI devices never loses a version from the answer, never worsens its tier, and never
      lets a version whose own tier is unchanged overtake it. */
  lemma ExtrasOnlyAddOrPromote(fp: Fingerprint, moreFp: Fingerprint, s: seq<PackVersion>, more: seq<PackVersion>)
    requires MoreDevices(fp, moreFp) && |s| == |more| && forall i :: 0 <= i < |s| ==> Extends(s[i], more[i])
    ensures forall i :: 0 <= i < |s| && s[i] in Answer(fp, s) ==> more[i] in Answer(moreFp, more)
    ensures forall i :: 0 <= i < |s| ==> CardOf(moreFp, more[i]).tier <= CardOf(fp, s[i]).tier
    ensures forall i, j :: (&& 0 <= i < |s| && 0 <= j < |s| && CardOf(moreFp, more[j]) == CardOf(fp, s[j])
                            && VersionOrder(fp)(s[i], s[j])) ==> VersionOrder(moreFp)(more[i], more[j])
  {
    hide Extends, MoreDevices, Wanted, BestTier, Answer, Less;
    AnswerIsExact(fp, s);
    AnswerIsExact(moreFp, more);
    forall i | 0 <= i < |s|
      ensures CardOf(moreFp, more[i]).tier <= CardOf(fp, s[i]).tier
      ensures CardOf(moreFp, more[i]).(tier := 0) == CardOf(fp, s[i]).(tier := 0)
      ensures s[i] in Answer(fp, s) ==> more[i] in Answer(moreFp, more)
    {
      ExtrasNoWorse(fp, moreFp, s[i], more[i]);
      OnlyTierMoves(fp, moreFp, s[i], more[i]);
      InMultiset(Answer(fp, s), s[i]);
      InMultiset(Answer(moreFp, more), more[i]);
      InMultiset(more, more[i]);
    }
    forall i, j | 0 <= i < |s| && 0 <= j < |s| && CardOf(moreFp, more[j]) == CardOf(fp, s[j])
                  && VersionOrder(fp)(s[i], s[j])
      ensures VersionOrder(moreFp)(more[i], more[j])
    {
      BetterTierStaysAhead(CardOf(fp, s[i]), CardOf(moreFp, more[i]), CardOf(fp, s[j]));
    }
  }

  lemma InMultiset<T>(s: seq<T>, x: T)
    ensures x in s <==> multiset(s)[x] > 0
  {
  }

  lemma OnlyTierMoves(fp: Fingerprint, moreFp: Fingerprint, p: PackVersion, more: PackVersion)
    requires Extends(p, more)
    ensures CardOf(moreFp, more).(tier := 0) == CardOf(fp, p).(tier := 0)
  {
    var bare := p.(rules := []);
    assert p.vendor == bare.vendor && p.model == bare.model && p.tag == bare.tag && p.id == bare.id;
  }

  lemma BetterTierStaysAhead(a: Card, better: Card, b: Card)
    requires better.(tier := 0) == a.(tier := 0) && better.tier <= a.tier && NotAfter(a, b)
    ensures NotAfter(better, b)
  {
    hide Lex.Le;
    var bare := a.(tier := 0);
    assert a.vendor == bare.vendor && a.model == bare.model && a.tag == bare.tag;
  }

  // ----- the documented tiers -----

  predicate SameName(written: string, reported: string) {
    Normalize(reported) != "" && Normalize(written) == Normalize(reported)
  }

  /** What each kind of rule asks of the machine. */
  ghost predicate Applies(fp: Fingerprint, r: Rule) {
    || (r.kind == "pci-vid-did" && exists p :: p in fp.pciDevices && Lower(p.vid + ":" + p.did) == Lower(r.value))
    || (r.kind == "dmi-product" && SameName(r.value, fp.dmiProduct))
    || (r.kind == "dmi-product-prefix" && r.value != "" && Normalize(fp.dmiProduct) != ""
        && HasPrefix(Normalize(fp.dmiProduct), Normalize(r.value)))
    || (r.kind == "dmi-baseboard" && SameName(r.value, fp.dmiBaseboard))
    || (r.kind == "dmi-vendor" && SameName(r.value, fp.dmiVendor))
    || (r.kind == "os-version" && fp.osVersion != "" && HasPrefix(fp.osVersion, r.value))
  }

  /** A rule's tier is that of its kind if it applies, and no match otherwise. */
  lemma RuleTierMeaning(fp: Fingerprint, r: Rule)
    ensures RuleTier(fp, r) <= NO_MATCH && (Applies(fp, r) <==> RuleTier(fp, r) != NO_MATCH)
    ensures RuleTier(fp, r) == 1 <==> r.kind == "pci-vid-did" && Applies(fp, r)
    ensures RuleTier(fp, r) == 2 <==> r.kind in {"dmi-product", "dmi-product-prefix"} && Applies(fp, r)
    ensures RuleTier(fp, r) == 3 <==> r.kind == "dmi-baseboard" && Applies(fp, r)
    ensures RuleTier(fp, r) == 4 <==> r.kind == "os-version" && Applies(fp, r)
    ensures RuleTier(fp, r) == 5 <==> r.kind == "dmi-vendor" && Applies(fp, r)
    ensures 1 <= RuleTier(fp, r) <= 5 || RuleTier(fp, r) == NO_MATCH
  {
    hide Normalize, Lower, HasPrefix;
  }

  /** Some rule of the kind applies. */
  ghost predicate Hits(fp: Fingerprint, rules: seq<Rule>, kind: string) {
    exists r :: r in rules && r.kind == kind && Applies(fp, r)
  }

  /** The precedence list in the package comment: an os-version rule counts only together with a vendor rule. */
  ghost function DocumentedTier(fp: Fingerprint, rules: seq<Rule>): nat {
    if Hits(fp, rules, "pci-vid-did") then 1
    else if Hits(fp, rules, "dmi-product") || Hits(fp, rules, "dmi-product-prefix") then 2
    else if Hits(fp, rules, "dmi-baseboard") then 3
    else if Hits(fp, rules, "dmi-vendor") then (if Hits(fp, rules, "os-version") then 4 else 5)
    else NO_MATCH
  }

  /** The best tier, rule kind by rule kind. */
  lemma BestTierByKind(fp: Fingerprint, rules: seq<Rule>)
    ensures BestTier(fp, rules) ==
            if Hits(fp, rules, "pci-vid-did") then 1
            else if Hits(fp, rules, "dmi-product") || Hits(fp, rules, "dmi-product-prefix") then 2
            else if Hits(fp, rules, "dmi-baseboard") then 3
            else if Hits(fp, rules, "os-version") then 4
            else if Hits(fp, rules, "dmi-vendor") then 5
            else NO_MATCH
  {
    hide RuleTier, BestTier, Applies;
    BestTierIsLeast(fp, rules);
    forall r
      ensures RuleTier(fp, r) <= NO_MATCH && (Applies(fp, r) <==> RuleTier(fp, r) != NO_MATCH)
      ensures RuleTier(fp, r) == 1 <==> r.kind == "pci-vid-did" && Applies(fp, r)
      ensures RuleTier(fp, r) == 2 <==> r.kind in {"dmi-product", "dmi-product-prefix"} && Applies(fp, r)
      ensures RuleTier(fp, r) == 3 <==> r.kind == "dmi-baseboard" && Applies(fp, r)
      ensures RuleTier(fp, r) == 4 <==> r.kind == "os-version" && Applies(fp, r)
      ensures RuleTier(fp, r) == 5 <==> r.kind == "dmi-vendor" && Applies(fp, r)
      ensures 1 <= RuleTier(fp, r) <= 5 || RuleTier(fp, r) == NO_MATCH
    {
      RuleTierMeaning(fp, r);
    }
    if BestTier(fp, rules) != NO_MATCH {
      var r :| r in rules && RuleTier(fp, r) == BestTier(fp, rules);
      assert Hits(fp, rules, r.kind);
    }
  }

  /** The code departs from the documented tiers exactly for a version with a matching os-version rule, no
      matching vendor rule, and no better match: it is staged at tier 4 instead of being left out. */
  lemma WhenTiersAreAsDocumented(fp: Fingerprint, rules: seq<Rule>)
    ensures BestTier(fp, rules) == DocumentedTier(fp, rules)
            <==> !(&& Hits(fp, rules, "os-version") && !Hits(fp, rules, "dmi-vendor") && !Hits(fp, rules, "pci-vid-did")
                   && !Hits(fp, rules, "dmi-product") && !Hits(fp, rules, "dmi-product-prefix")
                   && !Hits(fp, rules, "dmi-baseboard"))
  {
    hide BestTier, Hits;
    BestTierByKind(fp, rules);
  }

  /** With only an os-version rule, a pack is staged on every machine running that version, whoever made it. */
  lemma OsVersionAloneIsEnough(fp: Fingerprint)
    requires fp.osVersion != ""
    ensures var rules := [Rule("os-version", fp.osVersion)];
            BestTier(fp, rules) == TIER_VENDOR_OS && DocumentedTier(fp, rules) == NO_MATCH
  {
    hide Normalize, Lower, PciKeys, BestTier;
    var rules := [Rule("os-version", fp.osVersion)];
    assert rules[0] in rules && Applies(fp, rules[0]);
    BestTierByKind(fp, rules);
  }

  // ----- the loops of Select -----

  datatype MatchResult = MatchResult(version: PackVersion, tier: nat)

  function ResultCard(r: MatchResult): Card {
    Card(r.tier, r.version.vendor, r.version.model, r.version.tag, r.version.id)
  }

  predicate ResultOrder(a: MatchResult, b: MatchResult) { NotAfter(ResultCard(a), ResultCard(b)) }

  function VersionOf(r: MatchResult): PackVersion { r.version }

  lemma {:induction false} SortedResults(fp: Fingerprint, results: seq<MatchResult>)
    requires forall i :: 0 <= i < |results| ==> results[i].tier == BestTier(fp, results[i].version.rules)
    ensures Map(VersionOf, Sort(ResultOrder, results)) == Sort(VersionOrder(fp), Map(VersionOf, results))
  {
    hide BestTier, NotAfter;
    SortThroughMap(ResultOrder, VersionOrder(fp), VersionOf, results);
  }

  method BestRule(fp: Fingerprint, pci: set<string>, vendor: string, product: string, board: string, rules: seq<Rule>)
    returns (best: nat)
    requires pci == PciKeys(fp.pciDevices) && vendor == Normalize(fp.dmiVendor)
    requires product == Normalize(fp.dmiProduct) && board == Normalize(fp.dmiBaseboard)
    ensures best == BestTier(fp, rules)
  {
    hide EvalRule, PciKeys, Normalize;
    best := NO_MATCH;
    for i := 0 to |rules|
      invariant best == BestTier(fp, rules[..i])
    {
      var t := EvalRule(rules[i], pci, vendor, product, board, fp.osVersion);
      assert rules[..i + 1][..i] == rules[..i];
      if t < best {
        best := t;
      }
    }
    assert rules[..|rules|] == rules;
  }

  method Select(fp: Fingerprint, candidates: seq<PackVersion>) returns (out: seq<PackVersion>)
    ensures out == Answer(fp, candidates)
  {
    hide OsCompatible, BestTier, PciKey, Normalize, Sort, NotAfter;
    var pci: set<string> := {};
    for i := 0 to |fp.pciDevices|
      invariant pci == PciKeys(fp.pciDevices[..i])
    {
      pci := pci + {PciKey(fp.pciDevices[i])};
    }
    assert fp.pciDevices[..|fp.pciDevices|] == fp.pciDevices;
    var vendor, product, board := Normalize(fp.dmiVendor), Normalize(fp.dmiProduct), Normalize(fp.dmiBaseboard);

    var results: seq<MatchResult> := [];
    for i := 0 to |candidates|
      invariant forall k :: 0 <= k < |results| ==> results[k].tier == BestTier(fp, results[k].version.rules)
      invariant Map(VersionOf, results) == Chosen(fp, candidates[..i])
    {
      var pv := candidates[i];
      assert candidates[..i + 1][..i] == candidates[..i];
      ghost var before := Chosen(fp, candidates[..i]);
      assert before + [] == before;
      if OsCompatible(pv, fp) {
        var best := BestRule(fp, pci, vendor, product, board, pv.rules);
        if best != NO_MATCH {
          MapPush(VersionOf, results, MatchResult(pv, best));
          results := results + [MatchResult(pv, best)];
        }
      }
    }
    assert candidates[..|candidates|] == candidates;
    SortedResults(fp, results);
    results := Sort(ResultOrder, results);

    out := [];
    for i := 0 to |results|
      invariant out == Map(VersionOf, results[..i])
    {
      MapPush(VersionOf, results[..i], results[i]);
      assert results[..i + 1] == results[..i] + [results[i]];
      out := out + [results[i].version];
    }
    assert results[..|results|] == results;
  }
}

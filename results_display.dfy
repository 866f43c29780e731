/**
 * The text rules of the result list (`components/results_display.py`): the title prefix
 * and user-type icon of a record, the recommendation lines, the popularity line, and
 * the price format.
 */
module ResultsDisplay {
  import opened Wrappers
  import opened Text
  import opened Records

  /** The title prefix: 🌟 for a featured record, else 🔥 for a popular or multi-source one, else none. */
  function TitlePrefix(site: Campsite): (prefix: string)
    ensures prefix == "" <==> !site.isFeatured && !site.isPopular && !site.multipleSources
  {
    if site.isFeatured then "🌟 "
    else if site.isPopular || site.multipleSources then "🔥 "
    else ""
  }

  /** A featured mark outranks the popular one: the 🔥 prefix is given exactly to unfeatured, popular or multi-source records. */
  lemma TitlePrefixExact(site: Campsite)
    ensures TitlePrefix(site) == "🌟 " <==> site.isFeatured
    ensures TitlePrefix(site) == "🔥 " <==> !site.isFeatured && (site.isPopular || site.multipleSources)
  {
  }

  /** The four usage styles, in the order the icon rule tries them. */
  datatype UserType = Solo | Couple | Family | Group

  const UserTypeOrder: seq<UserType> := [Solo, Couple, Family, Group]

  /** The description keywords of each style. */
  function Keywords(t: UserType): seq<string> {
    match t
    case Solo => ["ソロ", "一人", "静か", "プライバシー"]
    case Couple => ["カップル", "二人", "デート", "ロマンチック"]
    case Family => ["ファミリー", "家族", "子供", "キッズ", "遊具"]
    case Group => ["グループ", "団体", "大人数", "仲間"]
  }

  /** The feature tag that also marks a style (the couple style has none). */
  function Tag(t: UserType): Option<string> {
    match t
    case Solo => Some("ソロサイト")
    case Couple => None
    case Family => Some("キッズスペース")
    case Group => Some("大型サイト")
  }

  function Icon(t: UserType): string {
    match t
    case Solo => "👤 "
    case Couple => "💑 "
    case Family => "👨‍👩‍👧‍👦 "
    case Group => "👥 "
  }

  /** The recommendation line shown for each style that matches. */
  function Recommendation(t: UserType): string {
    match t
    case Solo => "👤 ソロキャンパーにおすすめ"
    case Couple => "💑 カップルにおすすめ"
    case Family => "👨‍👩‍👧‍👦 ファミリーにおすすめ"
    case Group => "👥 グループ・団体におすすめ"
  }

  /** A record matches a style when a keyword occurs in its lower-cased description or it carries the style's tag. */
  predicate Matches(site: Campsite, t: UserType) {
    (exists w :: w in Keywords(t) && Contains(Lower(site.description), w))
    || (Tag(t).Some? && Tag(t).value in site.features)
  }

  /** The icon in the title: that of the first matching style, or none. */
  function UserTypeIcon(site: Campsite): string {
    if Matches(site, Solo) then Icon(Solo)
    else if Matches(site, Couple) then Icon(Couple)
    else if Matches(site, Family) then Icon(Family)
    else if Matches(site, Group) then Icon(Group)
    else ""
  }

  /** The styles whose recommendation lines are shown: every matching one, in order. */
  function MatchedTypes(site: Campsite): seq<UserType> {
    Filter(UserTypeOrder, (t: UserType) => Matches(site, t))
  }

  function RecommendationLines(site: Campsite): seq<string> {
    MapSeq(MatchedTypes(site), Recommendation)
  }

  /** The title icon is that of the first recommendation line's style, and none exactly when no line is shown. */
  lemma IconIsFirstMatch(site: Campsite)
    ensures MatchedTypes(site) == [] ==> UserTypeIcon(site) == ""
    ensures MatchedTypes(site) != [] ==> UserTypeIcon(site) == Icon(MatchedTypes(site)[0])
  {
    var m := (t: UserType) => Matches(site, t);
    var o := UserTypeOrder;
    assert o[1..] == [Couple, Family, Group];
    assert o[1..][1..] == [Family, Group];
    assert o[1..][1..][1..] == [Group];
    assert o[1..][1..][1..][1..] == [];
    assert Filter(o[1..][1..][1..], m) == (if m(Group) then [Group] else []);
    assert Filter(o[1..][1..], m) == (if m(Family) then [Family] else []) + Filter(o[1..][1..][1..], m);
    assert Filter(o[1..], m) == (if m(Couple) then [Couple] else []) + Filter(o[1..][1..], m);
    assert Filter(o, m) == (if m(Solo) then [Solo] else []) + Filter(o[1..], m);
  }

  /**
   * Position `k` of the style order gives the icon exactly when that style matches and
   * no earlier one does.
   */
  lemma IconFirstInOrder(site: Campsite, k: int)
    requires 0 <= k < |UserTypeOrder|
    ensures UserTypeIcon(site) == Icon(UserTypeOrder[k]) <==>
      Matches(site, UserTypeOrder[k]) && forall j :: 0 <= j < k ==> !Matches(site, UserTypeOrder[j])
  {
    assert UserTypeOrder[0] == Solo && UserTypeOrder[1] == Couple && UserTypeOrder[2] == Family && UserTypeOrder[3] == Group;
  }

  /** A style's tag alone gives a recommendation line for it. */
  lemma TagMatches(site: Campsite, t: UserType)
    requires Tag(t).Some? && Tag(t).value in site.features
    ensures Recommendation(t) in RecommendationLines(site)
  {
    FilterMembers(UserTypeOrder, (u: UserType) => Matches(site, u));
    assert t in UserTypeOrder;
    MapSeqMember(MatchedTypes(site), Recommendation, t);
  }

  /** The popularity line: the featured line, else for a popular or multi-source record the source count or the plain popular line. */
  function PopularityLine(site: Campsite): Option<string> {
    if site.isFeatured then Some(FeaturedLine)
    else if site.isPopular || site.multipleSources then
      if site.occurrenceCount > 1 then Some("🔥 人気度: " + IntToString(site.occurrenceCount) + SourcesPhrase)
      else Some(PopularLine)
    else None
  }

  const FeaturedLine: string := "🌟 特集されているキャンプ場"
  const PopularLine: string := "🔥 人気のキャンプ場"
  const SourcesPhrase: string := "件のソースで検出"

  /** The source count is shown exactly for an unfeatured, popular or multi-source record found by more than one source. */
  lemma SourceCountShown(site: Campsite)
    ensures (PopularityLine(site).Some? && Contains(PopularityLine(site).value, SourcesPhrase)) <==>
      !site.isFeatured && (site.isPopular || site.multipleSources) && site.occurrenceCount > 1
  {
    FeaturedLineLacksPhrase();
    PopularLineLacksPhrase();
    if !site.isFeatured && (site.isPopular || site.multipleSources) && site.occurrenceCount > 1 {
      EndsWithPhrase("🔥 人気度: " + IntToString(site.occurrenceCount));
    }
  }

  lemma FeaturedLineLacksPhrase()
    ensures !Contains(FeaturedLine, SourcesPhrase)
  {
    assert SourcesPhrase[0] == '件';
    assert '件' !in FeaturedLine;
    NotContainsByFirst(FeaturedLine, SourcesPhrase);
  }

  lemma PopularLineLacksPhrase()
    ensures !Contains(PopularLine, SourcesPhrase)
  {
    assert SourcesPhrase[0] == '件';
    assert '件' !in PopularLine;
    NotContainsByFirst(PopularLine, SourcesPhrase);
  }

  lemma EndsWithPhrase(head: string)
    ensures Contains(head + SourcesPhrase, SourcesPhrase)
  {
    assert (head + SourcesPhrase)[|head|..|head| + |SourcesPhrase|] == SourcesPhrase;
    ContainsAt(head + SourcesPhrase, SourcesPhrase, |head|);
  }

  /** `format_price`'s argument: a number, or anything else (shown as its text). */
  datatype Price = IntPrice(n: int) | TextPrice(text: string)

  /** Three digits of `m`, with leading zeros. */
  function Digits3(m: nat): (r: string)
    requires m < 1000
    ensures |r| == 3 && forall i :: 0 <= i < 3 ==> '0' <= r[i] <= '9'
  {
    [DigitChar(m / 100), DigitChar(m / 10 % 10), DigitChar(m % 10)]
  }

  /** `f"{n:,}"` for a natural number: the digits in groups of three separated by commas. */
  function Grouped(n: nat): (r: string)
    ensures |r| >= 1 && r[0] != ','
    ensures forall i :: 0 <= i < |r| ==> r[i] == ',' || '0' <= r[i] <= '9'
    decreases n
  {
    if n < 1000 then NatToString(n)
    else Grouped(n / 1000) + "," + Digits3(n % 1000)
  }

  /** `f"{n:,}"` for an integer. */
  function SignedGrouped(n: int): string {
    if n < 0 then "-" + Grouped(-n) else Grouped(n)
  }

  /** `format_price`: `¥`, the grouped number and `/泊` for a number; anything else unchanged. */
  function FormatPrice(price: Price): string {
    match price
    case IntPrice(n) => "¥" + SignedGrouped(n) + "/泊"
    case TextPrice(text) => text
  }

  /** Reading digits, skipping commas. */
  function ParseGrouped(s: string): nat
    decreases |s|
  {
    if s == [] then 0
    else if s[|s| - 1] == ',' then ParseGrouped(s[..|s| - 1])
    else ParseGrouped(s[..|s| - 1]) * 10 + DigitValue(s[|s| - 1])
  }

  lemma ParseGroupedSnoc(a: string, c: char)
    ensures ParseGrouped(a + [c]) == if c == ',' then ParseGrouped(a) else ParseGrouped(a) * 10 + DigitValue(c)
  {
    assert (a + [c])[..|a|] == a;
  }

  /** On a text without commas, the reading is plain decimal. */
  lemma {:induction false} ParseGroupedNoComma(s: string)
    requires ',' !in s
    ensures ParseGrouped(s) == ParseNat(s)
    decreases |s|
  {
    if s != [] {
      assert s[|s| - 1] in s;
      var init := s[..|s| - 1];
      assert forall c :: c in init ==> c in s;
      ParseGroupedNoComma(init);
    }
  }

  /** The decimal digits of a number below 1000. */
  lemma ThreeDigits(m: nat)
    requires m < 1000
    ensures m / 100 < 10 && m / 10 % 10 < 10 && m % 10 < 10
    ensures m == (m / 100) * 100 + (m / 10 % 10) * 10 + m % 10
  {
  }

  /** Three digits read back as their number. */
  lemma ParseDigits3(a: string, m: nat)
    requires m < 1000
    ensures ParseGrouped(a + Digits3(m)) == ParseGrouped(a) * 1000 + m
  {
    ThreeDigits(m);
    var x, y, z := m / 100, m / 10 % 10, m % 10;
    var d1, d2, d3 := DigitChar(x), DigitChar(y), DigitChar(z);
    DigitValueOfChar(x);
    DigitValueOfChar(y);
    DigitValueOfChar(z);
    var p := ParseGrouped(a);
    ParseGroupedSnoc(a, d1);
    assert ParseGrouped(a + [d1]) == p * 10 + x;
    ParseGroupedSnoc(a + [d1], d2);
    assert ParseGrouped(a + [d1] + [d2]) == (p * 10 + x) * 10 + y;
    ParseGroupedSnoc(a + [d1] + [d2], d3);
    assert ParseGrouped(a + [d1] + [d2] + [d3]) == ((p * 10 + x) * 10 + y) * 10 + z;
    assert a + Digits3(m) == a + [d1] + [d2] + [d3];
  }

  /** The text with its commas taken out. */
  function Uncomma(s: string): string
    decreases |s|
  {
    if s == [] then [] else Uncomma(s[..|s| - 1]) + (if s[|s| - 1] == ',' then [] else [s[|s| - 1]])
  }

  lemma {:induction false} UncommaConcat(a: string, b: string)
    ensures Uncomma(a + b) == Uncomma(a) + Uncomma(b)
    decreases |b|
  {
    if b == [] {
      assert a + b == a;
    } else {
      var ab := a + b;
      assert ab[..|ab| - 1] == a + b[..|b| - 1];
      assert ab[|ab| - 1] == b[|b| - 1];
      UncommaConcat(a, b[..|b| - 1]);
    }
  }

  lemma {:induction false} UncommaNoComma(s: string)
    requires forall i :: 0 <= i < |s| ==> s[i] != ','
    ensures Uncomma(s) == s
    decreases |s|
  {
    if s != [] {
      UncommaNoComma(s[..|s| - 1]);
    }
  }

  /**
   * The comma layout of `f"{n:,}"`: a comma exactly at the positions a multiple of four
   * from the end, that is before each group of three digits counted from the right, and
   * none in front.
   */
  predicate CommaLayout(r: string) {
    && |r| % 4 != 0
    && forall i :: 0 <= i < |r| ==> (r[i] == ',' <==> i > 0 && (|r| - i) % 4 == 0)
  }

  /** A number below 1000 has one to three decimal digits. */
  lemma SmallNatToString(n: nat)
    requires n < 1000
    ensures |NatToString(n)| <= 3
  {
    if n >= 10 {
      assert NatToString(n) == NatToString(n / 10) + [DigitChar(n % 10)];
      if n / 10 >= 10 {
        assert NatToString(n / 10) == NatToString(n / 10 / 10) + [DigitChar(n / 10 % 10)];
      }
    }
  }

  /** The decimal digits of a number from 1000 on are those of its thousands, then three more. */
  lemma NatToStringThousands(n: nat)
    requires n >= 1000
    ensures NatToString(n) == NatToString(n / 1000) + Digits3(n % 1000)
  {
    var q, m := n / 1000, n % 1000;
    assert n == q * 1000 + m;
    assert n / 10 == q * 100 + m / 10;
    assert n / 10 / 10 == q * 10 + m / 100;
    assert n / 10 / 10 / 10 == q;
    assert n % 10 == m % 10;
    assert n / 10 % 10 == m / 10 % 10;
    assert n / 10 / 10 % 10 == m / 100;
    assert NatToString(n) == NatToString(n / 10) + [DigitChar(n % 10)];
    assert NatToString(n / 10) == NatToString(n / 10 / 10) + [DigitChar(n / 10 % 10)];
    assert NatToString(n / 10 / 10) == NatToString(n / 10 / 10 / 10) + [DigitChar(n / 10 / 10 % 10)];
  }

  /** Up to three digits need no comma. */
  lemma ShortLayout(s: string)
    requires 1 <= |s| <= 3 && forall i :: 0 <= i < |s| ==> '0' <= s[i] <= '9'
    ensures CommaLayout(s)
  {
  }

  /** A comma and three more digits after a well-grouped text keep it well grouped. */
  lemma LayoutStep(g: string, d: string)
    requires CommaLayout(g)
    requires |d| == 3 && forall i :: 0 <= i < 3 ==> '0' <= d[i] <= '9'
    ensures CommaLayout(g + "," + d)
  {
    var r := g + "," + d;
    assert |r| == |g| + 4;
    forall i | 0 <= i < |r| ensures (r[i] == ',' <==> i > 0 && (|r| - i) % 4 == 0) {
      if i < |g| {
        assert r[i] == g[i];
        assert (|r| - i) % 4 == (|g| - i) % 4;
      } else if i > |g| {
        assert r[i] == d[i - |g| - 1];
      }
    }
  }

  /** Taking the commas out of a comma and a group of digits leaves the digits. */
  lemma UncommaGroup(g: string, d: string)
    requires forall i :: 0 <= i < |d| ==> d[i] != ','
    ensures Uncomma(g + "," + d) == Uncomma(g) + d
  {
    var gc := g + ",";
    assert gc[..|gc| - 1] == g && gc[|gc| - 1] == ',';
    assert Uncomma(gc) == Uncomma(g);
    UncommaConcat(gc, d);
    UncommaNoComma(d);
  }

  /** `f"{n:,}"` puts its commas before each group of three digits from the right and nowhere else. */
  lemma {:induction false} GroupedLayout(n: nat)
    ensures CommaLayout(Grouped(n))
    decreases n
  {
    if n < 1000 {
      SmallNatToString(n);
      ShortLayout(NatToString(n));
    } else {
      GroupedLayout(n / 1000);
      LayoutStep(Grouped(n / 1000), Digits3(n % 1000));
    }
  }

  /** Without its commas, `f"{n:,}"` is the plain decimal `str(n)`. */
  lemma {:induction false} GroupedDigits(n: nat)
    ensures Uncomma(Grouped(n)) == NatToString(n)
    decreases n
  {
    if n < 1000 {
      UncommaNoComma(NatToString(n));
    } else {
      GroupedDigits(n / 1000);
      UncommaGroup(Grouped(n / 1000), Digits3(n % 1000));
      NatToStringThousands(n);
    }
  }

  /** The grouping loses nothing: reading the digits back, commas skipped, gives the number. */
  lemma {:induction false} GroupedRoundTrip(n: nat)
    ensures ParseGrouped(Grouped(n)) == n
    decreases n
  {
    if n < 1000 {
      var s := NatToString(n);
      assert ',' !in s;
      ParseGroupedNoComma(s);
      ParseNatToString(n);
    } else {
      var g := Grouped(n / 1000);
      GroupedRoundTrip(n / 1000);
      ParseGroupedSnoc(g, ',');
      ParseDigits3(g + ",", n % 1000);
      assert Grouped(n) == (g + ",") + Digits3(n % 1000);
    }
  }

  /**
   * `g` is `f"{n:,}"`: it reads back as `n`, its commas stand before each group of three
   * digits from the right, and without them it is the decimal `str(n)`.
   */
  predicate GroupedText(g: string, n: nat) {
    ParseGrouped(g) == n && CommaLayout(g) && Uncomma(g) == NatToString(n)
  }

  lemma GroupedIsGroupedText(n: nat)
    ensures GroupedText(Grouped(n), n)
  {
    GroupedRoundTrip(n);
    GroupedLayout(n);
    GroupedDigits(n);
  }

  lemma FormatNonNegative(n: nat)
    ensures FormatPrice(IntPrice(n)) == "¥" + Grouped(n) + "/泊"
  {
  }

  lemma FormatNegative(n: int)
    requires n < 0
    ensures FormatPrice(IntPrice(n)) == "¥-" + Grouped(-n) + "/泊"
  {
    assert "¥" + ("-" + Grouped(-n)) + "/泊" == "¥-" + Grouped(-n) + "/泊";
  }

  /**
   * `format_price` shows a number as `¥`, its comma-grouped digits and `/泊`
   * (a minus sign first for a negative one); any other value unchanged.
   */
  lemma FormatPriceRoundTrip(price: Price)
    ensures price.IntPrice? && price.n >= 0 ==>
      exists g :: FormatPrice(price) == "¥" + g + "/泊" && GroupedText(g, price.n)
    ensures price.IntPrice? && price.n < 0 ==>
      exists g :: FormatPrice(price) == "¥-" + g + "/泊" && GroupedText(g, -price.n)
    ensures price.TextPrice? ==> FormatPrice(price) == price.text
  {
    if price.IntPrice? {
      var n := price.n;
      if n >= 0 {
        GroupedIsGroupedText(n);
        FormatNonNegative(n);
      } else {
        GroupedIsGroupedText(-n);
        FormatNegative(n);
      }
    }
  }
}

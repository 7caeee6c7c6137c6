/** Whole amounts spelled out in English and Farsi, and read back. */
module AmountWords {
  import opened Common

  datatype Locale = English | Farsi

  const EN_ONES :=
      ["", "one", "two", "three", "four", "five", "six", "seven", "eight", "nine", "ten", "eleven", "twelve",
                    "thirteen", "fourteen", "fifteen", "sixteen", "seventeen", "eighteen", "nineteen"]
  const EN_TENS := ["", "", "twenty", "thirty", "forty", "fifty", "sixty", "seventy", "eighty", "ninety"]
  const EN_SCALES := ["", "thousand", "million", "billion", "trillion"]
  const FA_ONES := ["", "یک", "دو", "سه", "چهار", "پنج", "شش", "هفت", "هشت", "نه", "ده", "یازده", "دوازده", "سیزده",
                    "چهارده", "پانزده", "شانزده", "هفده", "هجده", "نوزده"]
  const FA_TENS := ["", "", "بیست", "سی", "چهل", "پنجاه", "شصت", "هفتاد", "هشتاد", "نود"]
  const FA_HUNDREDS := ["", "صد", "دویست", "سیصد", "چهارصد", "پانصد", "ششصد", "هفتصد", "هشتصد", "نهصد"]
  const FA_SCALES := ["", "هزار", "میلیون", "میلیارد", "بیلیون"]

  // ---- Spelling out ----

  function Ones(l: Locale, n: nat): string
    requires n < 20
  {
    if l == English then EN_ONES[n] else FA_ONES[n]
  }

  function Tens(l: Locale, n: nat): string
    requires n < 10
  {
    if l == English then EN_TENS[n] else FA_TENS[n]
  }

  /** The scale table ends at trillion; larger scales have no word. */
  function ScaleWord(l: Locale, scale: nat): string {
    if scale >= 5 then "" else if l == English then EN_SCALES[scale] else FA_SCALES[scale]
  }

  function Zero(l: Locale): string {
    if l == English then "zero" else "صفر"
  }

  /** What stands between the parts of a group, and between groups. */
  function Between(l: Locale): string {
    if l == English then " " else " و "
  }

  function WithinTens(l: Locale): string {
    if l == English then "-" else " و "
  }

  function HundredsPart(l: Locale, n: nat): string
    requires n < 1000
  {
    if l == English then EN_ONES[n / 100] + " hundred" else FA_HUNDREDS[n / 100]
  }

  function SmallPart(l: Locale, n: nat): string
    requires n < 100
  {
    if n >= 20 then
      if n % 10 > 0 then Tens(l, n / 10) + WithinTens(l) + Ones(l, n % 10) else Tens(l, n / 10)
    else Ones(l, n)
  }

  function Join(parts: seq<string>, separator: string): string {
    if |parts| == 0 then ""
    else if |parts| == 1 then parts[0]
    else Join(parts[..|parts| - 1], separator) + separator + parts[|parts| - 1]
  }

  function Parts(l: Locale, n: nat): seq<string>
    requires n < 1000
  {
    (if n >= 100 then [HundredsPart(l, n)] else []) + if n % 100 > 0 then [SmallPart(l, n % 100)] else []
  }

  function GroupWords(l: Locale, n: nat, scale: nat): string
    requires n < 1000
  {
    var words := Join(Parts(l, n), Between(l));
    if ScaleWord(l, scale) == "" then words else words + " " + ScaleWord(l, scale)
  }

  /** The spelled-out groups of `n`, the highest first; empty groups are left out. */
  function Groups(l: Locale, n: nat, scale: nat): seq<string> {
    if n == 0 then []
    else Groups(l, n / 1000, scale + 1) + if n % 1000 > 0 then [GroupWords(l, n % 1000, scale)] else []
  }

  function Words(l: Locale, n: nat): string {
    if n == 0 then Zero(l) else Join(Groups(l, n, 0), Between(l))
  }

  method HundredsToWords(l: Locale, number: nat) returns (words: string)
    requires number < 1000
    ensures words == Join(Parts(l, number), Between(l))
  {
    hide Ones, Tens, HundredsPart, WithinTens, Join, Between;
    var n := number;
    var parts: seq<string> := [];
    if n >= 100 {
      parts := parts + [HundredsPart(l, n)];
      n := n % 100;
    }
    if n >= 20 {
      var tens, ones := Tens(l, n / 10), n % 10;
      parts := parts + [if ones > 0 then tens + WithinTens(l) + Ones(l, ones) else tens];
    } else if n > 0 {
      parts := parts + [Ones(l, n)];
    }
    assert parts == Parts(l, number);
    words := Join(parts, Between(l));
  }

  method IntegerToWords(l: Locale, number: nat) returns (words: string)
    ensures words == Words(l, number)
  {
    hide Parts, ScaleWord, Join, Between;
    if number == 0 {
      return Zero(l);
    }
    var n, scale := number, 0;
    var groups: seq<string> := [];
    while n > 0
      invariant Groups(l, number, 0) == Groups(l, n, scale) + groups
    {
      var group := n % 1000;
      ghost var higher := Groups(l, n / 1000, scale + 1);
      if group > 0 {
        var spelled := HundredsToWords(l, group);
        if ScaleWord(l, scale) != "" {
          spelled := spelled + " " + ScaleWord(l, scale);
        }
        assert Groups(l, n, scale) == higher + [spelled];
        assert (higher + [spelled]) + groups == higher + ([spelled] + groups);
        groups := [spelled] + groups;
      } else {
        assert Groups(l, n, scale) == higher;
      }
      n := n / 1000;
      scale := scale + 1;
    }
    assert Groups(l, 0, scale) + groups == groups;
    words := Join(groups, Between(l));
  }

  // ---- Reading back ----

  predicate IsSeparator(c: char) {
    c == ' ' || c == '-'
  }

  /** The words of a caption: what stands between blanks and hyphens. */
  function Tokens(s: string): (tokens: seq<string>)
    ensures |tokens| > 0
  {
    if |s| == 0 then [""]
    else
      var rest := Tokens(s[1..]);
      if IsSeparator(s[0]) then [""] + rest else [[s[0]] + rest[0]] + rest[1..]
  }

  datatype Meaning = Add(value: nat) | TimesHundred | CloseGroup(scale: nat) | And

  /** The numbers that have a word of their own. */
  predicate HasWord(l: Locale, value: nat) {
    value < 20 || (value < 100 && value % 10 == 0) || (l == Farsi && value < 1000 && value % 100 == 0)
  }

  function NumberWord(l: Locale, value: nat): string
    requires HasWord(l, value)
  {
    if value == 0 then Zero(l)
    else if value < 20 then Ones(l, value)
    else if value < 100 then Tens(l, value / 10)
    else FA_HUNDREDS[value / 100]
  }

  ghost predicate Means(l: Locale, w: string, m: Meaning) {
    match m
    case Add(value) => HasWord(l, value) && w == NumberWord(l, value)
    case TimesHundred => l == English && w == "hundred"
    case CloseGroup(scale) => 1 <= scale < 5 && w == ScaleWord(l, scale)
    case And => l == Farsi && w == "و"
  }

  lemma {:induction false} EnglishNumbersDiffer(u: nat, v: nat)
    requires HasWord(English, u) && HasWord(English, v) && u < v
    ensures NumberWord(English, u) != NumberWord(English, v)
  {
  }

  lemma {:induction false} FarsiNumbersDiffer(u: nat, v: nat)
    requires HasWord(Farsi, u) && HasWord(Farsi, v) && u < v
    ensures NumberWord(Farsi, u) != NumberWord(Farsi, v)
  {
    hide NumberWord;
    if v < 100 {
      SmallFarsiNumbersDiffer(u, v);
    } else {
      FarsiHundredsDiffer(u, v);
    }
  }

  lemma {:induction false} SmallFarsiNumbersDiffer(u: nat, v: nat)
    requires HasWord(Farsi, u) && HasWord(Farsi, v) && u < v < 100
    ensures NumberWord(Farsi, u) != NumberWord(Farsi, v)
  {
  }

  lemma {:induction false} FarsiHundredsDiffer(u: nat, v: nat)
    requires HasWord(Farsi, u) && HasWord(Farsi, v) && u < v && v >= 100
    ensures NumberWord(Farsi, u) != NumberWord(Farsi, v)
  {
  }

  lemma {:induction false} ScalesDiffer(l: Locale, j: nat, k: nat)
    requires 1 <= j < k < 5
    ensures ScaleWord(l, j) != ScaleWord(l, k)
  {
  }

  lemma {:induction false} NumbersAreNoScales(l: Locale, v: nat, k: nat)
    requires HasWord(l, v) && 1 <= k < 5
    ensures NumberWord(l, v) != ScaleWord(l, k)
  {
  }

  lemma {:induction false} OthersDiffer(l: Locale, v: nat, k: nat)
    ensures HasWord(l, v) ==> NumberWord(English, 0) != "hundred" && (l == English ==> NumberWord(l, v) != "hundred")
    ensures HasWord(l, v) && l == Farsi ==> NumberWord(l, v) != "و"
    ensures 1 <= k < 5 ==> ScaleWord(English, k) != "hundred" && ScaleWord(Farsi, k) != "و"
  {
  }

  lemma {:induction false} OneMeaning(l: Locale, w: string, a: Meaning, b: Meaning)
    requires Means(l, w, a) && Means(l, w, b)
    ensures a == b
  {
    hide NumberWord, ScaleWord, HasWord;
    if a.Add? && b.Add? && a.value != b.value {
      var u, v := if a.value < b.value then a.value else b.value, if a.value < b.value then b.value else a.value;
      if l == English {
        EnglishNumbersDiffer(u, v);
      } else {
        FarsiNumbersDiffer(u, v);
      }
    } else if a.CloseGroup? && b.CloseGroup? && a.scale != b.scale {
      ScalesDiffer(l, if a.scale < b.scale then a.scale else b.scale, if a.scale < b.scale then b.scale else a.scale);
    } else if a.Add? && b.CloseGroup? {
      NumbersAreNoScales(l, a.value, b.scale);
    } else if a.CloseGroup? && b.Add? {
      NumbersAreNoScales(l, b.value, a.scale);
    }
    OthersDiffer(l, if a.Add? then a.value else if b.Add? then b.value else 0,
                 if a.CloseGroup? then a.scale else if b.CloseGroup? then b.scale else 0);
  }

  /** What a reader has made of the words so far: closed groups, and the group being read. */
  datatype Reading = Reading(total: nat, current: nat)

  /** `x` thousands, millions, and so on up to the sixth group. */
  function Scaled(x: nat, k: nat): nat {
    if k == 0 then x
    else if k == 1 then 1000 * x
    else if k == 2 then 1_000_000 * x
    else if k == 3 then 1_000_000_000 * x
    else if k == 4 then 1_000_000_000_000 * x
    else 1_000_000_000_000_000 * x
  }

  function Understand(r: Reading, m: Meaning): Reading {
    match m
    case Add(value) => r.(current := r.current + value)
    case TimesHundred => r.(current := r.current * 100)
    case CloseGroup(scale) => Reading(r.total + Scaled(r.current, scale), 0)
    case And => r
  }

  ghost function Hear(l: Locale, r: Reading, w: string): Reading {
    if m :| Means(l, w, m) then Understand(r, m) else r
  }

  ghost function HearAll(l: Locale, r: Reading, words: seq<string>): Reading
    decreases |words|
  {
    if |words| == 0 then r else HearAll(l, Hear(l, r, words[0]), words[1..])
  }

  ghost function Listen(l: Locale, r: Reading, s: string): Reading {
    HearAll(l, r, Tokens(s))
  }

  /** The number a caption says. */
  ghost function Read(l: Locale, s: string): nat {
    var r := Listen(l, Reading(0, 0), s);
    r.total + r.current
  }

  // ---- Listening to composed captions ----

  lemma {:induction false} TokensSplit(a: string, c: char, b: string)
    requires IsSeparator(c)
    ensures Tokens(a + [c] + b) == Tokens(a) + Tokens(b)
  {
    if |a| == 0 {
      assert a + [c] + b == [c] + b;
      assert ([c] + b)[1..] == b;
    } else {
      TokensSplit(a[1..], c, b);
      var s := a + [c] + b;
      assert s[1..] == a[1..] + [c] + b;
      FirstToken(a[0], Tokens(a[1..]), Tokens(b));
    }
  }

  lemma {:induction false} FirstToken(c: char, rest: seq<string>, more: seq<string>)
    requires |rest| > 0
    ensures [""] + (rest + more) == ([""] + rest) + more
    ensures [[c] + (rest + more)[0]] + (rest + more)[1..] == ([[c] + rest[0]] + rest[1..]) + more
  {
  }

  predicate Unbroken(w: string) {
    forall k :: 0 <= k < |w| ==> !IsSeparator(w[k])
  }

  lemma {:induction false} TokensOfWord(w: string)
    requires Unbroken(w)
    ensures Tokens(w) == [w]
  {
    if |w| > 0 {
      TokensOfWord(w[1..]);
      assert [w[0]] + w[1..] == w;
    }
  }

  lemma {:induction false} HearConcat(l: Locale, r: Reading, a: seq<string>, b: seq<string>)
    ensures HearAll(l, r, a + b) == HearAll(l, HearAll(l, r, a), b)
    decreases |a|
  {
    hide Hear;
    if |a| == 0 {
      assert a + b == b;
    } else {
      HearConcat(l, Hear(l, r, a[0]), a[1..], b);
      assert (a + b)[1..] == a[1..] + b;
    }
  }

  lemma {:induction false} ListenSplit(l: Locale, r: Reading, a: string, c: char, b: string)
    requires IsSeparator(c)
    ensures Listen(l, r, a + [c] + b) == Listen(l, Listen(l, r, a), b)
  {
    TokensSplit(a, c, b);
    HearConcat(l, r, Tokens(a), Tokens(b));
  }

  lemma {:induction false} ListenWord(l: Locale, r: Reading, w: string, m: Meaning)
    requires Unbroken(w) && Means(l, w, m)
    ensures Listen(l, r, w) == Understand(r, m)
  {
    hide Means, Understand;
    TokensOfWord(w);
    forall n | Means(l, w, n) ensures n == m {
      OneMeaning(l, w, m, n);
    }
    assert HearAll(l, r, [w]) == HearAll(l, Hear(l, r, w), [w][1..]);
  }

  lemma {:induction false} ListenAnd(l: Locale, r: Reading, a: string, b: string)
    requires l == Farsi
    ensures Listen(l, r, a + " و " + b) == Listen(l, Listen(l, r, a), b)
  {
    hide Means;
    assert a + " و " + b == a + [' '] + ("و" + [' '] + b);
    ListenSplit(l, r, a, ' ', "و" + [' '] + b);
    ListenSplit(l, Listen(l, r, a), "و", ' ', b);
    AndIsSkipped(Listen(l, r, a));
  }

  lemma {:induction false} AndIsSkipped(r: Reading)
    ensures Listen(Farsi, r, "و") == r
  {
    ListenWord(Farsi, r, "و", And);
  }

  lemma {:induction false} ListenBetween(l: Locale, r: Reading, a: string, b: string)
    ensures Listen(l, r, a + Between(l) + b) == Listen(l, Listen(l, r, a), b)
    ensures Listen(l, r, a + WithinTens(l) + b) == Listen(l, Listen(l, r, a), b)
  {
    hide Listen;
    if l == Farsi {
      ListenAnd(l, r, a, b);
    } else {
      ListenSplit(l, r, a, ' ', b);
      ListenSplit(l, r, a, '-', b);
    }
  }

  // ---- Words, parts, groups ----

  lemma {:induction false} EnglishOnesUnbroken(v: nat)
    requires v < 20
    ensures Unbroken(EN_ONES[v])
  {
  }

  lemma {:induction false} FarsiOnesUnbroken(v: nat)
    requires v < 20
    ensures Unbroken(FA_ONES[v])
  {
  }

  lemma {:induction false} OnesUnbroken(l: Locale, v: nat)
    requires v < 20
    ensures Unbroken(Ones(l, v)) && Unbroken(Zero(l))
  {
    EnglishOnesUnbroken(v);
    FarsiOnesUnbroken(v);
  }

  lemma {:induction false} TensUnbroken(l: Locale, v: nat)
    requires v < 10
    ensures Unbroken(Tens(l, v)) && Unbroken(FA_HUNDREDS[v])
  {
  }

  lemma {:induction false} NumberUnbroken(l: Locale, v: nat)
    requires HasWord(l, v)
    ensures Unbroken(NumberWord(l, v))
  {
    hide Unbroken, Ones, Tens, Zero;
    if v < 20 {
      OnesUnbroken(l, v);
    } else {
      TensUnbroken(l, if v < 100 then v / 10 else v / 100);
    }
  }

  lemma {:induction false} ScaleUnbroken(l: Locale, k: nat)
    ensures Unbroken(ScaleWord(l, k)) && (ScaleWord(l, k) == "" <==> k == 0 || k >= 5)
  {
  }

  lemma {:induction false} ListenNumber(l: Locale, r: Reading, v: nat)
    requires HasWord(l, v)
    ensures Listen(l, r, NumberWord(l, v)) == r.(current := r.current + v)
  {
    hide NumberWord, Listen, HasWord, Unbroken;
    NumberUnbroken(l, v);
    ListenWord(l, r, NumberWord(l, v), Add(v));
  }

  lemma {:induction false} SmallPartWords(l: Locale, n: nat)
    requires 0 < n < 100
    ensures n < 20 || n % 10 == 0 ==> HasWord(l, n) && SmallPart(l, n) == NumberWord(l, n)
    ensures n >= 20 && n % 10 > 0 ==> HasWord(l, n - n % 10) && HasWord(l, n % 10)
    ensures n >= 20 && n % 10 > 0 ==>
              SmallPart(l, n) == NumberWord(l, n - n % 10) + WithinTens(l) + NumberWord(l, n % 10)
  {
    hide Ones, Tens, WithinTens, Zero;
  }

  lemma {:induction false} ListenSmall(l: Locale, r: Reading, n: nat)
    requires 0 < n < 100
    ensures Listen(l, r, SmallPart(l, n)) == r.(current := r.current + n)
  {
    hide NumberWord, Listen, HasWord, SmallPart, WithinTens;
    SmallPartWords(l, n);
    if n < 20 || n % 10 == 0 {
      ListenNumber(l, r, n);
    } else {
      ListenBetween(l, r, NumberWord(l, n - n % 10), NumberWord(l, n % 10));
      ListenNumber(l, r, n - n % 10);
      ListenNumber(l, r.(current := r.current + (n - n % 10)), n % 10);
    }
  }

  /** What is understood when a group of up to three digits is read on top of `c`: an English reader takes
      the hundred to multiply all that came before it in the group. */
  function GroupValue(l: Locale, c: nat, n: nat): nat {
    if l == English && n >= 100 then (c + n / 100) * 100 + n % 100 else c + n
  }

  lemma {:induction false} EnglishHundred(r: Reading, h: nat)
    requires 1 <= h < 10
    ensures Listen(English, r, EN_ONES[h] + " hundred") == r.(current := (r.current + h) * 100)
  {
    hide Listen, HasWord, Unbroken;
    HundredWord(h);
    ListenSplit(English, r, NumberWord(English, h), ' ', "hundred");
    ListenNumber(English, r, h);
    ListenWord(English, r.(current := r.current + h), "hundred", TimesHundred);
  }

  lemma {:induction false} HundredWord(h: nat)
    requires 1 <= h < 10
    ensures HasWord(English, h) && NumberWord(English, h) == EN_ONES[h] && Unbroken("hundred")
    ensures EN_ONES[h] + " hundred" == EN_ONES[h] + [' '] + "hundred"
    ensures HasWord(Farsi, 100 * h) && NumberWord(Farsi, 100 * h) == FA_HUNDREDS[h]
  {
    assert " hundred" == [' '] + "hundred";
  }

  lemma {:induction false} ListenHundreds(l: Locale, r: Reading, n: nat)
    requires 100 <= n < 1000
    ensures Listen(l, r, HundredsPart(l, n)) == r.(current := GroupValue(l, r.current, n - n % 100))
  {
    hide Listen, HasWord, NumberWord;
    HundredWord(n / 100);
    if l == English {
      EnglishHundred(r, n / 100);
    } else {
      ListenNumber(l, r, 100 * (n / 100));
    }
  }

  lemma {:induction false} ListenParts(l: Locale, r: Reading, n: nat)
    requires 0 < n < 1000
    ensures Listen(l, r, Join(Parts(l, n), Between(l))) == r.(current := GroupValue(l, r.current, n))
  {
    hide Listen, HundredsPart, SmallPart, Between;
    var h, m := n - n % 100, n % 100;
    if n < 100 {
      assert Parts(l, n) == [SmallPart(l, m)];
      ListenSmall(l, r, m);
    } else {
      ListenHundreds(l, r, n);
      if m == 0 {
        assert Parts(l, n) == [HundredsPart(l, n)];
      } else {
        assert Parts(l, n) == [HundredsPart(l, n), SmallPart(l, m)];
        assert Parts(l, n)[..1] == [HundredsPart(l, n)];
        ListenBetween(l, r, HundredsPart(l, n), SmallPart(l, m));
        ListenSmall(l, r.(current := GroupValue(l, r.current, h)), m);
      }
    }
  }

  function GroupStep(l: Locale, r: Reading, n: nat, scale: nat): Reading {
    var read := r.(current := GroupValue(l, r.current, n));
    if 1 <= scale < 5 then Reading(read.total + Scaled(read.current, scale), 0) else read
  }

  lemma {:induction false} ListenGroup(l: Locale, r: Reading, n: nat, scale: nat)
    requires 0 < n < 1000
    ensures Listen(l, r, GroupWords(l, n, scale)) == GroupStep(l, r, n, scale)
  {
    hide Listen, Parts, Join, Between, GroupValue, ScaleWord, Unbroken, Scaled;
    var words := Join(Parts(l, n), Between(l));
    ListenParts(l, r, n);
    ScaleUnbroken(l, scale);
    if 1 <= scale < 5 {
      assert words + " " + ScaleWord(l, scale) == words + [' '] + ScaleWord(l, scale);
      ListenSplit(l, r, words, ' ', ScaleWord(l, scale));
      ListenWord(l, r.(current := GroupValue(l, r.current, n)), ScaleWord(l, scale), CloseGroup(scale));
    }
  }

  // ---- Whole numbers ----

  /** What a reader holds after the groups of `n`, whose lowest is at `scale`. */
  function After(l: Locale, n: nat, scale: nat): Reading {
    if n == 0 then Reading(0, 0)
    else
      var higher := After(l, n / 1000, scale + 1);
      if n % 1000 > 0 then GroupStep(l, higher, n % 1000, scale) else higher
  }

  lemma {:induction false} ListenGroups(l: Locale, n: nat, scale: nat)
    requires n > 0
    ensures |Groups(l, n, scale)| > 0
    ensures Listen(l, Reading(0, 0), Join(Groups(l, n, scale), Between(l))) == After(l, n, scale)
    decreases n
  {
    hide Listen, GroupWords, Between, GroupStep;
    var higher := Groups(l, n / 1000, scale + 1);
    if n / 1000 > 0 {
      ListenGroups(l, n / 1000, scale + 1);
    }
    if n % 1000 > 0 {
      var g := GroupWords(l, n % 1000, scale);
      assert Groups(l, n, scale)[..|higher|] == higher;
      ListenGroup(l, After(l, n / 1000, scale + 1), n % 1000, scale);
      if |higher| > 0 {
        ListenBetween(l, Reading(0, 0), Join(higher, Between(l)), g);
      } else {
        assert Groups(l, n, scale) == [g];
      }
    } else {
      assert Groups(l, n, scale) == higher;
    }
  }

  lemma {:induction false} ReadsAfter(l: Locale, n: nat)
    requires n > 0
    ensures Read(l, Words(l, n)) == After(l, n, 0).total + After(l, n, 0).current
  {
    hide Listen, Groups, After;
    ListenGroups(l, n, 0);
  }

  lemma {:induction false} ScaledSplits(n: nat, k: nat)
    requires k <= 4
    ensures Scaled(n, k) == Scaled(n / 1000, k + 1) + Scaled(n % 1000, k)
  {
  }

  /** Groups that all have a scale word of their own are read exactly. */
  lemma {:induction false} SmallEnough(l: Locale, n: nat, k: nat)
    requires 1 <= k <= 5 && Scaled(n, k) < Scaled(1, 5)
    ensures After(l, n, k) == Reading(Scaled(n, k), 0)
    decreases n
  {
    if n > 0 {
      if k < 5 {
        ScaledSplits(n, k);
        SmallEnough(l, n / 1000, k + 1);
      }
    }
  }

  /** From the sixth group up nothing is ever closed, and the reader never understands more than was said. */
  lemma {:induction false} Unscaled(l: Locale, n: nat, k: nat)
    requires k >= 5
    ensures After(l, n, k).total == 0 && After(l, n, k).current <= n
    decreases n
  {
    if n > 0 {
      Unscaled(l, n / 1000, k + 1);
    }
  }

  lemma {:induction false} StillShort(l: Locale, higher: Reading, m: nat, g: nat, k: nat)
    requires k <= 4 && g < 1000 && higher.total + Scaled(higher.current, k + 1) < Scaled(m, k + 1)
    ensures var r := if g > 0 then GroupStep(l, higher, g, k) else higher;
            r.total + Scaled(r.current, k) < Scaled(m, k + 1) + Scaled(g, k)
  {
    assert GroupValue(l, higher.current, g) <= 1000 * higher.current + g;
  }

  /** Once there is a sixth group, the reader falls short of the number. */
  lemma {:induction false} TooLarge(l: Locale, n: nat, k: nat)
    requires k <= 4 && Scaled(n, k) >= Scaled(1, 5)
    ensures After(l, n, k).total + Scaled(After(l, n, k).current, k) < Scaled(n, k)
    decreases 4 - k
  {
    hide GroupStep;
    ScaledSplits(n, k);
    if k == 4 {
      Unscaled(l, n / 1000, 5);
      FirstScaled(l, After(l, n / 1000, 5), n / 1000, n % 1000);
    } else {
      TooLarge(l, n / 1000, k + 1);
      StillShort(l, After(l, n / 1000, k + 1), n / 1000, n % 1000, k);
    }
  }

  lemma {:induction false} FirstScaled(l: Locale, higher: Reading, m: nat, g: nat)
    requires 0 < m && g < 1000 && higher.total == 0 && higher.current <= m
    ensures var r := if g > 0 then GroupStep(l, higher, g, 4) else higher;
            r.total + Scaled(r.current, 4) < Scaled(m, 5) + Scaled(g, 4)
  {
    assert GroupValue(l, higher.current, g) <= 100 * higher.current + g;
  }

  /** A caption reads back as the amount exactly when the amount is below ten to the fifteenth. */
  lemma {:induction false} RoundTripExactly(l: Locale, n: nat)
    ensures Read(l, Words(l, n)) == n <==> n < 1_000_000_000_000_000
  {
    hide Listen, After, Groups;
    if n == 0 {
      ReadsZero(l);
    } else {
      ReadsAfter(l, n);
      if n < Scaled(1, 5) {
        LowestGroup(l, n);
      } else {
        TooLarge(l, n, 0);
      }
    }
  }

  lemma {:induction false} ReadsZero(l: Locale)
    ensures Read(l, Words(l, 0)) == 0
  {
    hide Listen;
    ListenNumber(l, Reading(0, 0), 0);
  }

  lemma {:induction false} LowestGroup(l: Locale, n: nat)
    requires 0 < n < Scaled(1, 5)
    ensures After(l, n, 0).total + After(l, n, 0).current == n
  {
    ScaledSplits(n, 0);
    SmallEnough(l, n / 1000, 1);
  }

  /** No two amounts below the bound are spelled alike. */
  lemma {:induction false} DistinctCaptions(l: Locale, m: nat, n: nat)
    requires m < 1_000_000_000_000_000 && n < 1_000_000_000_000_000 && Words(l, m) == Words(l, n)
    ensures m == n
  {
    RoundTripExactly(l, m);
    RoundTripExactly(l, n);
  }

  lemma {:induction false} EmptyGroup(l: Locale, n: nat, k: nat)
    requires n > 0
    ensures Groups(l, 1000 * n, k) == Groups(l, n, k + 1)
  {
    hide GroupWords, Ones, ScaleWord, Parts;
    var m := 1000 * n;
    assert m / 1000 == n && m % 1000 == 0;
    assert Groups(l, m, k) == Groups(l, m / 1000, k + 1) + [];
  }

  /** The bound itself is already spelled like one. */
  lemma {:induction false} BoundIsTight(l: Locale)
    ensures Words(l, 1_000_000_000_000_000) == Words(l, 1) == Ones(l, 1)
  {
    hide Ones, Groups, Between, ScaleWord;
    EmptyGroup(l, 1_000_000_000_000, 0);
    EmptyGroup(l, 1_000_000_000, 1);
    EmptyGroup(l, 1_000_000, 2);
    EmptyGroup(l, 1_000, 3);
    EmptyGroup(l, 1, 4);
    OneGroup(l, 5);
    OneGroup(l, 0);
  }

  lemma {:induction false} OneGroup(l: Locale, k: nat)
    requires k == 0 || k == 5
    ensures Groups(l, 1, k) == [Ones(l, 1)]
  {
    hide Ones;
    assert Groups(l, 1, k) == Groups(l, 0, k + 1) + [GroupWords(l, 1, k)];
    assert Parts(l, 1) == [Ones(l, 1)];
    ScaleUnbroken(l, k);
  }
}

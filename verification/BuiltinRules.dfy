/** The gateway's own rules, and others whose matches cannot lie in a marker. */
module BuiltinRules {
  import opened Decimal
  import opened Replace
  import opened Desensitize
  import opened Restoring
  import opened EncodedBodies
  import BracketFree
  import Bodies
  import Json

  // ---------- Matches that no marker holds ----------

  /** The `n` characters from `i` on are digits. */
  predicate DigitsAt(s: string, i: int, n: nat) {
    0 <= i && i + n <= |s| && AllDigits(s[i..i + n])
  }

  ghost predicate HasNumber(s: string, n: nat) {
    exists i :: DigitsAt(s, i, n)
  }

  /** No marker of these rules holds the character. */
  ghost predicate Foreign(c: char, rules: seq<Rule>) {
    c !in "[]_" && !IsDigit(c) && forall r | r in rules :: c !in r.category
  }

  /** A match with a character foreign to markers, or with a number of more than `k` digits. */
  ghost predicate Distinctive(m: string, rules: seq<Rule>, k: nat) {
    (exists c | c in m :: Foreign(c, rules)) || HasNumber(m, k + 1)
  }

  ghost predicate AllDistinctive(rules: seq<Rule>, k: nat) {
    && (forall r, c | r in rules && c in r.category :: !IsDigit(c))
    && (forall r, s, m | r in rules && m in r.find(s) :: Distinctive(m, rules, k))
  }

  lemma CharOfMarker(category: string, n: nat, j: nat)
    requires j < |Marker(category, n)|
    ensures var c := Marker(category, n)[j];
            c in "[]_" || IsDigit(c) || c in category
    ensures IsDigit(Marker(category, n)[j]) && (forall c | c in category :: !IsDigit(c))
            ==> |category| + 2 <= j < |category| + 2 + |Itoa(n)|
  {
    var number := Itoa(n);
    if 0 < j <= |category| {
      assert Marker(category, n)[j] == category[j - 1];
    } else if |category| + 2 <= j < |category| + 2 + |number| {
      assert Marker(category, n)[j] == number[j - |category| - 2];
    }
  }

  lemma ForeignMisses(category: string, n: nat, m: string, c: char)
    requires c in m && c !in "[]_" && !IsDigit(c) && c !in category
    ensures !Contains(Marker(category, n), m)
  {
    var mark := Marker(category, n);
    var k :| 0 <= k < |m| && m[k] == c;
    forall i ensures !OccursAt(mark, m, i) {
      if 0 <= i && i + |m| <= |mark| {
        CharOfMarker(category, n, i + k);
        assert mark[i..i + |m|][k] == mark[i + k];
      }
    }
  }

  /** A number of more than `k` digits lies in no marker numbered below `10^k`. */
  lemma LongNumberMisses(category: string, n: nat, m: string, i: int, k: nat)
    requires k >= 1 && DigitsAt(m, i, k + 1) && n < Pow10(k) && forall c | c in category :: !IsDigit(c)
    ensures !Contains(Marker(category, n), m)
  {
    var mark := Marker(category, n);
    ItoaLength(n, k);
    forall j ensures !OccursAt(mark, m, j) {
      if 0 <= j && j + |m| <= |mark| && mark[j..j + |m|] == m {
        var digits := m[i..i + (k + 1)];
        assert digits[0] == m[i] == mark[j + i] && digits[k] == m[i + k] == mark[j + i + k];
        CharOfMarker(category, n, j + i);
        CharOfMarker(category, n, j + i + k);
      }
    }
  }

  /** Rules whose matches are distinctive are harmless while they mint fewer than `10^k` markers of a category. */
  lemma DistinctiveIsHarmless(rules: seq<Rule>, k: nat)
    requires k >= 1 && AllDistinctive(rules, k)
    ensures BracketFree.HarmlessBelow(rules, Pow10(k))
  {
    forall r, s, m, c, n: nat | r in rules && m in r.find(s) && c in rules && n < Pow10(k)
      ensures !Contains(Marker(c.category, n), m)
    {
      assert Distinctive(m, rules, k);
      if x :| x in m && Foreign(x, rules) {
        ForeignMisses(c.category, n, m, x);
      } else {
        var i :| DigitsAt(m, i, k + 1);
        LongNumberMisses(c.category, n, m, i, k);
      }
    }
  }

  // ---------- The built-in patterns ----------

  /** What every match of a built-in pattern shows. */
  predicate Shows(category: string, m: string) {
    match category
    case "IDCARD" => |m| == 18 && AllDigits(m[..17])
    case "BANKCARD" => 13 <= |m| <= 19 && AllDigits(m)
    case "APIKEY" => ':' in m || '=' in m
    case "EMAIL" => '@' in m
    case "PHONE" => |m| == 11 && AllDigits(m)
    case "IP" => '.' in m
    case _ => false
  }

  const CATEGORIES: set<string> := {"IDCARD", "BANKCARD", "APIKEY", "EMAIL", "PHONE", "IP"}

  ghost predicate Builtin(rules: seq<Rule>) {
    forall r | r in rules :: r.category in CATEGORIES && forall s, m | m in r.find(s) :: Shows(r.category, m)
  }

  predicate Letters(s: string) {
    forall i | 0 <= i < |s| :: 'A' <= s[i] <= 'Z'
  }

  lemma CategoryIsLetters(category: string)
    requires category in CATEGORIES
    ensures Letters(category)
  {
  }

  lemma BuiltinIsLetters(rules: seq<Rule>)
    requires Builtin(rules)
    ensures forall r | r in rules :: Letters(r.category)
  {
    forall r | r in rules ensures Letters(r.category) {
      CategoryIsLetters(r.category);
    }
  }

  lemma ForeignToLetters(m: string, c: char, rules: seq<Rule>, k: nat)
    requires (forall r | r in rules :: Letters(r.category)) && c in m && c in ":=@."
    ensures Distinctive(m, rules, k)
  {
    assert Foreign(c, rules);
  }

  lemma StartsWithNumber(m: string, n: nat, k: nat, rules: seq<Rule>)
    requires k < n <= |m| && AllDigits(m[..n])
    ensures Distinctive(m, rules, k)
  {
    assert forall i | 0 <= i < k + 1 :: m[0..k + 1][i] == m[..n][i];
    assert DigitsAt(m, 0, k + 1);
  }

  lemma ShowsDistinctive(category: string, m: string, rules: seq<Rule>)
    requires (forall r | r in rules :: Letters(r.category)) && Shows(category, m)
    ensures Distinctive(m, rules, 10)
  {
    match category {
      case "IDCARD" => StartsWithNumber(m, 17, 10, rules);
      case "BANKCARD" | "PHONE" =>
        assert m[..|m|] == m;
        StartsWithNumber(m, |m|, 10, rules);
      case "APIKEY" => ForeignToLetters(m, if ':' in m then ':' else '=', rules, 10);
      case "EMAIL" => ForeignToLetters(m, '@', rules, 10);
      case "IP" => ForeignToLetters(m, '.', rules, 10);
      case _ =>
    }
  }

  lemma BuiltinIsDistinctive(rules: seq<Rule>)
    requires Builtin(rules)
    ensures AllDistinctive(rules, 10) && Categorised(rules)
  {
    BuiltinIsLetters(rules);
    forall r, s, m | r in rules && m in r.find(s) ensures Distinctive(m, rules, 10) {
      assert Shows(r.category, m);
      ShowsDistinctive(r.category, m, rules);
    }
  }

  /** With rules whose matches are distinctive, and fewer than `10^k` matches, every text comes back, in every order, if
      and only if it spells none of its own markers. */
  lemma DistinctiveRoundTrip(text: string, rules: seq<Rule>, k: nat, order: seq<string>)
    requires k >= 1 && Categorised(rules) && AllDistinctive(rules, k)
    requires BracketFree.Found(Pass(text, map[], map[]), rules) < Pow10(k)
    requires Traverses(order, Mask(text, rules).items)
    ensures var m := Mask(text, rules);
            && (RestoreInOrder(m.text, m.items, order) == text <==> forall k | k in m.items :: !Contains(text, k))
            && ('[' !in text ==> RestoreInOrder(m.text, m.items, order) == text)
  {
    DistinctiveIsHarmless(rules, k);
    BracketFree.HarmlessSeparates(text, rules);
    RestoreInvertsMaskFresh(text, rules, order);
    if '[' !in text {
      BracketFreeRoundTrip(text, rules, order);
    }
  }

  /** The gateway's own rules, whatever they find: with fewer than ten thousand million matches. */
  lemma BuiltinRoundTrip(text: string, rules: seq<Rule>, order: seq<string>)
    requires Builtin(rules) && BracketFree.Found(Pass(text, map[], map[]), rules) < Pow10(10)
    requires Traverses(order, Mask(text, rules).items)
    ensures var m := Mask(text, rules);
            && (RestoreInOrder(m.text, m.items, order) == text <==> forall k | k in m.items :: !Contains(text, k))
            && ('[' !in text ==> RestoreInOrder(m.text, m.items, order) == text)
  {
    BuiltinIsDistinctive(rules);
    DistinctiveRoundTrip(text, rules, 10, order);
  }

  // ---------- Whole bodies ----------

  lemma {:induction false} BodyMintsBelow(texts: seq<string>, rules: seq<Rule>, bound: nat)
    requires Categorised(rules)
    requires forall s | s in texts :: BracketFree.Found(Pass(s, map[], map[]), rules) < bound
    ensures BracketFree.MintedBelow(BodyItems(texts, rules), rules, bound)
  {
    if texts != [] {
      var front, last := texts[..|texts| - 1], texts[|texts| - 1];
      assert last in texts && forall s | s in front :: s in texts;
      BodyMintsBelow(front, rules, bound);
      BracketFree.MaskMintsBelow(last, rules);
      MintedBoth(BodyItems(front, rules), Mask(last, rules).items, rules, bound);
    }
  }

  lemma MintedBoth(a: map<string, string>, b: map<string, string>, rules: seq<Rule>, bound: nat)
    requires BracketFree.MintedBelow(a, rules, bound) && BracketFree.MintedBelow(b, rules, bound)
    ensures BracketFree.MintedBelow(a + b, rules, bound)
  {
  }

  /** The encoder leaves capital letters, digits, brackets and the underscore as they are. */
  ghost predicate KeepsMarkers(l: Layout) {
    forall c | c in "[]_" || IsDigit(c) || 'A' <= c <= 'Z' :: l.escape(c) == [c]
  }

  lemma {:induction false} PlainEscape(l: Layout, s: string)
    requires forall c | c in s :: l.escape(c) == [c]
    ensures l.Escape(s) == s
  {
    if s != "" {
      PlainEscape(l, s[1..]);
      assert s == [s[0]] + s[1..];
    }
  }

  lemma MarkerIsKept(l: Layout, category: string, n: nat)
    requires KeepsMarkers(l) && Letters(category)
    ensures l.Escape(Marker(category, n)) == Marker(category, n)
  {
    var m := Marker(category, n);
    forall c | c in m ensures l.escape(c) == [c] {
      var j :| 0 <= j < |m| && m[j] == c;
      CharOfMarker(category, n, j);
    }
    PlainEscape(l, m);
  }

  /** A body masked by the gateway's own rules, without a clash: passed back and restored in any order it is what it
      was, if and only if no marker that is shown stands for a text to escape and the encoding spells no marker. */
  lemma BuiltinBodyRoundTrip(l: Layout, body: Json.Value, rules: seq<Rule>, walked: seq<string>, order: seq<string>)
    requires l.Lawful() && KeepsMarkers(l) && Builtin(rules) && NoClash(walked, rules)
    requires forall s | Bodies.Reaches(body, s) :: s in walked
    requires forall s | s in walked :: BracketFree.Found(Pass(s, map[], map[]), rules) < Pow10(10)
    requires Traverses(order, BodyItems(walked, rules))
    ensures var items := BodyItems(walked, rules);
            var masked, whole := Encode(l, Bodies.Masked(body, rules)), Encode(l, body);
            RestoreInOrder(masked, items, order) == whole <==> ShowsPlain(l, masked, items) && !Spelled(whole, items)
  {
    var items := BodyItems(walked, rules);
    BuiltinIsDistinctive(rules);
    BuiltinIsLetters(rules);
    DistinctiveIsHarmless(rules, 10);
    BodyMintsBelow(walked, rules, Pow10(10));
    BracketFree.MintedSeparates(items, rules, Pow10(10));
    forall k | k in items ensures l.Escape(k) == k {
      var c, n: nat :| c in rules && k == Marker(c.category, n);
      MarkerIsKept(l, c.category, n);
    }
    RestoreInvertsBody(l, body, rules, walked, order);
  }
}

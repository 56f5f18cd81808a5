/** Masking of sensitive substrings by numbered markers, and restoring them in a reply. */
module Desensitize {
  import opened Decimal
  import opened Replace

  // ---------- Markers ----------

  /** `[CATEGORY_n]` */
  function Marker(category: string, n: nat): string {
    "[" + category + "_" + Itoa(n) + "]"
  }

  predicate NoBracket(s: string) {
    '[' !in s && ']' !in s
  }

  predicate IsMarker(m: string) {
    |m| >= 2 && m[0] == '[' && m[|m| - 1] == ']' && NoBracket(m[1..|m| - 1])
  }

  lemma LastUnderscore(m: string, category: string, n: nat)
    requires m == Marker(category, n)
    ensures m[|category| + 1] == '_' && forall j | |category| + 1 < j < |m| :: m[j] != '_'
  {
    var d := Itoa(n);
    forall j | |category| + 1 < j < |m| - 1 ensures m[j] != '_' {
      assert m[j] == d[j - |category| - 2];
    }
  }

  /** A marker determines its category and its number, whatever characters the category holds. */
  lemma MarkerInjective(c1: string, n1: nat, c2: string, n2: nat)
    requires Marker(c1, n1) == Marker(c2, n2)
    ensures c1 == c2 && n1 == n2
  {
    var m := Marker(c1, n1);
    LastUnderscore(m, c1, n1);
    LastUnderscore(m, c2, n2);
    assert |c1| == |c2|;
    assert c1 == m[1..|c1| + 1] == c2;
    assert Itoa(n1) == m[|c1| + 2..|m| - 1] == Itoa(n2);
    ItoaInjective(n1, n2);
  }

  lemma MarkerShape(category: string, n: nat)
    requires NoBracket(category)
    ensures IsMarker(Marker(category, n))
  {
    var m := Marker(category, n);
    assert m[1..|m| - 1] == category + "_" + Itoa(n);
  }

  lemma MarkerEnd(m: string, s: string)
    requires IsMarker(m) && m <= s
    ensures s[|m| - 1] == ']' && forall k | 0 <= k < |m| - 1 :: s[k] != ']'
  {
    forall k | 0 < k < |m| - 1 ensures s[k] != ']' {
      assert s[k] == m[1..|m| - 1][k - 1];
    }
  }

  lemma MarkersInFront(m: string, x: string, rest: string)
    requires IsMarker(m) && IsMarker(x)
    ensures m <= x + rest ==> m == x
  {
    var s := x + rest;
    MarkerEnd(x, s);
    if m <= s {
      MarkerEnd(m, s);
      assert |m| == |x|;
      assert m == s[..|m|] && x == s[..|x|];
    }
  }

  // ---------- The masking pass ----------

  /** An active rule: its category and what its pattern finds in a text, in order. */
  datatype Rule = Rule(category: string, find: string -> seq<string>)

  /** What one call to `DesensitizeText` carries along. */
  datatype Pass = Pass(text: string, items: map<string, string>, counters: map<string, nat>) {
    function Counter(category: string): nat {
      if category in counters then counters[category] else 0
    }

    function Mint(category: string, match_: string): Pass {
      var marker := Marker(category, Counter(category) + 1);
      Pass(GoReplaceAll(text, match_, marker), items[marker := match_], counters[category := Counter(category) + 1])
    }
  }

  function Interleave(s: string, to: string): string {
    if s == "" then to else to + [s[0]] + Interleave(s[1..], to)
  }

  /** The library's replacement, which puts `to` around every character when `from` is empty. */
  function GoReplaceAll(s: string, from: string, to: string): string {
    if from == "" then Interleave(s, to) else ReplaceAll(s, from, to)
  }

  /** One match: skipped if it holds a bracket, else replaced by its marker, a new one the first time in a rule. */
  function AfterMatch(p: Pass, seen: map<string, string>, category: string, m: string): Pass {
    if '[' in m || ']' in m then p
    else if m in seen then p.(text := GoReplaceAll(p.text, m, seen[m]))
    else p.Mint(category, m)
  }

  function SeenAfter(p: Pass, seen: map<string, string>, category: string, m: string): map<string, string> {
    if '[' in m || ']' in m || m in seen then seen else seen[m := Marker(category, p.Counter(category) + 1)]
  }

  function ApplyMatches(p: Pass, seen: map<string, string>, category: string, matches: seq<string>): Pass
    decreases |matches|
  {
    if matches == [] then p
    else
      var m := matches[0];
      ApplyMatches(AfterMatch(p, seen, category, m), SeenAfter(p, seen, category, m), category, matches[1..])
  }

  function ApplyRules(p: Pass, rules: seq<Rule>): Pass
    decreases |rules|
  {
    if rules == [] then p
    else ApplyRules(ApplyMatches(p, map[], rules[0].category, rules[0].find(p.text)), rules[1..])
  }

  /** Masking one text: the masked text and the markers it minted. */
  function Mask(text: string, rules: seq<Rule>): Pass {
    ApplyRules(Pass(text, map[], map[]), rules)
  }

  // ---------- The summary ----------

  function Stars(n: nat): string {
    if n == 0 then "" else "*" + Stars(n - 1)
  }

  /** An original as the summary shows it. */
  function Shorten(s: string): string {
    if |s| <= 8 then Stars(|s|) else s[..3] + "..." + s[|s| - 3..]
  }

  /** What one match adds to the summary: a line when a marker is minted. */
  function LineOf(p: Pass, seen: map<string, string>, category: string, m: string): seq<string> {
    if '[' in m || ']' in m || m in seen then []
    else [category + ":" + Shorten(m) + "\U{2192}" + Marker(category, p.Counter(category) + 1)]
  }

  function LinesOfMatches(p: Pass, seen: map<string, string>, category: string, matches: seq<string>): seq<string>
    decreases |matches|
  {
    if matches == [] then []
    else
      var m := matches[0];
      LineOf(p, seen, category, m)
      + LinesOfMatches(AfterMatch(p, seen, category, m), SeenAfter(p, seen, category, m), category, matches[1..])
  }

  function LinesOfRules(p: Pass, rules: seq<Rule>): seq<string>
    decreases |rules|
  {
    if rules == [] then []
    else
      var matches := rules[0].find(p.text);
      LinesOfMatches(p, map[], rules[0].category, matches)
      + LinesOfRules(ApplyMatches(p, map[], rules[0].category, matches), rules[1..])
  }

  function Summary(text: string, rules: seq<Rule>): seq<string> {
    LinesOfRules(Pass(text, map[], map[]), rules)
  }

  /** The summary shows no more of an original than its first and last three characters, and nothing of a short one. */
  lemma {:induction false} SummaryHides(s: string)
    ensures |s| <= 8 ==> Shorten(s) == "********"[..|s|]
    ensures |s| > 8 ==> |Shorten(s)| == 9 && Shorten(s)[..3] == s[..3] && Shorten(s)[3..6] == "..."
                        && Shorten(s)[6..] == s[|s| - 3..]
  {
    if |s| <= 8 {
      AllStars(|s|);
    }
  }

  lemma {:induction false} AllStars(n: nat)
    ensures |Stars(n)| == n && forall i | 0 <= i < n :: Stars(n)[i] == '*'
  {
    if n > 0 {
      AllStars(n - 1);
    }
  }

  /** The request's table from markers to originals. */
  class ReplacementMap {
    var items: map<string, string>

    constructor ()
      ensures items == map[]
    {
      items := map[];
    }

    method Add(marker: string, original: string)
      modifies this
      ensures items == old(items)[marker := original]
      ensures marker != "" ==> RestoreInOrder(marker, items, [marker]) == original
    {
      items := items[marker := original];
      if marker != "" {
        assert [marker][1..] == [] && marker[|marker|..] == "" && ReplaceAll("", marker, original) == "";
        assert ReplaceAll(marker, marker, original) == original + "" == original;
      }
    }

    /** Replaces every marker in the order the map happens to be traversed. */
    method Restore(text: string) returns (restored: string)
      ensures exists order :: Traverses(order, items) && restored == RestoreInOrder(text, items, order)
    {
      restored := text;
      ghost var order := [];
      var todo := items.Keys;
      while todo != {}
        invariant todo <= items.Keys
        invariant forall k :: k in order <==> k in items.Keys - todo
        invariant forall i, j :: 0 <= i < j < |order| ==> order[i] != order[j]
        invariant restored == RestoreInOrder(text, items, order)
        decreases todo
      {
        var marker :| marker in todo;
        RestoreAppend(text, items, order, marker);
        assert marker !in order;
        restored := GoReplaceAll(restored, marker, items[marker]);
        todo := todo - {marker};
        order := order + [marker];
      }
      assert Traverses(order, items);
    }
  }

  /** `order` visits every key of `items` exactly once. */
  ghost predicate Traverses(order: seq<string>, items: map<string, string>) {
    (forall k :: k in order <==> k in items) && (forall i, j :: 0 <= i < j < |order| ==> order[i] != order[j])
  }

  function RestoreInOrder(text: string, items: map<string, string>, order: seq<string>): string
    requires forall k | k in order :: k in items
    decreases |order|
  {
    if order == [] then text
    else RestoreInOrder(GoReplaceAll(text, order[0], items[order[0]]), items, order[1..])
  }

  lemma {:induction false} RestoreAppend(text: string, items: map<string, string>, order: seq<string>, k: string)
    requires k in items && forall k' | k' in order :: k' in items
    ensures RestoreInOrder(text, items, order + [k]) == GoReplaceAll(RestoreInOrder(text, items, order), k, items[k])
    decreases |order|
  {
    var whole := order + [k];
    if order == [] {
      assert whole[1..] == [];
    } else {
      assert whole[1..] == order[1..] + [k];
      RestoreAppend(GoReplaceAll(text, order[0], items[order[0]]), items, order[1..], k);
    }
  }

  lemma MatchByMatch(p: Pass, seen: map<string, string>, category: string, matches: seq<string>, j: nat,
                     redacted: seq<string>)
    requires j < |matches|
    ensures var q, seen' := AfterMatch(p, seen, category, matches[j]), SeenAfter(p, seen, category, matches[j]);
            && ApplyMatches(p, seen, category, matches[j..]) == ApplyMatches(q, seen', category, matches[j + 1..])
            && redacted + LinesOfMatches(p, seen, category, matches[j..])
               == redacted + LineOf(p, seen, category, matches[j])
                  + LinesOfMatches(q, seen', category, matches[j + 1..])
  {
    var q, seen' := AfterMatch(p, seen, category, matches[j]), SeenAfter(p, seen, category, matches[j]);
    assert matches[j..][1..] == matches[j + 1..];
    LinesBehind(redacted, LineOf(p, seen, category, matches[j]), LinesOfMatches(q, seen', category, matches[j + 1..]));
  }

  lemma LinesBehind(a: seq<string>, b: seq<string>, c: seq<string>)
    ensures a + (b + c) == a + b + c
  {
  }

  lemma AddBehind(base: map<string, string>, items: map<string, string>, k: string, v: string)
    ensures (base + items)[k := v] == base + items[k := v]
  {
  }

  /** One match in the inner loop. `base` is the table before the text, `pass.items` what the text has added. */
  method MaskMatch(text: string, counters0: map<string, nat>, seen0: map<string, string>, category: string, m: string,
                   mapping: ReplacementMap, redacted0: seq<string>, ghost base: map<string, string>, ghost pass: Pass)
    returns (masked: string, counters: map<string, nat>, seen: map<string, string>, redacted: seq<string>,
             ghost next: Pass)
    requires pass.text == text && pass.counters == counters0 && mapping.items == base + pass.items
    modifies mapping
    ensures next == AfterMatch(pass, seen0, category, m) && seen == SeenAfter(pass, seen0, category, m)
    ensures masked == next.text && counters == next.counters && mapping.items == base + next.items
    ensures redacted == redacted0 + LineOf(pass, seen0, category, m)
  {
    masked, counters, seen, next := text, counters0, seen0, AfterMatch(pass, seen0, category, m);
    redacted := redacted0;
    if '[' in m || ']' in m {
      return;
    }
    if m in seen {
      masked := GoReplaceAll(masked, m, seen[m]);
      return;
    }
    counters := counters[category := (if category in counters then counters[category] else 0) + 1];
    var marker := Marker(category, counters[category]);
    mapping.Add(marker, m);
    AddBehind(base, pass.items, marker, m);
    seen := seen[m := marker];
    redacted := redacted + [category + ":" + Shorten(m) + "\U{2192}" + marker];
    masked := GoReplaceAll(masked, m, marker);
  }

  /** The inner loop: the matches of one rule. */
  method MaskMatches(text: string, counters0: map<string, nat>, category: string, matches: seq<string>,
                     mapping: ReplacementMap, redacted0: seq<string>, ghost base: map<string, string>,
                     ghost pass: Pass)
    returns (masked: string, counters: map<string, nat>, redacted: seq<string>, ghost next: Pass)
    requires pass.text == text && pass.counters == counters0 && mapping.items == base + pass.items
    modifies mapping
    ensures next == ApplyMatches(pass, map[], category, matches)
    ensures masked == next.text && counters == next.counters && mapping.items == base + next.items
    ensures redacted == redacted0 + LinesOfMatches(pass, map[], category, matches)
  {
    masked, counters, redacted, next := text, counters0, redacted0, pass;
    var seen: map<string, string> := map[];
    ghost var lines := redacted0 + LinesOfMatches(pass, map[], category, matches);
    assert matches[0..] == matches;
    for j := 0 to |matches|
      invariant masked == next.text && counters == next.counters && mapping.items == base + next.items
      invariant ApplyMatches(next, seen, category, matches[j..]) == ApplyMatches(pass, map[], category, matches)
      invariant redacted + LinesOfMatches(next, seen, category, matches[j..]) == lines
    {
      MatchByMatch(next, seen, category, matches, j, redacted);
      masked, counters, seen, redacted, next :=
        MaskMatch(masked, counters, seen, category, matches[j], mapping, redacted, base, next);
    }
  }

  /** The loop over the rules. */
  method DesensitizeText(text: string, rules: seq<Rule>, mapping: ReplacementMap, redacted0: seq<string>)
    returns (masked: string, redacted: seq<string>)
    modifies mapping
    ensures masked == Mask(text, rules).text
    ensures mapping.items == old(mapping.items) + Mask(text, rules).items
    ensures redacted == redacted0 + Summary(text, rules)
  {
    masked, redacted := text, redacted0;
    var counters: map<string, nat> := map[];
    ghost var base, pass := mapping.items, Pass(text, map[], map[]);
    assert rules[0..] == rules && base + map[] == base;
    for i := 0 to |rules|
      invariant masked == pass.text && counters == pass.counters && mapping.items == base + pass.items
      invariant ApplyRules(pass, rules[i..]) == Mask(text, rules)
      invariant redacted + LinesOfRules(pass, rules[i..]) == redacted0 + Summary(text, rules)
    {
      RuleByRule(pass, rules, i, redacted);
      masked, counters, redacted, pass :=
        MaskMatches(masked, counters, rules[i].category, rules[i].find(masked), mapping, redacted, base, pass);
    }
  }

  lemma RuleByRule(p: Pass, rules: seq<Rule>, i: nat, redacted: seq<string>)
    requires i < |rules|
    ensures var matches := rules[i].find(p.text);
            var q := ApplyMatches(p, map[], rules[i].category, matches);
            && ApplyRules(p, rules[i..]) == ApplyRules(q, rules[i + 1..])
            && redacted + LinesOfRules(p, rules[i..])
               == redacted + LinesOfMatches(p, map[], rules[i].category, matches) + LinesOfRules(q, rules[i + 1..])
  {
    assert rules[i..][1..] == rules[i + 1..];
  }

  // ---------- The table that a run builds ----------

  ghost predicate MintedBy(k: string, counters: map<string, nat>) {
    exists c, n: nat :: c in counters && 1 <= n <= counters[c] && k == Marker(c, n)
  }

  /** Every marker in the table was numbered by the counters and stands for a bracket-free original. */
  ghost predicate Ledger(p: Pass) {
    forall k | k in p.items :: MintedBy(k, p.counters) && IsMarker(k) && NoBracket(p.items[k])
  }

  predicate Extends(small: map<string, string>, large: map<string, string>) {
    forall k | k in small :: k in large && large[k] == small[k]
  }

  /** Markers with their brackets and nothing else, originals without any. */
  predicate Formed(items: map<string, string>) {
    forall k | k in items :: IsMarker(k) && NoBracket(items[k])
  }

  lemma MintIsFresh(p: Pass, category: string, m: string)
    requires Ledger(p) && NoBracket(category) && NoBracket(m)
    ensures Marker(category, p.Counter(category) + 1) !in p.items
    ensures Ledger(p.Mint(category, m)) && Extends(p.items, p.Mint(category, m).items)
  {
    var n := p.Counter(category) + 1;
    var marker := Marker(category, n);
    MarkerShape(category, n);
    forall c: string, k: nat | Marker(c, k) == marker ensures c == category && k == n {
      MarkerInjective(c, k, category, n);
    }
    var q := p.Mint(category, m);
    assert MintedBy(marker, q.counters);
    forall k | k in p.items ensures k != marker && MintedBy(k, q.counters) {
      var c, j: nat :| c in p.counters && 1 <= j <= p.counters[c] && k == Marker(c, j);
      assert j <= q.counters[c];
    }
  }

  ghost predicate Remembers(seen: map<string, string>, items: map<string, string>) {
    forall m | m in seen :: seen[m] in items && items[seen[m]] == m
  }

  lemma RemembersMint(p: Pass, category: string, m: string, seen: map<string, string>)
    requires Remembers(seen, p.items) && Extends(p.items, p.Mint(category, m).items)
    ensures Remembers(seen[m := Marker(category, p.Counter(category) + 1)], p.Mint(category, m).items)
  {
    var q := p.Mint(category, m);
    forall m' | m' in seen ensures seen[m'] in q.items && q.items[seen[m']] == m' {
      assert p.items[seen[m']] == m';
    }
  }

  /** One match keeps the table in order; a match that is replaced has its marker in it. */
  lemma MatchExtends(p: Pass, seen: map<string, string>, category: string, m: string)
    requires Ledger(p) && NoBracket(category) && Remembers(seen, p.items)
    ensures var q, seen' := AfterMatch(p, seen, category, m), SeenAfter(p, seen, category, m);
            && Ledger(q) && Remembers(seen', q.items) && Extends(p.items, q.items)
            && (NoBracket(m) ==> m in seen' && seen'[m] in q.items && q.items[seen'[m]] == m)
  {
    if NoBracket(m) && m !in seen {
      MintIsFresh(p, category, m);
      RemembersMint(p, category, m, seen);
    }
  }

  lemma {:induction false} MatchesExtend(p: Pass, seen: map<string, string>, category: string, matches: seq<string>)
    requires Ledger(p) && NoBracket(category) && Remembers(seen, p.items)
    ensures var r := ApplyMatches(p, seen, category, matches); Ledger(r) && Extends(p.items, r.items)
    decreases |matches|
  {
    if matches != [] {
      MatchExtends(p, seen, category, matches[0]);
      MatchesExtend(AfterMatch(p, seen, category, matches[0]), SeenAfter(p, seen, category, matches[0]), category,
                    matches[1..]);
    }
  }

  ghost predicate Categorised(rules: seq<Rule>) {
    forall r | r in rules :: NoBracket(r.category)
  }

  lemma {:induction false} RulesExtend(p: Pass, rules: seq<Rule>)
    requires Ledger(p) && Categorised(rules)
    ensures var r := ApplyRules(p, rules); Ledger(r) && Extends(p.items, r.items)
    decreases |rules|
  {
    if rules != [] {
      var matches := rules[0].find(p.text);
      MatchesExtend(p, map[], rules[0].category, matches);
      RulesExtend(ApplyMatches(p, map[], rules[0].category, matches), rules[1..]);
    }
  }

  // ---------- The summary counts the markers ----------

  lemma FreshKeyGrows(items: map<string, string>, k: string, v: string)
    requires k !in items
    ensures |items[k := v]| == |items| + 1
  {
    assert items[k := v].Keys == items.Keys + {k};
  }

  lemma MintGrows(p: Pass, category: string, m: string)
    requires Ledger(p) && NoBracket(category) && NoBracket(m)
    ensures |p.Mint(category, m).items| == |p.items| + 1
  {
    MintIsFresh(p, category, m);
    FreshKeyGrows(p.items, Marker(category, p.Counter(category) + 1), m);
  }

  lemma {:induction false} MatchLinesCount(p: Pass, seen: map<string, string>, category: string, matches: seq<string>)
    requires Ledger(p) && NoBracket(category) && Remembers(seen, p.items)
    ensures |ApplyMatches(p, seen, category, matches).items|
         == |p.items| + |LinesOfMatches(p, seen, category, matches)|
    decreases |matches|
  {
    if matches != [] {
      var m := matches[0];
      MatchExtends(p, seen, category, m);
      if NoBracket(m) && m !in seen {
        MintGrows(p, category, m);
      }
      MatchLinesCount(AfterMatch(p, seen, category, m), SeenAfter(p, seen, category, m), category, matches[1..]);
    }
  }

  lemma {:induction false} RuleLinesCount(p: Pass, rules: seq<Rule>)
    requires Ledger(p) && Categorised(rules)
    ensures |ApplyRules(p, rules).items| == |p.items| + |LinesOfRules(p, rules)|
    decreases |rules|
  {
    if rules != [] {
      var matches := rules[0].find(p.text);
      MatchLinesCount(p, map[], rules[0].category, matches);
      MatchesExtend(p, map[], rules[0].category, matches);
      RuleLinesCount(ApplyMatches(p, map[], rules[0].category, matches), rules[1..]);
    }
  }

  /** The summary has a line for every marker of the text: it is empty exactly when nothing was minted. */
  lemma SummaryCountsMarkers(text: string, rules: seq<Rule>)
    requires Categorised(rules)
    ensures |Summary(text, rules)| == |Mask(text, rules).items|
    ensures Summary(text, rules) == [] <==> Mask(text, rules).items == map[]
  {
    RuleLinesCount(Pass(text, map[], map[]), rules);
  }

  // ---------- A body of several strings sharing one table ----------

  /** The table after masking every string in turn; each call numbers its markers from 1 again. */
  function BodyItems(texts: seq<string>, rules: seq<Rule>): map<string, string> {
    if texts == [] then map[]
    else BodyItems(texts[..|texts| - 1], rules) + Mask(texts[|texts| - 1], rules).items
  }
}

/** Masking a request as a whole: which rules apply, and to what. */
module Desensitizer {
  import opened Json
  import opened Desensitize
  import opened Bodies
  import opened EncodedBodies
  import Decimal
  import Hiding
  import Replace
  import Restoring

  const OFF := "off"
  const STANDARD := "standard"
  const STRICT := "strict"

  // ---------- The rules of a level ----------

  datatype CustomRule = CustomRule(rule: Rule, level: string, enabled: bool)

  predicate IsActive(r: CustomRule, level: string) {
    r.enabled && (level == STRICT || (level == STANDARD && r.level == STANDARD))
  }

  /** The built-in rules of a known level first, then the custom ones in their order. */
  function ActiveRules(level: string, builtins: seq<Rule>, customs: seq<CustomRule>): seq<Rule> {
    if customs == [] then if level == STANDARD || level == STRICT then builtins else []
    else
      var last := customs[|customs| - 1];
      ActiveRules(level, builtins, customs[..|customs| - 1]) + if IsActive(last, level) then [last.rule] else []
  }

  /** `picks` are the positions of the enabled custom rules that a level takes, in order. */
  ghost predicate Picks(picks: seq<nat>, level: string, customs: seq<CustomRule>) {
    && (forall i, j | 0 <= i < j < |picks| :: picks[i] < picks[j])
    && (forall i | 0 <= i < |customs| ::
          i in picks <==> customs[i].enabled && (level == "strict" || customs[i].level == "standard"))
    && (forall i | 0 <= i < |picks| :: picks[i] < |customs|)
  }

  /** The built-in rules first and then those picked, at level `standard` and `strict`; nothing at any other. */
  ghost predicate Applies(result: seq<Rule>, picks: seq<nat>, level: string, builtins: seq<Rule>,
                          customs: seq<CustomRule>)
  {
    if level != "standard" && level != "strict" then result == []
    else
      && builtins <= result && Picks(picks, level, customs) && |result| == |builtins| + |picks|
      && forall i | 0 <= i < |picks| :: result[|builtins| + i] == customs[picks[i]].rule
  }

  method GetActiveRules(level: string, builtins: seq<Rule>, customs: seq<CustomRule>)
    returns (result: seq<Rule>, ghost picks: seq<nat>)
    ensures result == ActiveRules(level, builtins, customs) && Applies(result, picks, level, builtins, customs)
  {
    result, picks := [], [];
    if level == STANDARD || level == STRICT {
      result := result + builtins;
    }
    for i := 0 to |customs|
      invariant result == ActiveRules(level, builtins, customs[..i])
      invariant Applies(result, picks, level, builtins, customs[..i])
    {
      assert customs[..i + 1][..i] == customs[..i];
      var r := customs[i];
      AppliesNext(result, picks, level, builtins, customs, i);
      if !r.enabled {
        continue;
      }
      if level == STRICT || (r.level == STANDARD && (level == STANDARD || level == STRICT)) {
        result, picks := result + [r.rule], picks + [i];
      }
    }
    assert customs[..|customs|] == customs;
  }

  lemma PickNext(picks: seq<nat>, level: string, customs: seq<CustomRule>, i: nat)
    requires i < |customs| && Picks(picks, level, customs[..i])
    ensures var taken := customs[i].enabled && (level == "strict" || customs[i].level == "standard");
            Picks(if taken then picks + [i] else picks, level, customs[..i + 1])
  {
    var next := customs[..i + 1];
    assert i !in picks;
    forall k | 0 <= k < |next|
      ensures k in picks + [i] <==> k in picks || k == i
      ensures k < i ==> next[k] == customs[..i][k]
    {
    }
  }

  lemma AppliesNext(result: seq<Rule>, picks: seq<nat>, level: string, builtins: seq<Rule>, customs: seq<CustomRule>,
                    i: nat)
    requires i < |customs| && Applies(result, picks, level, builtins, customs[..i])
    ensures var r := customs[i];
            var taken := r.enabled && (level == "strict" || (level == "standard" && r.level == "standard"));
            if taken then Applies(result + [customs[i].rule], picks + [i], level, builtins, customs[..i + 1])
            else Applies(result, picks, level, builtins, customs[..i + 1])
  {
    if level == "standard" || level == "strict" {
      PickNext(picks, level, customs, i);
      forall k | 0 <= k < |picks| ensures customs[..i + 1][picks[k]] == customs[..i][picks[k]] {
      }
    }
  }

  /** The strict level applies whatever the standard level does; a level of any other name applies nothing. */
  lemma {:induction false} LevelsGrow(builtins: seq<Rule>, customs: seq<CustomRule>, level: string)
    ensures forall r | r in ActiveRules(STANDARD, builtins, customs) :: r in ActiveRules(STRICT, builtins, customs)
    ensures level != STANDARD && level != STRICT ==> ActiveRules(level, builtins, customs) == []
  {
    if customs != [] {
      LevelsGrow(builtins, customs[..|customs| - 1], level);
    }
  }

  // ---------- A text that is all one match ----------

  /** Rule `k` takes the whole text, rules before it find nothing there, and those after it nothing in its marker. */
  ghost predicate TakesWhole(rules: seq<Rule>, k: nat, text: string) {
    && k < |rules| && text != "" && NoBracket(text) && rules[k].find(text) == [text]
    && (forall j | 0 <= j < k :: rules[j].find(text) == [])
    && (forall j | k < j < |rules| :: rules[j].find("[" + rules[k].category + "_1]") == [])
  }

  lemma FindsNothing(p: Pass, rules: seq<Rule>)
    requires forall j | 0 <= j < |rules| :: rules[j].find(p.text) == []
    ensures ApplyRules(p, rules) == p
    decreases |rules|
  {
    if rules != [] {
      assert rules[0].find(p.text) == [] && ApplyMatches(p, map[], rules[0].category, []) == p;
      forall j | 0 <= j < |rules[1..]| ensures rules[1..][j].find(p.text) == [] {
        assert rules[1..][j] == rules[j + 1];
      }
      FindsNothing(p, rules[1..]);
    }
  }

  lemma TakeNow(p: Pass, rules: seq<Rule>)
    requires p.items == map[] && p.counters == map[] && TakesWhole(rules, 0, p.text)
    ensures var marker := "[" + rules[0].category + "_1]";
            ApplyRules(p, rules) == Pass(marker, map[marker := p.text], map[rules[0].category := 1])
  {
    var c, m := rules[0].category, p.text;
    var marker := "[" + c + "_1]";
    var q := p.Mint(c, m);
    assert Decimal.Itoa(1) == "1";
    assert Marker(c, 1) == marker;
    Replace.ReplaceFront(m, "", marker);
    assert m + "" == m && marker + "" == marker;
    assert q == Pass(marker, map[marker := m], map[c := 1]);
    assert [m][1..] == [];
    assert ApplyMatches(p, map[], c, [m]) == q;
    forall j | 0 <= j < |rules[1..]| ensures rules[1..][j].find(q.text) == [] {
      assert rules[1..][j] == rules[j + 1];
    }
    FindsNothing(q, rules[1..]);
  }

  lemma {:induction false} TakeLater(p: Pass, rules: seq<Rule>, k: nat)
    requires p.items == map[] && p.counters == map[] && TakesWhole(rules, k, p.text)
    ensures var marker := "[" + rules[k].category + "_1]";
            ApplyRules(p, rules) == Pass(marker, map[marker := p.text], map[rules[k].category := 1])
    decreases k
  {
    if k == 0 {
      TakeNow(p, rules);
    } else {
      assert rules[0].find(p.text) == [] && ApplyMatches(p, map[], rules[0].category, []) == p;
      forall j | 0 <= j < |rules[1..]| ensures rules[1..][j] == rules[j + 1] {
      }
      TakeLater(p, rules[1..], k - 1);
    }
  }

  lemma NoLines(p: Pass, rules: seq<Rule>)
    requires forall j | 0 <= j < |rules| :: rules[j].find(p.text) == []
    ensures LinesOfRules(p, rules) == []
    decreases |rules|
  {
    if rules != [] {
      assert rules[0].find(p.text) == [] && ApplyMatches(p, map[], rules[0].category, []) == p;
      assert LinesOfMatches(p, map[], rules[0].category, []) == [];
      forall j | 0 <= j < |rules[1..]| ensures rules[1..][j].find(p.text) == [] {
        assert rules[1..][j] == rules[j + 1];
      }
      NoLines(p, rules[1..]);
    }
  }

  /** The line of the summary for a text that is all one match. */
  function WholeLine(category: string, text: string): string {
    category + ":" + Shorten(text) + "\U{2192}[" + category + "_1]"
  }

  lemma LineNow(p: Pass, rules: seq<Rule>)
    requires p.items == map[] && p.counters == map[] && TakesWhole(rules, 0, p.text)
    ensures LinesOfRules(p, rules) == [WholeLine(rules[0].category, p.text)]
  {
    var c, m := rules[0].category, p.text;
    var marker := "[" + c + "_1]";
    TakeNow(p, rules);
    assert Decimal.Itoa(1) == "1";
    assert Marker(c, 1) == marker;
    assert c + ":" + Shorten(m) + "\U{2192}" + marker == WholeLine(c, m);
    assert LineOf(p, map[], c, m) == [WholeLine(c, m)];
    var q, seen := AfterMatch(p, map[], c, m), SeenAfter(p, map[], c, m);
    assert [m][1..] == [];
    assert ApplyMatches(p, map[], c, [m]) == ApplyMatches(q, seen, c, []) == q;
    assert LinesOfMatches(p, map[], c, [m]) == LineOf(p, map[], c, m) + LinesOfMatches(q, seen, c, []);
    Replace.ReplaceFront(m, "", marker);
    assert m + "" == m && marker + "" == marker && q.text == marker;
    forall j | 0 <= j < |rules[1..]| ensures rules[1..][j].find(q.text) == [] {
      assert rules[1..][j] == rules[j + 1];
    }
    NoLines(q, rules[1..]);
  }

  lemma {:induction false} LineLater(p: Pass, rules: seq<Rule>, k: nat)
    requires p.items == map[] && p.counters == map[] && TakesWhole(rules, k, p.text)
    ensures LinesOfRules(p, rules) == [WholeLine(rules[k].category, p.text)]
    decreases k
  {
    if k == 0 {
      LineNow(p, rules);
    } else {
      assert rules[0].find(p.text) == [] && ApplyMatches(p, map[], rules[0].category, []) == p;
      assert LinesOfMatches(p, map[], rules[0].category, []) == [];
      forall j | 0 <= j < |rules[1..]| ensures rules[1..][j] == rules[j + 1] {
      }
      LineLater(p, rules[1..], k - 1);
    }
  }

  /** The enabled custom rules leave the marker of a category alone. */
  ghost predicate CustomsSkip(customs: seq<CustomRule>, category: string) {
    forall i | 0 <= i < |customs| && customs[i].enabled :: customs[i].rule.find("[" + category + "_1]") == []
  }

  lemma BuiltinTakes(result: seq<Rule>, picks: seq<nat>, level: string, builtins: seq<Rule>, customs: seq<CustomRule>,
                     k: nat, text: string)
    requires Applies(result, picks, level, builtins, customs) && level in {"standard", "strict"}
    requires TakesWhole(builtins, k, text) && CustomsSkip(customs, builtins[k].category)
    ensures TakesWhole(result, k, text) && result[k].category == builtins[k].category
  {
    var n := |builtins|;
    assert forall j | 0 <= j < n :: result[j] == builtins[j];
    forall j | k < j < |result| ensures result[j].find("[" + result[k].category + "_1]") == [] {
      if j >= n {
        assert result[n + (j - n)] == customs[picks[j - n]].rule;
        assert picks[j - n] in picks;
      }
    }
  }

  /** A plain text that a built-in rule takes whole becomes the rule's first marker, and has a line in the summary. */
  ghost predicate MasksWhole(builtins: seq<Rule>, customs: seq<CustomRule>, body: string, result: Outcome,
                             items: map<string, string>)
  {
    forall k | 0 <= k < |builtins| && TakesWhole(builtins, k, body) && CustomsSkip(customs, builtins[k].category) ::
      var marker := "[" + builtins[k].category + "_1]";
      && result.body == marker && result.modified && items == map[marker := body]
      && result.redacted == [WholeLine(builtins[k].category, body)]
  }

  lemma WholeIsMasked(result: seq<Rule>, picks: seq<nat>, level: string, builtins: seq<Rule>,
                      customs: seq<CustomRule>, body: string, outcome: Outcome, items: map<string, string>)
    requires Applies(result, picks, level, builtins, customs) && level in {"standard", "strict"}
    requires outcome == Outcome(Mask(body, result).text, Summary(body, result) != [], Summary(body, result), false)
    requires items == Mask(body, result).items && Categorised(result)
    ensures MasksWhole(builtins, customs, body, outcome, items)
  {
    forall k | 0 <= k < |builtins| && TakesWhole(builtins, k, body) && CustomsSkip(customs, builtins[k].category)
      ensures var marker := "[" + builtins[k].category + "_1]";
              && outcome.body == marker && outcome.modified && items == map[marker := body]
              && outcome.redacted == [WholeLine(builtins[k].category, body)]
    {
      BuiltinTakes(result, picks, level, builtins, customs, k, body);
      TakeLater(Pass(body, map[], map[]), result, k);
      LineLater(Pass(body, map[], map[]), result, k);
      SummaryCountsMarkers(body, result);
      assert items != map[];
    }
  }

  // ---------- One request ----------

  datatype Outcome = Outcome(body: string, modified: bool, redacted: seq<string>, skipped: bool)

  /** What a body becomes: an object member by member, anything that is no object as one text, and `null` not at all. */
  ghost predicate Desensitized(l: Layout, parsed: Option<Value>, body: string, rules: seq<Rule>, result: Outcome,
                               items: map<string, string>, walked: seq<string>)
  {
    && !result.skipped
    && match parsed
       case Some(Obj(fields)) =>
         var masked := Masked(Obj(fields), rules);
         && (forall s :: s in walked <==> Reaches(Obj(fields), s))
         && items == BodyItems(walked, rules) && result.redacted == BodySummary(walked, rules)
         && result.modified == (masked != Obj(fields))
         && result.body == if result.modified then Encode(l, masked) else body
       case Some(Null) => result == Outcome(body, false, [], false) && items == map[]
       case _ =>
         var m, lines := Mask(body, rules), Summary(body, rules);
         result == Outcome(m.text, lines != [], lines, false) && items == m.items
  }

  method DesensitizeRequest(l: Layout, parse: string -> Option<Value>, enabled: bool, level0: string, body: string,
                            builtins: seq<Rule>, customs: seq<CustomRule>)
    returns (result: Outcome, mapping: ReplacementMap, ghost walked: seq<string>)
    ensures fresh(mapping)
    ensures !enabled || level0 == "off" ==> result == Outcome(body, false, [], true) && mapping.items == map[]
    ensures enabled && level0 != "off" ==>
              Desensitized(l, parse(body), body,
                           ActiveRules(if level0 == "" then STANDARD else level0, builtins, customs), result,
                           mapping.items, walked)
    ensures enabled && level0 in {"", "standard", "strict"} && parse(body).None?
            && (forall r | r in builtins :: NoBracket(r.category))
            && (forall c | c in customs :: NoBracket(c.rule.category))
            ==> MasksWhole(builtins, customs, body, result, mapping.items)
  {
    mapping := new ReplacementMap();
    walked := [];
    if !enabled {
      return Outcome(body, false, [], true), mapping, [];
    }
    var level := level0;
    if level == "" {
      level := STANDARD;
    }
    if level == OFF {
      return Outcome(body, false, [], true), mapping, [];
    }
    var rules, picks := GetActiveRules(level, builtins, customs);
    var req := parse(body);
    if req.Some? && req.value.Null? {
      return Outcome(body, false, [], false), mapping, [];
    }
    if req.None? || !req.value.Obj? {
      var desensitized, redacted := DesensitizeText(body, rules, mapping, []);
      assert map[] + Mask(body, rules).items == Mask(body, rules).items;
      assert [] + Summary(body, rules) == Summary(body, rules);
      result := Outcome(desensitized, |redacted| > 0, redacted, false);
      if level in {"standard", "strict"} && (forall r | r in builtins :: NoBracket(r.category))
         && forall c | c in customs :: NoBracket(c.rule.category) {
        CategoriesOf(rules, picks, level, builtins, customs);
        WholeIsMasked(rules, picks, level, builtins, customs, body, result, mapping.items);
      }
      return;
    }
    var obj, modified, redacted;
    obj, modified, redacted, walked := DesensitizeJSON(req.value.fields, rules, mapping, []);
    assert map[] + BodyItems(walked, rules) == BodyItems(walked, rules);
    assert [] + BodySummary(walked, rules) == BodySummary(walked, rules);
    result := Outcome(if modified then Encode(l, Obj(obj)) else body, modified, redacted, false);
  }

  lemma CategoriesOf(result: seq<Rule>, picks: seq<nat>, level: string, builtins: seq<Rule>, customs: seq<CustomRule>)
    requires Applies(result, picks, level, builtins, customs)
    requires (forall r | r in builtins :: NoBracket(r.category))
    requires (forall c | c in customs :: NoBracket(c.rule.category))
    ensures Categorised(result)
  {
    forall r | r in result ensures NoBracket(r.category) {
      var j :| 0 <= j < |result| && result[j] == r;
      if j >= |builtins| {
        assert result[|builtins| + (j - |builtins|)] == customs[picks[j - |builtins|]].rule;
      } else {
        assert r == builtins[j];
      }
    }
  }

  /** Nothing that an active rule finds in a plain text is sent, if no original lies inside a marker. */
  lemma NothingFoundIsSent(l: Layout, body: string, rules: seq<Rule>, result: Outcome, items: map<string, string>,
                           walked: seq<string>, m: string)
    requires Desensitized(l, None, body, rules, result, items, walked)
    requires Categorised(rules) && Restoring.Separate(items)
    requires Hiding.IsFound(Pass(body, map[], map[]), rules, m) && NoBracket(m) && m != ""
    ensures !Replace.Contains(result.body, m)
  {
    Hiding.NothingFoundIsLeft(body, rules, m);
  }

  // ---------- What the flag means ----------

  lemma {:induction false} UnmatchedStays(p: Pass, seen: map<string, string>, category: string, matches: seq<string>)
    requires seen == map[] && LinesOfMatches(p, seen, category, matches) == []
    ensures ApplyMatches(p, seen, category, matches) == p
    decreases |matches|
  {
    if matches != [] {
      UnmatchedStays(AfterMatch(p, seen, category, matches[0]), SeenAfter(p, seen, category, matches[0]), category,
                     matches[1..]);
    }
  }

  lemma {:induction false} UnruledStays(p: Pass, rules: seq<Rule>)
    requires LinesOfRules(p, rules) == []
    ensures ApplyRules(p, rules) == p
    decreases |rules|
  {
    if rules != [] {
      UnmatchedStays(p, map[], rules[0].category, rules[0].find(p.text));
      UnruledStays(p, rules[1..]);
    }
  }

  /** A result that is not reported modified hands on the client's body; and one that is has markers to restore. */
  lemma UnmodifiedIsUntouched(l: Layout, parsed: Option<Value>, body: string, rules: seq<Rule>, result: Outcome,
                              items: map<string, string>, walked: seq<string>)
    requires Categorised(rules) && Desensitized(l, parsed, body, rules, result, items, walked)
    ensures !result.modified ==> result.body == body
    ensures result.modified ==> items != map[] && result.redacted != []
  {
    match parsed {
      case Some(Obj(fields)) =>
        if items == map[] || result.redacted == [] {
          NothingMinted(walked, rules);
          UnmaskedStays(Obj(fields), rules);
        }
      case Some(Null) =>
      case _ =>
        SummaryCountsMarkers(body, rules);
        if Summary(body, rules) == [] {
          UnruledStays(Pass(body, map[], map[]), rules);
        }
    }
  }

  /** Without a marker or without a line, no string of the body is changed. */
  lemma {:induction false} NothingMinted(walked: seq<string>, rules: seq<Rule>)
    requires Categorised(rules) && (BodyItems(walked, rules) == map[] || BodySummary(walked, rules) == [])
    ensures forall s | s in walked :: Mask(s, rules).text == s
  {
    if walked != [] {
      var front, last := walked[..|walked| - 1], walked[|walked| - 1];
      assert BodyItems(walked, rules) == BodyItems(front, rules) + Mask(last, rules).items;
      assert forall k | k in Mask(last, rules).items :: k in BodyItems(walked, rules);
      assert forall k | k in BodyItems(front, rules) :: k in BodyItems(walked, rules);
      SummaryCountsMarkers(last, rules);
      NothingMinted(front, rules);
      UnruledStays(Pass(last, map[], map[]), rules);
    }
  }

  lemma {:induction false} UnmaskedStays(v: Value, rules: seq<Rule>)
    requires forall s | Reaches(v, s) :: Mask(s, rules).text == s
    ensures Masked(v, rules) == v
    decreases v
  {
    match v {
      case Str(s) =>
        assert Reaches(v, s);
      case Obj(fields) =>
        forall k | k in fields ensures Masked(fields[k], rules) == fields[k] {
          assert forall s | Reaches(fields[k], s) :: Reaches(v, s);
          UnmaskedStays(fields[k], rules);
        }
      case Arr(items) =>
        forall i | 0 <= i < |items| && !items[i].Arr? ensures Masked(items[i], rules) == items[i] {
          assert forall s | Reaches(items[i], s) :: Reaches(v, s);
          UnmaskedStays(items[i], rules);
        }
      case _ =>
    }
  }
}

/** Texts that do not come back. */
module LostTexts {
  import opened Decimal
  import opened Replace
  import opened Desensitize
  import opened Restoring

  /** A rule that takes the whole text, as a stand-in for a phone number. */
  function WholeText(category: string): Rule {
    Rule(category, (s: string) => [s])
  }

  lemma MaskWhole(text: string, category: string)
    requires text != "" && NoBracket(text)
    ensures Mask(text, [WholeText(category)])
         == Pass(Marker(category, 1), map[Marker(category, 1) := text], map[category := 1])
  {
    var p := Pass(text, map[], map[]);
    var rules := [WholeText(category)];
    var q := p.Mint(category, text);
    assert rules[0].find(text) == [text];
    assert text[|text|..] == "" && ReplaceAll("", text, Marker(category, 1)) == "";
    assert ReplaceAll(text, text, Marker(category, 1)) == Marker(category, 1) + "";
    assert ApplyMatches(p, map[], category, [text]) == q by {
      assert ApplyMatches(q, map[text := Marker(category, 1)], category, []) == q;
    }
    assert rules[1..] == [];
    assert ApplyRules(p, rules) == ApplyRules(q, []) == q;
  }

  // ---------- Clashes ----------

  /** A marker alone is restored as whatever it stands for in the table, in every order. */
  lemma LoneMarkerRestored(m: string, items: map<string, string>, order: seq<string>)
    requires Formed(items) && m in items && Traverses(order, items)
    ensures RestoreInOrder(m, items, order) == items[m]
  {
    var ts := [Mark(m)];
    assert ts[1..] == [] && Render([]) == "" && Expand([], items) == "";
    assert Render(ts) == m + "" == m;
    assert Expand(ts, items) == items[m] + "";
    forall k | k in order ensures !Contains(items[m], k) {
      forall i ensures !OccursAt(items[m], k, i) {
        if 0 <= i && i + |k| <= |items[m]| {
          assert items[m][i..i + |k|][0] == items[m][i];
        }
      }
    }
    RestoreAllFresh(ts, items, order);
  }

  /** The last string of the body that minted a marker decides what it stands for. */
  predicate MintedLast(texts: seq<string>, rules: seq<Rule>, j: nat, m: string) {
    && j < |texts| && m in Mask(texts[j], rules).items
    && forall k | j < k < |texts| :: m !in Mask(texts[k], rules).items
  }

  lemma {:induction false} LastOneWins(texts: seq<string>, rules: seq<Rule>, j: nat, m: string)
    requires MintedLast(texts, rules, j, m)
    ensures m in BodyItems(texts, rules) && BodyItems(texts, rules)[m] == Mask(texts[j], rules).items[m]
  {
    var n := |texts| - 1;
    if j < n {
      LastOneWins(texts[..n], rules, j, m);
    }
  }

  /** A string masked whole comes back as what the last string with its marker had there: so it is lost exactly when
      that is another text. */
  lemma ClashLosesExactly(texts: seq<string>, rules: seq<Rule>, order: seq<string>, i: nat, j: nat, m: string)
    requires Categorised(rules) && i < |texts| && Mask(texts[i], rules).text == m && MintedLast(texts, rules, j, m)
    requires Traverses(order, BodyItems(texts, rules))
    ensures var restored := RestoreInOrder(Mask(texts[i], rules).text, BodyItems(texts, rules), order);
            restored == texts[i] <==> Mask(texts[j], rules).items[m] == texts[i]
  {
    LastOneWins(texts, rules, j, m);
    BodyIsMinted(texts, rules);
    LoneMarkerRestored(m, BodyItems(texts, rules), order);
  }

  /** No marker has two originals in the tables of the strings, each masked for itself. */
  ghost predicate TablesAgree(texts: seq<string>, rules: seq<Rule>) {
    forall i, j, k | 0 <= i < |texts| && 0 <= j < |texts|
                     && k in Mask(texts[i], rules).items && k in Mask(texts[j], rules).items ::
      Mask(texts[i], rules).items[k] == Mask(texts[j], rules).items[k]
  }

  lemma {:induction false} FromSomeTable(texts: seq<string>, rules: seq<Rule>, k: string)
    ensures k in BodyItems(texts, rules) ==> exists j | 0 <= j < |texts| ::
              k in Mask(texts[j], rules).items && BodyItems(texts, rules)[k] == Mask(texts[j], rules).items[k]
    ensures (exists j | 0 <= j < |texts| :: k in Mask(texts[j], rules).items) ==> k in BodyItems(texts, rules)
  {
    if texts != [] {
      var n := |texts| - 1;
      FromSomeTable(texts[..n], rules, k);
      if k in Mask(texts[n], rules).items {
        assert BodyItems(texts, rules)[k] == Mask(texts[n], rules).items[k];
      } else if k in BodyItems(texts[..n], rules) {
        var j :| 0 <= j < n && k in Mask(texts[..n][j], rules).items
                 && BodyItems(texts[..n], rules)[k] == Mask(texts[..n][j], rules).items[k];
        assert texts[..n][j] == texts[j];
      } else {
        assert forall j | 0 <= j < n :: texts[..n][j] == texts[j];
      }
    }
  }

  lemma NoClashExactly(texts: seq<string>, rules: seq<Rule>)
    ensures NoClash(texts, rules) <==> TablesAgree(texts, rules)
  {
    if TablesAgree(texts, rules) {
      forall i, k | 0 <= i < |texts| && k in Mask(texts[i], rules).items
        ensures k in BodyItems(texts, rules) && BodyItems(texts, rules)[k] == Mask(texts[i], rules).items[k]
      {
        FromSomeTable(texts, rules, k);
      }
    }
  }

  /** The clash is real: two strings with different numbers share a marker, and the first is restored as the second. */
  lemma ClashLosesTheFirst(a: string, b: string, category: string)
    requires a != b && a != "" && b != "" && NoBracket(a) && NoBracket(b)
    ensures var rules, texts := [WholeText(category)], [a, b];
            && BodyItems(texts, rules) == map[Marker(category, 1) := b]
            && RestoreInOrder(Mask(a, rules).text, BodyItems(texts, rules), [Marker(category, 1)]) == b
  {
    var rules, texts, m := [WholeText(category)], [a, b], Marker(category, 1);
    MaskWhole(a, category);
    MaskWhole(b, category);
    assert texts[..1] == [a] && [a][..0] == [];
    assert BodyItems([a], rules) == map[m := a];
    assert m[|m|..] == "" && ReplaceAll("", m, b) == "";
    assert GoReplaceAll(m, m, b) == b + "";
  }

  // ---------- Markers inside markers ----------

  /** A rule that finds the one word `w` in every text. */
  function Word(category: string, w: string): Rule {
    Rule(category, (s: string) => [w])
  }

  lemma OneMatch(p: Pass, category: string, m: string, more: seq<Rule>)
    requires NoBracket(m)
    ensures ApplyRules(p, [Word(category, m)] + more) == ApplyRules(p.Mint(category, m), more)
  {
    var rules := [Word(category, m)] + more;
    assert rules[0].find(p.text) == [m] && rules[1..] == more && [m][1..] == [];
    assert ApplyMatches(p, map[], category, [m]) == AfterMatch(p, map[], category, m);
  }

  lemma FirstMarker(category: string)
    requires NoBracket(category)
    ensures Marker(category, 1) == Inside(category) && IsMarker(Marker(category, 1))
  {
    assert Itoa(1) == "1";
    MarkerShape(category, 1);
  }

  function Inside(s: string): string {
    "[" + s + "_1]"
  }

  lemma CategoryIsFound(category: string, to: string)
    requires category != "" && category[0] !in "[_1]"
    ensures ReplaceAll(Inside(category), category, to) == Inside(to)
  {
    ReplaceOnce("[", category, "_1]", to);
  }

  lemma InnerIsFound(m: string, to: string)
    requires IsMarker(m)
    ensures ReplaceAll(Inside(m), m, to) == Inside(to)
  {
    var s := Inside(m);
    assert s[1..] == m + "_1]" && s[1] == '[';
    assert m[1] != '[' by {
      assert |m| > 2 ==> m[1] == m[1..|m| - 1][0];
    }
    ReplaceFront(m, "_1]", to);
    ReplaceAbsent("_1]", m, to);
    Assoc("[", to, "_1]");
  }

  lemma OuterIsHidden(outer: string, inner: string, to: string)
    requires IsMarker(outer) && IsMarker(inner) && outer != inner
    ensures ReplaceAll(Inside(inner), outer, to) == Inside(inner)
  {
    var s := Inside(inner);
    assert s[1..] == inner + "_1]" && s[1] == '[';
    assert outer[1] != '[' by {
      assert |outer| > 2 ==> outer[1] == outer[1..|outer| - 1][0];
    }
    ScanMarker(outer, inner, "_1]", to);
    ReplaceAbsent("_1]", outer, to);
    Assoc("[", inner, "_1]");
  }

  lemma WholeIsReplaced(s: string, to: string)
    requires s != ""
    ensures ReplaceAll(s, s, to) == to
  {
    assert s[|s|..] == "" && ReplaceAll("", s, to) == "";
    assert to + "" == to;
  }

  lemma TwoRestores(text: string, items: map<string, string>, a: string, b: string)
    requires a in items && b in items
    ensures RestoreInOrder(text, items, [a, b]) == GoReplaceAll(GoReplaceAll(text, a, items[a]), b, items[b])
  {
    var next := GoReplaceAll(text, a, items[a]);
    assert [a, b][1..] == [b] && [b][1..] == [];
    assert RestoreInOrder(next, items, [b]) == GoReplaceAll(next, b, items[b]);
  }

  lemma HoldsItself(s: string)
    ensures Contains(s, s)
  {
    assert OccursAt(s, s, 0);
  }

  lemma OneRestore(text: string, items: map<string, string>, k: string)
    requires k in items
    ensures RestoreInOrder(text, items, [k]) == GoReplaceAll(text, k, items[k])
  {
    assert [k][1..] == [];
  }

  /** A masking run that breaks a marker: the word of the second rule is the category of the first, as an exact rule for
      the word `PHONE` finds it in `[PHONE_1]`. Restoring the inner marker first brings the text back, restoring the
      outer one first leaves it in its place. */
  lemma NestedMarkerIsLost(original: string, c: string, d: string)
    requires original != "" && NoBracket(original) && c != "" && c[0] !in "[_1]"
    requires NoBracket(c) && NoBracket(d) && c != d
    ensures var m, outer, inner := Mask(original, [Word(c, original), Word(d, c)]), Marker(c, 1), Marker(d, 1);
            && m.text == Inside(inner) && m.items == map[outer := original, inner := c]
            && RestoreInOrder(m.text, m.items, [inner, outer]) == original
            && RestoreInOrder(m.text, m.items, [outer, inner]) == outer != original
  {
    var m, outer, inner := Mask(original, [Word(c, original), Word(d, c)]), Marker(c, 1), Marker(d, 1);
    TwoWords(original, c, d);
    FirstMarker(c);
    FirstMarker(d);
    DifferentMarkers(c, d);
    InnerIsFound(inner, c);
    OuterIsHidden(outer, inner, original);
    WholeIsReplaced(outer, original);
    TwoRestores(m.text, m.items, inner, outer);
    TwoRestores(m.text, m.items, outer, inner);
  }

  lemma DifferentMarkers(c: string, d: string)
    ensures c != d ==> Marker(c, 1) != Marker(d, 1)
  {
    if Marker(c, 1) == Marker(d, 1) {
      MarkerInjective(c, 1, d, 1);
    }
  }

  lemma TwoWords(original: string, c: string, d: string)
    requires original != "" && NoBracket(original) && c != "" && c[0] !in "[_1]"
    requires NoBracket(c) && NoBracket(d) && c != d
    ensures var m, outer, inner := Mask(original, [Word(c, original), Word(d, c)]), Marker(c, 1), Marker(d, 1);
            m.text == Inside(inner) && m.items == map[outer := original, inner := c]
  {
    var p, more := Pass(original, map[], map[]), [Word(d, c)];
    var q := p.Mint(c, original);
    assert [Word(c, original)] + (more + []) == [Word(c, original), Word(d, c)];
    OneMatch(p, c, original, more + []);
    OneMatch(q, d, c, []);
    WholeIsReplaced(original, Marker(c, 1));
    FirstMarker(c);
    CategoryIsFound(c, Marker(d, 1));
    DifferentMarkers(c, d);
  }

  /** With an original inside its own marker, a text that spells the marker may come back all the same. */
  lemma SpelledYetRestored(c: string)
    requires NoBracket(c) && c != "" && c[0] !in "[_1]"
    ensures var m, marker := Mask(Marker(c, 1), [Word(c, c)]), Marker(c, 1);
            && m.items == map[marker := c] && m.text == Inside(marker) && Contains(marker, marker)
            && RestoreInOrder(m.text, m.items, [marker]) == marker
  {
    var marker := Marker(c, 1);
    assert [Word(c, c)] == [Word(c, c)] + [];
    FirstMarker(c);
    OneMatch(Pass(marker, map[], map[]), c, c, []);
    CategoryIsFound(c, marker);
    InnerIsFound(marker, c);
    OneRestore(Inside(marker), map[marker := c], marker);
    HoldsItself(marker);
  }
}

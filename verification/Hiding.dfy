/** What was found in a text is not in the masked text. */
module Hiding {
  import opened Decimal
  import opened Replace
  import opened Desensitize
  import opened Restoring
  import BracketFree
  import BuiltinRules

  // ---------- Occurrences across a bracket ----------

  /** A part of a text holds nothing that the text does not hold. */
  lemma PartIsFree(whole: string, a: string, b: string, d: string, m: string)
    requires whole == a + b + d && !Contains(whole, m)
    ensures !Contains(b, m)
  {
    forall i ensures !OccursAt(b, m, i) {
      assert !OccursAt(whole, m, |a| + i);
      if 0 <= i && i + |m| <= |b| {
        assert whole[|a| + i..|a| + i + |m|] == b[i..i + |m|];
      }
    }
  }

  /** A text that does not hold the character `c` occurs on one side of it or not at all. */
  lemma NotAcross(a: string, c: char, b: string, m: string)
    requires c !in m && Contains(a + [c] + b, m)
    ensures Contains(a, m) || Contains(b, m)
  {
    var s := a + [c] + b;
    var i :| OccursAt(s, m, i);
    if i + |m| <= |a| {
      assert a[i..i + |m|] == s[i..i + |m|];
      assert OccursAt(a, m, i);
    } else if |a| < i {
      assert b[i - |a| - 1..i - |a| - 1 + |m|] == s[i..i + |m|];
      assert OccursAt(b, m, i - |a| - 1);
    } else {
      Inside(s, m, i, |a|);
    }
  }

  lemma Inside(s: string, m: string, i: int, k: int)
    requires OccursAt(s, m, i) && i <= k < i + |m|
    ensures s[k] in m
  {
    assert m[k - i] == s[i..i + |m|][k - i] == s[k];
  }

  /** A marker between two texts brings no occurrence but its own. */
  lemma AroundMarker(a: string, marker: string, b: string, m: string)
    requires IsMarker(marker) && NoBracket(m) && !Contains(a, m) && !Contains(marker, m) && !Contains(b, m)
    ensures !Contains(a + marker + b, m)
  {
    var inner := marker[1..|marker| - 1];
    assert marker == "[" + inner + "]";
    assert a + marker + b == a + ['['] + (inner + [']'] + b);
    PartIsFree(marker, "[", inner, "]", m);
    if Contains(a + marker + b, m) {
      NotAcross(a, '[', inner + [']'] + b, m);
      NotAcross(inner, ']', b, m);
    }
  }

  // ---------- One replacement ----------

  lemma {:induction false} JoinHides(pieces: seq<string>, marker: string, m: string)
    requires |pieces| > 0 && IsMarker(marker) && NoBracket(m) && !Contains(marker, m)
    requires forall p | p in pieces :: !Contains(p, m)
    ensures !Contains(Join(pieces, marker), m)
  {
    if |pieces| > 1 {
      assert pieces[0] in pieces && forall p | p in pieces[1..] :: p in pieces;
      JoinHides(pieces[1..], marker, m);
      AroundMarker(pieces[0], marker, Join(pieces[1..], marker), m);
    } else {
      assert pieces[0] in pieces;
    }
  }

  lemma {:induction false} PiecesInText(s: string, sep: string, m: string)
    requires |sep| > 0 && !Contains(s, m) && m != ""
    ensures forall p | p in Split(s, sep) :: !Contains(p, m)
  {
    if s == "" {
    } else if sep <= s {
      assert s == sep + s[|sep|..] + "";
      PartIsFree(s, sep, s[|sep|..], "", m);
      PiecesInText(s[|sep|..], sep, m);
    } else {
      TailIsFree(s, m);
      PiecesInText(s[1..], sep, m);
      FirstPiece(s, sep, m);
    }
  }

  lemma TailIsFree(s: string, m: string)
    requires s != "" && !Contains(s, m)
    ensures !Contains(s[1..], m) && !Contains([s[0]], m)
  {
    assert s == [s[0]] + s[1..] + "" && s == "" + [s[0]] + s[1..];
    PartIsFree(s, [s[0]], s[1..], "", m);
    PartIsFree(s, "", [s[0]], s[1..], m);
  }

  lemma FirstPiece(s: string, sep: string, m: string)
    requires |sep| > 0 && s != "" && !(sep <= s) && !Contains(s, m)
    requires forall p | p in Split(s[1..], sep) :: !Contains(p, m)
    ensures forall p | p in Split(s, sep) :: !Contains(p, m)
  {
    var rest := Split(s[1..], sep);
    var first := [s[0]] + rest[0];
    PiecesAreFree(s[1..], sep);
    FrontIsFree(s, rest[0], m);
    assert Split(s, sep) == [first] + rest[1..];
    forall p | p in Split(s, sep) ensures !Contains(p, m) {
      assert p == first || p in rest[1..];
    }
  }

  lemma FrontIsFree(s: string, piece: string, m: string)
    requires s != "" && piece <= s[1..] && !Contains(s, m)
    ensures !Contains([s[0]] + piece, m)
  {
    var first := [s[0]] + piece;
    assert s == "" + first + s[|first|..];
    PartIsFree(s, "", first, s[|first|..], m);
  }

  lemma {:induction false} InterleaveHides(s: string, marker: string, m: string)
    requires IsMarker(marker) && NoBracket(m) && m != "" && !Contains(marker, m) && !Contains(s, m)
    ensures !Contains(Interleave(s, marker), m)
  {
    if s != "" {
      TailIsFree(s, m);
      InterleaveHides(s[1..], marker, m);
      var rest := Interleave(s[1..], marker);
      StartsWithMarker(s[1..], marker);
      var more := rest[|marker|..];
      assert rest == marker + more + "";
      PartIsFree(rest, marker, more, "", m);
      NothingIsFree(m);
      assert marker + [s[0]] == "" + marker + [s[0]];
      AroundMarker("", marker, [s[0]], m);
      AroundMarker(marker + [s[0]], marker, more, m);
      assert Interleave(s, marker) == (marker + [s[0]]) + marker + more;
    }
  }

  lemma NothingIsFree(m: string)
    requires m != ""
    ensures !Contains("", m)
  {
  }

  lemma StartsWithMarker(s: string, marker: string)
    ensures marker <= Interleave(s, marker)
  {
  }

  /** What a text does not hold does not come into it when a marker that does not hold it is put. */
  lemma StaysHidden(s: string, from: string, marker: string, m: string)
    requires IsMarker(marker) && NoBracket(m) && m != "" && !Contains(marker, m) && !Contains(s, m)
    ensures !Contains(GoReplaceAll(s, from, marker), m)
  {
    if from == "" {
      InterleaveHides(s, marker, m);
    } else {
      PiecesInText(s, from, m);
      ReplaceIsSplitJoin(s, from, marker);
      JoinHides(Split(s, from), marker, m);
    }
  }

  /** What is replaced by a marker that does not hold it is gone. */
  lemma BecomesHidden(s: string, marker: string, m: string)
    requires IsMarker(marker) && NoBracket(m) && m != "" && !Contains(marker, m)
    ensures !Contains(GoReplaceAll(s, m, marker), m)
  {
    ReplaceIsSplitJoin(s, m, marker);
    JoinHides(Split(s, m), marker, m);
  }

  // ---------- The pass over one text ----------

  /** No original of the table is left in the text. */
  ghost predicate Hidden(text: string, items: map<string, string>) {
    forall k | k in items && items[k] != "" :: !Contains(text, items[k])
  }

  lemma MatchHides(p: Pass, seen: map<string, string>, category: string, m: string, final: map<string, string>)
    requires Ledger(p) && NoBracket(category) && Remembers(seen, p.items) && Hidden(p.text, p.items)
    requires Extends(AfterMatch(p, seen, category, m).items, final) && Separate(final)
    ensures Hidden(AfterMatch(p, seen, category, m).text, AfterMatch(p, seen, category, m).items)
  {
    var q := AfterMatch(p, seen, category, m);
    MatchExtends(p, seen, category, m);
    if NoBracket(m) {
      var marker := SeenAfter(p, seen, category, m)[m];
      assert q.text == GoReplaceAll(p.text, m, marker) && marker in q.items && q.items[marker] == m;
      forall k | k in q.items && q.items[k] != "" ensures !Contains(q.text, q.items[k]) {
        assert k in final && marker in final && !Contains(marker, final[k]);
        if q.items[k] == m {
          BecomesHidden(p.text, marker, m);
        } else {
          assert k in p.items;
          StaysHidden(p.text, m, marker, q.items[k]);
        }
      }
    }
  }

  lemma {:induction false} MatchesHide(p: Pass, seen: map<string, string>, category: string, matches: seq<string>,
                                       final: map<string, string>)
    requires Ledger(p) && NoBracket(category) && Remembers(seen, p.items) && Hidden(p.text, p.items)
    requires Extends(ApplyMatches(p, seen, category, matches).items, final) && Separate(final)
    ensures var q := ApplyMatches(p, seen, category, matches); Hidden(q.text, q.items)
    ensures forall m | m in matches && NoBracket(m) :: m in ApplyMatches(p, seen, category, matches).items.Values
                                                       || m in seen
    decreases |matches|
  {
    if matches != [] {
      var m := matches[0];
      var q, seen' := AfterMatch(p, seen, category, m), SeenAfter(p, seen, category, m);
      MatchExtends(p, seen, category, m);
      MatchesExtend(q, seen', category, matches[1..]);
      MatchHides(p, seen, category, m, final);
      MatchesHide(q, seen', category, matches[1..], final);
      var r := ApplyMatches(p, seen, category, matches);
      forall x | x in matches && NoBracket(x) ensures x in r.items.Values || x in seen {
        if x == m && x !in seen {
          assert r.items[seen'[m]] == m;
        } else if x != m {
          assert x in matches[1..];
        }
      }
    }
  }

  /** A rule finds the text `m`, in what the rules before it left. */
  ghost predicate IsFound(p: Pass, rules: seq<Rule>, m: string)
    decreases |rules|
  {
    rules != [] && (
      || m in rules[0].find(p.text)
      || IsFound(ApplyMatches(p, map[], rules[0].category, rules[0].find(p.text)), rules[1..], m))
  }

  lemma {:induction false} RulesHide(p: Pass, rules: seq<Rule>, final: map<string, string>)
    requires Ledger(p) && Categorised(rules) && Hidden(p.text, p.items)
    requires Extends(ApplyRules(p, rules).items, final) && Separate(final)
    ensures var q := ApplyRules(p, rules); Hidden(q.text, q.items)
    ensures forall m | IsFound(p, rules, m) && NoBracket(m) :: m in ApplyRules(p, rules).items.Values
    decreases |rules|
  {
    if rules != [] {
      var matches := rules[0].find(p.text);
      var q := ApplyMatches(p, map[], rules[0].category, matches);
      MatchesExtend(p, map[], rules[0].category, matches);
      RulesExtend(q, rules[1..]);
      MatchesHide(p, map[], rules[0].category, matches, final);
      RulesHide(q, rules[1..], final);
      var r := ApplyRules(p, rules);
      forall m | IsFound(p, rules, m) && NoBracket(m) ensures m in r.items.Values {
        if m in matches {
          var k :| k in q.items && q.items[k] == m;
          assert r.items[k] == m;
        }
      }
    }
  }

  /** If no original lies inside a marker, nothing that a rule found is left in the masked text. */
  lemma NothingFoundIsLeft(text: string, rules: seq<Rule>, m: string)
    requires Categorised(rules) && Separate(Mask(text, rules).items)
    requires IsFound(Pass(text, map[], map[]), rules, m) && NoBracket(m) && m != ""
    ensures !Contains(Mask(text, rules).text, m)
  {
    RulesHide(Pass(text, map[], map[]), rules, Mask(text, rules).items);
  }

  /** Nothing that the built-in rules, or other distinctive ones, find is left. */
  lemma DistinctiveHides(text: string, rules: seq<Rule>, k: nat, m: string)
    requires k >= 1 && Categorised(rules) && BuiltinRules.AllDistinctive(rules, k)
    requires BracketFree.Found(Pass(text, map[], map[]), rules) < Pow10(k)
    requires IsFound(Pass(text, map[], map[]), rules, m) && NoBracket(m) && m != ""
    ensures !Contains(Mask(text, rules).text, m)
  {
    BuiltinRules.DistinctiveIsHarmless(rules, k);
    BracketFree.HarmlessSeparates(text, rules);
    NothingFoundIsLeft(text, rules, m);
  }
}

/** Restoring what was masked. */
module Restoring {
  import opened Replace
  import opened Desensitize
  import BracketFree
  import Nesting

  // ---------- Texts as tokens ----------

  /** A masked text seen as plain characters and whole markers. */
  datatype Token = Plain(c: char) | Mark(m: string)

  function Render(ts: seq<Token>): string {
    if ts == [] then "" else (match ts[0] case Plain(c) => [c] case Mark(m) => m) + Render(ts[1..])
  }

  predicate MarksIn(ts: seq<Token>, items: map<string, string>) {
    forall t | t in ts && t.Mark? :: t.m in items
  }

  /** The text with every marker expanded to what it stands for. */
  function Expand(ts: seq<Token>, items: map<string, string>): string
    requires MarksIn(ts, items)
  {
    if ts == [] then ""
    else (match ts[0] case Plain(c) => [c] case Mark(m) => items[m]) + Expand(ts[1..], items)
  }

  function Chars(s: string): seq<Token> {
    if s == "" then [] else [Plain(s[0])] + Chars(s[1..])
  }

  predicate Spells(ts: seq<Token>, w: string) {
    |w| <= |ts| && forall k | 0 <= k < |w| :: ts[k] == Plain(w[k])
  }

  /** Replacing plain occurrences of `w`, and the marker `w` itself, by `to`. */
  function Swap(ts: seq<Token>, w: string, to: seq<Token>): seq<Token>
    requires |w| > 0
  {
    if ts == [] then []
    else if Spells(ts, w) then to + Swap(ts[|w|..], w, to)
    else if ts[0] == Mark(w) then to + Swap(ts[1..], w, to)
    else [ts[0]] + Swap(ts[1..], w, to)
  }

  /** A table in which no original lies inside a marker. */
  ghost predicate Sound(items: map<string, string>) {
    Formed(items) && Separate(items)
  }

  ghost predicate Separate(items: map<string, string>) {
    forall a, b | a in items && b in items :: !Contains(b, items[a])
  }

  lemma SpellsCons(ts: seq<Token>, w: string)
    requires ts != [] && ts[0].Plain? && w != ""
    ensures Spells(ts, w) <==> ts[0].c == w[0] && Spells(ts[1..], w[1..])
    ensures Spells(ts, w) ==> ts[|w|..] == ts[1..][|w[1..]|..]
  {
    if ts[0].c == w[0] && Spells(ts[1..], w[1..]) {
      forall k | 0 <= k < |w| ensures ts[k] == Plain(w[k]) {
        if k > 0 {
          assert ts[1..][k - 1] == Plain(w[1..][k - 1]);
        }
      }
    }
  }

  lemma {:induction false} PrefixSpells(ts: seq<Token>, w: string, items: map<string, string>)
    requires '[' !in w && MarksIn(ts, items) && forall k | k in items :: IsMarker(k)
    ensures w <= Render(ts) <==> Spells(ts, w)
    ensures Spells(ts, w) ==> Render(ts)[|w|..] == Render(ts[|w|..])
  {
    if w == "" {
    } else if ts != [] && ts[0].Plain? {
      PrefixSpells(ts[1..], w[1..], items);
      SpellsCons(ts, w);
      Nesting.PrefixCons(ts[0].c, Render(ts[1..]), w);
    } else if ts != [] {
      assert Render(ts)[0] == '[';
    }
  }

  lemma {:induction false} RenderAppend(s: seq<Token>, t: seq<Token>)
    ensures Render(s + t) == Render(s) + Render(t)
  {
    if s == [] {
      assert s + t == t;
    } else {
      assert (s + t)[1..] == s[1..] + t;
      RenderAppend(s[1..], t);
    }
  }

  lemma {:induction false} ExpandAppend(s: seq<Token>, t: seq<Token>, items: map<string, string>)
    requires MarksIn(s, items) && MarksIn(t, items)
    ensures MarksIn(s + t, items) && Expand(s + t, items) == Expand(s, items) + Expand(t, items)
  {
    if s == [] {
      assert s + t == t && "" + Expand(t, items) == Expand(t, items);
    } else {
      assert (s + t)[1..] == s[1..] + t && (s + t)[0] == s[0];
      ExpandAppend(s[1..], t, items);
      Assoc(Text(s[0], items), Expand(s[1..], items), Expand(t, items));
    }
  }

  lemma {:induction false} CharsRender(s: string, items: map<string, string>)
    ensures MarksIn(Chars(s), items) && Render(Chars(s)) == s && Expand(Chars(s), items) == s
    ensures |Chars(s)| == |s| && Spells(Chars(s), s)
  {
    if s != "" {
      CharsRender(s[1..], items);
    }
  }

  /** The scan for a marker finds nothing behind the first character of a marker and copies the rest of it. */
  lemma {:induction false} ScanPastMarker(x: string, j: nat, rest: string, w: string, to: string)
    requires IsMarker(x) && 0 < j <= |x| && w != "" && w[0] == '['
    ensures ReplaceAll(x[j..] + rest, w, to) == x[j..] + ReplaceAll(rest, w, to)
    decreases |x| - j
  {
    if j == |x| {
      assert x[j..] + rest == rest && "" + ReplaceAll(rest, w, to) == ReplaceAll(rest, w, to);
    } else {
      assert j < |x| - 1 ==> x[j] == x[1..|x| - 1][j - 1];
      ScanPastMarker(x, j + 1, rest, w, to);
      ReplaceStep(x[j], x[j + 1..] + rest, w, to);
      assert x[j..] == [x[j]] + x[j + 1..];
      Assoc([x[j]], x[j + 1..], rest);
      Assoc([x[j]], x[j + 1..], ReplaceAll(rest, w, to));
    }
  }

  /** Past another marker, or past the start of this one, the scan for `m` continues behind it. */
  lemma ScanMarker(m: string, x: string, rest: string, to: string)
    requires IsMarker(m) && IsMarker(x)
    ensures ReplaceAll(x + rest, m, to) == (if x == m then to else x) + ReplaceAll(rest, m, to)
  {
    var s := x + rest;
    MarkersInFront(m, x, rest);
    if x == m {
      assert s[|m|..] == rest;
    } else {
      assert s[1..] == x[1..] + rest;
      ScanPastMarker(x, 1, rest, m, to);
      assert x == [x[0]] + x[1..];
    }
  }

  /** Restoring acts on tokens: a marker is found where it was put, or where the plain text already spelled it. */
  lemma {:induction false} RestoreTokens(ts: seq<Token>, m: string, items: map<string, string>)
    requires MarksIn(ts, items) && Formed(items) && m in items
    ensures ReplaceAll(Render(ts), m, items[m]) == Render(Swap(ts, m, Chars(items[m])))
    decreases |ts|
  {
    if ts != [] {
      var to := Chars(items[m]);
      CharsRender(items[m], items);
      if ts[0].Mark? {
        ScanMarker(m, ts[0].m, Render(ts[1..]), items[m]);
        RestoreTokens(ts[1..], m, items);
        RenderAppend(to, Swap(ts[1..], m, to));
      } else {
        SpelledMarker(ts, m, items);
        if Spells(ts, m) {
          RestoreTokens(ts[|m|..], m, items);
          RenderAppend(to, Swap(ts[|m|..], m, to));
        } else {
          RestoreTokens(ts[1..], m, items);
          assert Render(ts)[1..] == Render(ts[1..]);
        }
      }
    }
  }

  lemma SpelledMarker(ts: seq<Token>, m: string, items: map<string, string>)
    requires MarksIn(ts, items) && (forall k | k in items :: IsMarker(k)) && IsMarker(m)
    requires ts != [] && ts[0].Plain?
    ensures m <= Render(ts) <==> Spells(ts, m)
    ensures Spells(ts, m) ==> Render(ts)[|m|..] == Render(ts[|m|..])
  {
    assert '[' !in m[1..] by {
      forall k | 0 <= k < |m[1..]| ensures m[1..][k] != '[' {
        if k < |m| - 2 {
          assert m[1..][k] == m[1..|m| - 1][k];
        }
      }
    }
    PrefixSpells(ts[1..], m[1..], items);
    SpellsCons(ts, m);
    Nesting.PrefixCons(ts[0].c, Render(ts[1..]), m);
  }

  lemma {:induction false} SpelledText(ts: seq<Token>, w: string, items: map<string, string>)
    requires MarksIn(ts, items) && Spells(ts, w)
    ensures Expand(ts, items) == w + Expand(ts[|w|..], items)
    decreases |w|
  {
    if w != "" {
      SpellsCons(ts, w);
      SpelledText(ts[1..], w[1..], items);
      assert w == [w[0]] + w[1..];
    }
  }

  function Opens(s: string): nat {
    if s == "" then 0 else (if s[0] == '[' then 1 else 0) + Opens(s[1..])
  }

  lemma {:induction false} OpensAppend(s: string, t: string)
    ensures Opens(s + t) == Opens(s) + Opens(t)
  {
    if s == "" {
      assert s + t == t;
    } else {
      assert (s + t)[1..] == s[1..] + t;
      OpensAppend(s[1..], t);
    }
  }

  lemma {:induction false} OpensZero(s: string)
    requires '[' !in s
    ensures Opens(s) == 0
  {
    if s != "" {
      OpensZero(s[1..]);
    }
  }

  /** The tail of a marker cannot start with an original: originals lie in no marker and hold no closing bracket. */
  lemma TailIsNoOriginal(m: string, j: nat, o: string, rest: string)
    requires IsMarker(m) && 0 < j < |m| && NoBracket(o) && !Contains(m, o)
    ensures !(m[j..] <= o + rest)
  {
    var w, e := m[j..], o + rest;
    assert !OccursAt(m, o, j);
    if |o| < |w| {
      assert m[j..j + |o|] == w[..|o|];
      assert e[..|o|] == o;
      if w <= e {
        assert false;
      }
    } else {
      assert w[|w| - 1] == ']' && e[|w| - 1] == o[|w| - 1];
    }
  }

  /** The tail of a marker can only be read off plain tokens. */
  lemma {:induction false} TailIsPlain(ts: seq<Token>, m: string, j: nat, items: map<string, string>)
    requires MarksIn(ts, items) && Sound(items) && m in items
    requires 0 < j <= |m| && m[j..] <= Expand(ts, items)
    ensures Spells(ts, m[j..])
    decreases |m| - j
  {
    if j < |m| {
      var e := Expand(ts, items);
      if ts[0].Mark? {
        TailIsNoOriginal(m, j, items[ts[0].m], Expand(ts[1..], items));
        assert false;
      } else {
        assert m[j + 1..] == m[j..][1..] <= e[1..];
        TailIsPlain(ts[1..], m, j + 1, items);
        assert forall k | 0 < k < |m| - j :: ts[k] == ts[1..][k - 1] && m[j..][k] == m[j + 1..][k - 1];
      }
    }
  }

  function Text(t: Token, items: map<string, string>): string
    requires t.Mark? ==> t.m in items
  {
    match t case Plain(c) => [c] case Mark(m) => items[m]
  }

  lemma ContainsBehind(a: string, b: string, w: string)
    ensures Contains(b, w) ==> Contains(a + b, w)
  {
    forall i | OccursAt(b, w, i) ensures OccursAt(a + b, w, |a| + i) {
      assert (a + b)[|a| + i..|a| + i + |w|] == b[i..i + |w|];
    }
  }

  lemma OccursInTail(a: string, b: string, w: string, i: int)
    requires OccursAt(a + b, w, i) && |a| <= i
    ensures Contains(b, w)
  {
    assert b[i - |a|..i - |a| + |w|] == (a + b)[i..i + |w|];
    assert OccursAt(b, w, i - |a|);
  }

  /** A marker at the front of the expanded text is spelled by plain tokens. */
  lemma HeadIsSpelled(ts: seq<Token>, m: string, items: map<string, string>)
    requires MarksIn(ts, items) && Sound(items) && m in items
    requires ts != [] && ts[0] == Plain('[') && m <= Expand(ts, items)
    ensures Spells(ts, m)
  {
    var e, tail := Expand(ts, items), Expand(ts[1..], items);
    assert tail == e[1..];
    assert m[1..] == e[..|m|][1..] == tail[..|m| - 1];
    TailIsPlain(ts[1..], m, 1, items);
    assert forall k | 0 < k < |m| :: ts[k] == ts[1..][k - 1] && m[k] == m[1..][k - 1];
  }

  /** An occurrence of a marker in the expanded text starts at a plain token that spells it, or later. */
  lemma OccurrenceIsSpelled(ts: seq<Token>, m: string, i: int, items: map<string, string>)
    requires MarksIn(ts, items) && Sound(items) && m in items && ts != []
    requires OccursAt(Expand(ts, items), m, i)
    ensures Spells(ts, m) || Contains(Expand(ts[1..], items), m)
  {
    var head := Text(ts[0], items);
    if |head| <= i {
      OccursInTail(head, Expand(ts[1..], items), m, i);
    } else {
      BracketIsPlain(ts[0], items, i, Expand(ts, items)[i]);
      HeadIsSpelled(ts, m, items);
    }
  }

  lemma BracketIsPlain(t: Token, items: map<string, string>, i: nat, c: char)
    requires (t.Mark? ==> t.m in items) && Sound(items) && i < |Text(t, items)| && Text(t, items)[i] == c
    ensures c == '[' ==> i == 0 && t == Plain('[')
  {
  }

  lemma SpelledOccurs(ts: seq<Token>, m: string, items: map<string, string>)
    requires MarksIn(ts, items) && ts != []
    ensures Spells(ts, m) || Contains(Expand(ts[1..], items), m) ==> Contains(Expand(ts, items), m)
  {
    if Spells(ts, m) {
      SpelledText(ts, m, items);
      assert OccursAt(Expand(ts, items), m, 0);
    }
    ContainsBehind(Text(ts[0], items), Expand(ts[1..], items), m);
  }

  lemma OccursSomewhere(ts: seq<Token>, m: string, items: map<string, string>)
    requires MarksIn(ts, items) && Sound(items) && m in items && ts != []
    ensures Contains(Expand(ts, items), m) <==> Spells(ts, m) || Contains(Expand(ts[1..], items), m)
  {
    SpelledOccurs(ts, m, items);
    if Contains(Expand(ts, items), m) {
      var i :| OccursAt(Expand(ts, items), m, i);
      OccurrenceIsSpelled(ts, m, i, items);
    }
  }

  lemma {:induction false} RestoreMarks(ts: seq<Token>, m: string, o: string)
    ensures m != "" ==> forall t | t in Swap(ts, m, Chars(o)) && t.Mark? :: t in ts && t.m != m
    decreases |ts|
  {
    CharsPlain(o);
    if ts != [] && m != "" {
      RestoreMarks(if Spells(ts, m) then ts[|m|..] else ts[1..], m, o);
    }
  }

  lemma CharsPlain(s: string)
    ensures forall t | t in Chars(s) :: t.Plain?
  {
  }

  /** Restoring a marker that the meaning does not spell keeps the meaning. */
  lemma {:induction false} RestoreFresh(ts: seq<Token>, m: string, items: map<string, string>)
    requires MarksIn(ts, items) && Formed(items) && m in items && !Contains(Expand(ts, items), m)
    requires MarksIn(Swap(ts, m, Chars(items[m])), items)
    ensures Expand(Swap(ts, m, Chars(items[m])), items) == Expand(ts, items)
    decreases |ts|
  {
    if ts != [] {
      SpelledOccurs(ts, m, items);
      RestoreMarks(ts[1..], m, items[m]);
      RestoreFresh(ts[1..], m, items);
      CharsRender(items[m], items);
      ExpandAppend(if ts[0] == Mark(m) then Chars(items[m]) else [ts[0]], Swap(ts[1..], m, Chars(items[m])), items);
    }
  }

  /** Opening brackets in what the tokens mean. */
  function Tally(ts: seq<Token>, items: map<string, string>): nat
    requires MarksIn(ts, items)
  {
    Opens(Expand(ts, items))
  }

  lemma TallyAppend(s: seq<Token>, t: seq<Token>, items: map<string, string>)
    requires MarksIn(s, items) && MarksIn(t, items)
    ensures MarksIn(s + t, items) && Tally(s + t, items) == Tally(s, items) + Tally(t, items)
  {
    ExpandAppend(s, t, items);
    OpensAppend(Expand(s, items), Expand(t, items));
  }

  lemma TallyCut(ts: seq<Token>, n: nat, items: map<string, string>)
    requires MarksIn(ts, items) && n <= |ts|
    ensures Tally(ts, items) == Tally(ts[..n], items) + Tally(ts[n..], items)
  {
    assert ts == ts[..n] + ts[n..];
    TallyAppend(ts[..n], ts[n..], items);
  }

  /** Restoring a marker never adds an opening bracket, and loses one where the meaning spelled the marker. */
  lemma {:induction false} RestoreStale(ts: seq<Token>, m: string, items: map<string, string>)
    requires MarksIn(ts, items) && Sound(items) && m in items
    requires MarksIn(Swap(ts, m, Chars(items[m])), items)
    ensures var n := Tally(Swap(ts, m, Chars(items[m])), items);
            if Contains(Expand(ts, items), m) then n < Tally(ts, items) else n <= Tally(ts, items)
    decreases |ts|, 0
  {
    if ts != [] {
      var c := Chars(items[m]);
      CharsRender(items[m], items);
      OpensZero(items[m]);
      OccursSomewhere(ts, m, items);
      if Spells(ts, m) {
        RestoreStaleAt(ts, m, |m|, c, items);
        SpelledText(ts[..|m|], m, items);
      } else {
        RestoreStaleAt(ts, m, 1, if ts[0] == Mark(m) then c else [ts[0]], items);
        assert ts[..1] == [ts[0]];
      }
    }
  }

  lemma RestoreStaleAt(ts: seq<Token>, m: string, n: nat, front: seq<Token>, items: map<string, string>)
    requires MarksIn(ts, items) && Sound(items) && m in items && 0 < n <= |ts| && MarksIn(front, items)
    ensures MarksIn(Swap(ts[n..], m, Chars(items[m])), items)
    ensures var to := Swap(ts[n..], m, Chars(items[m]));
            && Tally(ts, items) == Tally(ts[..n], items) + Tally(ts[n..], items)
            && Tally(front + to, items) == Tally(front, items) + Tally(to, items)
            && Tally(to, items) <= Tally(ts[n..], items)
            && (Contains(Expand(ts[n..], items), m) ==> Tally(to, items) < Tally(ts[n..], items))
    decreases |ts| - n, 1
  {
    TallyCut(ts, n, items);
    RestoreMarks(ts[n..], m, items[m]);
    RestoreStale(ts[n..], m, items);
    TallyAppend(front, Swap(ts[n..], m, Chars(items[m])), items);
  }

  lemma {:induction false} ExpandExtends(ts: seq<Token>, small: map<string, string>, large: map<string, string>)
    requires MarksIn(ts, small) && Extends(small, large)
    ensures MarksIn(ts, large) && Expand(ts, large) == Expand(ts, small)
  {
    if ts != [] {
      ExpandExtends(ts[1..], small, large);
    }
  }

  lemma {:induction false} NoMarksLeft(ts: seq<Token>, items: map<string, string>)
    requires MarksIn(ts, items) && forall t | t in ts :: t.Plain?
    ensures Render(ts) == Expand(ts, items)
  {
    if ts != [] {
      NoMarksLeft(ts[1..], items);
    }
  }

  /** Restoring in any order gives back a meaning that spells none of the markers. */
  lemma {:induction false} RestoreAllFresh(ts: seq<Token>, items: map<string, string>, order: seq<string>)
    requires MarksIn(ts, items) && Formed(items) && forall k | k in order :: k in items
    requires forall t | t in ts && t.Mark? :: t.m in order
    requires forall k | k in order :: !Contains(Expand(ts, items), k)
    ensures RestoreInOrder(Render(ts), items, order) == Expand(ts, items)
    decreases |order|
  {
    if order == [] {
      NoMarksLeft(ts, items);
    } else {
      var m := order[0];
      assert order == [m] + order[1..];
      RestoreMarks(ts, m, items[m]);
      RestoreTokens(ts, m, items);
      RestoreFresh(ts, m, items);
      RestoreAllFresh(Swap(ts, m, Chars(items[m])), items, order[1..]);
    }
  }

  /** With no original inside a marker, a meaning that spells a marker loses brackets in every order. */
  lemma {:induction false} RestoreRun(ts: seq<Token>, items: map<string, string>, order: seq<string>)
    requires MarksIn(ts, items) && Sound(items) && forall k | k in order :: k in items
    requires forall t | t in ts && t.Mark? :: t.m in order
    ensures var restored, meaning := RestoreInOrder(Render(ts), items, order), Expand(ts, items);
            if exists k | k in order :: Contains(meaning, k)
            then Opens(restored) < Opens(meaning) else restored == meaning
    decreases |order|
  {
    if order == [] {
      NoMarksLeft(ts, items);
    } else {
      var m := order[0];
      var next := Swap(ts, m, Chars(items[m]));
      assert order == [m] + order[1..];
      RestoreMarks(ts, m, items[m]);
      RestoreTokens(ts, m, items);
      RestoreRun(next, items, order[1..]);
      RestoreStale(ts, m, items);
      if !Contains(Expand(ts, items), m) {
        RestoreFresh(ts, m, items);
      }
    }
  }

  // ---------- From trees to tokens ----------

  function Tokens(ts: seq<Nesting.Tree>): seq<Token> {
    if ts == [] then []
    else [match ts[0] case Leaf(c) => Plain(c) case Node(mark, _) => Mark(mark)] + Tokens(ts[1..])
  }

  lemma {:induction false} FlatTokens(ts: seq<Nesting.Tree>, items: map<string, string>)
    requires Nesting.Consistent(ts, items, false) && Nesting.Flat(ts)
    ensures MarksIn(Tokens(ts), items)
    ensures Render(Tokens(ts)) == Nesting.Render(ts) && Expand(Tokens(ts), items) == Nesting.Read(ts, items)
  {
    if ts != [] {
      assert ts[0] in ts && forall t | t in ts[1..] :: t in ts;
      FlatTokens(ts[1..], items);
      if ts[0].Node? {
        Nesting.LeavesRead(ts[0].kids, items);
      }
    }
  }

  lemma MaskedTokens(text: string, rules: seq<Rule>, items: map<string, string>) returns (ts: seq<Token>)
    requires Categorised(rules) && Nesting.Spares(text, rules) && Extends(Mask(text, rules).items, items)
    ensures MarksIn(ts, items) && Render(ts) == Mask(text, rules).text && Expand(ts, items) == text
  {
    var trees := Nesting.MaskStands(text, rules);
    Nesting.Grows(trees, Mask(text, rules).items, items, false);
    FlatTokens(trees, items);
    ts := Tokens(trees);
  }

  lemma {:induction false} SeparateMatches(p: Pass, seen: map<string, string>, category: string, matches: seq<string>,
                                           final: map<string, string>)
    requires Ledger(p) && NoBracket(category) && Remembers(seen, p.items)
    requires Extends(ApplyMatches(p, seen, category, matches).items, final) && Separate(final)
    ensures Nesting.SparesMatches(p, seen, category, matches)
    decreases |matches|
  {
    if matches != [] {
      var m := matches[0];
      var q, seen' := AfterMatch(p, seen, category, m), SeenAfter(p, seen, category, m);
      MatchExtends(p, seen, category, m);
      MatchesExtend(q, seen', category, matches[1..]);
      if NoBracket(m) {
        SparedBy(p.items, q.items, ApplyMatches(q, seen', category, matches[1..]).items, final, m, seen'[m]);
      }
      SeparateMatches(q, seen', category, matches[1..], final);
    }
  }

  lemma SparedBy(before: map<string, string>, after: map<string, string>, last: map<string, string>,
                 final: map<string, string>, m: string, marker: string)
    requires Extends(before, after) && Extends(after, last) && Extends(last, final) && Separate(final)
    requires marker in after && after[marker] == m
    ensures forall k | k in before :: !Contains(k, m)
  {
    assert marker in final && final[marker] == m;
    forall k | k in before ensures !Contains(k, m) {
      assert k in final;
    }
  }

  lemma {:induction false} SeparateRules(p: Pass, rules: seq<Rule>, final: map<string, string>)
    requires Ledger(p) && Categorised(rules) && Extends(ApplyRules(p, rules).items, final) && Separate(final)
    ensures Nesting.SparesRules(p, rules)
    decreases |rules|
  {
    if rules != [] {
      var matches := rules[0].find(p.text);
      var q := ApplyMatches(p, map[], rules[0].category, matches);
      MatchesExtend(p, map[], rules[0].category, matches);
      RulesExtend(q, rules[1..]);
      SeparateMatches(p, map[], rules[0].category, matches, final);
      SeparateRules(q, rules[1..], final);
    }
  }

  // ---------- The theorems ----------

  /** Restoring a masked text, with its own table or a larger one, in any order, inverts the masking if every match
      spared the markers before it and the text spells no marker of the table. If moreover no original lies inside any
      marker, it does so exactly then. */
  lemma RestoreInvertsMask(text: string, rules: seq<Rule>, items: map<string, string>, order: seq<string>)
    requires Categorised(rules) && Extends(Mask(text, rules).items, items)
    requires Formed(items) && Traverses(order, items)
    ensures Nesting.Spares(text, rules) && (forall k | k in items :: !Contains(text, k))
            ==> RestoreInOrder(Mask(text, rules).text, items, order) == text
    ensures Separate(items) ==>
              (RestoreInOrder(Mask(text, rules).text, items, order) == text
               <==> forall k | k in items :: !Contains(text, k))
  {
    if Separate(items) {
      SeparateRules(Pass(text, map[], map[]), rules, items);
      var ts := MaskedTokens(text, rules, items);
      RestoreRun(ts, items, order);
    } else if Nesting.Spares(text, rules) && forall k | k in items :: !Contains(text, k) {
      var ts := MaskedTokens(text, rules, items);
      RestoreAllFresh(ts, items, order);
    }
  }

  /** One text with a fresh table. */
  lemma RestoreInvertsMaskFresh(text: string, rules: seq<Rule>, order: seq<string>)
    requires Categorised(rules) && Traverses(order, Mask(text, rules).items)
    ensures var m := Mask(text, rules);
            && (Nesting.Spares(text, rules) && (forall k | k in m.items :: !Contains(text, k))
                ==> RestoreInOrder(m.text, m.items, order) == text)
            && (Separate(m.items) ==>
                  (RestoreInOrder(m.text, m.items, order) == text <==> forall k | k in m.items :: !Contains(text, k)))
  {
    RulesExtend(Pass(text, map[], map[]), rules);
    RestoreInvertsMask(text, rules, Mask(text, rules).items, order);
  }

  /** With rules that match no part of a marker numbered up to the matches found, every text without an opening bracket
      comes back. */
  lemma BracketFreeRoundTrip(text: string, rules: seq<Rule>, order: seq<string>)
    requires Categorised(rules) && '[' !in text
    requires BracketFree.HarmlessBelow(rules, BracketFree.Found(Pass(text, map[], map[]), rules) + 1)
    requires Traverses(order, Mask(text, rules).items)
    ensures RestoreInOrder(Mask(text, rules).text, Mask(text, rules).items, order) == text
  {
    var m := Mask(text, rules);
    RulesExtend(Pass(text, map[], map[]), rules);
    BracketFree.HarmlessSeparates(text, rules);
    RestoreInvertsMaskFresh(text, rules, order);
    forall k | k in m.items ensures !Contains(text, k) {
      forall i ensures !OccursAt(text, k, i) {
        if 0 <= i && i + |k| <= |text| {
          assert text[i..i + |k|][0] == text[i];
        }
      }
    }
  }

  // ---------- A body of several strings ----------

  /** No marker was given two different originals. */
  ghost predicate NoClash(texts: seq<string>, rules: seq<Rule>) {
    forall i | 0 <= i < |texts| :: Extends(Mask(texts[i], rules).items, BodyItems(texts, rules))
  }

  lemma {:induction false} BodyIsMinted(texts: seq<string>, rules: seq<Rule>)
    requires Categorised(rules)
    ensures forall k | k in BodyItems(texts, rules) :: IsMarker(k) && NoBracket(BodyItems(texts, rules)[k])
  {
    if texts != [] {
      BodyIsMinted(texts[..|texts| - 1], rules);
      RulesExtend(Pass(texts[|texts| - 1], map[], map[]), rules);
    }
  }

  /** Without a clash, a string of the body comes back if its matches spared markers and it spells none of the body's;
      exactly then, if no original lies inside a marker of the body. */
  lemma RestoreInvertsString(texts: seq<string>, rules: seq<Rule>, order: seq<string>, i: nat)
    requires Categorised(rules) && NoClash(texts, rules)
    requires Traverses(order, BodyItems(texts, rules)) && i < |texts|
    ensures var items := BodyItems(texts, rules);
            var restored := RestoreInOrder(Mask(texts[i], rules).text, items, order);
            && (Nesting.Spares(texts[i], rules) && (forall k | k in items :: !Contains(texts[i], k))
                ==> restored == texts[i])
            && (Separate(items) ==> (restored == texts[i] <==> forall k | k in items :: !Contains(texts[i], k)))
  {
    BodyIsMinted(texts, rules);
    RestoreInvertsMask(texts[i], rules, BodyItems(texts, rules), order);
  }
}

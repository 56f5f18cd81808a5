/** Texts without an opening bracket come back in every order of restoring, exactly when no match was replaced inside a
    marker. */
module BracketFree {
  import opened Replace
  import opened Desensitize
  import opened Nesting

  // ---------- Brackets in a text ----------

  /** Whether the last bracket so far is an opening one, after one more character. */
  function Turn(c: char, open: bool): bool {
    if c == '[' then true else if c == ']' then false else open
  }

  /** Somewhere an opening bracket follows another one that is still open. */
  predicate Nested(s: string, open: bool) {
    s != "" && ((open && s[0] == '[') || Nested(s[1..], Turn(s[0], open)))
  }

  /** Somewhere the match `m` starts behind a bracket that is still open. */
  predicate Hits(s: string, m: string, open: bool) {
    (open && m <= s) || (s != "" && Hits(s[1..], m, Turn(s[0], open)))
  }

  lemma {:induction false} PlainTurns(w: string, rest: string, open: bool)
    requires NoBracket(w)
    ensures Nested(w + rest, open) <==> Nested(rest, open)
    decreases |w|
  {
    if w == "" {
      assert w + rest == rest;
    } else {
      assert (w + rest)[1..] == w[1..] + rest;
      PlainTurns(w[1..], rest, open);
    }
  }

  lemma MarkerTurns(marker: string, rest: string, open: bool)
    requires IsMarker(marker)
    ensures Nested(marker + rest, open) <==> open || Nested(rest, false)
  {
    var inner := Inner(marker);
    assert (marker + rest)[1..] == inner + ([']'] + rest);
    PlainTurns(inner, [']'] + rest, true);
    assert ([']'] + rest)[1..] == rest;
  }

  lemma {:induction false} NoHitInPlain(w: string, rest: string, m: string)
    requires NoBracket(w)
    ensures Hits(w + rest, m, false) <==> Hits(rest, m, false)
    decreases |w|
  {
    if w == "" {
      assert w + rest == rest;
    } else {
      assert (w + rest)[1..] == w[1..] + rest;
      NoHitInPlain(w[1..], rest, m);
    }
  }

  /** Replacing nests a bracket exactly where it hits the inside of one. */
  lemma {:induction false} ReplaceNests(s: string, m: string, marker: string, open: bool)
    requires m != "" && NoBracket(m) && IsMarker(marker)
    ensures Nested(ReplaceAll(s, m, marker), open) <==> Nested(s, open) || Hits(s, m, open)
    decreases |s|
  {
    if s == "" {
    } else if m <= s {
      var rest := s[|m|..];
      assert s == m + rest;
      ReplaceNests(rest, m, marker, false);
      MarkerTurns(marker, ReplaceAll(rest, m, marker), open);
      PlainTurns(m, rest, open);
      NoHitInPlain(m, rest, m);
    } else {
      ReplaceNests(s[1..], m, marker, Turn(s[0], open));
      assert ([s[0]] + ReplaceAll(s[1..], m, marker))[1..] == ReplaceAll(s[1..], m, marker);
    }
  }

  lemma {:induction false} InterleaveNests(s: string, marker: string, open: bool)
    requires IsMarker(marker)
    ensures Nested(Interleave(s, marker), open) <==> Nested(s, open) || Hits(s, "", open)
    decreases |s|
  {
    if s == "" {
      assert marker + "" == marker;
      MarkerTurns(marker, "", open);
    } else {
      var more := [s[0]] + Interleave(s[1..], marker);
      assert Interleave(s, marker) == marker + more && more[1..] == Interleave(s[1..], marker);
      MarkerTurns(marker, more, open);
      InterleaveNests(s[1..], marker, Turn(s[0], false));
      if !open {
        assert !("" <= s && open);
      }
    }
  }

  lemma PutNests(s: string, m: string, marker: string)
    requires NoBracket(m) && IsMarker(marker)
    ensures Nested(GoReplaceAll(s, m, marker), false) <==> Nested(s, false) || Hits(s, m, false)
  {
    if m == "" {
      InterleaveNests(s, marker, false);
    } else {
      ReplaceNests(s, m, marker, false);
    }
  }

  // ---------- A masking run ----------

  /** No match of a rule is found inside a marker that is in the text when it is replaced. */
  predicate MissMatches(p: Pass, seen: Items, category: string, matches: seq<string>)
    decreases |matches|
  {
    matches == [] || (
      var m := matches[0];
      && (NoBracket(m) ==> !Hits(p.text, m, false))
      && MissMatches(AfterMatch(p, seen, category, m), SeenAfter(p, seen, category, m), category, matches[1..]))
  }

  predicate MissRules(p: Pass, rules: seq<Rule>)
    decreases |rules|
  {
    rules == [] || (
      var matches := rules[0].find(p.text);
      && MissMatches(p, map[], rules[0].category, matches)
      && MissRules(ApplyMatches(p, map[], rules[0].category, matches), rules[1..]))
  }

  predicate MissMarkers(text: string, rules: seq<Rule>) {
    MissRules(Pass(text, map[], map[]), rules)
  }

  lemma {:induction false} MatchesNest(p: Pass, seen: Items, category: string, matches: seq<string>)
    requires Ledger(p) && NoBracket(category) && Remembers(seen, p.items)
    ensures Nested(ApplyMatches(p, seen, category, matches).text, false)
            <==> Nested(p.text, false) || !MissMatches(p, seen, category, matches)
    ensures Ledger(ApplyMatches(p, seen, category, matches))
    decreases |matches|
  {
    if matches != [] {
      var m := matches[0];
      if NoBracket(m) {
        MarkerShape(category, p.Counter(category) + 1);
        PutNests(p.text, m, if m in seen then seen[m] else Marker(category, p.Counter(category) + 1));
      }
      MatchExtends(p, seen, category, m);
      MatchesNest(AfterMatch(p, seen, category, m), SeenAfter(p, seen, category, m), category, matches[1..]);
    }
  }

  lemma {:induction false} RulesNest(p: Pass, rules: seq<Rule>)
    requires Ledger(p) && Categorised(rules)
    ensures Nested(ApplyRules(p, rules).text, false) <==> Nested(p.text, false) || !MissRules(p, rules)
    decreases |rules|
  {
    if rules != [] {
      var matches := rules[0].find(p.text);
      MatchesNest(p, map[], rules[0].category, matches);
      RulesNest(ApplyMatches(p, map[], rules[0].category, matches), rules[1..]);
    }
  }

  lemma {:induction false} UnopenedIsFlat(s: string)
    requires '[' !in s
    ensures !Nested(s, false)
  {
    if s != "" {
      UnopenedIsFlat(s[1..]);
    }
  }

  // ---------- Brackets in trees ----------

  /** No opening brackets but those of the markers. */
  predicate Unopened(ts: seq<Tree>) {
    forall t | t in ts && t.Leaf? :: t.c != '['
  }

  lemma LeavesTurn(ts: seq<Tree>, rest: string)
    requires AllLeaves(ts) && forall t | t in ts :: t.c != '[' && t.c != ']'
    ensures Nested(Render(ts) + ([']'] + rest), true) <==> Nested(rest, false)
  {
    LeavesRead(ts, map[]);
    forall c | c in Render(ts) ensures c != '[' && c != ']' {
      var i :| 0 <= i < |ts| && Render(ts)[i] == c;
      assert ts[i] in ts;
    }
    PlainTurns(Render(ts), [']'] + rest, true);
    assert ([']'] + rest)[1..] == rest;
  }

  /** Leaves, then a node. */
  lemma {:induction false} FirstNode(ts: seq<Tree>, rest: string) returns (lead: string, behind: string)
    requires !AllLeaves(ts) && forall t | t in ts && t.Leaf? :: t.c != '[' && t.c != ']'
    ensures NoBracket(lead) && Render(ts) + rest == lead + (['['] + behind)
  {
    assert ts == [ts[0]] + ts[1..];
    match ts[0] {
      case Leaf(c) =>
        assert forall t | t in ts[1..] :: t in ts;
        assert ts[0] in ts;
        LeafSplit(c, ts[1..], rest);
        var more;
        more, behind := FirstNode(ts[1..], rest);
        lead := [c] + more;
        assert [c] + (more + (['['] + behind)) == lead + (['['] + behind);
      case Node(mark, kids) =>
        NodeSplit(mark, kids, ts[1..], rest);
        lead, behind := "", Render(kids) + ([']'] + (Render(ts[1..]) + rest));
        assert "" + (['['] + behind) == ['['] + behind;
    }
  }

  lemma NodeTurns(mark: string, kids: seq<Tree>, rest: string, items: Items)
    requires Consistent(kids, items, true)
    ensures Nested(['['] + (Render(kids) + ([']'] + rest)), false) <==> !AllLeaves(kids) || Nested(rest, false)
  {
    Labels(kids, items, true);
    var s := Render(kids) + ([']'] + rest);
    assert (['['] + s)[1..] == s;
    if AllLeaves(kids) {
      LeavesTurn(kids, rest);
    } else {
      var lead, behind := FirstNode(kids, [']'] + rest);
      PlainTurns(lead, ['['] + behind, true);
    }
  }

  /** A rendering nests brackets exactly when a marker has been broken. */
  lemma {:induction false} FlatIsNotNested(ts: seq<Tree>, items: Items)
    requires Consistent(ts, items, false) && Unopened(ts)
    ensures Nested(Render(ts), false) <==> !Flat(ts)
    decreases |ts|
  {
    if ts != [] {
      var rest := ts[1..];
      assert ts == [ts[0]] + rest && ts[0] in ts && forall t :: t in ts <==> t == ts[0] || t in rest;
      FlatIsNotNested(rest, items);
      assert Render(ts) + "" == Render(ts) && Render(rest) + "" == Render(rest);
      match ts[0] {
        case Leaf(c) =>
          LeafSplit(c, rest, "");
          assert ([c] + Render(rest))[1..] == Render(rest);
        case Node(mark, kids) =>
          NodeSplit(mark, kids, rest, "");
          NodeTurns(mark, kids, Render(rest), items);
      }
    }
  }

  lemma {:induction false} LeavesInRead(ts: seq<Tree>, items: Items)
    ensures forall t | t in ts && t.Leaf? :: t.c in Read(ts, items)
  {
    if ts != [] {
      LeavesInRead(ts[1..], items);
      assert forall t | t in ts :: t == ts[0] || t in ts[1..];
    }
  }

  // ---------- Restoring on trees ----------

  /** Every unbroken marker `k`, at any depth, becomes its original. */
  function Res(ts: seq<Tree>, k: string, original: string): seq<Tree> {
    if ts == [] then []
    else
      (match ts[0]
       case Leaf(_) => [ts[0]]
       case Node(mark, kids) =>
         if mark == k && AllLeaves(kids) then Leaves(original) else [Node(mark, Res(kids, k, original))])
      + Res(ts[1..], k, original)
  }

  lemma WholeMarker(mark: string, kids: seq<Tree>, rest: string, items: Items)
    requires AllLeaves(kids) && mark == "[" + Read(kids, items) + "]"
    ensures ['['] + (Render(kids) + ([']'] + rest)) == mark + rest
  {
    LeavesRead(kids, items);
  }

  /** A marker is not found where another one starts, nor where a broken one does. */
  lemma NotHere(k: string, mark: string, kids: seq<Tree>, rest: string, items: Items)
    requires IsMarker(k) && IsMarker(mark) && mark == "[" + Read(kids, items) + "]" && Consistent(kids, items, true)
    requires mark != k || !AllLeaves(kids)
    ensures !(k <= ['['] + (Render(kids) + ([']'] + rest)))
  {
    Labels(kids, items, true);
    if AllLeaves(kids) {
      WholeMarker(mark, kids, rest, items);
      MarkersInFront(k, mark, rest);
    } else {
      var lead, behind := FirstNode(kids, [']'] + rest);
      BrokenFront(k, lead, behind);
    }
  }

  lemma BrokenFront(k: string, lead: string, behind: string)
    requires IsMarker(k) && NoBracket(lead)
    ensures !(k <= ['['] + (lead + (['['] + behind)))
  {
    var s, n := ['['] + (lead + (['['] + behind)), |lead| + 1;
    assert s[n] == '[' && s[1..n] == lead;
    if |k| <= n {
      assert |k| > 2 || |k| == 2;
      assert s[|k| - 1] == lead[|k| - 2];
      assert lead[|k| - 2] in lead;
    } else {
      assert n < |k| - 1 ==> k[n] == Inner(k)[n - 1] && Inner(k)[n - 1] in Inner(k);
    }
  }

  /** Restoring one marker in the rendering is restoring it in the trees. */
  lemma {:induction false} ResRenders(ts: seq<Tree>, k: string, items: Items, rest: string, inside: bool)
    requires k in items && IsMarker(k) && Consistent(ts, items, inside) && Unopened(ts)
    ensures ReplaceAll(Render(ts) + rest, k, items[k]) == Render(Res(ts, k, items[k])) + ReplaceAll(rest, k, items[k])
    decreases ts
  {
    if ts == [] {
      assert Render(ts) + rest == rest;
    } else {
      var tail := ts[1..];
      assert ts == [ts[0]] + tail && ts[0] in ts && forall t | t in tail :: t in ts;
      ResRenders(tail, k, items, rest, inside);
      match ts[0] {
        case Leaf(c) =>
          LeafSplit(c, tail, rest);
          ReplaceStep(c, Render(tail) + rest, k, items[k]);
          LeafSplit(c, Res(tail, k, items[k]), ReplaceAll(rest, k, items[k]));
        case Node(mark, kids) =>
          Labels(kids, items, true);
          ResRenders(kids, k, items, [']'] + (Render(tail) + rest), true);
          ResNode(mark, kids, tail, k, items, rest);
      }
    }
  }

  lemma ResNode(mark: string, kids: seq<Tree>, tail: seq<Tree>, k: string, items: Items, rest: string)
    requires k in items && IsMarker(k) && IsMarker(mark) && mark == "[" + Read(kids, items) + "]"
    requires Consistent(kids, items, true)
    requires var after := [']'] + (Render(tail) + rest);
             ReplaceAll(Render(kids) + after, k, items[k])
             == Render(Res(kids, k, items[k])) + ReplaceAll(after, k, items[k])
    requires ReplaceAll(Render(tail) + rest, k, items[k])
          == Render(Res(tail, k, items[k])) + ReplaceAll(rest, k, items[k])
    ensures ReplaceAll(Render([Node(mark, kids)] + tail) + rest, k, items[k])
         == Render(Res([Node(mark, kids)] + tail, k, items[k])) + ReplaceAll(rest, k, items[k])
  {
    var s, o := Render(tail) + rest, items[k];
    var out, more := Res(tail, k, o), ReplaceAll(rest, k, o);
    NodeSplit(mark, kids, tail, rest);
    assert ([Node(mark, kids)] + tail)[1..] == tail;
    if mark == k && AllLeaves(kids) {
      WholeMarker(mark, kids, s, items);
      ReplaceFront(k, s, o);
      LeavesRender(o, items);
      Append(Leaves(o), out, items, false);
      Assoc(o, Render(out), more);
    } else {
      NotHere(k, mark, kids, s, items);
      PassBracket(Render(kids) + ([']'] + s), k, o);
      ReplaceStep(']', s, k, o);
      NodeSplit(mark, Res(kids, k, o), out, more);
    }
  }

  lemma PassBracket(rest: string, k: string, to: string)
    requires k != "" && !(k <= ['['] + rest)
    ensures ReplaceAll(['['] + rest, k, to) == ['['] + ReplaceAll(rest, k, to)
  {
    assert (['['] + rest)[1..] == rest;
  }

  lemma {:induction false} ResReads(ts: seq<Tree>, k: string, items: Items, inside: bool)
    requires k in items && NoBracket(items[k]) && Consistent(ts, items, inside) && Unopened(ts)
    ensures var r := Res(ts, k, items[k]);
            Read(r, items) == Read(ts, items) && Consistent(r, items, inside) && Unopened(r)
    decreases ts
  {
    if ts != [] {
      var o, tail := items[k], ts[1..];
      assert ts == [ts[0]] + tail && ts[0] in ts && forall t | t in tail :: t in ts;
      ResReads(tail, k, items, inside);
      ConsRead(ts[0], tail, items, inside);
      match ts[0] {
        case Leaf(c) => ConsRead(ts[0], Res(tail, k, o), items, inside);
        case Node(mark, kids) =>
          Labels(kids, items, true);
          ResReads(kids, k, items, true);
          if mark == k && AllLeaves(kids) {
            OriginalReads(o, items, inside);
            Append(Leaves(o), Res(tail, k, o), items, inside);
          } else {
            OneConsistent(mark, Res(kids, k, o), items, inside);
            ConsRead(Node(mark, Res(kids, k, o)), Res(tail, k, o), items, inside);
          }
      }
    }
  }

  lemma OriginalReads(o: string, items: Items, inside: bool)
    requires NoBracket(o)
    ensures Read(Leaves(o), items) == o && Consistent(Leaves(o), items, inside) && Unopened(Leaves(o))
  {
    LeavesRender(o, items);
    PlainConsistent(o, items);
    forall t | t in Leaves(o) ensures t.c != '[' {
      assert t.c in o;
    }
  }

  // ---------- Orders ----------

  function ResAll(ts: seq<Tree>, items: Items, order: seq<string>): seq<Tree>
    requires forall k | k in order :: k in items
    decreases |order|
  {
    if order == [] then ts else ResAll(Res(ts, order[0], items[order[0]]), items, order[1..])
  }

  lemma {:induction false} OrderRenders(ts: seq<Tree>, items: Items, order: seq<string>)
    requires Formed(items) && Consistent(ts, items, false) && Unopened(ts) && forall k | k in order :: k in items
    ensures RestoreInOrder(Render(ts), items, order) == Render(ResAll(ts, items, order))
    ensures Read(ResAll(ts, items, order), items) == Read(ts, items)
    decreases |order|
  {
    if order != [] {
      var k := order[0];
      ResRenders(ts, k, items, "", false);
      assert Render(ts) + "" == Render(ts);
      var next := Res(ts, k, items[k]);
      assert Render(next) + "" == Render(next);
      ResReads(ts, k, items, false);
      OrderRenders(next, items, order[1..]);
    }
  }

  lemma {:induction false} ResFlat(ts: seq<Tree>, k: string, original: string)
    requires Flat(ts)
    ensures Flat(Res(ts, k, original))
    ensures forall t | t in Res(ts, k, original) && t.Node? ::
              t.mark != k && exists u | u in ts && u.Node? :: u.mark == t.mark
  {
    if ts != [] {
      var tail := ts[1..];
      assert ts[0] in ts && forall t | t in tail :: t in ts;
      ResFlat(tail, k, original);
      if ts[0].Node? && ts[0].mark != k {
        LeavesStay(ts[0].kids, k, original);
      }
      assert forall t | t in Leaves(original) :: t.Leaf?;
    }
  }

  lemma {:induction false} LeavesStay(ts: seq<Tree>, k: string, original: string)
    requires AllLeaves(ts)
    ensures Res(ts, k, original) == ts
  {
    if ts != [] {
      assert ts == [ts[0]] + ts[1..] && ts[0] in ts;
      LeavesStay(ts[1..], k, original);
    }
  }

  /** Unbroken markers all vanish. */
  lemma {:induction false} FlatVanishes(ts: seq<Tree>, items: Items, order: seq<string>)
    requires Flat(ts) && (forall k | k in order :: k in items) && forall t | t in ts && t.Node? :: t.mark in order
    ensures AllLeaves(ResAll(ts, items, order))
    decreases |order|
  {
    if order != [] {
      var k := order[0];
      ResFlat(ts, k, items[k]);
      FlatVanishes(Res(ts, k, items[k]), items, order[1..]);
    }
  }

  predicate Has(ts: seq<Tree>, mark: string) {
    exists t | t in ts :: t.Node? && t.mark == mark
  }

  lemma {:induction false} NodeStays(ts: seq<Tree>, t: Tree, k: string, original: string)
    requires t in ts && t.Node? && (t.mark != k || !AllLeaves(t.kids))
    ensures Has(Res(ts, k, original), t.mark)
  {
    if ts[0] == t {
      assert Res(ts, k, original)[0] == Node(t.mark, Res(t.kids, k, original));
    } else {
      NodeStays(ts[1..], t, k, original);
    }
  }

  /** A marker that is not restored stays. */
  lemma {:induction false} MarkStays(ts: seq<Tree>, items: Items, order: seq<string>, mark: string)
    requires Has(ts, mark) && mark !in order && forall k | k in order :: k in items
    ensures Has(ResAll(ts, items, order), mark)
    decreases |order|
  {
    if order != [] {
      var t :| t in ts && t.Node? && t.mark == mark;
      NodeStays(ts, t, order[0], items[order[0]]);
      MarkStays(Res(ts, order[0], items[order[0]]), items, order[1..], mark);
    }
  }

  lemma {:induction false} MarkShows(ts: seq<Tree>, mark: string)
    requires Has(ts, mark)
    ensures '[' in Render(ts)
  {
    if ts[0].Node? {
      assert Render(ts)[0] == '[';
    } else {
      assert Has(ts[1..], mark);
      MarkShows(ts[1..], mark);
    }
  }

  lemma {:induction false} Listed(s: set<string>) returns (q: seq<string>)
    ensures (forall x :: x in q <==> x in s) && forall i, j :: 0 <= i < j < |q| ==> q[i] != q[j]
    decreases s
  {
    if s == {} {
      q := [];
    } else {
      var x :| x in s;
      var rest := Listed(s - {x});
      q := [x] + rest;
    }
  }

  lemma OrderFrom(items: Items, k: string) returns (order: seq<string>)
    requires k in items
    ensures Traverses(order, items) && order != [] && order[0] == k && k !in order[1..]
    ensures forall x | x in order[1..] :: x in items
  {
    var rest := Listed(items.Keys - {k});
    order := [k] + rest;
    assert order[1..] == rest;
  }

  lemma BrokenStays(ts: seq<Tree>, items: Items, order: seq<string>, t: Tree)
    requires t in ts && t.Node? && !AllLeaves(t.kids) && (forall k | k in order :: k in items)
    requires order != [] && order[0] == t.mark && t.mark !in order[1..]
    ensures Has(ResAll(ts, items, order), t.mark)
  {
    NodeStays(ts, t, t.mark, items[t.mark]);
    assert forall k | k in order[1..] :: k in order;
    MarkStays(Res(ts, t.mark, items[t.mark]), items, order[1..], t.mark);
  }

  /** A broken marker restored before those inside it stays for good. */
  lemma BrokenIsLost(ts: seq<Tree>, items: Items, text: string) returns (order: seq<string>)
    requires Formed(items) && Consistent(ts, items, false) && Unopened(ts) && !Flat(ts) && '[' !in text
    ensures Traverses(order, items) && RestoreInOrder(Render(ts), items, order) != text
  {
    Labels(ts, items, false);
    var t :| t in ts && t.Node? && !AllLeaves(t.kids);
    order := OrderFrom(items, t.mark);
    BrokenStays(ts, items, order, t);
    OrderRenders(ts, items, order);
    MarkShows(ResAll(ts, items, order), t.mark);
  }

  lemma FlatComesBack(ts: seq<Tree>, items: Items, order: seq<string>)
    requires Formed(items) && Consistent(ts, items, false) && Unopened(ts) && Flat(ts) && Traverses(order, items)
    ensures RestoreInOrder(Render(ts), items, order) == Read(ts, items)
  {
    Labels(ts, items, false);
    FlatVanishes(ts, items, order);
    OrderRenders(ts, items, order);
    LeavesRead(ResAll(ts, items, order), items);
  }

  // ---------- The theorem ----------

  lemma MaskedTrees(text: string, rules: seq<Rule>) returns (ts: seq<Tree>)
    requires Categorised(rules) && '[' !in text
    ensures var m := Mask(text, rules);
            && Formed(m.items) && Stands(ts, m, text) && Unopened(ts) && (Flat(ts) <==> MissMarkers(text, rules))
  {
    var m := Mask(text, rules);
    ts := MaskStands(text, rules);
    LeavesInRead(ts, m.items);
    FlatIsNotNested(ts, m.items);
    RulesNest(Pass(text, map[], map[]), rules);
    UnopenedIsFlat(text);
  }

  /** A text without an opening bracket comes back in every order of restoring, if and only if no match was replaced
      inside a marker. */
  lemma RestoredInEveryOrder(text: string, rules: seq<Rule>)
    requires Categorised(rules) && '[' !in text
    ensures var m := Mask(text, rules);
            (forall order | Traverses(order, m.items) :: RestoreInOrder(m.text, m.items, order) == text)
            <==> MissMarkers(text, rules)
  {
    var m := Mask(text, rules);
    var ts := MaskedTrees(text, rules);
    if Flat(ts) {
      forall order | Traverses(order, m.items) ensures RestoreInOrder(m.text, m.items, order) == text {
        FlatComesBack(ts, m.items, order);
      }
    } else {
      var order := BrokenIsLost(ts, m.items, text);
    }
  }

  /** The gateway could tell before it sends anything: the masked text shows nested brackets. */
  lemma NestingShows(text: string, rules: seq<Rule>)
    requires Categorised(rules) && '[' !in text
    ensures Nested(Mask(text, rules).text, false) <==> !MissMarkers(text, rules)
  {
    RulesNest(Pass(text, map[], map[]), rules);
    UnopenedIsFlat(text);
  }

  // ---------- A condition on the rules alone ----------

  /** No rule ever matches a part of a marker that these rules could mint with a number below `bound`. */
  ghost predicate HarmlessBelow(rules: seq<Rule>, bound: nat) {
    forall r, s, m, c, n: nat | r in rules && m in r.find(s) && c in rules && n < bound ::
      !Contains(Marker(c.category, n), m)
  }

  ghost predicate FromRules(p: Pass, rules: seq<Rule>) {
    forall k | k in p.items ::
      && (exists c, n: nat | c in rules :: k == Marker(c.category, n))
      && exists r, s | r in rules :: p.items[k] in r.find(s)
  }

  lemma {:induction false} MatchesFromRules(p: Pass, seen: Items, rule: Rule, matches: seq<string>, s: string,
                                            rules: seq<Rule>)
    requires FromRules(p, rules) && rule in rules && forall m | m in matches :: m in rule.find(s)
    ensures FromRules(ApplyMatches(p, seen, rule.category, matches), rules)
    decreases |matches|
  {
    if matches != [] {
      var m := matches[0];
      assert m in matches && forall x | x in matches[1..] :: x in matches;
      var q := AfterMatch(p, seen, rule.category, m);
      forall k | k in q.items
        ensures exists c, n: nat | c in rules :: k == Marker(c.category, n)
        ensures exists r, t | r in rules :: q.items[k] in r.find(t)
      {
        if k !in p.items || q.items[k] != p.items[k] {
          assert k == Marker(rule.category, p.Counter(rule.category) + 1) && q.items[k] in rule.find(s);
        }
      }
      MatchesFromRules(q, SeenAfter(p, seen, rule.category, m), rule, matches[1..], s, rules);
    }
  }

  lemma {:induction false} RulesFromRules(p: Pass, todo: seq<Rule>, rules: seq<Rule>)
    requires FromRules(p, rules) && forall r | r in todo :: r in rules
    ensures FromRules(ApplyRules(p, todo), rules)
    decreases |todo|
  {
    if todo != [] {
      assert todo[0] in todo && forall r | r in todo[1..] :: r in todo;
      MatchesFromRules(p, map[], todo[0], todo[0].find(p.text), p.text, rules);
      RulesFromRules(ApplyMatches(p, map[], todo[0].category, todo[0].find(p.text)), todo[1..], rules);
    }
  }

  /** What the rules find in a text, each in what the ones before it left. */
  function Found(p: Pass, rules: seq<Rule>): nat
    decreases |rules|
  {
    if rules == [] then 0
    else
      var matches := rules[0].find(p.text);
      |matches| + Found(ApplyMatches(p, map[], rules[0].category, matches), rules[1..])
  }

  ghost predicate CountersWithin(p: Pass, most: nat) {
    forall c | c in p.counters :: p.counters[c] <= most
  }

  lemma {:induction false} MatchesCount(p: Pass, seen: Items, category: string, matches: seq<string>, most: nat)
    requires CountersWithin(p, most)
    ensures CountersWithin(ApplyMatches(p, seen, category, matches), most + |matches|)
    decreases |matches|
  {
    if matches != [] {
      var q := AfterMatch(p, seen, category, matches[0]);
      assert CountersWithin(q, most + 1);
      MatchesCount(q, SeenAfter(p, seen, category, matches[0]), category, matches[1..], most + 1);
    }
  }

  /** No number exceeds the number of matches found. */
  lemma {:induction false} NumbersWithin(p: Pass, rules: seq<Rule>, most: nat)
    requires CountersWithin(p, most)
    ensures CountersWithin(ApplyRules(p, rules), most + Found(p, rules))
    decreases |rules|
  {
    if rules != [] {
      var matches := rules[0].find(p.text);
      MatchesCount(p, map[], rules[0].category, matches, most);
      NumbersWithin(ApplyMatches(p, map[], rules[0].category, matches), rules[1..], most + |matches|);
    }
  }

  /** Every marker has the category of a rule and a number below the bound, every original was found by a rule. */
  ghost predicate MintedBelow(items: Items, rules: seq<Rule>, bound: nat) {
    forall k | k in items ::
      && (exists c, n: nat | c in rules && n < bound :: k == Marker(c.category, n))
      && exists r, s | r in rules :: items[k] in r.find(s)
  }

  lemma MaskMintsBelow(text: string, rules: seq<Rule>)
    requires Categorised(rules)
    ensures MintedBelow(Mask(text, rules).items, rules, Found(Pass(text, map[], map[]), rules) + 1)
  {
    var start, m := Pass(text, map[], map[]), Mask(text, rules);
    RulesFromRules(start, rules, rules);
    RulesExtend(start, rules);
    NumbersWithin(start, rules, 0);
    forall k | k in m.items
      ensures exists c, n: nat | c in rules && n < Found(start, rules) + 1 :: k == Marker(c.category, n)
    {
      var c, n: nat :| c in rules && k == Marker(c.category, n);
      NumberIsMinted(m, k, c.category, n);
    }
  }

  lemma MintedSeparates(items: Items, rules: seq<Rule>, bound: nat)
    requires MintedBelow(items, rules, bound) && HarmlessBelow(rules, bound)
    ensures forall a, b | a in items && b in items :: !Contains(b, items[a])
  {
    forall a, b | a in items && b in items ensures !Contains(b, items[a]) {
      var r, s :| r in rules && items[a] in r.find(s);
      var c, n: nat :| c in rules && n < bound && b == Marker(c.category, n);
    }
  }

  /** With harmless rules no original lies in any marker of the table. */
  lemma HarmlessSeparates(text: string, rules: seq<Rule>)
    requires Categorised(rules) && HarmlessBelow(rules, Found(Pass(text, map[], map[]), rules) + 1)
    ensures var items := Mask(text, rules).items; forall a, b | a in items && b in items :: !Contains(b, items[a])
  {
    MaskMintsBelow(text, rules);
    MintedSeparates(Mask(text, rules).items, rules, Found(Pass(text, map[], map[]), rules) + 1);
  }

  lemma NumberIsMinted(p: Pass, k: string, category: string, n: nat)
    requires MintedBy(k, p.counters) && k == Marker(category, n)
    ensures category in p.counters && 1 <= n <= p.counters[category]
  {
    var c, j: nat :| c in p.counters && 1 <= j <= p.counters[c] && k == Marker(c, j);
    MarkerInjective(c, j, category, n);
  }
}

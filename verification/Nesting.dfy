/** Masked texts as trees: every marker that a masking run puts in stands for a piece of the text, even one that later
    markers have broken up. */
module Nesting {
  import opened Replace
  import opened Desensitize

  /** A character, or the marker `mark`, whose inner text may itself have been masked. */
  datatype Tree = Leaf(c: char) | Node(mark: string, kids: seq<Tree>)

  type Items = map<string, string>

  function Render(ts: seq<Tree>): string {
    if ts == [] then ""
    else (match ts[0] case Leaf(c) => [c] case Node(_, kids) => "[" + Render(kids) + "]") + Render(ts[1..])
  }

  /** What one tree stands for. */
  function ReadOne(t: Tree, items: Items): string {
    match t
    case Leaf(c) => [c]
    case Node(mark, _) => if mark in items then items[mark] else ""
  }

  /** What the trees stand for. */
  function Read(ts: seq<Tree>, items: Items): string {
    if ts == [] then ""
    else ReadOne(ts[0], items) + Read(ts[1..], items)
  }

  /** Every mark is in the table and is what its inner trees stand for; inside a marker there are no other brackets. */
  predicate Consistent(ts: seq<Tree>, items: Items, inside: bool) {
    ts == [] || (
      && Consistent(ts[1..], items, inside)
      && match ts[0]
         case Leaf(c) => inside ==> c != '[' && c != ']'
         case Node(mark, kids) =>
           && mark in items && IsMarker(mark) && mark == "[" + Read(kids, items) + "]"
           && Consistent(kids, items, true))
  }

  function Leaves(s: string): seq<Tree> {
    seq(|s|, i requires 0 <= i < |s| => Leaf(s[i]))
  }

  function Inner(marker: string): string
    requires IsMarker(marker)
  {
    marker[1..|marker| - 1]
  }

  function Fresh(marker: string): Tree
    requires IsMarker(marker)
  {
    Node(marker, Leaves(Inner(marker)))
  }

  predicate Spells(ts: seq<Tree>, w: string) {
    |w| <= |ts| && forall k | 0 <= k < |w| :: ts[k] == Leaf(w[k])
  }

  // ---------- Masking on trees ----------

  /** Every place where leaves spell `w`, at any depth, becomes a marker. */
  function Sub(ts: seq<Tree>, w: string, marker: string): seq<Tree>
    requires w != "" && IsMarker(marker)
  {
    if ts == [] then []
    else if Spells(ts, w) then [Fresh(marker)] + Sub(ts[|w|..], w, marker)
    else
      [match ts[0] case Leaf(_) => ts[0] case Node(mark, kids) => Node(mark, Sub(kids, w, marker))]
      + Sub(ts[1..], w, marker)
  }

  /** The marker before every character, at any depth. */
  function Between(ts: seq<Tree>, marker: string): seq<Tree>
    requires IsMarker(marker)
  {
    if ts == [] then []
    else
      [Fresh(marker)]
      + ([match ts[0]
          case Leaf(_) => ts[0]
          case Node(mark, kids) => Node(mark, Between(kids, marker) + [Fresh(marker)])]
         + Between(ts[1..], marker))
  }

  function Put(ts: seq<Tree>, w: string, marker: string): seq<Tree>
    requires IsMarker(marker)
  {
    if w == "" then Between(ts, marker) + [Fresh(marker)] else Sub(ts, w, marker)
  }

  lemma {:induction false} LeavesRender(s: string, items: Items)
    ensures Render(Leaves(s)) == s && Read(Leaves(s), items) == s
    ensures NoBracket(s) ==> Consistent(Leaves(s), items, true)
    decreases |s|
  {
    if s != "" {
      assert Leaves(s)[1..] == Leaves(s[1..]);
      LeavesRender(s[1..], items);
      assert s == [s[0]] + s[1..];
    }
  }

  lemma FreshRender(marker: string, items: Items)
    requires IsMarker(marker)
    ensures Render([Fresh(marker)]) == marker
    ensures marker in items ==>
              Read([Fresh(marker)], items) == items[marker] && Consistent([Fresh(marker)], items, true)
  {
    var inner := Inner(marker);
    LeavesRender(inner, items);
    assert marker == "[" + inner + "]";
    assert [Fresh(marker)][1..] == [];
    assert Render([Fresh(marker)]) == "[" + Render(Leaves(inner)) + "]" + Render([]);
  }

  lemma {:induction false} RenderAppend(a: seq<Tree>, b: seq<Tree>)
    ensures Render(a + b) == Render(a) + Render(b)
    decreases |a|
  {
    if a == [] {
      assert a + b == b && "" + Render(b) == Render(b);
    } else {
      assert (a + b)[1..] == a[1..] + b && (a + b)[0] == a[0];
      RenderAppend(a[1..], b);
      Assoc(match a[0] case Leaf(c) => [c] case Node(_, kids) => "[" + Render(kids) + "]", Render(a[1..]), Render(b));
    }
  }

  lemma {:induction false} ReadAppend(a: seq<Tree>, b: seq<Tree>, items: Items)
    ensures Read(a + b, items) == Read(a, items) + Read(b, items)
    decreases |a|
  {
    if a == [] {
      assert a + b == b && "" + Read(b, items) == Read(b, items);
    } else {
      assert (a + b)[1..] == a[1..] + b && (a + b)[0] == a[0];
      ReadAppend(a[1..], b, items);
      Assoc(ReadOne(a[0], items), Read(a[1..], items), Read(b, items));
    }
  }

  lemma {:induction false} ConsistentAppend(a: seq<Tree>, b: seq<Tree>, items: Items, inside: bool)
    ensures Consistent(a + b, items, inside) <==> Consistent(a, items, inside) && Consistent(b, items, inside)
    decreases |a|
  {
    if a == [] {
      assert a + b == b;
    } else {
      assert (a + b)[1..] == a[1..] + b && (a + b)[0] == a[0];
      ConsistentAppend(a[1..], b, items, inside);
    }
  }

  lemma Append(a: seq<Tree>, b: seq<Tree>, items: Items, inside: bool)
    ensures Render(a + b) == Render(a) + Render(b) && Read(a + b, items) == Read(a, items) + Read(b, items)
    ensures Consistent(a + b, items, inside) <==> Consistent(a, items, inside) && Consistent(b, items, inside)
  {
    RenderAppend(a, b);
    ReadAppend(a, b, items);
    ConsistentAppend(a, b, items, inside);
  }

  /** What may follow when no match can run over the end: nothing, or a bracket. */
  predicate Stops(rest: string) {
    rest == "" || rest[0] == '[' || rest[0] == ']'
  }

  lemma PrefixCons(c: char, rest: string, w: string)
    requires w != ""
    ensures w <= [c] + rest <==> c == w[0] && w[1..] <= rest
    ensures w <= [c] + rest ==> ([c] + rest)[|w|..] == rest[|w[1..]|..]
  {
    if w <= [c] + rest {
      assert w[1..] == ([c] + rest)[..|w|][1..];
    }
    if c == w[0] && w[1..] <= rest {
      assert w == [w[0]] + w[1..];
    }
  }

  lemma SpellsCons(ts: seq<Tree>, w: string)
    requires ts != [] && ts[0].Leaf? && w != ""
    ensures Spells(ts, w) <==> ts[0].c == w[0] && Spells(ts[1..], w[1..])
    ensures Spells(ts, w) ==> ts[|w|..] == ts[1..][|w[1..]|..]
  {
    if ts[0].c == w[0] && Spells(ts[1..], w[1..]) {
      forall k | 0 <= k < |w| ensures ts[k] == Leaf(w[k]) {
        if k > 0 {
          assert ts[1..][k - 1] == Leaf(w[1..][k - 1]);
        }
      }
    }
  }

  lemma NotAtBracket(w: string, s: string)
    requires w != "" && NoBracket(w) && Stops(s)
    ensures !(w <= s)
  {
    assert w[0] in w;
  }

  lemma {:induction false} PrefixSpells(ts: seq<Tree>, w: string, rest: string)
    requires NoBracket(w) && Stops(rest)
    ensures w <= Render(ts) + rest <==> Spells(ts, w)
    ensures Spells(ts, w) ==> (Render(ts) + rest)[|w|..] == Render(ts[|w|..]) + rest
    decreases |w|
  {
    if w == "" {
    } else if ts != [] && ts[0].Leaf? {
      PrefixSpells(ts[1..], w[1..], rest);
      SpellsCons(ts, w);
      PrefixCons(ts[0].c, Render(ts[1..]) + rest, w);
      assert Render(ts) + rest == [ts[0].c] + (Render(ts[1..]) + rest);
    } else {
      assert Render([]) + rest == rest;
      NotAtBracket(w, Render(ts) + rest);
    }
  }

  lemma NodeSplit(mark: string, kids: seq<Tree>, tail: seq<Tree>, rest: string)
    ensures Render([Node(mark, kids)] + tail) + rest == ['['] + (Render(kids) + ([']'] + (Render(tail) + rest)))
  {
    assert ([Node(mark, kids)] + tail)[1..] == tail;
  }

  lemma LeafSplit(c: char, tail: seq<Tree>, rest: string)
    ensures Render([Leaf(c)] + tail) + rest == [c] + (Render(tail) + rest)
  {
    assert ([Leaf(c)] + tail)[1..] == tail;
  }

  /** Replacing in the rendering is substituting in the trees, however deep the match lies. */
  lemma {:induction false} SubRenders(ts: seq<Tree>, w: string, marker: string, rest: string)
    requires w != "" && NoBracket(w) && IsMarker(marker) && Stops(rest)
    ensures ReplaceAll(Render(ts) + rest, w, marker) == Render(Sub(ts, w, marker)) + ReplaceAll(rest, w, marker)
    decreases ts
  {
    if ts == [] {
      assert Render(ts) + rest == rest;
    } else if Spells(ts, w) {
      PrefixSpells(ts, w, rest);
      SubRenders(ts[|w|..], w, marker, rest);
      SubFresh(marker, Sub(ts[|w|..], w, marker), ReplaceAll(rest, w, marker));
    } else {
      PrefixSpells(ts, w, rest);
      SubRenders(ts[1..], w, marker, rest);
      match ts[0] {
        case Leaf(c) => SubLeaf(c, ts[1..], w, marker, rest);
        case Node(mark, kids) =>
          SubRenders(kids, w, marker, [']'] + (Render(ts[1..]) + rest));
          SubNode(mark, kids, ts[1..], w, marker, rest);
      }
      assert ts == [ts[0]] + ts[1..];
    }
  }

  lemma SubFresh(marker: string, tail: seq<Tree>, rest: string)
    requires IsMarker(marker)
    ensures Render([Fresh(marker)] + tail) + rest == marker + (Render(tail) + rest)
  {
    FreshRender(marker, map[]);
    Append([Fresh(marker)], tail, map[], false);
  }

  lemma SubLeaf(c: char, tail: seq<Tree>, w: string, marker: string, rest: string)
    requires w != "" && NoBracket(w) && IsMarker(marker) && Stops(rest) && !(w <= Render([Leaf(c)] + tail) + rest)
    requires ReplaceAll(Render(tail) + rest, w, marker) == Render(Sub(tail, w, marker)) + ReplaceAll(rest, w, marker)
    ensures ReplaceAll(Render([Leaf(c)] + tail) + rest, w, marker)
         == Render([Leaf(c)] + Sub(tail, w, marker)) + ReplaceAll(rest, w, marker)
  {
    var s := Render(tail) + rest;
    LeafSplit(c, tail, rest);
    LeafSplit(c, Sub(tail, w, marker), ReplaceAll(rest, w, marker));
    assert ([c] + s)[1..] == s && ([c] + s)[0] == c;
  }

  lemma SubNode(mark: string, kids: seq<Tree>, tail: seq<Tree>, w: string, marker: string, rest: string)
    requires w != "" && NoBracket(w) && IsMarker(marker) && Stops(rest)
    requires var after := [']'] + (Render(tail) + rest);
             ReplaceAll(Render(kids) + after, w, marker) == Render(Sub(kids, w, marker)) + ReplaceAll(after, w, marker)
    requires ReplaceAll(Render(tail) + rest, w, marker) == Render(Sub(tail, w, marker)) + ReplaceAll(rest, w, marker)
    ensures ReplaceAll(Render([Node(mark, kids)] + tail) + rest, w, marker)
         == Render([Node(mark, Sub(kids, w, marker))] + Sub(tail, w, marker)) + ReplaceAll(rest, w, marker)
  {
    var s := Render(tail) + rest;
    NodeSplit(mark, kids, tail, rest);
    ReplaceStep('[', Render(kids) + ([']'] + s), w, marker);
    ReplaceStep(']', s, w, marker);
    NodeSplit(mark, Sub(kids, w, marker), Sub(tail, w, marker), ReplaceAll(rest, w, marker));
  }

  lemma {:induction false} BetweenRenders(ts: seq<Tree>, marker: string, rest: string)
    requires IsMarker(marker)
    ensures Interleave(Render(ts) + rest, marker) == Render(Between(ts, marker)) + Interleave(rest, marker)
    decreases ts
  {
    if ts == [] {
      assert Render(ts) + rest == rest;
    } else {
      BetweenRenders(ts[1..], marker, rest);
      match ts[0] {
        case Leaf(c) => BetweenLeaf(c, ts[1..], marker, rest);
        case Node(mark, kids) =>
          BetweenRenders(kids, marker, [']'] + (Render(ts[1..]) + rest));
          BetweenNode(mark, kids, ts[1..], marker, rest);
      }
      assert ts == [ts[0]] + ts[1..];
    }
  }

  lemma InterleaveStep(c: char, rest: string, to: string)
    ensures Interleave([c] + rest, to) == to + ([c] + Interleave(rest, to))
  {
    assert ([c] + rest)[1..] == rest;
  }

  lemma BetweenLeaf(c: char, tail: seq<Tree>, marker: string, rest: string)
    requires IsMarker(marker)
    requires Interleave(Render(tail) + rest, marker) == Render(Between(tail, marker)) + Interleave(rest, marker)
    ensures Interleave(Render([Leaf(c)] + tail) + rest, marker)
         == Render([Fresh(marker)] + ([Leaf(c)] + Between(tail, marker))) + Interleave(rest, marker)
  {
    var out, more := Between(tail, marker), Interleave(rest, marker);
    LeafSplit(c, tail, rest);
    InterleaveStep(c, Render(tail) + rest, marker);
    LeafSplit(c, out, more);
    SubFresh(marker, [Leaf(c)] + out, more);
  }

  lemma BetweenNode(mark: string, kids: seq<Tree>, tail: seq<Tree>, marker: string, rest: string)
    requires IsMarker(marker)
    requires var after := [']'] + (Render(tail) + rest);
             Interleave(Render(kids) + after, marker) == Render(Between(kids, marker)) + Interleave(after, marker)
    requires Interleave(Render(tail) + rest, marker) == Render(Between(tail, marker)) + Interleave(rest, marker)
    ensures Interleave(Render([Node(mark, kids)] + tail) + rest, marker)
         == Render([Fresh(marker)] + ([Node(mark, Between(kids, marker) + [Fresh(marker)])] + Between(tail, marker)))
            + Interleave(rest, marker)
  {
    var out, more := Between(tail, marker), Interleave(rest, marker);
    var inner := Between(kids, marker) + [Fresh(marker)];
    NodeSplit(mark, kids, tail, rest);
    InterleaveStep('[', Render(kids) + ([']'] + (Render(tail) + rest)), marker);
    InterleaveStep(']', Render(tail) + rest, marker);
    NodeSplit(mark, inner, out, more);
    SubFresh(marker, [Node(mark, inner)] + out, more);
    EndRender(Between(kids, marker), marker);
    Assoc(Render(Between(kids, marker)), marker, [']'] + (Render(out) + more));
  }

  lemma EndRender(ts: seq<Tree>, marker: string)
    requires IsMarker(marker)
    ensures Render(ts + [Fresh(marker)]) == Render(ts) + marker
  {
    Append(ts, [Fresh(marker)], map[], true);
    FreshRender(marker, map[]);
  }

  /** The library's replacement, for every bracket-free match. */
  lemma PutRenders(ts: seq<Tree>, w: string, marker: string)
    requires NoBracket(w) && IsMarker(marker)
    ensures GoReplaceAll(Render(ts), w, marker) == Render(Put(ts, w, marker))
  {
    assert Render(ts) + "" == Render(ts);
    if w == "" {
      BetweenRenders(ts, marker, "");
      Append(Between(ts, marker), [Fresh(marker)], map[], false);
      FreshRender(marker, map[]);
    } else {
      SubRenders(ts, w, marker, "");
      assert Render(Sub(ts, w, marker)) + "" == Render(Sub(ts, w, marker));
    }
  }

  // ---------- Masking keeps what the text stands for ----------

  lemma {:induction false} SpelledRead(ts: seq<Tree>, w: string, items: Items, inside: bool)
    requires Spells(ts, w)
    ensures Read(ts, items) == w + Read(ts[|w|..], items)
    ensures Consistent(ts, items, inside) ==> Consistent(ts[|w|..], items, inside)
    decreases |w|
  {
    if w == "" {
      assert ts[0..] == ts && "" + Read(ts, items) == Read(ts, items);
    } else {
      SpellsCons(ts, w);
      SpelledRead(ts[1..], w[1..], items, inside);
      assert w == [w[0]] + w[1..];
      Assoc([w[0]], w[1..], Read(ts[|w|..], items));
    }
  }

  lemma ConsRead(t: Tree, tail: seq<Tree>, items: Items, inside: bool)
    ensures Read([t] + tail, items) == ReadOne(t, items) + Read(tail, items)
    ensures Consistent([t] + tail, items, inside) <==> Consistent([t], items, inside) && Consistent(tail, items, inside)
  {
    assert ([t] + tail)[1..] == tail && [t][1..] == [];
  }

  lemma {:induction false} SubReads(ts: seq<Tree>, w: string, marker: string, items: Items, inside: bool)
    requires w != "" && IsMarker(marker) && marker in items && items[marker] == w && Consistent(ts, items, inside)
    ensures Read(Sub(ts, w, marker), items) == Read(ts, items) && Consistent(Sub(ts, w, marker), items, inside)
    decreases ts
  {
    if ts == [] {
    } else if Spells(ts, w) {
      SpelledRead(ts, w, items, inside);
      SubReads(ts[|w|..], w, marker, items, inside);
      FreshConsistent(marker, items, inside);
      ConsRead(Fresh(marker), Sub(ts[|w|..], w, marker), items, inside);
    } else {
      SubReads(ts[1..], w, marker, items, inside);
      var rest := Sub(ts[1..], w, marker);
      if ts[0].Node? {
        SubReads(ts[0].kids, w, marker, items, true);
        OneConsistent(ts[0].mark, Sub(ts[0].kids, w, marker), items, inside);
        ConsRead(Node(ts[0].mark, Sub(ts[0].kids, w, marker)), rest, items, inside);
      } else {
        ConsRead(ts[0], rest, items, inside);
        assert [ts[0]][1..] == [];
      }
    }
  }

  lemma OneConsistent(mark: string, kids: seq<Tree>, items: Items, inside: bool)
    requires mark in items && IsMarker(mark) && mark == "[" + Read(kids, items) + "]" && Consistent(kids, items, true)
    ensures Consistent([Node(mark, kids)], items, inside)
  {
    assert [Node(mark, kids)][1..] == [];
  }

  lemma FreshConsistent(marker: string, items: Items, inside: bool)
    requires IsMarker(marker) && marker in items
    ensures Consistent([Fresh(marker)], items, inside)
  {
    LeavesRender(Inner(marker), items);
    assert marker == "[" + Inner(marker) + "]";
    OneConsistent(marker, Leaves(Inner(marker)), items, inside);
  }

  lemma {:induction false} BetweenReads(ts: seq<Tree>, marker: string, items: Items, inside: bool)
    requires IsMarker(marker) && marker in items && items[marker] == "" && Consistent(ts, items, inside)
    ensures Read(Between(ts, marker), items) == Read(ts, items) && Consistent(Between(ts, marker), items, inside)
    decreases ts
  {
    if ts != [] {
      assert ts == [ts[0]] + ts[1..];
      BetweenReads(ts[1..], marker, items, inside);
      ConsRead(ts[0], ts[1..], items, inside);
      if ts[0].Node? {
        BetweenReads(ts[0].kids, marker, items, true);
        NodeReads(ts[0].mark, ts[0].kids, Between(ts[1..], marker), marker, items, inside);
      } else {
        ConsRead(ts[0], Between(ts[1..], marker), items, inside);
        PairRead(marker, ts[0], Between(ts[1..], marker), items, inside);
      }
    }
  }

  lemma NodeReads(mark: string, kids: seq<Tree>, rest: seq<Tree>, marker: string, items: Items, inside: bool)
    requires IsMarker(marker) && marker in items && items[marker] == "" && Consistent(rest, items, inside)
    requires mark in items && IsMarker(mark) && mark == "[" + Read(kids, items) + "]"
    requires Read(Between(kids, marker), items) == Read(kids, items) && Consistent(Between(kids, marker), items, true)
    ensures var t := Node(mark, Between(kids, marker) + [Fresh(marker)]);
            && Consistent([Fresh(marker)] + ([t] + rest), items, inside)
            && Read([Fresh(marker)] + ([t] + rest), items) == items[mark] + Read(rest, items)
  {
    var inner := Between(kids, marker) + [Fresh(marker)];
    EndRead(Between(kids, marker), marker, items);
    OneConsistent(mark, inner, items, inside);
    PairRead(marker, Node(mark, inner), rest, items, inside);
    ConsRead(Node(mark, inner), rest, items, inside);
  }

  lemma EndRead(ts: seq<Tree>, marker: string, items: Items)
    requires IsMarker(marker) && marker in items && items[marker] == "" && Consistent(ts, items, true)
    ensures Read(ts + [Fresh(marker)], items) == Read(ts, items) && Consistent(ts + [Fresh(marker)], items, true)
  {
    FreshConsistent(marker, items, true);
    FreshRender(marker, items);
    Append(ts, [Fresh(marker)], items, true);
  }

  lemma PairRead(marker: string, t: Tree, rest: seq<Tree>, items: Items, inside: bool)
    requires IsMarker(marker) && marker in items && items[marker] == ""
    requires Consistent([t], items, inside) && Consistent(rest, items, inside)
    ensures Read([Fresh(marker)] + ([t] + rest), items) == Read([t] + rest, items)
    ensures Consistent([Fresh(marker)] + ([t] + rest), items, inside)
  {
    FreshConsistent(marker, items, inside);
    ConsRead(t, rest, items, inside);
    ConsRead(Fresh(marker), [t] + rest, items, inside);
  }

  /** Putting a marker wherever its original stands does not change what the text stands for. */
  lemma PutReads(ts: seq<Tree>, w: string, marker: string, items: Items)
    requires IsMarker(marker) && marker in items && items[marker] == w && Consistent(ts, items, false)
    ensures Read(Put(ts, w, marker), items) == Read(ts, items) && Consistent(Put(ts, w, marker), items, false)
  {
    if w == "" {
      BetweenReads(ts, marker, items, false);
      FreshConsistent(marker, items, false);
      FreshRender(marker, items);
      Append(Between(ts, marker), [Fresh(marker)], items, false);
    } else {
      SubReads(ts, w, marker, items, false);
    }
  }

  // ---------- A whole masking run ----------

  /** The trees render the text at hand and stand for the text `meaning`. */
  ghost predicate Stands(ts: seq<Tree>, p: Pass, meaning: string) {
    Render(ts) == p.text && Consistent(ts, p.items, false) && Read(ts, p.items) == meaning
  }

  /** No marker in the table holds a match that is still to be replaced. */
  ghost predicate SparesMatches(p: Pass, seen: Items, category: string, matches: seq<string>)
    decreases |matches|
  {
    matches == [] || (
      var m := matches[0];
      && (NoBracket(m) ==> forall k | k in p.items :: !Contains(k, m))
      && SparesMatches(AfterMatch(p, seen, category, m), SeenAfter(p, seen, category, m), category, matches[1..]))
  }

  ghost predicate SparesRules(p: Pass, rules: seq<Rule>)
    decreases |rules|
  {
    rules == [] || (
      var matches := rules[0].find(p.text);
      && SparesMatches(p, map[], rules[0].category, matches)
      && SparesRules(ApplyMatches(p, map[], rules[0].category, matches), rules[1..]))
  }

  /** Every match lies in none of the markers minted before it is replaced. */
  ghost predicate Spares(text: string, rules: seq<Rule>) {
    SparesRules(Pass(text, map[], map[]), rules)
  }

  /** No marker has been broken. */
  predicate Flat(ts: seq<Tree>) {
    forall t | t in ts && t.Node? :: AllLeaves(t.kids)
  }

  predicate AllLeaves(ts: seq<Tree>) {
    forall t | t in ts :: t.Leaf?
  }

  lemma {:induction false} Labels(ts: seq<Tree>, items: Items, inside: bool)
    requires Consistent(ts, items, inside)
    ensures forall t | t in ts && t.Node? :: t.mark in items && IsMarker(t.mark)
              && t.mark == "[" + Read(t.kids, items) + "]" && Consistent(t.kids, items, true)
    ensures forall t | t in ts && t.Leaf? && inside :: t.c != '[' && t.c != ']'
  {
    if ts != [] {
      Labels(ts[1..], items, inside);
    }
  }

  lemma {:induction false} LeavesRead(ts: seq<Tree>, items: Items)
    requires AllLeaves(ts)
    ensures Read(ts, items) == Render(ts) && |Render(ts)| == |ts|
    ensures forall i | 0 <= i < |ts| :: Render(ts)[i] == ts[i].c
  {
    if ts != [] {
      assert ts[0] in ts;
      LeavesRead(ts[1..], items);
      assert Render(ts) == [ts[0].c] + Render(ts[1..]);
      forall i | 0 <= i < |ts| ensures Render(ts)[i] == ts[i].c {
        if i > 0 {
          assert Render(ts)[i] == Render(ts[1..])[i - 1] && ts[1..][i - 1] == ts[i];
        }
      }
    }
  }

  lemma {:induction false} SubNothing(ts: seq<Tree>, w: string, marker: string)
    requires w != "" && IsMarker(marker) && AllLeaves(ts) && forall i | 0 <= i <= |ts| :: !Spells(ts[i..], w)
    ensures Sub(ts, w, marker) == ts
  {
    if ts != [] {
      assert ts[0..] == ts && ts[0] in ts;
      assert forall i | 0 <= i <= |ts[1..]| :: ts[1..][i..] == ts[i + 1..];
      SubNothing(ts[1..], w, marker);
      assert ts == [ts[0]] + ts[1..];
    }
  }

  lemma SpelledOccurs(mark: string, kids: seq<Tree>, w: string, i: nat)
    requires AllLeaves(kids) && mark == "[" + Render(kids) + "]" && i <= |kids| && Spells(kids[i..], w)
    ensures Contains(mark, w)
  {
    LeavesRead(kids, map[]);
    forall k | 0 <= k < |w| ensures mark[i + 1 + k] == w[k] {
      assert kids[i..][k] == kids[i + k];
    }
    assert mark[i + 1..i + 1 + |w|] == w;
    assert OccursAt(mark, w, i + 1);
  }

  lemma EmptyOccurs(s: string)
    ensures Contains(s, "")
  {
    assert OccursAt(s, "", 0);
  }

  lemma SparedNode(mark: string, kids: seq<Tree>, w: string, marker: string, items: Items)
    requires w != "" && IsMarker(marker) && AllLeaves(kids)
    requires mark == "[" + Read(kids, items) + "]" && !Contains(mark, w)
    ensures Sub(kids, w, marker) == kids
  {
    LeavesRead(kids, items);
    forall i | 0 <= i <= |kids| ensures !Spells(kids[i..], w) {
      if Spells(kids[i..], w) {
        SpelledOccurs(mark, kids, w, i);
      }
    }
    SubNothing(kids, w, marker);
  }

  lemma {:induction false} SubFlat(ts: seq<Tree>, w: string, marker: string, items: Items, inside: bool)
    requires w != "" && IsMarker(marker) && Consistent(ts, items, inside) && Flat(ts)
    requires forall k | k in items :: !Contains(k, w)
    ensures Flat(Sub(ts, w, marker))
    decreases |ts|
  {
    if ts == [] {
    } else if Spells(ts, w) {
      SpelledRead(ts, w, items, inside);
      assert forall t | t in ts[|w|..] :: t in ts;
      SubFlat(ts[|w|..], w, marker, items, inside);
    } else {
      assert ts[0] in ts && forall t | t in ts[1..] :: t in ts;
      SubFlat(ts[1..], w, marker, items, inside);
      if ts[0].Node? {
        SparedNode(ts[0].mark, ts[0].kids, w, marker, items);
      }
    }
  }

  lemma {:induction false} BetweenFlat(ts: seq<Tree>, marker: string)
    requires IsMarker(marker) && AllLeaves(ts)
    ensures Flat(Between(ts, marker))
  {
    if ts != [] {
      assert ts[0] in ts;
      BetweenFlat(ts[1..], marker);
    }
  }

  /** A match that lies in no marker breaks none. */
  lemma PutFlat(ts: seq<Tree>, w: string, marker: string, items: Items)
    requires IsMarker(marker) && Consistent(ts, items, false) && Flat(ts)
    requires forall k | k in items :: !Contains(k, w)
    ensures Flat(Put(ts, w, marker))
  {
    if w == "" {
      Labels(ts, items, false);
      forall t | t in ts ensures t.Leaf? {
        if t.Node? {
          EmptyOccurs(t.mark);
        }
      }
      BetweenFlat(ts, marker);
    } else {
      SubFlat(ts, w, marker, items, false);
    }
  }

  lemma {:induction false} Grows(ts: seq<Tree>, small: Items, large: Items, inside: bool)
    requires Consistent(ts, small, inside) && Extends(small, large)
    ensures Consistent(ts, large, inside) && Read(ts, large) == Read(ts, small)
    decreases ts
  {
    if ts != [] {
      Grows(ts[1..], small, large, inside);
      if ts[0].Node? {
        Grows(ts[0].kids, small, large, true);
      }
    }
  }

  lemma PutStands(p: Pass, q: Pass, ts: seq<Tree>, m: string, marker: string, meaning: string)
    requires Stands(ts, p, meaning) && Extends(p.items, q.items) && NoBracket(m) && IsMarker(marker)
    requires marker in q.items && q.items[marker] == m && q.text == GoReplaceAll(p.text, m, marker)
    ensures Stands(Put(ts, m, marker), q, meaning)
    ensures Flat(ts) && (forall k | k in p.items :: !Contains(k, m)) ==> Flat(Put(ts, m, marker))
  {
    Grows(ts, p.items, q.items, false);
    PutRenders(ts, m, marker);
    PutReads(ts, m, marker, q.items);
    if Flat(ts) && forall k | k in p.items :: !Contains(k, m) {
      PutFlat(ts, m, marker, p.items);
    }
  }

  lemma MatchStands(p: Pass, seen: Items, category: string, m: string, ts: seq<Tree>, meaning: string)
    returns (ts': seq<Tree>)
    requires Ledger(p) && NoBracket(category) && Stands(ts, p, meaning) && Remembers(seen, p.items)
    ensures Stands(ts', AfterMatch(p, seen, category, m), meaning)
    ensures Flat(ts) && (NoBracket(m) ==> forall k | k in p.items :: !Contains(k, m)) ==> Flat(ts')
  {
    ts' := ts;
    if NoBracket(m) {
      var q, marker := AfterMatch(p, seen, category, m), SeenAfter(p, seen, category, m)[m];
      MatchExtends(p, seen, category, m);
      assert IsMarker(marker);
      ts' := Put(ts, m, marker);
      PutStands(p, q, ts, m, marker, meaning);
    }
  }

  lemma {:induction false} MatchesStand(p: Pass, seen: Items, category: string, matches: seq<string>, ts: seq<Tree>,
                                        meaning: string)
    returns (ts': seq<Tree>)
    requires Ledger(p) && NoBracket(category) && Stands(ts, p, meaning) && Remembers(seen, p.items)
    ensures var q := ApplyMatches(p, seen, category, matches); Ledger(q) && Stands(ts', q, meaning)
    ensures Flat(ts) && SparesMatches(p, seen, category, matches) ==> Flat(ts')
    decreases |matches|
  {
    if matches == [] {
      ts' := ts;
    } else {
      var next := MatchStands(p, seen, category, matches[0], ts, meaning);
      MatchExtends(p, seen, category, matches[0]);
      ts' := MatchesStand(AfterMatch(p, seen, category, matches[0]), SeenAfter(p, seen, category, matches[0]), category,
                          matches[1..], next, meaning);
    }
  }

  lemma {:induction false} RulesStand(p: Pass, rules: seq<Rule>, ts: seq<Tree>, meaning: string)
    returns (ts': seq<Tree>)
    requires Ledger(p) && Categorised(rules) && Stands(ts, p, meaning)
    ensures Ledger(ApplyRules(p, rules)) && Stands(ts', ApplyRules(p, rules), meaning)
    ensures Flat(ts) && SparesRules(p, rules) ==> Flat(ts')
    decreases |rules|
  {
    if rules == [] {
      ts' := ts;
    } else {
      var matches := rules[0].find(p.text);
      var next := MatchesStand(p, map[], rules[0].category, matches, ts, meaning);
      ts' := RulesStand(ApplyMatches(p, map[], rules[0].category, matches), rules[1..], next, meaning);
    }
  }

  lemma {:induction false} PlainConsistent(s: string, items: Items)
    ensures Consistent(Leaves(s), items, false)
    decreases |s|
  {
    if s != "" {
      assert Leaves(s)[1..] == Leaves(s[1..]);
      PlainConsistent(s[1..], items);
    }
  }

  /** Whatever the rules and the text: the masked text is a text with markers put into it, possibly into markers, that
      stands for the original text; and no marker is broken if every match spares the markers before it. */
  lemma MaskStands(text: string, rules: seq<Rule>) returns (ts: seq<Tree>)
    requires Categorised(rules)
    ensures Ledger(Mask(text, rules)) && Stands(ts, Mask(text, rules), text)
    ensures Spares(text, rules) ==> Flat(ts)
  {
    LeavesRender(text, map[]);
    PlainConsistent(text, map[]);
    ts := RulesStand(Pass(text, map[], map[]), rules, Leaves(text), text);
  }
}

/** Restoring over an encoded body: the escaping of strings, and what surrounds them, included. */
module EncodedBodies {
  import opened Json
  import opened Replace
  import opened Desensitize
  import opened Restoring
  import opened Bodies
  import LostTexts
  import Nesting

  // ---------- The encoder ----------

  /** How JSON is written: the escape of each character, the order of an object's members, and the text of a value that
      holds no string the walk could mask. */
  datatype Layout = Layout(escape: char -> string, sorted: set<string> -> seq<string>, raw: Value -> string) {
    ghost predicate Lawful() {
      && (forall c :: escape(c) == [c] || |escape(c)| > 1)
      && (forall c :: Opens(escape(c)) == if c == '[' then 1 else 0)
      && (forall keys, k :: k in sorted(keys) <==> k in keys)
    }

    function Escape(s: string): string {
      if s == "" then "" else escape(s[0]) + Escape(s[1..])
    }
  }

  /** A stretch of an encoded body: as it stands, or a string that the walk masks. */
  datatype Piece = Fixed(s: string) | Walked(s: string)

  function Pieces(l: Layout, v: Value): seq<Piece>
    decreases v, 1, 0
  {
    match v
    case Str(s) => [Fixed("\""), Walked(s), Fixed("\"")]
    case Obj(fields) => [Fixed("{")] + Members(l, v, l.sorted(fields.Keys)) + [Fixed("}")]
    case Arr(items) => [Fixed("[")] + Elements(l, v, |items|) + [Fixed("]")]
    case _ => [Fixed(l.raw(v))]
  }

  function Members(l: Layout, v: Value, keys: seq<string>): seq<Piece>
    requires v.Obj?
    decreases v, 0, |keys|
  {
    if keys == [] then []
    else
      [Fixed("\"" + l.Escape(keys[0]) + "\":")]
      + (if keys[0] in v.fields then Pieces(l, v.fields[keys[0]]) else [])
      + [Fixed(if |keys| > 1 then "," else "")]
      + Members(l, v, keys[1..])
  }

  /** The first `n` elements; an array inside the array is written as it stands. */
  function Elements(l: Layout, v: Value, n: nat): seq<Piece>
    requires v.Arr? && n <= |v.items|
    decreases v, 0, n
  {
    if n == 0 then []
    else
      Elements(l, v, n - 1)
      + [Fixed(if n > 1 then "," else "")]
      + if v.items[n - 1].Arr? then [Fixed(l.raw(v.items[n - 1]))] else Pieces(l, v.items[n - 1])
  }

  function Shown(l: Layout, p: Piece): string {
    match p case Fixed(s) => s case Walked(s) => l.Escape(s)
  }

  function Encoded(l: Layout, ps: seq<Piece>): string {
    if ps == [] then "" else Shown(l, ps[0]) + Encoded(l, ps[1..])
  }

  function Encode(l: Layout, v: Value): string {
    Encoded(l, Pieces(l, v))
  }

  // ---------- Masking piece by piece ----------

  function MaskPiece(p: Piece, rules: seq<Rule>): Piece {
    match p case Fixed(_) => p case Walked(s) => Walked(Mask(s, rules).text)
  }

  function MaskPieces(ps: seq<Piece>, rules: seq<Rule>): seq<Piece> {
    seq(|ps|, i requires 0 <= i < |ps| => MaskPiece(ps[i], rules))
  }

  lemma MaskPiecesAppend(a: seq<Piece>, b: seq<Piece>, rules: seq<Rule>)
    ensures MaskPieces(a + b, rules) == MaskPieces(a, rules) + MaskPieces(b, rules)
  {
  }

  lemma MaskFixed(s: string, rules: seq<Rule>)
    ensures MaskPieces([Fixed(s)], rules) == [Fixed(s)]
  {
  }

  /** Masking changes the strings of the encoding and nothing around them. */
  lemma {:induction false} PiecesOfMasked(l: Layout, v: Value, rules: seq<Rule>)
    ensures Pieces(l, Masked(v, rules)) == MaskPieces(Pieces(l, v), rules)
    decreases v, 1, 0
  {
    match v {
      case Str(s) =>
        assert MaskPieces(Pieces(l, v), rules) == Pieces(l, Masked(v, rules));
      case Obj(fields) =>
        var keys := l.sorted(fields.Keys);
        assert Masked(v, rules).fields.Keys == fields.Keys;
        MembersOfMasked(l, v, keys, rules);
        Between("{", Members(l, v, keys), "}", rules);
      case Arr(items) =>
        ElementsOfMasked(l, v, |items|, rules);
        Between("[", Elements(l, v, |items|), "]", rules);
      case _ =>
        MaskFixed(l.raw(v), rules);
    }
  }

  lemma Between(a: string, ps: seq<Piece>, b: string, rules: seq<Rule>)
    ensures MaskPieces([Fixed(a)] + ps + [Fixed(b)], rules) == [Fixed(a)] + MaskPieces(ps, rules) + [Fixed(b)]
  {
  }

  lemma {:induction false} MembersOfMasked(l: Layout, v: Value, keys: seq<string>, rules: seq<Rule>)
    requires v.Obj?
    ensures Members(l, Masked(v, rules), keys) == MaskPieces(Members(l, v, keys), rules)
    decreases v, 0, |keys|
  {
    if keys != [] {
      var name := [Fixed("\"" + l.Escape(keys[0]) + "\":")];
      var value := if keys[0] in v.fields then Pieces(l, v.fields[keys[0]]) else [];
      var comma := [Fixed(if |keys| > 1 then "," else "")];
      if keys[0] in v.fields {
        PiecesOfMasked(l, v.fields[keys[0]], rules);
      }
      MembersOfMasked(l, v, keys[1..], rules);
      MaskPiecesAppend(name, value, rules);
      MaskPiecesAppend(name + value, comma, rules);
      MaskPiecesAppend(name + value + comma, Members(l, v, keys[1..]), rules);
    }
  }

  lemma {:induction false} ElementsOfMasked(l: Layout, v: Value, n: nat, rules: seq<Rule>)
    requires v.Arr? && n <= |v.items|
    ensures Elements(l, Masked(v, rules), n) == MaskPieces(Elements(l, v, n), rules)
    decreases v, 0, n
  {
    if n > 0 {
      var front := Elements(l, v, n - 1);
      var comma := [Fixed(if n > 1 then "," else "")];
      var item := v.items[n - 1];
      ElementsOfMasked(l, v, n - 1, rules);
      MaskPiecesAppend(front, comma, rules);
      if item.Arr? {
        MaskFixed(l.raw(item), rules);
        MaskPiecesAppend(front + comma, [Fixed(l.raw(item))], rules);
      } else {
        PiecesOfMasked(l, item, rules);
        MaskedIsNoArray(item, rules);
        MaskPiecesAppend(front + comma, Pieces(l, item), rules);
      }
    }
  }

  lemma MaskedIsNoArray(v: Value, rules: seq<Rule>)
    requires !v.Arr?
    ensures !Masked(v, rules).Arr?
  {
  }

  /** The strings in the encoding are those the walk reaches. */
  lemma {:induction false} WalkedIsReached(l: Layout, v: Value, s: string)
    requires l.Lawful() && Walked(s) in Pieces(l, v)
    ensures Reaches(v, s)
    decreases v, 1, 0
  {
    match v {
      case Str(_) =>
      case Obj(fields) =>
        MemberIsReached(l, v, l.sorted(fields.Keys), s);
      case Arr(items) =>
        ElementIsReached(l, v, |items|, s);
      case _ =>
    }
  }

  lemma {:induction false} MemberIsReached(l: Layout, v: Value, keys: seq<string>, s: string)
    requires l.Lawful() && v.Obj? && Walked(s) in Members(l, v, keys)
    ensures Reaches(v, s)
    decreases v, 0, |keys|
  {
    if keys != [] {
      if keys[0] in v.fields && Walked(s) in Pieces(l, v.fields[keys[0]]) {
        WalkedIsReached(l, v.fields[keys[0]], s);
      } else {
        MemberIsReached(l, v, keys[1..], s);
      }
    }
  }

  lemma {:induction false} ElementIsReached(l: Layout, v: Value, n: nat, s: string)
    requires l.Lawful() && v.Arr? && n <= |v.items| && Walked(s) in Elements(l, v, n)
    ensures Reaches(v, s)
    decreases v, 0, n
  {
    if n > 0 {
      if !v.items[n - 1].Arr? && Walked(s) in Pieces(l, v.items[n - 1]) {
        WalkedIsReached(l, v.items[n - 1], s);
      } else {
        ElementIsReached(l, v, n - 1, s);
      }
    }
  }

  // ---------- Escaping ----------

  lemma {:induction false} EscapeGrows(l: Layout, s: string)
    requires l.Lawful()
    ensures |l.Escape(s)| >= |s| && (l.Escape(s) == s <==> |l.Escape(s)| == |s|)
    ensures Opens(l.Escape(s)) == Opens(s)
  {
    if s != "" {
      EscapeGrows(l, s[1..]);
      OpensAppend(l.escape(s[0]), l.Escape(s[1..]));
      assert s == [s[0]] + s[1..];
      if l.Escape(s) == s && |l.escape(s[0])| == 1 {
        assert l.Escape(s)[1..] == l.Escape(s[1..]);
      }
    }
  }

  lemma {:induction false} EscapeAppend(l: Layout, s: string, t: string)
    ensures l.Escape(s + t) == l.Escape(s) + l.Escape(t)
  {
    if s == "" {
      assert s + t == t && "" + l.Escape(t) == l.Escape(t);
    } else {
      assert (s + t)[1..] == s[1..] + t;
      EscapeAppend(l, s[1..], t);
      Assoc(l.escape(s[0]), l.Escape(s[1..]), l.Escape(t));
    }
  }

  /** Escaping what stands between the markers. */
  function EscapeTokens(l: Layout, ts: seq<Token>): seq<Token> {
    if ts == [] then []
    else (match ts[0] case Plain(c) => Chars(l.escape(c)) case Mark(m) => [ts[0]]) + EscapeTokens(l, ts[1..])
  }

  ghost predicate MarkersPlain(l: Layout, items: map<string, string>) {
    forall k | k in items :: l.Escape(k) == k
  }

  /** Every marker among the tokens stands for a text that needs no escaping. */
  ghost predicate PlainMarks(l: Layout, ts: seq<Token>, items: map<string, string>)
    requires MarksIn(ts, items)
  {
    forall t | t in ts && t.Mark? :: l.Escape(items[t.m]) == items[t.m]
  }

  /** The tokens of an encoded masked text: they show `masked` and stand for `whole`, but that originals stand there
      unescaped. */
  ghost predicate StandsFor(l: Layout, ts: seq<Token>, items: map<string, string>, masked: string, whole: string) {
    && MarksIn(ts, items) && Render(ts) == masked
    && Opens(Expand(ts, items)) == Opens(whole) && |Expand(ts, items)| <= |whole|
    && (if PlainMarks(l, ts, items) then Expand(ts, items) == whole else |Expand(ts, items)| < |whole|)
  }

  lemma StandsAppend(l: Layout, s: seq<Token>, t: seq<Token>, items: map<string, string>,
                     masked: string, masked': string, whole: string, whole': string)
    requires StandsFor(l, s, items, masked, whole) && StandsFor(l, t, items, masked', whole')
    ensures StandsFor(l, s + t, items, masked + masked', whole + whole')
  {
    RenderAppend(s, t);
    ExpandAppend(s, t, items);
    OpensAppend(Expand(s, items), Expand(t, items));
    OpensAppend(whole, whole');
    PlainMarksAppend(l, s, t, items);
  }

  lemma PlainMarksAppend(l: Layout, s: seq<Token>, t: seq<Token>, items: map<string, string>)
    requires MarksIn(s, items) && MarksIn(t, items) && MarksIn(s + t, items)
    ensures PlainMarks(l, s + t, items) <==> PlainMarks(l, s, items) && PlainMarks(l, t, items)
  {
    assert forall x | x in s :: x in s + t;
    assert forall x | x in t :: x in s + t;
  }

  lemma CharsStand(l: Layout, s: string, items: map<string, string>)
    ensures StandsFor(l, Chars(s), items, s, s)
  {
    CharsRender(s, items);
    CharsPlain(s);
  }

  lemma OneMark(m: string, items: map<string, string>)
    requires m in items
    ensures Render([Mark(m)]) == m && Expand([Mark(m)], items) == items[m]
  {
    var ts, o := [Mark(m)], items[m];
    assert ts[1..] == [] && Render([]) == "" && Expand([], items) == "";
    assert m + "" == m;
    assert o + "" == o;
  }

  lemma MarkStands(l: Layout, m: string, items: map<string, string>)
    requires l.Lawful() && Formed(items) && m in items && l.Escape(m) == m
    ensures StandsFor(l, [Mark(m)], items, l.Escape(m), l.Escape(items[m]))
  {
    var ts := [Mark(m)];
    OneMark(m, items);
    EscapeGrows(l, items[m]);
    assert Mark(m) in ts;
  }

  lemma {:induction false} EscapedStands(l: Layout, ts: seq<Token>, items: map<string, string>)
    requires l.Lawful() && Formed(items) && MarkersPlain(l, items) && MarksIn(ts, items)
    ensures StandsFor(l, EscapeTokens(l, ts), items, l.Escape(Render(ts)), l.Escape(Expand(ts, items)))
  {
    if ts == [] {
    } else {
      assert ts[0] in ts && forall t | t in ts[1..] :: t in ts;
      EscapedStands(l, ts[1..], items);
      var rest, shown, meant := EscapeTokens(l, ts[1..]), Render(ts[1..]), Expand(ts[1..], items);
      match ts[0] {
        case Plain(c) =>
          CharsStand(l, l.escape(c), items);
          EscapeAppend(l, [c], shown);
          EscapeAppend(l, [c], meant);
          EscapeOne(l, c);
          StandsAppend(l, Chars(l.escape(c)), rest, items, l.escape(c), l.Escape(shown), l.escape(c), l.Escape(meant));
        case Mark(m) =>
          MarkStands(l, m, items);
          EscapeAppend(l, m, shown);
          EscapeAppend(l, items[m], meant);
          StandsAppend(l, [Mark(m)], rest, items, l.Escape(m), l.Escape(shown), l.Escape(items[m]), l.Escape(meant));
      }
    }
  }

  lemma EscapeOne(l: Layout, c: char)
    ensures l.Escape([c]) == l.escape(c)
  {
    assert [c][1..] == "" && l.escape(c) + "" == l.escape(c);
  }

  // ---------- The body as tokens ----------

  /** What masking a string needs in order to come back. */
  ghost predicate Fits(s: string, rules: seq<Rule>, items: map<string, string>) {
    Nesting.Spares(s, rules) && Extends(Mask(s, rules).items, items)
  }

  lemma {:induction false} PiecesStand(l: Layout, ps: seq<Piece>, rules: seq<Rule>, items: map<string, string>)
    returns (ts: seq<Token>)
    requires l.Lawful() && Categorised(rules) && Formed(items) && MarkersPlain(l, items)
    requires forall p | p in ps && p.Walked? :: Fits(p.s, rules, items)
    ensures StandsFor(l, ts, items, Encoded(l, MaskPieces(ps, rules)), Encoded(l, ps))
  {
    if ps == [] {
      ts := [];
    } else {
      assert ps[0] in ps && forall p | p in ps[1..] :: p in ps;
      var rest := PiecesStand(l, ps[1..], rules, items);
      var first := PieceStands(l, ps[0], rules, items);
      ts := first + rest;
      assert MaskPieces(ps, rules)[1..] == MaskPieces(ps[1..], rules);
      StandsAppend(l, first, rest, items, Shown(l, MaskPiece(ps[0], rules)),
                   Encoded(l, MaskPieces(ps[1..], rules)), Shown(l, ps[0]), Encoded(l, ps[1..]));
    }
  }

  lemma PieceStands(l: Layout, p: Piece, rules: seq<Rule>, items: map<string, string>) returns (ts: seq<Token>)
    requires l.Lawful() && Categorised(rules) && Formed(items) && MarkersPlain(l, items)
    requires p.Walked? ==> Fits(p.s, rules, items)
    ensures StandsFor(l, ts, items, Shown(l, MaskPiece(p, rules)), Shown(l, p))
  {
    match p {
      case Fixed(s) =>
        ts := Chars(s);
        CharsStand(l, s, items);
      case Walked(s) =>
        var inner := MaskedTokens(s, rules, items);
        ts := EscapeTokens(l, inner);
        EscapedStands(l, inner, items);
    }
  }

  // ---------- Markers that are shown ----------

  lemma MarkerHead(m: string, x: string, rest: string)
    requires IsMarker(m) && IsMarker(x) && m <= x + rest
    ensures m == x
  {
    MarkersInFront(m, x, rest);
  }

  lemma MarkerInside(m: string, x: string, rest: string, i: int)
    requires IsMarker(m) && IsMarker(x) && OccursAt(x + rest, m, i) && 0 < i
    ensures Contains(rest, m)
  {
    var s := x + rest;
    assert s[i] == s[i..i + |m|][0] == '[';
    OpensOnce(x);
    OccursInTail(x, rest, m, i);
  }

  lemma OpensOnce(x: string)
    requires IsMarker(x)
    ensures forall k | 0 < k < |x| :: x[k] != '['
  {
    forall k | 0 < k < |x| ensures x[k] != '[' {
      if k < |x| - 1 {
        assert x[1..|x| - 1][k - 1] == x[k];
      }
    }
  }

  /** A marker that is shown was put there, or the text it stands in spells it. */
  lemma {:induction false} ShownMarker(ts: seq<Token>, m: string, items: map<string, string>)
    requires MarksIn(ts, items) && Formed(items) && m in items && Contains(Render(ts), m)
    ensures Mark(m) in ts || Contains(Expand(ts, items), m)
  {
    var i :| OccursAt(Render(ts), m, i);
    if ts != [] {
      assert ts[0] in ts && forall t | t in ts[1..] :: t in ts;
      var rest := Render(ts[1..]);
      match ts[0] {
        case Plain(c) =>
          if i == 0 {
            assert m <= Render(ts);
            SpelledMarker(ts, m, items);
          } else {
            OccursInTail([c], rest, m, i);
            ShownMarker(ts[1..], m, items);
          }
          SpelledOccurs(ts, m, items);
        case Mark(x) =>
          if i == 0 {
            MarkerHead(m, x, rest);
          } else {
            MarkerInside(m, x, rest, i);
            ShownMarker(ts[1..], m, items);
            SpelledOccurs(ts, m, items);
          }
      }
    }
  }

  lemma {:induction false} PutMarker(ts: seq<Token>, m: string)
    requires Mark(m) in ts
    ensures Contains(Render(ts), m)
  {
    if ts[0] == Mark(m) {
      assert OccursAt(Render(ts), m, 0);
    } else {
      PutMarker(ts[1..], m);
      ContainsBehind(match ts[0] case Plain(c) => [c] case Mark(x) => x, Render(ts[1..]), m);
    }
  }

  // ---------- The theorem ----------

  /** Every marker that the encoded masked body shows stands for a text without characters to escape. */
  ghost predicate ShowsPlain(l: Layout, masked: string, items: map<string, string>) {
    forall k | k in items && Contains(masked, k) :: l.Escape(items[k]) == items[k]
  }

  ghost predicate Spelled(whole: string, items: map<string, string>) {
    exists k | k in items :: Contains(whole, k)
  }

  ghost predicate SparesAll(body: Value, rules: seq<Rule>) {
    forall s | Reaches(body, s) :: Nesting.Spares(s, rules)
  }

  lemma ShowsPlainMarks(l: Layout, ts: seq<Token>, items: map<string, string>)
    requires MarksIn(ts, items) && ShowsPlain(l, Render(ts), items)
    ensures PlainMarks(l, ts, items)
  {
    forall t | t in ts && t.Mark? ensures l.Escape(items[t.m]) == items[t.m] {
      PutMarker(ts, t.m);
    }
  }

  lemma PlainMarksShow(l: Layout, ts: seq<Token>, items: map<string, string>)
    requires MarksIn(ts, items) && Formed(items) && PlainMarks(l, ts, items) && !Spelled(Expand(ts, items), items)
    ensures ShowsPlain(l, Render(ts), items)
  {
    forall k | k in items && Contains(Render(ts), k) ensures l.Escape(items[k]) == items[k] {
      ShownMarker(ts, k, items);
    }
  }

  lemma RestoreStanding(l: Layout, ts: seq<Token>, items: map<string, string>, order: seq<string>,
                        masked: string, whole: string)
    requires Formed(items) && Traverses(order, items) && StandsFor(l, ts, items, masked, whole)
    ensures ShowsPlain(l, masked, items) && !Spelled(whole, items) ==> RestoreInOrder(masked, items, order) == whole
    ensures Separate(items) && RestoreInOrder(masked, items, order) == whole
            ==> ShowsPlain(l, masked, items) && !Spelled(whole, items)
  {
    if ShowsPlain(l, masked, items) && !Spelled(whole, items) {
      ShowsPlainMarks(l, ts, items);
      RestoreAllFresh(ts, items, order);
    }
    if Separate(items) && RestoreInOrder(masked, items, order) == whole {
      RestoreRun(ts, items, order);
      PlainMarksShow(l, ts, items);
    }
  }

  /** A masked body, encoded, passed back and restored in any order, is the encoding of the body if every match spared
      the markers before it, no marker was given two originals, no marker that is shown stands for a text that needs
      escaping, and the encoding spells no marker. If no original lies inside a marker, the last two are necessary. */
  lemma RestoreInvertsBody(l: Layout, body: Value, rules: seq<Rule>, walked: seq<string>, order: seq<string>)
    requires l.Lawful() && Categorised(rules) && NoClash(walked, rules)
    requires forall s | Reaches(body, s) :: s in walked
    requires Traverses(order, BodyItems(walked, rules)) && MarkersPlain(l, BodyItems(walked, rules))
    ensures var items := BodyItems(walked, rules);
            var masked, whole := Encode(l, Masked(body, rules)), Encode(l, body);
            var comesBack := RestoreInOrder(masked, items, order) == whole;
            && (SparesAll(body, rules) && ShowsPlain(l, masked, items) && !Spelled(whole, items) ==> comesBack)
            && (Separate(items) ==> (comesBack <==> ShowsPlain(l, masked, items) && !Spelled(whole, items)))
  {
    var items := BodyItems(walked, rules);
    BodyIsMinted(walked, rules);
    PiecesOfMasked(l, body, rules);
    if Separate(items) || SparesAll(body, rules) {
      forall p | p in Pieces(l, body) && p.Walked? ensures Fits(p.s, rules, items) {
        WalkedIsReached(l, body, p.s);
        FitsWalked(p.s, rules, walked);
      }
      var ts := PiecesStand(l, Pieces(l, body), rules, items);
      RestoreStanding(l, ts, items, order, Encode(l, Masked(body, rules)), Encode(l, body));
    }
  }

  lemma FitsWalked(s: string, rules: seq<Rule>, walked: seq<string>)
    requires Categorised(rules) && NoClash(walked, rules) && s in walked
    requires Separate(BodyItems(walked, rules)) || Nesting.Spares(s, rules)
    ensures Fits(s, rules, BodyItems(walked, rules))
  {
    var i :| 0 <= i < |walked| && walked[i] == s;
    if !Nesting.Spares(s, rules) {
      SeparateRules(Pass(s, map[], map[]), rules, BodyItems(walked, rules));
    }
  }

  lemma EncodedCons(l: Layout, p: Piece, rest: seq<Piece>)
    ensures Encoded(l, [p] + rest) == Shown(l, p) + Encoded(l, rest)
  {
    assert ([p] + rest)[1..] == rest;
  }

  function Quoted(s: string): string {
    "\"" + (s + "\"")
  }

  lemma QuotedString(l: Layout, s: string)
    ensures Encode(l, Str(s)) == Quoted(l.Escape(s))
  {
    var quote := Fixed("\"");
    assert Pieces(l, Str(s)) == [quote] + ([Walked(s)] + ([quote] + []));
    EncodedCons(l, quote, [Walked(s)] + ([quote] + []));
    EncodedCons(l, Walked(s), [quote] + []);
    EncodedCons(l, quote, []);
    assert "\"" + "" == "\"";
  }

  lemma QuotedContains(m: string)
    ensures Contains(Quoted(m), m)
  {
    assert OccursAt(Quoted(m), m, 1);
  }

  lemma OneOriginal(o: string, category: string)
    requires o != "" && NoBracket(o) && NoBracket(category)
    ensures var rules, m := [LostTexts.WholeText(category)], Marker(category, 1);
            && BodyItems([o], rules) == map[m := o] && NoClash([o], rules) && Categorised(rules)
            && Masked(Str(o), rules) == Str(m)
  {
    var rules := [LostTexts.WholeText(category)];
    LostTexts.MaskWhole(o, category);
    BodyItemsSnoc([], o, rules);
    assert [] + [o] == [o];
  }

  /** An original with a character to escape comes back without its escape: the restored body is no longer what the
      encoder wrote. */
  lemma EscapedOriginalComesBackRaw(l: Layout, o: string, category: string)
    requires l.Lawful() && o != "" && NoBracket(o) && NoBracket(category) && l.Escape(o) != o
    requires l.Escape(Marker(category, 1)) == Marker(category, 1) && !Contains(Marker(category, 1), o)
    ensures var body, rules, m := Str(o), [LostTexts.WholeText(category)], Marker(category, 1);
            && BodyItems([o], rules) == map[m := o] && Encode(l, Masked(body, rules)) == Quoted(m)
            && RestoreInOrder(Quoted(m), map[m := o], [m]) != Encode(l, body) == Quoted(l.Escape(o))
  {
    var rules, m := [LostTexts.WholeText(category)], Marker(category, 1);
    OneOriginal(o, category);
    QuotedString(l, o);
    QuotedString(l, m);
    QuotedContains(m);
    RestoreInvertsBody(l, Str(o), rules, [o], [m]);
  }
}

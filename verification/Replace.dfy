/** Global substring replacement, as the gateway's own loop computes it. */
module Replace {

  /** Leftmost, non-overlapping replacement of every occurrence of `from` by `to`. */
  function ReplaceAll(s: string, from: string, to: string): string
    requires |from| > 0
  {
    if s == "" then ""
    else if from <= s then to + ReplaceAll(s[|from|..], from, to)
    else [s[0]] + ReplaceAll(s[1..], from, to)
  }

  /** `w` occurs in `s` at position `i`. */
  predicate OccursAt(s: string, w: string, i: int) {
    0 <= i && i + |w| <= |s| && s[i..i + |w|] == w
  }

  ghost predicate Contains(s: string, w: string) {
    exists i :: OccursAt(s, w, i)
  }

  datatype Scan = Scan(i: nat, result: string)

  /** One round of the scanning loop, for every placeholder. */
  function Round(s: string, placeholder: string, value: string, scan: Scan): Scan {
    if scan.i >= |s| then scan
    else if scan.i + |placeholder| <= |s| && s[scan.i..scan.i + |placeholder|] == placeholder then
      Scan(scan.i + |placeholder|, scan.result + value)
    else Scan(scan.i + 1, scan.result + [s[scan.i]])
  }

  function After(s: string, placeholder: string, value: string, rounds: nat): Scan {
    if rounds == 0 then Scan(0, "") else Round(s, placeholder, value, After(s, placeholder, value, rounds - 1))
  }

  lemma Assoc(a: string, b: string, c: string)
    ensures a + (b + c) == a + b + c
  {
  }

  lemma RoundReplaces(s: string, from: string, to: string, scan: Scan)
    requires |from| > 0 && scan.i <= |s|
    ensures var next := Round(s, from, to, scan);
            && next.i <= |s|
            && next.result + ReplaceAll(s[next.i..], from, to) == scan.result + ReplaceAll(s[scan.i..], from, to)
  {
    var i, rest := scan.i, s[scan.i..];
    if i < |s| {
      if i + |from| <= |s| && s[i..i + |from|] == from {
        assert from == rest[..|from|] && rest[|from|..] == s[i + |from|..];
        Assoc(scan.result, to, ReplaceAll(s[i + |from|..], from, to));
      } else {
        assert i + |from| <= |s| ==> s[i..i + |from|] == rest[..|from|];
        assert rest[1..] == s[i + 1..];
        Assoc(scan.result, [s[i]], ReplaceAll(s[i + 1..], from, to));
      }
    }
  }

  lemma {:induction false} RoundsReplace(s: string, from: string, to: string, rounds: nat)
    requires |from| > 0
    ensures var scan := After(s, from, to, rounds);
            scan.i <= |s| && scan.result + ReplaceAll(s[scan.i..], from, to) == ReplaceAll(s, from, to)
  {
    if rounds == 0 {
      assert s[0..] == s && "" + ReplaceAll(s, from, to) == ReplaceAll(s, from, to);
    } else {
      RoundsReplace(s, from, to, rounds - 1);
      RoundReplaces(s, from, to, After(s, from, to, rounds - 1));
    }
  }

  lemma RoundsEnd(s: string, from: string, to: string, rounds: nat)
    requires |from| > 0 && After(s, from, to, rounds).i == |s|
    ensures After(s, from, to, rounds).result == ReplaceAll(s, from, to)
  {
    RoundsReplace(s, from, to, rounds);
    assert s[|s|..] == "";
  }

  /** The scanning loop: index, byte comparison, append. */
  method ReplacePlaceholder(s: string, placeholder: string, value: string) returns (result: string)
    requires placeholder != "" || s == ""
    ensures result == if s == "" then "" else ReplaceAll(s, placeholder, value)
    ensures exists n :: After(s, placeholder, value, n) == Scan(|s|, result)
  {
    result := "";
    var i := 0;
    ghost var n := 0;
    while i < |s|
      invariant 0 <= i <= |s| && (s == "" ==> result == "")
      invariant After(s, placeholder, value, n) == Scan(i, result)
    {
      if i + |placeholder| <= |s| && s[i..i + |placeholder|] == placeholder {
        result := result + value;
        i := i + |placeholder|;
      } else {
        result := result + [s[i]];
        i := i + 1;
      }
      n := n + 1;
    }
    if s != "" {
      RoundsEnd(s, placeholder, value, n);
    }
  }

  lemma {:induction false} RoundsAdvance(s: string, placeholder: string, value: string, rounds: nat)
    ensures placeholder != "" ==> After(s, placeholder, value, rounds).i >= if rounds < |s| then rounds else |s|
    ensures placeholder == "" ==> After(s, placeholder, value, rounds).i == 0
  {
    if rounds > 0 {
      RoundsAdvance(s, placeholder, value, rounds - 1);
    }
  }

  /** The loop ends for every placeholder but the empty one, which it finds again and again where it stands. */
  lemma ScanEnds(s: string, placeholder: string, value: string)
    ensures (exists n :: After(s, placeholder, value, n).i >= |s|) <==> placeholder != "" || s == ""
  {
    if placeholder != "" || s == "" {
      RoundsAdvance(s, placeholder, value, |s|);
      assert After(s, placeholder, value, |s|).i >= |s|;
    } else {
      forall n: nat ensures After(s, placeholder, value, n).i < |s| {
        RoundsAdvance(s, placeholder, value, n);
      }
    }
  }

  /** The pieces of `s` between the occurrences that `ReplaceAll` replaces. */
  function Split(s: string, sep: string): (pieces: seq<string>)
    requires |sep| > 0
    ensures |pieces| > 0
  {
    if s == "" then [""]
    else if sep <= s then [""] + Split(s[|sep|..], sep)
    else
      var rest := Split(s[1..], sep);
      [[s[0]] + rest[0]] + rest[1..]
  }

  function Join(pieces: seq<string>, sep: string): string
    requires |pieces| > 0
  {
    if |pieces| == 1 then pieces[0] else pieces[0] + sep + Join(pieces[1..], sep)
  }

  /** Replacement is cutting at `from` and gluing with `to`; no piece still holds `from`. */
  lemma ReplaceIsSplitJoin(s: string, from: string, to: string)
    requires |from| > 0
    ensures ReplaceAll(s, from, to) == Join(Split(s, from), to)
    ensures Join(Split(s, from), from) == s
    ensures forall p | p in Split(s, from) :: !Contains(p, from)
  {
    JoinSplit(s, from, to);
    JoinSplit(s, from, from);
    ReplaceBySelf(s, from);
    PiecesAreFree(s, from);
  }

  lemma {:induction false} ReplaceBySelf(s: string, from: string)
    requires |from| > 0
    ensures ReplaceAll(s, from, from) == s
  {
    if s == "" {
    } else if from <= s {
      ReplaceBySelf(s[|from|..], from);
    } else {
      ReplaceBySelf(s[1..], from);
    }
  }

  lemma {:induction false} JoinSplit(s: string, from: string, to: string)
    requires |from| > 0
    ensures ReplaceAll(s, from, to) == Join(Split(s, from), to)
  {
    if s == "" {
    } else if from <= s {
      JoinSplit(s[|from|..], from, to);
      JoinEmpty(Split(s[|from|..], from), to);
    } else {
      JoinSplit(s[1..], from, to);
      JoinCons(s[0], Split(s[1..], from), to);
    }
  }

  lemma JoinEmpty(pieces: seq<string>, sep: string)
    requires |pieces| > 0
    ensures Join([""] + pieces, sep) == sep + Join(pieces, sep)
  {
    assert ([""] + pieces)[1..] == pieces;
    assert "" + sep == sep;
  }

  lemma JoinCons(c: char, pieces: seq<string>, sep: string)
    requires |pieces| > 0
    ensures Join([[c] + pieces[0]] + pieces[1..], sep) == [c] + Join(pieces, sep)
  {
    var q := [[c] + pieces[0]] + pieces[1..];
    assert q[1..] == pieces[1..];
    if |pieces| > 1 {
      assert [c] + (pieces[0] + sep + Join(pieces[1..], sep)) == ([c] + pieces[0]) + sep + Join(pieces[1..], sep);
    }
  }

  /** A character in front brings no occurrence of `sep` into the first piece, unless the text starts with one. */
  lemma FirstPieceIsFree(c: char, piece: string, s: string, sep: string)
    requires |sep| > 0 && piece <= s && !Contains(piece, sep) && !(sep <= [c] + s)
    ensures !Contains([c] + piece, sep)
  {
    forall i ensures !OccursAt([c] + piece, sep, i) {
      if i == 0 {
        assert [c] + piece <= [c] + s;
      } else if 0 < i && i + |sep| <= 1 + |piece| {
        assert !OccursAt(piece, sep, i - 1);
        assert piece[i - 1..i - 1 + |sep|] == ([c] + piece)[i..i + |sep|];
      }
    }
  }

  lemma {:induction false} PiecesAreFree(s: string, sep: string)
    requires |sep| > 0
    ensures Split(s, sep)[0] <= s
    ensures forall p | p in Split(s, sep) :: !Contains(p, sep)
  {
    if s == "" {
    } else if sep <= s {
      PiecesAreFree(s[|sep|..], sep);
    } else {
      PiecesAreFree(s[1..], sep);
      var rest := Split(s[1..], sep);
      assert [s[0]] + s[1..] == s;
      FirstPieceIsFree(s[0], rest[0], s[1..], sep);
      forall p | p in Split(s, sep) ensures !Contains(p, sep) {
        assert p == [s[0]] + rest[0] || p in rest[1..];
      }
    }
  }

  lemma {:induction false} ReplaceAbsent(s: string, from: string, to: string)
    requires |from| > 0 && from[0] !in s
    ensures ReplaceAll(s, from, to) == s
  {
    if s != "" {
      ReplaceAbsent(s[1..], from, to);
    }
  }

  lemma ReplaceFront(w: string, rest: string, to: string)
    requires w != ""
    ensures ReplaceAll(w + rest, w, to) == to + ReplaceAll(rest, w, to)
  {
    assert (w + rest)[|w|..] == rest;
  }

  lemma ReplaceStep(c: char, rest: string, w: string, to: string)
    requires w != "" && c != w[0]
    ensures ReplaceAll([c] + rest, w, to) == [c] + ReplaceAll(rest, w, to)
  {
    assert ([c] + rest)[1..] == rest && ([c] + rest)[0] == c;
  }

  lemma ConsInFront(c: char, a: string, b: string, d: string)
    ensures ([c] + a) + b + d == [c] + (a + b + d)
  {
  }

  lemma {:induction false} ReplaceOnce(a: string, from: string, b: string, to: string)
    requires |from| > 0 && from[0] !in a && from[0] !in b
    ensures ReplaceAll(a + from + b, from, to) == a + to + b
  {
    if a == "" {
      assert a + from + b == from + b && a + to + b == to + b;
      ReplaceFront(from, b, to);
      ReplaceAbsent(b, from, to);
    } else {
      var rest := a[1..];
      ReplaceOnce(rest, from, b, to);
      ReplaceStep(a[0], rest + from + b, from, to);
      assert a == [a[0]] + rest;
      ConsInFront(a[0], rest, from, b);
      ConsInFront(a[0], rest, to, b);
    }
  }
}

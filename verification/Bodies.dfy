/** Masking a JSON body string by string, and restoring over its encoding. */
module Bodies {
  import opened Json
  import opened Replace
  import opened Desensitize
  import opened Restoring
  import Nesting

  // ---------- The walk ----------

  /** A member of an object after the walk, or an element of an array. Arrays inside arrays are passed over. */
  function Masked(v: Value, rules: seq<Rule>): Value {
    match v
    case Str(s) => Str(Mask(s, rules).text)
    case Obj(fields) => Obj(map k | k in fields :: Masked(fields[k], rules))
    case Arr(items) =>
      Arr(seq(|items|, i requires 0 <= i < |items| =>
                if items[i].Arr? then items[i] else Masked(items[i], rules)))
    case _ => v
  }

  /** The walk masks the string `s`. */
  ghost predicate Reaches(v: Value, s: string) {
    match v
    case Str(t) => s == t
    case Obj(fields) => exists k | k in fields :: Reaches(fields[k], s)
    case Arr(items) => exists i | 0 <= i < |items| && !items[i].Arr? :: Reaches(items[i], s)
    case _ => false
  }

  lemma PutBehind(a: map<string, string>, b: map<string, string>, c: map<string, string>)
    ensures a + (b + c) == a + b + c
  {
  }

  lemma BodyItemsSnoc(texts: seq<string>, text: string, rules: seq<Rule>)
    ensures BodyItems(texts + [text], rules) == BodyItems(texts, rules) + Mask(text, rules).items
  {
    assert (texts + [text])[..|texts|] == texts;
  }

  lemma {:induction false} BodyItemsAppend(a: seq<string>, b: seq<string>, rules: seq<Rule>)
    ensures BodyItems(a + b, rules) == BodyItems(a, rules) + BodyItems(b, rules)
    decreases |b|
  {
    if b == [] {
      assert a + b == a;
    } else {
      var front, last := b[..|b| - 1], b[|b| - 1];
      BodyItemsAppend(a, front, rules);
      assert a + b == (a + front) + [last] && b == front + [last];
      BodyItemsSnoc(a + front, last, rules);
      BodyItemsSnoc(front, last, rules);
      PutBehind(BodyItems(a, rules), BodyItems(front, rules), Mask(last, rules).items);
    }
  }

  /** The summaries of the strings one after another. */
  function BodySummary(texts: seq<string>, rules: seq<Rule>): seq<string> {
    if texts == [] then [] else BodySummary(texts[..|texts| - 1], rules) + Summary(texts[|texts| - 1], rules)
  }

  lemma BodySummarySnoc(texts: seq<string>, text: string, rules: seq<Rule>)
    ensures BodySummary(texts + [text], rules) == BodySummary(texts, rules) + Summary(text, rules)
  {
    assert (texts + [text])[..|texts|] == texts;
  }

  lemma BodySummaryStep(a: seq<string>, front: seq<string>, last: string, rules: seq<Rule>)
    requires BodySummary(a + front, rules) == BodySummary(a, rules) + BodySummary(front, rules)
    ensures BodySummary((a + front) + [last], rules) == BodySummary(a, rules) + BodySummary(front + [last], rules)
  {
    BodySummarySnoc(a + front, last, rules);
    BodySummarySnoc(front, last, rules);
    LinesBehind(BodySummary(a, rules), BodySummary(front, rules), Summary(last, rules));
  }

  lemma {:induction false} BodySummaryAppend(a: seq<string>, b: seq<string>, rules: seq<Rule>)
    ensures BodySummary(a + b, rules) == BodySummary(a, rules) + BodySummary(b, rules)
    decreases |b|
  {
    if b == [] {
      assert a + b == a;
    } else {
      var front, last := b[..|b| - 1], b[|b| - 1];
      assert b == front + [last];
      BodySummaryAppend(a, front, rules);
      BodySummaryStep(a, front, last, rules);
      assert a + b == (a + front) + [last];
    }
  }

  lemma WalkGrows(start: map<string, string>, lines: seq<string>, walked: seq<string>, more: seq<string>,
                  rules: seq<Rule>)
    ensures start + BodyItems(walked + more, rules) == start + BodyItems(walked, rules) + BodyItems(more, rules)
    ensures lines + BodySummary(walked + more, rules)
         == lines + BodySummary(walked, rules) + BodySummary(more, rules)
  {
    BodyItemsAppend(walked, more, rules);
    PutBehind(start, BodyItems(walked, rules), BodyItems(more, rules));
    BodySummaryAppend(walked, more, rules);
    LinesBehind(lines, BodySummary(walked, rules), BodySummary(more, rules));
  }

  /** An object when the members in `todo` are still to come. */
  function PartOfObject(obj: map<string, Value>, todo: set<string>, rules: seq<Rule>): map<string, Value> {
    map k | k in obj :: if k in todo then obj[k] else Masked(obj[k], rules)
  }

  /** `walked` holds the strings of the members not in `todo`. */
  ghost predicate WalkedObject(walked: seq<string>, obj: map<string, Value>, todo: set<string>) {
    forall s :: s in walked <==> exists k | k in obj && k !in todo :: Reaches(obj[k], s)
  }

  lemma ObjectStep(obj: map<string, Value>, todo: set<string>, key: string, rules: seq<Rule>)
    requires key in todo && todo <= obj.Keys
    ensures PartOfObject(obj, todo - {key}, rules)
         == PartOfObject(obj, todo, rules)[key := Masked(obj[key], rules)]
    ensures PartOfObject(obj, todo, rules)[key] == obj[key]
  {
  }

  lemma PutChanges(part: map<string, Value>, obj: map<string, Value>, key: string, out: Value)
    requires key in part && key in obj && part[key] == obj[key]
    ensures if out == obj[key] then part[key := out] == part else part[key := out] != obj
  {
    if out != obj[key] {
      assert part[key := out][key] != obj[key];
    }
  }

  lemma ObjectDone(obj: map<string, Value>, walked: seq<string>, rules: seq<Rule>)
    requires WalkedObject(walked, obj, {})
    ensures Obj(PartOfObject(obj, {}, rules)) == Masked(Obj(obj), rules)
    ensures forall s :: s in walked <==> Reaches(Obj(obj), s)
  {
  }

  lemma WalkedStep(walked: seq<string>, more: seq<string>, obj: map<string, Value>, todo: set<string>, key: string)
    requires key in todo && todo <= obj.Keys && WalkedObject(walked, obj, todo)
    requires forall s :: s in more <==> Reaches(obj[key], s)
    ensures WalkedObject(walked + more, obj, todo - {key})
  {
    forall s
      ensures s in walked + more <==> exists k | k in obj && k !in todo - {key} :: Reaches(obj[k], s)
    {
      assert s in walked + more <==> s in walked || s in more;
      assert s in walked <==> exists k | k in obj && k !in todo :: Reaches(obj[k], s);
    }
  }

  /** The walk over an object, whose members come in any order. */
  method DesensitizeJSON(obj: map<string, Value>, rules: seq<Rule>, mapping: ReplacementMap, redacted0: seq<string>)
    returns (masked: map<string, Value>, modified: bool, redacted: seq<string>, ghost walked: seq<string>)
    modifies mapping
    ensures Obj(masked) == Masked(Obj(obj), rules) && modified == (masked != obj)
    ensures mapping.items == old(mapping.items) + BodyItems(walked, rules)
    ensures redacted == redacted0 + BodySummary(walked, rules)
    ensures forall s :: s in walked <==> Reaches(Obj(obj), s)
    decreases Obj(obj), 1
  {
    masked, modified, redacted, walked := obj, false, redacted0, [];
    var todo := obj.Keys;
    assert PartOfObject(obj, todo, rules) == obj;
    while todo != {}
      invariant todo <= obj.Keys && masked == PartOfObject(obj, todo, rules) && modified == (masked != obj)
      invariant mapping.items == old(mapping.items) + BodyItems(walked, rules)
      invariant redacted == redacted0 + BodySummary(walked, rules)
      invariant WalkedObject(walked, obj, todo)
      decreases |todo|
    {
      var key :| key in todo;
      var out, changed;
      ghost var more;
      out, changed, redacted, more := DesensitizeMember(obj[key], rules, mapping, redacted);
      ObjectStep(obj, todo, key, rules);
      WalkedStep(walked, more, obj, todo, key);
      WalkGrows(old(mapping.items), redacted0, walked, more, rules);
      PutChanges(masked, obj, key, out);
      if changed {
        masked, modified := masked[key := out], true;
      }
      todo, walked := todo - {key}, walked + more;
    }
    ObjectDone(obj, walked, rules);
  }

  method DesensitizeMember(v: Value, rules: seq<Rule>, mapping: ReplacementMap, redacted0: seq<string>)
    returns (masked: Value, modified: bool, redacted: seq<string>, ghost walked: seq<string>)
    modifies mapping
    ensures masked == Masked(v, rules) && modified == (masked != v)
    ensures mapping.items == old(mapping.items) + BodyItems(walked, rules)
    ensures redacted == redacted0 + BodySummary(walked, rules)
    ensures forall s :: s in walked <==> Reaches(v, s)
    decreases v, 2
  {
    masked, modified, redacted, walked := v, false, redacted0, [];
    match v {
      case Str(s) =>
        var desensitized;
        desensitized, redacted := DesensitizeText(s, rules, mapping, redacted0);
        masked, modified, walked := Str(desensitized), desensitized != s, [s];
        BodyItemsSnoc([], s, rules);
        BodySummarySnoc([], s, rules);
      case Obj(fields) =>
        var obj;
        obj, modified, redacted, walked := DesensitizeJSON(fields, rules, mapping, redacted0);
        masked := Obj(obj);
      case Arr(items) =>
        var out;
        out, modified, redacted, walked := DesensitizeItems(items, rules, mapping, redacted0);
        masked := Arr(out);
      case _ =>
    }
  }

  /** An array when the elements from `i` on are still to come. */
  function PartOfArray(items: seq<Value>, i: nat, rules: seq<Rule>): seq<Value> {
    seq(|items|, k requires 0 <= k < |items| => if k < i && !items[k].Arr? then Masked(items[k], rules) else items[k])
  }

  ghost predicate WalkedArray(walked: seq<string>, items: seq<Value>, i: nat) {
    forall s :: s in walked <==> exists k: nat | k < i && k < |items| && !items[k].Arr? :: Reaches(items[k], s)
  }

  function MaskedItem(v: Value, rules: seq<Rule>): Value {
    if v.Arr? then v else Masked(v, rules)
  }

  lemma ArrayStep(items: seq<Value>, i: nat, rules: seq<Rule>)
    requires i < |items|
    ensures PartOfArray(items, i, rules)[i] == items[i]
    ensures PartOfArray(items, i + 1, rules) == PartOfArray(items, i, rules)[i := MaskedItem(items[i], rules)]
  {
  }

  lemma ItemChanges(part: seq<Value>, items: seq<Value>, i: nat, out: Value)
    requires |part| == |items| && i < |items| && part[i] == items[i]
    ensures if out == items[i] then part[i := out] == part else part[i := out] != items
  {
    if out != items[i] {
      assert part[i := out][i] != items[i];
    }
  }

  lemma ArrayDone(items: seq<Value>, walked: seq<string>, rules: seq<Rule>)
    requires WalkedArray(walked, items, |items|)
    ensures Arr(PartOfArray(items, |items|, rules)) == Masked(Arr(items), rules)
    ensures forall s :: s in walked <==> Reaches(Arr(items), s)
  {
  }

  lemma WalkedNext(walked: seq<string>, more: seq<string>, items: seq<Value>, i: nat)
    requires i < |items| && WalkedArray(walked, items, i)
    requires forall s :: s in more <==> !items[i].Arr? && Reaches(items[i], s)
    ensures WalkedArray(walked + more, items, i + 1)
  {
    forall s
      ensures s in walked + more
         <==> exists k: nat | k < i + 1 && k < |items| && !items[k].Arr? :: Reaches(items[k], s)
    {
      assert s in walked + more <==> s in walked || s in more;
      assert s in walked <==> exists k: nat | k < i && k < |items| && !items[k].Arr? :: Reaches(items[k], s);
    }
  }

  /** An element of an array; an array is passed over. */
  method DesensitizeItem(v: Value, rules: seq<Rule>, mapping: ReplacementMap, redacted0: seq<string>)
    returns (masked: Value, modified: bool, redacted: seq<string>, ghost walked: seq<string>)
    modifies mapping
    ensures masked == MaskedItem(v, rules) && modified == (masked != v)
    ensures mapping.items == old(mapping.items) + BodyItems(walked, rules)
    ensures redacted == redacted0 + BodySummary(walked, rules)
    ensures forall s :: s in walked <==> !v.Arr? && Reaches(v, s)
    decreases v, 3
  {
    masked, modified, redacted, walked := v, false, redacted0, [];
    if !v.Arr? {
      masked, modified, redacted, walked := DesensitizeMember(v, rules, mapping, redacted0);
    }
  }

  /** The loop over an array. */
  method DesensitizeItems(items: seq<Value>, rules: seq<Rule>, mapping: ReplacementMap, redacted0: seq<string>)
    returns (masked: seq<Value>, modified: bool, redacted: seq<string>, ghost walked: seq<string>)
    modifies mapping
    ensures Arr(masked) == Masked(Arr(items), rules) && modified == (masked != items)
    ensures mapping.items == old(mapping.items) + BodyItems(walked, rules)
    ensures redacted == redacted0 + BodySummary(walked, rules)
    ensures forall s :: s in walked <==> Reaches(Arr(items), s)
    decreases Arr(items), 1
  {
    masked, modified, redacted, walked := items, false, redacted0, [];
    assert PartOfArray(items, 0, rules) == items;
    for i := 0 to |items|
      invariant masked == PartOfArray(items, i, rules) && modified == (masked != items)
      invariant mapping.items == old(mapping.items) + BodyItems(walked, rules)
      invariant redacted == redacted0 + BodySummary(walked, rules)
      invariant WalkedArray(walked, items, i)
    {
      var out, changed;
      ghost var more;
      out, changed, redacted, more := DesensitizeItem(items[i], rules, mapping, redacted);
      ArrayStep(items, i, rules);
      ItemChanges(masked, items, i, out);
      WalkGrows(old(mapping.items), redacted0, walked, more, rules);
      WalkedNext(walked, more, items, i);
      if changed {
        masked, modified := masked[i := out], true;
      }
      walked := walked + more;
    }
    ArrayDone(items, walked, rules);
  }
}
